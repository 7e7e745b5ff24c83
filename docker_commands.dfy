/**
  The `docker run` command line built from a run request, the substitution of
  secret placeholders just before the command is handed to the remote shell,
  and the error text that is kept when the engine refuses the command. The
  kept text is built from the command with its placeholders still in place.
 */
module DockerCommands {
  import opened Wrappers
  import opened Text
  import opened DockerRequests

  /**
    A run request. Env, Mount, Ports, Params and Secrets are Go maps; here they are
    sequences of pairs, and the order of the sequence is the order of rendering.
    Secrets maps a placeholder (`**mysql**`) to a secret reference.
   */
  datatype RunRequest = RunRequest(
    target: Option<Target>,
    name: string,
    image: string,
    env: seq<(string, string)>,
    mount: seq<(string, string)>,
    ports: seq<(string, string)>,
    params: seq<(string, string)>,
    secrets: seq<(string, string)>)

  /** One flag with its argument, each followed by a space. */
  function Flag(option: string, argument: string): string {
    option + " " + argument + " "
  }

  /** `option key<sep>value ` for every entry, in order (`-e K=V`, `-v SRC:DST`, `-p HOST:CONTAINER`). */
  function PairFlags(option: string, sep: string, entries: seq<(string, string)>): string {
    if entries == [] then ""
    else Flag(option, entries[0].0 + sep + entries[0].1) + PairFlags(option, sep, entries[1..])
  }

  lemma PairFlagsSingle(option: string, sep: string, key: string, value: string)
    ensures PairFlags(option, sep, [(key, value)]) == option + " " + key + sep + value + " "
  {
    assert [(key, value)][1..] == [];
    assert option + " " + (key + sep + value) + " " == option + " " + key + sep + value + " ";
  }

  /** Free-form arguments `name value `, in order. */
  function ParamFlags(params: seq<(string, string)>): string {
    if params == [] then ""
    else Flag(params[0].0, params[0].1) + ParamFlags(params[1..])
  }

  /**
    The command line of `docker run`: `--name`, then every `-e`, every `-v`, every
    `-p`, the free-form arguments, and `-d image`. Every flag carries its own
    trailing space and one more space precedes `-d`, which is where the double
    space of "-p 3306:3306  -d mysql:5.6" comes from.
   */
  function RunCommand(r: RunRequest): string {
    "docker run --name " + r.name + " " + RunFlags(r) + " -d " + r.image
  }

  /** The flags between the container name and `-d`. */
  function RunFlags(r: RunRequest): string {
    PairFlags("-e", "=", r.env)
    + PairFlags("-v", ":", r.mount)
    + PairFlags("-p", ":", r.ports)
    + ParamFlags(r.params)
  }

  /** The words of a run command, as splitting it at spaces yields them. */
  function PairArgs(option: string, sep: string, entries: seq<(string, string)>): seq<string> {
    if entries == [] then []
    else [option, entries[0].0 + sep + entries[0].1] + PairArgs(option, sep, entries[1..])
  }

  function ParamArgs(params: seq<(string, string)>): seq<string> {
    if params == [] then [] else [params[0].0, params[0].1] + ParamArgs(params[1..])
  }

  function RunArgv(r: RunRequest): seq<string> {
    ["docker", "run", "--name", r.name] + RunFlagArgs(r) + ["-d", r.image]
  }

  function RunFlagArgs(r: RunRequest): seq<string> {
    PairArgs("-e", "=", r.env)
    + PairArgs("-v", ":", r.mount)
    + PairArgs("-p", ":", r.ports)
    + ParamArgs(r.params)
  }

  /** No key or value of the entries holds a space. */
  predicate SpaceFree(entries: seq<(string, string)>) {
    forall i :: 0 <= i < |entries| ==> ' ' !in entries[i].0 && ' ' !in entries[i].1
  }

  /** Every request field that becomes a word of the command is a word: it holds no space. */
  predicate ShellSafe(r: RunRequest) {
    && IsWord(r.name) && IsWord(r.image)
    && SpaceFree(r.env) && SpaceFree(r.mount) && SpaceFree(r.ports)
    && forall i :: 0 <= i < |r.params| ==> IsWord(r.params[i].0) && IsWord(r.params[i].1)
  }

  lemma SpaceFreeJoin(k: string, sep: string, v: string)
    requires ' ' !in k && ' ' !in v && IsWord(sep)
    ensures IsWord(k + sep + v)
  {
    assert forall c :: c in k + sep + v ==> c in k || c in sep || c in v;
  }

  lemma {:induction false} PairFlagsFields(option: string, sep: string, entries: seq<(string, string)>, rest: string)
    requires IsWord(option) && IsWord(sep) && SpaceFree(entries)
    ensures Fields(PairFlags(option, sep, entries) + rest) == PairArgs(option, sep, entries) + Fields(rest)
    decreases |entries|
  {
    if entries == [] {
      assert PairFlags(option, sep, entries) + rest == rest;
    } else {
      var arg := entries[0].0 + sep + entries[0].1;
      SpaceFreeJoin(entries[0].0, sep, entries[0].1);
      var tail := PairFlags(option, sep, entries[1..]);
      assert PairFlags(option, sep, entries) + rest == option + " " + arg + " " + (tail + rest);
      FlagFields(option, arg, tail + rest);
      assert SpaceFree(entries[1..]) by {
        assert forall i :: 0 <= i < |entries[1..]| ==> entries[1..][i] == entries[i + 1];
      }
      PairFlagsFields(option, sep, entries[1..], rest);
    }
  }

  lemma {:induction false} ParamFlagsFields(params: seq<(string, string)>, rest: string)
    requires forall i :: 0 <= i < |params| ==> IsWord(params[i].0) && IsWord(params[i].1)
    ensures Fields(ParamFlags(params) + rest) == ParamArgs(params) + Fields(rest)
    decreases |params|
  {
    if params == [] {
      assert ParamFlags(params) + rest == rest;
    } else {
      var tail := ParamFlags(params[1..]);
      assert ParamFlags(params) + rest == params[0].0 + " " + params[0].1 + " " + (tail + rest);
      FlagFields(params[0].0, params[0].1, tail + rest);
      assert forall i :: 0 <= i < |params[1..]| ==> params[1..][i] == params[i + 1];
      ParamFlagsFields(params[1..], rest);
    }
  }

  lemma RunFlagsFields(r: RunRequest, rest: string)
    requires ShellSafe(r)
    ensures Fields(RunFlags(r) + rest) == RunFlagArgs(r) + Fields(rest)
  {
    var env := PairFlags("-e", "=", r.env);
    var mount := PairFlags("-v", ":", r.mount);
    var ports := PairFlags("-p", ":", r.ports);
    var params := ParamFlags(r.params);
    assert RunFlags(r) + rest == env + (mount + (ports + (params + rest)));
    ParamFlagsFields(r.params, rest);
    PairFlagsFields("-p", ":", r.ports, params + rest);
    PairFlagsFields("-v", ":", r.mount, ports + (params + rest));
    PairFlagsFields("-e", "=", r.env, mount + (ports + (params + rest)));
  }

  lemma ImageFields(image: string)
    requires IsWord(image)
    ensures Fields(" -d " + image) == ["-d", image]
  {
    assert " -d " + image == "" + " " + ("-d" + " " + image);
    FieldsAtSpace("", "-d" + " " + image);
    FieldsAtSpace("-d", image);
    WordFields("-d");
    WordFields(image);
  }

  /**
    Split at spaces, the run command is exactly the intended words, in the
    order `--name`, `-e`, `-v`, `-p`, free-form, `-d image`; the double space
    before `-d` adds no word. This is a statement about spaces only: quoting,
    tabs and other shell metacharacters are not part of it, and `ShellSafe`
    excludes nothing but spaces.
   */
  lemma RunCommandArgv(r: RunRequest)
    requires ShellSafe(r)
    ensures Fields(RunCommand(r)) == RunArgv(r)
  {
    var flags := RunFlags(r) + (" -d " + r.image);
    ImageFields(r.image);
    RunFlagsFields(r, " -d " + r.image);
    var named := "--name" + " " + r.name + " " + flags;
    assert RunCommand(r) == "docker" + " " + "run" + " " + named by {
      CommandHead(r.name, RunFlags(r), r.image);
    }
    FlagFields("docker", "run", named);
    FlagFields("--name", r.name, flags);
  }

  lemma CommandHead(name: string, flags: string, image: string)
    ensures "docker run --name " + name + " " + flags + " -d " + image
         == "docker" + " " + "run" + " " + ("--name" + " " + name + " " + (flags + (" -d " + image)))
  {
    assert "docker run --name " == "docker" + " " + "run" + " " + "--name" + " ";
  }

  /** Every environment entry appears in the command as `-e KEY=VALUE`. */
  lemma {:induction false} EnvEntryRendered(env: seq<(string, string)>, i: nat)
    requires i < |env|
    ensures Contains(PairFlags("-e", "=", env), "-e " + env[i].0 + "=" + env[i].1)
    decreases |env|
  {
    var head := "-e " + env[0].0 + "=" + env[0].1;
    var tail := PairFlags("-e", "=", env[1..]);
    assert PairFlags("-e", "=", env) == "" + head + (" " + tail);
    if i == 0 {
      ContainsSelf(head);
      ContainsWithin("", head, " " + tail, head);
    } else {
      EnvEntryRendered(env[1..], i - 1);
      assert PairFlags("-e", "=", env) == (head + " ") + tail + "";
      ContainsWithin(head + " ", tail, "", "-e " + env[i].0 + "=" + env[i].1);
    }
  }

  /** Every environment value, a secret placeholder included, is written into the run command. */
  lemma EnvValueInCommand(r: RunRequest, i: nat)
    requires i < |r.env|
    ensures Contains(RunCommand(r), r.env[i].1)
  {
    var (key, value) := r.env[i];
    var entry := "-e " + key + "=" + value;
    var env := PairFlags("-e", "=", r.env);
    EnvEntryRendered(r.env, i);
    ContainsSelf(value);
    assert entry == ("-e " + key + "=") + value + "";
    ContainsWithin("-e " + key + "=", value, "", value);
    ContainsTransitive(env, entry, value);
    var before := "docker run --name " + r.name + " ";
    var after := PairFlags("-v", ":", r.mount) + PairFlags("-p", ":", r.ports) + ParamFlags(r.params) + " -d " + r.image;
    assert RunCommand(r) == before + env + after;
    ContainsWithin(before, env, after, value);
  }

  /**
    The command handed to the executor: every placeholder of `materials` replaced
    by its material, one placeholder after the other. The materials are the
    request's Secrets with each reference resolved (`ResolveSecrets`).
   */
  function Resolve(command: string, materials: seq<(string, string)>): string
    decreases |materials|
  {
    if materials == [] then command
    else Resolve(ReplaceAll(command, materials[0].0, materials[0].1), materials[1..])
  }

  /** A placeholder that does not occur in the command changes nothing. */
  lemma {:induction false} ResolveWithoutPlaceholders(command: string, materials: seq<(string, string)>)
    requires forall i :: 0 <= i < |materials| ==> !Contains(command, materials[i].0)
    ensures Resolve(command, materials) == command
    decreases |materials|
  {
    if materials != [] {
      ReplaceAllAbsent(command, materials[0].0, materials[0].1);
      assert forall i :: 0 <= i < |materials[1..]| ==> materials[1..][i] == materials[i + 1];
      ResolveWithoutPlaceholders(command, materials[1..]);
    }
  }

  /**
    One placeholder written once, with no partial occurrence before it and none
    after it, is replaced by its material and nothing else changes.
   */
  lemma ResolveOne(a: string, placeholder: string, b: string, material: string)
    requires |placeholder| > 0
    requires forall j :: 0 <= j < |a| ==> !OccursAt(a + placeholder, placeholder, j)
    requires !Contains(b, placeholder)
    ensures Resolve(a + placeholder + b, [(placeholder, material)]) == a + material + b
  {
    ReplaceAllAt(a, placeholder, b, material);
    ReplaceAllAbsent(b, placeholder, material);
    assert [(placeholder, material)][1..] == [];
  }

  /** The stderr sentinel of a host port that another container already binds. */
  const PortAllocated := "port is already allocated"

  /** What the service reports when a docker command fails. */
  datatype DockerError =
    | PortConflict(text: string)
    | ExecutionError(text: string)
    | ContainerNotFound(name: string)
    | Invalid(reason: ValidationError)
    | LoginFailed(output: string)
    | SecretResolutionError(reference: string)

  /** The retained error text for a command the engine refused. */
  function ExecutionErrorText(command: string, output: string): string {
    "error executing " + command + " , " + output + "\n at docker.run"
  }

  /**
    Classifies a refused run: a port conflict exactly when the engine's output
    names a port already allocated. Either way the text carries the command as
    given and the engine's output verbatim.
   */
  function ClassifyRunFailure(command: string, output: string): (e: DockerError)
    ensures e.PortConflict? || e.ExecutionError?
    ensures e.PortConflict? <==> Contains(output, PortAllocated)
    ensures Contains(e.text, command) && Contains(e.text, output)
  {
    var text := ExecutionErrorText(command, output);
    ContainsSelf(command);
    ContainsWithin("error executing ", command, " , " + output + "\n at docker.run", command);
    assert text == "error executing " + command + (" , " + output + "\n at docker.run");
    ContainsSelf(output);
    ContainsWithin("error executing " + command + " , ", output, "\n at docker.run", output);
    if Contains(output, PortAllocated) then PortConflict(text) else ExecutionError(text)
  }

  /** A placeholder written in the command is still there in the retained error text. */
  lemma RetainedErrorKeepsPlaceholder(command: string, output: string, placeholder: string)
    requires Contains(command, placeholder)
    ensures Contains(ClassifyRunFailure(command, output).text, placeholder)
  {
    var text := ClassifyRunFailure(command, output).text;
    assert text == "error executing " + command + (" , " + output + "\n at docker.run");
    ContainsWithin("error executing ", command, " , " + output + "\n at docker.run", placeholder);
  }

  /**
    The materials of a request's Secrets: each placeholder paired with what the
    resolver produces for its reference, in order. The first reference the
    resolver cannot produce material for fails the whole resolution.
   */
  function ResolveSecrets(secrets: seq<(string, string)>, resolver: string -> Option<string>)
    : (r: Result<seq<(string, string)>, DockerError>)
    ensures r.Success? <==> forall i :: 0 <= i < |secrets| ==> resolver(secrets[i].1).Some?
    ensures r.Success? ==> |r.value| == |secrets|
    ensures r.Success? ==> forall i :: 0 <= i < |secrets| ==> r.value[i] == (secrets[i].0, resolver(secrets[i].1).value)
    ensures r.Failure? ==> exists i :: && 0 <= i < |secrets| && resolver(secrets[i].1).None?
                                       && (forall j :: 0 <= j < i ==> resolver(secrets[j].1).Some?)
                                       && r.error == SecretResolutionError(secrets[i].1)
    decreases |secrets|
  {
    if secrets == [] then Success([])
    else
      var (placeholder, reference) := secrets[0];
      match resolver(reference)
      case None => Failure(SecretResolutionError(reference))
      case Some(material) =>
        var rest := ResolveSecrets(secrets[1..], resolver);
        ResolvedTail(secrets, resolver, rest);
        if rest.Failure? then rest else Success([(placeholder, material)] + rest.value)
  }

  /** How the resolution of `secrets[1..]` carries over to `secrets` once the first reference resolved. */
  lemma ResolvedTail(secrets: seq<(string, string)>, resolver: string -> Option<string>,
                     rest: Result<seq<(string, string)>, DockerError>)
    requires |secrets| > 0 && resolver(secrets[0].1).Some?
    requires rest.Success? <==> forall i :: 0 <= i < |secrets[1..]| ==> resolver(secrets[1..][i].1).Some?
    requires rest.Success? ==> |rest.value| == |secrets[1..]|
    requires rest.Success? ==> forall i :: 0 <= i < |secrets[1..]| ==> rest.value[i] == (secrets[1..][i].0, resolver(secrets[1..][i].1).value)
    requires rest.Failure? ==> exists i :: && 0 <= i < |secrets[1..]| && resolver(secrets[1..][i].1).None?
                                           && (forall j :: 0 <= j < i ==> resolver(secrets[1..][j].1).Some?)
                                           && rest.error == SecretResolutionError(secrets[1..][i].1)
    ensures rest.Success? <==> forall i :: 0 <= i < |secrets| ==> resolver(secrets[i].1).Some?
    ensures rest.Success? ==>
              var r := [(secrets[0].0, resolver(secrets[0].1).value)] + rest.value;
              forall i :: 0 <= i < |secrets| ==> r[i] == (secrets[i].0, resolver(secrets[i].1).value)
    ensures rest.Failure? ==> exists i :: && 0 <= i < |secrets| && resolver(secrets[i].1).None?
                                          && (forall j :: 0 <= j < i ==> resolver(secrets[j].1).Some?)
                                          && rest.error == SecretResolutionError(secrets[i].1)
  {
    assert forall i :: 1 <= i < |secrets| ==> secrets[i] == secrets[1..][i - 1];
    if rest.Failure? {
      var i :| && 0 <= i < |secrets[1..]| && resolver(secrets[1..][i].1).None?
               && (forall j :: 0 <= j < i ==> resolver(secrets[1..][j].1).Some?)
               && rest.error == SecretResolutionError(secrets[1..][i].1);
      assert secrets[i + 1] == secrets[1..][i];
      assert forall j :: 0 <= j < i + 1 ==> resolver(secrets[j].1).Some?;
    }
  }
}
