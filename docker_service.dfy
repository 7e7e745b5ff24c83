/**
  The docker service's run/start/stop/remove lifecycle and its registry logins,
  over a host whose containers form a table keyed by container name. A run
  asks for the container's status first and only creates a container that
  does not exist; what the engine answers to a dispatched `docker run`, and
  the secret service that resolves the request's Secrets, are parameters,
  because the remote shell and the secret store are not part of this model.
 */
module DockerService {
  import opened Wrappers
  import opened Text
  import opened DockerRequests
  import opened DockerCommands
  import opened DockerListing

  /** The engine's answer to a dispatched `docker run`, as the status query after it reports. */
  datatype RunReply =
    | Created(containerId: string, command: string, port: string)
    | Refused(output: string)

  /** The two credential shapes a registry login accepts. */
  datatype Credential =
    | KeyFile(json: string)
    | Basic(username: string, password: string)

  /** The user a login presents: a key file always logs in as `_json_key`. */
  function LoginUsername(c: Credential): (u: string)
    ensures c.KeyFile? ==> u == "_json_key"
    ensures c.Basic? ==> u == c.username
  {
    match c
    case KeyFile(_) => "_json_key"
    case Basic(username, _) => username
  }

  /** The line `docker login` prints on success. */
  const LoginSucceeded := "Login Succeeded"

  datatype LoginResponse = LoginResponse(username: string, stdout: string)

  datatype LogoutRequest = LogoutRequest(target: Option<Target>, repository: string)

  /** The names of `services`, as a set. */
  function NameSet(services: seq<string>): set<string> {
    set i | 0 <= i < |services| :: services[i]
  }

  class Host {
    /** The containers on the host, by name. */
    var containers: map<string, ContainerInfo>
    /** Every `docker run` handed to the executor, secrets resolved, oldest first. */
    var dispatched: seq<string>
    /** The user logged in to each (target, repository). */
    var logins: map<(Target, string), string>

    /** Every container is filed under its own name. */
    ghost predicate Valid()
      reads this
    {
      forall n :: n in containers ==> containers[n].names == n
    }

    constructor (containers: map<string, ContainerInfo>)
      requires forall n :: n in containers ==> containers[n].names == n
      ensures Valid()
      ensures this.containers == containers && dispatched == [] && logins == map[]
    {
      this.containers := containers;
      dispatched := [];
      logins := map[];
    }

    /** ContainerStatus for one name: the container's row, if it exists. */
    method Status(name: string) returns (r: Option<ContainerInfo>)
      requires Valid()
      ensures r.Some? <==> name in containers
      ensures r.Some? ==> r.value == containers[name] && r.value.names == name
    {
      if name in containers {
        r := Some(containers[name]);
      } else {
        r := None;
      }
    }

    /**
      ContainerStatus without names: every container of the host, each once. The
      order in which `docker ps` prints them is not modelled: the rows come in
      whatever order the table is enumerated.
     */
    method StatusAll() returns (r: seq<ContainerInfo>)
      requires Valid()
      ensures forall x :: x in r <==> x in containers.Values
      ensures forall i, j :: 0 <= i < j < |r| ==> r[i] != r[j]
    {
      var pending := containers.Keys;
      r := [];
      while pending != {}
        invariant pending <= containers.Keys
        invariant forall x :: x in r ==> x in containers.Values && x.names !in pending
        invariant forall n :: n in containers && n !in pending ==> containers[n] in r
        invariant forall i, j :: 0 <= i < j < |r| ==> r[i] != r[j]
        decreases pending
      {
        var n :| n in pending;
        assert containers[n].names == n;
        r := r + [containers[n]];
        pending := pending - {n};
      }
    }

    /**
      Run: a running container is reported as it is and nothing is dispatched;
      a stopped one is started; only an absent one gets a `docker run`. Its
      Secrets are resolved first, and a reference the resolver cannot produce
      fails the run before anything is dispatched; otherwise the command is sent
      with every placeholder replaced by its material, while a refusal is
      reported with the command as written and leaves the table as it was.
     */
    method Run(req: RunRequest, resolver: string -> Option<string>, reply: RunReply)
      returns (r: Result<ContainerInfo, DockerError>)
      requires Valid()
      modifies this
      ensures Valid() && logins == old(logins)
      ensures req.name in old(containers) && old(containers)[req.name].status == Up ==>
                && r == Success(old(containers)[req.name])
                && containers == old(containers) && dispatched == old(dispatched)
      ensures req.name in old(containers) && old(containers)[req.name].status == Down ==>
                && r == Success(old(containers)[req.name].(status := Up))
                && containers == old(containers)[req.name := r.value]
                && dispatched == old(dispatched)
      ensures req.name !in old(containers) && ResolveSecrets(req.secrets, resolver).Failure? ==>
                && r == Failure(ResolveSecrets(req.secrets, resolver).error)
                && containers == old(containers) && dispatched == old(dispatched)
      ensures req.name !in old(containers) && ResolveSecrets(req.secrets, resolver).Success? ==>
                dispatched == old(dispatched) + [Resolve(RunCommand(req), ResolveSecrets(req.secrets, resolver).value)]
      ensures req.name !in old(containers) && ResolveSecrets(req.secrets, resolver).Success? && reply.Refused? ==>
                && r == Failure(ClassifyRunFailure(RunCommand(req), reply.output))
                && containers == old(containers)
      ensures req.name !in old(containers) && ResolveSecrets(req.secrets, resolver).Success? && reply.Created? ==>
                && r == Success(ContainerInfo(reply.containerId, req.image, reply.command, Up, reply.port, req.name))
                && containers == old(containers)[req.name := r.value]
    {
      var current := Status(req.name);
      if current.Some? {
        if current.value.status == Up {
          r := Success(current.value);
        } else {
          r := Start(req.name);
        }
        return;
      }
      var materials := ResolveSecrets(req.secrets, resolver);
      if materials.Failure? {
        return Failure(materials.error);
      }
      var command := RunCommand(req);
      dispatched := dispatched + [Resolve(command, materials.value)];
      match reply {
        case Refused(output) =>
          r := Failure(ClassifyRunFailure(command, output));
        case Created(containerId, cmd, port) =>
          var info := ContainerInfo(containerId, req.image, cmd, Up, port, req.name);
          containers := containers[req.name := info];
          r := Success(info);
      }
    }

    /** Start: an existing container becomes `up` and keeps every other attribute. */
    method Start(name: string) returns (r: Result<ContainerInfo, DockerError>)
      requires Valid()
      modifies this`containers
      ensures Valid()
      ensures name !in old(containers) ==> r == Failure(ContainerNotFound(name)) && containers == old(containers)
      ensures name in old(containers) ==>
                && r == Success(old(containers)[name].(status := Up))
                && containers == old(containers)[name := r.value]
    {
      if name !in containers {
        return Failure(ContainerNotFound(name));
      }
      var info := containers[name].(status := Up);
      containers := containers[name := info];
      r := Success(info);
    }

    /** Stop: an existing container becomes `down` and keeps every other attribute. */
    method Stop(name: string) returns (r: Result<ContainerInfo, DockerError>)
      requires Valid()
      modifies this`containers
      ensures Valid()
      ensures name !in old(containers) ==> r == Failure(ContainerNotFound(name)) && containers == old(containers)
      ensures name in old(containers) ==>
                && r == Success(old(containers)[name].(status := Down))
                && containers == old(containers)[name := r.value]
    {
      if name !in containers {
        return Failure(ContainerNotFound(name));
      }
      var info := containers[name].(status := Down);
      containers := containers[name := info];
      r := Success(info);
    }

    /** Remove: the container leaves the table and the command echoes its name. */
    method Remove(name: string) returns (r: Result<string, DockerError>)
      requires Valid()
      modifies this`containers
      ensures Valid()
      ensures name !in old(containers) ==> r == Failure(ContainerNotFound(name)) && containers == old(containers)
      ensures name in old(containers) ==> r == Success(name) && containers == old(containers) - {name}
    {
      if name !in containers {
        return Failure(ContainerNotFound(name));
      }
      containers := containers - {name};
      r := Success(name);
    }

    /**
      Compose down: the services' containers leave the table, and the status of
      the services queried afterwards is an empty list, not an error.
     */
    method ComposeDown(services: seq<string>) returns (r: seq<ContainerInfo>)
      requires Valid()
      modifies this`containers
      ensures Valid()
      ensures containers == old(containers) - NameSet(services)
      ensures r == Listing(containers, services) && r == []
    {
      containers := containers - NameSet(services);
      ListingOfAbsent(containers, services);
      r := Listing(containers, services);
    }

    /**
      Login: a request without target or repository is rejected before anything
      runs; otherwise the login succeeds exactly when the engine prints
      "Login Succeeded", and the session of (target, repository) then records the
      user the credential shape determines.
     */
    method Login(req: LoginRequest, credential: Credential, output: string)
      returns (r: Result<LoginResponse, DockerError>)
      modifies this`logins
      ensures ValidateLogin(req).Fail? ==> r == Failure(Invalid(ValidateLogin(req).error)) && logins == old(logins)
      ensures ValidateLogin(req).Pass? && !Contains(output, LoginSucceeded) ==>
                r == Failure(LoginFailed(output)) && logins == old(logins)
      ensures ValidateLogin(req).Pass? && Contains(output, LoginSucceeded) ==>
                && r == Success(LoginResponse(LoginUsername(credential), LoginSucceeded))
                && logins == old(logins)[(req.target.value, req.repository) := LoginUsername(credential)]
    {
      var valid := ValidateLogin(req);
      if valid.Fail? {
        return Failure(Invalid(valid.error));
      }
      if !Contains(output, LoginSucceeded) {
        return Failure(LoginFailed(output));
      }
      var username := LoginUsername(credential);
      logins := logins[(req.target.value, req.repository) := username];
      r := Success(LoginResponse(username, LoginSucceeded));
    }

    /** Logout never fails, whether or not a login preceded it. */
    method Logout(req: LogoutRequest) returns (r: Outcome<DockerError>)
      modifies this`logins
      ensures r == Pass
      ensures req.target.Some? ==> logins == old(logins) - {(req.target.value, req.repository)}
      ensures req.target.None? ==> logins == old(logins)
    {
      if req.target.Some? {
        logins := logins - {(req.target.value, req.repository)};
      }
      r := Pass;
    }
  }
}
