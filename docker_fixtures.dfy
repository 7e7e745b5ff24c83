/**
  The cases of the docker service's test suite, stated over the model: tag
  strings, request validation, the image filter, the exact run command and its
  port-conflict error, and the lifecycle and login results.
 */
module DockerFixtures {
  import opened Wrappers
  import opened Text
  import opened DockerRequests
  import opened DockerCommands
  import opened DockerListing
  import opened DockerService

  const Remote: Target := Target("scp://127.0.0.1:22/")
  const Abc: Target := Target("abc")

  /** Tag.String on the four tags of the suite. */
  lemma TagStringCases()
    ensures TagString(Tag("", "", "abc", "")) == "abc"
    ensures TagString(Tag("", "", "abc", "latest")) == "abc:latest"
    ensures TagString(Tag("reg.org", "", "abc", "latest")) == "reg.org/abc:latest"
    ensures TagString(Tag("", "reg.org", "abc", "latest")) == "reg.org/abc:latest"
  {
  }

  /** LoginRequest.Validate on the four requests of the suite. */
  lemma ValidateLoginCases()
    ensures ValidateLogin(LoginRequest(None, "", "")).Fail?
    ensures ValidateLogin(LoginRequest(Some(Abc), "", "")).Fail?
    ensures ValidateLogin(LoginRequest(None, "abc", "")).Fail?
    ensures ValidateLogin(LoginRequest(Some(Abc), "abc", "")).Pass?
  {
  }

  /** BuildRequest.Validate on the five requests of the suite. */
  lemma ValidateBuildCases()
    ensures ValidateBuild(BuildRequest(None, None, "", [])).Fail?
    ensures ValidateBuild(BuildRequest(Some(Abc), Some(EmptyTag), "", [])).Fail?
    ensures ValidateBuild(BuildRequest(Some(Abc), Some(EmptyTag.(image := "abc")), "/", [("-t", "image:1.0")])).Pass?
    ensures ValidateBuild(BuildRequest(Some(Abc), Some(EmptyTag.(image := "abc")), "/", [])).Pass?
    ensures ValidateBuild(BuildRequest(Some(Abc), Some(EmptyTag.(image := "abc")), "", [])).Fail?
  {
  }

  /** TagRequest.Validate on the seven requests of the suite. */
  lemma ValidateTagCases()
    ensures ValidateTag(TagRequest(None, None, None)).Fail?
    ensures ValidateTag(TagRequest(Some(Abc), None, None)).Fail?
    ensures ValidateTag(TagRequest(Some(Abc), Some(EmptyTag), None)).Fail?
    ensures ValidateTag(TagRequest(Some(Abc), Some(EmptyTag), Some(EmptyTag))).Fail?
    ensures ValidateTag(TagRequest(Some(Abc), Some(EmptyTag), Some(EmptyTag.(image := "abc")))).Fail?
    ensures ValidateTag(TagRequest(Some(Abc), Some(EmptyTag.(image := "abc")), Some(EmptyTag))).Fail?
    ensures ValidateTag(TagRequest(Some(Abc), Some(EmptyTag.(image := "abc")), Some(EmptyTag.(image := "abc")))).Pass?
  {
  }

  /** The two rows of the image listing; both sizes are whole mebibytes (299 and 408 MiB). */
  const Mysql56: ImageInfo := ImageInfo("mysql", "5.6", "96dc914914f5", 313524224)
  const Mysql57: ImageInfo := ImageInfo("mysql", "5.7", "5709795eeffa", 427819008)

  /** Repository "mysql" with Tag "5.6" selects exactly one row; no filter selects both, in order. */
  lemma ImageFilterCases()
    ensures FilterImages([Mysql56, Mysql57], "mysql", "5.6") == [Mysql56]
    ensures FilterImages([Mysql56, Mysql57], "", "") == [Mysql56, Mysql57]
  {
    FilterImagesUnfiltered([Mysql56, Mysql57]);
  }

  /** The run request of the port-conflict case, its one secret still a placeholder. */
  const MysqlRun: RunRequest := RunRequest(
    Some(Remote), "testMysql01", "mysql:5.6",
    [("MYSQL_ROOT_PASSWORD", "**mysql**")],
    [("/tmp/my.cnf", "/etc/my.cnf")],
    [("3306", "3306")],
    [],
    [("**mysql**", "mysql-credential")])

  const MysqlRunCommand :=
    "docker run --name testMysql01 -e MYSQL_ROOT_PASSWORD=**mysql** -v /tmp/my.cnf:/etc/my.cnf -p 3306:3306  -d mysql:5.6"

  /** The exact command line, double space before `-d` included. */
  lemma MysqlRunCommandCase()
    ensures RunCommand(MysqlRun) == MysqlRunCommand
  {
    MysqlRunFlags();
    MysqlRunCommandPrefix();
    MysqlRunCommandSuffix();
  }

  // The literal steps of MysqlRunCommandCase, one short append at a time.

  lemma MysqlRunFlags()
    ensures RunFlags(MysqlRun) == "-e MYSQL_ROOT_PASSWORD=**mysql** " + "-v /tmp/my.cnf:/etc/my.cnf " + "-p 3306:3306 "
  {
    MysqlEnvFlag();
    MysqlMountFlag();
    MysqlPortFlag();
    assert ParamFlags(MysqlRun.params) == "";
  }

  lemma MysqlEnvFlag()
    ensures PairFlags("-e", "=", MysqlRun.env) == "-e MYSQL_ROOT_PASSWORD=**mysql** "
  {
    PairFlagsSingle("-e", "=", "MYSQL_ROOT_PASSWORD", "**mysql**");
    assert "-e" + " " + "MYSQL_ROOT_PASSWORD" == "-e MYSQL_ROOT_PASSWORD";
  }

  lemma MysqlMountFlag()
    ensures PairFlags("-v", ":", MysqlRun.mount) == "-v /tmp/my.cnf:/etc/my.cnf "
  {
    PairFlagsSingle("-v", ":", "/tmp/my.cnf", "/etc/my.cnf");
  }

  lemma MysqlPortFlag()
    ensures PairFlags("-p", ":", MysqlRun.ports) == "-p 3306:3306 "
  {
    PairFlagsSingle("-p", ":", "3306", "3306");
  }

  lemma MysqlRunCommandPrefix()
    ensures "docker run --name " + "testMysql01" + " "
            + ("-e MYSQL_ROOT_PASSWORD=**mysql** " + "-v /tmp/my.cnf:/etc/my.cnf " + "-p 3306:3306 ")
         == "docker run --name testMysql01 -e MYSQL_ROOT_PASSWORD=**mysql** -v /tmp/my.cnf:/etc/my.cnf -p 3306:3306 "
  {
    MysqlRunEnvStep();
    MysqlRunMountStep();
    MysqlRunPortsStep();
  }

  lemma MysqlRunEnvStep()
    ensures "docker run --name " + "testMysql01" + " " + "-e MYSQL_ROOT_PASSWORD=**mysql** "
         == "docker run --name testMysql01 -e MYSQL_ROOT_PASSWORD=**mysql** "
  {
    assert "docker run --name " + "testMysql01" + " " == "docker run --name testMysql01 ";
  }

  lemma MysqlRunMountStep()
    ensures "docker run --name testMysql01 -e MYSQL_ROOT_PASSWORD=**mysql** " + "-v /tmp/my.cnf:/etc/my.cnf "
         == "docker run --name testMysql01 -e MYSQL_ROOT_PASSWORD=**mysql** -v /tmp/my.cnf:/etc/my.cnf "
  {
  }

  lemma MysqlRunPortsStep()
    ensures "docker run --name testMysql01 -e MYSQL_ROOT_PASSWORD=**mysql** -v /tmp/my.cnf:/etc/my.cnf " + "-p 3306:3306 "
         == "docker run --name testMysql01 -e MYSQL_ROOT_PASSWORD=**mysql** -v /tmp/my.cnf:/etc/my.cnf -p 3306:3306 "
  {
  }

  lemma MysqlRunCommandSuffix()
    ensures "docker run --name testMysql01 -e MYSQL_ROOT_PASSWORD=**mysql** -v /tmp/my.cnf:/etc/my.cnf -p 3306:3306 "
            + " -d " + "mysql:5.6"
         == MysqlRunCommand
  {
  }

  /** The secret service of the run cases: the mysql credential's material is `dev`. */
  function MysqlResolver(reference: string): Option<string> {
    if reference == "mysql-credential" then Some("dev") else None
  }

  /** The command text on either side of the placeholder, as the run command renders it. */
  const MysqlBeforeSecret := "docker run --name " + "testMysql01" + " " + "-e MYSQL_ROOT_PASSWORD="
  const MysqlAfterSecret := " " + "-v /tmp/my.cnf:/etc/my.cnf " + "-p 3306:3306 " + " -d " + "mysql:5.6"

  /** The command the executor receives for the port-conflict case: the password in place of `**mysql**`. */
  const MysqlDispatchedCommand := MysqlBeforeSecret + "dev" + MysqlAfterSecret

  /**
    The mysql credential resolves to `dev`, and the dispatched command carries
    `-e MYSQL_ROOT_PASSWORD=dev` where the written one has the placeholder; no
    placeholder is left in it.
   */
  lemma MysqlDispatchedCase()
    ensures ResolveSecrets(MysqlRun.secrets, MysqlResolver) == Success([("**mysql**", "dev")])
    ensures Resolve(RunCommand(MysqlRun), [("**mysql**", "dev")]) == MysqlDispatchedCommand
    ensures MysqlDispatchedCommand
         == "docker run --name testMysql01 " + "-e MYSQL_ROOT_PASSWORD=dev" + " -v /tmp/my.cnf:/etc/my.cnf -p 3306:3306  -d mysql:5.6"
    ensures Contains(MysqlDispatchedCommand, "-e MYSQL_ROOT_PASSWORD=dev")
    ensures !Contains(MysqlDispatchedCommand, "**mysql**")
  {
    assert MysqlRun.secrets[0].1 == "mysql-credential";
    assert MysqlResolver("mysql-credential") == Some("dev");
    var materials := ResolveSecrets(MysqlRun.secrets, MysqlResolver);
    assert materials.Success? && |materials.value| == 1;
    assert materials.value == [materials.value[0]] == [("**mysql**", "dev")];
    MysqlCommandAroundSecret();
    MysqlNoStar();
    NoHeadNoOccurrence(MysqlBeforeSecret, "**mysql**");
    NoHeadNoOccurrence(MysqlAfterSecret, "**mysql**");
    ResolveOne(MysqlBeforeSecret, "**mysql**", MysqlAfterSecret, "dev");
    MysqlDispatchedText();
    ContainsSelf("-e MYSQL_ROOT_PASSWORD=dev");
    ContainsWithin("docker run --name testMysql01 ", "-e MYSQL_ROOT_PASSWORD=dev",
                   " -v /tmp/my.cnf:/etc/my.cnf -p 3306:3306  -d mysql:5.6", "-e MYSQL_ROOT_PASSWORD=dev");
    assert '*' !in MysqlDispatchedCommand;
    NoHeadNoOccurrence(MysqlDispatchedCommand, "**mysql**");
  }

  /** The run command is the text before the placeholder, the placeholder, and the text after it. */
  lemma MysqlCommandAroundSecret()
    ensures RunCommand(MysqlRun) == MysqlBeforeSecret + "**mysql**" + MysqlAfterSecret
  {
    MysqlRunFlags();
    assert "-e MYSQL_ROOT_PASSWORD=**mysql** " == "-e MYSQL_ROOT_PASSWORD=" + "**mysql**" + " ";
    Regroup("docker run --name ", "testMysql01", "-e MYSQL_ROOT_PASSWORD=", "**mysql**",
            "-v /tmp/my.cnf:/etc/my.cnf ", "-p 3306:3306 ", "mysql:5.6");
  }

  lemma Regroup(head: string, name: string, key: string, value: string, mount: string, port: string, image: string)
    ensures head + name + " " + (key + value + " " + mount + port) + " -d " + image
         == (head + name + " " + key) + value + (" " + mount + port + " -d " + image)
  {
  }

  /** Neither side of the placeholder holds a `*`. */
  lemma MysqlNoStar()
    ensures '*' !in MysqlBeforeSecret && '*' !in MysqlAfterSecret && '*' !in "dev"
  {
    assert '*' !in "docker run --name " && '*' !in "testMysql01" && '*' !in "-e MYSQL_ROOT_PASSWORD=";
    assert '*' !in "-v /tmp/my.cnf:/etc/my.cnf " && '*' !in "-p 3306:3306 " && '*' !in "mysql:5.6";
  }

  lemma MysqlDispatchedText()
    ensures MysqlDispatchedCommand
         == "docker run --name testMysql01 " + "-e MYSQL_ROOT_PASSWORD=dev" + " -v /tmp/my.cnf:/etc/my.cnf -p 3306:3306  -d mysql:5.6"
  {
    assert MysqlBeforeSecret + "dev" == "docker run --name testMysql01 " + "-e MYSQL_ROOT_PASSWORD=dev";
    assert " " + "-v /tmp/my.cnf:/etc/my.cnf " == " -v /tmp/my.cnf:/etc/my.cnf ";
    assert " -v /tmp/my.cnf:/etc/my.cnf " + "-p 3306:3306 " == " -v /tmp/my.cnf:/etc/my.cnf -p 3306:3306 ";
    assert " -v /tmp/my.cnf:/etc/my.cnf -p 3306:3306 " + " -d " == " -v /tmp/my.cnf:/etc/my.cnf -p 3306:3306  -d ";
    assert " -v /tmp/my.cnf:/etc/my.cnf -p 3306:3306  -d " + "mysql:5.6" == " -v /tmp/my.cnf:/etc/my.cnf -p 3306:3306  -d mysql:5.6";
  }

  /** The container id docker printed, and the daemon's refusal on stderr. */
  const RefusalId := "c3d9749a1dc43332bb5a58330187719d14c9c23cee55f583cb83bbb3bbb98a80"
  const RefusalStderr :=
    "docker: Error response from daemon: driver failed programming external connectivity on endpoint testMysql01 (5c9925d698dfee79f14483fbc42a3837abfb482e30c70e53d830d3d9cfd6f0da): Error starting userland proxy: Bind for 0.0.0.0:3306 failed: "
    + PortAllocated + "."
  const RefusalOutput := RefusalId + "\n" + RefusalStderr

  /** The expected error of the port-conflict case: the command as written, then the engine's output. */
  const MysqlRunError := "error executing " + MysqlRunCommand + " , " + RefusalOutput + "\n at docker.run"

  /**
    The refusal is a port conflict whose text is the test's expected error: the
    command with `**mysql**` unresolved, then the daemon's output verbatim.
   */
  lemma MysqlRunErrorCase()
    ensures ClassifyRunFailure(RunCommand(MysqlRun), RefusalOutput) == PortConflict(MysqlRunError)
    ensures Contains(MysqlRunError, "**mysql**")
  {
    MysqlRunCommandCase();
    var before := RefusalId + "\n" + "docker: Error response from daemon: driver failed programming external connectivity on endpoint testMysql01 (5c9925d698dfee79f14483fbc42a3837abfb482e30c70e53d830d3d9cfd6f0da): Error starting userland proxy: Bind for 0.0.0.0:3306 failed: ";
    assert RefusalOutput == before + PortAllocated + ".";
    ContainsSelf(PortAllocated);
    ContainsWithin(before, PortAllocated, ".", PortAllocated);
    EnvValueInCommand(MysqlRun, 0);
    RetainedErrorKeepsPlaceholder(RunCommand(MysqlRun), RefusalOutput, "**mysql**");
  }

  /** The container db1 of the status, start, stop and remove cases. */
  const Db1: ContainerInfo :=
    ContainerInfo("b5bcc949f075", "mysql:5.6", "docker-entrypoint...", Up, "0.0.0.0:3306->3306/tcp", "db1")

  /** The status of a host running only db1 lists db1 first, with every attribute as the engine reported it. */
  method StatusUpCase() returns (listed: seq<ContainerInfo>)
    ensures |listed| > 0 && listed[0] == Db1
    ensures StatusText(listed[0].status) == "up"
  {
    var host := new Host(map["db1" := Db1]);
    assert host.containers.Values == {Db1} by {
      assert host.containers["db1"] == Db1;
    }
    listed := host.StatusAll();
    assert Db1 in listed;
    assert listed[0] in host.containers.Values;
  }

  /** Stop turns db1 `down` and keeps the rest of its row; Start brings it back `up`. */
  method StopStartCase() returns (stopped: Result<ContainerInfo, DockerError>, started: Result<ContainerInfo, DockerError>)
    ensures stopped.Success? && started.Success?
    ensures StatusText(stopped.value.status) == "down" && StatusText(started.value.status) == "up"
    ensures stopped.value.(status := Up) == Db1 && started.value == Db1
  {
    var host := new Host(map["db1" := Db1]);
    stopped := host.Stop("db1");
    started := host.Start("db1");
  }

  /** Remove echoes the removed name; a second remove finds nothing. */
  method RemoveCase() returns (removed: Result<string, DockerError>, again: Result<string, DockerError>)
    ensures removed == Success("db1")
    ensures again == Failure(ContainerNotFound("db1"))
  {
    var host := new Host(map["db1" := Db1]);
    removed := host.Remove("db1");
    again := host.Remove("db1");
  }

  /** Compose down of the redis service reports `{"Containers":[]}` and no error. */
  method ComposeDownCase() returns (listed: seq<ContainerInfo>)
    ensures listed == []
  {
    var redis := ContainerInfo("5280cb455e33", "redis", "docker-entrypoint.s…", Up, "6379/tcp", "redis");
    var host := new Host(map["redis" := redis]);
    listed := host.ComposeDown(["redis"]);
  }

  /**
    The run cases: a running testMysql is reported as it is without a dispatch,
    a stopped one is started, an absent one is created with the id the engine
    assigns, and an absent testMysql01 whose port is taken fails with the
    expected text, the command it was sent having its password in place.
   */
  method RunCases()
    returns (active: Result<ContainerInfo, DockerError>, existing: Result<ContainerInfo, DockerError>,
             created: Result<ContainerInfo, DockerError>, refused: Result<ContainerInfo, DockerError>,
             activeDispatched: nat, refusedDispatched: seq<string>)
    ensures active.Success? && active.value.names == "testMysql" && active.value.containerId == "84df38a810f7"
    ensures active.value.status == Up
    ensures activeDispatched == 0
    ensures existing.Success? && existing.value.status == Up && existing.value.containerId == "83ed7b545cbf"
    ensures existing.value.names == "testMysql"
    ensures created.Success? && created.value.status == Up && created.value.names == "testMysql"
    ensures created.value.containerId == "98a28566ba7a"
    ensures refused == Failure(PortConflict(MysqlRunError))
    ensures refusedDispatched == [MysqlDispatchedCommand]
  {
    var request := MysqlRun.(name := "testMysql");
    var running := ContainerInfo("84df38a810f7", "mysql:5.6", "docker-entrypoint...", Up, "0.0.0.0:3306->3306/tcp", "testMysql");
    var host := new Host(map["testMysql" := running]);
    active := host.Run(request, MysqlResolver, Refused(""));
    activeDispatched := |host.dispatched|;

    var stoppedRow := running.(containerId := "83ed7b545cbf", status := Down);
    host := new Host(map["testMysql" := stoppedRow]);
    existing := host.Run(request, MysqlResolver, Refused(""));

    MysqlDispatchedCase();
    assert request.secrets == MysqlRun.secrets;
    host := new Host(map[]);
    created := host.Run(request, MysqlResolver, Created("98a28566ba7a", "docker-entrypoint...", "0.0.0.0:3306->3306/tcp"));

    host := new Host(map[]);
    MysqlRunErrorCase();
    refused := host.Run(MysqlRun, MysqlResolver, Refused(RefusalOutput));
    assert refused == Failure(ClassifyRunFailure(RunCommand(MysqlRun), RefusalOutput));
    refusedDispatched := host.dispatched;
  }

  /** A secret service that knows no credential fails the run before any command is dispatched. */
  method UnresolvedSecretCase() returns (r: Result<ContainerInfo, DockerError>, dispatched: seq<string>)
    ensures r == Failure(SecretResolutionError("mysql-credential"))
    ensures dispatched == []
  {
    var host := new Host(map[]);
    r := host.Run(MysqlRun, _ => None, Refused(""));
    dispatched := host.dispatched;
  }

  /** A key-file login to us.gcr.io presents `_json_key`; logging out afterwards succeeds. */
  method LoginKeyFileCase() returns (login: Result<LoginResponse, DockerError>, logout: Outcome<DockerError>)
    ensures login == Success(LoginResponse("_json_key", "Login Succeeded"))
    ensures logout == Pass
  {
    var host := new Host(map[]);
    var request := LoginRequest(Some(Remote), "us.gcr.io/myproj", "test/gcr_key.json");
    ContainsSelf(LoginSucceeded);
    login := host.Login(request, KeyFile("{}"), LoginSucceeded);
    logout := host.Logout(LogoutRequest(Some(Remote), "us.gcr.io/myproj"));
  }

  /** A login the registry refuses reports an error, and the logout after it still succeeds. */
  method LoginRefusedCase(output: string) returns (login: Result<LoginResponse, DockerError>, logout: Outcome<DockerError>)
    requires !Contains(output, LoginSucceeded)
    ensures login.Failure?
    ensures logout == Pass
  {
    var host := new Host(map[]);
    var request := LoginRequest(Some(Remote), "repo.com/myproj", "test/key.json");
    login := host.Login(request, KeyFile("{}"), output);
    logout := host.Logout(LogoutRequest(Some(Remote), "repo.com/myproj"));
  }
}
