# endly: docker over ssh, and the workflow helpers

This project models two parts of endly, the Go end-to-end testing and
automation tool. It proves properties of both models in Dafny.

**The docker-over-ssh service** (`system/docker/ssh`). The service
implementation is not part of this model. What is modelled is the behaviour
its test suite asserts. That covers:

- the canonical string of an image `Tag`;
- the `Validate` rules of the login, build and tag requests;
- the exact `docker run` command line built from a run request, with its
  secret placeholders left unresolved in the error text that is kept;
- the resolution of a run request's Secrets and the substitution of each
  placeholder in the command that is dispatched;
- the Repository/Tag filter of the image listing and the container status
  listing;
- the run/start/stop/remove lifecycle over a table of named containers;
- compose down reporting an empty container list;
- the user name a registry login presents.

Modules:

- `DockerRequests` holds the value rules: `Tag` and the three validations.
- `DockerCommands` renders commands, resolves secrets and classifies errors.
- `DockerListing` holds the listing rows and the filters.
- `DockerService` has a `Host` class whose methods change the container
  table, the log of dispatched commands and the login sessions.
- `DockerFixtures` restates the test cases over the model.

**The workflow helpers** (`workflow/helper.go`), in module `WorkflowHelper`:

- the process stack stored in an execution context, created on first use;
- `Push`, `Pop` and `Last`, with the context's source following the processes
  that carry one;
- the two candidate URLs of a workflow file;
- `GetResource`, which searches storage and then the shared file system;
- `isWorkflowRunAction`;
- `runWithoutSelfIfNeeded`, which hides the caller's `self` state entry from
  a nested workflow run and puts it back afterwards.

Module `Text` holds string functions after Go's `strings` package. Two kinds
are there. `Contains`, `HasPrefix` and `Replace` with n = 1 are what
`workflow/helper.go` calls. `Index`, `ReplaceAll`, `LastIndexByte` and `Fields`
(splitting at the space character only) are used by the model itself: to
substitute secrets, to read a tag string back, and to split a command line
into words. `Wrappers` holds `Option`, `Result` and `Outcome`.

Choices the source leaves open, stated as such in the model:

- `Tag.String` uses the registry when both a registry and a username are set.
  The tests never set both.
- Go maps of a run request (Env, Mount, Ports, Params, Secrets) are sequences
  of pairs. The order of the sequence is the order of rendering.
- `model.Processes` is taken to be a last-in first-out stack whose `Pop` and
  `Last` give nil when it is empty.
- `ServiceID` is `"workflow"` and `selfStateKey` is `"self"`. Both are defined
  outside `helper.go`.

## Model

| member | source | states |
|---|---|---|
| Text.ReplaceFirst | workflow/helper.go:95 | strings.Replace with n = 1: without an occurrence the string is unchanged; otherwise exactly the first occurrence is replaced |
| DockerRequests.TagString | system/docker/ssh/service_test.go:1081-1110 | defines Tag.String: the namespace (registry, else username) and a `/` when there is one, the image, then `:` and the version when there is one |
| DockerRequests.TagStringSplits | system/docker/ssh/service_test.go:1081-1110 | Tag.String is `[namespace/]image[:version]`; when the image and the version contain no `/` or `:` it loses nothing: the namespace (registry, else username), image and version can be read back from it |
| DockerRequests.ValidateLogin | system/docker/ssh/service_test.go:959-983 | a login request is valid exactly when it has a target and a non-empty repository; a missing target is the reported error |
| DockerRequests.ValidateBuild | system/docker/ssh/service_test.go:985-1016 | a build request is valid exactly when it has a target, a tag that names an image, and a path |
| DockerRequests.ValidateBuildIgnoresArguments | system/docker/ssh/service_test.go:994-1008 | the build arguments do not affect validity |
| DockerRequests.ValidateTag | system/docker/ssh/service_test.go:1018-1078 | a tag request is valid exactly when it has a target and a source tag and a target tag that each name an image |
| DockerCommands.RunCommand | system/docker/ssh/service_test.go:314 | defines the `docker run` command line: `--name`, every `-e K=V`, `-v SRC:DST` and `-p HOST:CONTAINER` with a trailing space each, the free-form flags, then ` -d IMAGE` |
| DockerCommands.RunCommandArgv | system/docker/ssh/service_test.go:294-314 | split at spaces, the run command is exactly the words `docker run --name NAME`, every `-e K=V`, `-v SRC:DST` and `-p HOST:CONTAINER`, the free-form flags, then `-d IMAGE`, when no field holds a space; the double space before `-d` adds no word |
| DockerCommands.EnvEntryRendered | system/docker/ssh/service_test.go:302-304 | every environment entry appears as `-e KEY=VALUE` among the rendered flags |
| DockerCommands.EnvValueInCommand | system/docker/ssh/service_test.go:302-314 | every environment value, a secret placeholder included, appears in the run command |
| DockerCommands.Resolve | system/docker/ssh/service_test.go:302-310 | defines the substitution of secrets: every occurrence of each placeholder replaced by its material, one placeholder after the other |
| Text.ReplaceAllAt | system/docker/ssh/service_test.go:302-310 | replacing every occurrence of `t` in `a + t + b`, where `t` starts nowhere inside `a`, gives `a`, the replacement, then `b` with its own occurrences replaced |
| DockerCommands.ResolveSecrets | system/docker/ssh/service_test.go:308-310 | the Secrets resolve exactly when the resolver produces material for every reference; the materials are then each placeholder with its reference's material, in order; otherwise the first reference without material is the `SecretResolutionError` |
| DockerCommands.ResolveOne | system/docker/ssh/service_test.go:302-310 | a placeholder written once in a command comes out replaced by its material, with the text on both sides unchanged |
| DockerCommands.ResolveWithoutPlaceholders | system/docker/ssh/service_test.go:308-310 | resolving secrets whose placeholders do not occur in the command leaves it unchanged |
| DockerCommands.ClassifyRunFailure | system/docker/ssh/service_test.go:314 | a refused run is a port conflict exactly when the engine's output says the port is already allocated; the kept text contains both the command as given and the engine's output |
| DockerCommands.RetainedErrorKeepsPlaceholder | system/docker/ssh/service_test.go:314 | a placeholder written in the command is still present in the kept error text |
| DockerListing.FilterImages | system/docker/ssh/service_test.go:139-172 | an image is listed exactly when it is in the listing and matches the Repository and Tag filter, where an empty filter field matches everything |
| DockerListing.FilterImagesUnfiltered | system/docker/ssh/service_test.go:153-172 | with an empty Repository and Tag every row is returned, in listing order |
| DockerListing.FilterImagesConcat | system/docker/ssh/service_test.go:202-215 | filtering keeps listing order: a filtered concatenation is the concatenation of the filtered parts |
| DockerListing.FilterImagesIdempotent | system/docker/ssh/service_test.go:139-172 | filtering twice with the same filter is filtering once |
| DockerListing.Listing | system/docker/ssh/service_test.go:96-101 | the status listing of named containers holds the row of every listed name that exists, and each of its rows is the row of a listed, existing name |
| DockerListing.ListingConcat | system/docker/ssh/service_test.go:96-101 | the listing keeps the order of the names: the listing of two runs of names is the two listings one after the other |
| DockerListing.ListingOfAbsent | system/docker/ssh/service_test.go:100 | a listing of names none of which exists is empty |
| DockerService.LoginUsername | system/docker/ssh/service_test.go:782-791 | a key-file credential logs in as `_json_key`; a basic credential logs in as its own user |
| DockerService.Host.constructor | system/docker/ssh/service_test.go:513-530 | a host starts with the given container table, which files every container under its name, and with no dispatched commands and no logins |
| DockerService.Host.Status | system/docker/ssh/service_test.go:241-361 | the status of a name is its row exactly when the container exists |
| DockerService.Host.StatusAll | system/docker/ssh/service_test.go:513-530 | the status without names lists exactly the host's containers, each once |
| DockerService.Host.Run | system/docker/ssh/service_test.go:241-361 | a running container is returned as it is and nothing is dispatched; a stopped one is started; for an absent one the request's Secrets are resolved first, and a reference without material fails the run with nothing dispatched; otherwise one `docker run` is dispatched with every placeholder replaced by its material; a refusal fails with the unresolved command's error and leaves the table unchanged; a created container is added as up |
| DockerService.Host.Start | system/docker/ssh/service_test.go:572-634 | an existing container becomes up and keeps every other attribute; an unknown name is an error and changes nothing |
| DockerService.Host.Stop | system/docker/ssh/service_test.go:641-703 | an existing container becomes down and keeps every other attribute; an unknown name is an error and changes nothing |
| DockerService.Host.Remove | system/docker/ssh/service_test.go:706-757 | the container leaves the table and the output is its name; an unknown name is an error and changes nothing |
| DockerService.Host.ComposeDown | system/docker/ssh/service_test.go:78-123 | the services' containers leave the table and the listing of those services afterwards is empty, not an error |
| DockerService.Host.Login | system/docker/ssh/service_test.go:782-849 | an invalid request is rejected before anything runs; otherwise the login succeeds exactly when the engine prints "Login Succeeded", and then the session records the credential's user |
| DockerService.Host.Logout | system/docker/ssh/service_test.go:826-846 | logout never fails and ends the session of that target and repository |
| DockerFixtures.TagStringCases | system/docker/ssh/service_test.go:1081-1110 | the four tag strings of the suite |
| DockerFixtures.ValidateLoginCases | system/docker/ssh/service_test.go:959-983 | the four login validations of the suite |
| DockerFixtures.ValidateBuildCases | system/docker/ssh/service_test.go:985-1016 | the five build validations of the suite |
| DockerFixtures.ValidateTagCases | system/docker/ssh/service_test.go:1018-1078 | the seven tag validations of the suite |
| DockerFixtures.ImageFilterCases | system/docker/ssh/service_test.go:139-172 | mysql/5.6 selects exactly the 5.6 row, and no filter selects both rows in order |
| DockerFixtures.MysqlRunCommandCase | system/docker/ssh/service_test.go:294-314 | the run request of the error case renders to exactly the command in the expected error, double space before `-d` included |
| DockerFixtures.MysqlRunErrorCase | system/docker/ssh/service_test.go:294-314 | the refusal of that command is a port conflict whose text is the expected error, with `**mysql**` unresolved |
| DockerFixtures.MysqlDispatchedCase | system/docker/ssh/service_test.go:294-314 | with the credential resolving to `dev`, the command dispatched for the error case reads `… -e MYSQL_ROOT_PASSWORD=dev -v …` and holds no `**mysql**` |
| DockerFixtures.RunCases | system/docker/ssh/service_test.go:241-340 | the active, existing, new and error run cases: the expected names, ids and status, the expected error text, and the resolved command the error case dispatched |
| DockerFixtures.UnresolvedSecretCase | system/docker/ssh/service_test.go:294-314 | a resolver without the mysql credential fails the run with a `SecretResolutionError` and dispatches nothing |
| DockerFixtures.StatusUpCase | system/docker/ssh/service_test.go:503-560 | the status of a host running db1 lists db1 with its id, port, command, image, name and status `up` |
| DockerFixtures.StopStartCase | system/docker/ssh/service_test.go:584-600 | stopping db1 gives its row with status down; starting it again gives the row with status up |
| DockerFixtures.RemoveCase | system/docker/ssh/service_test.go:719-727 | removing db1 prints `db1` |
| DockerFixtures.ComposeDownCase | system/docker/ssh/service_test.go:96-101 | compose down of the redis service reports no containers |
| DockerFixtures.LoginKeyFileCase | system/docker/ssh/service_test.go:782-791 | the gcr key-file login presents `_json_key` and prints "Login Succeeded"; the logout after it succeeds |
| DockerFixtures.LoginRefusedCase | system/docker/ssh/service_test.go:806-833 | a refused login reports an error; that the logout after it succeeds is the model's own guarantee, which the suite asserts only after a successful login (line 849) |
| WorkflowHelper.PushFrame | workflow/helper.go:29-35 | defines Push on the context's stack and source: the process goes on top, and the source becomes the process's only when it has one |
| WorkflowHelper.PopFrame | workflow/helper.go:38-45 | defines Pop: the top process comes off and is returned, the source becomes its source only when it has one, and an empty stack gives nil and changes nothing |
| WorkflowHelper.LastOf | workflow/helper.go:48-51 | the last process is the top of the stack, and there is none exactly when the stack is empty |
| WorkflowHelper.PopUndoesPush | workflow/helper.go:29-45 | a pop right after a push returns the pushed process and restores the stack; the source stays the pushed process's when it had one |
| WorkflowHelper.SourcelessKeepsSource | workflow/helper.go:31-33 | a process without a source leaves the context's source as it was, whether pushed or popped |
| WorkflowHelper.PushAllThenPopAll | workflow/helper.go:29-45 | the stack is last-in first-out: processes pushed and then popped come back in reverse order, and the stack is as it was before |
| WorkflowHelper.ProcessStack.constructor | workflow/helper.go:20 | a new stack is empty |
| WorkflowHelper.ProcessStack.Push | workflow/helper.go:34 | the process goes on top |
| WorkflowHelper.ProcessStack.Pop | workflow/helper.go:40 | the top comes off and is returned; an empty stack gives nothing and stays empty |
| WorkflowHelper.ProcessStack.Last | workflow/helper.go:50 | the top, if any, without changing the stack |
| WorkflowHelper.Processes | workflow/helper.go:17-26 | a stack is created and stored only when none is stored; otherwise the stored one is returned, so later calls share it |
| WorkflowHelper.Push | workflow/helper.go:29-35 | the process goes on top of the context's stack and the context adopts its source only when it has one |
| WorkflowHelper.Pop | workflow/helper.go:38-45 | the top process comes off and is returned, and the context adopts its source only when it has one; an empty stack changes nothing |
| WorkflowHelper.Last | workflow/helper.go:48-51 | the top process, if any; the stack's contents and the source are unchanged |
| WorkflowHelper.GetURLs | workflow/helper.go:91-100 | exactly two candidates: the URL, then the dedicated-folder form, which is the URL again when `<name>.csv` does not occur |
| WorkflowHelper.GetURLsDedicatedFolder | workflow/helper.go:94-95 | the first `<name>.csv` of the URL becomes `<name>/<name>.csv` in the second candidate |
| WorkflowHelper.StorageProbeFirst | workflow/helper.go:67-77 | the storage search finds the first candidate that exists, gives up at the first candidate without a storage service, and misses only when every candidate was probed and absent |
| WorkflowHelper.SharedProbeFirst | workflow/helper.go:83-87 | the shared search finds the first candidate the shared file system has, and none only when none is there |
| WorkflowHelper.Lookup | workflow/helper.go:66-89 | defines the resource GetResource returns: the storage search over the two candidates, then, only when it missed and the URL has no scheme or absolute path, the shared search |
| WorkflowHelper.LookupFindsCandidate | workflow/helper.go:66-89 | a found resource is one of the candidates and exists in storage, or, for a URL without scheme or absolute path, on the shared file system |
| WorkflowHelper.LookupUnavailable | workflow/helper.go:69-72 | when no storage service can be created for the URL itself, nothing is found |
| WorkflowHelper.LookupExisting | workflow/helper.go:73-76 | a URL that exists in storage is its own resource |
| WorkflowHelper.LookupLocatedIgnoresShared | workflow/helper.go:78-80 | for a URL containing `:/` or starting with `/` the shared file system is never consulted |
| WorkflowHelper.GetResource | workflow/helper.go:66-89 | the two ordered searches with their early returns compute exactly the lookup above |
| WorkflowHelper.IsWorkflowRunAction | workflow/helper.go:102-104 | defines a nested workflow run: the action is `run` of the workflow service |
| WorkflowHelper.RunWithoutSelf | workflow/helper.go:102-113 | outside a workflow run action the handler runs on the state as it is; in one, the handler's error is returned, `self` afterwards holds the caller's process state whatever the handler did, and every other entry is what the handler left |
| WorkflowHelper.RunWithoutSelfHidesSelf | workflow/helper.go:110 | during a nested run the handler cannot see `self`: states differing only in `self` give the same outcome |
| WorkflowHelper.RunWithoutSelfRestores | workflow/helper.go:110-111 | a nested run whose handler leaves the state alone gives back the caller's state with `self` set to the process state |
| WorkflowHelper.RunWithoutSelfIfNeeded | workflow/helper.go:106-113 | the shared state map and the returned error are what RunWithoutSelf says |

## Left out

- The docker service's own code is not part of this model. The model is a
  reference model of what `service_test.go` asserts. Where the tests are
  silent, the choices are the ones listed above.
- SSH transport, replay contexts and the executor: what the engine answers to
  a command is a parameter (`RunReply`, the login output).
- The secret service is a parameter of `Host.Run`: a function from a secret
  reference to its material, or to nothing when it has none.
- `MissingSecretReference` (a placeholder in the command with no entry in
  Secrets) is not modelled. Placeholders are known only as the keys of
  Secrets, so a token without an entry cannot be told from ordinary command
  text.
- The order of `docker ps` rows in a status listing without names is not
  modelled: `Host.StatusAll` promises every container once, in no particular
  order.
- Concurrency: commands for one target go over one serial session, requests
  for different targets may run in parallel, and the login bookkeeping is
  shared between them. Whatever synchronisation `model.Processes` does is
  outside `helper.go`. The model is sequential: every method runs to its end
  before the next starts, and no interleaving or locking is modelled.
- Credential file loading. The credential shape is given directly. The
  `oauth2accesstoken` case is commented out in the test and is not modelled.
- The inspect JSON path query and the parsing of human-readable image sizes.
  The fixture output is not part of this model. The two expected sizes appear
  only as constants.
- Compose up, build and push beyond their validation. Their remote behaviour
  is not asserted by the shown tests.
- Rendering of the run request's free-form Params is a chosen form,
  `name value `, after the ports. No test shows it. Workdir and the
  container command of a run request are not modelled.
- The wording of validation and not-found errors. Only which field is missing
  is modelled.
- `LastWorkflow` and `FirstWorkflow` (workflow/helper.go:53-63): they delegate
  to methods of `model.Processes`, which is not part of this model.
- `model.WorkflowSelector(URL).Name()` is not part of this model. The workflow
  name is a parameter of `GetURLs`.
- `location.NewResource` normalisation is not modelled. A resource wraps its
  candidate URL, and storage is asked about that URL.
- Storage and the shared file system are parameters of `GetResource`:
  whether a storage service can be created for a URL, whether the URL exists
  in storage, and whether it exists on the shared file system. An existence
  check that fails counts as "does not exist", as the ignored error does in the
  source.
- The handler of `runWithoutSelfIfNeeded` is modelled as a function from the
  state it sees to the state it leaves and its error. A Go panic running
  through the deferred write is not modelled.
- The aliasing of `process.State` is not modelled. The restored `self` entry
  is a copy of the process state at the time of the call.
- `system/storage/afs.go` is option plumbing over foreign libraries and is not
  modelled.
