/**
  The workflow helpers: the stack of running processes kept in an execution
  context (created on first use, pushed and popped as workflows nest, with the
  context's current source following the pushed and popped processes), the
  lookup of a workflow file in its candidate locations, and the run of an action
  with the caller's `self` entry hidden from the state while a nested workflow
  runs.
 */
module WorkflowHelper {
  import opened Wrappers
  import opened Text

  /** A location of a workflow or its assets (a location.Resource). */
  datatype Resource = Resource(url: string)

  /** A value of a state map: text, or a nested state map. */
  datatype Value = Text(text: string) | Object(fields: map<string, Value>)

  /** A running workflow process. `source` is where its definition was loaded from, if known. */
  datatype Process = Process(name: string, source: Option<Resource>, state: map<string, Value>)

  /** An action of a workflow task: which service it calls and which of its actions. */
  datatype Action = Action(service: string, action: string)

  // ---------------------------------------------------------------------------
  // The process stack, as a value.

  /** What a context holds: the processes, oldest first, and its current source. */
  datatype Frame = Frame(stack: seq<Process>, source: Option<Resource>)

  /** The most recently pushed process, if any. */
  function LastOf(stack: seq<Process>): (r: Option<Process>)
    ensures r.Some? <==> stack != []
    ensures r.Some? ==> r.value == stack[|stack| - 1] && r.value in stack
  {
    if stack == [] then None else Some(stack[|stack| - 1])
  }

  /** Push: the process goes on top; the context adopts its source only when it has one. */
  function PushFrame(f: Frame, p: Process): Frame {
    Frame(f.stack + [p], if p.source.Some? then p.source else f.source)
  }

  /**
    Pop: the top process comes off and is returned; the context adopts its source
    only when it has one. An empty stack gives no process and changes nothing.
   */
  function PopFrame(f: Frame): (Option<Process>, Frame) {
    if f.stack == [] then (None, f)
    else
      var top := f.stack[|f.stack| - 1];
      (Some(top), Frame(f.stack[..|f.stack| - 1], if top.source.Some? then top.source else f.source))
  }

  /**
    Popping right after a push returns the pushed process and the stack as it
    was; the source is not restored but stays the pushed process's, if it had one.
   */
  lemma PopUndoesPush(f: Frame, p: Process)
    ensures PopFrame(PushFrame(f, p)).0 == Some(p)
    ensures PopFrame(PushFrame(f, p)).1.stack == f.stack
    ensures PopFrame(PushFrame(f, p)).1.source == (if p.source.Some? then p.source else f.source)
    ensures LastOf(PushFrame(f, p).stack) == Some(p)
  {
    assert (f.stack + [p])[..|f.stack|] == f.stack;
  }

  /** A process without a source leaves the context's source as it was, pushed or popped. */
  lemma SourcelessKeepsSource(f: Frame, p: Process)
    requires p.source.None?
    ensures PushFrame(f, p).source == f.source
    ensures PopFrame(PushFrame(f, p)).1.source == f.source
  {
  }

  /** Pushes `ps` in order. */
  function PushAll(f: Frame, ps: seq<Process>): Frame
    decreases |ps|
  {
    if ps == [] then f else PushAll(PushFrame(f, ps[0]), ps[1..])
  }

  /** Pops `n` times, collecting the popped processes in order of popping. */
  function PopTimes(f: Frame, n: nat): (seq<Process>, Frame)
    decreases n
  {
    if n == 0 then ([], f)
    else
      var (p, g) := PopFrame(f);
      var (rest, h) := PopTimes(g, n - 1);
      ((if p.Some? then [p.value] else []) + rest, h)
  }

  function Reversed(ps: seq<Process>): seq<Process>
    decreases |ps|
  {
    if ps == [] then [] else Reversed(ps[1..]) + [ps[0]]
  }

  lemma {:induction false} PushAllStack(f: Frame, ps: seq<Process>)
    ensures PushAll(f, ps).stack == f.stack + ps
    decreases |ps|
  {
    if ps != [] {
      PushAllStack(PushFrame(f, ps[0]), ps[1..]);
      assert f.stack + [ps[0]] + ps[1..] == f.stack + ps;
    }
  }

  lemma {:induction false} PopTimesStack(f: Frame, ps: seq<Process>)
    requires |ps| <= |f.stack| && f.stack[|f.stack| - |ps|..] == ps
    ensures PopTimes(f, |ps|).0 == Reversed(ps)
    ensures PopTimes(f, |ps|).1.stack == f.stack[..|f.stack| - |ps|]
    decreases |ps|
  {
    if ps != [] {
      var n := |f.stack|;
      var (p, g) := PopFrame(f);
      assert f.stack[n - 1] == ps[|ps| - 1] by {
        assert f.stack[n - |ps|..][|ps| - 1] == f.stack[n - 1];
      }
      var init := ps[..|ps| - 1];
      assert g.stack == f.stack[..n - 1];
      assert |g.stack| - |init| == n - |ps|;
      assert g.stack[|g.stack| - |init|..] == init by {
        forall k | 0 <= k < |init| ensures g.stack[|g.stack| - |init|..][k] == init[k] {
          assert g.stack[|g.stack| - |init|..][k] == g.stack[n - |ps| + k];
          assert g.stack[n - |ps| + k] == f.stack[n - |ps| + k];
          assert f.stack[n - |ps| + k] == f.stack[n - |ps|..][k] == ps[k];
        }
      }
      PopTimesStack(g, init);
      assert g.stack[..|g.stack| - |init|] == f.stack[..n - |ps|];
      ReversedSnoc(init, ps[|ps| - 1]);
      assert init + [ps[|ps| - 1]] == ps;
    }
  }

  lemma {:induction false} ReversedSnoc(ps: seq<Process>, p: Process)
    ensures Reversed(ps + [p]) == [p] + Reversed(ps)
    decreases |ps|
  {
    if ps == [] {
      assert [p][1..] == [];
    } else {
      assert (ps + [p])[1..] == ps[1..] + [p];
      ReversedSnoc(ps[1..], p);
    }
  }

  /**
    The stack is last-in first-out: pushing processes and then popping as many
    returns them in reverse order and leaves the stack as it was before the pushes.
   */
  lemma PushAllThenPopAll(f: Frame, ps: seq<Process>)
    ensures PopTimes(PushAll(f, ps), |ps|).0 == Reversed(ps)
    ensures PopTimes(PushAll(f, ps), |ps|).1.stack == f.stack
  {
    var g := PushAll(f, ps);
    PushAllStack(f, ps);
    assert g.stack[|g.stack| - |ps|..] == ps;
    PopTimesStack(g, ps);
    assert g.stack[..|g.stack| - |ps|] == f.stack;
  }

  // ---------------------------------------------------------------------------
  // The process stack and the context that stores it.

  /** model.Processes: the processes of an execution, most recent on top. */
  class ProcessStack {
    var items: seq<Process>

    constructor ()
      ensures items == []
    {
      items := [];
    }

    method Push(p: Process)
      modifies this
      ensures items == old(items) + [p]
    {
      items := items + [p];
    }

    method Pop() returns (r: Option<Process>)
      modifies this
      ensures old(items) == [] ==> r == None && items == old(items)
      ensures old(items) != [] ==> r == Some(old(items)[|old(items)| - 1]) && items == old(items)[..|old(items)| - 1]
    {
      if items == [] {
        r := None;
      } else {
        r := Some(items[|items| - 1]);
        items := items[..|items| - 1];
      }
    }

    method Last() returns (r: Option<Process>)
      ensures r.Some? <==> items != []
      ensures r.Some? ==> r.value == items[|items| - 1]
    {
      if items == [] {
        r := None;
      } else {
        r := Some(items[|items| - 1]);
      }
    }
  }

  /** The part of an endly.Context these helpers use: the stored process stack, if any, and the source. */
  class Context {
    var processes: ProcessStack?
    var source: Option<Resource>

    constructor (source: Option<Resource>)
      ensures processes == null && this.source == source
    {
      processes := null;
      this.source := source;
    }

    /** The context as a frame; a context without a stack holds no processes. */
    ghost function View(): Frame
      reads this, processes
    {
      Frame(if processes == null then [] else processes.items, source)
    }
  }

  /**
    processes: the stack stored in the context; one is created and stored only
    when none is, so every later call returns the same stack.
   */
  method Processes(ctx: Context) returns (r: ProcessStack)
    modifies ctx`processes
    ensures old(ctx.processes) != null ==> r == old(ctx.processes)
    ensures old(ctx.processes) == null ==> fresh(r) && r.items == []
    ensures ctx.processes == r
  {
    if ctx.processes == null {
      r := new ProcessStack();
      ctx.processes := r;
    } else {
      r := ctx.processes;
    }
  }

  /** Push: the process goes on top of the context's stack, as PushFrame says. */
  method Push(ctx: Context, p: Process)
    modifies ctx, ctx.processes
    ensures ctx.processes != null
    ensures old(ctx.processes) != null ==> ctx.processes == old(ctx.processes)
    ensures ctx.View() == PushFrame(old(ctx.View()), p)
  {
    var stack := Processes(ctx);
    if p.source.Some? {
      ctx.source := p.source;
    }
    stack.Push(p);
  }

  /** Pop: the top process comes off the context's stack, as PopFrame says. */
  method Pop(ctx: Context) returns (r: Option<Process>)
    modifies ctx, ctx.processes
    ensures ctx.processes != null
    ensures old(ctx.processes) != null ==> ctx.processes == old(ctx.processes)
    ensures (r, ctx.View()) == PopFrame(old(ctx.View()))
  {
    var stack := Processes(ctx);
    r := stack.Pop();
    if r.Some? && r.value.source.Some? {
      ctx.source := r.value.source;
    }
  }

  /** Last: the top process, if any; only the creation of a missing stack changes the context. */
  method Last(ctx: Context) returns (r: Option<Process>)
    modifies ctx`processes
    ensures ctx.processes != null
    ensures old(ctx.processes) != null ==> ctx.processes == old(ctx.processes)
    ensures ctx.View() == old(ctx.View())
    ensures r == LastOf(ctx.View().stack)
  {
    var stack := Processes(ctx);
    r := stack.Last();
  }

  // ---------------------------------------------------------------------------
  // Locating a workflow file.

  /**
    getURLs: the URL itself, then the URL with its first `<name>.csv` moved into a
    dedicated folder `<name>/<name>.csv`; without such an occurrence the second
    candidate is the URL again. The workflow name, which the URL's selector
    yields, is a parameter.
   */
  function GetURLs(url: string, name: string): (r: seq<string>)
    ensures |r| == 2 && r[0] == url
    ensures !Contains(url, name + ".csv") ==> r[1] == url
  {
    var file := name + ".csv";
    IndexOfContains(url, file);
    [url, ReplaceFirst(url, file, name + "/" + file)]
  }

  /**
    A URL naming `<name>.csv` once, after a prefix that does not name it, has the
    dedicated-folder location as its second candidate.
   */
  lemma GetURLsDedicatedFolder(prefix: string, name: string, suffix: string)
    requires forall j :: 0 <= j < |prefix| ==> !OccursAt(prefix + name + ".csv" + suffix, name + ".csv", j)
    ensures GetURLs(prefix + name + ".csv" + suffix, name)[1] == prefix + name + "/" + name + ".csv" + suffix
  {
    var url := prefix + name + ".csv" + suffix;
    var file := name + ".csv";
    assert url == prefix + file + suffix;
    assert url[|prefix|..|prefix| + |file|] == file;
    assert OccursAt(url, file, |prefix|);
    assert url[..|prefix|] == prefix;
    assert url[|prefix| + |file|..] == suffix;
    assert prefix + (name + "/" + file) + suffix == prefix + name + "/" + name + ".csv" + suffix;
  }

  /** The outcome of probing candidates one after another. */
  datatype Probe = Found(url: string) | Unavailable | Missing

  /**
    The first loop of GetResource: each candidate in order needs a storage
    service for its URL, without which the lookup gives up; the first one that
    exists is the answer.
   */
  function StorageProbe(candidates: seq<string>, canOpen: string -> bool, stored: string -> bool): Probe
    decreases |candidates|
  {
    if candidates == [] then Missing
    else if !canOpen(candidates[0]) then Unavailable
    else if stored(candidates[0]) then Found(candidates[0])
    else StorageProbe(candidates[1..], canOpen, stored)
  }

  /** Every candidate before `i` has a storage service and is not there. */
  ghost predicate PassedOver(candidates: seq<string>, i: int, canOpen: string -> bool, stored: string -> bool) {
    forall j :: 0 <= j < i && j < |candidates| ==> canOpen(candidates[j]) && !stored(candidates[j])
  }

  /**
    The storage probe is a first-match search: a found candidate is the first
    one that exists, "unavailable" is the first candidate without a storage
    service, and "missing" means every candidate was probed and absent.
   */
  lemma {:induction false} StorageProbeFirst(candidates: seq<string>, canOpen: string -> bool, stored: string -> bool)
    ensures var p := StorageProbe(candidates, canOpen, stored);
            p.Found? ==>
              exists i :: 0 <= i < |candidates| && candidates[i] == p.url && stored(p.url)
                && PassedOver(candidates, i, canOpen, stored)
    ensures var p := StorageProbe(candidates, canOpen, stored);
            p.Unavailable? ==>
              exists i :: 0 <= i < |candidates| && !canOpen(candidates[i]) && PassedOver(candidates, i, canOpen, stored)
    ensures StorageProbe(candidates, canOpen, stored).Missing? <==> PassedOver(candidates, |candidates|, canOpen, stored)
    decreases |candidates|
  {
    if candidates != [] && canOpen(candidates[0]) && !stored(candidates[0]) {
      var tail := candidates[1..];
      StorageProbeFirst(tail, canOpen, stored);
      assert forall i :: 0 <= i ==> (PassedOver(tail, i, canOpen, stored) <==> PassedOver(candidates, i + 1, canOpen, stored)) by {
        assert forall j :: 1 <= j < |candidates| ==> tail[j - 1] == candidates[j];
      }
      var p := StorageProbe(tail, canOpen, stored);
      if p.Found? {
        var i :| 0 <= i < |tail| && tail[i] == p.url && stored(p.url) && PassedOver(tail, i, canOpen, stored);
        assert candidates[i + 1] == p.url && PassedOver(candidates, i + 1, canOpen, stored);
      } else if p.Unavailable? {
        var i :| 0 <= i < |tail| && !canOpen(tail[i]) && PassedOver(tail, i, canOpen, stored);
        assert !canOpen(candidates[i + 1]) && PassedOver(candidates, i + 1, canOpen, stored);
      }
    } else if candidates != [] {
      assert !PassedOver(candidates, |candidates|, canOpen, stored) by {
        assert !(canOpen(candidates[0]) && !stored(candidates[0]));
      }
    }
  }

  /** The second loop of GetResource: the first candidate the shared file system has. */
  function SharedProbe(candidates: seq<string>, shared: string -> bool): Option<string>
    decreases |candidates|
  {
    if candidates == [] then None
    else if shared(candidates[0]) then Some(candidates[0])
    else SharedProbe(candidates[1..], shared)
  }

  /** The shared probe finds the first candidate the shared file system has, and finds none only when none is there. */
  lemma {:induction false} SharedProbeFirst(candidates: seq<string>, shared: string -> bool)
    ensures var r := SharedProbe(candidates, shared);
            r.Some? ==>
              exists i :: 0 <= i < |candidates| && candidates[i] == r.value && shared(r.value)
                && forall j :: 0 <= j < i ==> !shared(candidates[j])
    ensures SharedProbe(candidates, shared).None? <==> forall j :: 0 <= j < |candidates| ==> !shared(candidates[j])
    decreases |candidates|
  {
    if candidates != [] && !shared(candidates[0]) {
      var tail := candidates[1..];
      SharedProbeFirst(tail, shared);
      assert forall j :: 1 <= j < |candidates| ==> tail[j - 1] == candidates[j];
      var r := SharedProbe(tail, shared);
      if r.Some? {
        var i :| 0 <= i < |tail| && tail[i] == r.value && shared(r.value)
                 && forall j :: 0 <= j < i ==> !shared(tail[j]);
        assert candidates[i + 1] == r.value;
      }
    }
  }

  /** A URL with a scheme or an absolute path is never looked up as a shared workflow. */
  predicate IsLocated(url: string) {
    Contains(url, ":/") || HasPrefix(url, "/")
  }

  /** The resource GetResource finds. */
  function Lookup(url: string, name: string, canOpen: string -> bool, stored: string -> bool,
                  shared: string -> bool): Option<Resource>
  {
    var candidates := GetURLs(url, name);
    match StorageProbe(candidates, canOpen, stored)
    case Found(c) => Some(Resource(c))
    case Unavailable => None
    case Missing =>
      if IsLocated(url) then None
      else
        match SharedProbe(candidates, shared)
        case Some(c) => Some(Resource(c))
        case None => None
  }

  /**
    What GetResource returns is one of the URL's candidates that exists, in
    storage or on the shared file system, and the shared file system is consulted
    only for a URL without a scheme or an absolute path, after no candidate was
    found in storage.
   */
  lemma LookupFindsCandidate(url: string, name: string, canOpen: string -> bool, stored: string -> bool,
                             shared: string -> bool)
    ensures var r := Lookup(url, name, canOpen, stored, shared);
            r.Some? ==> r.value.url in GetURLs(url, name)
                        && (stored(r.value.url) || (!IsLocated(url) && shared(r.value.url)))
  {
    StorageProbeFirst(GetURLs(url, name), canOpen, stored);
    SharedProbeFirst(GetURLs(url, name), shared);
  }

  /** A storage service that cannot be created for a candidate ends the lookup before later candidates. */
  lemma LookupUnavailable(url: string, name: string, canOpen: string -> bool, stored: string -> bool,
                          shared: string -> bool)
    requires !canOpen(url)
    ensures Lookup(url, name, canOpen, stored, shared) == None
  {
  }

  /** A URL that already exists in storage is its own resource. */
  lemma LookupExisting(url: string, name: string, canOpen: string -> bool, stored: string -> bool,
                       shared: string -> bool)
    requires canOpen(url) && stored(url)
    ensures Lookup(url, name, canOpen, stored, shared) == Some(Resource(url))
  {
  }

  /** For a located URL the shared file system does not matter. */
  lemma LookupLocatedIgnoresShared(url: string, name: string, canOpen: string -> bool, stored: string -> bool,
                                   shared1: string -> bool, shared2: string -> bool)
    requires IsLocated(url)
    ensures Lookup(url, name, canOpen, stored, shared1) == Lookup(url, name, canOpen, stored, shared2)
  {
  }

  /**
    GetResource: the first candidate that exists in storage; failing that, and
    for a URL without scheme or absolute path only, the first candidate the
    shared file system has. Storage and the shared file system are parameters:
    `canOpen` says whether a storage service can be created for a URL, `stored`
    and `shared` whether the URL exists there.
   */
  method GetResource(url: string, name: string, canOpen: string -> bool, stored: string -> bool,
                     shared: string -> bool) returns (r: Option<Resource>)
    ensures r == Lookup(url, name, canOpen, stored, shared)
  {
    var candidates := GetURLs(url, name);
    var i := 0;
    while i < |candidates|
      invariant 0 <= i <= |candidates|
      invariant StorageProbe(candidates, canOpen, stored) == StorageProbe(candidates[i..], canOpen, stored)
    {
      var candidate := candidates[i];
      if !canOpen(candidate) {
        return None;
      }
      if stored(candidate) {
        return Some(Resource(candidate));
      }
      assert candidates[i..][1..] == candidates[i + 1..];
      i := i + 1;
    }
    if Contains(url, ":/") || HasPrefix(url, "/") {
      return None;
    }
    i := 0;
    while i < |candidates|
      invariant 0 <= i <= |candidates|
      invariant SharedProbe(candidates, shared) == SharedProbe(candidates[i..], shared)
    {
      if shared(candidates[i]) {
        return Some(Resource(candidates[i]));
      }
      assert candidates[i..][1..] == candidates[i + 1..];
      i := i + 1;
    }
    r := None;
  }

  // ---------------------------------------------------------------------------
  // Running an action without the caller's self entry.

  /** The service id of the workflow service. */
  const ServiceID := "workflow"

  /** The state key under which a workflow finds its own process state. */
  const SelfStateKey := "self"

  /** isWorkflowRunAction: the action runs a nested workflow. */
  predicate IsWorkflowRunAction(a: Action) {
    a.action == "run" && a.service == ServiceID
  }

  /** A shared, mutable state map (a data.Map). */
  class State {
    var entries: map<string, Value>

    constructor (entries: map<string, Value>)
      ensures this.entries == entries
    {
      this.entries := entries;
    }
  }

  /** A handler, given as what it does to the state it sees and the error it returns. */
  type Handler = map<string, Value> -> (map<string, Value>, Option<string>)

  /**
    What a call of runWithoutSelfIfNeeded leaves in the state and returns. Any
    other action runs with the state as it is. A nested workflow run sees the
    state without `self`; afterwards `self` holds the caller's process state
    again, whatever the handler did, every other entry is what the handler
    left, and the handler's error is returned.
   */
  function RunWithoutSelf(process: Process, action: Action, entries: map<string, Value>, handler: Handler)
    : (r: (map<string, Value>, Option<string>))
    ensures IsWorkflowRunAction(action) ==> SelfStateKey in r.0 && r.0[SelfStateKey] == Object(process.state)
    ensures IsWorkflowRunAction(action) ==> r.1 == handler(entries - {SelfStateKey}).1
    ensures IsWorkflowRunAction(action) ==> r.0 - {SelfStateKey} == handler(entries - {SelfStateKey}).0 - {SelfStateKey}
    ensures !IsWorkflowRunAction(action) ==> r == handler(entries)
  {
    if IsWorkflowRunAction(action) then
      var (after, err) := handler(entries - {SelfStateKey});
      (after[SelfStateKey := Object(process.state)], err)
    else handler(entries)
  }

  /**
    The handler of a nested run cannot see `self`: states that differ only in
    their `self` entry give the same outcome.
   */
  lemma RunWithoutSelfHidesSelf(process: Process, action: Action, e1: map<string, Value>, e2: map<string, Value>,
                                handler: Handler)
    requires IsWorkflowRunAction(action)
    requires e1 - {SelfStateKey} == e2 - {SelfStateKey}
    ensures RunWithoutSelf(process, action, e1, handler) == RunWithoutSelf(process, action, e2, handler)
  {
  }

  /**
    A nested run whose handler leaves the state alone gives back the caller's
    state with `self` pointing at the caller's process state.
   */
  lemma RunWithoutSelfRestores(process: Process, action: Action, entries: map<string, Value>, handler: Handler)
    requires IsWorkflowRunAction(action)
    requires forall m :: handler(m).0 == m
    ensures RunWithoutSelf(process, action, entries, handler).0 == entries[SelfStateKey := Object(process.state)]
  {
    assert handler(entries - {SelfStateKey}).0 == entries - {SelfStateKey};
  }

  /** runWithoutSelfIfNeeded over a shared state map, as RunWithoutSelf says. */
  method RunWithoutSelfIfNeeded(process: Process, action: Action, state: State, handler: Handler)
    returns (err: Option<string>)
    modifies state
    ensures (state.entries, err) == RunWithoutSelf(process, action, old(state.entries), handler)
  {
    if !IsWorkflowRunAction(action) {
      var (after, e) := handler(state.entries);
      state.entries := after;
      return e;
    }
    state.entries := state.entries - {SelfStateKey};
    var (after, e) := handler(state.entries);
    state.entries := after;
    state.entries := state.entries[SelfStateKey := Object(process.state)];
    err := e;
  }
}
