/** The shared WebAssembly module loader: a page-lifetime registry that maps
    a module name to its loaded instance (`wasmModules`) and to the promise
    of its one load (`wasmLoadingPromises`), and the per-caller
    `loading / error / ready` state of every component that asks for a
    module.

    Execution is single-threaded. A request runs its check-then-act sequence
    within one turn, and each asynchronous completion (the script's load or
    error event, the factory's promise settling) is an event of its own. A
    settlement runs the reactions it schedules before anything else happens:
    first the loader's own assignments to the caller that started the load,
    then the `.then`/`.catch` handler of every caller attached to the
    promise, in that order. */
module WasmLoader {

  import opened Wrappers

  /** An initialised module instance; the loader never looks inside it. */
  datatype Instance = Instance(handle: nat)

  /** What a loaded script left in the global scope under the export name:
      a falsy value, a callable factory, or any other truthy value. */
  datatype Published = Absent | Callable(factory: nat) | Value(inst: Instance)

  /** How far a started load has got: waiting for the script's load or
      error event, or for the factory's promise. */
  datatype Stage = AwaitingScript | AwaitingInstance

  /** The promise registered under a name. `origin` is the caller whose
      request started the load and `exportName` the global name it reads. */
  datatype LoadPromise =
    | Pending(origin: nat, exportName: string, stage: Stage)
    | Fulfilled
    | Rejected(reason: string)

  /** What one caller of the hook sees. `ready` is the `wasmReady` ref. */
  datatype CallerState = CallerState(loading: bool, error: string, ready: bool)

  /** A script element appended to the document. */
  datatype Script = Script(name: string, src: string)

  /** The registry, every caller's state and the loader's effects on the page. */
  datatype State = State(
    modules: map<string, Instance>,      // wasmModules
    promises: map<string, LoadPromise>,  // wasmLoadingPromises
    waiters: map<string, set<nat>>,      // callers whose handlers wait on a pending promise
    callers: seq<CallerState>,           // per-caller state, indexed by caller
    scripts: seq<Script>,                // script elements injected, in order
    factoryCalls: seq<string>,           // names whose factory was invoked, in order
    globals: map<string, Instance>)      // global bindings the loader overwrote

  /** The error every caller reports when the load it waits on fails. */
  const LoadFailed := "Failed to load WebAssembly module"

  /** The rejection reason of a script that failed to load. */
  const ScriptFailed := "Script load failed"

  /** The rejection reason when the script published nothing. */
  function ExportMissing(exportName: string): string {
    "Module export name \"" + exportName + "\" not found"
  }

  /** The error the starting caller briefly shows when the factory rejects. */
  function InitFailed(name: string, message: string): string {
    "Failed to initialize " + name + ": " + message
  }

  /** `exportName || moduleName`: an omitted or empty export name falls
      back to the module name. */
  function EffectiveExportName(moduleName: string, exportName: string): (r: string)
    ensures exportName != "" ==> r == exportName
    ensures exportName == "" ==> r == moduleName
  {
    if exportName != "" then exportName else moduleName
  }

  /** A caller's state when it first renders: loading exactly when the
      module is not cached yet, ready exactly when it is. */
  function InitialCaller(cached: bool): (c: CallerState)
    ensures c.loading == !cached && c.ready == cached && c.error == ""
  {
    CallerState(!cached, "", cached)
  }

  /** The success handler: `wasmReady.current = true; setLoading(false)`. */
  function MarkReady(c: CallerState): CallerState {
    c.(loading := false, ready := true)
  }

  /** The failure handler: `setError(LoadFailed); setLoading(false)`. */
  function MarkFailed(c: CallerState): CallerState {
    c.(loading := false, error := LoadFailed)
  }

  /** Runs one settlement handler for every caller in `ids`. */
  function SettleAll(callers: seq<CallerState>, ids: set<nat>, ok: bool): (r: seq<CallerState>)
    ensures |r| == |callers|
  {
    seq(|callers|, i requires 0 <= i < |callers| =>
      if i in ids then (if ok then MarkReady(callers[i]) else MarkFailed(callers[i])) else callers[i])
  }

  /** Replaces caller `i`'s state, if there is such a caller. */
  function Update(callers: seq<CallerState>, i: nat, c: CallerState): (r: seq<CallerState>)
    ensures |r| == |callers|
  {
    if i < |callers| then callers[i := c] else callers
  }

  /** The registry and page before any component has asked for a module. */
  function Init(): State {
    State(map[], map[], map[], [], [], [], map[])
  }

  /** The callers waiting on `name`'s promise. */
  function Waiting(s: State, name: string): set<nat> {
    if name in s.waiters then s.waiters[name] else {}
  }

  /** `name`'s load waits for its script. */
  predicate ScriptPending(s: State, name: string) {
    name in s.promises && s.promises[name].Pending? && s.promises[name].stage == AwaitingScript
  }

  /** `name`'s load waits for its factory's promise. */
  predicate InstancePending(s: State, name: string) {
    name in s.promises && s.promises[name].Pending? && s.promises[name].stage == AwaitingInstance
  }

  // ---------------------------------------------------------------------
  // Transitions

  /** A component using the hook renders for the first time; its index is
      the old number of callers. */
  function Mount(s: State, name: string): State {
    s.(callers := s.callers + [InitialCaller(name in s.modules)])
  }

  /** The hook's effect for caller `id`: reuse the cached instance, attach to
      the load in flight, or start the one load of `name`, registering its
      promise before the script can run. */
  function Request(s: State, id: nat, name: string, src: string, exportName: string): State
    requires id < |s.callers|
  {
    if name in s.modules then
      s.(callers := s.callers[id := MarkReady(s.callers[id])])
    else if name in s.promises then
      match s.promises[name]
      case Pending(_, _, _) => s.(waiters := s.waiters[name := Waiting(s, name) + {id}])
      case Fulfilled => s.(callers := s.callers[id := MarkReady(s.callers[id])])
      case Rejected(_) => s.(callers := s.callers[id := MarkFailed(s.callers[id])])
    else
      s.(promises := s.promises[name := Pending(id, EffectiveExportName(name, exportName), AwaitingScript)],
         waiters := s.waiters[name := {id}],
         scripts := s.scripts + [Script(name, src)])
  }

  /** `name`'s promise resolves: the instance is registered and every
      waiting caller becomes ready. */
  function Fulfill(s: State, name: string, inst: Instance): State {
    s.(modules := s.modules[name := inst],
       promises := s.promises[name := Fulfilled],
       callers := SettleAll(s.callers, Waiting(s, name), true),
       waiters := s.waiters - {name})
  }

  /** `name`'s promise rejects: nothing is registered and every waiting
      caller reports the load failure. */
  function Reject(s: State, name: string, reason: string): State {
    s.(promises := s.promises[name := Rejected(reason)],
       callers := SettleAll(s.callers, Waiting(s, name), false),
       waiters := s.waiters - {name})
  }

  /** The script's load event, with what the script published under the
      export name: a factory is invoked once and awaited, another truthy
      value is the instance, a falsy one rejects the load. */
  function ScriptLoaded(s: State, name: string, published: Published): State
    requires ScriptPending(s, name)
  {
    var p := s.promises[name];
    match published
    case Callable(_) =>
      s.(promises := s.promises[name := p.(stage := AwaitingInstance)],
         factoryCalls := s.factoryCalls + [name])
    case Value(inst) =>
      Fulfill(s.(callers := Update(s.callers, p.origin, MarkReady(Get(s.callers, p.origin)))), name, inst)
    case Absent =>
      Reject(s, name, ExportMissing(p.exportName))
  }

  /** The script's error event. */
  function ScriptError(s: State, name: string): State
    requires ScriptPending(s, name)
  {
    Reject(s, name, ScriptFailed)
  }

  /** The factory's promise resolves with `inst`, which is registered and
      also replaces the factory under the global export name. */
  function FactoryResolved(s: State, name: string, inst: Instance): State
    requires InstancePending(s, name)
  {
    var p := s.promises[name];
    Fulfill(s.(callers := Update(s.callers, p.origin, MarkReady(Get(s.callers, p.origin))),
               globals := s.globals[p.exportName := inst]), name, inst)
  }

  /** The factory's promise rejects with `message`. */
  function FactoryRejected(s: State, name: string, message: string): State
    requires InstancePending(s, name)
  {
    var p := s.promises[name];
    var c := Get(s.callers, p.origin);
    Reject(s.(callers := Update(s.callers, p.origin, c.(loading := false, error := InitFailed(name, message)))),
           name, message)
  }

  /** Caller `i`'s state, or a blank one when there is no such caller. */
  function Get(callers: seq<CallerState>, i: nat): CallerState {
    if i < |callers| then callers[i] else CallerState(false, "", false)
  }

  /** `getWasmModule(name)`. */
  function GetWasmModule(s: State, name: string): Option<Instance> {
    if name in s.modules then Some(s.modules[name]) else None
  }

  /** `isWasmModuleLoaded(name)`. */
  predicate IsWasmModuleLoaded(s: State, name: string) {
    name in s.modules
  }

  // ---------------------------------------------------------------------
  // Events and runs

  /** Everything that can happen to the loader. */
  datatype Event =
    | MountEvent(name: string)
    | RequestEvent(id: nat, name: string, src: string, exportName: string)
    | ScriptLoadEvent(name: string, published: Published)
    | ScriptErrorEvent(name: string)
    | FactoryResolveEvent(name: string, inst: Instance)
    | FactoryRejectEvent(name: string, message: string)

  /** The event can occur in state `s`: requests come from existing callers,
      and each completion only while its load waits for it. */
  predicate Enabled(s: State, e: Event) {
    match e
    case MountEvent(_) => true
    case RequestEvent(id, _, _, _) => id < |s.callers|
    case ScriptLoadEvent(name, _) => ScriptPending(s, name)
    case ScriptErrorEvent(name) => ScriptPending(s, name)
    case FactoryResolveEvent(name, _) => InstancePending(s, name)
    case FactoryRejectEvent(name, _) => InstancePending(s, name)
  }

  function Step(s: State, e: Event): State
    requires Enabled(s, e)
  {
    match e
    case MountEvent(name) => Mount(s, name)
    case RequestEvent(id, name, src, exportName) => Request(s, id, name, src, exportName)
    case ScriptLoadEvent(name, published) => ScriptLoaded(s, name, published)
    case ScriptErrorEvent(name) => ScriptError(s, name)
    case FactoryResolveEvent(name, inst) => FactoryResolved(s, name, inst)
    case FactoryRejectEvent(name, message) => FactoryRejected(s, name, message)
  }

  /** The state after a sequence of events; an event that cannot occur in
      the state it meets is dropped. */
  function Run(s: State, events: seq<Event>): State
    decreases |events|
  {
    if events == [] then s
    else Run(if Enabled(s, events[0]) then Step(s, events[0]) else s, events[1..])
  }

  // ---------------------------------------------------------------------
  // Invariant

  /** Number of injected scripts for `name`. */
  function ScriptsFor(scripts: seq<Script>, name: string): nat {
    if scripts == [] then 0
    else ScriptsFor(scripts[..|scripts| - 1], name) + (if scripts[|scripts| - 1].name == name then 1 else 0)
  }

  /** Number of times `name` occurs in `names`. */
  function Count(names: seq<string>, name: string): nat {
    if names == [] then 0
    else Count(names[..|names| - 1], name) + (if names[|names| - 1] == name then 1 else 0)
  }

  lemma ScriptsForSnoc(scripts: seq<Script>, x: Script, name: string)
    ensures ScriptsFor(scripts + [x], name) == ScriptsFor(scripts, name) + (if x.name == name then 1 else 0)
  {
    assert (scripts + [x])[..|scripts|] == scripts;
  }

  lemma CountSnoc(names: seq<string>, x: string, name: string)
    ensures Count(names + [x], name) == Count(names, name) + (if x == name then 1 else 0)
  {
    assert (names + [x])[..|names|] == names;
  }

  /** What holds of the loader in every reachable state. */
  ghost predicate Inv(s: State) {
    // a cached instance belongs to a name whose promise fulfilled, and back
    && (forall n :: n in s.modules ==> n in s.promises)
    && (forall n :: n in s.promises ==> (s.promises[n].Fulfilled? <==> n in s.modules))
    // exactly one script per registered name, none for any other name
    && (forall n :: ScriptsFor(s.scripts, n) == (if n in s.promises then 1 else 0))
    // a factory is invoked at most once, and only after its script loaded
    && (forall n :: Count(s.factoryCalls, n) <= 1)
    && (forall n :: (n !in s.promises || ScriptPending(s, n)) ==> Count(s.factoryCalls, n) == 0)
    // the waiters of a name are existing callers waiting on a pending promise
    && (forall n :: n in s.waiters ==> n in s.promises && s.promises[n].Pending?)
    && (forall n, i :: n in s.waiters && i in s.waiters[n] ==> i < |s.callers|)
    // the starting caller waits on its own load
    && (forall n :: n in s.promises && s.promises[n].Pending? ==>
          s.promises[n].origin < |s.callers| && n in s.waiters && s.promises[n].origin in s.waiters[n])
  }

  lemma InitInv()
    ensures Inv(Init())
  {
  }

  lemma MountInv(s: State, name: string)
    requires Inv(s)
    ensures Inv(Mount(s, name))
  {
  }

  lemma RequestInv(s: State, id: nat, name: string, src: string, exportName: string)
    requires Inv(s) && id < |s.callers|
    ensures Inv(Request(s, id, name, src, exportName))
  {
    if name !in s.modules && name !in s.promises {
      StartLoadInv(s, id, name, src, exportName);
    } else if name !in s.modules && s.promises[name].Pending? {
      AttachInv(s, id, name);
    }
  }

  lemma AttachInv(s: State, id: nat, name: string)
    requires Inv(s) && id < |s.callers| && name in s.promises && s.promises[name].Pending?
    ensures Inv(s.(waiters := s.waiters[name := Waiting(s, name) + {id}]))
  {
  }

  lemma {:induction false} StartLoadInv(s: State, id: nat, name: string, src: string, exportName: string)
    requires Inv(s) && id < |s.callers| && name !in s.promises
    ensures Inv(Request(s, id, name, src, exportName))
  {
    var t := Request(s, id, name, src, exportName);
    assert t == s.(promises := s.promises[name := Pending(id, EffectiveExportName(name, exportName), AwaitingScript)],
                   waiters := s.waiters[name := {id}],
                   scripts := s.scripts + [Script(name, src)]);
    forall n ensures ScriptsFor(t.scripts, n) == (if n in t.promises then 1 else 0) {
      ScriptsForSnoc(s.scripts, Script(name, src), n);
    }
  }

  lemma {:induction false} InvokeFactoryInv(s: State, name: string, f: nat)
    requires Inv(s) && ScriptPending(s, name)
    ensures Inv(ScriptLoaded(s, name, Callable(f)))
  {
    var t := ScriptLoaded(s, name, Callable(f));
    forall n ensures Count(t.factoryCalls, n) == Count(s.factoryCalls, n) + (if n == name then 1 else 0) {
      CountSnoc(s.factoryCalls, name, n);
    }
  }

  lemma FulfillInv(s: State, name: string, inst: Instance)
    requires Inv(s) && name in s.promises && s.promises[name].Pending?
    ensures Inv(Fulfill(s, name, inst))
  {
  }

  lemma RejectInv(s: State, name: string, reason: string)
    requires Inv(s) && name in s.promises && s.promises[name].Pending?
    ensures Inv(Reject(s, name, reason))
  {
  }

  /** Caller states and global bindings do not take part in the invariant. */
  lemma ReplaceCallersInv(s: State, callers: seq<CallerState>, globals: map<string, Instance>)
    requires Inv(s) && |callers| == |s.callers|
    ensures Inv(s.(callers := callers, globals := globals))
  {
    var t := s.(callers := callers, globals := globals);
    assert forall n :: ScriptPending(t, n) == ScriptPending(s, n);
  }

  lemma ScriptValueInv(s: State, name: string, inst: Instance)
    requires Inv(s) && ScriptPending(s, name)
    ensures Inv(ScriptLoaded(s, name, Value(inst)))
  {
    var p := s.promises[name];
    var s' := s.(callers := Update(s.callers, p.origin, MarkReady(Get(s.callers, p.origin))));
    ReplaceCallersInv(s, s'.callers, s.globals);
    assert s' == s.(callers := s'.callers, globals := s.globals);
    FulfillInv(s', name, inst);
  }

  lemma FactoryResolvedInv(s: State, name: string, inst: Instance)
    requires Inv(s) && InstancePending(s, name)
    ensures Inv(FactoryResolved(s, name, inst))
  {
    var p := s.promises[name];
    var s' := s.(callers := Update(s.callers, p.origin, MarkReady(Get(s.callers, p.origin))),
                 globals := s.globals[p.exportName := inst]);
    ReplaceCallersInv(s, s'.callers, s'.globals);
    FulfillInv(s', name, inst);
  }

  lemma FactoryRejectedInv(s: State, name: string, message: string)
    requires Inv(s) && InstancePending(s, name)
    ensures Inv(FactoryRejected(s, name, message))
  {
    var p := s.promises[name];
    var c := Get(s.callers, p.origin);
    var s' := s.(callers := Update(s.callers, p.origin, c.(loading := false, error := InitFailed(name, message))));
    ReplaceCallersInv(s, s'.callers, s.globals);
    assert s' == s.(callers := s'.callers, globals := s.globals);
    RejectInv(s', name, message);
  }

  lemma ScriptLoadedInv(s: State, name: string, published: Published)
    requires Inv(s) && ScriptPending(s, name)
    ensures Inv(ScriptLoaded(s, name, published))
  {
    match published
    case Callable(f) => InvokeFactoryInv(s, name, f);
    case Value(inst) => ScriptValueInv(s, name, inst);
    case Absent => RejectInv(s, name, ExportMissing(s.promises[name].exportName));
  }

  /** Every event keeps the invariant. */
  lemma {:induction false} StepInv(s: State, e: Event)
    requires Inv(s) && Enabled(s, e)
    ensures Inv(Step(s, e))
  {
    match e
    case MountEvent(name) => MountInv(s, name);
    case RequestEvent(id, name, src, exportName) => RequestInv(s, id, name, src, exportName);
    case ScriptLoadEvent(name, published) => ScriptLoadedInv(s, name, published);
    case ScriptErrorEvent(name) => RejectInv(s, name, ScriptFailed);
    case FactoryResolveEvent(name, inst) => FactoryResolvedInv(s, name, inst);
    case FactoryRejectEvent(name, message) => FactoryRejectedInv(s, name, message);
  }

  /** Every run from a state that satisfies the invariant ends in one that does. */
  lemma {:induction false} RunInv(s: State, events: seq<Event>)
    requires Inv(s)
    ensures Inv(Run(s, events))
    decreases |events|
  {
    if events != [] {
      var next := s;
      if Enabled(s, events[0]) {
        StepInv(s, events[0]);
        next := Step(s, events[0]);
      }
      RunInv(next, events[1..]);
    }
  }

  /** However many components ask for however many modules, in whatever
      order the loads complete, at most one script is ever injected per
      module name, and one is injected exactly for the names requested. */
  lemma AtMostOneScriptPerName(events: seq<Event>, name: string)
    ensures ScriptsFor(Run(Init(), events).scripts, name) <= 1
    ensures ScriptsFor(Run(Init(), events).scripts, name) == 1 <==> name in Run(Init(), events).promises
    ensures Count(Run(Init(), events).factoryCalls, name) <= 1
  {
    InitInv();
    RunInv(Init(), events);
  }

  /** `t` is a later state than `s`: nothing was removed from either map, a
      cached instance never changes, a failed or fulfilled promise stays as
      it was, and scripts and callers were only ever added. */
  ghost predicate Extends(s: State, t: State) {
    && s.promises.Keys <= t.promises.Keys
    && (forall n :: n in s.modules ==> n in t.modules && t.modules[n] == s.modules[n])
    && (forall n :: n in s.promises && !s.promises[n].Pending? ==> t.promises[n] == s.promises[n])
    && s.scripts <= t.scripts
    && |s.callers| <= |t.callers|
  }

  lemma MountExtends(s: State, name: string)
    ensures Extends(s, Mount(s, name))
  {
  }

  lemma RequestExtends(s: State, id: nat, name: string, src: string, exportName: string)
    requires id < |s.callers|
    ensures Extends(s, Request(s, id, name, src, exportName))
  {
  }

  lemma ScriptLoadedExtends(s: State, name: string, published: Published)
    requires Inv(s) && ScriptPending(s, name)
    ensures Extends(s, ScriptLoaded(s, name, published))
  {
  }

  lemma ScriptErrorExtends(s: State, name: string)
    requires Inv(s) && ScriptPending(s, name)
    ensures Extends(s, ScriptError(s, name))
  {
  }

  lemma FactoryResolvedExtends(s: State, name: string, inst: Instance)
    requires Inv(s) && InstancePending(s, name)
    ensures Extends(s, FactoryResolved(s, name, inst))
  {
  }

  lemma FactoryRejectedExtends(s: State, name: string, message: string)
    requires Inv(s) && InstancePending(s, name)
    ensures Extends(s, FactoryRejected(s, name, message))
  {
  }

  lemma StepExtends(s: State, e: Event)
    requires Inv(s) && Enabled(s, e)
    ensures Extends(s, Step(s, e))
  {
    match e
    case MountEvent(name) => MountExtends(s, name);
    case RequestEvent(id, name, src, exportName) => RequestExtends(s, id, name, src, exportName);
    case ScriptLoadEvent(name, published) => ScriptLoadedExtends(s, name, published);
    case ScriptErrorEvent(name) => ScriptErrorExtends(s, name);
    case FactoryResolveEvent(name, inst) => FactoryResolvedExtends(s, name, inst);
    case FactoryRejectEvent(name, message) => FactoryRejectedExtends(s, name, message);
  }

  /** No entry is ever evicted: over any run, cached instances stay cached
      unchanged and a settled load never changes its outcome, so a name
      whose load failed stays failed. */
  lemma {:induction false} RunExtends(s: State, events: seq<Event>)
    requires Inv(s)
    ensures Extends(s, Run(s, events))
    decreases |events|
  {
    if events != [] {
      var s' := if Enabled(s, events[0]) then Step(s, events[0]) else s;
      if Enabled(s, events[0]) { StepExtends(s, events[0]); StepInv(s, events[0]); }
      RunExtends(s', events[1..]);
    }
  }

  /** A new caller's initial state: loading exactly when the module is not
      cached, ready exactly when it is, and no error. */
  lemma MountStartsCaller(s: State, name: string)
    ensures |Mount(s, name).callers| == |s.callers| + 1
    ensures Mount(s, name).callers[|s.callers|].loading == (name !in s.modules)
    ensures Mount(s, name).callers[|s.callers|].ready == (name in s.modules)
    ensures Mount(s, name).callers[|s.callers|].error == ""
  {
  }

  /** A request for a cached module makes its caller ready at once and
      touches nothing else: no script, no promise, no other caller. */
  lemma RequestCached(s: State, id: nat, name: string, src: string, exportName: string)
    requires id < |s.callers| && name in s.modules
    ensures var t := Request(s, id, name, src, exportName);
      && t.callers[id].ready && !t.callers[id].loading
      && t.callers[id].error == s.callers[id].error
      && (forall i :: 0 <= i < |s.callers| && i != id ==> t.callers[i] == s.callers[i])
      && t.scripts == s.scripts && t.promises == s.promises && t.modules == s.modules
  {
  }

  /** A request for a module whose load is in flight attaches its caller to
      that load and starts nothing. */
  lemma RequestAttaches(s: State, id: nat, name: string, src: string, exportName: string)
    requires Inv(s) && id < |s.callers|
    requires name in s.promises && s.promises[name].Pending?
    ensures var t := Request(s, id, name, src, exportName);
      && id in Waiting(t, name)
      && Waiting(s, name) <= Waiting(t, name)
      && t.callers == s.callers && t.scripts == s.scripts && t.promises == s.promises
  {
  }

  /** A request for a module whose load failed reports the failure at once
      and never retries: no script is injected and the promise stays
      rejected. */
  lemma RequestAfterFailure(s: State, id: nat, name: string, src: string, exportName: string)
    requires Inv(s) && id < |s.callers|
    requires name in s.promises && s.promises[name].Rejected?
    ensures var t := Request(s, id, name, src, exportName);
      && t.callers[id].error == LoadFailed && !t.callers[id].loading
      && t.scripts == s.scripts && t.promises == s.promises && t.modules == s.modules
  {
  }

  /** The first request for a name registers its pending promise and injects
      exactly one script, in the same step; its caller waits on the load. */
  lemma RequestStartsLoad(s: State, id: nat, name: string, src: string, exportName: string)
    requires Inv(s) && id < |s.callers| && name !in s.promises
    ensures var t := Request(s, id, name, src, exportName);
      && t.promises == s.promises[name := Pending(id, EffectiveExportName(name, exportName), AwaitingScript)]
      && t.scripts == s.scripts + [Script(name, src)]
      && Waiting(t, name) == {id}
      && t.modules == s.modules && t.callers == s.callers
  {
  }

  /** A callable export is invoked exactly once and the load then waits for
      its promise; no instance is registered and no caller changes yet. */
  lemma CallableExportInvoked(s: State, name: string, f: nat)
    requires Inv(s) && ScriptPending(s, name)
    ensures var t := ScriptLoaded(s, name, Callable(f));
      && Count(t.factoryCalls, name) == 1
      && InstancePending(t, name)
      && t.modules == s.modules && t.callers == s.callers && t.scripts == s.scripts
  {
    CountSnoc(s.factoryCalls, name, name);
  }

  /** A truthy non-callable export is registered as it is, without invoking
      anything, and every caller waiting on the load becomes ready. */
  lemma PlainExportStored(s: State, name: string, inst: Instance)
    requires Inv(s) && ScriptPending(s, name)
    ensures var t := ScriptLoaded(s, name, Value(inst));
      && t.modules == s.modules[name := inst]
      && t.promises[name] == Fulfilled
      && t.factoryCalls == s.factoryCalls
      && (forall i :: i in Waiting(s, name) ==> t.callers[i].ready && !t.callers[i].loading)
      && (forall i :: 0 <= i < |s.callers| && i !in Waiting(s, name) ==> t.callers[i] == s.callers[i])
  {
  }

  /** The factory's instance is registered, replaces the factory under the
      global export name, and makes every waiting caller ready together. */
  lemma FactoryInstanceStored(s: State, name: string, inst: Instance)
    requires Inv(s) && InstancePending(s, name)
    ensures var t := FactoryResolved(s, name, inst);
      && t.modules == s.modules[name := inst]
      && t.globals == s.globals[s.promises[name].exportName := inst]
      && t.promises[name] == Fulfilled
      && (forall i :: i in Waiting(s, name) ==> t.callers[i].ready && !t.callers[i].loading)
      && (forall i :: 0 <= i < |s.callers| && i !in Waiting(s, name) ==> t.callers[i] == s.callers[i])
  {
  }

  /** A missing export rejects the load: nothing is registered and every
      waiting caller reports the same failure. */
  lemma MissingExportRejects(s: State, name: string)
    requires Inv(s) && ScriptPending(s, name)
    ensures var t := ScriptLoaded(s, name, Absent);
      && t.modules == s.modules
      && t.promises[name] == Rejected(ExportMissing(s.promises[name].exportName))
      && (forall i :: i in Waiting(s, name) ==> t.callers[i].error == LoadFailed && !t.callers[i].loading)
  {
  }

  /** A script error rejects the load the same way. */
  lemma ScriptErrorRejects(s: State, name: string)
    requires Inv(s) && ScriptPending(s, name)
    ensures var t := ScriptError(s, name);
      && t.modules == s.modules
      && t.promises[name] == Rejected(ScriptFailed)
      && (forall i :: i in Waiting(s, name) ==> t.callers[i].error == LoadFailed && !t.callers[i].loading)
  {
  }

  /** A rejected factory promise rejects the load; the starting caller's
      own "Failed to initialize" message is overwritten by its handler, so
      every waiting caller, the starting one included, ends up reporting
      the same failure. */
  lemma FactoryRejectionRejects(s: State, name: string, message: string)
    requires Inv(s) && InstancePending(s, name)
    ensures var t := FactoryRejected(s, name, message);
      && t.modules == s.modules
      && t.promises[name] == Rejected(message)
      && s.promises[name].origin in Waiting(s, name)
      && (forall i :: i in Waiting(s, name) ==> t.callers[i].error == LoadFailed && !t.callers[i].loading)
  {
  }

  /** `getWasmModule` answers only for a name whose load succeeded, with the
      instance that load registered, and `isWasmModuleLoaded` agrees with it. */
  lemma LookupOnlyAfterSuccess(s: State, name: string)
    requires Inv(s)
    ensures GetWasmModule(s, name).Some? <==> name in s.promises && s.promises[name].Fulfilled?
    ensures IsWasmModuleLoaded(s, name) <==> GetWasmModule(s, name).Some?
    ensures GetWasmModule(s, name).Some? ==> GetWasmModule(s, name).value == s.modules[name]
  {
  }

  // ---------------------------------------------------------------------
  // The loader as the page holds it

  /** The module-level registry together with every caller's state; each
      method is one turn of the event loop and changes the fields as the
      transition of the same name says. */
  class Registry {
    var modules: map<string, Instance>
    var promises: map<string, LoadPromise>
    var waiters: map<string, set<nat>>
    var callers: seq<CallerState>
    var scripts: seq<Script>
    var factoryCalls: seq<string>
    var globals: map<string, Instance>

    ghost function Abstract(): State
      reads this
    {
      State(modules, promises, waiters, callers, scripts, factoryCalls, globals)
    }

    ghost predicate Valid()
      reads this
    {
      Inv(Abstract())
    }

    constructor()
      ensures Valid() && Abstract() == Init()
    {
      modules, promises, waiters := map[], map[], map[];
      callers, scripts, factoryCalls := [], [], [];
      globals := map[];
      InitInv();
    }

    /** A component using the hook mounts; `id` identifies it from now on. */
    method MountCaller(name: string) returns (id: nat)
      requires Valid()
      modifies this
      ensures Valid()
      ensures id == |old(callers)| && id < |callers|
      ensures Abstract() == Mount(old(Abstract()), name)
    {
      ghost var s := Abstract();
      MountInv(s, name);
      id := |callers|;
      callers := callers + [InitialCaller(name in modules)];
    }

    /** The hook's effect for caller `id` asking for `name`. */
    method RequestModule(id: nat, name: string, src: string, exportName: string)
      requires Valid() && id < |callers|
      modifies this
      ensures Valid()
      ensures Abstract() == Request(old(Abstract()), id, name, src, exportName)
    {
      ghost var s := Abstract();
      ghost var t := Request(s, id, name, src, exportName);
      RequestInv(s, id, name, src, exportName);
      if name in modules {
        callers := callers[id := MarkReady(callers[id])];
      } else if name in promises {
        match promises[name]
        case Pending(_, _, _) =>
          var w := if name in waiters then waiters[name] else {};
          waiters := waiters[name := w + {id}];
        case Fulfilled =>
          // a fulfilled promise always has its instance cached
          assert false;
        case Rejected(_) =>
          callers := callers[id := MarkFailed(callers[id])];
      } else {
        var actualExportName := EffectiveExportName(name, exportName);
        promises := promises[name := Pending(id, actualExportName, AwaitingScript)];
        waiters := waiters[name := {id}];
        scripts := scripts + [Script(name, src)];
      }
      assert Abstract() == t;
    }

    /** Settles `name`'s promise with `inst` for every waiting caller. */
    method Settle(name: string, inst: Instance)
      requires Valid() && name in promises && promises[name].Pending?
      modifies this
      ensures Valid()
      ensures Abstract() == Fulfill(old(Abstract()), name, inst)
    {
      FulfillInv(Abstract(), name, inst);
      var w := if name in waiters then waiters[name] else {};
      modules := modules[name := inst];
      promises := promises[name := Fulfilled];
      callers := SettleAll(callers, w, true);
      waiters := waiters - {name};
    }

    /** Rejects `name`'s promise with `reason` for every waiting caller. */
    method Fail(name: string, reason: string)
      requires Valid() && name in promises && promises[name].Pending?
      modifies this
      ensures Valid()
      ensures Abstract() == Reject(old(Abstract()), name, reason)
    {
      RejectInv(Abstract(), name, reason);
      var w := if name in waiters then waiters[name] else {};
      promises := promises[name := Rejected(reason)];
      callers := SettleAll(callers, w, false);
      waiters := waiters - {name};
    }

    /** The script's load event. */
    method OnScriptLoad(name: string, published: Published)
      requires Valid() && ScriptPending(Abstract(), name)
      modifies this
      ensures Valid()
      ensures Abstract() == ScriptLoaded(old(Abstract()), name, published)
    {
      ghost var s := Abstract();
      ScriptLoadedInv(s, name, published);
      var p := promises[name];
      match published
      case Callable(_) =>
        promises := promises[name := p.(stage := AwaitingInstance)];
        factoryCalls := factoryCalls + [name];
      case Value(inst) =>
        callers := Update(callers, p.origin, MarkReady(Get(callers, p.origin)));
        ReplaceCallersInv(s, callers, globals);
        Settle(name, inst);
      case Absent =>
        Fail(name, ExportMissing(p.exportName));
    }

    /** The script's error event. */
    method OnScriptError(name: string)
      requires Valid() && ScriptPending(Abstract(), name)
      modifies this
      ensures Valid()
      ensures Abstract() == ScriptError(old(Abstract()), name)
    {
      ghost var s := Abstract();
      RejectInv(s, name, ScriptFailed);
      Fail(name, ScriptFailed);
    }

    /** The factory's promise resolves with `inst`. */
    method OnFactoryResolve(name: string, inst: Instance)
      requires Valid() && InstancePending(Abstract(), name)
      modifies this
      ensures Valid()
      ensures Abstract() == FactoryResolved(old(Abstract()), name, inst)
    {
      ghost var s := Abstract();
      FactoryResolvedInv(s, name, inst);
      var p := promises[name];
      callers := Update(callers, p.origin, MarkReady(Get(callers, p.origin)));
      globals := globals[p.exportName := inst];
      ReplaceCallersInv(s, callers, globals);
      Settle(name, inst);
    }

    /** The factory's promise rejects with `message`. */
    method OnFactoryReject(name: string, message: string)
      requires Valid() && InstancePending(Abstract(), name)
      modifies this
      ensures Valid()
      ensures Abstract() == FactoryRejected(old(Abstract()), name, message)
    {
      ghost var s := Abstract();
      FactoryRejectedInv(s, name, message);
      var p := promises[name];
      var c := Get(callers, p.origin);
      callers := Update(callers, p.origin, c.(loading := false, error := InitFailed(name, message)));
      ReplaceCallersInv(s, callers, globals);
      Fail(name, message);
    }

    /** `getWasmModule(name)`: the cached instance, if any. */
    function Lookup(name: string): (r: Option<Instance>)
      requires Valid()
      reads this
      ensures r.Some? <==> name in promises && promises[name].Fulfilled?
      ensures r == GetWasmModule(Abstract(), name)
    {
      LookupOnlyAfterSuccess(Abstract(), name);
      if name in modules then Some(modules[name]) else None
    }

    /** `isWasmModuleLoaded(name)`. */
    predicate IsLoaded(name: string)
      reads this
      ensures IsLoaded(name) <==> GetWasmModule(Abstract(), name).Some?
    {
      name in modules
    }
  }
}
