/** The DES demo's own loader: the predecessor of the shared registry, for
    one module, held in two module-level singletons (the load promise and
    the loaded module) plus every card's `loading / error / ready` state. */
module DesLoader {

  import opened Wrappers
  import WasmLoader

  type CallerState = WasmLoader.CallerState
  type Instance = WasmLoader.Instance

  /** How far the one load has got: waiting for the script, or for the
      runtime of the module the script published. */
  datatype Stage = AwaitingScript | AwaitingRuntime(published: Instance)

  /** The `wasmLoadingPromise` singleton. */
  datatype Slot =
    | NoPromise
    | Pending(origin: nat, stage: Stage)
    | Fulfilled
    | Rejected(reason: string)

  datatype State = State(
    promise: Slot,            // wasmLoadingPromise
    wasmModule: Option<Instance>,
    waiters: set<nat>,        // callers whose handlers wait on the pending promise
    callers: seq<CallerState>,
    scripts: nat)             // script elements injected

  /** Rejection reason when the script published no module. */
  const ModuleMissing := "Module not found"

  function Init(): State {
    State(NoPromise, None, {}, [], 0)
  }

  /** A card mounts; its index is the old number of callers. */
  function Mount(s: State): State {
    s.(callers := s.callers + [WasmLoader.InitialCaller(s.wasmModule.Some?)])
  }

  /** The loader's effect for caller `id`: reuse the module, attach to the
      promise, or create the promise and inject the script. */
  function Request(s: State, id: nat): State
    requires id < |s.callers|
  {
    if s.wasmModule.Some? then
      s.(callers := s.callers[id := WasmLoader.MarkReady(s.callers[id])])
    else
      match s.promise
      case Pending(_, _) => s.(waiters := s.waiters + {id})
      case Fulfilled => s.(callers := s.callers[id := WasmLoader.MarkReady(s.callers[id])])
      case Rejected(_) => s.(callers := s.callers[id := WasmLoader.MarkFailed(s.callers[id])])
      case NoPromise => s.(promise := Pending(id, AwaitingScript), waiters := {id}, scripts := s.scripts + 1)
  }

  /** The promise rejects: every waiting caller reports the load failure. */
  function Reject(s: State, reason: string): State {
    s.(promise := Rejected(reason),
       callers := WasmLoader.SettleAll(s.callers, s.waiters, false),
       waiters := {})
  }

  predicate ScriptPending(s: State) {
    s.promise.Pending? && s.promise.stage.AwaitingScript?
  }

  predicate RuntimePending(s: State) {
    s.promise.Pending? && s.promise.stage.AwaitingRuntime?
  }

  /** The script's load event with what it published as `window.Module`:
      a module gets a runtime-initialised callback, none rejects. */
  function ScriptLoaded(s: State, published: Option<Instance>): State
    requires ScriptPending(s)
  {
    match published
    case Some(m) => s.(promise := Pending(s.promise.origin, AwaitingRuntime(m)))
    case None => Reject(s, ModuleMissing)
  }

  /** The script's error event. */
  function ScriptError(s: State): State
    requires ScriptPending(s)
  {
    Reject(s, WasmLoader.ScriptFailed)
  }

  /** The runtime-initialised callback: the module is recorded, the starting
      caller is made ready, and the resolved promise makes every waiting
      caller ready. */
  function RuntimeInitialized(s: State): State
    requires RuntimePending(s)
  {
    var p := s.promise;
    var callers := WasmLoader.Update(s.callers, p.origin, WasmLoader.MarkReady(WasmLoader.Get(s.callers, p.origin)));
    s.(wasmModule := Some(p.stage.published),
       promise := Fulfilled,
       callers := WasmLoader.SettleAll(callers, s.waiters, true),
       waiters := {})
  }

  datatype Event =
    | MountEvent
    | RequestEvent(id: nat)
    | ScriptLoadEvent(published: Option<Instance>)
    | ScriptErrorEvent
    | RuntimeEvent

  predicate Enabled(s: State, e: Event) {
    match e
    case MountEvent => true
    case RequestEvent(id) => id < |s.callers|
    case ScriptLoadEvent(_) => ScriptPending(s)
    case ScriptErrorEvent => ScriptPending(s)
    case RuntimeEvent => RuntimePending(s)
  }

  function Step(s: State, e: Event): State
    requires Enabled(s, e)
  {
    match e
    case MountEvent => Mount(s)
    case RequestEvent(id) => Request(s, id)
    case ScriptLoadEvent(published) => ScriptLoaded(s, published)
    case ScriptErrorEvent => ScriptError(s)
    case RuntimeEvent => RuntimeInitialized(s)
  }

  /** The state after a sequence of events; an event that cannot occur in
      the state it meets is dropped. */
  function Run(s: State, events: seq<Event>): State
    decreases |events|
  {
    if events == [] then s
    else Run(if Enabled(s, events[0]) then Step(s, events[0]) else s, events[1..])
  }

  /** What holds in every reachable state. */
  ghost predicate Inv(s: State) {
    // the module is recorded exactly when the promise fulfilled
    && (s.wasmModule.Some? <==> s.promise.Fulfilled?)
    // one script once the promise exists, none before
    && s.scripts == (if s.promise.NoPromise? then 0 else 1)
    // only a pending promise has waiters, the starting caller among them
    && (s.waiters != {} ==> s.promise.Pending?)
    && (s.promise.Pending? ==> s.promise.origin in s.waiters)
    && (forall i :: i in s.waiters ==> i < |s.callers|)
  }

  lemma InitInv()
    ensures Inv(Init())
  {
  }

  lemma {:induction false} StepInv(s: State, e: Event)
    requires Inv(s) && Enabled(s, e)
    ensures Inv(Step(s, e))
  {
    match e
    case MountEvent =>
    case RequestEvent(id) =>
    case ScriptLoadEvent(published) =>
    case ScriptErrorEvent =>
    case RuntimeEvent =>
  }

  lemma {:induction false} RunInv(s: State, events: seq<Event>)
    requires Inv(s)
    ensures Inv(Run(s, events))
    decreases |events|
  {
    if events != [] {
      if Enabled(s, events[0]) { StepInv(s, events[0]); }
      RunInv(if Enabled(s, events[0]) then Step(s, events[0]) else s, events[1..]);
    }
  }

  /** However many cards mount and in whatever order things happen, the
      script is injected at most once, and it is injected exactly when some
      card has asked for the module. */
  lemma AtMostOneScript(events: seq<Event>)
    ensures Run(Init(), events).scripts <= 1
    ensures Run(Init(), events).scripts == 1 <==> !Run(Init(), events).promise.NoPromise?
  {
    InitInv();
    RunInv(Init(), events);
  }

  /** A new card starts loading exactly when no module is recorded, and is
      ready exactly when one is. */
  lemma MountStartsCaller(s: State)
    ensures Mount(s).callers[|s.callers|].loading == s.wasmModule.None?
    ensures Mount(s).callers[|s.callers|].ready == s.wasmModule.Some?
  {
  }

  /** With the module recorded, a request makes its caller ready at once and
      injects nothing. */
  lemma RequestCached(s: State, id: nat)
    requires id < |s.callers| && s.wasmModule.Some?
    ensures var t := Request(s, id);
      && t.callers[id].ready && !t.callers[id].loading
      && t.scripts == s.scripts && t.promise == s.promise
  {
  }

  /** With the load in flight, a request waits on the shared promise and
      injects no second script; with the load failed, it reports the
      failure without retrying. */
  lemma RequestWhileLoading(s: State, id: nat)
    requires Inv(s) && id < |s.callers| && !s.promise.NoPromise?
    ensures var t := Request(s, id);
      && t.scripts == s.scripts && t.promise == s.promise && t.wasmModule == s.wasmModule
      && (s.promise.Pending? ==> id in t.waiters && t.callers == s.callers)
      && (s.promise.Rejected? ==> t.callers[id].error == WasmLoader.LoadFailed && !t.callers[id].loading)
  {
  }

  /** The first request assigns the promise in the same step as it injects
      the script; the module is not recorded yet. */
  lemma FirstRequestStartsLoad(s: State, id: nat)
    requires Inv(s) && id < |s.callers| && s.promise.NoPromise?
    ensures var t := Request(s, id);
      && t.promise == Pending(id, AwaitingScript) && t.scripts == 1
      && t.wasmModule.None? && t.waiters == {id}
  {
  }

  /** The module is recorded only by the runtime-initialised callback, and
      then every waiting caller is ready. */
  lemma ModuleRecordedOnlyAtRuntime(s: State, e: Event)
    requires Inv(s) && Enabled(s, e)
    requires s.wasmModule.None? && Step(s, e).wasmModule.Some?
    ensures e.RuntimeEvent?
    ensures forall i :: i in s.waiters ==> Step(s, e).callers[i].ready && !Step(s, e).callers[i].loading
  {
  }

  /** A missing module or a script error rejects the promise; every waiting
      caller, the starting one included, reports the same failure. */
  lemma FailureReachesEveryWaiter(s: State, e: Event)
    requires Inv(s) && Enabled(s, e)
    requires e == ScriptLoadEvent(None) || e == ScriptErrorEvent
    ensures Step(s, e).promise == Rejected(if e.ScriptErrorEvent? then WasmLoader.ScriptFailed else ModuleMissing)
    ensures s.promise.origin in s.waiters
    ensures forall i :: i in s.waiters ==>
      Step(s, e).callers[i].error == WasmLoader.LoadFailed && !Step(s, e).callers[i].loading
    ensures Step(s, e).wasmModule.None?
  {
  }

  /** The singletons and every card's loader state, as the page holds them. */
  class Singletons {
    var wasmLoadingPromise: Slot
    var wasmModule: Option<Instance>
    var waiters: set<nat>
    var callers: seq<CallerState>
    var scripts: nat

    ghost function Abstract(): State
      reads this
    {
      State(wasmLoadingPromise, wasmModule, waiters, callers, scripts)
    }

    ghost predicate Valid()
      reads this
    {
      Inv(Abstract())
    }

    constructor()
      ensures Valid() && Abstract() == Init()
    {
      wasmLoadingPromise, wasmModule, waiters, callers, scripts := NoPromise, None, {}, [], 0;
    }

    method MountCard() returns (id: nat)
      requires Valid()
      modifies this
      ensures Valid()
      ensures id == |old(callers)| && id < |callers|
      ensures Abstract() == Mount(old(Abstract()))
    {
      id := |callers|;
      callers := callers + [WasmLoader.InitialCaller(wasmModule.Some?)];
    }

    method RequestModule(id: nat)
      requires Valid() && id < |callers|
      modifies this
      ensures Valid()
      ensures Abstract() == Request(old(Abstract()), id)
    {
      if wasmModule.Some? {
        callers := callers[id := WasmLoader.MarkReady(callers[id])];
        return;
      }
      match wasmLoadingPromise
      case Pending(_, _) =>
        waiters := waiters + {id};
      case Fulfilled =>
        // a fulfilled promise always has its module recorded
        assert false;
      case Rejected(_) =>
        callers := callers[id := WasmLoader.MarkFailed(callers[id])];
      case NoPromise =>
        wasmLoadingPromise := Pending(id, AwaitingScript);
        waiters := {id};
        scripts := scripts + 1;
    }

    method Fail(reason: string)
      requires Valid() && wasmLoadingPromise.Pending?
      modifies this
      ensures Valid()
      ensures Abstract() == Reject(old(Abstract()), reason)
    {
      wasmLoadingPromise := Rejected(reason);
      callers := WasmLoader.SettleAll(callers, waiters, false);
      waiters := {};
    }

    method OnScriptLoad(published: Option<Instance>)
      requires Valid() && ScriptPending(Abstract())
      modifies this
      ensures Valid()
      ensures Abstract() == ScriptLoaded(old(Abstract()), published)
    {
      StepInv(Abstract(), ScriptLoadEvent(published));
      match published
      case Some(m) =>
        wasmLoadingPromise := Pending(wasmLoadingPromise.origin, AwaitingRuntime(m));
      case None =>
        Fail(ModuleMissing);
    }

    method OnScriptError()
      requires Valid() && ScriptPending(Abstract())
      modifies this
      ensures Valid()
      ensures Abstract() == ScriptError(old(Abstract()))
    {
      StepInv(Abstract(), ScriptErrorEvent);
      Fail(WasmLoader.ScriptFailed);
    }

    method OnRuntimeInitialized()
      requires Valid() && RuntimePending(Abstract())
      modifies this
      ensures Valid()
      ensures Abstract() == RuntimeInitialized(old(Abstract()))
    {
      StepInv(Abstract(), RuntimeEvent);
      var p := wasmLoadingPromise;
      wasmModule := Some(p.stage.published);
      callers := WasmLoader.Update(callers, p.origin, WasmLoader.MarkReady(WasmLoader.Get(callers, p.origin)));
      wasmLoadingPromise := Fulfilled;
      callers := WasmLoader.SettleAll(callers, waiters, true);
      waiters := {};
    }
  }
}

/** The encryption and decryption cards: input normalisation and the
    guard sequences around the compiled cipher. The cipher is a call into
    WebAssembly; its result is an input here. */
module DesCards {

  import opened Wrappers
  import opened JsString
  import opened Ccall

  /** A DES block and a DES key are 64 bits (FIPS 46-3), entered as eight
      8-bit characters. */
  const BlockChars := 8

  const NotLoaded := "WebAssembly not loaded yet"
  const PlaintextLength := "Plaintext must be exactly 8 characters"
  const KeyLength := "Key must be exactly 8 characters"
  const CiphertextRequired := "Ciphertext is required"
  const EncryptionFailed := "Encryption failed"
  const DecryptionFailed := "Decryption failed"

  /** The Encrypt button is enabled. */
  predicate EncryptEnabled(ready: bool, plaintext: string, key: string) {
    ready && Utf16Length(plaintext) == BlockChars && Utf16Length(key) == BlockChars
  }

  /** The Decrypt button is enabled. */
  predicate DecryptEnabled(ready: bool, ciphertext: string, key: string) {
    ready && ciphertext != "" && Utf16Length(key) == BlockChars
  }

  /** The encryption guards in order; the first that fails gives the
      error, and none failing lets the cipher run. */
  function EncryptCheck(ready: bool, plaintext: string, key: string): (r: Option<string>)
    ensures r.None? <==> EncryptEnabled(ready, plaintext, key)
    ensures !ready ==> r == Some(NotLoaded)
    ensures ready && Utf16Length(plaintext) != BlockChars ==> r == Some(PlaintextLength)
    ensures ready && Utf16Length(plaintext) == BlockChars && Utf16Length(key) != BlockChars ==>
      r == Some(KeyLength)
  {
    if !ready then Some(NotLoaded)
    else if Utf16Length(plaintext) != BlockChars then Some(PlaintextLength)
    else if Utf16Length(key) != BlockChars then Some(KeyLength)
    else None
  }

  /** The decryption guards in order. */
  function DecryptCheck(ready: bool, ciphertext: string, key: string): (r: Option<string>)
    ensures r.None? <==> DecryptEnabled(ready, ciphertext, key)
    ensures !ready ==> r == Some(NotLoaded)
    ensures ready && ciphertext == "" ==> r == Some(CiphertextRequired)
    ensures ready && ciphertext != "" && Utf16Length(key) != BlockChars ==> r == Some(KeyLength)
  {
    if !ready then Some(NotLoaded)
    else if ciphertext == "" then Some(CiphertextRequired)
    else if Utf16Length(key) != BlockChars then Some(KeyLength)
    else None
  }

  /** What the encryption card shows. */
  datatype EncryptView = EncryptView(plaintext: string, key: string, ciphertext: string, error: string)

  /** What the decryption card shows. */
  datatype DecryptView = DecryptView(ciphertext: string, key: string, plaintext: string, error: string)

  /** The Encrypt handler, given whether the module is ready and what the
      cipher call would give. */
  function Encrypt(v: EncryptView, ready: bool, result: CallResult): (w: EncryptView)
    // the inputs are never touched
    ensures w.plaintext == v.plaintext && w.key == v.key
    // a failed guard reports itself and leaves the old ciphertext
    ensures EncryptCheck(ready, v.plaintext, v.key).Some? ==>
      w == v.(error := EncryptCheck(ready, v.plaintext, v.key).value)
    // otherwise the error is cleared exactly when the cipher gave a ciphertext, which is shown;
    // any failure clears the ciphertext
    ensures EncryptCheck(ready, v.plaintext, v.key).None? ==>
      && (w.error == "" <==> result.Returned? && result.value != "ERROR")
      && (w.error == "" ==> w.ciphertext == result.value)
      && (w.error != "" ==> w.ciphertext == "")
      && (result == Returned("ERROR") ==> w.error == EncryptionFailed)
      && (result.Threw? ==> w.error == "Error encrypting: " + result.message)
  {
    match EncryptCheck(ready, v.plaintext, v.key)
    case Some(problem) => v.(error := problem)
    case None =>
      match result
      case Returned(r) =>
        if r == "ERROR" then v.(error := EncryptionFailed, ciphertext := "")
        else v.(ciphertext := r, error := "")
      case Threw(message) => v.(error := "Error encrypting: " + message, ciphertext := "")
  }

  /** The Decrypt handler. */
  function Decrypt(v: DecryptView, ready: bool, result: CallResult): (w: DecryptView)
    ensures w.ciphertext == v.ciphertext && w.key == v.key
    ensures DecryptCheck(ready, v.ciphertext, v.key).Some? ==>
      w == v.(error := DecryptCheck(ready, v.ciphertext, v.key).value)
    // an "ERROR" or empty result is a failure; any other result is shown
    // with every NUL character removed
    ensures DecryptCheck(ready, v.ciphertext, v.key).None? ==>
      && (w.error == "" <==> result.Returned? && result.value != "ERROR" && result.value != "")
      && (w.error == "" ==> '\0' !in w.plaintext && w.plaintext == RemoveAll(result.value, '\0'))
      && (w.error != "" ==> w.plaintext == "")
      && (result == Returned("ERROR") || result == Returned("") ==> w.error == DecryptionFailed)
      && (result.Threw? ==> w.error == "Error decrypting: " + result.message)
  {
    match DecryptCheck(ready, v.ciphertext, v.key)
    case Some(problem) => v.(error := problem)
    case None =>
      match result
      case Returned(r) =>
        if r == "ERROR" || r == "" then v.(error := DecryptionFailed, plaintext := "")
        else v.(plaintext := RemoveAll(r, '\0'), error := "")
      case Threw(message) => v.(error := "Error decrypting: " + message, plaintext := "")
  }

  /** A result without NUL characters is shown exactly as the cipher gave
      it. */
  lemma DecryptShowsCleanResult(v: DecryptView, r: string)
    requires DecryptEnabled(true, v.ciphertext, v.key)
    requires r != "ERROR" && r != "" && '\0' !in r
    ensures Decrypt(v, true, Returned(r)).plaintext == r
    ensures Decrypt(v, true, Returned(r)).error == ""
  {
  }

  /** The cards' initial plaintext and key each fill exactly one block. */
  lemma DefaultsFillOneBlock()
    ensures EncryptEnabled(true, "HELLO123", "SECRET!!")
  {
    assert Utf16Length("HELLO123") == 8;
    assert Utf16Length("SECRET!!") == 8;
  }

  /** The encryption card. */
  class EncryptionCard {
    var plaintext: string
    var key: string
    var ciphertext: string
    var error: string

    function View(): EncryptView
      reads this
    {
      EncryptView(plaintext, key, ciphertext, error)
    }

    constructor()
      ensures View() == EncryptView("HELLO123", "SECRET!!", "", "")
    {
      plaintext, key, ciphertext, error := "HELLO123", "SECRET!!", "", "";
    }

    /** Typing in the plaintext field: stored upper-cased. */
    method SetPlaintext(input: string)
      modifies this
      ensures View() == old(View()).(plaintext := ToUpper(input))
    {
      plaintext := ToUpper(input);
    }

    /** Typing in the key field: stored upper-cased. */
    method SetKey(input: string)
      modifies this
      ensures View() == old(View()).(key := ToUpper(input))
    {
      key := ToUpper(input);
    }

    method HandleEncrypt(ready: bool, result: CallResult)
      modifies this
      ensures View() == Encrypt(old(View()), ready, result)
    {
      if !ready {
        error := NotLoaded;
        return;
      }
      if Utf16Length(plaintext) != BlockChars {
        error := PlaintextLength;
        return;
      }
      if Utf16Length(key) != BlockChars {
        error := KeyLength;
        return;
      }
      match result
      case Returned(r) =>
        if r == "ERROR" {
          error := EncryptionFailed;
          ciphertext := "";
        } else {
          ciphertext := r;
          error := "";
        }
      case Threw(message) =>
        error := "Error encrypting: " + message;
        ciphertext := "";
    }
  }

  /** The decryption card. */
  class DecryptionCard {
    var ciphertext: string
    var key: string
    var plaintext: string
    var error: string

    function View(): DecryptView
      reads this
    {
      DecryptView(ciphertext, key, plaintext, error)
    }

    constructor()
      ensures View() == DecryptView("", "SECRET!!", "", "")
    {
      ciphertext, key, plaintext, error := "", "SECRET!!", "", "";
    }

    /** Typing in the ciphertext field: stored lower-cased. */
    method SetCiphertext(input: string)
      modifies this
      ensures View() == old(View()).(ciphertext := ToLower(input))
    {
      ciphertext := ToLower(input);
    }

    /** Typing in the key field: stored upper-cased. */
    method SetKey(input: string)
      modifies this
      ensures View() == old(View()).(key := ToUpper(input))
    {
      key := ToUpper(input);
    }

    method HandleDecrypt(ready: bool, result: CallResult)
      modifies this
      ensures View() == Decrypt(old(View()), ready, result)
    {
      if !ready {
        error := NotLoaded;
        return;
      }
      if ciphertext == "" {
        error := CiphertextRequired;
        return;
      }
      if Utf16Length(key) != BlockChars {
        error := KeyLength;
        return;
      }
      match result
      case Returned(r) =>
        if r == "ERROR" || r == "" {
          error := DecryptionFailed;
          plaintext := "";
        } else {
          plaintext := RemoveAll(r, '\0');
          error := "";
        }
      case Threw(message) =>
        error := "Error decrypting: " + message;
        plaintext := "";
    }
  }
}
