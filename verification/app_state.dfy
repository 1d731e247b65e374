/**
  The state of the warehouse `Application` object as an immutable record, the
  events that the bootstrap leaves behind, and the operations through which a
  provider hook or a callback handler changes that state.

  The application is single-threaded and runs every step to completion, so a
  run is a sequence of pure state transitions; the `trace` field records the
  lifecycle steps in the order they happen.
*/
module AppState {

  /** The two provider batches that `bootstrapApplication` runs. */
  datatype Phase = Engine | Plugin

  /** The two callback queues: `engineBootedCallbacks` and `pluginReadyCallbacks`. */
  datatype QueueName = EngineBooted | PluginReady

  /**
    A callback after handler normalisation: an identity and the scripted effect
    of calling it with the application as its only argument.
  */
  datatype Callback = Callback(id: string, effects: seq<Action>)

  /**
    What a provider hook or a callback handler may do to the application it
    holds: bind an instance, or register a callback into one of the queues.
  */
  datatype Action =
    | Bind(key: string, value: string)
    | OnBooted(handler: Callback)
    | OnReady(handler: Callback)

  /** One observable lifecycle step. `index` is a position in the list being processed. */
  datatype Event =
    | AppFacadeSet
    | PathsRegistered
    | UrlsRegistered
    | ExceptionHandlerSet
    | TextDomainLoaded
    | Construct(phase: Phase, index: nat, provider: string)
    | Booting(phase: Phase, index: nat, provider: string)
    | FacadeLoader(phase: Phase)
    | Booted(phase: Phase, index: nat, provider: string)
    | Invoke(queue: QueueName, index: nat, callback: string)

  /** The application object: binding registry, both queues, the facade flag, and the trace. */
  datatype App = App(
    bindings: map<string, string>,
    engineBootedCallbacks: seq<Callback>,
    pluginReadyCallbacks: seq<Callback>,
    isFacadeLoaderRegistered: bool,
    trace: seq<Event>)

  /** The application right after construction, before `bootstrapApplication` runs. */
  const Fresh := App(map[], [], [], false, [])

  predicate IsPrefix<T(==)>(a: seq<T>, b: seq<T>) {
    |a| <= |b| && b[..|a|] == a
  }


  /**
    `b` is reachable from `a` by hook actions: no binding disappears and each
    queue is only appended to.
  */
  predicate Extends(a: App, b: App) {
    && a.bindings.Keys <= b.bindings.Keys
    && IsPrefix(a.engineBootedCallbacks, b.engineBootedCallbacks)
    && IsPrefix(a.pluginReadyCallbacks, b.pluginReadyCallbacks)
  }

  lemma ExtendsTransitive(a: App, b: App, c: App)
    requires Extends(a, b) && Extends(b, c)
    ensures Extends(a, c)
  {
    assert c.engineBootedCallbacks[..|a.engineBootedCallbacks|]
        == c.engineBootedCallbacks[..|b.engineBootedCallbacks|][..|a.engineBootedCallbacks|];
    assert c.pluginReadyCallbacks[..|a.pluginReadyCallbacks|]
        == c.pluginReadyCallbacks[..|b.pluginReadyCallbacks|][..|a.pluginReadyCallbacks|];
  }

  /** Records one lifecycle step; nothing else changes. */
  function Log(app: App, e: Event): (r: App)
    ensures r.trace == app.trace + [e]
    ensures r.bindings == app.bindings
    ensures r.engineBootedCallbacks == app.engineBootedCallbacks
    ensures r.pluginReadyCallbacks == app.pluginReadyCallbacks
    ensures r.isFacadeLoaderRegistered == app.isFacadeLoaderRegistered
  {
    app.(trace := app.trace + [e])
  }

  /** The container's `bindInstance`: insert or overwrite, last write wins. */
  function BindInstance(app: App, key: string, value: string): (r: App)
    ensures key in r.bindings && r.bindings[key] == value
    ensures r.bindings.Keys == app.bindings.Keys + {key}
    ensures forall k :: k in app.bindings && k != key ==> r.bindings[k] == app.bindings[k]
    ensures r.engineBootedCallbacks == app.engineBootedCallbacks
    ensures r.pluginReadyCallbacks == app.pluginReadyCallbacks
    ensures r.isFacadeLoaderRegistered == app.isFacadeLoaderRegistered
    ensures r.trace == app.trace
  {
    app.(bindings := app.bindings[key := value])
  }

  /** The keys a list of `(key, value)` bindings names. */
  function KeysOf(entries: seq<(string, string)>): set<string> {
    set i | 0 <= i < |entries| :: entries[i].0
  }

  lemma KeysOfCons(entries: seq<(string, string)>)
    requires entries != []
    ensures KeysOf(entries) == {entries[0].0} + KeysOf(entries[1..])
  {
    forall k | k in KeysOf(entries)
      ensures k in {entries[0].0} + KeysOf(entries[1..])
    {
      var i :| 0 <= i < |entries| && entries[i].0 == k;
      if i > 0 {
        assert entries[1..][i - 1].0 == k;
      }
    }
    forall k | k in KeysOf(entries[1..])
      ensures k in KeysOf(entries)
    {
      var i :| 0 <= i < |entries[1..]| && entries[1..][i].0 == k;
      assert entries[i + 1].0 == k;
    }
  }

  /** `bindInstance` for each entry in turn, first entry first. */
  function BindEach(app: App, entries: seq<(string, string)>): (r: App)
    ensures r.bindings.Keys == app.bindings.Keys + KeysOf(entries)
    ensures forall k | k in app.bindings && k !in KeysOf(entries) :: r.bindings[k] == app.bindings[k]
    ensures r.engineBootedCallbacks == app.engineBootedCallbacks
    ensures r.pluginReadyCallbacks == app.pluginReadyCallbacks
    ensures r.isFacadeLoaderRegistered == app.isFacadeLoaderRegistered
    ensures r.trace == app.trace
    decreases |entries|
  {
    if entries == [] then app
    else
      KeysOfCons(entries);
      BindEach(BindInstance(app, entries[0].0, entries[0].1), entries[1..])
  }

  /**
    Last write wins: after binding every entry, a key holds the value of the
    last entry that names it.
  */
  lemma {:induction false} BindEachLastWins(app: App, entries: seq<(string, string)>, i: nat)
    requires i < |entries|
    requires entries[i].0 !in KeysOf(entries[i + 1..])
    ensures entries[i].0 in BindEach(app, entries).bindings
    ensures BindEach(app, entries).bindings[entries[i].0] == entries[i].1
    decreases |entries|
  {
    var next := BindInstance(app, entries[0].0, entries[0].1);
    if i > 0 {
      assert entries[1..][i - 1 + 1..] == entries[i + 1..];
      BindEachLastWins(next, entries[1..], i - 1);
    }
  }

  /** `booted($callback)`: one more entry at the end of the engine-booted queue. */
  function RegisterBooted(app: App, cb: Callback): (r: App)
    ensures |r.engineBootedCallbacks| == |app.engineBootedCallbacks| + 1
    ensures IsPrefix(app.engineBootedCallbacks, r.engineBootedCallbacks)
    ensures r.engineBootedCallbacks[|app.engineBootedCallbacks|] == cb
    ensures r.pluginReadyCallbacks == app.pluginReadyCallbacks
    ensures r.bindings == app.bindings
    ensures r.isFacadeLoaderRegistered == app.isFacadeLoaderRegistered
    ensures r.trace == app.trace
  {
    app.(engineBootedCallbacks := app.engineBootedCallbacks + [cb])
  }

  /** `ready($callback)`: one more entry at the end of the plugin-ready queue. */
  function RegisterReady(app: App, cb: Callback): (r: App)
    ensures |r.pluginReadyCallbacks| == |app.pluginReadyCallbacks| + 1
    ensures IsPrefix(app.pluginReadyCallbacks, r.pluginReadyCallbacks)
    ensures r.pluginReadyCallbacks[|app.pluginReadyCallbacks|] == cb
    ensures r.engineBootedCallbacks == app.engineBootedCallbacks
    ensures r.bindings == app.bindings
    ensures r.isFacadeLoaderRegistered == app.isFacadeLoaderRegistered
    ensures r.trace == app.trace
  {
    app.(pluginReadyCallbacks := app.pluginReadyCallbacks + [cb])
  }

  /**
    One action of a hook or handler script: `bindInstance`, `booted($cb)` or
    `ready($cb)` on the application the script holds.
  */
  function Apply(app: App, a: Action): (r: App)
    ensures a.Bind? ==> r.bindings == app.bindings[a.key := a.value]
    ensures !a.Bind? ==> r.bindings == app.bindings
    ensures a.OnBooted? ==> r.engineBootedCallbacks == app.engineBootedCallbacks + [a.handler]
    ensures !a.OnBooted? ==> r.engineBootedCallbacks == app.engineBootedCallbacks
    ensures a.OnReady? ==> r.pluginReadyCallbacks == app.pluginReadyCallbacks + [a.handler]
    ensures !a.OnReady? ==> r.pluginReadyCallbacks == app.pluginReadyCallbacks
    ensures Extends(app, r)
    ensures r.isFacadeLoaderRegistered == app.isFacadeLoaderRegistered
    ensures r.trace == app.trace
  {
    match a
    case Bind(k, v) => BindInstance(app, k, v)
    case OnBooted(cb) => RegisterBooted(app, cb)
    case OnReady(cb) => RegisterReady(app, cb)
  }

  /** The handlers a script hands to `booted`, in the order it hands them over. */
  function BootedRegs(acts: seq<Action>): seq<Callback>
    decreases |acts|
  {
    if acts == [] then []
    else (if acts[0].OnBooted? then [acts[0].handler] else []) + BootedRegs(acts[1..])
  }

  /** The handlers a script hands to `ready`, in the order it hands them over. */
  function ReadyRegs(acts: seq<Action>): seq<Callback>
    decreases |acts|
  {
    if acts == [] then []
    else (if acts[0].OnReady? then [acts[0].handler] else []) + ReadyRegs(acts[1..])
  }

  /** The `(key, value)` pairs a script binds, in the order it binds them. */
  function BindsOf(acts: seq<Action>): seq<(string, string)>
    decreases |acts|
  {
    if acts == [] then []
    else (if acts[0].Bind? then [(acts[0].key, acts[0].value)] else []) + BindsOf(acts[1..])
  }

  /**
    Runs a hook or handler script against the shared application, first action
    first. A script never touches the trace or the facade flag.
  */
  function ApplyAll(app: App, acts: seq<Action>): (r: App)
    ensures Extends(app, r)
    ensures r.isFacadeLoaderRegistered == app.isFacadeLoaderRegistered
    ensures r.trace == app.trace
    decreases |acts|
  {
    if acts == [] then app
    else
      var next := Apply(app, acts[0]);
      var r := ApplyAll(next, acts[1..]);
      ExtendsTransitive(app, next, r);
      r
  }

  /** The engine-booted queue gains exactly the handlers the script hands to `booted`, in order. */
  lemma {:induction false} ScriptBootedQueue(app: App, acts: seq<Action>)
    ensures ApplyAll(app, acts).engineBootedCallbacks == app.engineBootedCallbacks + BootedRegs(acts)
    decreases |acts|
  {
    if acts == [] {
      assert BootedRegs(acts) == [];
    } else {
      var next := Apply(app, acts[0]);
      ScriptBootedQueue(next, acts[1..]);
      var h := if acts[0].OnBooted? then [acts[0].handler] else [];
      assert next.engineBootedCallbacks == app.engineBootedCallbacks + h;
      assert app.engineBootedCallbacks + h + BootedRegs(acts[1..])
          == app.engineBootedCallbacks + (h + BootedRegs(acts[1..]));
    }
  }

  /** The plugin-ready queue gains exactly the handlers the script hands to `ready`, in order. */
  lemma {:induction false} ScriptReadyQueue(app: App, acts: seq<Action>)
    ensures ApplyAll(app, acts).pluginReadyCallbacks == app.pluginReadyCallbacks + ReadyRegs(acts)
    decreases |acts|
  {
    if acts == [] {
      assert ReadyRegs(acts) == [];
    } else {
      var next := Apply(app, acts[0]);
      ScriptReadyQueue(next, acts[1..]);
      var h := if acts[0].OnReady? then [acts[0].handler] else [];
      assert next.pluginReadyCallbacks == app.pluginReadyCallbacks + h;
      assert app.pluginReadyCallbacks + h + ReadyRegs(acts[1..])
          == app.pluginReadyCallbacks + (h + ReadyRegs(acts[1..]));
    }
  }

  /** The bindings `BindEach` leaves depend on nothing but the bindings it starts from. */
  lemma {:induction false} BindEachOnBindings(a: App, b: App, entries: seq<(string, string)>)
    requires a.bindings == b.bindings
    ensures BindEach(a, entries).bindings == BindEach(b, entries).bindings
    decreases |entries|
  {
    if entries != [] {
      BindEachOnBindings(BindInstance(a, entries[0].0, entries[0].1),
                         BindInstance(b, entries[0].0, entries[0].1), entries[1..]);
    }
  }

  /**
    A script's effect on the bindings is `bindInstance` of each of its `Bind`
    actions in turn: insert or overwrite, last write wins.
  */
  lemma {:induction false} ScriptBindings(app: App, acts: seq<Action>)
    ensures ApplyAll(app, acts).bindings == BindEach(app, BindsOf(acts)).bindings
    decreases |acts|
  {
    if acts != [] {
      var next := Apply(app, acts[0]);
      ScriptBindings(next, acts[1..]);
      var rest := BindsOf(acts[1..]);
      if acts[0].Bind? {
        var es := BindsOf(acts);
        assert es == [(acts[0].key, acts[0].value)] + rest;
        assert es[1..] == rest;
        assert next == BindInstance(app, acts[0].key, acts[0].value);
      } else {
        assert BindsOf(acts) == rest;
        BindEachOnBindings(next, app, rest);
      }
    }
  }

  /** Running two scripts one after the other is running their concatenation. */
  lemma {:induction false} ApplyAllConcat(app: App, a: seq<Action>, b: seq<Action>)
    ensures ApplyAll(app, a + b) == ApplyAll(ApplyAll(app, a), b)
    decreases |a|
  {
    if a == [] {
      assert a + b == b;
    } else {
      var next := Apply(app, a[0]);
      assert (a + b)[0] == a[0];
      assert (a + b)[1..] == a[1..] + b;
      assert ApplyAll(app, a + b) == ApplyAll(next, a[1..] + b);
      assert ApplyAll(app, a) == ApplyAll(next, a[1..]);
      ApplyAllConcat(next, a[1..], b);
    }
  }

  /** What a script does depends on neither the trace nor the facade flag. */
  lemma {:induction false} ApplyAllFrame(app: App, acts: seq<Action>, t: seq<Event>, f: bool)
    ensures ApplyAll(app.(trace := t, isFacadeLoaderRegistered := f), acts)
         == ApplyAll(app, acts).(trace := t, isFacadeLoaderRegistered := f)
    decreases |acts|
  {
    if acts != [] {
      var s := app.(trace := t, isFacadeLoaderRegistered := f);
      assert Apply(s, acts[0]) == Apply(app, acts[0]).(trace := t, isFacadeLoaderRegistered := f);
      ApplyAllFrame(Apply(app, acts[0]), acts[1..], t, f);
    }
  }

  /** Running `b` after a run of `a` whose trace and flag were then replaced. */
  lemma ThenRun(app: App, a: seq<Action>, b: seq<Action>, t: seq<Event>, f: bool)
    ensures ApplyAll(ApplyAll(app, a).(trace := t, isFacadeLoaderRegistered := f), b)
         == ApplyAll(app, a + b).(trace := t, isFacadeLoaderRegistered := f)
  {
    ApplyAllFrame(ApplyAll(app, a), b, t, f);
    ApplyAllConcat(app, a, b);
  }

  /** A handler the script hands to `booted` is among its `booted` registrations. */
  lemma {:induction false} BootedRegistered(acts: seq<Action>, cb: Callback)
    requires OnBooted(cb) in acts
    ensures cb in BootedRegs(acts)
    decreases |acts|
  {
    if acts[0] != OnBooted(cb) {
      assert OnBooted(cb) in acts[1..];
      BootedRegistered(acts[1..], cb);
    }
  }

  /** A handler the script hands to `ready` is among its `ready` registrations. */
  lemma {:induction false} ReadyRegistered(acts: seq<Action>, cb: Callback)
    requires OnReady(cb) in acts
    ensures cb in ReadyRegs(acts)
    decreases |acts|
  {
    if acts[0] != OnReady(cb) {
      assert OnReady(cb) in acts[1..];
      ReadyRegistered(acts[1..], cb);
    }
  }
}
