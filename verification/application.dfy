/**
  The bootstrap orchestrator of `Application`: one provider batch
  (`bootstrapWith`), the queue flush (`fireCallbacks`), the context-based
  plugin list (`getPluginProviders`) and the fixed seven-step
  `bootstrapApplication`.

  The host collaborators are inputs: the results of `plugin_dir_path` and
  `plugin_dir_url` for the base file, the admin-area check, and whether the
  (unseen) facade loader registration sets the `isFacadeLoaderRegistered` flag.
*/
module Application {
  import opened Wrappers
  import opened AppState
  import opened Providers
  import opened PathsAndUrls

  const VERSION := "1.0.0"

  /** The provider lists of the app config: `core`, and the plugin lists by context. */
  datatype ProviderLists = ProviderLists(
    core: seq<Provider>,
    common: seq<Provider>,
    backend: seq<Provider>,
    frontend: seq<Provider>)

  /** The app config entries the core reads. */
  datatype Config = Config(assetUrl: Option<string>, providers: ProviderLists)

  /** What the host decides: directory path and URL of the base file, request context, loader effect. */
  datatype Host = Host(
    pluginDirPath: string,
    pluginDirUrl: string,
    isUserOnAdminArea: bool,
    loaderSetsFlag: bool)

  predicate IsDigit(c: char) {
    '0' <= c <= '9'
  }

  /** A non-empty run of decimal digits. */
  predicate IsNumber(s: string) {
    |s| > 0 && forall i | 0 <= i < |s| :: IsDigit(s[i])
  }

  /** `major.minor.patch`, each a number. */
  predicate IsSemVer(s: string) {
    exists i, j | 0 <= i < j < |s| ::
      && s[i] == '.' && s[j] == '.'
      && IsNumber(s[..i]) && IsNumber(s[i + 1..j]) && IsNumber(s[j + 1..])
  }

  /** `version()`: the framework's fixed semantic version. */
  function Version(): (v: string)
    ensures IsSemVer(v)
  {
    assert VERSION[1] == '.' && VERSION[3] == '.';
    assert IsNumber(VERSION[..1]) && IsNumber(VERSION[2..3]) && IsNumber(VERSION[4..]);
    VERSION
  }

  /** `getEngineProviders()`: the `core` list, whatever the request context. */
  function GetEngineProviders(cfg: Config): seq<Provider>
  {
    cfg.providers.core
  }

  /** `getCommonProviders()`: the `common` plugin list, which no bootstrap step reads. */
  function GetCommonProviders(cfg: Config): seq<Provider> {
    cfg.providers.common
  }

  /** `getPluginProviders()`: `backend` in the admin area, `frontend` everywhere else. */
  function GetPluginProviders(cfg: Config, host: Host): (r: seq<Provider>)
    ensures host.isUserOnAdminArea ==> r == cfg.providers.backend
    ensures !host.isUserOnAdminArea ==> r == cfg.providers.frontend
  {
    if host.isUserOnAdminArea then cfg.providers.backend else cfg.providers.frontend
  }

  // ---------------------------------------------------------------------------
  // Expected traces, stated independently of the step functions below.

  /** `Construct(0), Booting(0), Construct(1), Booting(1), ...` in list order. */
  function BootingEvents(phase: Phase, ps: seq<Provider>): seq<Event>
    decreases |ps|
  {
    if ps == [] then []
    else
      var n := |ps| - 1;
      BootingEvents(phase, ps[..n]) + [Construct(phase, n, ps[n].name), Booting(phase, n, ps[n].name)]
  }

  /** The facade loader attempt: present exactly when the flag is still unset. */
  function FacadeEvents(phase: Phase, registered: bool): seq<Event> {
    if registered then [] else [FacadeLoader(phase)]
  }

  /** `Booted(0), Booted(1), ...` in list order. */
  function BootedEvents(phase: Phase, ps: seq<Provider>): seq<Event> {
    seq(|ps|, i requires 0 <= i < |ps| => Booted(phase, i, ps[i].name))
  }

  /** What one `bootstrapWith` call records, given the flag it starts with. */
  function BatchEvents(phase: Phase, ps: seq<Provider>, registered: bool): seq<Event> {
    BootingEvents(phase, ps) + FacadeEvents(phase, registered) + BootedEvents(phase, ps)
  }

  /** One invocation per callback of the snapshot, in registration order. */
  function InvokeEvents(q: QueueName, cbs: seq<Callback>): seq<Event> {
    seq(|cbs|, j requires 0 <= j < |cbs| => Invoke(q, j, cbs[j].id))
  }

  /** The first three bootstrap steps: base bindings, exception handler, text domain. */
  const SetupEvents: seq<Event> :=
    [AppFacadeSet, PathsRegistered, UrlsRegistered, ExceptionHandlerSet, TextDomainLoaded]

  /**
    What `bootstrapApplication` records: the setup, the engine batch with the
    flag unset, the engine-booted snapshot, the plugin batch with the flag the
    engine batch left, and the plugin-ready snapshot.
  */
  function RunEvents(core: seq<Provider>, plugins: seq<Provider>, loaderSetsFlag: bool,
                     booted: seq<Callback>, ready: seq<Callback>): seq<Event>
  {
    SetupEvents
      + BatchEvents(Engine, core, false)
      + InvokeEvents(EngineBooted, booted)
      + BatchEvents(Plugin, plugins, loaderSetsFlag)
      + InvokeEvents(PluginReady, ready)
  }

  lemma BootedEventsSnoc(phase: Phase, ps: seq<Provider>)
    requires |ps| > 0
    ensures BootedEvents(phase, ps)
         == BootedEvents(phase, ps[..|ps| - 1]) + [Booted(phase, |ps| - 1, ps[|ps| - 1].name)]
  {
    var n := |ps| - 1;
    assert BootedEvents(phase, ps) == BootedEvents(phase, ps[..n]) + [Booted(phase, n, ps[n].name)];
  }

  lemma InvokeEventsSnoc(q: QueueName, cbs: seq<Callback>)
    requires |cbs| > 0
    ensures InvokeEvents(q, cbs)
         == InvokeEvents(q, cbs[..|cbs| - 1]) + [Invoke(q, |cbs| - 1, cbs[|cbs| - 1].id)]
  {
    var n := |cbs| - 1;
    assert InvokeEvents(q, cbs) == InvokeEvents(q, cbs[..n]) + [Invoke(q, n, cbs[n].id)];
  }

  /**
    Regrouping a trace extended by three blocks. Stated once here so that the
    solver need not rediscover it by comparing the sequences element by element.
  */
  lemma ConcatAfter<T>(t: seq<T>, a: seq<T>, b: seq<T>, c: seq<T>)
    ensures t + a + b + c == t + (a + b + c)
  {
  }

  // ---------------------------------------------------------------------------
  // bootstrapWith

  /**
    The first loop of `bootstrapWith`: construct provider i, call its
    `booting`, then move on to provider i + 1.
  */
  function BootingPhase(app: App, phase: Phase, ps: seq<Provider>): (r: App)
    ensures r.trace == app.trace + BootingEvents(phase, ps)
    ensures Extends(app, r)
    ensures r.isFacadeLoaderRegistered == app.isFacadeLoaderRegistered
    decreases |ps|
  {
    if ps == [] then app
    else
      var n := |ps| - 1;
      var prev := BootingPhase(app, phase, ps[..n]);
      var built := ConstructProvider(prev, phase, n, ps[n]);
      var r := RunBooting(built, phase, n, ps[n]);
      ExtendsTransitive(app, prev, r);
      r
  }

  /**
    The facade loader check between the two loops: attempted only while the
    flag is unset; what the attempt does to the flag is the host's `loaderSetsFlag`.
  */
  function FacadeCheck(app: App, phase: Phase, host: Host): (r: App)
    ensures r.trace == app.trace + FacadeEvents(phase, app.isFacadeLoaderRegistered)
    ensures r.isFacadeLoaderRegistered == (app.isFacadeLoaderRegistered || host.loaderSetsFlag)
    ensures r.bindings == app.bindings
    ensures r.engineBootedCallbacks == app.engineBootedCallbacks
    ensures r.pluginReadyCallbacks == app.pluginReadyCallbacks
  {
    if !app.isFacadeLoaderRegistered then
      Log(app, FacadeLoader(phase)).(isFacadeLoaderRegistered := host.loaderSetsFlag)
    else app
  }

  /** The second loop of `bootstrapWith`: `booted` on every constructed instance, in list order. */
  function BootedPhase(app: App, phase: Phase, ps: seq<Provider>): (r: App)
    ensures r.trace == app.trace + BootedEvents(phase, ps)
    ensures Extends(app, r)
    ensures r.isFacadeLoaderRegistered == app.isFacadeLoaderRegistered
    decreases |ps|
  {
    if ps == [] then app
    else
      var n := |ps| - 1;
      var prev := BootedPhase(app, phase, ps[..n]);
      var r := RunBooted(prev, phase, n, ps[n]);
      BootedEventsSnoc(phase, ps);
      ExtendsTransitive(app, prev, r);
      r
  }

  /** `bootstrapWith($providers)`: all `booting`, then the facade check, then all `booted`. */
  function BootstrapWith(app: App, host: Host, phase: Phase, ps: seq<Provider>): (r: App)
    ensures r.trace == app.trace + BatchEvents(phase, ps, app.isFacadeLoaderRegistered)
    ensures r.isFacadeLoaderRegistered == (app.isFacadeLoaderRegistered || host.loaderSetsFlag)
    ensures Extends(app, r)
  {
    var booting := BootingPhase(app, phase, ps);
    var checked := FacadeCheck(booting, phase, host);
    var r := BootedPhase(checked, phase, ps);
    ExtendsTransitive(app, booting, checked);
    ExtendsTransitive(app, checked, r);
    ConcatAfter(app.trace, BootingEvents(phase, ps), FacadeEvents(phase, app.isFacadeLoaderRegistered),
                BootedEvents(phase, ps));
    r
  }

  /** The first `foreach` of `bootstrapWith`, collecting the instances it constructs. */
  method RunBootingLoop(app: App, phase: Phase, ps: seq<Provider>) returns (a: App, instances: seq<Provider>)
    ensures a == BootingPhase(app, phase, ps)
    ensures instances == ps
  {
    instances := [];
    a := app;
    var i := 0;
    while i < |ps|
      invariant 0 <= i <= |ps|
      invariant instances == ps[..i]
      invariant a == BootingPhase(app, phase, ps[..i])
    {
      assert ps[..i + 1][..i] == ps[..i];
      a := ConstructProvider(a, phase, i, ps[i]);
      instances := instances + [ps[i]];
      a := RunBooting(a, phase, i, ps[i]);
      i := i + 1;
    }
    assert ps[..|ps|] == ps;
  }

  /** One more iteration of the `booted` loop. */
  lemma BootedPhaseStep(app: App, phase: Phase, ps: seq<Provider>, j: nat)
    requires j < |ps|
    ensures BootedPhase(app, phase, ps[..j + 1]) == RunBooted(BootedPhase(app, phase, ps[..j]), phase, j, ps[j])
  {
    assert ps[..j + 1][..j] == ps[..j];
  }

  /** The second `foreach` of `bootstrapWith`, over the collected instances. */
  method RunBootedLoop(app: App, phase: Phase, instances: seq<Provider>) returns (a: App)
    ensures a == BootedPhase(app, phase, instances)
  {
    a := app;
    var j := 0;
    while j < |instances|
      invariant 0 <= j <= |instances|
      invariant a == BootedPhase(app, phase, instances[..j])
    {
      BootedPhaseStep(app, phase, instances, j);
      a := RunBooted(a, phase, j, instances[j]);
      j := j + 1;
    }
    assert instances[..j] == instances;
  }

  /** `bootstrapWith` as the source writes it: two loops around the facade check. */
  method RunBootstrapWith(app: App, host: Host, phase: Phase, ps: seq<Provider>) returns (r: App)
    ensures r == BootstrapWith(app, host, phase, ps)
    ensures r.trace == app.trace + BatchEvents(phase, ps, app.isFacadeLoaderRegistered)
  {
    var a, instances := RunBootingLoop(app, phase, ps);
    a := FacadeCheck(a, phase, host);
    r := RunBootedLoop(a, phase, instances);
  }

  // ---------------------------------------------------------------------------
  // fireCallbacks

  /**
    `call_user_func_array($callback, [$this])`: records the invocation, then
    runs the handler's script, which binds what it binds and queues exactly
    the handlers it hands to `booted` and `ready`.
  */
  function InvokeCallback(app: App, q: QueueName, index: nat, cb: Callback): (r: App)
    ensures r.trace == app.trace + [Invoke(q, index, cb.id)]
    ensures r.bindings == BindEach(app, BindsOf(cb.effects)).bindings
    ensures r.engineBootedCallbacks == app.engineBootedCallbacks + BootedRegs(cb.effects)
    ensures r.pluginReadyCallbacks == app.pluginReadyCallbacks + ReadyRegs(cb.effects)
    ensures Extends(app, r)
    ensures r.isFacadeLoaderRegistered == app.isFacadeLoaderRegistered
  {
    var logged := Log(app, Invoke(q, index, cb.id));
    ScriptBindings(logged, cb.effects);
    BindEachOnBindings(logged, app, BindsOf(cb.effects));
    ScriptBootedQueue(logged, cb.effects);
    ScriptReadyQueue(logged, cb.effects);
    ApplyAll(logged, cb.effects)
  }

  /**
    `fireCallbacks($callbacks)`: the array is passed by value, so the handlers
    run are those of `cbs`, whatever they append to the queues meanwhile.
  */
  function FireCallbacks(app: App, q: QueueName, cbs: seq<Callback>): (r: App)
    ensures r.trace == app.trace + InvokeEvents(q, cbs)
    ensures Extends(app, r)
    ensures r.isFacadeLoaderRegistered == app.isFacadeLoaderRegistered
    decreases |cbs|
  {
    if cbs == [] then app
    else
      var n := |cbs| - 1;
      var prev := FireCallbacks(app, q, cbs[..n]);
      var r := InvokeCallback(prev, q, n, cbs[n]);
      InvokeEventsSnoc(q, cbs);
      ExtendsTransitive(app, prev, r);
      r
  }

  /** One more iteration of the `fireCallbacks` loop. */
  lemma FireCallbacksStep(app: App, q: QueueName, cbs: seq<Callback>, j: nat)
    requires j < |cbs|
    ensures FireCallbacks(app, q, cbs[..j + 1]) == InvokeCallback(FireCallbacks(app, q, cbs[..j]), q, j, cbs[j])
  {
    assert cbs[..j + 1][..j] == cbs[..j];
  }

  /** The `foreach` of `fireCallbacks`, over its by-value copy of the queue. */
  method RunFireCallbacks(app: App, q: QueueName, cbs: seq<Callback>) returns (r: App)
    ensures r == FireCallbacks(app, q, cbs)
    ensures r.trace == app.trace + InvokeEvents(q, cbs)
  {
    r := app;
    var j := 0;
    while j < |cbs|
      invariant 0 <= j <= |cbs|
      invariant r == FireCallbacks(app, q, cbs[..j])
    {
      FireCallbacksStep(app, q, cbs, j);
      r := InvokeCallback(r, q, j, cbs[j]);
      j := j + 1;
    }
    assert cbs[..j] == cbs;
  }

  // ---------------------------------------------------------------------------
  // bootstrapApplication, one stage at a time

  /** `setAppBaseBindings()`: the facade's application, then the paths, then the URLs. */
  function SetAppBaseBindings(app: App, cfg: Config, host: Host): (r: App)
    ensures r.trace == app.trace + [AppFacadeSet, PathsRegistered, UrlsRegistered]
    ensures r.bindings.Keys == app.bindings.Keys + PathKeys + UrlKeys
    ensures forall k | k in app.bindings && k !in PathKeys && k !in UrlKeys :: r.bindings[k] == app.bindings[k]
    ensures r.engineBootedCallbacks == app.engineBootedCallbacks
    ensures r.pluginReadyCallbacks == app.pluginReadyCallbacks
    ensures r.isFacadeLoaderRegistered == app.isFacadeLoaderRegistered
  {
    assert app.trace + [AppFacadeSet] + [PathsRegistered] + [UrlsRegistered]
        == app.trace + [AppFacadeSet, PathsRegistered, UrlsRegistered];
    var a := Log(app, AppFacadeSet);
    var a := Log(RegisterAppPaths(a, host.pluginDirPath), PathsRegistered);
    Log(RegisterAppUrls(a, host.pluginDirUrl, cfg.assetUrl), UrlsRegistered)
  }

  /** Steps 1 to 3: base bindings, exception handler, text domain. */
  function Prepared(cfg: Config, host: Host): (r: App)
    ensures r.trace == SetupEvents
    ensures r.bindings.Keys == PathKeys + UrlKeys
    ensures r.engineBootedCallbacks == [] && r.pluginReadyCallbacks == []
    ensures !r.isFacadeLoaderRegistered
  {
    assert [] + [AppFacadeSet, PathsRegistered, UrlsRegistered] + [ExceptionHandlerSet] + [TextDomainLoaded]
        == SetupEvents;
    assert Fresh.bindings.Keys + PathKeys + UrlKeys == PathKeys + UrlKeys;
    var a := SetAppBaseBindings(Fresh, cfg, host);
    Log(Log(a, ExceptionHandlerSet), TextDomainLoaded)
  }

  /** Step 4: the engine batch. */
  function AfterEngineBatch(cfg: Config, host: Host): (r: App)
    ensures r.trace == SetupEvents + BatchEvents(Engine, cfg.providers.core, false)
    ensures r.isFacadeLoaderRegistered == host.loaderSetsFlag
    ensures Extends(Prepared(cfg, host), r)
  {
    BootstrapWith(Prepared(cfg, host), host, Engine, GetEngineProviders(cfg))
  }

  /** Step 5: the engine-booted queue as it stood when the engine batch ended. */
  function AfterEngineFire(cfg: Config, host: Host): (r: App)
    ensures r.trace == AfterEngineBatch(cfg, host).trace
                       + InvokeEvents(EngineBooted, AfterEngineBatch(cfg, host).engineBootedCallbacks)
    ensures r.isFacadeLoaderRegistered == host.loaderSetsFlag
    ensures Extends(AfterEngineBatch(cfg, host), r)
  {
    var a := AfterEngineBatch(cfg, host);
    FireCallbacks(a, EngineBooted, a.engineBootedCallbacks)
  }

  /** Step 6: the plugin batch chosen by the request context. */
  function AfterPluginBatch(cfg: Config, host: Host): (r: App)
    ensures r.trace == AfterEngineFire(cfg, host).trace
                       + BatchEvents(Plugin, GetPluginProviders(cfg, host), host.loaderSetsFlag)
    ensures r.isFacadeLoaderRegistered == host.loaderSetsFlag
    ensures Extends(AfterEngineFire(cfg, host), r)
  {
    BootstrapWith(AfterEngineFire(cfg, host), host, Plugin, GetPluginProviders(cfg, host))
  }

  /**
    `bootstrapApplication()`, run by the constructor: step 7 fires the
    plugin-ready queue as it stood when the plugin batch ended. The trace is
    the setup, the engine batch, the engine-booted snapshot, the plugin batch
    and the plugin-ready snapshot, in that order and nothing else.
  */
  function BootstrapApplication(cfg: Config, host: Host): (r: App)
    ensures r.trace
         == RunEvents(cfg.providers.core, GetPluginProviders(cfg, host), host.loaderSetsFlag,
                      AfterEngineBatch(cfg, host).engineBootedCallbacks,
                      AfterPluginBatch(cfg, host).pluginReadyCallbacks)
    ensures r.isFacadeLoaderRegistered == host.loaderSetsFlag
  {
    var a := AfterPluginBatch(cfg, host);
    FireCallbacks(a, PluginReady, a.pluginReadyCallbacks)
  }
}
