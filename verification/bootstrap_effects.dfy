/**
  What the bootstrap does to the application besides the trace. A provider
  batch runs every `booting` script in list order and then every `booted`
  script; a queue flush runs the script of every handler of its snapshot in
  registration order. So the whole of `bootstrapApplication` after the setup
  steps is one reference script, `RunScript`, built from the provider lists
  alone, run against the prepared application.

  From that: a handler a hook hands to `booted` or `ready` is invoked, and the
  last `bindInstance` of a key in the run decides its final value.
*/
module BootstrapEffects {
  import opened Wrappers
  import opened AppState
  import opened Providers
  import opened Application
  import opened BootstrapOrder
  import opened BindingFrame

  /** The `booting` scripts of a provider list, concatenated in list order. */
  function BootingScript(ps: seq<Provider>): seq<Action>
    decreases |ps|
  {
    if ps == [] then [] else BootingScript(ps[..|ps| - 1]) + ps[|ps| - 1].booting
  }

  /** The `booted` scripts of a provider list, concatenated in list order. */
  function BootedScript(ps: seq<Provider>): seq<Action>
    decreases |ps|
  {
    if ps == [] then [] else BootedScript(ps[..|ps| - 1]) + ps[|ps| - 1].booted
  }

  /** The scripts of a snapshot's handlers, concatenated in registration order. */
  function HandlerScript(cbs: seq<Callback>): seq<Action>
    decreases |cbs|
  {
    if cbs == [] then [] else HandlerScript(cbs[..|cbs| - 1]) + cbs[|cbs| - 1].effects
  }

  /** What one `bootstrapWith` runs: all `booting` scripts, then all `booted` scripts. */
  function BatchScript(ps: seq<Provider>): seq<Action> {
    BootingScript(ps) + BootedScript(ps)
  }

  /** The handlers the engine batch hands to `booted`, in order. */
  function EngineSnapshot(core: seq<Provider>): seq<Callback> {
    BootedRegs(BatchScript(core))
  }

  /** What runs up to the end of the plugin batch: engine batch, engine-booted handlers, plugin batch. */
  function PluginStage(core: seq<Provider>, plugins: seq<Provider>): seq<Action> {
    BatchScript(core) + HandlerScript(EngineSnapshot(core)) + BatchScript(plugins)
  }

  /** The handlers handed to `ready` up to the end of the plugin batch, in order. */
  function ReadySnapshot(core: seq<Provider>, plugins: seq<Provider>): seq<Callback> {
    ReadyRegs(PluginStage(core, plugins))
  }

  /** Everything the bootstrap runs after the setup steps, in the order it runs. */
  function RunScript(core: seq<Provider>, plugins: seq<Provider>): seq<Action> {
    PluginStage(core, plugins) + HandlerScript(ReadySnapshot(core, plugins))
  }

  // ---------------------------------------------------------------------------
  // One batch and one flush

  /** The booting loop runs the `booting` scripts in list order; apart from the trace, nothing else happens. */
  lemma {:induction false} BootingPhaseRuns(app: App, phase: Phase, ps: seq<Provider>)
    ensures BootingPhase(app, phase, ps)
         == ApplyAll(app, BootingScript(ps)).(trace := app.trace + BootingEvents(phase, ps))
    decreases |ps|
  {
    if ps == [] {
      assert app.trace + BootingEvents(phase, ps) == app.trace;
    } else {
      var n := |ps| - 1;
      var prev := BootingPhase(app, phase, ps[..n]);
      BootingPhaseRuns(app, phase, ps[..n]);
      var logged := Log(ConstructProvider(prev, phase, n, ps[n]), Booting(phase, n, ps[n].name));
      var t := BootingPhase(app, phase, ps).trace;
      assert logged == ApplyAll(app, BootingScript(ps[..n])).(trace := logged.trace,
                                                             isFacadeLoaderRegistered := app.isFacadeLoaderRegistered);
      ThenRun(app, BootingScript(ps[..n]), ps[n].booting, logged.trace, app.isFacadeLoaderRegistered);
      assert BootingPhase(app, phase, ps) == ApplyAll(logged, ps[n].booting);
    }
  }

  /** The booted loop runs the `booted` scripts in list order; apart from the trace, nothing else happens. */
  lemma {:induction false} BootedPhaseRuns(app: App, phase: Phase, ps: seq<Provider>)
    ensures BootedPhase(app, phase, ps)
         == ApplyAll(app, BootedScript(ps)).(trace := app.trace + BootedEvents(phase, ps))
    decreases |ps|
  {
    if ps == [] {
      assert app.trace + BootedEvents(phase, ps) == app.trace;
    } else {
      var n := |ps| - 1;
      var prev := BootedPhase(app, phase, ps[..n]);
      BootedPhaseRuns(app, phase, ps[..n]);
      var logged := Log(prev, Booted(phase, n, ps[n].name));
      assert logged == ApplyAll(app, BootedScript(ps[..n])).(trace := logged.trace,
                                                            isFacadeLoaderRegistered := app.isFacadeLoaderRegistered);
      ThenRun(app, BootedScript(ps[..n]), ps[n].booted, logged.trace, app.isFacadeLoaderRegistered);
      assert BootedPhase(app, phase, ps) == ApplyAll(logged, ps[n].booted);
    }
  }

  /**
    `bootstrapWith` runs every `booting` script and then every `booted` script,
    in list order, and otherwise only records its trace and sets the flag as
    the facade check does.
  */
  lemma BatchRuns(app: App, host: Host, phase: Phase, ps: seq<Provider>)
    ensures BootstrapWith(app, host, phase, ps)
         == ApplyAll(app, BatchScript(ps)).(trace := app.trace + BatchEvents(phase, ps, app.isFacadeLoaderRegistered),
                                            isFacadeLoaderRegistered := app.isFacadeLoaderRegistered || host.loaderSetsFlag)
  {
    var booting := BootingPhase(app, phase, ps);
    var checked := FacadeCheck(booting, phase, host);
    BootingPhaseRuns(app, phase, ps);
    BootedPhaseRuns(checked, phase, ps);
    assert checked == ApplyAll(app, BootingScript(ps)).(trace := checked.trace,
                                                        isFacadeLoaderRegistered := checked.isFacadeLoaderRegistered);
    ThenRun(app, BootingScript(ps), BootedScript(ps), checked.trace, checked.isFacadeLoaderRegistered);
  }

  /** `fireCallbacks` runs the snapshot's handler scripts in registration order. */
  lemma {:induction false} FireRuns(app: App, q: QueueName, cbs: seq<Callback>)
    ensures FireCallbacks(app, q, cbs)
         == ApplyAll(app, HandlerScript(cbs)).(trace := app.trace + InvokeEvents(q, cbs))
    decreases |cbs|
  {
    if cbs == [] {
      assert app.trace + InvokeEvents(q, cbs) == app.trace;
    } else {
      var n := |cbs| - 1;
      var prev := FireCallbacks(app, q, cbs[..n]);
      FireRuns(app, q, cbs[..n]);
      var logged := Log(prev, Invoke(q, n, cbs[n].id));
      assert logged == ApplyAll(app, HandlerScript(cbs[..n])).(trace := logged.trace,
                                                              isFacadeLoaderRegistered := app.isFacadeLoaderRegistered);
      ThenRun(app, HandlerScript(cbs[..n]), cbs[n].effects, logged.trace, app.isFacadeLoaderRegistered);
      assert FireCallbacks(app, q, cbs) == ApplyAll(logged, cbs[n].effects);
    }
  }

  // ---------------------------------------------------------------------------
  // bootstrapApplication, stage by stage

  /** After the engine batch the prepared application has run the engine providers' scripts. */
  lemma EngineBatchRuns(cfg: Config, host: Host)
    ensures AfterEngineBatch(cfg, host)
         == ApplyAll(Prepared(cfg, host), BatchScript(cfg.providers.core))
              .(trace := SetupEvents + BatchEvents(Engine, cfg.providers.core, false),
                isFacadeLoaderRegistered := host.loaderSetsFlag)
  {
    BatchRuns(Prepared(cfg, host), host, Engine, cfg.providers.core);
  }

  /**
    The engine-booted snapshot, fired right after the engine batch in
    `bootstrapApplication`, holds exactly the handlers
    the engine providers' hooks hand to `booted`, in the order they do.
  */
  lemma EngineSnapshotIsRegistrations(cfg: Config, host: Host)
    ensures AfterEngineBatch(cfg, host).engineBootedCallbacks == EngineSnapshot(cfg.providers.core)
  {
    var p := Prepared(cfg, host);
    EngineBatchRuns(cfg, host);
    ScriptBootedQueue(p, BatchScript(cfg.providers.core));
    assert p.engineBootedCallbacks + EngineSnapshot(cfg.providers.core) == EngineSnapshot(cfg.providers.core);
  }

  /** After the engine-booted flush the engine handlers' scripts have run too. */
  lemma EngineFireRuns(cfg: Config, host: Host)
    ensures var core := cfg.providers.core;
      AfterEngineFire(cfg, host)
        == ApplyAll(Prepared(cfg, host), BatchScript(core) + HandlerScript(EngineSnapshot(core)))
             .(trace := SetupEvents + BatchEvents(Engine, core, false) + InvokeEvents(EngineBooted, EngineSnapshot(core)),
               isFacadeLoaderRegistered := host.loaderSetsFlag)
  {
    var core := cfg.providers.core;
    var e := AfterEngineBatch(cfg, host);
    EngineBatchRuns(cfg, host);
    EngineSnapshotIsRegistrations(cfg, host);
    FireRuns(e, EngineBooted, e.engineBootedCallbacks);
    ThenRun(Prepared(cfg, host), BatchScript(core), HandlerScript(EngineSnapshot(core)), e.trace, host.loaderSetsFlag);
  }

  /** After the plugin batch everything up to `PluginStage` has run. */
  lemma PluginBatchRuns(cfg: Config, host: Host)
    ensures var core := cfg.providers.core;
      var plugins := GetPluginProviders(cfg, host);
      AfterPluginBatch(cfg, host)
        == ApplyAll(Prepared(cfg, host), PluginStage(core, plugins))
             .(trace := SetupEvents + BatchEvents(Engine, core, false) + InvokeEvents(EngineBooted, EngineSnapshot(core))
                        + BatchEvents(Plugin, plugins, host.loaderSetsFlag),
               isFacadeLoaderRegistered := host.loaderSetsFlag)
  {
    var core := cfg.providers.core;
    var plugins := GetPluginProviders(cfg, host);
    var f := AfterEngineFire(cfg, host);
    EngineFireRuns(cfg, host);
    BatchRuns(f, host, Plugin, plugins);
    ThenRun(Prepared(cfg, host), BatchScript(core) + HandlerScript(EngineSnapshot(core)), BatchScript(plugins),
            f.trace, host.loaderSetsFlag);
  }

  /**
    The plugin-ready snapshot, fired last in `bootstrapApplication`, holds exactly the handlers
    handed to `ready` by the engine hooks, the engine-booted handlers and the
    plugin hooks, in the order they run.
  */
  lemma ReadySnapshotIsRegistrations(cfg: Config, host: Host)
    ensures AfterPluginBatch(cfg, host).pluginReadyCallbacks
         == ReadySnapshot(cfg.providers.core, GetPluginProviders(cfg, host))
  {
    var p := Prepared(cfg, host);
    var stage := PluginStage(cfg.providers.core, GetPluginProviders(cfg, host));
    PluginBatchRuns(cfg, host);
    ScriptReadyQueue(p, stage);
    assert p.pluginReadyCallbacks + ReadyRegs(stage) == ReadyRegs(stage);
  }

  /**
    The whole bootstrap, from the prepared application: it runs `RunScript`,
    records `RunEvents` with the snapshots `RunScript` itself determines, and
    leaves the flag as the host's loader sets it.
  */
  lemma BootstrapRuns(cfg: Config, host: Host)
    ensures var core := cfg.providers.core;
      var plugins := GetPluginProviders(cfg, host);
      BootstrapApplication(cfg, host)
        == ApplyAll(Prepared(cfg, host), RunScript(core, plugins))
             .(trace := RunEvents(core, plugins, host.loaderSetsFlag, EngineSnapshot(core), ReadySnapshot(core, plugins)),
               isFacadeLoaderRegistered := host.loaderSetsFlag)
  {
    var core := cfg.providers.core;
    var plugins := GetPluginProviders(cfg, host);
    var g := AfterPluginBatch(cfg, host);
    var fin := BootstrapApplication(cfg, host);
    PluginBatchRuns(cfg, host);
    EngineSnapshotIsRegistrations(cfg, host);
    ReadySnapshotIsRegistrations(cfg, host);
    FireRuns(g, PluginReady, g.pluginReadyCallbacks);
    ThenRun(Prepared(cfg, host), PluginStage(core, plugins), HandlerScript(ReadySnapshot(core, plugins)),
            g.trace, host.loaderSetsFlag);
  }

  // ---------------------------------------------------------------------------
  // Registration to invocation, and the last binding of a key

  /** An action of provider j's `booting` script is part of the list's booting scripts. */
  lemma {:induction false} InBootingScript(ps: seq<Provider>, j: nat, a: Action)
    requires j < |ps| && a in ps[j].booting
    ensures a in BootingScript(ps)
    decreases |ps|
  {
    var n := |ps| - 1;
    if j < n {
      assert ps[..n][j] == ps[j];
      InBootingScript(ps[..n], j, a);
    }
  }

  /** An action of provider j's `booted` script is part of the list's booted scripts. */
  lemma {:induction false} InBootedScript(ps: seq<Provider>, j: nat, a: Action)
    requires j < |ps| && a in ps[j].booted
    ensures a in BootedScript(ps)
    decreases |ps|
  {
    var n := |ps| - 1;
    if j < n {
      assert ps[..n][j] == ps[j];
      InBootedScript(ps[..n], j, a);
    }
  }

  /** An action of either hook of provider j is part of what its batch runs. */
  lemma InBatchScript(ps: seq<Provider>, j: nat, a: Action)
    requires j < |ps| && (a in ps[j].booting || a in ps[j].booted)
    ensures a in BatchScript(ps)
  {
    if a in ps[j].booting {
      InBootingScript(ps, j, a);
    } else {
      InBootedScript(ps, j, a);
    }
  }

  /**
    A handler that an engine provider's `booting` or `booted` hands to
    `booted($cb)` is in the engine-booted snapshot and is invoked by the
    engine-booted fire right after the engine batch, at its index in that snapshot.
  */
  lemma EngineBootedRegistrationFires(cfg: Config, host: Host, j: nat, cb: Callback)
    requires j < |cfg.providers.core|
    requires OnBooted(cb) in cfg.providers.core[j].booting || OnBooted(cb) in cfg.providers.core[j].booted
    ensures var snap := AfterEngineBatch(cfg, host).engineBootedCallbacks;
      exists idx | 0 <= idx < |snap| ::
        snap[idx] == cb && Invoke(EngineBooted, idx, cb.id) in BootstrapApplication(cfg, host).trace
  {
    var snap := AfterEngineBatch(cfg, host).engineBootedCallbacks;
    InBatchScript(cfg.providers.core, j, OnBooted(cb));
    BootedRegistered(BatchScript(cfg.providers.core), cb);
    EngineSnapshotIsRegistrations(cfg, host);
    var idx :| 0 <= idx < |snap| && snap[idx] == cb;
    EngineSnapshotFired(cfg, host);
    assert Invoke(EngineBooted, idx, snap[idx].id) in BootstrapApplication(cfg, host).trace;
  }

  /**
    A handler handed to `ready($cb)` by anything that runs before the end of
    the plugin batch (an engine hook, an engine-booted handler or a plugin
    hook) is in the plugin-ready snapshot and is invoked in the closing block
    of the trace, at its index in that snapshot.
  */
  lemma ReadyRegistrationFires(cfg: Config, host: Host, cb: Callback)
    requires OnReady(cb) in PluginStage(cfg.providers.core, GetPluginProviders(cfg, host))
    ensures var t := BootstrapApplication(cfg, host).trace;
      var snap := AfterPluginBatch(cfg, host).pluginReadyCallbacks;
      && |snap| <= |t|
      && exists idx | 0 <= idx < |snap| :: snap[idx] == cb && t[|t| - |snap| + idx] == Invoke(PluginReady, idx, cb.id)
  {
    var snap := AfterPluginBatch(cfg, host).pluginReadyCallbacks;
    ReadyRegistered(PluginStage(cfg.providers.core, GetPluginProviders(cfg, host)), cb);
    ReadySnapshotIsRegistrations(cfg, host);
    var idx :| 0 <= idx < |snap| && snap[idx] == cb;
    ReadyFiredLast(cfg, host);
  }

  /**
    A handler that a hook of an engine provider or of a selected plugin
    provider hands to `ready($cb)` is invoked in the closing block.
  */
  lemma HookReadyRegistrationFires(cfg: Config, host: Host, ps: seq<Provider>, j: nat, cb: Callback)
    requires ps == cfg.providers.core || ps == GetPluginProviders(cfg, host)
    requires j < |ps| && (OnReady(cb) in ps[j].booting || OnReady(cb) in ps[j].booted)
    ensures var t := BootstrapApplication(cfg, host).trace;
      var snap := AfterPluginBatch(cfg, host).pluginReadyCallbacks;
      && |snap| <= |t|
      && exists idx | 0 <= idx < |snap| :: snap[idx] == cb && t[|t| - |snap| + idx] == Invoke(PluginReady, idx, cb.id)
  {
    InBatchScript(ps, j, OnReady(cb));
    ReadyRegistrationFires(cfg, host, cb);
  }

  /**
    The last direct `Bind(k, v)` of the run decides the final value of `k`,
    whatever the setup bound it to: the hooks and handlers share one flat
    namespace and `bindInstance` overwrites.
  */
  lemma LastRunBindWins(cfg: Config, host: Host, i: nat, k: string, v: string)
    requires var s := RunScript(cfg.providers.core, GetPluginProviders(cfg, host));
      i < |s| && s[i] == Bind(k, v) && NoBindFrom(k, s, i + 1)
    ensures k in BootstrapApplication(cfg, host).bindings
    ensures BootstrapApplication(cfg, host).bindings[k] == v
  {
    BootstrapRuns(cfg, host);
    LastBindWins(Prepared(cfg, host), RunScript(cfg.providers.core, GetPluginProviders(cfg, host)), i, k, v);
  }

  /** A key the setup bound and nothing in the run binds directly keeps the setup's value. */
  lemma SetupBindingKept(cfg: Config, host: Host, k: string)
    requires k in Prepared(cfg, host).bindings
    requires NoBindFrom(k, RunScript(cfg.providers.core, GetPluginProviders(cfg, host)), 0)
    ensures k in BootstrapApplication(cfg, host).bindings
    ensures BootstrapApplication(cfg, host).bindings[k] == Prepared(cfg, host).bindings[k]
  {
    BootstrapRuns(cfg, host);
    SurvivesUnbound(Prepared(cfg, host), RunScript(cfg.providers.core, GetPluginProviders(cfg, host)), k);
  }

  /**
    A concrete scenario: a single engine provider, `EngineA`,
    whose `booting` binds `path.config` to `v` and hands one handler to each
    queue; no plugin provider in either context; no `asset_url`.
  */
  function ScenarioConfig(v: string, onBooted: Callback, onReady: Callback): Config {
    var engineA := WithDefaultBooted("EngineA", [Bind("path.config", v), OnBooted(onBooted), OnReady(onReady)]);
    Config(None, ProviderLists([engineA], [], [], []))
  }

  /** In the scenario the run is the engine's `booting` script and each snapshot holds its one handler. */
  lemma ScenarioScript(v: string, onBooted: Callback, onReady: Callback)
    requires onBooted.effects == [] && onReady.effects == []
    ensures var core := ScenarioConfig(v, onBooted, onReady).providers.core;
      && EngineSnapshot(core) == [onBooted]
      && ReadySnapshot(core, []) == [onReady]
      && RunScript(core, []) == [Bind("path.config", v), OnBooted(onBooted), OnReady(onReady)]
  {
    var script := [Bind("path.config", v), OnBooted(onBooted), OnReady(onReady)];
    var core := ScenarioConfig(v, onBooted, onReady).providers.core;
    assert core[..0] == [];
    assert BootingScript(core) == script;
    assert BootedScript(core) == [];
    assert BatchScript(core) == script;
    assert script[1..][1..] == script[2..] && script[2..][1..] == [];
    assert BootedRegs(script[2..]) == [];
    assert BootedRegs(script[1..]) == [onBooted];
    assert [onBooted][..0] == [] && [onReady][..0] == [];
    assert HandlerScript([onBooted]) == [];
    assert HandlerScript([onReady]) == [];
    assert PluginStage(core, []) == script;
    assert ReadyRegs(script[2..]) == [onReady];
    assert ReadyRegs(script[1..]) == [onReady];
  }

  /** In the scenario the engine's binding of `path.config` replaces the setup's. */
  lemma EngineOverridesPathConfig(host: Host, v: string, onBooted: Callback, onReady: Callback)
    requires onBooted.effects == [] && onReady.effects == []
    ensures var fin := BootstrapApplication(ScenarioConfig(v, onBooted, onReady), host);
      "path.config" in fin.bindings && fin.bindings["path.config"] == v
  {
    var cfg := ScenarioConfig(v, onBooted, onReady);
    var script := [Bind("path.config", v), OnBooted(onBooted), OnReady(onReady)];
    ScenarioScript(v, onBooted, onReady);
    assert GetPluginProviders(cfg, host) == [];
    assert NoBindFrom("path.config", script, 1);
    LastRunBindWins(cfg, host, 0, "path.config", v);
  }

  /**
    In the scenario each queue is flushed exactly once, the engine-booted
    handler right after the engine batch and the plugin-ready handler last.
  */
  lemma ScenarioFlushesOnce(host: Host, v: string, onBooted: Callback, onReady: Callback)
    requires onBooted.effects == [] && onReady.effects == []
    ensures BootstrapApplication(ScenarioConfig(v, onBooted, onReady), host).trace
         == SetupEvents
            + [Construct(Engine, 0, "EngineA"), Booting(Engine, 0, "EngineA"), FacadeLoader(Engine),
               Booted(Engine, 0, "EngineA"), Invoke(EngineBooted, 0, onBooted.id)]
            + FacadeEvents(Plugin, host.loaderSetsFlag)
            + [Invoke(PluginReady, 0, onReady.id)]
  {
    var cfg := ScenarioConfig(v, onBooted, onReady);
    var core := cfg.providers.core;
    ScenarioScript(v, onBooted, onReady);
    assert GetPluginProviders(cfg, host) == [];
    EngineSnapshotIsRegistrations(cfg, host);
    ReadySnapshotIsRegistrations(cfg, host);
    ScenarioEvents(core, host.loaderSetsFlag, onBooted, onReady);
  }

  /** The trace a run of the scenario's provider lists records, spelled out. */
  lemma ScenarioEvents(core: seq<Provider>, loaderSetsFlag: bool, onBooted: Callback, onReady: Callback)
    requires |core| == 1 && core[0].name == "EngineA"
    ensures RunEvents(core, [], loaderSetsFlag, [onBooted], [onReady])
         == SetupEvents
            + [Construct(Engine, 0, "EngineA"), Booting(Engine, 0, "EngineA"), FacadeLoader(Engine),
               Booted(Engine, 0, "EngineA"), Invoke(EngineBooted, 0, onBooted.id)]
            + FacadeEvents(Plugin, loaderSetsFlag)
            + [Invoke(PluginReady, 0, onReady.id)]
  {
    assert core[..0] == [];
    assert BootingEvents(Engine, core) == [Construct(Engine, 0, "EngineA"), Booting(Engine, 0, "EngineA")];
    assert BootedEvents(Engine, core) == [Booted(Engine, 0, "EngineA")];
    assert BatchEvents(Plugin, [], loaderSetsFlag) == FacadeEvents(Plugin, loaderSetsFlag);
    assert InvokeEvents(EngineBooted, [onBooted]) == [Invoke(EngineBooted, 0, onBooted.id)];
    assert InvokeEvents(PluginReady, [onReady]) == [Invoke(PluginReady, 0, onReady.id)];
  }
}
