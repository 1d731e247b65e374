/**
  What the bootstrap does to the container's bindings: no key ever disappears,
  the base path and URL keys are all present once the setup is done, and a
  base binding that no provider hook and no handler they register rebinds
  keeps the value `setAppBaseBindings` gave it until the end of the run.
*/
module BindingFrame {
  import opened Wrappers
  import opened AppState
  import opened Providers
  import opened PathsAndUrls
  import opened Application

  /** No action of the script, nor of any handler it registers however deeply, binds `k`. */
  predicate ScriptSpares(k: string, acts: seq<Action>)
    decreases acts
  {
    forall i | 0 <= i < |acts| :: ActionSpares(k, acts[i])
  }

  predicate ActionSpares(k: string, a: Action)
    decreases a
  {
    match a
    case Bind(key, _) => key != k
    case OnBooted(cb) => ScriptSpares(k, cb.effects)
    case OnReady(cb) => ScriptSpares(k, cb.effects)
  }

  predicate CallbacksSpare(k: string, cbs: seq<Callback>) {
    forall i | 0 <= i < |cbs| :: ScriptSpares(k, cbs[i].effects)
  }

  /** No handler waiting in either queue can bind `k`. */
  predicate QueuesSpare(k: string, app: App) {
    CallbacksSpare(k, app.engineBootedCallbacks) && CallbacksSpare(k, app.pluginReadyCallbacks)
  }

  /** Neither hook of any provider in the list can bind `k`. */
  predicate ProvidersSpare(k: string, ps: seq<Provider>) {
    forall i | 0 <= i < |ps| :: ScriptSpares(k, ps[i].booting) && ScriptSpares(k, ps[i].booted)
  }

  /** `k` is bound in both or in neither, and to the same value. */
  predicate SameBinding(k: string, a: App, b: App) {
    && (k in a.bindings <==> k in b.bindings)
    && (k in a.bindings ==> a.bindings[k] == b.bindings[k])
  }

  lemma CallbacksSpareSnoc(k: string, cbs: seq<Callback>, cb: Callback)
    requires CallbacksSpare(k, cbs) && ScriptSpares(k, cb.effects)
    ensures CallbacksSpare(k, cbs + [cb])
  {
    var s := cbs + [cb];
    forall i | 0 <= i < |s|
      ensures ScriptSpares(k, s[i].effects)
    {
      if i == |cbs| {
        assert s[i] == cb;
      } else {
        assert s[i] == cbs[i];
      }
    }
  }

  /** One action that spares `k` leaves its binding alone and registers only handlers that spare it. */
  lemma ApplySpares(app: App, a: Action, k: string)
    requires ActionSpares(k, a) && QueuesSpare(k, app)
    ensures SameBinding(k, app, Apply(app, a))
    ensures QueuesSpare(k, Apply(app, a))
  {
    match a
    case Bind(key, v) =>
    case OnBooted(cb) =>
      CallbacksSpareSnoc(k, app.engineBootedCallbacks, cb);
    case OnReady(cb) =>
      CallbacksSpareSnoc(k, app.pluginReadyCallbacks, cb);
  }

  lemma {:induction false} ApplyAllSpares(app: App, acts: seq<Action>, k: string)
    requires ScriptSpares(k, acts) && QueuesSpare(k, app)
    ensures SameBinding(k, app, ApplyAll(app, acts))
    ensures QueuesSpare(k, ApplyAll(app, acts))
    decreases |acts|
  {
    if acts != [] {
      var next := Apply(app, acts[0]);
      ApplySpares(app, acts[0], k);
      assert ScriptSpares(k, acts[1..]) by {
        forall i | 0 <= i < |acts[1..]|
          ensures ActionSpares(k, acts[1..][i])
        {
          assert acts[1..][i] == acts[i + 1];
        }
      }
      ApplyAllSpares(next, acts[1..], k);
    }
  }

  lemma {:induction false} BootingPhaseSpares(app: App, phase: Phase, ps: seq<Provider>, k: string)
    requires ProvidersSpare(k, ps) && QueuesSpare(k, app)
    ensures SameBinding(k, app, BootingPhase(app, phase, ps))
    ensures QueuesSpare(k, BootingPhase(app, phase, ps))
    decreases |ps|
  {
    if ps != [] {
      var n := |ps| - 1;
      assert ProvidersSpare(k, ps[..n]) by {
        forall i | 0 <= i < n
          ensures ScriptSpares(k, ps[..n][i].booting) && ScriptSpares(k, ps[..n][i].booted)
        {
          assert ps[..n][i] == ps[i];
        }
      }
      BootingPhaseSpares(app, phase, ps[..n], k);
      var built := ConstructProvider(BootingPhase(app, phase, ps[..n]), phase, n, ps[n]);
      ApplyAllSpares(Log(built, Booting(phase, n, ps[n].name)), ps[n].booting, k);
    }
  }

  lemma {:induction false} BootedPhaseSpares(app: App, phase: Phase, ps: seq<Provider>, k: string)
    requires ProvidersSpare(k, ps) && QueuesSpare(k, app)
    ensures SameBinding(k, app, BootedPhase(app, phase, ps))
    ensures QueuesSpare(k, BootedPhase(app, phase, ps))
    decreases |ps|
  {
    if ps != [] {
      var n := |ps| - 1;
      assert ProvidersSpare(k, ps[..n]) by {
        forall i | 0 <= i < n
          ensures ScriptSpares(k, ps[..n][i].booting) && ScriptSpares(k, ps[..n][i].booted)
        {
          assert ps[..n][i] == ps[i];
        }
      }
      BootedPhaseSpares(app, phase, ps[..n], k);
      ApplyAllSpares(Log(BootedPhase(app, phase, ps[..n]), Booted(phase, n, ps[n].name)), ps[n].booted, k);
    }
  }

  /** A batch whose hooks all spare `k` leaves its binding as it found it. */
  lemma BootstrapWithSpares(app: App, host: Host, phase: Phase, ps: seq<Provider>, k: string)
    requires ProvidersSpare(k, ps) && QueuesSpare(k, app)
    ensures SameBinding(k, app, BootstrapWith(app, host, phase, ps))
    ensures QueuesSpare(k, BootstrapWith(app, host, phase, ps))
  {
    var booting := BootingPhase(app, phase, ps);
    BootingPhaseSpares(app, phase, ps, k);
    BootedPhaseSpares(FacadeCheck(booting, phase, host), phase, ps, k);
  }

  /** Firing handlers that all spare `k` leaves its binding as it found it. */
  lemma {:induction false} FireCallbacksSpares(app: App, q: QueueName, cbs: seq<Callback>, k: string)
    requires CallbacksSpare(k, cbs) && QueuesSpare(k, app)
    ensures SameBinding(k, app, FireCallbacks(app, q, cbs))
    ensures QueuesSpare(k, FireCallbacks(app, q, cbs))
    decreases |cbs|
  {
    if cbs != [] {
      var n := |cbs| - 1;
      assert CallbacksSpare(k, cbs[..n]) by {
        forall i | 0 <= i < n
          ensures ScriptSpares(k, cbs[..n][i].effects)
        {
          assert cbs[..n][i] == cbs[i];
        }
      }
      FireCallbacksSpares(app, q, cbs[..n], k);
      ApplyAllSpares(Log(FireCallbacks(app, q, cbs[..n]), Invoke(q, n, cbs[n].id)), cbs[n].effects, k);
    }
  }

  /**
    When no hook of the engine providers or of the selected plugin providers
    can bind `k`, directly or through a handler it registers, the binding of
    `k` at the end of the bootstrap is the one the setup steps left.
  */
  lemma BootstrapSpares(cfg: Config, host: Host, k: string)
    requires ProvidersSpare(k, cfg.providers.core)
    requires ProvidersSpare(k, GetPluginProviders(cfg, host))
    ensures SameBinding(k, Prepared(cfg, host), BootstrapApplication(cfg, host))
  {
    var p := Prepared(cfg, host);
    BootstrapWithSpares(p, host, Engine, cfg.providers.core, k);
    var e := AfterEngineBatch(cfg, host);
    FireCallbacksSpares(e, EngineBooted, e.engineBootedCallbacks, k);
    BootstrapWithSpares(AfterEngineFire(cfg, host), host, Plugin, GetPluginProviders(cfg, host), k);
    var g := AfterPluginBatch(cfg, host);
    FireCallbacksSpares(g, PluginReady, g.pluginReadyCallbacks, k);
  }

  /** Entries bound in `b1` stay bound in `b2` when `b2` keeps every key outside `changed`. */
  lemma EntriesKept(b1: map<string, string>, b2: map<string, string>, changed: set<string>,
                    es: seq<(string, string)>)
    requires forall i | 0 <= i < |es| :: es[i].0 in b1 && b1[es[i].0] == es[i].1
    requires KeysOf(es) !! changed
    requires forall k | k in b1 && k !in changed :: k in b2 && b2[k] == b1[k]
    ensures forall i | 0 <= i < |es| :: es[i].0 in b2 && b2[es[i].0] == es[i].1
  {
    forall i | 0 <= i < |es|
      ensures es[i].0 in b2 && b2[es[i].0] == es[i].1
    {
      assert es[i].0 in KeysOf(es);
    }
  }

  /** After the setup steps every path key holds the value `registerAppPaths` gave it. */
  lemma PreparedPaths(cfg: Config, host: Host)
    ensures var b := Prepared(cfg, host).bindings;
      var es := PathEntries(host.pluginDirPath);
      forall i | 0 <= i < |es| :: es[i].0 in b && b[es[i].0] == es[i].1
  {
    var a := Log(RegisterAppPaths(Log(Fresh, AppFacadeSet), host.pluginDirPath), PathsRegistered);
    var c := RegisterAppUrls(a, host.pluginDirUrl, cfg.assetUrl);
    PathBindings(Log(Fresh, AppFacadeSet), host.pluginDirPath);
    PathEntriesKeys(host.pluginDirPath);
    PathAndUrlKeysDisjoint();
    EntriesKept(a.bindings, c.bindings, UrlKeys, PathEntries(host.pluginDirPath));
    assert Prepared(cfg, host).bindings == c.bindings;
  }

  /** After the setup steps every URL key holds the value `registerAppUrls` gave it. */
  lemma PreparedUrls(cfg: Config, host: Host)
    ensures var b := Prepared(cfg, host).bindings;
      var es := UrlEntries(host.pluginDirUrl, cfg.assetUrl);
      forall i | 0 <= i < |es| :: es[i].0 in b && b[es[i].0] == es[i].1
  {
    var a := Log(RegisterAppPaths(Log(Fresh, AppFacadeSet), host.pluginDirPath), PathsRegistered);
    UrlBindings(a, host.pluginDirUrl, cfg.assetUrl);
    assert Prepared(cfg, host).bindings == RegisterAppUrls(a, host.pluginDirUrl, cfg.assetUrl).bindings;
  }

  /** The setup binds `url.asset` to the configured asset URL, or to the default one. */
  lemma PreparedAssetUrl(cfg: Config, host: Host)
    ensures var b := Prepared(cfg, host).bindings;
      && "url.asset" in b
      && b["url.asset"] == GetAssetUrl(cfg.assetUrl, host.pluginDirUrl + Prefix + "/resources/assets/")
  {
    var a := Log(RegisterAppPaths(Log(Fresh, AppFacadeSet), host.pluginDirPath), PathsRegistered);
    AssetUrlBinding(a, host.pluginDirUrl, cfg.assetUrl);
    assert Prepared(cfg, host).bindings == RegisterAppUrls(a, host.pluginDirUrl, cfg.assetUrl).bindings;
  }

  /** Every base path and URL key is still bound once the bootstrap has finished. */
  lemma BaseKeysSurvive(cfg: Config, host: Host)
    ensures PathKeys + UrlKeys <= BootstrapApplication(cfg, host).bindings.Keys
  {
    var p := Prepared(cfg, host);
    var e := AfterEngineBatch(cfg, host);
    var f := AfterEngineFire(cfg, host);
    var g := AfterPluginBatch(cfg, host);
    ExtendsTransitive(p, e, f);
    ExtendsTransitive(p, f, g);
    ExtendsTransitive(p, g, BootstrapApplication(cfg, host));
  }

  /**
    The asset URL a plugin reads from `url.asset` after the bootstrap is the
    configured one when it is truthy and the default under the base URL
    otherwise, unless some provider hook rebinds that key.
  */
  lemma AssetUrlSurvives(cfg: Config, host: Host)
    requires ProvidersSpare("url.asset", cfg.providers.core)
    requires ProvidersSpare("url.asset", GetPluginProviders(cfg, host))
    ensures var b := BootstrapApplication(cfg, host).bindings;
      && "url.asset" in b
      && (IsTruthy(cfg.assetUrl) ==> b["url.asset"] == cfg.assetUrl.value)
      && (!IsTruthy(cfg.assetUrl) ==> b["url.asset"] == host.pluginDirUrl + Prefix + "/resources/assets/")
  {
    PreparedAssetUrl(cfg, host);
    BootstrapSpares(cfg, host, "url.asset");
  }

  /** No action of the script at or after position `from` binds `k` directly. */
  predicate NoBindFrom(k: string, acts: seq<Action>, from: nat) {
    forall j | from <= j < |acts| :: !(acts[j].Bind? && acts[j].key == k)
  }

  /** A bound key keeps its value through a script that never binds it directly. */
  lemma {:induction false} SurvivesUnbound(app: App, acts: seq<Action>, k: string)
    requires k in app.bindings && NoBindFrom(k, acts, 0)
    ensures k in ApplyAll(app, acts).bindings
    ensures ApplyAll(app, acts).bindings[k] == app.bindings[k]
    decreases |acts|
  {
    if acts != [] {
      assert !(acts[0].Bind? && acts[0].key == k);
      assert NoBindFrom(k, acts[1..], 0) by {
        forall j | 0 <= j < |acts[1..]|
          ensures !(acts[1..][j].Bind? && acts[1..][j].key == k)
        {
          assert acts[1..][j] == acts[j + 1];
        }
      }
      SurvivesUnbound(Apply(app, acts[0]), acts[1..], k);
    }
  }

  /**
    Binding inside a hook overwrites, and the last write wins: after a script
    whose last direct `Bind` of `k` is `Bind(k, v)`, `k` is bound to `v`,
    whatever other actions follow it.
  */
  lemma {:induction false} LastBindWins(app: App, acts: seq<Action>, i: nat, k: string, v: string)
    requires i < |acts| && acts[i] == Bind(k, v)
    requires NoBindFrom(k, acts, i + 1)
    ensures k in ApplyAll(app, acts).bindings
    ensures ApplyAll(app, acts).bindings[k] == v
    decreases i
  {
    var next := Apply(app, acts[0]);
    var rest := acts[1..];
    if i == 0 {
      assert NoBindFrom(k, rest, 0) by {
        forall j | 0 <= j < |rest|
          ensures !(rest[j].Bind? && rest[j].key == k)
        {
          assert rest[j] == acts[j + 1];
        }
      }
      SurvivesUnbound(next, rest, k);
    } else {
      assert rest[i - 1] == Bind(k, v);
      assert NoBindFrom(k, rest, i) by {
        forall j | i <= j < |rest|
          ensures !(rest[j].Bind? && rest[j].key == k)
        {
          assert rest[j] == acts[j + 1];
        }
      }
      LastBindWins(next, rest, i - 1, k, v);
    }
  }
}
