/**
  Ordering properties of the bootstrap, stated over the recorded trace: inside
  one batch every `booting` precedes every `booted` with the facade loader
  attempt in between; across the run the seven steps of `bootstrapApplication`
  happen in their fixed order; each queue is fired once, from the snapshot it
  had when its batch ended.
*/
module BootstrapOrder {
  import opened AppState
  import opened Providers
  import opened Application

  /** A lifecycle step of a provider batch of the given phase. */
  predicate InBatch(e: Event, phase: Phase) {
    (e.Construct? || e.Booting? || e.FacadeLoader? || e.Booted?) && e.phase == phase
  }

  /** The position of an event's step in the seven-step bootstrap sequence. */
  function Step(e: Event): nat {
    match e
    case AppFacadeSet => 0
    case PathsRegistered => 1
    case UrlsRegistered => 2
    case ExceptionHandlerSet => 3
    case TextDomainLoaded => 4
    case Construct(phase, _, _) => if phase == Engine then 5 else 7
    case Booting(phase, _, _) => if phase == Engine then 5 else 7
    case FacadeLoader(phase) => if phase == Engine then 5 else 7
    case Booted(phase, _, _) => if phase == Engine then 5 else 7
    case Invoke(q, _, _) => if q == EngineBooted then 6 else 8
  }

  /** Events appear in non-decreasing step order. */
  predicate Ordered(t: seq<Event>) {
    forall a, b | 0 <= a < b < |t| :: Step(t[a]) <= Step(t[b])
  }

  // ---------------------------------------------------------------------------
  // One batch

  lemma {:induction false} BootingEventsLength(phase: Phase, ps: seq<Provider>)
    ensures |BootingEvents(phase, ps)| == 2 * |ps|
    decreases |ps|
  {
    if ps != [] {
      BootingEventsLength(phase, ps[..|ps| - 1]);
    }
  }

  /**
    The booting loop's trace, position by position: provider i is constructed
    at 2i and its `booting` is called at 2i + 1.
  */
  lemma {:induction false} BootingEventAt(phase: Phase, ps: seq<Provider>, i: nat)
    requires i < |ps|
    ensures |BootingEvents(phase, ps)| == 2 * |ps|
    ensures BootingEvents(phase, ps)[2 * i] == Construct(phase, i, ps[i].name)
    ensures BootingEvents(phase, ps)[2 * i + 1] == Booting(phase, i, ps[i].name)
    decreases |ps|
  {
    var n := |ps| - 1;
    var prev := ps[..n];
    BootingEventsLength(phase, ps);
    BootingEventsLength(phase, prev);
    if i < n {
      BootingEventAt(phase, prev, i);
      assert prev[i] == ps[i];
    }
  }

  /** Nothing but those two events is recorded by the booting loop. */
  lemma BootingEventsAt(phase: Phase, ps: seq<Provider>)
    ensures var es := BootingEvents(phase, ps);
      && |es| == 2 * |ps|
      && (forall i | 0 <= i < |ps| ::
            es[2 * i] == Construct(phase, i, ps[i].name) && es[2 * i + 1] == Booting(phase, i, ps[i].name))
      && (forall k | 0 <= k < |es| ::
            && (es[k].Construct? || es[k].Booting?)
            && es[k].phase == phase && es[k].index < |ps| && es[k].provider == ps[es[k].index].name
            && (es[k].Construct? ==> k == 2 * es[k].index)
            && (es[k].Booting? ==> k == 2 * es[k].index + 1))
  {
    var es := BootingEvents(phase, ps);
    BootingEventsLength(phase, ps);
    forall i | 0 <= i < |ps|
      ensures es[2 * i] == Construct(phase, i, ps[i].name) && es[2 * i + 1] == Booting(phase, i, ps[i].name)
    {
      BootingEventAt(phase, ps, i);
    }
    forall k | 0 <= k < |es|
      ensures (es[k].Construct? || es[k].Booting?)
      ensures es[k].phase == phase && es[k].index < |ps| && es[k].provider == ps[es[k].index].name
      ensures es[k].Construct? ==> k == 2 * es[k].index
      ensures es[k].Booting? ==> k == 2 * es[k].index + 1
    {
      var i := k / 2;
      BootingEventAt(phase, ps, i);
      assert k == 2 * i || k == 2 * i + 1;
    }
  }

  /** One position of a `bootstrapWith` trace, by region. */
  lemma BatchEventAt(phase: Phase, ps: seq<Provider>, registered: bool, k: nat)
    requires k < |BatchEvents(phase, ps, registered)|
    ensures var t := BatchEvents(phase, ps, registered);
      var f := if registered then 0 else 1;
      && |t| == 3 * |ps| + f
      && (k < 2 * |ps| ==> t[k] == BootingEvents(phase, ps)[k])
      && (2 * |ps| <= k < 2 * |ps| + f ==> t[k] == FacadeLoader(phase))
      && (2 * |ps| + f <= k ==> t[k] == Booted(phase, k - 2 * |ps| - f, ps[k - 2 * |ps| - f].name))
  {
    var b := BootingEvents(phase, ps);
    var c := FacadeEvents(phase, registered);
    var d := BootedEvents(phase, ps);
    BootingEventsLength(phase, ps);
    assert BatchEvents(phase, ps, registered) == (b + c) + d;
  }

  lemma BatchLength(phase: Phase, ps: seq<Provider>, registered: bool)
    ensures |BatchEvents(phase, ps, registered)| == 3 * |ps| + (if registered then 0 else 1)
  {
    BootingEventsLength(phase, ps);
  }

  /** Provider i is constructed at position 2i and its `booting` is called at 2i + 1. */
  lemma BatchBootingPart(phase: Phase, ps: seq<Provider>, registered: bool)
    ensures var t := BatchEvents(phase, ps, registered);
      && |t| == 3 * |ps| + (if registered then 0 else 1)
      && forall i | 0 <= i < |ps| ::
           t[2 * i] == Construct(phase, i, ps[i].name) && t[2 * i + 1] == Booting(phase, i, ps[i].name)
  {
    var t := BatchEvents(phase, ps, registered);
    BatchLength(phase, ps, registered);
    forall i | 0 <= i < |ps|
      ensures t[2 * i] == Construct(phase, i, ps[i].name)
      ensures t[2 * i + 1] == Booting(phase, i, ps[i].name)
    {
      BootingEventAt(phase, ps, i);
      BatchEventAt(phase, ps, registered, 2 * i);
      BatchEventAt(phase, ps, registered, 2 * i + 1);
    }
  }

  /** The facade attempt, if any, at 2n, and `booted` of provider i at 2n + f + i. */
  lemma BatchBootedPart(phase: Phase, ps: seq<Provider>, registered: bool)
    ensures var t := BatchEvents(phase, ps, registered);
      var f := if registered then 0 else 1;
      && |t| == 3 * |ps| + f
      && (!registered ==> t[2 * |ps|] == FacadeLoader(phase))
      && forall i | 0 <= i < |ps| :: t[2 * |ps| + f + i] == Booted(phase, i, ps[i].name)
  {
    var t := BatchEvents(phase, ps, registered);
    var f := if registered then 0 else 1;
    BatchLength(phase, ps, registered);
    if !registered {
      BatchEventAt(phase, ps, registered, 2 * |ps|);
    }
    forall i | 0 <= i < |ps|
      ensures t[2 * |ps| + f + i] == Booted(phase, i, ps[i].name)
    {
      BatchEventAt(phase, ps, registered, 2 * |ps| + f + i);
    }
  }

  /** Every event of a batch is a lifecycle step of that batch's phase. */
  lemma BatchInPhase(phase: Phase, ps: seq<Provider>, registered: bool)
    ensures var t := BatchEvents(phase, ps, registered);
      forall k | 0 <= k < |t| :: InBatch(t[k], phase)
  {
    var t := BatchEvents(phase, ps, registered);
    forall k | 0 <= k < |t|
      ensures InBatch(t[k], phase)
    {
      BatchEventAt(phase, ps, registered, k);
      if k < 2 * |ps| {
        BootingEventAt(phase, ps, k / 2);
      }
    }
  }

  /**
    The shape of one `bootstrapWith` trace: the booting events, the facade
    attempt (if any) at position 2n, and `booted` of provider i at 2n + f + i.
  */
  lemma BatchShape(phase: Phase, ps: seq<Provider>, registered: bool)
    ensures var t := BatchEvents(phase, ps, registered);
      var f := if registered then 0 else 1;
      && |t| == 3 * |ps| + f
      && (forall i | 0 <= i < |ps| ::
            t[2 * i] == Construct(phase, i, ps[i].name) && t[2 * i + 1] == Booting(phase, i, ps[i].name))
      && (!registered ==> t[2 * |ps|] == FacadeLoader(phase))
      && (forall i | 0 <= i < |ps| :: t[2 * |ps| + f + i] == Booted(phase, i, ps[i].name))
      && (forall k | 0 <= k < |t| :: InBatch(t[k], phase))
  {
    BatchBootingPart(phase, ps, registered);
    BatchBootedPart(phase, ps, registered);
    BatchInPhase(phase, ps, registered);
  }

  /**
    Where each kind of event sits in a batch: `Construct` and `Booting` before
    position 2n, the facade attempt exactly at 2n, `Booted` from 2n + f on.
  */
  lemma BatchRegions(phase: Phase, ps: seq<Provider>, registered: bool)
    ensures var t := BatchEvents(phase, ps, registered);
      var f := if registered then 0 else 1;
      forall k | 0 <= k < |t| ::
        && ((t[k].Construct? || t[k].Booting?) <==> k < 2 * |ps|)
        && (t[k].Construct? ==> k == 2 * t[k].index && t[k].index < |ps|)
        && (t[k].FacadeLoader? <==> 2 * |ps| <= k < 2 * |ps| + f)
        && (t[k].Booted? <==> 2 * |ps| + f <= k)
        && (t[k].Booted? ==> k == 2 * |ps| + f + t[k].index)
  {
    var t := BatchEvents(phase, ps, registered);
    var f := if registered then 0 else 1;
    BootingEventsAt(phase, ps);
    forall k | 0 <= k < |t|
      ensures (t[k].Construct? || t[k].Booting?) <==> k < 2 * |ps|
      ensures t[k].Construct? ==> k == 2 * t[k].index && t[k].index < |ps|
      ensures t[k].FacadeLoader? <==> 2 * |ps| <= k < 2 * |ps| + f
      ensures t[k].Booted? <==> 2 * |ps| + f <= k
      ensures t[k].Booted? ==> k == 2 * |ps| + f + t[k].index
    {
      BatchEventAt(phase, ps, registered, k);
    }
  }

  /** Within one batch every `booting` call precedes every `booted` call. */
  lemma BootingBeforeBooted(phase: Phase, ps: seq<Provider>, registered: bool)
    ensures var t := BatchEvents(phase, ps, registered);
      forall a, b | 0 <= a < |t| && 0 <= b < |t| && t[a].Booting? && t[b].Booted? :: a < b
  {
    BatchRegions(phase, ps, registered);
  }

  /**
    The facade loader is attempted exactly when the flag is unset, and then
    after the last `booting` and before the first `booted` of the batch.
  */
  lemma FacadeBetweenHooks(phase: Phase, ps: seq<Provider>, registered: bool)
    ensures var t := BatchEvents(phase, ps, registered);
      && (FacadeLoader(phase) in t <==> !registered)
      && forall a, k | 0 <= a < |t| && 0 <= k < |t| && t[k].FacadeLoader? ::
           (t[a].Booting? ==> a < k) && (t[a].Booted? ==> k < a)
  {
    BatchShape(phase, ps, registered);
    BatchRegions(phase, ps, registered);
  }

  /**
    `booted` runs on exactly the constructed instances, each once: provider i
    is constructed iff it is booted, and no index is booted twice.
  */
  lemma BootedOncePerConstructed(phase: Phase, ps: seq<Provider>, registered: bool)
    ensures var t := BatchEvents(phase, ps, registered);
      && (forall i: nat, n :: Construct(phase, i, n) in t <==> Booted(phase, i, n) in t)
      && (forall a, b | 0 <= a < |t| && 0 <= b < |t| && t[a].Booted? && t[b].Booted? ::
            t[a].index == t[b].index ==> a == b)
  {
    var t := BatchEvents(phase, ps, registered);
    var f := if registered then 0 else 1;
    BatchShape(phase, ps, registered);
    BatchRegions(phase, ps, registered);
    forall i: nat, n
      ensures Construct(phase, i, n) in t <==> Booted(phase, i, n) in t
    {
      if Construct(phase, i, n) in t {
        var k :| 0 <= k < |t| && t[k] == Construct(phase, i, n);
        assert t[2 * i] == Construct(phase, i, ps[i].name);
        assert t[2 * |ps| + f + i] == Booted(phase, i, n);
      }
      if Booted(phase, i, n) in t {
        var k :| 0 <= k < |t| && t[k] == Booted(phase, i, n);
        assert t[k] == Booted(phase, i, ps[i].name);
        assert t[2 * i] == Construct(phase, i, n);
      }
    }
  }

  /** An empty provider list still runs the facade check, and nothing else. */
  lemma EmptyBatchOnlyChecksFacade(app: App, host: Host, phase: Phase)
    ensures var r := BootstrapWith(app, host, phase, []);
      && r.trace == app.trace + FacadeEvents(phase, app.isFacadeLoaderRegistered)
      && r.bindings == app.bindings
      && r.engineBootedCallbacks == app.engineBootedCallbacks
      && r.pluginReadyCallbacks == app.pluginReadyCallbacks
  {
  }

  // ---------------------------------------------------------------------------
  // The whole bootstrap, over the trace it records

  /**
    The recorded run, region by region: setup, engine batch, engine-booted
    invocations, plugin batch, plugin-ready invocations.
  */
  lemma RunRegions(core: seq<Provider>, plugins: seq<Provider>, loaderSetsFlag: bool,
                   booted: seq<Callback>, ready: seq<Callback>)
    ensures var t := RunEvents(core, plugins, loaderSetsFlag, booted, ready);
      var e := BatchEvents(Engine, core, false);
      var p := BatchEvents(Plugin, plugins, loaderSetsFlag);
      var o2 := |SetupEvents| + |e|;
      var o3 := o2 + |booted|;
      var o4 := o3 + |p|;
      && |t| == o4 + |ready|
      && forall k | 0 <= k < |t| ::
           && (k < |SetupEvents| ==> t[k] == SetupEvents[k])
           && (|SetupEvents| <= k < o2 ==> t[k] == e[k - |SetupEvents|])
           && (o2 <= k < o3 ==> t[k] == Invoke(EngineBooted, k - o2, booted[k - o2].id))
           && (o3 <= k < o4 ==> t[k] == p[k - o3])
           && (o4 <= k ==> t[k] == Invoke(PluginReady, k - o4, ready[k - o4].id))
  {
    var s := SetupEvents;
    var e := BatchEvents(Engine, core, false);
    var i1 := InvokeEvents(EngineBooted, booted);
    var p := BatchEvents(Plugin, plugins, loaderSetsFlag);
    var i2 := InvokeEvents(PluginReady, ready);
    var t := RunEvents(core, plugins, loaderSetsFlag, booted, ready);
    assert t == s + e + i1 + p + i2;
    var o2 := |s| + |e|;
    var o3 := o2 + |i1|;
    var o4 := o3 + |p|;
    forall k | 0 <= k < |t|
      ensures k < |s| ==> t[k] == s[k]
      ensures |s| <= k < o2 ==> t[k] == e[k - |s|]
      ensures o2 <= k < o3 ==> t[k] == Invoke(EngineBooted, k - o2, booted[k - o2].id)
      ensures o3 <= k < o4 ==> t[k] == p[k - o3]
      ensures o4 <= k ==> t[k] == Invoke(PluginReady, k - o4, ready[k - o4].id)
    {
      if k >= o4 {
        assert t[k] == i2[k - o4];
      } else {
        var h := s + e + i1 + p;
        assert t[k] == h[k];
        if k >= o3 {
          assert h[k] == p[k - o3];
        } else {
          var g := s + e + i1;
          assert h[k] == g[k];
          if k >= o2 {
            assert g[k] == i1[k - o2];
          } else {
            assert g[k] == (s + e)[k];
          }
        }
      }
    }
  }

  /** The bootstrap step of each position of the recorded run. */
  lemma RunStepAt(core: seq<Provider>, plugins: seq<Provider>, loaderSetsFlag: bool,
                  booted: seq<Callback>, ready: seq<Callback>, k: nat)
    requires k < |RunEvents(core, plugins, loaderSetsFlag, booted, ready)|
    ensures var t := RunEvents(core, plugins, loaderSetsFlag, booted, ready);
      var o2 := |SetupEvents| + |BatchEvents(Engine, core, false)|;
      var o3 := o2 + |booted|;
      var o4 := o3 + |BatchEvents(Plugin, plugins, loaderSetsFlag)|;
      Step(t[k]) == if k < |SetupEvents| then k else if k < o2 then 5 else if k < o3 then 6 else if k < o4 then 7 else 8
  {
    var e := BatchEvents(Engine, core, false);
    var p := BatchEvents(Plugin, plugins, loaderSetsFlag);
    var o2 := |SetupEvents| + |e|;
    var o3 := o2 + |booted|;
    RunRegions(core, plugins, loaderSetsFlag, booted, ready);
    if |SetupEvents| <= k < o2 {
      BatchInPhase(Engine, core, false);
      assert InBatch(e[k - |SetupEvents|], Engine);
    } else if o3 <= k < o3 + |p| {
      BatchInPhase(Plugin, plugins, loaderSetsFlag);
      assert InBatch(p[k - o3], Plugin);
    }
  }

  /** Events of the recorded run are sorted by bootstrap step. */
  lemma RunOrdered(core: seq<Provider>, plugins: seq<Provider>, loaderSetsFlag: bool,
                   booted: seq<Callback>, ready: seq<Callback>)
    ensures Ordered(RunEvents(core, plugins, loaderSetsFlag, booted, ready))
  {
    var t := RunEvents(core, plugins, loaderSetsFlag, booted, ready);
    forall a, b | 0 <= a < b < |t|
      ensures Step(t[a]) <= Step(t[b])
    {
      RunStepAt(core, plugins, loaderSetsFlag, booted, ready, a);
      RunStepAt(core, plugins, loaderSetsFlag, booted, ready, b);
    }
  }

  /**
    The seven steps of `bootstrapApplication` happen in their fixed order:
    base bindings, exception handler, text domain, engine batch, engine-booted
    fire, plugin batch, plugin-ready fire.
  */
  lemma BootstrapStepsInOrder(cfg: Config, host: Host)
    ensures Ordered(BootstrapApplication(cfg, host).trace)
  {
    RunOrdered(cfg.providers.core, GetPluginProviders(cfg, host), host.loaderSetsFlag,
               AfterEngineBatch(cfg, host).engineBootedCallbacks,
               AfterPluginBatch(cfg, host).pluginReadyCallbacks);
  }

  /**
    In any ordered trace, no plugin provider is constructed before an
    engine-batch step or an engine-booted invocation.
  */
  lemma OrderedEngineBeforePlugin(t: seq<Event>)
    requires Ordered(t)
    ensures forall a, b | 0 <= a < |t| && 0 <= b < |t| && t[b].Construct? && t[b].phase == Plugin ::
      (InBatch(t[a], Engine) || (t[a].Invoke? && t[a].queue == EngineBooted)) ==> a < b
  {
    forall a, b | 0 <= a < |t| && 0 <= b < |t| && t[b].Construct? && t[b].phase == Plugin
                  && (InBatch(t[a], Engine) || (t[a].Invoke? && t[a].queue == EngineBooted))
      ensures a < b
    {
      assert Step(t[b]) == 7 && Step(t[a]) <= 6;
    }
  }

  /**
    No plugin provider is constructed before every engine `booted` hook has run
    and every engine-booted callback has been invoked.
  */
  lemma EngineBeforePlugin(cfg: Config, host: Host)
    ensures var t := BootstrapApplication(cfg, host).trace;
      forall a, b | 0 <= a < |t| && 0 <= b < |t| && t[b].Construct? && t[b].phase == Plugin ::
        (InBatch(t[a], Engine) || (t[a].Invoke? && t[a].queue == EngineBooted)) ==> a < b
  {
    BootstrapStepsInOrder(cfg, host);
    OrderedEngineBeforePlugin(BootstrapApplication(cfg, host).trace);
  }

  /**
    The engine-booted queue of a run is fired right after the engine batch:
    callback j of the snapshot is invoked at position j of that block.
  */
  lemma RunEngineInvocations(core: seq<Provider>, plugins: seq<Provider>, loaderSetsFlag: bool,
                             booted: seq<Callback>, ready: seq<Callback>, t: seq<Event>)
    requires t == RunEvents(core, plugins, loaderSetsFlag, booted, ready)
    ensures var o := |SetupEvents| + |BatchEvents(Engine, core, false)|;
      && o + |booted| <= |t|
      && forall j | 0 <= j < |booted| :: t[o + j] == Invoke(EngineBooted, j, booted[j].id)
  {
    var pre := SetupEvents + BatchEvents(Engine, core, false);
    forall j | 0 <= j < |booted|
      ensures t[|pre| + j] == Invoke(EngineBooted, j, booted[j].id)
    {
      IndexInBlock(pre, InvokeEvents(EngineBooted, booted), BatchEvents(Plugin, plugins, loaderSetsFlag),
                   InvokeEvents(PluginReady, ready), j);
    }
  }

  /** Position j of the second block of a four-block concatenation. */
  lemma IndexInBlock<T>(pre: seq<T>, m: seq<T>, post1: seq<T>, post2: seq<T>, j: int)
    requires 0 <= j < |m|
    ensures |pre| + |m| <= |pre + m + post1 + post2|
    ensures (pre + m + post1 + post2)[|pre| + j] == m[j]
  {
    assert (pre + m + post1 + post2)[|pre| + j] == (pre + m)[|pre| + j];
  }

  /** Position j of the last block of a concatenation. */
  lemma IndexInLastBlock<T>(pre: seq<T>, m: seq<T>, j: int)
    requires 0 <= j < |m|
    ensures |pre + m| == |pre| + |m|
    ensures (pre + m)[|pre| + j] == m[j]
  {
  }

  /** A run invokes an engine-booted callback nowhere but in that block. */
  lemma RunEngineInvokesOnlyThere(core: seq<Provider>, plugins: seq<Provider>, loaderSetsFlag: bool,
                                  booted: seq<Callback>, ready: seq<Callback>, t: seq<Event>)
    requires t == RunEvents(core, plugins, loaderSetsFlag, booted, ready)
    ensures var o := |SetupEvents| + |BatchEvents(Engine, core, false)|;
      forall k | 0 <= k < |t| && t[k].Invoke? && t[k].queue == EngineBooted ::
        o <= k < o + |booted| && t[k] == Invoke(EngineBooted, k - o, booted[k - o].id)
  {
    var o := |SetupEvents| + |BatchEvents(Engine, core, false)|;
    RunRegions(core, plugins, loaderSetsFlag, booted, ready);
    forall k | 0 <= k < |t| && t[k].Invoke? && t[k].queue == EngineBooted
      ensures o <= k < o + |booted|
    {
      RunStepAt(core, plugins, loaderSetsFlag, booted, ready, k);
    }
  }

  /** The plugin-ready invocations of a run close it: callback j of the snapshot at position j. */
  lemma RunReadyInvocations(core: seq<Provider>, plugins: seq<Provider>, loaderSetsFlag: bool,
                            booted: seq<Callback>, ready: seq<Callback>, t: seq<Event>)
    requires t == RunEvents(core, plugins, loaderSetsFlag, booted, ready)
    ensures && |ready| <= |t|
            && forall j | 0 <= j < |ready| :: t[|t| - |ready| + j] == Invoke(PluginReady, j, ready[j].id)
  {
    var h := SetupEvents + BatchEvents(Engine, core, false) + InvokeEvents(EngineBooted, booted)
           + BatchEvents(Plugin, plugins, loaderSetsFlag);
    var m := InvokeEvents(PluginReady, ready);
    assert t == h + m;
    assert |t| - |ready| == |h|;
    forall j | 0 <= j < |ready|
      ensures t[|t| - |ready| + j] == Invoke(PluginReady, j, ready[j].id)
    {
      IndexInLastBlock(h, m, j);
    }
  }

  /** A run invokes no plugin-ready callback before that closing block. */
  lemma RunReadyOnlyAtEnd(core: seq<Provider>, plugins: seq<Provider>, loaderSetsFlag: bool,
                          booted: seq<Callback>, ready: seq<Callback>, t: seq<Event>)
    requires t == RunEvents(core, plugins, loaderSetsFlag, booted, ready)
    ensures forall k | 0 <= k < |t| - |ready| :: !(t[k].Invoke? && t[k].queue == PluginReady)
  {
    RunRegions(core, plugins, loaderSetsFlag, booted, ready);
    forall k | 0 <= k < |t| - |ready|
      ensures !(t[k].Invoke? && t[k].queue == PluginReady)
    {
      RunStepAt(core, plugins, loaderSetsFlag, booted, ready, k);
    }
  }

  /** Position j of the middle block of a three-block concatenation. */
  lemma IndexInMiddle<T>(pre: seq<T>, m: seq<T>, post: seq<T>, j: int)
    requires 0 <= j < |m|
    ensures |pre| + |m| <= |pre + m + post|
    ensures (pre + m + post)[|pre| + j] == m[j]
  {
    assert (pre + m + post)[|pre| + j] == (pre + m)[|pre| + j];
  }

  /** The plugin batch of a run constructs every provider of `plugins`, provider i at index i. */
  lemma RunPluginConstructsAll(core: seq<Provider>, plugins: seq<Provider>, loaderSetsFlag: bool,
                               booted: seq<Callback>, ready: seq<Callback>, t: seq<Event>)
    requires t == RunEvents(core, plugins, loaderSetsFlag, booted, ready)
    ensures forall i | 0 <= i < |plugins| :: Construct(Plugin, i, plugins[i].name) in t
  {
    var pre := SetupEvents + BatchEvents(Engine, core, false) + InvokeEvents(EngineBooted, booted);
    var p := BatchEvents(Plugin, plugins, loaderSetsFlag);
    var post := InvokeEvents(PluginReady, ready);
    assert t == pre + p + post;
    BatchBootingPart(Plugin, plugins, loaderSetsFlag);
    forall i | 0 <= i < |plugins|
      ensures Construct(Plugin, i, plugins[i].name) in t
    {
      IndexInMiddle(pre, p, post, 2 * i);
    }
  }

  /** The plugin batch of a run constructs nothing but the providers of `plugins`. */
  lemma RunPluginConstructsOnly(core: seq<Provider>, plugins: seq<Provider>, loaderSetsFlag: bool,
                                booted: seq<Callback>, ready: seq<Callback>, t: seq<Event>)
    requires t == RunEvents(core, plugins, loaderSetsFlag, booted, ready)
    ensures forall k | 0 <= k < |t| && t[k].Construct? && t[k].phase == Plugin ::
      t[k].index < |plugins| && t[k].provider == plugins[t[k].index].name
  {
    var p := BatchEvents(Plugin, plugins, loaderSetsFlag);
    var o3 := |SetupEvents| + |BatchEvents(Engine, core, false)| + |booted|;
    RunRegions(core, plugins, loaderSetsFlag, booted, ready);
    BatchBootingPart(Plugin, plugins, loaderSetsFlag);
    BatchRegions(Plugin, plugins, loaderSetsFlag);
    forall k | 0 <= k < |t| && t[k].Construct? && t[k].phase == Plugin
      ensures t[k].index < |plugins| && t[k].provider == plugins[t[k].index].name
    {
      RunStepAt(core, plugins, loaderSetsFlag, booted, ready, k);
      assert t[k] == p[k - o3];
    }
  }

  /** The plugin batch of a run constructs exactly `plugins`, provider i at index i. */
  lemma RunPluginConstructs(core: seq<Provider>, plugins: seq<Provider>, loaderSetsFlag: bool,
                            booted: seq<Callback>, ready: seq<Callback>, t: seq<Event>)
    requires t == RunEvents(core, plugins, loaderSetsFlag, booted, ready)
    ensures forall i: nat, n :: Construct(Plugin, i, n) in t <==> i < |plugins| && n == plugins[i].name
  {
    RunPluginConstructsAll(core, plugins, loaderSetsFlag, booted, ready, t);
    RunPluginConstructsOnly(core, plugins, loaderSetsFlag, booted, ready, t);
    forall i: nat, n | Construct(Plugin, i, n) in t
      ensures i < |plugins| && n == plugins[i].name
    {
      var k :| 0 <= k < |t| && t[k] == Construct(Plugin, i, n);
    }
  }

  /** The engine batch of a run constructs every provider of `core`, provider i at index i. */
  lemma RunEngineConstructsAll(core: seq<Provider>, plugins: seq<Provider>, loaderSetsFlag: bool,
                               booted: seq<Callback>, ready: seq<Callback>, t: seq<Event>)
    requires t == RunEvents(core, plugins, loaderSetsFlag, booted, ready)
    ensures forall i | 0 <= i < |core| :: Construct(Engine, i, core[i].name) in t
  {
    var e := BatchEvents(Engine, core, false);
    var post := InvokeEvents(EngineBooted, booted) + BatchEvents(Plugin, plugins, loaderSetsFlag)
              + InvokeEvents(PluginReady, ready);
    assert t == SetupEvents + e + post;
    BatchBootingPart(Engine, core, false);
    forall i | 0 <= i < |core|
      ensures Construct(Engine, i, core[i].name) in t
    {
      IndexInMiddle(SetupEvents, e, post, 2 * i);
    }
  }

  /** The engine batch of a run constructs nothing but the providers of `core`. */
  lemma RunEngineConstructsOnly(core: seq<Provider>, plugins: seq<Provider>, loaderSetsFlag: bool,
                                booted: seq<Callback>, ready: seq<Callback>, t: seq<Event>)
    requires t == RunEvents(core, plugins, loaderSetsFlag, booted, ready)
    ensures forall k | 0 <= k < |t| && t[k].Construct? && t[k].phase == Engine ::
      t[k].index < |core| && t[k].provider == core[t[k].index].name
  {
    var e := BatchEvents(Engine, core, false);
    RunRegions(core, plugins, loaderSetsFlag, booted, ready);
    BatchBootingPart(Engine, core, false);
    BatchRegions(Engine, core, false);
    forall k | 0 <= k < |t| && t[k].Construct? && t[k].phase == Engine
      ensures t[k].index < |core| && t[k].provider == core[t[k].index].name
    {
      RunStepAt(core, plugins, loaderSetsFlag, booted, ready, k);
      assert t[k] == e[k - |SetupEvents|];
    }
  }

  /** The engine batch of a run constructs exactly `core`, provider i at index i. */
  lemma RunEngineConstructs(core: seq<Provider>, plugins: seq<Provider>, loaderSetsFlag: bool,
                            booted: seq<Callback>, ready: seq<Callback>, t: seq<Event>)
    requires t == RunEvents(core, plugins, loaderSetsFlag, booted, ready)
    ensures forall i: nat, n :: Construct(Engine, i, n) in t <==> i < |core| && n == core[i].name
  {
    RunEngineConstructsAll(core, plugins, loaderSetsFlag, booted, ready, t);
    RunEngineConstructsOnly(core, plugins, loaderSetsFlag, booted, ready, t);
    forall i: nat, n | Construct(Engine, i, n) in t
      ensures i < |core| && n == core[i].name
    {
      var k :| 0 <= k < |t| && t[k] == Construct(Engine, i, n);
    }
  }

  /** A run always attempts the facade loader in the engine batch. */
  lemma RunFacadeEngine(core: seq<Provider>, plugins: seq<Provider>, loaderSetsFlag: bool,
                         booted: seq<Callback>, ready: seq<Callback>, t: seq<Event>)
    requires t == RunEvents(core, plugins, loaderSetsFlag, booted, ready)
    ensures FacadeLoader(Engine) in t
  {
    RunRegions(core, plugins, loaderSetsFlag, booted, ready);
    BatchBootedPart(Engine, core, false);
    assert t[|SetupEvents| + 2 * |core|] == FacadeLoader(Engine);
  }

  /** A run attempts the facade loader in the plugin batch exactly when the engine batch left the flag unset. */
  lemma RunFacadePlugin(core: seq<Provider>, plugins: seq<Provider>, loaderSetsFlag: bool,
                        booted: seq<Callback>, ready: seq<Callback>, t: seq<Event>)
    requires t == RunEvents(core, plugins, loaderSetsFlag, booted, ready)
    ensures FacadeLoader(Plugin) in t <==> !loaderSetsFlag
  {
    var pre := SetupEvents + BatchEvents(Engine, core, false) + InvokeEvents(EngineBooted, booted);
    var p := BatchEvents(Plugin, plugins, loaderSetsFlag);
    if !loaderSetsFlag {
      assert t == pre + p + InvokeEvents(PluginReady, ready);
      BatchBootedPart(Plugin, plugins, loaderSetsFlag);
      IndexInMiddle(pre, p, InvokeEvents(PluginReady, ready), 2 * |plugins|);
    } else if FacadeLoader(Plugin) in t {
      var k :| 0 <= k < |t| && t[k] == FacadeLoader(Plugin);
      RunRegions(core, plugins, loaderSetsFlag, booted, ready);
      BatchRegions(Plugin, plugins, loaderSetsFlag);
      RunStepAt(core, plugins, loaderSetsFlag, booted, ready, k);
    }
  }

  /** Between the engine batch and the end of the run, the engine-booted queue only grows. */
  lemma BootedQueueOnlyGrows(cfg: Config, host: Host)
    ensures IsPrefix(AfterEngineBatch(cfg, host).engineBootedCallbacks,
                     BootstrapApplication(cfg, host).engineBootedCallbacks)
  {
    var e := AfterEngineBatch(cfg, host);
    var f := AfterEngineFire(cfg, host);
    var p := AfterPluginBatch(cfg, host);
    var fin := BootstrapApplication(cfg, host);
    ExtendsTransitive(e, f, p);
    ExtendsTransitive(e, p, fin);
  }

  /** Every callback of a run's engine-booted snapshot is invoked, in registration order. */
  lemma RunEngineSnapshotFired(core: seq<Provider>, plugins: seq<Provider>, loaderSetsFlag: bool,
                               booted: seq<Callback>, ready: seq<Callback>, t: seq<Event>)
    requires t == RunEvents(core, plugins, loaderSetsFlag, booted, ready)
    ensures forall j | 0 <= j < |booted| :: Invoke(EngineBooted, j, booted[j].id) in t
  {
    var o := |SetupEvents| + |BatchEvents(Engine, core, false)|;
    RunEngineInvocations(core, plugins, loaderSetsFlag, booted, ready, t);
    forall j | 0 <= j < |booted|
      ensures Invoke(EngineBooted, j, booted[j].id) in t
    {
      assert t[o + j] == Invoke(EngineBooted, j, booted[j].id);
    }
  }

  /**
    Every invocation from queue `q` in `t` names the callback at its index in
    `snap`, and no such invocation occurs twice.
  */
  predicate FiredOnceFromSnapshot(t: seq<Event>, q: QueueName, snap: seq<Callback>) {
    forall a, b | 0 <= a < |t| && 0 <= b < |t| && t[a].Invoke? && t[a].queue == q ::
      && t[a].index < |snap|
      && t[a].callback == snap[t[a].index].id
      && (t[b] == t[a] ==> a == b)
  }

  /**
    Each engine-booted invocation of a run names the snapshot's callback at its
    index, and no invocation happens twice.
  */
  lemma RunEngineFiresSnapshotOnce(core: seq<Provider>, plugins: seq<Provider>, loaderSetsFlag: bool,
                                   booted: seq<Callback>, ready: seq<Callback>, t: seq<Event>)
    requires t == RunEvents(core, plugins, loaderSetsFlag, booted, ready)
    ensures FiredOnceFromSnapshot(t, EngineBooted, booted)
  {
    RunEngineInvokesOnlyThere(core, plugins, loaderSetsFlag, booted, ready, t);
  }

  /**
    Every callback of the engine-booted snapshot taken at the end of the
    engine batch is invoked, in registration order.
  */
  lemma EngineSnapshotFired(cfg: Config, host: Host)
    ensures var t := BootstrapApplication(cfg, host).trace;
      var snap := AfterEngineBatch(cfg, host).engineBootedCallbacks;
      forall j | 0 <= j < |snap| :: Invoke(EngineBooted, j, snap[j].id) in t
  {
    RunEngineSnapshotFired(cfg.providers.core, GetPluginProviders(cfg, host), host.loaderSetsFlag,
                           AfterEngineBatch(cfg, host).engineBootedCallbacks,
                           AfterPluginBatch(cfg, host).pluginReadyCallbacks,
                           BootstrapApplication(cfg, host).trace);
  }

  /**
    The engine-booted queue is fired once, from its snapshot at the end of the
    engine batch: each invocation names the snapshot's callback at its index,
    and no invocation happens twice. A callback appended later (by an
    engine-booted handler or by a plugin provider) stays in the queue, which
    only grows, but is never invoked.
  */
  lemma LateBootedNeverFires(cfg: Config, host: Host)
    ensures FiredOnceFromSnapshot(BootstrapApplication(cfg, host).trace, EngineBooted,
                                  AfterEngineBatch(cfg, host).engineBootedCallbacks)
  {
    RunEngineFiresSnapshotOnce(cfg.providers.core, GetPluginProviders(cfg, host), host.loaderSetsFlag,
                               AfterEngineBatch(cfg, host).engineBootedCallbacks,
                               AfterPluginBatch(cfg, host).pluginReadyCallbacks,
                               BootstrapApplication(cfg, host).trace);
  }

  /**
    The plugin-ready queue is fired last, from its snapshot at the end of the
    plugin batch: its invocations close the trace, one per callback, in
    registration order.
  */
  lemma ReadyFiredLast(cfg: Config, host: Host)
    ensures var t := BootstrapApplication(cfg, host).trace;
      var snap := AfterPluginBatch(cfg, host).pluginReadyCallbacks;
      && |snap| <= |t|
      && forall j | 0 <= j < |snap| :: t[|t| - |snap| + j] == Invoke(PluginReady, j, snap[j].id)
  {
    RunReadyInvocations(cfg.providers.core, GetPluginProviders(cfg, host), host.loaderSetsFlag,
                        AfterEngineBatch(cfg, host).engineBootedCallbacks,
                        AfterPluginBatch(cfg, host).pluginReadyCallbacks,
                        BootstrapApplication(cfg, host).trace);
  }

  /** No plugin-ready callback is invoked before that closing block. */
  lemma ReadyNotFiredEarly(cfg: Config, host: Host)
    ensures var t := BootstrapApplication(cfg, host).trace;
      var snap := AfterPluginBatch(cfg, host).pluginReadyCallbacks;
      forall k | 0 <= k < |t| - |snap| :: !(t[k].Invoke? && t[k].queue == PluginReady)
  {
    RunReadyOnlyAtEnd(cfg.providers.core, GetPluginProviders(cfg, host), host.loaderSetsFlag,
                      AfterEngineBatch(cfg, host).engineBootedCallbacks,
                      AfterPluginBatch(cfg, host).pluginReadyCallbacks,
                      BootstrapApplication(cfg, host).trace);
  }

  /**
    The plugin batch constructs exactly the context-selected list: `backend`
    in the admin area, `frontend` elsewhere, provider i at index i.
  */
  lemma PluginBatchIsSelectedList(cfg: Config, host: Host)
    ensures var t := BootstrapApplication(cfg, host).trace;
      var sel := if host.isUserOnAdminArea then cfg.providers.backend else cfg.providers.frontend;
      forall i: nat, n :: Construct(Plugin, i, n) in t <==> i < |sel| && n == sel[i].name
  {
    RunPluginConstructs(cfg.providers.core, GetPluginProviders(cfg, host), host.loaderSetsFlag,
                        AfterEngineBatch(cfg, host).engineBootedCallbacks,
                        AfterPluginBatch(cfg, host).pluginReadyCallbacks,
                        BootstrapApplication(cfg, host).trace);
  }

  /**
    The engine batch constructs exactly the list `getEngineProviders` returns,
    provider i at index i, whatever the request context.
  */
  lemma EngineBatchIsCoreList(cfg: Config, host: Host)
    ensures var t := BootstrapApplication(cfg, host).trace;
      var core := GetEngineProviders(cfg);
      forall i: nat, n :: Construct(Engine, i, n) in t <==> i < |core| && n == core[i].name
  {
    RunEngineConstructs(cfg.providers.core, GetPluginProviders(cfg, host), host.loaderSetsFlag,
                        AfterEngineBatch(cfg, host).engineBootedCallbacks,
                        AfterPluginBatch(cfg, host).pluginReadyCallbacks,
                        BootstrapApplication(cfg, host).trace);
  }

  /**
    The facade loader is attempted during the engine batch, and again during
    the plugin batch only if that first attempt left the flag unset.
  */
  lemma FacadeAttempts(cfg: Config, host: Host)
    ensures var t := BootstrapApplication(cfg, host).trace;
      && FacadeLoader(Engine) in t
      && (FacadeLoader(Plugin) in t <==> !host.loaderSetsFlag)
  {
    RunFacadeEngine(cfg.providers.core, GetPluginProviders(cfg, host), host.loaderSetsFlag,
                    AfterEngineBatch(cfg, host).engineBootedCallbacks,
                    AfterPluginBatch(cfg, host).pluginReadyCallbacks,
                    BootstrapApplication(cfg, host).trace);
    RunFacadePlugin(cfg.providers.core, GetPluginProviders(cfg, host), host.loaderSetsFlag,
                    AfterEngineBatch(cfg, host).engineBootedCallbacks,
                    AfterPluginBatch(cfg, host).pluginReadyCallbacks,
                    BootstrapApplication(cfg, host).trace);
  }

  /** The `common` list takes no part in the bootstrap: replacing it changes nothing. */
  lemma CommonListIgnored(cfg: Config, host: Host, common: seq<Provider>)
    ensures BootstrapApplication(cfg.(providers := cfg.providers.(common := common)), host)
         == BootstrapApplication(cfg, host)
  {
  }
}
