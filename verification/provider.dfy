/**
  The abstract `Provider`: a unit constructed with the application as its only
  input, with a mandatory `booting` hook and an optional `booted` hook that does
  nothing unless overridden.

  A provider class is modelled by the scripts its two hooks run. Since the only
  thing a provider holds is the application, a hook's effect is a script of
  actions on the shared application state.
*/
module Providers {
  import opened AppState

  /**
    A concrete provider class. `booting` has no default: every value of this
    type supplies one. `booted` is `[]` for a class that keeps the default.
  */
  datatype Provider = Provider(name: string, booting: seq<Action>, booted: seq<Action>)

  /** A provider class that implements `booting` and inherits the default `booted`. */
  function WithDefaultBooted(name: string, booting: seq<Action>): Provider {
    Provider(name, booting, [])
  }

  /**
    `new $provider($this)`: the instance keeps a reference to the application
    and does nothing else, so only the step itself is recorded.
  */
  function ConstructProvider(app: App, phase: Phase, index: nat, p: Provider): (r: App)
    ensures r.trace == app.trace + [Construct(phase, index, p.name)]
    ensures r.bindings == app.bindings
    ensures r.engineBootedCallbacks == app.engineBootedCallbacks
    ensures r.pluginReadyCallbacks == app.pluginReadyCallbacks
    ensures r.isFacadeLoaderRegistered == app.isFacadeLoaderRegistered
  {
    Log(app, Construct(phase, index, p.name))
  }

  /**
    `$instance->booting()`: records the call, then runs the provider's script.
    The call binds what the script binds, in order, and queues exactly the
    handlers the script hands to `booted` and `ready`.
  */
  function RunBooting(app: App, phase: Phase, index: nat, p: Provider): (r: App)
    ensures r.trace == app.trace + [Booting(phase, index, p.name)]
    ensures r.bindings == BindEach(app, BindsOf(p.booting)).bindings
    ensures r.engineBootedCallbacks == app.engineBootedCallbacks + BootedRegs(p.booting)
    ensures r.pluginReadyCallbacks == app.pluginReadyCallbacks + ReadyRegs(p.booting)
    ensures Extends(app, r)
    ensures r.isFacadeLoaderRegistered == app.isFacadeLoaderRegistered
  {
    var logged := Log(app, Booting(phase, index, p.name));
    ScriptBindings(logged, p.booting);
    BindEachOnBindings(logged, app, BindsOf(p.booting));
    ScriptBootedQueue(logged, p.booting);
    ScriptReadyQueue(logged, p.booting);
    ApplyAll(logged, p.booting)
  }

  /**
    `$object->booted()`: records the call, then runs the provider's script,
    with the same effect on bindings and queues as `booting`; the inherited
    default changes nothing but the trace.
  */
  function RunBooted(app: App, phase: Phase, index: nat, p: Provider): (r: App)
    ensures r.trace == app.trace + [Booted(phase, index, p.name)]
    ensures r.bindings == BindEach(app, BindsOf(p.booted)).bindings
    ensures r.engineBootedCallbacks == app.engineBootedCallbacks + BootedRegs(p.booted)
    ensures r.pluginReadyCallbacks == app.pluginReadyCallbacks + ReadyRegs(p.booted)
    ensures Extends(app, r)
    ensures r.isFacadeLoaderRegistered == app.isFacadeLoaderRegistered
    ensures p.booted == [] ==>
      && r.bindings == app.bindings
      && r.engineBootedCallbacks == app.engineBootedCallbacks
      && r.pluginReadyCallbacks == app.pluginReadyCallbacks
  {
    var logged := Log(app, Booted(phase, index, p.name));
    ScriptBindings(logged, p.booted);
    BindEachOnBindings(logged, app, BindsOf(p.booted));
    ScriptBootedQueue(logged, p.booted);
    ScriptReadyQueue(logged, p.booted);
    ApplyAll(logged, p.booted)
  }

  /** A provider that keeps the inherited `booted` leaves bindings, queues and flag as they were. */
  lemma DefaultBootedIsNoOp(app: App, phase: Phase, index: nat, name: string, booting: seq<Action>)
    ensures RunBooted(app, phase, index, WithDefaultBooted(name, booting))
         == Log(app, Booted(phase, index, name))
  {
  }
}
