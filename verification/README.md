# Warehouse application bootstrap, modelled in Dafny

This project models the bootstrap of the warehouse framework. Two classes are covered:

- `Application` is the container subclass whose constructor runs `bootstrapApplication`.
- `Provider` is the abstract provider base class.

The application is an immutable record (`AppState.App`) with five parts:

- the binding registry, a map from key to value;
- the two callback queues, `engineBootedCallbacks` and `pluginReadyCallbacks`;
- the `isFacadeLoaderRegistered` flag;
- an append-only trace of lifecycle steps.

A provider class is a `Providers.Provider` value. It holds the scripts its two hooks run. A script is a sequence of actions on the shared application: bind a key, register an engine-booted callback, or register a plugin-ready callback.

A callback is the normalised handler: an identity plus the script its call runs. Every step is a pure function from application to application, so the steps compose exactly as in `bootstrapApplication`:

1. base bindings
2. exception handler
3. text domain
4. engine batch
5. engine-booted fire
6. plugin batch
7. plugin-ready fire

A second layer gives the trace each step is expected to record. Those traces are defined independently of the step functions, in `Application.BootingEvents`, `BatchEvents` and `RunEvents`, and every step is proved to record exactly its expected trace. The ordering properties are then proved over those traces, in the `BootstrapOrder` module. The bindings that survive the bootstrap are covered in the `BindingFrame` module.

The `BootstrapEffects` module states the effect of the whole bootstrap on the application state. It flattens the run into one reference script, `RunScript`: the hooks' actions in the order `bootstrapWith` calls them, then each snapshot's handlers in the order `fireCallbacks` calls them. The bootstrap's final state is proved to be the setup state with that script applied. From this follow three results: a handler registered by a hook is invoked, the last `Bind` of a key decides its final value, and a concrete engine provider that rebinds `path.config` and registers one handler of each kind ends with exactly the expected trace and binding.

The host's inputs are fields of `Application.Host`:

- the results of `plugin_dir_path` and `plugin_dir_url` for the base file;
- the admin-area check;
- what the facade loader registration does to the flag.

The configuration is `Application.Config`: the `asset_url` entry and the provider lists.

`fireCallbacks` iterates a by-value copy of the queue and never clears the queue property, so each queue keeps every entry it was given. A callback appended after its queue was fired stays queued and is never invoked during the bootstrap (`BootstrapOrder.BootedQueueOnlyGrows`, `BootstrapOrder.LateBootedNeverFires`).

## Model

| member | source | states |
|---|---|---|
| AppState.RegisterBooted | src/Foundation/Application.php:229-232 | `booted($cb)` appends exactly one entry, `cb`, at the end of the engine-booted queue. The old queue is a prefix of the new one. The plugin-ready queue, the bindings, the flag and the trace are unchanged. |
| AppState.RegisterReady | src/Foundation/Application.php:239-242 | `ready($cb)` appends exactly one entry at the end of the plugin-ready queue and changes nothing else. |
| AppState.Apply | src/Foundation/Application.php:229-242 | One action of a hook: `Bind(k, v)` inserts or overwrites `k` and leaves the queues alone. `OnBooted(cb)` appends `cb` to the engine-booted queue only, as `booted` does. `OnReady(cb)` appends `cb` to the plugin-ready queue only, as `ready` does. The flag and the trace are never touched. |
| AppState.ApplyAll | src/Foundation/Provider.php:12-22 | A hook's only handle is the stored application. Running a hook or handler script therefore adds or overwrites bindings and appends to the queues; no binding or queue entry is removed. The facade flag and the trace are never touched. |
| AppState.ScriptBindings | src/Foundation/Application.php:117 | A script's effect on the bindings is exactly `bindInstance` of its `Bind` pairs, in script order. |
| AppState.ScriptBootedQueue | src/Foundation/Application.php:229-232 | A script appends to the engine-booted queue exactly the handlers it passes to `booted`, in order. |
| AppState.ScriptReadyQueue | src/Foundation/Application.php:239-242 | A script appends to the plugin-ready queue exactly the handlers it passes to `ready`, in order. |
| AppState.ApplyAllConcat | src/Foundation/Provider.php:12-22 | Running two scripts one after the other is the same as running their concatenation. |
| AppState.BindEach | src/Foundation/Application.php:117-127 | A run of `bindInstance` calls binds the old keys plus exactly the listed keys. A key the list does not name keeps its value. Queues, flag and trace are unchanged. |
| AppState.BindEachLastWins | src/Foundation/Application.php:117-127 | After a run of `bindInstance` calls, a key holds the value of the last entry that names it. |
| Providers.ConstructProvider | src/Foundation/Provider.php:19-22 | Constructing a provider from the application records the step and changes no binding, queue or flag. |
| Providers.RunBooting | src/Foundation/Provider.php:35 | Calling the mandatory `booting` records one `Booting` step. The bindings become those of `bindInstance` over the hook's `Bind` pairs. Exactly the handlers the hook passes to `booted` and `ready` are appended to the respective queues, in order. The flag is unchanged. |
| Providers.RunBooted | src/Foundation/Provider.php:27-30 | Calling `booted` records one `Booted` step, binds the hook's `Bind` pairs and appends exactly its registrations to the two queues. A provider that keeps the default leaves bindings and both queues unchanged. |
| Providers.DefaultBootedIsNoOp | src/Foundation/Provider.php:27-30 | The inherited `booted` does nothing but be recorded. |
| PathsAndUrls.GetAssetUrl | src/Foundation/Application.php:256-259 | A truthy `asset_url` is returned as is. Otherwise the default path is returned. The result is always one of the two. |
| PathsAndUrls.RegisterAppPaths | src/Foundation/Application.php:114-128 | `registerAppPaths` binds exactly the eleven path keys on top of the existing ones. Every other key keeps its value. Queues, flag and trace are untouched. |
| PathsAndUrls.RegisterAppUrls | src/Foundation/Application.php:133-141 | `registerAppUrls` binds exactly the five URL keys on top of the existing ones. Every other key keeps its value. |
| PathsAndUrls.PathBindings | src/Foundation/Application.php:117-127 | Every path key holds the value of its own entry: no later entry overwrites it. |
| PathsAndUrls.BaseAndVendorPaths | src/Foundation/Application.php:116-127 | `path` is the base directory. `path.vendor` is base + `v2/vendor/`, with no separator after the base. |
| PathsAndUrls.PathsUnderBase | src/Foundation/Application.php:118-126 | The nine other path keys are bound to values that start with base + `/v2/`. |
| PathsAndUrls.UrlBindings | src/Foundation/Application.php:135-140 | Every URL key holds the value of its own entry. |
| PathsAndUrls.AssetUrlBinding | src/Foundation/Application.php:139 | `url.asset` is `asset_url` when truthy, and otherwise the base URL + `v2/resources/assets/`. |
| PathsAndUrls.UrlsUnderBaseUrl | src/Foundation/Application.php:135-140 | Every URL binding starts with the base URL, except a truthy `asset_url` override. |
| Application.Version | src/Foundation/Application.php:58-61 | `version()` is a `major.minor.patch` version string. |
| Application.GetPluginProviders | src/Foundation/Application.php:215-222 | The plugin list is `backend` in the admin area and `frontend` otherwise. |
| Application.BootingPhase | src/Foundation/Application.php:176-179 | The first loop records Construct(i), Booting(i) for each provider in list order, and the application only grows. |
| Application.FacadeCheck | src/Foundation/Application.php:181-183 | The loader is attempted, and recorded, only while the flag is unset. The new flag is the old flag or the host's effect. Bindings and queues are unchanged. |
| Application.BootedPhase | src/Foundation/Application.php:185-187 | The second loop records Booted(i) for each instance in list order. |
| Application.BootstrapWith | src/Foundation/Application.php:172-188 | One batch records its booting events, then the facade attempt when the flag was unset, then its booted events. It sets the flag as `FacadeCheck` does. |
| Application.RunBootingLoop | src/Foundation/Application.php:174-179 | The loop as written collects exactly the providers as instances and computes `BootingPhase`. |
| Application.RunBootedLoop | src/Foundation/Application.php:185-187 | The loop over the collected instances computes `BootedPhase`. |
| Application.RunBootstrapWith | src/Foundation/Application.php:172-188 | The method with its two loops and the check equals `BootstrapWith` and records the batch trace. |
| Application.InvokeCallback | src/Foundation/Application.php:252 | Calling one handler records its invocation. The handler binds exactly its `Bind` pairs and appends exactly its registrations to the two queues. |
| Application.FireCallbacks | src/Foundation/Application.php:249-254 | Firing a snapshot records one invocation per callback, in registration order, and nothing else. |
| Application.RunFireCallbacks | src/Foundation/Application.php:249-254 | The `foreach` over the by-value copy equals `FireCallbacks` and records the same invocations. |
| Application.SetAppBaseBindings | src/Foundation/Application.php:96-101 | The base bindings step records the facade, paths and URLs steps in that order. It binds exactly the path and URL keys on top of the existing ones, and every other key keeps its value. Queues and flag are untouched. |
| Application.Prepared | src/Foundation/Application.php:84-86 | After the first three steps the trace is the setup sequence and exactly the path and URL keys are bound. Both queues are empty and the flag is unset. |
| Application.AfterEngineBatch | src/Foundation/Application.php:84-87 | Once the engine batch has run, the trace is the setup followed by the batch trace of `core` with the flag unset. The flag is the host's effect, and the setup state has only grown. |
| Application.AfterEngineFire | src/Foundation/Application.php:88 | Firing the engine-booted queue appends one invocation per entry of that queue as it stood after the engine batch. The flag is unchanged and the state only grows. |
| Application.AfterPluginBatch | src/Foundation/Application.php:89 | The plugin batch appends the batch trace of the context-selected list, run with the flag the engine batch left. The state only grows. |
| Application.BootstrapApplication | src/Foundation/Application.php:82-91 | The whole trace is the setup, the engine batch with the flag unset, the engine-booted snapshot, the plugin batch, then the plugin-ready snapshot. The final flag is the host's effect. |
| BootstrapOrder.BootingEventAt | src/Foundation/Application.php:176-179 | Provider i is constructed at position 2i and its `booting` is called at 2i + 1 of the booting loop's trace. |
| BootstrapOrder.BootingEventsAt | src/Foundation/Application.php:176-179 | The booting loop records nothing else: each event names its provider, at the position its index dictates. |
| BootstrapOrder.BatchShape | src/Foundation/Application.php:172-188 | Shape of a batch trace: the booting pairs, the facade attempt at 2n when the flag was unset, Booted(i) at 2n + f + i, all events of that phase. |
| BootstrapOrder.BatchRegions | src/Foundation/Application.php:174-187 | Each kind of event is confined to its region of the batch, both directions. |
| BootstrapOrder.BootingBeforeBooted | src/Foundation/Application.php:174-187 | Within a batch every `booting` precedes every `booted`. |
| BootstrapOrder.FacadeBetweenHooks | src/Foundation/Application.php:181-183 | The facade attempt occurs iff the flag was unset, and after every `booting` and before every `booted` of the batch. |
| BootstrapOrder.BootedOncePerConstructed | src/Foundation/Application.php:174-187 | Provider i is booted iff it was constructed, and no index is booted twice. |
| BootstrapOrder.EmptyBatchOnlyChecksFacade | src/Foundation/Application.php:172-188 | An empty provider list still runs the facade check and records nothing else. |
| BootstrapOrder.BootstrapStepsInOrder | src/Foundation/Application.php:82-91 | The bootstrap trace is sorted by the seven steps of `bootstrapApplication`. |
| BootstrapOrder.EngineBeforePlugin | src/Foundation/Application.php:87-89 | No plugin provider is constructed before any engine batch step or engine-booted invocation. |
| BootstrapOrder.BootedQueueOnlyGrows | src/Foundation/Application.php:231 | The engine-booted queue at the end of the run extends its snapshot at the end of the engine batch. |
| BootstrapOrder.EngineSnapshotFired | src/Foundation/Application.php:88 | Every callback of the engine-booted snapshot is invoked at its index. |
| BootstrapOrder.LateBootedNeverFires | src/Foundation/Application.php:88-90 | Every engine-booted invocation names the snapshot callback at its index, and none happens twice. A callback queued later is never invoked. |
| BootstrapOrder.ReadyFiredLast | src/Foundation/Application.php:90 | The plugin-ready snapshot's invocations close the trace, one per callback, in registration order. |
| BootstrapOrder.ReadyNotFiredEarly | src/Foundation/Application.php:82-90 | No plugin-ready callback is invoked before that closing block. |
| BootstrapOrder.RunEngineConstructs | src/Foundation/Application.php:176-177 | In a run, engine provider i is constructed with name n iff n is the name of entry i of the engine list. |
| BootstrapOrder.EngineBatchIsCoreList | src/Foundation/Application.php:195-198 | In the bootstrap, engine provider i is constructed with name n iff n is the name of entry i of the configured `core` list. The request context plays no part. |
| BootstrapOrder.PluginBatchIsSelectedList | src/Foundation/Application.php:89 | Provider i of the plugin batch is constructed iff it is entry i of the context-selected list. |
| BootstrapOrder.FacadeAttempts | src/Foundation/Application.php:181-183 | The loader is attempted in the engine batch, and in the plugin batch iff the first attempt left the flag unset. |
| BootstrapOrder.CommonListIgnored | src/Foundation/Application.php:205-208 | Replacing the `common` list changes nothing in the bootstrap. |
| BootstrapOrder.RunOrdered | src/Foundation/Application.php:82-91 | The expected run trace, for any provider lists and queue snapshots, is sorted by bootstrap step. |
| BootstrapOrder.RunEngineInvokesOnlyThere | src/Foundation/Application.php:88 | In a run, an engine-booted invocation occurs only in the block right after the engine batch, naming the snapshot callback at its offset. |
| BootstrapOrder.RunEngineSnapshotFired | src/Foundation/Application.php:88 | In a run, every callback of the engine-booted snapshot is invoked. |
| BootstrapOrder.RunEngineFiresSnapshotOnce | src/Foundation/Application.php:249-254 | In a run, each engine-booted invocation names the snapshot callback at its index and occurs once. |
| BootstrapOrder.RunReadyOnlyAtEnd | src/Foundation/Application.php:90 | In a run, no plugin-ready invocation occurs before the closing snapshot block. |
| BootstrapOrder.RunPluginConstructs | src/Foundation/Application.php:176-177 | In a run, plugin provider i is constructed with name n iff n is the name of entry i of the plugin list. |
| BootstrapOrder.RunFacadePlugin | src/Foundation/Application.php:181-183 | In a run, the plugin batch attempts the facade loader iff the engine batch left the flag unset. |
| BindingFrame.BootstrapWithSpares | src/Foundation/Application.php:172-188 | A batch whose hooks cannot bind `k` leaves the binding of `k` as it was, and queues only handlers that cannot bind it. |
| BindingFrame.FireCallbacksSpares | src/Foundation/Application.php:249-254 | Firing handlers that cannot bind `k` leaves the binding of `k` as it was. |
| BindingFrame.PreparedPaths | src/Foundation/Application.php:114-128 | After the setup steps every path key holds the value `registerAppPaths` built for it: registering the URLs overwrites none of them. |
| BindingFrame.PreparedUrls | src/Foundation/Application.php:133-141 | After the setup steps every URL key holds the value `registerAppUrls` built for it. |
| BindingFrame.PreparedAssetUrl | src/Foundation/Application.php:139 | The setup binds `url.asset` to `getAssetUrl` of the default asset URL. |
| BindingFrame.BaseKeysSurvive | src/Foundation/Application.php:82-91 | Every base key is still bound when the bootstrap ends: no step removes a binding. |
| BindingFrame.BootstrapSpares | src/Foundation/Application.php:82-91 | A key that no engine or selected plugin hook can bind, directly or through a handler it queues, ends with the binding the setup gave it. |
| BindingFrame.AssetUrlSurvives | src/Foundation/Application.php:139 | Unless a hook rebinds it, `url.asset` after the bootstrap is the truthy `asset_url`, or else the default under the base URL. |
| BindingFrame.ApplyAllSpares | src/Foundation/Provider.php:12 | A script that cannot bind `k` leaves its binding alone and queues only handlers that cannot bind it. |
| BindingFrame.LastBindWins | src/Foundation/Application.php:117 | Binding inside a hook overwrites: if `Bind(k, v)` is the last action of the script that binds `k` directly, `k` ends bound to `v`, whatever actions follow it. |
| BootstrapEffects.BootingPhaseRuns | src/Foundation/Application.php:176-179 | The booting loop's effect on the state is each provider's `booting` script run in list order. Its trace is the expected booting events. |
| BootstrapEffects.BootedPhaseRuns | src/Foundation/Application.php:185-187 | The second loop's effect is each provider's `booted` script run in list order. |
| BootstrapEffects.BatchRuns | src/Foundation/Application.php:172-188 | A batch's effect is all `booting` scripts, then all `booted` scripts. The trace is the batch trace and the flag is set as the facade check sets it. |
| BootstrapEffects.FireRuns | src/Foundation/Application.php:249-254 | Firing a snapshot runs each handler's script in registration order and records one invocation per handler. |
| BootstrapEffects.EngineSnapshotIsRegistrations | src/Foundation/Application.php:87-88 | The engine-booted queue that `fireCallbacks` copies holds exactly the handlers the engine hooks passed to `booted`, in call order. |
| BootstrapEffects.ReadySnapshotIsRegistrations | src/Foundation/Application.php:89-90 | The plugin-ready queue that the last `fireCallbacks` copies holds exactly the handlers passed to `ready` by engine hooks, engine-booted handlers and plugin hooks, in call order. |
| BootstrapEffects.BootstrapRuns | src/Foundation/Application.php:82-91 | The bootstrap's final state is the setup state with the run script applied. Its trace is the run trace of the two snapshots, and its flag is the host's effect. |
| BootstrapEffects.EngineBootedRegistrationFires | src/Foundation/Application.php:88 | A handler that an engine hook passes to `booted` is in the engine-booted snapshot and is invoked at its index. |
| BootstrapEffects.ReadyRegistrationFires | src/Foundation/Application.php:90 | A handler passed to `ready` before the last fire is in the plugin-ready snapshot and is invoked in the closing block at its index. |
| BootstrapEffects.HookReadyRegistrationFires | src/Foundation/Application.php:241 | A handler that an engine hook or a selected plugin hook passes to `ready` is invoked in the closing block. |
| BootstrapEffects.LastRunBindWins | src/Foundation/Application.php:82-91 | If `Bind(k, v)` is the last direct binding of `k` in the run script, `k` ends bound to `v`, whatever the setup bound it to. |
| BootstrapEffects.SetupBindingKept | src/Foundation/Application.php:82-91 | A key the setup bound and that nothing in the run binds directly keeps the setup's value. |
| BootstrapEffects.ScenarioScript | src/Foundation/Application.php:82-91 | For one engine provider whose `booting` binds `path.config` and registers one handler of each kind, both snapshots hold exactly that handler and the run script is the provider's actions followed by the two handlers. |
| BootstrapEffects.EngineOverridesPathConfig | src/Foundation/Application.php:119 | In that scenario the provider's `path.config` replaces the one `registerAppPaths` bound. |
| BootstrapEffects.ScenarioFlushesOnce | src/Foundation/Application.php:82-91 | In that scenario the whole trace is the setup, then the engine batch, one engine-booted invocation, the empty plugin batch and one plugin-ready invocation. |

## Left out

- Host calls are not modelled. The results of `plugin_dir_path` and `plugin_dir_url` for the base file are `Host` strings, and `isUserOnAdminArea` is a `Host` boolean. `load_plugin_textdomain` and the exception handler setup (`setExceptionHandler`, `WP_DEBUG`, `getEnv`) are recorded as trace steps only: they are observational and cannot fail in the model.
- `AppFacade::setApplication` is a global side effect. It appears only as the `AppFacadeSet` trace step.
- `registerAppFacadeLoader` is not part of this model. What it does to `isFacadeLoaderRegistered` is the host input `loaderSetsFlag`. The model never assumes the flag becomes set.
- `Container::bindInstance` is not part of this model. It is a plain map insert-or-overwrite. Lookups, resolution and errors for unbound keys are not modelled.
- `Container` is not part of this model, and `Application::__construct` does not call its parent constructor. `AppState.Fresh` assumes that `Container`'s property defaults hold no bindings, so the exact key set stated by `Application.Prepared` rests on that assumption.
- The scenario lemmas (`BootstrapEffects.ScenarioScript`, `EngineOverridesPathConfig`, `ScenarioFlushesOnce`) take handlers whose scripts are empty. That keeps the concrete run short; the general lemmas cover handlers with effects.
- `parseHandler` is not part of this model. A callback is already normalised into an identity plus the script its call runs.
- `getProviders` is not part of this model. The `Config` value holds the `core`, `common`, `backend` and `frontend` lists directly.
- Dynamic `new $provider($this)` and `call_user_func_array` are replaced by scripted hook and handler effects. A hook can bind keys and register callbacks. It cannot re-enter `bootstrapWith` or `fireCallbacks`, and it cannot throw, so an exception escaping a hook is not modelled.
- PHP truthiness of `asset_url` is restricted to an `Option<string>`. Missing, `null` and `false` are `None`, and `""` and `"0"` are the falsy strings.
- Application.GetEngineProviders: has no contract of its own; its property, that the engine batch constructs exactly the configured `core` list, is `BootstrapOrder.EngineBatchIsCoreList`.
- Application.GetCommonProviders: has no contract of its own; its only property, that the bootstrap never reads it, is `BootstrapOrder.CommonListIgnored`.
- The constructor's storing of `$baseFile` and `$appConfig` is folded into `Host` and `Config`. `Application.BootstrapApplication` is the constructor's whole effect.
- Every path but `path` and `path.vendor`, and the URLs `url.public` and `url.resource`, are built as base + `/v2/` + suffix. WordPress's `plugin_dir_path` and `plugin_dir_url` already end in a slash, so those values contain a doubled separator, while `path.vendor`, `url.vendor` and the default `url.asset` are built without one. The model reproduces the concatenations as written and does not decide which form is intended.
