# Flutter shell engine: decision logic

This project models the `shell::Engine` of `shell/common/engine.cc` and proves
properties of that model. The engine sits between the platform view, the
animator, the Dart runtime controller and the asset bundles. The model keeps
only what the engine decides itself:

- Animator gating. The flags `activity_running_` and `have_surface_` start
  false. Surface creation and destruction change them, and so do lifecycle
  state strings. They decide when the animator is started or stopped.
- Routing of platform messages by channel. The route depends on whether the
  channel's own handler takes the message and on whether a runtime exists.
- The checks made on the already-parsed localization and navigation JSON
  documents, and the default route that follows from the navigation message.
- Asset bookkeeping. This covers which bundle a path configures, the lookup
  order, and how an asset request's response is completed.
- Replay of the stored viewport metrics, locale and semantics flag into a
  freshly created runtime.

Module layout:

- `Basics`: the `Option` type, bytes, and the byte-to-text copy the engine
  makes of payloads.
- `Json`: the parsed document, including rapidjson's `FindMember`, which
  returns an iterator position, and the NUL-truncating `GetString` copy.
- `Paths`: `GetScriptUriFromPath` and `FindPackagesPath`.
- `AnimatorGate`: the gating state machine as pure functions, with lemmas
  about arbitrary runs of events.
- `PlatformMessages`: the channels, the document checks, and the routing
  function.
- `Shell`: the `Engine` class itself. Its methods update its fields step by
  step, and each is specified against the pure functions. The invariant
  `Valid()` says that the animator runs exactly when both flags are set, and
  that a runtime, when present, holds the engine's current metrics, locale and
  semantics flag. The surface, lifecycle, settings, localization, dispatch and
  `RunBundle*` methods require and keep it. `StartAnimatorIfPossible`,
  `StopAnimator` and `ScheduleFrame` are internal steps: they neither require
  nor ensure `Valid()`, and `StopAnimator` alone breaks it while both flags are
  set, until the caller has cleared a flag. `HandleNavigationPlatformMessage`,
  `ConfigureAssetBundle`, `HandleAssetPlatformMessage` and
  `HandlePlatformMessage` touch none of the fields `Valid()` reads, so they do
  not mention it.

Collaborators become parameters or records:

- The animator is a `running` flag plus a ghost trace of the calls made on it
  and of the GPU posts.
- The runtime controller is a record. It holds the last settings it was handed
  and the messages dispatched to it.
- `stat` and the contents of a bundle are a `PathStat` parameter.
- `access(path, R_OK)` is a set of readable paths.
- `files::GetDirectoryName` is a function parameter.
- rapidjson's parse of a payload is a field of the message.
- The contents of a snapshot override file are a parameter.
- The runtime's kernel and snapshot asset keys are parameters.
- Whether the build runs precompiled code (`blink::IsRunningPrecompiledCode`) is a parameter.

## Model

| member | source | states |
|---|---|---|
| `Basics.AsString` | shell/common/engine.cc:323-324 | the payload copied into a same-length string: one character per byte, each with that byte's code |
| `Basics.AsStringInjective` | shell/common/engine.cc:507-509 | two payloads that read as the same text are the same bytes |
| `Json.FindMember` | shell/common/engine.cc:365-366 | the first member with the name, or the end position when no member has it |
| `Json.Get` | shell/common/engine.cc:369-370 | None exactly when no member has the name; otherwise the value of the first member that has it |
| `Json.CString` | shell/common/engine.cc:379-380 | the copy of a JSON string is the longest prefix without a NUL, and it stops exactly at the first NUL |
| `Json.CStringOfNulFree` | shell/common/engine.cc:352 | a string without NUL characters is copied whole |
| `Paths.GetScriptUriFromPath` | shell/common/engine.cc:63-65 | the URI is `file://` followed by exactly the path |
| `Paths.ScriptUriInjective` | shell/common/engine.cc:63-65 | different paths give different script URIs |
| `Paths.FindPackagesPath` | shell/common/engine.cc:47-61 | the result is a readable `.packages` file beside the main file or in its parent; the nearer one wins; the result is empty exactly when neither is readable |
| `AnimatorGate.StartAnimatorIfPossible` | shell/common/engine.cc:451-454 | the animator is started exactly when both flags are set; the flags do not change |
| `AnimatorGate.StopAnimator` | shell/common/engine.cc:447-449 | the animator is stopped unconditionally; the flags do not change |
| `AnimatorGate.OnOutputSurfaceCreated` | shell/common/engine.cc:278-286 | the GPU continuation is posted first; the surface flag is set; the animator starts exactly when the activity runs; a frame is requested exactly when a runtime exists; consistency is kept |
| `AnimatorGate.OnOutputSurfaceDestroyed` | shell/common/engine.cc:288-294 | the surface flag is cleared and the animator stopped before the GPU continuation is posted last; consistency is kept |
| `AnimatorGate.ClassifyLifecycle` | shell/common/engine.cc:326-331 | paused and suspending pause; resumed resumes; every other string, "inactive" included, is ignored |
| `AnimatorGate.HandleLifecycle` | shell/common/engine.cc:322-336 | paused and suspending clear the activity flag and stop the animator; resumed sets the flag and starts the animator exactly when a surface exists; any other string changes nothing |
| `AnimatorGate.Apply` | shell/common/engine.cc:278-336 | per event: the animator is started only with both flags set, every event that clears a flag stops it, and consistency is kept |
| `AnimatorGate.Run` | shell/common/engine.cc:278-336 | after any run of surface and lifecycle events from a consistent gate, the animator runs exactly when both flags are set |
| `AnimatorGate.RunFromInitial` | shell/common/engine.cc:69-78 | from construction on, the activity flag is the one left by the last pause or resume, the surface flag is the one left by the last surface event, and the animator runs exactly when both are set |
| `PlatformMessages.ParseSetLocale` | shell/common/engine.cc:356-384 | a locale is accepted exactly when the document is an object whose "method" is "setLocale" and whose "args" is an array with strings at indexes 0 and 1; the locale is those two strings, cut at their first NUL |
| `PlatformMessages.SetLocaleRoundTrip` | shell/common/engine.cc:360-380 | the framework's setLocale document is accepted and yields the locale it was built from |
| `PlatformMessages.ParseSetInitialRoute` | shell/common/engine.cc:338-354 | a route is accepted exactly when the document is an object whose "method" is "setInitialRoute"; the route is "args" cut at its first NUL |
| `PlatformMessages.SetInitialRouteRoundTrip` | shell/common/engine.cc:343-353 | the framework's setInitialRoute document is accepted and yields the route it was built from |
| `PlatformMessages.HandledOnArrival` | shell/common/engine.cc:304-310 | only a localization message the handler accepts stops the dispatch; a lifecycle message never does |
| `PlatformMessages.DispatchRouteAsWritten` | shell/common/engine.cc:302-320 | the routing as written: a message is consumed only when its channel's handler took it; a rejected localization message travels on as a null reference to an existing runtime, and with no runtime its channel is read through null; every other message is routed as `DispatchRoute` routes it |
| `PlatformMessages.DispatchRoute` | shell/common/engine.cc:302-320 | a message is consumed only when its channel's handler took it; otherwise it goes to the runtime if there is one, to the navigation handler if there is none and it is a navigation message, and is dropped otherwise; what travels on is the arriving message |
| `PlatformMessages.RoutingByChannel` | shell/common/engine.cc:302-320 | lifecycle messages still reach a runtime; localization messages reach it only when rejected; navigation is handled locally exactly when no runtime exists; other messages are dropped without a runtime |
| `PlatformMessages.AsWrittenDiffersOnRejectedLocalization` | shell/common/engine.cc:307-319 | the source's routing differs from the intended one exactly on rejected localization messages, which travel on as a null message |
| `PlatformMessages.UnparsableLocalizationIsForwardedAsNull` | shell/common/engine.cc:307-319 | an unparsable localization payload reaches the runtime as null, or has its channel read through null when there is no runtime |
| `Shell.Engine.constructor` | shell/common/engine.cc:69-78 | both flags are false, the animator is not running, there is no runtime and no bundle, and the route and locale codes are empty |
| `Shell.Engine.StartAnimatorIfPossible` | shell/common/engine.cc:451-454 | the new gate and the trace follow `AnimatorGate.StartAnimatorIfPossible` |
| `Shell.Engine.StopAnimator` | shell/common/engine.cc:447-449 | the new gate and the trace follow `AnimatorGate.StopAnimator` |
| `Shell.Engine.ScheduleFrame` | shell/common/engine.cc:463-465 | one frame request is appended to the animator trace |
| `Shell.Engine.OnOutputSurfaceCreated` | shell/common/engine.cc:278-286 | the gate and the trace follow `AnimatorGate.OnOutputSurfaceCreated`; nothing else changes; the invariant is kept |
| `Shell.Engine.OnOutputSurfaceDestroyed` | shell/common/engine.cc:288-294 | the gate and the trace follow `AnimatorGate.OnOutputSurfaceDestroyed`; nothing else changes; the invariant is kept |
| `Shell.Engine.SetViewportMetrics` | shell/common/engine.cc:296-300 | the metrics are stored whether or not a runtime exists, and an existing runtime receives them |
| `Shell.Engine.SetSemanticsEnabled` | shell/common/engine.cc:396-400 | the flag is stored whether or not a runtime exists, and an existing runtime receives it |
| `Shell.Engine.ConfigureRuntime` | shell/common/engine.cc:427-435 | a new runtime for the script replaces the old one and holds the stored metrics, locale and semantics flag |
| `Shell.Engine.HandleLifecyclePlatformMessage` | shell/common/engine.cc:322-336 | returns false; the gate and the trace follow `AnimatorGate.HandleLifecycle` on the payload text |
| `Shell.Engine.HandleLocalizationPlatformMessage` | shell/common/engine.cc:356-384 | the codes change exactly when the document is accepted, and an existing runtime then receives the new locale; otherwise nothing changes and the result is false |
| `Shell.Engine.HandleNavigationPlatformMessage` | shell/common/engine.cc:338-354 | the initial route is written exactly when the document is accepted |
| `Shell.Engine.DispatchPlatformMessage` | shell/common/engine.cc:302-320 | the runtime's inbox, the locale, the initial route and the gate change exactly as `DispatchRoute` and the channel handlers say; the invariant is kept |
| `Shell.Engine.DefaultRouteName` | shell/common/engine.cc:456-461 | "/" when no initial route is stored, the stored route otherwise; never empty |
| `Shell.Engine.ConfigureAssetBundle` | shell/common/engine.cc:402-425 | the directory bundle is always cleared and is set only for a directory; the asset store is replaced only for a regular file and otherwise kept |
| `Shell.Engine.GetAssetAsBuffer` | shell/common/engine.cc:518-523 | the directory bundle answers first; the asset store answers only when the directory bundle is absent or lacks the asset; None exactly when neither has it |
| `Shell.Engine.HandleAssetPlatformMessage` | shell/common/engine.cc:502-516 | nothing is completed exactly when there is no response; otherwise the response completes with the asset on a hit and empty exactly on a miss |
| `Shell.Engine.HandlePlatformMessage` | shell/common/engine.cc:488-500 | asset-channel messages are answered by the engine: nothing is completed exactly when there is no response, the asset completes it on a hit, and it completes empty exactly on a miss; every other message is posted unchanged to the platform view |
| `Shell.Engine.RunBundle` | shell/common/engine.cc:181-199 | the bundle and a runtime for `file://` + path are configured; then the precompiled snapshot runs, else the kernel asset, else the snapshot asset, else nothing |
| `Shell.Engine.RunBundleAndSnapshot` | shell/common/engine.cc:201-219 | with no override this behaves like `RunBundle`; otherwise the snapshot is the override file's contents, and nothing runs when that file cannot be read |
| `Shell.Engine.RunBundleAndSource` | shell/common/engine.cc:221-235 | the bundle is configured only for a non-empty path; the runtime is for `file://` + main; the packages path defaults to `FindPackagesPath` |

## Left out

- Message loop and task queue: the engine posts work to the GPU and platform threads. Those threads and their queues are not part of this model. A GPU post is recorded in the trace as `PostGpuContinuation`, and a platform-view post becomes `Outbound.PostedToPlatformView`.
- `Engine::Init` and `MemMapSnapshot`: they use dlopen/dlsym, mmap and per-OS build branches, which are foreign calls.
- The Dart runtime and controller: isolates, ports, errors and running code. The model records only the settings handed to the runtime, the messages dispatched to it and the program chosen to run. `GetUIIsolateMainPort`, `GetUIIsolateName`, `UIIsolateHasLivePorts`, `GetUIIsolateLastError`, `BeginFrame`, `DispatchPointerDataPacket` and `DispatchSemanticsAction` only forward to the runtime when it exists, so they are left out.
- `GetLoadScriptError`: it returns the engine's own `load_script_error_`. That field is set only from the foreign controller's result in `RunBundleAndSource`, so the model does not keep it.
- `DidCreateSecondaryIsolate`: its body is empty, so there is nothing to model.
- Tracing and logging: the `TRACE_EVENT0` and `FTL_DLOG`/`FTL_LOG` calls in the modelled methods are dropped (engine.cc:182, 203, 224, 279-280, 289-290, 325 and 410). They have no effect on the engine's state.
- `DidCreateMainIsolate`: it installs a font selector from a process-wide setting. Both are foreign.
- `Render`: its frame-size check relies on Skia's `SkISize::isEmpty`, which is not part of this model.
- `UpdateSemantics`: it only posts a closure to the platform thread.
- `RunFromSource`: it calls `RunBundleAndSource` with the arguments reordered.
- JSON parsing: rapidjson is foreign. A message carries the parser's verdict on its payload.
- `Shell.Engine.RunBundleAndSource`: models only builds that are not precompiled, because the source aborts on a fatal check in a precompiled build. It does not model `load_script_error_`, which comes from the foreign controller.
- `Shell.Engine.constructor`: the initial viewport metrics and semantics flag come from member initializers in `engine.h`, which is not part of this model, so they are constructor parameters.
- `Shell.Engine.HandleNavigationPlatformMessage`: undefined behaviour is excluded by preconditions, not modelled: a missing "method" member, or a "setInitialRoute" call whose "args" is missing or not a string. Its debug check that no runtime exists is a precondition too.
- `Shell.Engine.HandleLocalizationPlatformMessage`: a "setLocale" call whose "args" array has fewer than two elements is undefined behaviour, so it is excluded by a precondition. `DispatchPlatformMessage` carries the same preconditions for the messages that reach these handlers.
- Animator internals: `Animator::Start`, `Stop` and `RequestFrame` are not part of this model. Start and stop only set or clear the modelled running flag, and every call is logged in the trace.
- `blink::ViewportMetrics`: only the pixel ratio and the physical size are kept, because the engine only stores and forwards the metrics.

## Findings

| source | as written | input that shows it | evidently intended | confidence | as-written member | corrected member |
|---|---|---|---|---|---|---|
| shell/common/engine.cc:307-319 | `HandleLocalizationPlatformMessage(std::move(message))` moves the message into a by-value `RefPtr` parameter. The dispatcher's own reference is then null. When the handler rejects the message, the null reference is forwarded to the runtime, or, with no runtime, dereferenced by `message->channel()` | a message on "flutter/localization" whose payload does not parse, e.g. an empty payload | a rejected localization message travels on as it arrived, as the lifecycle message does | high (not executed) | `PlatformMessages.DispatchRouteAsWritten`, shown by `PlatformMessages.UnparsableLocalizationIsForwardedAsNull` and `PlatformMessages.AsWrittenDiffersOnRejectedLocalization` | `PlatformMessages.DispatchRoute`, used by `Shell.Engine.DispatchPlatformMessage` |
