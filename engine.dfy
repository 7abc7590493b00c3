/** The engine of `shell/common/engine.cc` with the decisions it makes itself:
    animator gating, platform-message routing, localization and navigation
    bookkeeping, asset lookup, and the replay of stored settings into a new
    runtime. Everything the engine calls into is reduced to what it hands over. */
module Shell {
  import opened Basics
  import opened Json
  import opened Paths
  import opened AnimatorGate
  import opened PlatformMessages

  /** The viewport metrics the engine stores and forwards. */
  datatype ViewportMetrics = ViewportMetrics(devicePixelRatio: real, physicalWidth: int, physicalHeight: int)

  /** The runtime controller, reduced to its script URI, the last settings the
      engine handed it (None until the first), and the platform messages
      dispatched to it, oldest first. */
  datatype Runtime = Runtime(
    scriptUri: string,
    metrics: Option<ViewportMetrics>,
    locale: Option<Locale>,
    semanticsEnabled: Option<bool>,
    inbox: seq<Message>)

  /** An asset bundle: asset name to contents. */
  type AssetBundle = map<string, seq<byte>>

  /** What `stat` reports for a bundle path, together with the assets that the
      bundle built from that path would serve. */
  datatype PathStat =
    | StatFailed
    | Directory(files: AssetBundle)
    | RegularFile(archive: AssetBundle)
    | OtherKind

  /** How an asset message's response is completed, if at all. */
  datatype Completion = NotCompleted | Completed(data: seq<byte>) | CompletedEmpty

  /** Where `HandlePlatformMessage` sends a message coming from the runtime. */
  datatype Outbound = AssetReply(completion: Completion) | PostedToPlatformView(message: Message)

  /** The program the Dart controller is asked to run. */
  datatype RunSource =
    | PrecompiledSnapshot
    | Kernel(kernel: seq<byte>)
    | ScriptSnapshot(snapshot: seq<byte>)
    | FromSource(main: string, packages: string)
    | NothingToRun

  class Engine {
    var activityRunning: bool
    var haveSurface: bool
    /** The animator: whether it was last started rather than stopped. */
    var animatorRunning: bool
    /** Every call made on the animator and every GPU post, in order. */
    ghost var effects: seq<Effect>

    var initialRoute: string
    var languageCode: string
    var countryCode: string
    var viewportMetrics: ViewportMetrics
    var semanticsEnabled: bool

    var directoryAssetBundle: Option<AssetBundle>
    var assetStore: Option<AssetBundle>
    var runtime: Option<Runtime>

    /** The gating flags and the animator's state, as the pure gate sees them. */
    function CurrentGate(): Gate
      reads this
    {
      Gate(activityRunning, haveSurface, animatorRunning)
    }

    /** A runtime, when there is one, holds the engine's current settings. */
    ghost predicate RuntimeInSync()
      reads this
    {
      runtime.Some? ==>
        && runtime.value.metrics == Some(viewportMetrics)
        && runtime.value.locale == Some(Locale(languageCode, countryCode))
        && runtime.value.semanticsEnabled == Some(semanticsEnabled)
    }

    ghost predicate Valid()
      reads this
    {
      Consistent(CurrentGate()) && RuntimeInSync()
    }

    /** The initial viewport metrics and semantics flag are default member
        values declared in `engine.h`, which is not part of this model, so they
        are parameters here. */
    constructor (metrics: ViewportMetrics, semantics: bool)
      ensures Valid()
      ensures CurrentGate() == Initial && effects == []
      ensures initialRoute == "" && languageCode == "" && countryCode == ""
      ensures viewportMetrics == metrics && semanticsEnabled == semantics
      ensures directoryAssetBundle == None && assetStore == None && runtime == None
    {
      activityRunning := false;
      haveSurface := false;
      animatorRunning := false;
      effects := [];
      initialRoute := "";
      languageCode := "";
      countryCode := "";
      viewportMetrics := metrics;
      semanticsEnabled := semantics;
      directoryAssetBundle := None;
      assetStore := None;
      runtime := None;
    }

    // -------------------------------------------------------------------------
    // Animator gating

    method StartAnimatorIfPossible()
      modifies this`animatorRunning, this`effects
      ensures var s := AnimatorGate.StartAnimatorIfPossible(old(CurrentGate()));
        CurrentGate() == s.gate && effects == old(effects) + s.effects
    {
      if activityRunning && haveSurface {
        animatorRunning := true;
        effects := effects + [AnimatorStart];
      }
    }

    method StopAnimator()
      modifies this`animatorRunning, this`effects
      ensures var s := AnimatorGate.StopAnimator(old(CurrentGate()));
        CurrentGate() == s.gate && effects == old(effects) + s.effects
    {
      animatorRunning := false;
      effects := effects + [AnimatorStop];
    }

    method ScheduleFrame()
      modifies this`effects
      ensures effects == old(effects) + [AnimatorRequestFrame]
    {
      effects := effects + [AnimatorRequestFrame];
    }

    method OnOutputSurfaceCreated()
      requires Valid()
      modifies this`haveSurface, this`animatorRunning, this`effects
      ensures Valid()
      ensures var s := AnimatorGate.OnOutputSurfaceCreated(old(CurrentGate()), runtime.Some?);
        CurrentGate() == s.gate && effects == old(effects) + s.effects
    {
      effects := effects + [PostGpuContinuation];
      haveSurface := true;
      StartAnimatorIfPossible();
      if runtime.Some? {
        ScheduleFrame();
      }
    }

    method OnOutputSurfaceDestroyed()
      requires Valid()
      modifies this`haveSurface, this`animatorRunning, this`effects
      ensures Valid()
      ensures var s := AnimatorGate.OnOutputSurfaceDestroyed(old(CurrentGate()));
        CurrentGate() == s.gate && effects == old(effects) + s.effects
    {
      haveSurface := false;
      StopAnimator();
      effects := effects + [PostGpuContinuation];
    }

    // -------------------------------------------------------------------------
    // Settings

    method SetViewportMetrics(metrics: ViewportMetrics)
      requires Valid()
      modifies this`viewportMetrics, this`runtime
      ensures Valid()
      ensures viewportMetrics == metrics
      ensures runtime == if old(runtime).Some? then Some(old(runtime).value.(metrics := Some(metrics))) else None
    {
      viewportMetrics := metrics;
      if runtime.Some? {
        runtime := Some(runtime.value.(metrics := Some(viewportMetrics)));
      }
    }

    method SetSemanticsEnabled(enabled: bool)
      requires Valid()
      modifies this`semanticsEnabled, this`runtime
      ensures Valid()
      ensures semanticsEnabled == enabled
      ensures runtime == if old(runtime).Some? then Some(old(runtime).value.(semanticsEnabled := Some(enabled))) else None
    {
      semanticsEnabled := enabled;
      if runtime.Some? {
        runtime := Some(runtime.value.(semanticsEnabled := Some(semanticsEnabled)));
      }
    }

    /** A new runtime for the script, given the stored metrics, locale and
        semantics flag, in that order. It replaces any earlier runtime. */
    method ConfigureRuntime(scriptUri: string)
      requires Valid()
      modifies this`runtime
      ensures Valid()
      ensures runtime.Some? && runtime.value.scriptUri == scriptUri && runtime.value.inbox == []
      ensures runtime.value.metrics == Some(viewportMetrics)
      ensures runtime.value.locale == Some(Locale(languageCode, countryCode))
      ensures runtime.value.semanticsEnabled == Some(semanticsEnabled)
    {
      var created := Runtime(scriptUri, None, None, None, []);
      created := created.(metrics := Some(viewportMetrics));
      created := created.(locale := Some(Locale(languageCode, countryCode)));
      created := created.(semanticsEnabled := Some(semanticsEnabled));
      runtime := Some(created);
    }

    // -------------------------------------------------------------------------
    // Platform messages

    method HandleLifecyclePlatformMessage(m: Message) returns (handled: bool)
      requires Valid()
      modifies this`activityRunning, this`animatorRunning, this`effects
      ensures Valid()
      ensures !handled
      ensures var s := HandleLifecycle(old(CurrentGate()), AsString(m.data));
        CurrentGate() == s.gate && effects == old(effects) + s.effects
    {
      var state := AsString(m.data);
      if state == Paused || state == Suspending {
        activityRunning := false;
        StopAnimator();
      } else if state == Resumed {
        activityRunning := true;
        StartAnimatorIfPossible();
      }
      handled := false;
    }

    method HandleLocalizationPlatformMessage(m: Message) returns (handled: bool)
      requires Valid()
      requires LocaleArgsIndexable(m.document)
      modifies this`languageCode, this`countryCode, this`runtime
      ensures Valid()
      ensures handled == ParseSetLocale(m.document).Some?
      ensures Locale(languageCode, countryCode)
                == if handled then ParseSetLocale(m.document).value else Locale(old(languageCode), old(countryCode))
      ensures runtime == if handled && old(runtime).Some?
                         then Some(old(runtime).value.(locale := Some(Locale(languageCode, countryCode))))
                         else old(runtime)
    {
      var locale := ParseSetLocale(m.document);
      if locale.None? {
        return false;
      }
      languageCode := locale.value.languageCode;
      countryCode := locale.value.countryCode;
      if runtime.Some? {
        runtime := Some(runtime.value.(locale := Some(Locale(languageCode, countryCode))));
      }
      handled := true;
    }

    method HandleNavigationPlatformMessage(m: Message) returns (handled: bool)
      requires runtime.None?
      requires InitialRouteDefined(m.document)
      modifies this`initialRoute
      ensures handled == ParseSetInitialRoute(m.document).Some?
      ensures initialRoute == if handled then ParseSetInitialRoute(m.document).value else old(initialRoute)
    {
      var route := ParseSetInitialRoute(m.document);
      if route.None? {
        return false;
      }
      initialRoute := route.value;
      handled := true;
    }

    /** `DispatchPlatformMessage`, with the message passed to the localization
        handler without giving it up, so that a rejected localization message
        travels on as it arrived (see `DispatchRouteAsWritten` for the source's
        own `std::move`). */
    method DispatchPlatformMessage(m: Message)
      requires Valid()
      requires m.channel == LocalizationChannel ==> LocaleArgsIndexable(m.document)
      requires (m.channel == NavigationChannel && runtime.None?) ==> InitialRouteDefined(m.document)
      modifies this`activityRunning, this`animatorRunning, this`effects
      modifies this`languageCode, this`countryCode, this`initialRoute, this`runtime
      ensures Valid()
      ensures m.channel == LifecycleChannel ==>
        var s := HandleLifecycle(old(CurrentGate()), AsString(m.data));
        CurrentGate() == s.gate && effects == old(effects) + s.effects
      ensures m.channel != LifecycleChannel ==> CurrentGate() == old(CurrentGate()) && effects == old(effects)
      ensures Locale(languageCode, countryCode)
                == if HandledOnArrival(m) then ParseSetLocale(m.document).value
                   else Locale(old(languageCode), old(countryCode))
      ensures var d := DispatchRoute(m, HandledOnArrival(m), old(runtime).Some?);
        && (d.ToRuntime? ==> runtime == Some(old(runtime).value.(inbox := old(runtime).value.inbox + [m])))
        && (d.Consumed? ==> runtime == if old(runtime).Some?
                                       then Some(old(runtime).value.(locale := Some(Locale(languageCode, countryCode))))
                                       else None)
        && (d.ToNavigationHandler? || d.Dropped? ==> runtime == old(runtime))
        && initialRoute == if d.ToNavigationHandler? && ParseSetInitialRoute(m.document).Some?
                           then ParseSetInitialRoute(m.document).value
                           else old(initialRoute)
    {
      var handled := false;
      if m.channel == LifecycleChannel {
        handled := HandleLifecyclePlatformMessage(m);
      } else if m.channel == LocalizationChannel {
        handled := HandleLocalizationPlatformMessage(m);
      }
      if handled {
        return;
      }
      if runtime.Some? {
        runtime := Some(runtime.value.(inbox := runtime.value.inbox + [m]));
        return;
      }
      if m.channel == NavigationChannel {
        var _ := HandleNavigationPlatformMessage(m);
      }
    }

    /** The route the framework starts on. */
    function DefaultRouteName(): (name: string)
      reads this
      ensures name != ""
      ensures initialRoute != "" ==> name == initialRoute
      ensures initialRoute == "" ==> name == "/"
    {
      if initialRoute != "" then initialRoute else "/"
    }

    // -------------------------------------------------------------------------
    // Assets

    /** The bundle always goes; a directory becomes the new directory bundle; a
        regular file replaces the asset store; a failed stat or any other kind
        of file leaves the asset store as it was. */
    method ConfigureAssetBundle(stat: PathStat)
      modifies this`directoryAssetBundle, this`assetStore
      ensures directoryAssetBundle == if stat.Directory? then Some(stat.files) else None
      ensures assetStore == if stat.RegularFile? then Some(stat.archive) else old(assetStore)
    {
      directoryAssetBundle := None;
      if stat.StatFailed? {
        return;
      }
      if stat.Directory? {
        directoryAssetBundle := Some(stat.files);
        return;
      }
      if stat.RegularFile? {
        assetStore := Some(stat.archive);
        return;
      }
    }

    /** The directory bundle answers first; the asset store only when there is
        no directory bundle or it lacks the asset. */
    function GetAssetAsBuffer(name: string): (r: Option<seq<byte>>)
      reads this
      ensures (directoryAssetBundle.Some? && name in directoryAssetBundle.value)
                ==> r == Some(directoryAssetBundle.value[name])
      ensures (!(directoryAssetBundle.Some? && name in directoryAssetBundle.value)
               && assetStore.Some? && name in assetStore.value)
                ==> r == Some(assetStore.value[name])
      ensures r.None? <==> !(directoryAssetBundle.Some? && name in directoryAssetBundle.value)
                           && !(assetStore.Some? && name in assetStore.value)
    {
      if directoryAssetBundle.Some? && name in directoryAssetBundle.value then
        Some(directoryAssetBundle.value[name])
      else if assetStore.Some? && name in assetStore.value then
        Some(assetStore.value[name])
      else
        None
    }

    /** The payload names the asset. Without a response nothing happens;
        otherwise the response completes with the asset, or empty when no
        bundle has it. */
    method HandleAssetPlatformMessage(m: Message) returns (c: Completion)
      ensures c.NotCompleted? <==> !m.hasResponse
      ensures c.Completed? ==> GetAssetAsBuffer(AsString(m.data)) == Some(c.data)
      ensures c.CompletedEmpty? <==> m.hasResponse && GetAssetAsBuffer(AsString(m.data)).None?
    {
      if !m.hasResponse {
        return NotCompleted;
      }
      var assetName := AsString(m.data);
      var assetData := GetAssetAsBuffer(assetName);
      if assetData.Some? {
        c := Completed(assetData.value);
      } else {
        c := CompletedEmpty;
      }
    }

    /** Messages from the runtime: asset requests are answered here, every
        other message is posted to the platform view. */
    method HandlePlatformMessage(m: Message) returns (out: Outbound)
      ensures out.AssetReply? <==> m.channel == AssetChannel
      ensures out.PostedToPlatformView? ==> out.message == m
      ensures out.AssetReply? ==>
        && (out.completion.NotCompleted? <==> !m.hasResponse)
        && (out.completion.Completed? ==> GetAssetAsBuffer(AsString(m.data)) == Some(out.completion.data))
        && (out.completion.CompletedEmpty? <==> m.hasResponse && GetAssetAsBuffer(AsString(m.data)).None?)
    {
      if m.channel == AssetChannel {
        var c := HandleAssetPlatformMessage(m);
        return AssetReply(c);
      }
      out := PostedToPlatformView(m);
    }

    // -------------------------------------------------------------------------
    // Starting a program

    /** `RunBundle`: configure the bundle and a runtime for it, then run the
        precompiled snapshot, else the kernel asset, else the script snapshot
        asset, else nothing. The asset keys are the runtime's constants. */
    method RunBundle(bundlePath: string, stat: PathStat, precompiled: bool, kernelKey: string, snapshotKey: string)
      returns (source: RunSource)
      requires Valid()
      modifies this`directoryAssetBundle, this`assetStore, this`runtime
      ensures Valid()
      ensures directoryAssetBundle == if stat.Directory? then Some(stat.files) else None
      ensures assetStore == if stat.RegularFile? then Some(stat.archive) else old(assetStore)
      ensures runtime.Some? && runtime.value.scriptUri == GetScriptUriFromPath(bundlePath) && runtime.value.inbox == []
      ensures precompiled ==> source == PrecompiledSnapshot
      ensures !precompiled && GetAssetAsBuffer(kernelKey).Some? ==> source == Kernel(GetAssetAsBuffer(kernelKey).value)
      ensures !precompiled && GetAssetAsBuffer(kernelKey).None? ==>
        source == if GetAssetAsBuffer(snapshotKey).Some? then ScriptSnapshot(GetAssetAsBuffer(snapshotKey).value)
                  else NothingToRun
    {
      ConfigureAssetBundle(stat);
      ConfigureRuntime(GetScriptUriFromPath(bundlePath));
      if precompiled {
        return PrecompiledSnapshot;
      }
      var kernel := GetAssetAsBuffer(kernelKey);
      if kernel.Some? {
        return Kernel(kernel.value);
      }
      var snapshot := GetAssetAsBuffer(snapshotKey);
      if snapshot.None? {
        return NothingToRun;
      }
      source := ScriptSnapshot(snapshot.value);
    }

    /** `RunBundleAndSnapshot`: with no override this is `RunBundle`; otherwise
        the snapshot comes from the override file, whose contents (None when it
        cannot be read) are a parameter. */
    method RunBundleAndSnapshot(bundlePath: string, snapshotOverride: string, overrideContents: Option<seq<byte>>,
                                stat: PathStat, precompiled: bool, kernelKey: string, snapshotKey: string)
      returns (source: RunSource)
      requires Valid()
      modifies this`directoryAssetBundle, this`assetStore, this`runtime
      ensures Valid()
      ensures directoryAssetBundle == if stat.Directory? then Some(stat.files) else None
      ensures assetStore == if stat.RegularFile? then Some(stat.archive) else old(assetStore)
      ensures runtime.Some? && runtime.value.scriptUri == GetScriptUriFromPath(bundlePath) && runtime.value.inbox == []
      ensures precompiled ==> source == PrecompiledSnapshot
      ensures !precompiled && snapshotOverride != "" ==>
        source == if overrideContents.Some? then ScriptSnapshot(overrideContents.value) else NothingToRun
      ensures !precompiled && snapshotOverride == "" && GetAssetAsBuffer(kernelKey).Some? ==>
        source == Kernel(GetAssetAsBuffer(kernelKey).value)
      ensures !precompiled && snapshotOverride == "" && GetAssetAsBuffer(kernelKey).None? ==>
        source == if GetAssetAsBuffer(snapshotKey).Some? then ScriptSnapshot(GetAssetAsBuffer(snapshotKey).value)
                  else NothingToRun
    {
      if snapshotOverride == "" {
        source := RunBundle(bundlePath, stat, precompiled, kernelKey, snapshotKey);
        return;
      }
      ConfigureAssetBundle(stat);
      ConfigureRuntime(GetScriptUriFromPath(bundlePath));
      if precompiled {
        return PrecompiledSnapshot;
      }
      if overrideContents.None? {
        return NothingToRun;
      }
      source := ScriptSnapshot(overrideContents.value);
    }

    /** `RunBundleAndSource` in a build that is not precompiled (the source
        aborts otherwise): the packages file defaults to the one found next to
        the main file; the bundle is configured only when a path is given. */
    method RunBundleAndSource(bundlePath: string, main: string, packages: string, stat: PathStat,
                              readable: set<string>, dirName: string -> string)
      returns (source: RunSource)
      requires Valid()
      modifies this`directoryAssetBundle, this`assetStore, this`runtime
      ensures Valid()
      ensures bundlePath == "" ==> directoryAssetBundle == old(directoryAssetBundle) && assetStore == old(assetStore)
      ensures bundlePath != "" ==>
        && directoryAssetBundle == (if stat.Directory? then Some(stat.files) else None)
        && assetStore == (if stat.RegularFile? then Some(stat.archive) else old(assetStore))
      ensures runtime.Some? && runtime.value.scriptUri == GetScriptUriFromPath(main) && runtime.value.inbox == []
      ensures source == FromSource(main, if packages == "" then FindPackagesPath(main, readable, dirName) else packages)
    {
      var packagesPath := packages;
      if packagesPath == "" {
        packagesPath := FindPackagesPath(main, readable, dirName);
      }
      if bundlePath != "" {
        ConfigureAssetBundle(stat);
      }
      ConfigureRuntime(GetScriptUriFromPath(main));
      source := FromSource(main, packagesPath);
    }
  }
}
