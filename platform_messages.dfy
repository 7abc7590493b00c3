/** Platform messages as the engine sees them, the checks it makes on the
    parsed navigation and localization documents, and the routing decision of
    `DispatchPlatformMessage`. */
module PlatformMessages {
  import opened Basics
  import opened Json

  const AssetChannel := "flutter/assets"
  const LifecycleChannel := "flutter/lifecycle"
  const NavigationChannel := "flutter/navigation"
  const LocalizationChannel := "flutter/localization"

  /** A platform message: its channel, its payload, what rapidjson makes of the
      payload, and whether the sender attached a response to complete. */
  datatype Message = Message(channel: string, data: seq<byte>, document: Document, hasResponse: bool)

  datatype Locale = Locale(languageCode: string, countryCode: string)

  // ---------------------------------------------------------------------------
  // Localization

  /** The localization handler indexes `args[0]` and `args[1]` as soon as
      `args` is an array, without looking at its size; a shorter array is
      undefined behaviour, so callers must not send one. */
  predicate LocaleArgsIndexable(doc: Document) {
    match doc
    case Parsed(Object(members)) =>
      var args := Get(members, "args");
      (Get(members, "method") == Some(String("setLocale")) && args.Some? && args.value.Array?)
        ==> |args.value.items| >= 2
    case _ => true
  }

  /** The locale a localization document sets, or None when the handler
      rejects it. */
  function ParseSetLocale(doc: Document): (r: Option<Locale>)
    requires LocaleArgsIndexable(doc)
    ensures r.Some? <==>
      && doc.Parsed? && doc.root.Object?
      && Get(doc.root.members, "method") == Some(String("setLocale"))
      && Get(doc.root.members, "args").Some? && Get(doc.root.members, "args").value.Array?
      && Get(doc.root.members, "args").value.items[0].String?
      && Get(doc.root.members, "args").value.items[1].String?
    ensures r.Some? ==>
      var items := Get(doc.root.members, "args").value.items;
      r.value == Locale(CString(items[0].s), CString(items[1].s))
  {
    match doc
    case ParseError => None
    case Parsed(root) =>
      if !root.Object? then None
      else if Get(root.members, "method") != Some(String("setLocale")) then None
      else
        match Get(root.members, "args")
        case Some(Array(items)) =>
          var language := items[0];
          var country := items[1];
          if !language.String? || !country.String? then None
          else Some(Locale(CString(language.s), CString(country.s)))
        case _ => None
  }

  /** The document the framework sends to set a locale. */
  function SetLocaleCall(locale: Locale): Document {
    Parsed(Object([
      Member("method", String("setLocale")),
      Member("args", Array([String(locale.languageCode), String(locale.countryCode)]))]))
  }

  /** A setLocale call is accepted and yields exactly the locale it was built
      from, as long as the codes hold no NUL character. */
  lemma SetLocaleRoundTrip(locale: Locale)
    requires '\0' !in locale.languageCode && '\0' !in locale.countryCode
    ensures LocaleArgsIndexable(SetLocaleCall(locale))
    ensures ParseSetLocale(SetLocaleCall(locale)) == Some(locale)
  {
    var members := SetLocaleCall(locale).root.members;
    assert |"method"| != |"args"|;
    assert Get(members, "method") == Some(String("setLocale"));
    assert Get(members, "args") == Some(members[1].value);
    CStringOfNulFree(locale.languageCode);
    CStringOfNulFree(locale.countryCode);
  }

  // ---------------------------------------------------------------------------
  // Navigation

  /** The navigation handler dereferences the "method" member without checking
      that it exists, and reads "args" as a string, without checking that it
      exists or is one, once the method is "setInitialRoute". Anything else is
      undefined behaviour, so callers must not send it. */
  predicate InitialRouteDefined(doc: Document) {
    match doc
    case Parsed(Object(members)) =>
      var args := Get(members, "args");
      && Get(members, "method").Some?
      && (Get(members, "method") == Some(String("setInitialRoute")) ==> args.Some? && args.value.String?)
    case _ => true
  }

  /** The initial route a navigation document sets, or None when the handler
      rejects it. */
  function ParseSetInitialRoute(doc: Document): (r: Option<string>)
    requires InitialRouteDefined(doc)
    ensures r.Some? <==>
      doc.Parsed? && doc.root.Object? && Get(doc.root.members, "method") == Some(String("setInitialRoute"))
    ensures r.Some? ==> r.value == CString(Get(doc.root.members, "args").value.s)
  {
    match doc
    case ParseError => None
    case Parsed(root) =>
      if !root.Object? then None
      else if Get(root.members, "method").value != String("setInitialRoute") then None
      else Some(CString(Get(root.members, "args").value.s))
  }

  /** The document the framework sends to set the initial route. */
  function SetInitialRouteCall(route: string): Document {
    Parsed(Object([Member("method", String("setInitialRoute")), Member("args", String(route))]))
  }

  /** A setInitialRoute call is accepted and yields the route it was built
      from, as long as the route holds no NUL character. */
  lemma SetInitialRouteRoundTrip(route: string)
    requires '\0' !in route
    ensures InitialRouteDefined(SetInitialRouteCall(route))
    ensures ParseSetInitialRoute(SetInitialRouteCall(route)) == Some(route)
  {
    var members := SetInitialRouteCall(route).root.members;
    assert |"method"| != |"args"|;
    assert Get(members, "method") == Some(String("setInitialRoute"));
    assert Get(members, "args") == Some(members[1].value);
    CStringOfNulFree(route);
  }

  // ---------------------------------------------------------------------------
  // Routing

  /** Whether the channel's own handler reports the message as handled: the
      lifecycle handler never does, the localization handler does exactly when
      it accepts the document, and other channels have no such handler. */
  function HandledOnArrival(m: Message): (handled: bool)
    requires m.channel == LocalizationChannel ==> LocaleArgsIndexable(m.document)
    ensures handled ==> m.channel == LocalizationChannel
    ensures m.channel == LocalizationChannel ==> (handled <==> ParseSetLocale(m.document).Some?)
  {
    m.channel == LocalizationChannel && ParseSetLocale(m.document).Some?
  }

  /** A reference to a message that may have been moved out of. */
  datatype MessageRef = NullRef | Ref(message: Message)

  /** Where a dispatched message ends up. `NullDereference` is reading the
      channel through a null reference. */
  datatype Delivery =
    | Consumed
    | ToRuntime(ref: MessageRef)
    | ToNavigationHandler(ref: MessageRef)
    | Dropped
    | NullDereference

  /** The routing of `DispatchPlatformMessage`, given whether the channel's
      handler took the message and whether a runtime exists. The message that
      travels on is always the one that arrived. */
  function DispatchRoute(m: Message, handled: bool, hasRuntime: bool): (d: Delivery)
    ensures d.Consumed? <==> handled && (m.channel == LifecycleChannel || m.channel == LocalizationChannel)
    ensures d.ToRuntime? <==> !d.Consumed? && hasRuntime
    ensures d.ToNavigationHandler? <==> !d.Consumed? && !hasRuntime && m.channel == NavigationChannel
    ensures (d.ToRuntime? || d.ToNavigationHandler?) ==> d.ref == Ref(m)
    ensures !d.NullDereference?
  {
    if handled && (m.channel == LifecycleChannel || m.channel == LocalizationChannel) then Consumed
    else if hasRuntime then ToRuntime(Ref(m))
    else if m.channel == NavigationChannel then ToNavigationHandler(Ref(m))
    else Dropped
  }

  /** Routing per channel. A lifecycle message goes on to an existing runtime
      because its handler never claims it; a localization message reaches the
      runtime only when its handler rejects it; a navigation message is handled
      by the engine only when there is no runtime; any other message is
      dropped when there is no runtime. */
  lemma RoutingByChannel(m: Message, hasRuntime: bool)
    requires m.channel == LocalizationChannel ==> LocaleArgsIndexable(m.document)
    ensures (m.channel == LifecycleChannel && hasRuntime) ==>
              DispatchRoute(m, HandledOnArrival(m), hasRuntime) == ToRuntime(Ref(m))
    ensures m.channel == LocalizationChannel ==>
              (DispatchRoute(m, HandledOnArrival(m), hasRuntime).ToRuntime? <==> hasRuntime && ParseSetLocale(m.document).None?)
    ensures (DispatchRoute(m, HandledOnArrival(m), hasRuntime).ToNavigationHandler?)
              <==> (m.channel == NavigationChannel && !hasRuntime)
    ensures (!hasRuntime && m.channel != NavigationChannel && !HandledOnArrival(m)) ==>
              DispatchRoute(m, HandledOnArrival(m), hasRuntime) == Dropped
  {
  }

  /** The routing as the source writes it: the message is passed to the
      localization handler with `std::move` into a by-value `RefPtr`
      parameter, which leaves the dispatcher's own reference null. */
  function DispatchRouteAsWritten(m: Message, handled: bool, hasRuntime: bool): (d: Delivery)
    ensures d.Consumed? <==> handled && (m.channel == LifecycleChannel || m.channel == LocalizationChannel)
    ensures (m.channel == LocalizationChannel && !handled) ==>
              d == if hasRuntime then ToRuntime(NullRef) else NullDereference
    ensures d.NullDereference? <==> m.channel == LocalizationChannel && !handled && !hasRuntime
    ensures m.channel != LocalizationChannel ==> d == DispatchRoute(m, handled, hasRuntime)
  {
    if m.channel == LifecycleChannel && handled then Consumed
    else if m.channel == LocalizationChannel && handled then Consumed
    else
      var ref := if m.channel == LocalizationChannel then NullRef else Ref(m);
      if hasRuntime then ToRuntime(ref)
      else if ref.NullRef? then NullDereference
      else if m.channel == NavigationChannel then ToNavigationHandler(ref)
      else Dropped
  }

  /** The two routings differ exactly on localization messages the handler
      rejects: those reach the runtime as a null message, or, with no runtime,
      have their channel read through a null reference. */
  lemma AsWrittenDiffersOnRejectedLocalization(m: Message, handled: bool, hasRuntime: bool)
    ensures (DispatchRouteAsWritten(m, handled, hasRuntime) != DispatchRoute(m, handled, hasRuntime))
              <==> m.channel == LocalizationChannel && !handled
    ensures (m.channel == LocalizationChannel && !handled) ==>
              DispatchRouteAsWritten(m, handled, hasRuntime)
                == if hasRuntime then ToRuntime(NullRef) else NullDereference
  {
  }

  /** A concrete case: a localization payload that does not parse. */
  lemma UnparsableLocalizationIsForwardedAsNull()
    ensures var m := Message(LocalizationChannel, [], ParseError, false);
      && !HandledOnArrival(m)
      && DispatchRoute(m, HandledOnArrival(m), true) == ToRuntime(Ref(m))
      && DispatchRouteAsWritten(m, HandledOnArrival(m), true) == ToRuntime(NullRef)
      && DispatchRouteAsWritten(m, HandledOnArrival(m), false) == NullDereference
  {
  }
}
