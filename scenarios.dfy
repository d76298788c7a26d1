/** Event sequences run against one directive instance, each stating the
    outcome the tooltip code produces, including its odd corners: a toggle
    handler that outlives `unregisterTriggers`, a pending-show timer that
    outlives `hide`, and a scope handle that outlives `removeTooltip`. Every
    instance reads its options and trigger map from an unconfigured
    provider and has the `mouseenter` default trigger and no enable
    expression; the layout is a parameter. */
module TooltipScenarios {
  import opened Wrappers
  import opened TooltipOptions
  import opened TooltipController
  import DelayParsing

  /** The options a `$tooltip` instance sees when nothing is configured. */
  const Defaults: Options := InstanceOptions(NoOptions)

  /** The attribute text of a delay of `ms` milliseconds, and what the
      popup-delay observer makes of it. */
  function DelayText(ms: nat): (text: string)
    ensures DelayParsing.PopupDelay(Some(text), 0) == ms
  {
    DelayParsing.ParseIntRoundTrip(ms, "");
    assert DelayParsing.Signed(ms) + "" == DelayParsing.Signed(ms);
    DelayParsing.Signed(ms)
  }

  /** A new instance of an unconfigured provider's `$tooltip`, before any
      observer has run. */
  method Instance() returns (link: TooltipLink)
    ensures fresh(link) && link.Valid()
    ensures link.options == Defaults && link.options.popupDelay == Some(0) && !link.hasEnableExp
    ensures link.triggerMap == DefaultTriggerMap && link.defaultTriggerShow == "mouseenter"
    ensures link.animation && !link.isOpen && link.tooltip == None
    ensures link.popupTimeout == None && link.popupTimers == {} && link.transitionTimers == {}
    ensures link.bindings == {}
  {
    var provider := new TooltipProvider();
    var options := provider.CurrentOptions();
    assert options == Defaults;
    link := new TooltipLink(options, provider.triggerMap, "mouseenter", false, None);
  }

  /** A new instance after the `link` function and the first run of the
      popup-delay and content observers, with a delay attribute of `delay`
      milliseconds. */
  method Created(text: string, delay: nat) returns (link: TooltipLink)
    ensures fresh(link) && link.Valid()
    ensures link.options == Defaults && link.options.popupDelay == Some(0) && !link.hasEnableExp
    ensures link.triggerMap == DefaultTriggerMap && link.defaultTriggerShow == "mouseenter"
    ensures link.animation && !link.isOpen && link.tooltip == None && link.content == text
    ensures link.popupTimeout == None && link.popupTimers == {} && link.transitionTimers == {}
    ensures link.bindings == {} && link.popupDelay == delay
  {
    link := Instance();
    SetDelay(link, delay);
    link.ContentChanged(text);
  }

  /** The popup-delay observer seeing a delay attribute of `ms`
      milliseconds, on an instance whose default delay is zero. */
  method SetDelay(link: TooltipLink, ms: nat)
    requires link.options.popupDelay == Some(0)
    modifies link`popupDelay
    ensures link.popupDelay == ms
    ensures old(link.Valid()) ==> link.Valid()
  {
    var attr := DelayText(ms);
    link.DelayChanged(Some(attr));
  }

  /** The same after the first run of the trigger and placement observers
      as well. */
  method Link(text: string, delay: nat) returns (link: TooltipLink)
    ensures fresh(link) && link.Valid()
    ensures link.options == Defaults && link.options.popupDelay == Some(0) && !link.hasEnableExp
    ensures link.triggerMap == DefaultTriggerMap && link.defaultTriggerShow == "mouseenter"
    ensures link.animation && !link.isOpen && link.tooltip == None && link.content == text
    ensures link.popupDelay == delay
    ensures link.popupTimeout == None && link.popupTimers == {} && link.transitionTimers == {}
    ensures link.triggers == Triggers("mouseenter", "mouseleave")
    ensures link.bindings == {Binding("mouseenter", ShowHandler), Binding("mouseleave", HideHandler)}
  {
    link := Created(text, delay);
    DefaultTriggerPairs(Defaults, "mouseenter", "mouseenter");
    link.TriggerChanged(None);
    link.PlacementChanged(None);
  }

  /** With a `click` trigger one handler toggles: the first click opens
      the tooltip, the second closes it. */
  method ClickToggles(env: Layout) returns (bound: set<Binding>, afterFirst: bool, afterSecond: bool)
    ensures bound == {Binding("click", ToggleHandler)}
    ensures afterFirst && !afterSecond
  {
    var link := Link("Hello", 0);
    DefaultTriggerPairs(Defaults, "mouseenter", "click");
    link.TriggerChanged(Some("click"));
    bound := link.bindings;
    link.ToggleTooltipBind(true, env);
    afterFirst := link.isOpen;
    link.ToggleTooltipBind(true, env);
    afterSecond := link.isOpen;
  }

  /** With a positive delay, leaving before the delay expires cancels the
      pending show: nothing opens, no element is ever built and no timer is
      left. */
  method HoverShorterThanDelay(env: Layout, ms: nat) returns (open: bool, pending: set<Id>,
                                                              element: Option<Id>)
    requires ms > 0
    ensures !open && pending == {} && element == None
  {
    var link := Link("Hello", ms);
    link.ShowTooltipBind(true, env);
    link.HideTooltipBind();
    open := link.isOpen;
    pending := link.popupTimers;
    element := link.tooltip;
  }

  /** Destroying the directive while a show is pending cancels the timer,
      but the closure keeps the stale handle; no element was ever built. */
  method DestroyDuringPendingShow(env: Layout, ms: nat) returns (pending: set<Id>, handle: Option<Id>,
                                                                 element: Option<Id>)
    requires ms > 0
    ensures pending == {} && handle.Some? && element == None
  {
    var link := Link("Hello", ms);
    link.ShowTooltipBind(true, env);
    link.Destroy();
    pending := link.popupTimers;
    handle := link.popupTimeout;
    element := link.tooltip;
  }

  /** With a `click` trigger and a delay of `ms`, a click schedules a show
      with timer `t`; the delay is then set to zero. The next click shows at
      once, which drops the pending handle without cancelling `t`, and the
      click after it hides, which can no longer cancel `t` either. */
  method Orphaned(env: Layout, ms: nat) returns (link: TooltipLink, t: Id)
    requires ms > 0
    ensures fresh(link) && link.Valid()
    ensures link.options == Defaults && link.options.popupDelay == Some(0)
    ensures !link.hasEnableExp && link.content == "Hello"
    ensures !link.isOpen && link.popupDelay == 0
    ensures link.popupTimeout == None && link.popupTimers == {t}
  {
    link := Link("Hello", ms);
    DefaultTriggerPairs(Defaults, "mouseenter", "click");
    link.TriggerChanged(Some("click"));
    link.ToggleTooltipBind(true, env);
    t := link.popupTimeout.value;
    SetDelay(link, 0);
    link.ToggleTooltipBind(true, env);
    link.ToggleTooltipBind(true, env);
  }

  /** The orphaned timer opens the tooltip again after it was hidden. */
  method OrphanPopupTimer(env: Layout, ms: nat) returns (closedByHide: bool, reopened: bool)
    requires ms > 0
    ensures closedByHide && reopened
  {
    var link, t := Orphaned(env, ms);
    closedByHide := !link.isOpen;
    link.FirePopupTimer(t, env);
    reopened := link.isOpen;
  }

  /** The guard against scheduling twice only looks at the handle: beside
      the orphaned show a delayed show can be scheduled, and two shows are
      pending at once. */
  method TwoPendingShows(env: Layout, ms: nat) returns (pending: set<Id>)
    requires ms > 0
    ensures |pending| == 2
  {
    var link, t := Orphaned(env, ms);
    SetDelay(link, ms);
    link.ToggleTooltipBind(true, env);
    pending := link.popupTimers;
  }

  /** Switching to a toggle trigger and then destroying the directive
      leaves the toggle handler bound, because `unregisterTriggers` only
      unbinds the show and hide handlers. */
  method ToggleHandlerLeaks() returns (left: set<Binding>)
    ensures Binding("click", ToggleHandler) in left
  {
    var link := Link("Hello", 0);
    DefaultTriggerPairs(Defaults, "mouseenter", "click");
    link.TriggerChanged(Some("click"));
    link.Destroy();
    left := link.bindings;
  }

  /** An empty text never opens the tooltip and builds no element. */
  method EmptyContentIsIgnored(env: Layout) returns (open: bool, element: Option<Id>)
    ensures !open && element == None
  {
    var link := Link("", 0);
    link.ShowTooltipBind(true, env);
    open := link.isOpen;
    element := link.tooltip;
  }

  /** Showing again while the animated removal is pending cancels the
      removal, and `createTooltip` still replaces the element and its scope
      by new ones; the old scope is destroyed. */
  method ReshowDuringRemoval(env: Layout) returns (first: Option<Id>, second: Option<Id>,
                                                   removals: set<Id>, scopes: set<Id>)
    ensures first.Some? && second.Some? && first != second
    ensures removals == {} && |scopes| == 1
  {
    var link := Link("Hello", 0);
    link.ShowTooltipBind(true, env);
    first := link.tooltip;
    link.HideTooltipBind();
    link.ShowTooltipBind(true, env);
    second := link.tooltip;
    removals := link.transitionTimers;
    scopes := link.liveScopes;
  }

  /** The animated removal firing removes the element and destroys its
      scope, yet the scope handle stays set. */
  method RemovalKeepsScopeHandle(env: Layout) returns (element: Option<Id>, handle: Option<Id>,
                                                       scopes: set<Id>)
    ensures element == None && handle.Some? && scopes == {}
  {
    var link := Link("Hello", 0);
    link.ShowTooltipBind(true, env);
    link.HideTooltipBind();
    var t := link.transitionTimeout.value;
    link.FireTransitionTimer(t);
    element := link.tooltip;
    handle := link.tooltipScope;
    scopes := link.liveScopes;
  }
}
