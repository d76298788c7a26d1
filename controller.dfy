/** The state machine of one tooltip directive instance: the closure of the
    `link` function of `$tooltip`. Its fields are the closure variables and
    the scope properties that the handlers read and write; its methods are
    the event handlers, the observers, the two `$timeout` callbacks and the
    `$destroy` handler.

    Pending timers are identified by the numbers the instance hands out
    (`nextId`); the same counter names the tooltip scopes and elements that
    `createTooltip` builds, so every one of them is new. A timer is pending
    while its number is in `popupTimers` or `transitionTimers`. The closure
    variables `popupTimeout` and `transitionTimeout` hold the number of the
    last timer scheduled, or `None` after the code sets them to `null`; the
    two are kept apart because the code sometimes drops a handle without
    cancelling its timer, and sometimes cancels a timer without dropping
    its handle. */
module TooltipController {
  import opened Wrappers
  import opened TooltipOptions
  import DelayParsing
  import Placement

  type Id = nat

  /** The three handler functions the directive binds to the target. */
  datatype Handler = ShowHandler | HideHandler | ToggleHandler

  /** One `target.bind(event, handler)` registration. */
  datatype Binding = Binding(event: string, handler: Handler)

  /** The timers a handle names: none for `null`, its own for a handle. */
  function TimersOf(o: Option<Id>): set<Id>
  {
    if o.Some? then {o.value} else {}
  }

  /** What the trigger observer binds for a trigger pair: one toggle handler
      when the show and the hide event coincide, a show and a hide handler
      otherwise. */
  function BindingsFor(t: Triggers): (b: set<Binding>)
    ensures Binding(t.show, ToggleHandler) in b <==> t.show == t.hide
  {
    if t.show == t.hide then {Binding(t.show, ToggleHandler)}
    else {Binding(t.show, ShowHandler), Binding(t.hide, HideHandler)}
  }

  /** What `unregisterTriggers` unbinds: the show and the hide handler of
      the current pair, never the toggle handler. */
  function UnboundBy(t: Triggers): (u: set<Binding>)
    ensures BindingsFor(t) <= u <==> t.show != t.hide
    ensures Binding(t.show, ToggleHandler) !in u
  {
    {Binding(t.show, ShowHandler), Binding(t.hide, HideHandler)}
  }

  /** A toggle pair's registration survives `unregisterTriggers`; a show/hide
      pair's registrations do not. */
  lemma ToggleBindingSurvivesUnbind(t: Triggers, bindings: set<Binding>)
    ensures t.show == t.hide ==> BindingsFor(t) <= (bindings + BindingsFor(t)) - UnboundBy(t)
    ensures t.show != t.hide ==> ((bindings + BindingsFor(t)) - UnboundBy(t)) * BindingsFor(t) == {}
  {
  }

  /** What the layout reports when `positionTooltip` runs: the result of
      `$position.positionElements` for each placement, the popup's
      `offsetWidth` and `offsetHeight`, and `$position.offset` of the body. */
  datatype Layout = Layout(pos: Placement.Side -> Placement.Position,
                           width: real, height: real, body: Placement.Rect)

  /** The width watcher's guard: both widths defined and positive, and
      different. An undefined width is `None`. */
  predicate WidthGuard(oldValue: Option<real>, value: Option<real>)
    ensures oldValue.None? || value.None? || oldValue == value ==> !WidthGuard(oldValue, value)
    ensures WidthGuard(oldValue, value) ==> value.value > 0.0
  {
    oldValue.Some? && value.Some? && oldValue.value > 0.0 && value.value > 0.0 &&
    oldValue.value != value.value
  }

  class TooltipLink {
    /** `options`: `angular.extend({}, defaultOptions, globalOptions)`. */
    const options: Options
    const triggerMap: map<string, string>
    const defaultTriggerShow: string
    /** Whether the element has an enable attribute. */
    const hasEnableExp: bool
    /** `scope.animation`. */
    const animation: bool
    /** Whether the `$locationChangeSuccess` listener is registered: only
        when the tooltip is appended to the body at link time. */
    const closesOnLocationChange: bool

    var appendToBody: bool
    /** `scope.content`; the empty string also stands for `undefined`. */
    var content: string
    /** `scope.placement`. */
    var placement: string
    /** `scope.preferredPlacement`. */
    var preferredPlacement: string
    /** `scope.tt_popupDelay`; `0` also stands for `undefined`. */
    var popupDelay: int
    var triggers: Triggers
    var bindings: set<Binding>
    /** `scope.isOpen`. */
    var isOpen: bool
    /** Whether the width watcher is registered. */
    var watching: bool
    var popupTimeout: Option<Id>
    var popupTimers: set<Id>
    var transitionTimeout: Option<Id>
    var transitionTimers: set<Id>
    /** The tooltip element and its scope. */
    var tooltip: Option<Id>
    var tooltipScope: Option<Id>
    /** The tooltip scopes created and not yet destroyed. */
    var liveScopes: set<Id>
    /** The `top` and `left` written to the popup's style. */
    var popupOffset: Placement.Position
    var nextId: nat

    /** The element, its scope and the handles, all named by numbers that
        have been handed out. */
    ghost predicate Core()
      reads this
    {
      && (tooltip.Some? ==> tooltipScope.Some?)
      && liveScopes == (if tooltip.Some? then TimersOf(tooltipScope) else {})
      && (transitionTimeout.Some? ==> !isOpen && animation)
      && (forall t :: t in popupTimers ==> t < nextId)
      && (popupTimeout.Some? ==> popupTimeout.value < nextId)
      && (tooltipScope.Some? ==> tooltipScope.value < nextId)
    }

    /** What holds between any two events, apart from the link between the
        removal handle and the pending removal timers: the width watcher is
        registered exactly while an element is open. The tooltip is open
        without an element only after `$destroy` removed it while open. */
    ghost predicate Wellformed()
      reads this
    {
      Core() && (watching <==> isOpen && tooltip.Some?)
    }

    /** The invariant: in addition, a removal is pending exactly when the
        removal handle is set, and then it is that handle's timer. */
    ghost predicate Valid()
      reads this
    {
      Wellformed() && transitionTimers == TimersOf(transitionTimeout)
    }

    /** The observed attributes and the bindings are unchanged. */
    twostate predicate SameConfig()
      reads this
    {
      && content == old(content) && preferredPlacement == old(preferredPlacement)
      && popupDelay == old(popupDelay) && appendToBody == old(appendToBody)
      && triggers == old(triggers) && bindings == old(bindings)
    }

    /** The element, its scope, the visibility and the position are unchanged. */
    twostate predicate SameVisibility()
      reads this
    {
      && tooltip == old(tooltip) && tooltipScope == old(tooltipScope)
      && liveScopes == old(liveScopes) && isOpen == old(isOpen) && watching == old(watching)
      && placement == old(placement) && popupOffset == old(popupOffset)
    }

    /** The placement and the popup offsets are the ones `positionTooltip`
        computes for `env`. */
    ghost predicate Placed(env: Layout)
      reads this
    {
      var c := Placement.Resolve(preferredPlacement, env.width, env.height,
                                 if appendToBody then Some(env.body) else None, env.pos);
      placement == Placement.SideName(c.side) && popupOffset == Placement.Position(c.top, c.left)
    }

    /** What `show` does: it drops the pending-show handle without cancelling
        that timer, cancels a pending removal, and then, when there is
        content and the tooltip is closed, replaces any element by a new one
        with a new scope, opens it and positions it. */
    twostate predicate ShowEffect(env: Layout)
      reads this
    {
      && popupTimeout == None && transitionTimeout == None
      && popupTimers == old(popupTimers)
      && transitionTimers == old(transitionTimers) - TimersOf(old(transitionTimeout))
      && SameConfig()
      && (old(content) == "" || old(isOpen) ==> SameVisibility() && nextId == old(nextId))
      && (old(content) != "" && !old(isOpen) ==>
            && isOpen && watching
            && tooltipScope == Some(old(nextId)) && tooltip == Some(old(nextId) + 1)
            && liveScopes == {old(nextId)} && nextId == old(nextId) + 2
            && Placed(env))
    }

    /** What `hide` does: it cancels the pending show and drops its handle;
        when open, it closes, stops the width watcher and either schedules
        one removal (with animation) or removes the element at once. The
        observed attributes and bindings are left alone. */
    twostate predicate HideEffect()
      reads this
    {
      SameConfig() && Hidden()
    }

    /** The effect of `hide` on everything but the observed attributes and
        the bindings. */
    twostate predicate Hidden()
      reads this
    {
      && popupTimeout == None
      && popupTimers == old(popupTimers) - TimersOf(old(popupTimeout))
      && placement == old(placement) && popupOffset == old(popupOffset)
      && (!old(isOpen) ==>
            && SameVisibility() && nextId == old(nextId)
            && transitionTimeout == old(transitionTimeout) && transitionTimers == old(transitionTimers))
      && (old(isOpen) && animation ==>
            && !isOpen && !watching
            && tooltip == old(tooltip) && tooltipScope == old(tooltipScope) && liveScopes == old(liveScopes)
            && transitionTimeout == Some(old(nextId)) && transitionTimers == {old(nextId)}
            && nextId == old(nextId) + 1)
      && (old(isOpen) && !animation ==>
            && !isOpen && !watching
            && tooltip == None && tooltipScope == old(tooltipScope) && liveScopes == {}
            && transitionTimeout == None && transitionTimers == {} && nextId == old(nextId))
    }

    /** The state right after the `link` function: closed, no element, no
        timer, no binding yet (the trigger observer binds on its first run). */
    constructor (options: Options, triggerMap: map<string, string>, defaultTriggerShow: string,
                 hasEnableExp: bool, animationAttr: Option<bool>)
      ensures Valid()
      ensures this.options == options && this.triggerMap == triggerMap
      ensures this.defaultTriggerShow == defaultTriggerShow && this.hasEnableExp == hasEnableExp
      ensures animation == animationAttr.GetOr(options.animation.GetOr(false))
      ensures appendToBody == options.appendToBody.GetOr(false)
      ensures closesOnLocationChange == appendToBody
      ensures triggers == GetTriggers(options, triggerMap, defaultTriggerShow, None)
      ensures bindings == {} && !isOpen && !watching && tooltip == None && tooltipScope == None
      ensures popupTimeout == None && popupTimers == {}
      ensures transitionTimeout == None && transitionTimers == {}
      ensures liveScopes == {} && content == "" && popupDelay == 0
      ensures placement == "" && preferredPlacement == ""
    {
      this.options := options;
      this.triggerMap := triggerMap;
      this.defaultTriggerShow := defaultTriggerShow;
      this.hasEnableExp := hasEnableExp;
      animation := animationAttr.GetOr(options.animation.GetOr(false));
      appendToBody := options.appendToBody.GetOr(false);
      closesOnLocationChange := options.appendToBody.GetOr(false);
      triggers := GetTriggers(options, triggerMap, defaultTriggerShow, None);
      bindings := {};
      content := "";
      placement := "";
      preferredPlacement := "";
      popupDelay := 0;
      isOpen := false;
      watching := false;
      popupTimeout := None;
      popupTimers := {};
      transitionTimeout := None;
      transitionTimers := {};
      tooltip := None;
      tooltipScope := None;
      liveScopes := {};
      popupOffset := Placement.Position(0.0, 0.0);
      nextId := 0;
    }

    /** There is never more than one pending removal, and none while the
        tooltip is open. */
    lemma AtMostOneRemoval()
      requires Valid()
      ensures |transitionTimers| <= 1
      ensures transitionTimers != {} ==> !isOpen
    {
    }

    /** `positionTooltip`: run the placement search and write the result to
        `scope.placement` and the popup's style. */
    method Reposition(env: Layout)
      requires tooltip.Some?
      modifies this`placement, this`popupOffset
      ensures Placed(env)
    {
      var body := if appendToBody then Some(env.body) else None;
      var c := Placement.PositionTooltip(preferredPlacement, env.width, env.height, body, env.pos);
      placement := Placement.SideName(c.side);
      popupOffset := Placement.Position(c.top, c.left);
    }

    /** `removeTooltip`: drop the removal handle without cancelling (every
        caller has already cancelled or consumed that timer), remove the
        element and destroy the scope, whose handle stays set. */
    method RemoveTooltip()
      requires Core() && transitionTimers == {} && !watching
      modifies this`transitionTimeout, this`tooltip, this`liveScopes
      ensures Valid()
      ensures transitionTimeout == None && tooltip == None && liveScopes == {}
    {
      transitionTimeout := None;
      if tooltip.Some? {
        tooltip := None;
      }
      if tooltipScope.Some? {
        liveScopes := liveScopes - {tooltipScope.value};
        tooltip := None;
      }
    }

    /** `createTooltip`: remove any element, then link a new element to a
        new child scope. */
    method CreateTooltip()
      requires Wellformed() && transitionTimeout == None && transitionTimers == {}
      requires !isOpen
      modifies this`transitionTimeout, this`tooltip, this`tooltipScope, this`liveScopes, this`nextId
      ensures Valid()
      ensures tooltipScope == Some(old(nextId)) && tooltip == Some(old(nextId) + 1)
      ensures liveScopes == {old(nextId)} && nextId == old(nextId) + 2
      ensures transitionTimeout == None
    {
      if tooltip.Some? {
        RemoveTooltip();
      }
      tooltipScope := Some(nextId);
      tooltip := Some(nextId + 1);
      liveScopes := liveScopes + {nextId};
      nextId := nextId + 2;
    }

    /** The first steps of `show`: drop the pending-show handle without
        cancelling its timer, and cancel a pending removal. */
    method DropHandles()
      requires Valid()
      modifies this`popupTimeout, this`transitionTimeout, this`transitionTimers
      ensures Valid()
      ensures popupTimeout == None && transitionTimeout == None && transitionTimers == {}
      ensures transitionTimers == old(transitionTimers) - TimersOf(old(transitionTimeout))
    {
      popupTimeout := None;
      if transitionTimeout.Some? {
        transitionTimers := transitionTimers - {transitionTimeout.value};
        transitionTimeout := None;
      }
    }

    /** The rest of `show` once it goes ahead: a new element, opened, then
        positioned, then watched. */
    method Open(env: Layout)
      requires Valid() && transitionTimeout == None && !isOpen
      modifies this`transitionTimeout, this`tooltip, this`tooltipScope, this`liveScopes, this`nextId
      modifies this`isOpen, this`watching, this`placement, this`popupOffset
      ensures Valid()
      ensures isOpen && watching && transitionTimeout == None
      ensures tooltipScope == Some(old(nextId)) && tooltip == Some(old(nextId) + 1)
      ensures liveScopes == {old(nextId)} && nextId == old(nextId) + 2
      ensures Placed(env)
    {
      CreateTooltip();
      isOpen := true;
      Reposition(env);
      watching := true;
    }

    /** `show`. The result tells whether it returned `positionTooltip`
        (`true`) or `angular.noop` (`false`). */
    method Show(env: Layout) returns (shown: bool)
      requires Valid()
      modifies this`popupTimeout, this`transitionTimeout, this`transitionTimers
      modifies this`tooltip, this`tooltipScope, this`liveScopes, this`nextId
      modifies this`isOpen, this`watching, this`placement, this`popupOffset
      ensures Valid()
      ensures shown <==> old(content) != "" && !old(isOpen)
      ensures ShowEffect(env)
    {
      DropHandles();
      if content == "" || isOpen {
        return false;
      }
      Open(env);
      shown := true;
    }

    /** The first steps of `hide`: cancel the pending show and drop its
        handle. */
    method CancelShow()
      requires Valid()
      modifies this`popupTimeout, this`popupTimers
      ensures Valid()
      ensures popupTimeout == None && popupTimers == old(popupTimers) - TimersOf(old(popupTimeout))
    {
      popupTimers := popupTimers - TimersOf(popupTimeout);
      popupTimeout := None;
    }

    /** The rest of `hide` for an open tooltip: stop the width watcher,
        close, then schedule the removal unless one is pending, or remove at
        once without animation. */
    method Close()
      requires Valid() && isOpen
      modifies this`transitionTimeout, this`transitionTimers
      modifies this`tooltip, this`liveScopes, this`nextId, this`isOpen, this`watching
      ensures Valid()
      ensures !isOpen && !watching
      ensures animation ==>
                && tooltip == old(tooltip) && liveScopes == old(liveScopes)
                && transitionTimeout == Some(old(nextId)) && transitionTimers == {old(nextId)}
                && nextId == old(nextId) + 1
      ensures !animation ==>
                && tooltip == None && liveScopes == {}
                && transitionTimeout == None && transitionTimers == {} && nextId == old(nextId)
    {
      watching := false;
      isOpen := false;
      if animation {
        if transitionTimeout.None? {
          transitionTimeout := Some(nextId);
          transitionTimers := transitionTimers + {nextId};
          nextId := nextId + 1;
        }
      } else {
        RemoveTooltip();
      }
    }

    /** `hide`. */
    method Hide()
      requires Valid()
      modifies this`popupTimeout, this`popupTimers, this`transitionTimeout, this`transitionTimers
      modifies this`tooltip, this`liveScopes, this`nextId, this`isOpen, this`watching
      ensures Valid()
      ensures HideEffect()
    {
      CancelShow();
      if isOpen {
        Close();
      }
    }

    /** `showTooltipBind`: nothing when the enable expression is false; with
        a non-zero delay, schedule `show` unless a pending-show handle is
        set; otherwise `show()()`, which positions a second time when `show`
        opened the tooltip. */
    method ShowTooltipBind(enabled: bool, env: Layout)
      requires Valid()
      modifies this`popupTimeout, this`popupTimers, this`transitionTimeout, this`transitionTimers
      modifies this`tooltip, this`tooltipScope, this`liveScopes, this`nextId
      modifies this`isOpen, this`watching, this`placement, this`popupOffset
      ensures Valid()
      ensures hasEnableExp && !enabled ==> unchanged(this)
      ensures !(hasEnableExp && !enabled) && popupDelay != 0 && old(popupTimeout).Some? ==>
                unchanged(this)
      ensures !(hasEnableExp && !enabled) && popupDelay != 0 && old(popupTimeout).None? ==>
                && popupTimeout == Some(old(nextId)) && popupTimers == old(popupTimers) + {old(nextId)}
                && nextId == old(nextId) + 1 && SameConfig() && SameVisibility()
                && transitionTimeout == old(transitionTimeout) && transitionTimers == old(transitionTimers)
      ensures !(hasEnableExp && !enabled) && popupDelay == 0 ==> ShowEffect(env)
    {
      if hasEnableExp && !enabled {
        return;
      }
      if popupDelay != 0 {
        if popupTimeout.None? {
          popupTimeout := Some(nextId);
          popupTimers := popupTimers + {nextId};
          nextId := nextId + 1;
        }
      } else {
        var shown := Show(env);
        if shown {
          Reposition(env);
        }
      }
    }

    /** `hideTooltipBind`: `hide` inside `scope.$apply`. */
    method HideTooltipBind()
      requires Valid()
      modifies this`popupTimeout, this`popupTimers, this`transitionTimeout, this`transitionTimers
      modifies this`tooltip, this`liveScopes, this`nextId, this`isOpen, this`watching
      ensures Valid()
      ensures HideEffect()
    {
      Hide();
    }

    /** `toggleTooltipBind`: show when closed, hide when open. */
    method ToggleTooltipBind(enabled: bool, env: Layout)
      requires Valid()
      modifies this`popupTimeout, this`popupTimers, this`transitionTimeout, this`transitionTimers
      modifies this`tooltip, this`tooltipScope, this`liveScopes, this`nextId
      modifies this`isOpen, this`watching, this`placement, this`popupOffset
      ensures Valid()
      ensures !old(isOpen) && hasEnableExp && !enabled ==> unchanged(this)
      ensures !old(isOpen) && !(hasEnableExp && !enabled) && popupDelay != 0 && old(popupTimeout).Some? ==>
                unchanged(this)
      ensures !old(isOpen) && !(hasEnableExp && !enabled) && popupDelay != 0 && old(popupTimeout).None? ==>
                && popupTimeout == Some(old(nextId)) && popupTimers == old(popupTimers) + {old(nextId)}
                && nextId == old(nextId) + 1 && SameConfig() && SameVisibility()
                && transitionTimeout == old(transitionTimeout) && transitionTimers == old(transitionTimers)
      ensures !old(isOpen) && !(hasEnableExp && !enabled) && popupDelay == 0 ==> ShowEffect(env)
      ensures old(isOpen) ==> HideEffect()
    {
      if !isOpen {
        ShowTooltipBind(enabled, env);
      } else {
        HideTooltipBind();
      }
    }

    /** A pending-show timer `t` fires: `show` runs, and when it returned
        `positionTooltip` the promise callback positions the tooltip again.
        The handle is dropped even when it names another timer. */
    method FirePopupTimer(t: Id, env: Layout)
      requires Valid() && t in popupTimers
      modifies this`popupTimeout, this`popupTimers, this`transitionTimeout, this`transitionTimers
      modifies this`tooltip, this`tooltipScope, this`liveScopes, this`nextId
      modifies this`isOpen, this`watching, this`placement, this`popupOffset
      ensures Valid()
      ensures popupTimers == old(popupTimers) - {t}
      ensures popupTimeout == None && transitionTimeout == None && transitionTimers == {}
      ensures SameConfig()
      ensures old(content) == "" || old(isOpen) ==> SameVisibility() && nextId == old(nextId)
      ensures old(content) != "" && !old(isOpen) ==>
                && isOpen && tooltipScope == Some(old(nextId)) && tooltip == Some(old(nextId) + 1)
                && liveScopes == {old(nextId)} && Placed(env)
    {
      popupTimers := popupTimers - {t};
      var shown := Show(env);
      if shown {
        Reposition(env);
      }
    }

    /** The pending removal `t` fires: `removeTooltip`. */
    method FireTransitionTimer(t: Id)
      requires Valid() && t in transitionTimers
      modifies this`transitionTimers, this`transitionTimeout, this`tooltip, this`liveScopes
      ensures Valid()
      ensures transitionTimers == {} && transitionTimeout == None
      ensures tooltip == None && liveScopes == {} && tooltipScope == old(tooltipScope)
      ensures SameConfig() && !isOpen
      ensures popupTimeout == old(popupTimeout) && popupTimers == old(popupTimers)
    {
      transitionTimers := transitionTimers - {t};
      RemoveTooltip();
    }

    /** The width watcher's listener: reposition when the guard holds. */
    method WidthChanged(oldValue: Option<real>, value: Option<real>, env: Layout)
      requires Valid() && watching
      modifies this`placement, this`popupOffset
      ensures WidthGuard(oldValue, value) ==> Placed(env)
      ensures !WidthGuard(oldValue, value) ==> placement == old(placement) && popupOffset == old(popupOffset)
    {
      if WidthGuard(oldValue, value) {
        Reposition(env);
      }
    }

    /** The content observer: store the text, and hide an open tooltip whose
        text became empty. */
    method ContentChanged(val: string)
      requires Valid()
      modifies this`content
      modifies this`popupTimeout, this`popupTimers, this`transitionTimeout, this`transitionTimers
      modifies this`tooltip, this`liveScopes, this`nextId, this`isOpen, this`watching
      ensures Valid()
      ensures content == val
      ensures val == "" && old(isOpen) ==> Hidden() && !isOpen
      ensures !(val == "" && old(isOpen)) ==>
                && SameVisibility() && popupTimeout == old(popupTimeout) && popupTimers == old(popupTimers)
                && transitionTimeout == old(transitionTimeout) && transitionTimers == old(transitionTimers)
                && nextId == old(nextId)
    {
      content := val;
      if val == "" && isOpen {
        Hide();
      }
    }

    /** The placement observer: the attribute, or the configured placement. */
    method PlacementChanged(val: Option<string>)
      modifies this`placement, this`preferredPlacement
      ensures old(Valid()) ==> Valid()
      ensures placement == preferredPlacement
      ensures val.Some? ==> placement == val.value
      ensures val.None? ==> placement == options.placement.GetOr("")
    {
      placement := if val.Some? then val.value else options.placement.GetOr("");
      preferredPlacement := placement;
    }

    /** The popup-delay observer. */
    method DelayChanged(val: Option<string>)
      modifies this`popupDelay
      ensures popupDelay == DelayParsing.PopupDelay(val, options.popupDelay.GetOr(0))
      ensures old(Valid()) ==> Valid()
    {
      popupDelay := DelayParsing.PopupDelay(val, options.popupDelay.GetOr(0));
    }

    /** The append-to-body observer, given the attribute's parsed value. */
    method AppendToBodyChanged(val: Option<bool>)
      modifies this`appendToBody
      ensures old(Valid()) ==> Valid()
      ensures appendToBody == val.GetOr(old(appendToBody))
    {
      if val.Some? {
        appendToBody := val.value;
      }
    }

    /** `unregisterTriggers`. */
    method UnregisterTriggers()
      modifies this`bindings
      ensures bindings == old(bindings) - UnboundBy(triggers)
      ensures old(Valid()) ==> Valid()
    {
      bindings := bindings - UnboundBy(triggers);
    }

    /** The trigger observer: unbind, then, unless the value is `manual`,
        compute the new pair and bind its handlers. */
    method TriggerChanged(val: Option<string>)
      modifies this`bindings, this`triggers
      ensures old(Valid()) ==> Valid()
      ensures val == Some("manual") ==>
                triggers == old(triggers) && bindings == old(bindings) - UnboundBy(old(triggers))
      ensures val != Some("manual") ==>
                && triggers == GetTriggers(options, triggerMap, defaultTriggerShow, val)
                && bindings == (old(bindings) - UnboundBy(old(triggers))) + BindingsFor(triggers)
    {
      UnregisterTriggers();
      if val != Some("manual") {
        triggers := GetTriggers(options, triggerMap, defaultTriggerShow, val);
        bindings := bindings + BindingsFor(triggers);
      }
    }

    /** The `$locationChangeSuccess` listener: hide an open tooltip. */
    method LocationChanged()
      requires Valid()
      modifies this`popupTimeout, this`popupTimers, this`transitionTimeout, this`transitionTimers
      modifies this`tooltip, this`liveScopes, this`nextId, this`isOpen, this`watching
      ensures Valid()
      ensures closesOnLocationChange && old(isOpen) ==> HideEffect() && !isOpen
      ensures !(closesOnLocationChange && old(isOpen)) ==> unchanged(this)
    {
      if closesOnLocationChange && isOpen {
        Hide();
      }
    }

    /** The `$destroy` handler: cancel both timers (the pending-show handle
        stays set), unbind, and remove the element. `scope.isOpen` keeps its
        value; the width watcher goes with the destroyed scope. */
    method Destroy()
      requires Valid()
      modifies this`transitionTimers, this`popupTimers, this`bindings, this`watching
      modifies this`transitionTimeout, this`tooltip, this`liveScopes
      ensures Valid()
      ensures tooltip == None && liveScopes == {} && transitionTimeout == None && transitionTimers == {}
      ensures popupTimers == old(popupTimers) - TimersOf(old(popupTimeout))
      ensures popupTimeout == old(popupTimeout)
      ensures bindings == old(bindings) - UnboundBy(triggers)
      ensures triggers == old(triggers) && isOpen == old(isOpen) && !watching
      ensures tooltipScope == old(tooltipScope) && nextId == old(nextId)
    {
      transitionTimers := transitionTimers - TimersOf(transitionTimeout);
      popupTimers := popupTimers - TimersOf(popupTimeout);
      UnregisterTriggers();
      watching := false;
      RemoveTooltip();
    }
  }
}
