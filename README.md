# The `$tooltip` factory of angular-ui-bootstrap, in Dafny

This project models the core of `src/tooltip/tooltip.js`: the service behind
the `tooltip` and `popover` directives. Each directive instance attaches a
popup to a target element. Event triggers show, hide or toggle it, optionally
after a delay. An animated hide removes the popup after a transition timer.
Each time the popup is shown it is positioned. By default it takes the
preferred side, or `bottom` when that name is unknown, as it is. Only when
the popup is appended to the body are the four sides searched for one that
fits inside the body.

The model is split into modules:

- `Wrappers` (`wrappers.dfy`): `Option`. `None` stands for an undefined
  attribute, handle or width and for `null`. In an options object it stands
  for an absent key; a key present with the value `undefined` or `null` is
  not distinguished from an absent one.
- `TooltipOptions` (`options.dfy`) holds the provider's configuration and the
  pure helpers:
  - the provider object with `options()` and `setTriggers()`;
  - the layering `angular.extend({}, defaultOptions, globalOptions)`;
  - `getTriggers`;
  - `snake_case`.
- `DelayParsing` (`delay.dfy`): the popup-delay observer's
  `parseInt(val, 10)` with its `NaN` fallback. The parse skips leading white
  space, reads an optional sign and the longest run of decimal digits, and
  ignores the rest.
- `Placement` (`placement.dfy`): `intersection` and `positionTooltip`.
  - The class `Corners` is the mutable `{x1, y1, x2, y2}` object. The method
    `Intersection` overwrites it in place, as the code does.
  - `PositionTooltip` and `SearchFrom` hold the `do … while` loop. They are
    proved equal to the functional specification `Resolve` / `Scan`.
  - Properties of the specification are proved as lemmas: first fit,
    earliest strictly-largest area, and that the result is always one of the
    candidates.
- `TooltipController` (`controller.dfy`): the class `TooltipLink` is the
  closure of one `link` call.
  - Its fields are the closure variables and the scope properties.
  - Its methods are the event handlers, `show`, `hide`, `createTooltip`,
    `removeTooltip`, the attribute observers, the `$destroy` and
    `$locationChangeSuccess` listeners. `FirePopupTimer` and
    `FireTransitionTimer` stand in for `$timeout` callbacks firing.
  - Timers, tooltip elements and tooltip scopes are named by numbers from one
    counter, so every one created is new.
  - A timer is pending while its number is in `popupTimers` or
    `transitionTimers`. These sets are kept apart from the handles
    `popupTimeout` and `transitionTimeout`, because the code sometimes drops
    a handle without cancelling its timer, and sometimes cancels a timer
    without dropping the handle.
  - Every handler keeps the invariant `Valid()`.
- `TooltipScenarios` (`scenarios.dfy`): event sequences run on a freshly
  linked instance of an unconfigured provider, each with its outcome proved.

The model keeps the quirks of the code:

- `intersection` does not clamp: disjoint boxes give a negative width or
  height, and their product can be positive. `Placement.OffscreenSideCanWin`
  exhibits a popup placed entirely off the body that beats partly visible
  sides.
- `removeTooltip` clears `tooltip` twice and never clears `tooltipScope`:
  the handle of a destroyed scope stays set.
- `unregisterTriggers` unbinds only the show and the hide handler, so a
  toggle handler bound for a single-event trigger survives it.
- Showing again while an animated removal is pending does not reuse the
  element that is still attached. `createTooltip` removes it and links a new
  element to a new scope.
- `show` sets `popupTimeout = null` without cancelling that timer. An
  immediate show while a delayed one is pending therefore orphans the
  pending timer: `hide` can no longer cancel it, and when it fires it
  reopens the tooltip. With a toggle trigger this takes three clicks around
  a change of the delay to zero. Beside the orphan, a second delayed show
  can be scheduled.
- The `$destroy` handler cancels the pending show but leaves its handle set.

## Model

| member | source | states |
|---|---|---|
| TooltipOptions.Extend | src/tooltip/tooltip.js:69 | `angular.extend` key by key: every key defined in the second object takes its value, every other key keeps the first object's |
| TooltipOptions.InstanceOptions | src/tooltip/tooltip.js:69 | each key of an instance's options is the global setting when defined, else the default |
| TooltipOptions.ExtendAssociative | src/tooltip/tooltip.js:39-41 | merging options into the global object twice equals merging once with the combined object |
| TooltipOptions.ExtendNeutral | src/tooltip/tooltip.js:69 | extending from `{}` or with `{}` changes nothing |
| TooltipOptions.InstanceOptionsPrecedence | src/tooltip/tooltip.js:14-18 | for each key of an instance's options, a global setting wins over the default: top placement, animation on, delay 0; `trigger` and `appendToBody` come only from the global object |
| TooltipOptions.TooltipProvider.constructor | src/tooltip/tooltip.js:21-28 | the provider starts with no global options and the map mouseenter→mouseleave, click→click, focus→blur |
| TooltipOptions.TooltipProvider.CurrentOptions | src/tooltip/tooltip.js:69 | the options a new `$tooltip` call sees: the defaults layered under the current global options |
| TooltipOptions.TooltipProvider.SetOptions | src/tooltip/tooltip.js:39-41 | `options(value)` merges `value` over the global options and leaves the trigger map alone |
| TooltipOptions.TooltipProvider.SetTriggers | src/tooltip/tooltip.js:48-50 | `setTriggers` adds or overrides mappings and leaves the options alone |
| TooltipOptions.GetTriggers | src/tooltip/tooltip.js:85-92 | the show event is the attribute, the global trigger or the default; the hide event is the show event or its mapping; neither is empty when the default is not |
| TooltipOptions.ShowTriggerPrecedence | src/tooltip/tooltip.js:86 | the show event is the truthy attribute value, else the truthy global `trigger`, else the directive's default |
| TooltipOptions.TogglesIffUnmappedOrSelfMapped | src/tooltip/tooltip.js:87 | show and hide coincide exactly when the show event has no own entry in the map, is mapped to "" or to itself; otherwise hide is the mapped event (inherited `Object.prototype` names: see Left out) |
| TooltipOptions.DefaultTriggerPairs | src/tooltip/tooltip.js:85-92 | with the initial map, mouseenter pairs with mouseleave, focus with blur, and click and every event without an own entry toggle (inherited `Object.prototype` names: see Left out) |
| TooltipOptions.ToLower | src/tooltip/tooltip.js:59 | `toLowerCase` maps A–Z to a–z and leaves other characters alone |
| TooltipOptions.ToUpper | src/tooltip/tooltip.js:59 | the inverse of `ToLower` on a–z, used by the reference inverse `CamelCase` |
| TooltipOptions.SnakeCase | src/tooltip/tooltip.js:55-61 | the result has no upper-case letter, and its first character is the lowered first character |
| TooltipOptions.SnakeTail | src/tooltip/tooltip.js:58-60 | past the first position no upper-case letter remains, and the text only grows |
| TooltipOptions.SnakeTailRoundTrip | src/tooltip/tooltip.js:58-60 | on text without dashes, turning each `-x` back into `X` restores the input |
| TooltipOptions.SnakeCaseRoundTrip | src/tooltip/tooltip.js:55-61 | a dash-free name starting in lower case, like `tooltipHtmlUnsafe`, is recovered from its snake case |
| TooltipOptions.SnakeTailNoUpper | src/tooltip/tooltip.js:55-61 | a name without upper-case letters is unchanged |
| DelayParsing.IsSpace | src/tooltip/tooltip.js:410 | the blank characters `parseInt` skips; none of them is a digit or a sign |
| DelayParsing.TrimStart | src/tooltip/tooltip.js:410 | `parseInt` drops the leading white space: the result is a suffix that starts with a non-blank character |
| DelayParsing.LeadingDigits | src/tooltip/tooltip.js:410 | the longest prefix of decimal digits: all digits, and the next character is not a digit |
| DelayParsing.DigitsValue | src/tooltip/tooltip.js:410 | the value of a digit run: one digit is its own value, and the value is zero exactly when every digit is `0` |
| DelayParsing.ParseTrimmed | src/tooltip/tooltip.js:410 | after the blanks: a leading digit always gives a non-negative number, a minus sign a non-positive one, and any other first character `NaN` |
| DelayParsing.ParseInt | src/tooltip/tooltip.js:410 | the result is a number exactly when digits follow the blanks and an optional sign |
| DelayParsing.PopupDelay | src/tooltip/tooltip.js:409-412 | the parsed attribute when it is a number, otherwise the configured `popupDelay` (an absent attribute is `NaN`) |
| DelayParsing.Decimal | src/tooltip/tooltip.js:410 | the decimal text of a natural number is a non-empty run of digits (the reference the parser is checked against) |
| DelayParsing.DigitsValueOfDecimal | src/tooltip/tooltip.js:410 | reading the decimal text of `n` gives `n` |
| DelayParsing.LeadingDigitsOfDigits | src/tooltip/tooltip.js:410 | the digit run of digits followed by a non-digit is exactly those digits |
| DelayParsing.ParseIntRoundTrip | src/tooltip/tooltip.js:410 | `parseInt` of any integer's decimal text, followed by anything not starting with a digit, gives that integer back (`"300ms"` is 300) |
| DelayParsing.ParseDigits | src/tooltip/tooltip.js:410 | a run of digits followed by a non-digit parses to its value |
| DelayParsing.ParseNegative | src/tooltip/tooltip.js:410 | a `-` before such a run parses to the negated value |
| DelayParsing.ParseSigned | src/tooltip/tooltip.js:410 | a trimmed text with a minus sign parses to the negated value of its digit run |
| DelayParsing.TrimStartKeeps | src/tooltip/tooltip.js:410 | a text starting with a non-blank character is already trimmed |
| DelayParsing.ParseIntSkipsSpace | src/tooltip/tooltip.js:410 | leading white space does not change the parse |
| DelayParsing.TrimStartSkipsSpace | src/tooltip/tooltip.js:410 | trimming removes any prefix of white space |
| DelayParsing.NotANumberFallsBack | src/tooltip/tooltip.js:409-412 | a text that starts with neither a digit nor a sign is `NaN`, and the configured delay stays in force |
| Placement.StartIndex | src/tooltip/tooltip.js:175-179 | the start index is always a valid index of the candidate list |
| Placement.StartIndexIsIndexOf | src/tooltip/tooltip.js:175-179 | `indexOf` of the preferred name in `['bottom','right','top','left']`, or 0 when it is absent |
| Placement.StepIsRemainder | src/tooltip/tooltip.js:225 | the k-th index of the walk from `start` is `(start + k) % 4` |
| Placement.NextCandidate | src/tooltip/tooltip.js:225-226 | `i = (i + 1) % 4` moves to the next index, and `i != start` fails exactly after four candidates |
| Placement.CandidatesCoverSides | src/tooltip/tooltip.js:189-226 | from any start, the walk visits every side |
| Placement.Max | src/tooltip/tooltip.js:150-155 | the larger of two coordinates |
| Placement.Min | src/tooltip/tooltip.js:156-161 | the smaller of two coordinates |
| Placement.Clip | src/tooltip/tooltip.js:149-170 | what `intersection` returns; its corners and sign are stated by the lemmas below |
| Placement.ClipCorners | src/tooltip/tooltip.js:149-170 | `x = max(r1.x1, r2.x1)`, `width = min(r1.x2, r2.x2) - max(r1.x1, r2.x1)`, and likewise for y |
| Placement.ClipKeepsSizeIffInside | src/tooltip/tooltip.js:149-170 | the clipped box keeps r1's width and height exactly when r1 lies inside r2, and is then r1 itself |
| Placement.ClipOfDisjointIsNegative | src/tooltip/tooltip.js:162-163 | the size is not clamped: boxes apart on an axis give a negative width or height |
| Placement.Corners.constructor | src/tooltip/tooltip.js:199-210 | the corner objects built for the popup and the body |
| Placement.Intersection | src/tooltip/tooltip.js:149-170 | returns the clipped rectangle of the two boxes as they were before the call, and leaves that rectangle's x, y, width, height in r1's fields |
| Placement.ClipAt | src/tooltip/tooltip.js:198-211 | clipping the popup box at a position against `{0, 0, body.width, body.height}` |
| Placement.PopupBox | src/tooltip/tooltip.js:199-204 | the popup's corners at a position: `{left, top, left + width, top + height}` |
| Placement.BodyBox | src/tooltip/tooltip.js:205-210 | the body's corners: `{0, 0, body.width, body.height}` |
| Placement.RectArea | src/tooltip/tooltip.js:213 | `rect.width * rect.height`, not clamped at zero |
| Placement.Fits | src/tooltip/tooltip.js:214 | the not-clipped test: the clipped size equals the popup's size |
| Placement.Keep | src/tooltip/tooltip.js:220-223 | the record after a candidate that is clipped: always set, and either the previous record or that candidate |
| Placement.Scan | src/tooltip/tooltip.js:189-226 | the search loop as a recursive specification; its first-fit and best-fit properties are the lemmas below |
| Placement.Resolve | src/tooltip/tooltip.js:172-226 | the placement `positionTooltip` chooses, with and without the body box |
| Placement.ScanStep | src/tooltip/tooltip.js:213-223 | one loop iteration: a candidate that is not clipped ends the search; otherwise the record is replaced only for a strictly larger area |
| Placement.PositionTooltip | src/tooltip/tooltip.js:172-234 | the chosen side and offsets are the ones the specification `Resolve` gives |
| Placement.SearchFrom | src/tooltip/tooltip.js:189-226 | without a body box, the start candidate at its position; otherwise the cyclic scan `Scan` from the start |
| Placement.ResolveWithoutBody | src/tooltip/tooltip.js:193-197 | without a body box, the result is the preferred side (bottom for an unknown name) at exactly `positionElements`' position, whatever the popup size |
| Placement.ScanFirstFit | src/tooltip/tooltip.js:214-218 | the scan returns the first remaining candidate that is not clipped |
| Placement.ResolveFirstFit | src/tooltip/tooltip.js:189-226 | when some side fits, the result is the first fitting side in cyclic order from the start |
| Placement.BestOfPrefixReplaced | src/tooltip/tooltip.js:220-223 | a strictly larger area makes the current candidate the best so far |
| Placement.BestOfPrefixKept | src/tooltip/tooltip.js:220-223 | an area that is not strictly larger leaves the best so far |
| Placement.ScanBestFit | src/tooltip/tooltip.js:189-226 | when nothing fits, the scan returns a candidate whose area is maximal and strictly larger than every earlier one |
| Placement.ResolveBestFit | src/tooltip/tooltip.js:189-226 | when no side fits, the result is the earliest side in cyclic order with the largest area; ties keep the earlier side |
| Placement.ScanIsCandidate | src/tooltip/tooltip.js:189-226 | the scan's result is one of the candidates at its own position |
| Placement.ResolveIsCandidate | src/tooltip/tooltip.js:189-226 | the result is always one of the four sides at the position `positionElements` gives for it |
| Placement.OffscreenSideCanWin | src/tooltip/tooltip.js:213 | because areas of clipped boxes are not clamped, a popup placed entirely off the body can win over partly visible ones |
| TooltipController.BindingsFor | src/tooltip/tooltip.js:421-433 | the toggle handler is bound exactly when show and hide coincide |
| TooltipController.UnboundBy | src/tooltip/tooltip.js:414-419 | the show and hide handlers of a pair are unbound exactly when its events differ; the toggle handler never is |
| TooltipController.WidthGuard | src/tooltip/tooltip.js:282 | an undefined width on either side, or an unchanged width, never repositions; a repositioning width is positive |
| TooltipController.ToggleBindingSurvivesUnbind | src/tooltip/tooltip.js:414-433 | a toggle binding survives `unregisterTriggers`; show/hide bindings do not |
| TooltipController.TooltipLink.constructor | src/tooltip/tooltip.js:112-119 | link starts closed, with no element, no timer and no binding; triggers from `getTriggers(undefined)`; `appendToBody` from the options; `scope.animation` from the attribute, else the options (lines 463-464) |
| TooltipController.TooltipLink.AtMostOneRemoval | src/tooltip/tooltip.js:356-360 | at most one removal is ever pending, and none while the tooltip is open |
| TooltipController.TooltipLink.Reposition | src/tooltip/tooltip.js:172-234 | `scope.placement` and the popup offsets become the result of the placement search for the current layout |
| TooltipController.TooltipLink.RemoveTooltip | src/tooltip/tooltip.js:381-391 | the removal handle and the element are cleared and the scope destroyed, but the scope handle stays set |
| TooltipController.TooltipLink.CreateTooltip | src/tooltip/tooltip.js:365-379 | any existing element is removed, and a new element on a new scope is the only live scope |
| TooltipController.TooltipLink.DropHandles | src/tooltip/tooltip.js:296-303 | the pending-show handle is dropped without cancelling its timer, and a pending removal is cancelled |
| TooltipController.TooltipLink.Open | src/tooltip/tooltip.js:305-329 | a new element is open, watched, and placed by the search |
| TooltipController.TooltipLink.Show | src/tooltip/tooltip.js:294-334 | `show` always clears the handles and cancels a removal; with empty content or when open nothing else changes, otherwise exactly one new element is open and positioned; the result says which |
| TooltipController.TooltipLink.CancelShow | src/tooltip/tooltip.js:339-341 | the pending show is cancelled and its handle dropped |
| TooltipController.TooltipLink.Close | src/tooltip/tooltip.js:348-362 | the tooltip closes; with animation a single removal is pending, otherwise the element is gone at once |
| TooltipController.TooltipLink.Hide | src/tooltip/tooltip.js:337-363 | `hide` always cancels the pending show; when closed nothing else changes; when open it closes and schedules one removal or removes at once |
| TooltipController.TooltipLink.ShowTooltipBind | src/tooltip/tooltip.js:252-266 | nothing when the enable expression is false; with a delay, one new timer unless a handle is set, in which case nothing changes; with no delay, the effect of `show` |
| TooltipController.TooltipLink.HideTooltipBind | src/tooltip/tooltip.js:268-272 | the effect of `hide` |
| TooltipController.TooltipLink.ToggleTooltipBind | src/tooltip/tooltip.js:243-249 | closed: the effect of `showTooltipBind` in each of its cases (disabled, delayed with or without a pending handle, immediate); open: the effect of `hide` |
| TooltipController.TooltipLink.FirePopupTimer | src/tooltip/tooltip.js:260-261 | a pending show fires: that timer is gone and `show` runs, positioning again when it opened |
| TooltipController.TooltipLink.FireTransitionTimer | src/tooltip/tooltip.js:358 | the pending removal fires: no removal is left and the element is removed, its scope handle kept |
| TooltipController.TooltipLink.WidthChanged | src/tooltip/tooltip.js:277-285 | repositions exactly when both widths are positive and differ |
| TooltipController.TooltipLink.ContentChanged | src/tooltip/tooltip.js:396-402 | stores the text; empty text on an open tooltip has the whole effect of `hide` on timers, element, scopes and placement; otherwise the visibility and all timers are unchanged |
| TooltipController.TooltipLink.PlacementChanged | src/tooltip/tooltip.js:404-407 | placement and preferred placement become the attribute, or the configured placement when it is absent |
| TooltipController.TooltipLink.DelayChanged | src/tooltip/tooltip.js:409-412 | the delay becomes the parsed attribute or the configured delay |
| TooltipController.TooltipLink.AppendToBodyChanged | src/tooltip/tooltip.js:466-468 | a defined value replaces the setting, an undefined one keeps it |
| TooltipController.TooltipLink.UnregisterTriggers | src/tooltip/tooltip.js:414-419 | removes only the show and the hide handler of the current pair |
| TooltipController.TooltipLink.TriggerChanged | src/tooltip/tooltip.js:421-434 | unbinds, then (unless `manual`) binds one toggle handler or a show and a hide handler for the new pair |
| TooltipController.TooltipLink.LocationChanged | src/tooltip/tooltip.js:473-479 | with the listener registered, an open tooltip is hidden; otherwise nothing changes |
| TooltipController.TooltipLink.Destroy | src/tooltip/tooltip.js:482-487 | both timers are cancelled, the current handlers unbound, the element removed; the pending-show handle stays set |
| TooltipScenarios.DelayText | src/tooltip/tooltip.js:409-412 | the decimal text of a delay, which the observer reads back as that delay |
| TooltipScenarios.Instance | src/tooltip/tooltip.js:66-69 | an instance of an unconfigured provider: default options and trigger map, closed, no timer, no binding |
| TooltipScenarios.Created | src/tooltip/tooltip.js:112-119 | a freshly linked instance after its delay and content observers ran |
| TooltipScenarios.SetDelay | src/tooltip/tooltip.js:409-412 | the delay observer on the decimal text of `ms` sets the delay to `ms` |
| TooltipScenarios.Link | src/tooltip/tooltip.js:396-434 | after the first observer runs, an instance with defaults is bound to mouseenter/mouseleave |
| TooltipScenarios.ClickToggles | src/tooltip/tooltip.js:243-249 | with a click trigger, one toggle handler is bound; the first click opens and the second closes |
| TooltipScenarios.HoverShorterThanDelay | src/tooltip/tooltip.js:256-262 | leaving before the delay expires leaves the tooltip closed, with no timer and no element ever built |
| TooltipScenarios.DestroyDuringPendingShow | src/tooltip/tooltip.js:482-487 | destroy cancels a pending show but keeps its stale handle; no element was built |
| TooltipScenarios.Orphaned | src/tooltip/tooltip.js:243-262 | with a click trigger: a click schedules a show, the delay becomes 0, a click shows at once and a click hides; the first timer is still pending with no handle |
| TooltipScenarios.OrphanPopupTimer | src/tooltip/tooltip.js:294-296 | the orphaned timer reopens the tooltip after `hide` |
| TooltipScenarios.TwoPendingShows | src/tooltip/tooltip.js:257-262 | the "only one scheduled show" guard can be bypassed: after the orphan, a click with a delay again schedules a second show, and two are pending |
| TooltipScenarios.ToggleHandlerLeaks | src/tooltip/tooltip.js:414-419 | a toggle handler is still bound after destroy |
| TooltipScenarios.EmptyContentIsIgnored | src/tooltip/tooltip.js:305-308 | an empty tooltip never opens and builds no element |
| TooltipScenarios.ReshowDuringRemoval | src/tooltip/tooltip.js:365-369 | a re-show during a pending removal cancels it and replaces the element by a new one; one live scope remains |
| TooltipScenarios.RemovalKeepsScopeHandle | src/tooltip/tooltip.js:387-390 | after the removal fires, no element and no live scope remain, but the scope handle is still set |

## Left out

- TooltipOptions.Extend: an own key holding `undefined` or `null` is
  treated as absent, so the first object's value is kept. `angular.extend`
  copies such a key. `Options` has no value for a present but undefined
  key.
- TooltipOptions.InstanceOptions: a global key set to `undefined` or `null`
  gives the default here. In the code the instance option then is
  `undefined` or `null`; for `placement` the start side then is `bottom`
  rather than `top`.
- TooltipOptions.InstanceOptionsPrecedence: states the precedence only for
  keys that are absent or hold a value; the case of a key present with
  `undefined` or `null` follows the two lines above.
- TooltipOptions.GetTriggers: the trigger map is a `map` holding only its
  own entries. The code's map is an object literal, so `triggerMap[show]`
  also finds members inherited from `Object.prototype` (`constructor`,
  `toString`, `valueOf`, `hasOwnProperty`, …). For such a show name the
  model finds no entry and toggles, while the code gets a function as the
  hide value and binds separate show and hide handlers.
- TooltipOptions.TogglesIffUnmappedOrSelfMapped: "unmapped" means "no own
  entry"; for a show name inherited from `Object.prototype` the code does
  not toggle, as the line above says.
- TooltipOptions.DefaultTriggerPairs: "every unmapped event toggles" holds
  for names without an own entry that are not inherited from
  `Object.prototype`; for those the code binds a show and a hide handler.
- `$position.positionElements` and `$position.offset` are not part of this
  model. Their results, and the popup's `offsetWidth` and `offsetHeight`,
  are parameters (`Layout`, and `pos`, `w`, `h`, `body` in `Placement`).
- DOM work is left out: `css`, `append`, `after`, `remove`, `$compile`'s
  linking, and the `'px'` suffix (lines 229-230). The model keeps the
  numeric offsets.
- `setTarget` and its bounding-rectangle snapshot (lines 123-147) are left
  out. The target is always the host element.
- The `tt-visible` and `tt-target` watchers (lines 436-461) are left out.
  They only schedule `show` or `hide` through `$timeout`.
- Angular plumbing is left out: `$apply`, `$digest`, `$observe` and
  `$watch`. Observers are plain methods that the caller runs. The width
  watcher is a flag plus the guard predicate. `$parse` of the
  append-to-body attribute is modelled as an already parsed `Option<bool>`.
- Timer durations are left out: the popup delay and the 500 ms removal
  delay. A timer fires only when `FirePopupTimer` or `FireTransitionTimer`
  is called. Any pending timer may fire at any time, and ordering by time
  is not modelled.
- `TooltipController.TooltipLink.FirePopupTimer` runs `show` and the
  promise callback as one step. The gap between them, where another event
  could run in between, is not modelled.
- `TooltipController.TooltipLink.Destroy` stops the width watcher because
  the directive scope is destroyed. The code does not stop it itself.
- Content uses `""` both for undefined and for empty text; both are falsy.
  The delay uses `0` for undefined; both are falsy for `showTooltipBind`.
- JavaScript numbers are `real`. Floating-point rounding is not modelled.
- jqLite can bind the same handler twice. Bindings here are a set, so
  duplicates are not counted.
- `TooltipController.TooltipLink.constructor` takes the trigger map by
  value. The code shares the provider's map object, so a later
  `setTriggers` would also reach existing instances.
- `DelayParsing.IsSpace` covers the ASCII blanks and the Unicode space
  characters listed there. Locale-specific or newer white-space characters
  are not checked.
- The template transclusion directive (lines 495-519) and the popover file
  are left out: the latter only registers directives and templates.
