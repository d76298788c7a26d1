/** The `$tooltip` provider's configuration helpers: the layering of the
    default and global option objects, the trigger map and its lookup, and the
    camel-case to snake-case conversion of the directive name. */
module TooltipOptions {
  import opened Wrappers

  /** An options object. Every key may be absent, as in a JavaScript object
      literal; `placement`, `animation` and `popupDelay` are the keys of
      `defaultOptions`, `trigger` and `appendToBody` the ones a global
      configuration may add. */
  datatype Options = Options(
    placement: Option<string>,
    animation: Option<bool>,
    popupDelay: Option<int>,
    trigger: Option<string>,
    appendToBody: Option<bool>)

  /** The empty object `{}`. */
  const NoOptions: Options := Options(None, None, None, None, None)

  /** `defaultOptions`: top placement, animation on, no popup delay. */
  const DefaultOptions: Options := Options(Some("top"), Some(true), Some(0), None, None)

  /** The initial `triggerMap`: the hide event for each show event. */
  const DefaultTriggerMap: map<string, string> :=
    map["mouseenter" := "mouseleave", "click" := "click", "focus" := "blur"]

  /** The keys of an options object, and the values they can hold. */
  datatype Key = PlacementKey | AnimationKey | PopupDelayKey | TriggerKey | AppendToBodyKey
  datatype Value = Text(text: string) | Flag(flag: bool) | Number(number: int)

  /** `o[k]` as JavaScript reads it: the entry for key `k`, if defined. */
  function Get(o: Options, k: Key): Option<Value>
  {
    match k
    case PlacementKey => if o.placement.Some? then Some(Text(o.placement.value)) else None
    case AnimationKey => if o.animation.Some? then Some(Flag(o.animation.value)) else None
    case PopupDelayKey => if o.popupDelay.Some? then Some(Number(o.popupDelay.value)) else None
    case TriggerKey => if o.trigger.Some? then Some(Text(o.trigger.value)) else None
    case AppendToBodyKey => if o.appendToBody.Some? then Some(Flag(o.appendToBody.value)) else None
  }

  /** `angular.extend(base, over)` restricted to the option keys: every key
      that `over` defines replaces the one in `base`. */
  function Extend(base: Options, over: Options): (r: Options)
    ensures forall k :: Get(r, k) == if Get(over, k).Some? then Get(over, k) else Get(base, k)
  {
    Options(
      if over.placement.Some? then over.placement else base.placement,
      if over.animation.Some? then over.animation else base.animation,
      if over.popupDelay.Some? then over.popupDelay else base.popupDelay,
      if over.trigger.Some? then over.trigger else base.trigger,
      if over.appendToBody.Some? then over.appendToBody else base.appendToBody)
  }

  /** The options every `$tooltip` instance starts from:
      `angular.extend({}, defaultOptions, globalOptions)`. */
  function InstanceOptions(global: Options): (r: Options)
    ensures forall k :: Get(r, k) == if Get(global, k).Some? then Get(global, k) else Get(DefaultOptions, k)
  {
    Extend(Extend(NoOptions, DefaultOptions), global)
  }

  /** Layering is associative, so configuring the provider twice is the same
      as configuring it once with the combined object. */
  lemma ExtendAssociative(a: Options, b: Options, c: Options)
    ensures Extend(Extend(a, b), c) == Extend(a, Extend(b, c))
  {
  }

  /** The empty object is neutral on both sides. */
  lemma ExtendNeutral(a: Options)
    ensures Extend(NoOptions, a) == a && Extend(a, NoOptions) == a
  {
  }

  /** Per key, a global setting wins over the default, which wins over
      nothing; the three default keys are therefore always defined. */
  lemma InstanceOptionsPrecedence(global: Options)
    ensures InstanceOptions(global).placement ==
            (if global.placement.Some? then global.placement else Some("top"))
    ensures InstanceOptions(global).animation ==
            (if global.animation.Some? then global.animation else Some(true))
    ensures InstanceOptions(global).popupDelay ==
            (if global.popupDelay.Some? then global.popupDelay else Some(0))
    ensures InstanceOptions(global).trigger == global.trigger
    ensures InstanceOptions(global).appendToBody == global.appendToBody
  {
  }

  /** The provider object: the global options and the trigger map that every
      `$tooltip` instance created afterwards reads. */
  class TooltipProvider {
    var globalOptions: Options
    var triggerMap: map<string, string>

    constructor ()
      ensures globalOptions == NoOptions && triggerMap == DefaultTriggerMap
    {
      globalOptions := NoOptions;
      triggerMap := DefaultTriggerMap;
    }

    /** `options(value)`: merges `value` into the global options. */
    method SetOptions(value: Options)
      modifies this
      ensures globalOptions == Extend(old(globalOptions), value)
      ensures triggerMap == old(triggerMap)
    {
      globalOptions := Extend(globalOptions, value);
    }

    /** `setTriggers(triggers)`: adds or overrides show-to-hide mappings. */
    method SetTriggers(triggers: map<string, string>)
      modifies this
      ensures triggerMap == old(triggerMap) + triggers
      ensures globalOptions == old(globalOptions)
    {
      triggerMap := triggerMap + triggers;
    }

    /** The options a new `$tooltip(type, prefix, defaultTriggerShow)` call sees. */
    function CurrentOptions(): Options
      reads this
    {
      InstanceOptions(globalOptions)
    }
  }

  /** The show and the hide event of a tooltip. */
  datatype Triggers = Triggers(show: string, hide: string)

  /** JavaScript truthiness of an optional string: defined and non-empty. */
  predicate Truthy(s: Option<string>)
  {
    s.Some? && s.value != ""
  }

  /** `getTriggers(trigger)`: the show event is the first truthy one of the
      attribute value, the global `trigger` option and the directive's default;
      the hide event is the mapped one when the map has a truthy entry for it,
      and the show event itself otherwise. */
  function GetTriggers(options: Options, triggerMap: map<string, string>,
                       defaultTriggerShow: string, trigger: Option<string>): (t: Triggers)
    ensures || (Truthy(trigger) && t.show == trigger.value)
            || (Truthy(options.trigger) && t.show == options.trigger.value)
            || t.show == defaultTriggerShow
    ensures t.hide == t.show || (t.show in triggerMap && t.hide == triggerMap[t.show])
    ensures defaultTriggerShow != "" ==> t.show != "" && t.hide != ""
  {
    var show :=
      if Truthy(trigger) then trigger.value
      else if Truthy(options.trigger) then options.trigger.value
      else defaultTriggerShow;
    var hideEvent := if show in triggerMap && triggerMap[show] != "" then triggerMap[show] else show;
    Triggers(show, hideEvent)
  }

  /** The precedence of the show event. */
  lemma ShowTriggerPrecedence(options: Options, triggerMap: map<string, string>,
                              defaultTriggerShow: string, trigger: Option<string>)
    ensures Truthy(trigger) ==>
              GetTriggers(options, triggerMap, defaultTriggerShow, trigger).show == trigger.value
    ensures !Truthy(trigger) && Truthy(options.trigger) ==>
              GetTriggers(options, triggerMap, defaultTriggerShow, trigger).show == options.trigger.value
    ensures !Truthy(trigger) && !Truthy(options.trigger) ==>
              GetTriggers(options, triggerMap, defaultTriggerShow, trigger).show == defaultTriggerShow
  {
  }

  /** A show event with no (truthy) hide event in the map toggles: the pair
      has one event, and a pair has one event exactly when the show event is
      unmapped or mapped to itself. */
  lemma TogglesIffUnmappedOrSelfMapped(options: Options, triggerMap: map<string, string>,
                                       defaultTriggerShow: string, trigger: Option<string>)
    ensures var t := GetTriggers(options, triggerMap, defaultTriggerShow, trigger);
            t.show == t.hide <==>
              (t.show !in triggerMap || triggerMap[t.show] == "" || triggerMap[t.show] == t.show)
    ensures var t := GetTriggers(options, triggerMap, defaultTriggerShow, trigger);
            t.show != t.hide ==> t.show in triggerMap && t.hide == triggerMap[t.show]
  {
  }

  /** With the initial map: hovering pairs `mouseenter` with `mouseleave`,
      `focus` with `blur`, and `click` toggles, as does any unmapped event. */
  lemma DefaultTriggerPairs(options: Options, defaultTriggerShow: string, event: string)
    ensures GetTriggers(options, DefaultTriggerMap, defaultTriggerShow, Some("mouseenter"))
            == Triggers("mouseenter", "mouseleave")
    ensures GetTriggers(options, DefaultTriggerMap, defaultTriggerShow, Some("focus"))
            == Triggers("focus", "blur")
    ensures GetTriggers(options, DefaultTriggerMap, defaultTriggerShow, Some("click"))
            == Triggers("click", "click")
    ensures event != "" && event !in DefaultTriggerMap ==>
              GetTriggers(options, DefaultTriggerMap, defaultTriggerShow, Some(event))
              == Triggers(event, event)
  {
  }

  predicate IsUpper(c: char)
  {
    'A' <= c <= 'Z'
  }

  predicate IsLower(c: char)
  {
    'a' <= c <= 'z'
  }

  /** `letter.toLowerCase()` for the letters the pattern `/[A-Z]/` matches. */
  function ToLower(c: char): (r: char)
    ensures !IsUpper(r)
    ensures IsUpper(c) ==> IsLower(r)
    ensures !IsUpper(c) ==> r == c
  {
    if IsUpper(c) then (c as int + 32) as char else c
  }

  function ToUpper(c: char): (r: char)
    ensures IsLower(c) ==> IsUpper(r) && ToLower(r) == c
    ensures !IsLower(c) ==> r == c
  {
    if IsLower(c) then (c as int - 32) as char else c
  }

  /** `snake_case(name)`: every upper-case ASCII letter becomes its lower-case
      letter, preceded by `-` unless it is the first character. */
  function SnakeCase(name: string): (r: string)
    ensures forall i :: 0 <= i < |r| ==> !IsUpper(r[i])
    ensures |name| > 0 ==> |r| > 0 && r[0] == ToLower(name[0])
  {
    if name == [] then [] else [ToLower(name[0])] + SnakeTail(name[1..])
  }

  /** The replacement for the characters at positions other than the first. */
  function SnakeTail(s: string): (r: string)
    ensures forall i :: 0 <= i < |r| ==> !IsUpper(r[i])
    ensures |r| >= |s|
  {
    if s == [] then []
    else (if IsUpper(s[0]) then ['-', ToLower(s[0])] else [s[0]]) + SnakeTail(s[1..])
  }

  /** The inverse direction, as a reference: `-x` becomes `X`. */
  function CamelCase(s: string): string
  {
    if |s| >= 2 && s[0] == '-' then [ToUpper(s[1])] + CamelCase(s[2..])
    else if s == [] then []
    else [s[0]] + CamelCase(s[1..])
  }

  predicate NoDash(s: string)
  {
    forall i :: 0 <= i < |s| ==> s[i] != '-'
  }

  lemma {:induction false} SnakeTailRoundTrip(s: string)
    requires NoDash(s)
    ensures CamelCase(SnakeTail(s)) == s
  {
    if s != [] {
      assert NoDash(s[1..]) by {
        forall i | 0 <= i < |s[1..]| ensures s[1..][i] != '-' {
          assert s[1..][i] == s[i + 1];
        }
      }
      SnakeTailRoundTrip(s[1..]);
      var rest := SnakeTail(s[1..]);
      if IsUpper(s[0]) {
        var t := ['-', ToLower(s[0])] + rest;
        assert t[2..] == rest;
        assert CamelCase(t) == [ToUpper(ToLower(s[0]))] + CamelCase(rest);
      } else {
        var t := [s[0]] + rest;
        assert t[1..] == rest;
        assert s[0] != '-';
      }
    }
  }

  /** `snake_case` loses nothing on names without dashes that start in lower
      case, such as `tooltipHtmlUnsafe`: converting back restores the name. */
  lemma {:induction false} SnakeCaseRoundTrip(name: string)
    requires NoDash(name)
    requires name == [] || !IsUpper(name[0])
    ensures CamelCase(SnakeCase(name)) == name
  {
    if name != [] {
      assert NoDash(name[1..]) by {
        forall i | 0 <= i < |name[1..]| ensures name[1..][i] != '-' {
          assert name[1..][i] == name[i + 1];
        }
      }
      SnakeTailRoundTrip(name[1..]);
      var t := [name[0]] + SnakeTail(name[1..]);
      assert t[1..] == SnakeTail(name[1..]);
      assert name[0] != '-';
    }
  }

  /** A name with no upper-case letter is left as it is. */
  lemma {:induction false} SnakeTailNoUpper(s: string)
    requires forall i :: 0 <= i < |s| ==> !IsUpper(s[i])
    ensures SnakeTail(s) == s
  {
    if s != [] {
      SnakeTailNoUpper(s[1..]);
      assert s == [s[0]] + s[1..];
    }
  }
}
