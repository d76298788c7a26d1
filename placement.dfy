/** The placement search of `positionTooltip`: try the four sides of the
    target in a fixed cyclic order, starting at the preferred one, and keep the
    first side whose popup box lies entirely inside the body box, or else the
    side whose clipped box has the largest `width * height`.

    The position of the popup for a side comes from `$position.positionElements`,
    which is not part of this model: it is the parameter `pos`. The popup's
    `offsetWidth` and `offsetHeight` are the parameters `w` and `h`, and the
    body's `$position.offset` is the optional parameter `body` (present only
    when the tooltip is appended to the body). */
module Placement {
  import opened Wrappers

  datatype Side = Bottom | Right | Top | Left

  /** The placement name the scope and the attributes use. */
  function SideName(s: Side): string
  {
    match s
    case Bottom => "bottom"
    case Right => "right"
    case Top => "top"
    case Left => "left"
  }

  /** The candidate list `['bottom', 'right', 'top', 'left']`. */
  const Possible: seq<Side> := [Bottom, Right, Top, Left]

  /** What `positionElements` returns: the popup's offsets. */
  datatype Position = Position(top: real, left: real)

  /** A box given by its corners, as `{x1, y1, x2, y2}`. */
  datatype Box = Box(x1: real, y1: real, x2: real, y2: real)

  /** The result of `intersection`: `{x, y, width, height}`. */
  datatype Rect = Rect(x: real, y: real, width: real, height: real)

  /** The outcome of a search: `scope.placement` and the offsets written to
      the popup's style. */
  datatype Choice = Choice(side: Side, top: real, left: real)

  /** The best candidate so far: `{area, top, left}` with its side. */
  datatype Best = Best(area: real, choice: Choice)

  /** `possible.indexOf(preferred)`, or 0 when the name is not in the list. */
  function StartIndex(preferred: string): (i: nat)
    ensures i < |Possible|
  {
    if preferred == "bottom" then 0
    else if preferred == "right" then 1
    else if preferred == "top" then 2
    else if preferred == "left" then 3
    else 0
  }

  /** `StartIndex` is `indexOf`: the index of the side with that name when
      there is one, and 0 otherwise. */
  lemma StartIndexIsIndexOf(preferred: string)
    ensures (exists k :: 0 <= k < |Possible| && SideName(Possible[k]) == preferred) ==>
              SideName(Possible[StartIndex(preferred)]) == preferred
    ensures (forall k :: 0 <= k < |Possible| ==> SideName(Possible[k]) != preferred) ==>
              StartIndex(preferred) == 0
  {
  }

  /** The index reached `k` steps after `start` in the cyclic walk
      `i = (i + 1) % possible.length`, for fewer than four steps. */
  function Step(start: nat, k: nat): nat
    requires start < |Possible| && k < |Possible|
  {
    if start + k < |Possible| then start + k else start + k - |Possible|
  }

  function Candidate(start: nat, k: nat): Side
    requires start < |Possible| && k < |Possible|
  {
    Possible[Step(start, k)]
  }

  /** The walk is the remainder modulo four. */
  lemma StepIsRemainder(start: nat, k: nat)
    requires start < |Possible| && k < |Possible|
    ensures Step(start, k) == (start + k) % |Possible|
  {
  }

  /** One step of `i = (i + 1) % possible.length` moves to the next index of
      the walk, and the walk is back at its start after exactly four steps. */
  lemma NextCandidate(start: nat, k: nat)
    requires start < |Possible| && k < |Possible|
    ensures k + 1 < |Possible| ==> (Step(start, k) + 1) % |Possible| == Step(start, k + 1)
    ensures (Step(start, k) + 1) % |Possible| == start <==> k + 1 == |Possible|
  {
  }

  /** Every start visits every side within four steps. */
  lemma {:induction false} CandidatesCoverSides(start: nat, s: Side)
    requires start < |Possible|
    ensures exists k :: 0 <= k < |Possible| && Candidate(start, k) == s
  {
    var target := match s case Bottom => 0 case Right => 1 case Top => 2 case Left => 3;
    var k := if start <= target then target - start else target + 4 - start;
    assert Step(start, k) == target;
    assert Candidate(start, k) == s;
  }

  function Max(a: real, b: real): (m: real)
    ensures m >= a && m >= b && (m == a || m == b)
  {
    if a < b then b else a
  }

  function Min(a: real, b: real): (m: real)
    ensures m <= a && m <= b && (m == a || m == b)
  {
    if a > b then b else a
  }

  /** What `intersection(r1, r2)` returns: the left-top corner is the larger
      of the two, the right-bottom corner the smaller, and the size is their
      difference, which is NOT clamped at zero, so two disjoint boxes give a
      negative width or height. */
  function Clip(r1: Box, r2: Box): (r: Rect)
  {
    var x1 := if r1.x1 < r2.x1 then r2.x1 else r1.x1;
    var y1 := if r1.y1 < r2.y1 then r2.y1 else r1.y1;
    var x2 := if r1.x2 > r2.x2 then r2.x2 else r1.x2;
    var y2 := if r1.y2 > r2.y2 then r2.y2 else r1.y2;
    Rect(x1, y1, x2 - x1, y2 - y1)
  }

  /** The corners of the clipped box are the inner corners of the two. */
  lemma ClipCorners(r1: Box, r2: Box)
    ensures var r := Clip(r1, r2);
            && r.x == Max(r1.x1, r2.x1) && r.y == Max(r1.y1, r2.y1)
            && r.x + r.width == Min(r1.x2, r2.x2) && r.y + r.height == Min(r1.y2, r2.y2)
  {
  }

  predicate Inside(r1: Box, r2: Box)
  {
    r2.x1 <= r1.x1 && r1.x2 <= r2.x2 && r2.y1 <= r1.y1 && r1.y2 <= r2.y2
  }

  /** The clipped box keeps `r1`'s full width and height exactly when `r1`
      lies inside `r2`, and it is then `r1` itself. */
  lemma ClipKeepsSizeIffInside(r1: Box, r2: Box)
    ensures var r := Clip(r1, r2);
            (r.width == r1.x2 - r1.x1 && r.height == r1.y2 - r1.y1) <==> Inside(r1, r2)
    ensures Inside(r1, r2) ==> Clip(r1, r2) == Rect(r1.x1, r1.y1, r1.x2 - r1.x1, r1.y2 - r1.y1)
  {
  }

  /** A box entirely left of (or above) the other clips to a negative width
      (or height). */
  lemma ClipOfDisjointIsNegative(r1: Box, r2: Box)
    requires r1.x1 <= r1.x2 && r2.x1 <= r2.x2
    ensures r1.x2 < r2.x1 || r2.x2 < r1.x1 ==> Clip(r1, r2).width < 0.0
    ensures r1.y2 < r2.y1 || r2.y2 < r1.y1 ==> Clip(r1, r2).height < 0.0
  {
  }

  /** The mutable `{x1, y1, x2, y2}` objects that `intersection` works on. */
  class Corners {
    var x1: real
    var y1: real
    var x2: real
    var y2: real

    constructor (x1: real, y1: real, x2: real, y2: real)
      ensures this.x1 == x1 && this.y1 == y1 && this.x2 == x2 && this.y2 == y2
    {
      this.x1, this.y1, this.x2, this.y2 := x1, y1, x2, y2;
    }

    function ToBox(): Box
      reads this
    {
      Box(x1, y1, x2, y2)
    }
  }

  /** `intersection(r1, r2)`: overwrites `r1` with the clipped corners, then
      turns its `x2`, `y2` into the width and height, and returns them. */
  method Intersection(r1: Corners, r2: Corners) returns (r: Rect)
    modifies r1
    ensures r == Clip(old(r1.ToBox()), old(r2.ToBox()))
    ensures r1.x1 == r.x && r1.y1 == r.y && r1.x2 == r.width && r1.y2 == r.height
  {
    if r1.x1 < r2.x1 {
      r1.x1 := r2.x1;
    }
    if r1.y1 < r2.y1 {
      r1.y1 := r2.y1;
    }
    if r1.x2 > r2.x2 {
      r1.x2 := r2.x2;
    }
    if r1.y2 > r2.y2 {
      r1.y2 := r2.y2;
    }
    r1.x2 := r1.x2 - r1.x1;
    r1.y2 := r1.y2 - r1.y1;
    r := Rect(r1.x1, r1.y1, r1.x2, r1.y2);
  }

  /** The popup box at position `p`: `{x1: left, y1: top, x2: left + w, y2: top + h}`. */
  function PopupBox(p: Position, w: real, h: real): Box
  {
    Box(p.left, p.top, p.left + w, p.top + h)
  }

  /** The body box `{0, 0, width, height}`; the body's own offset is not used. */
  function BodyBox(body: Rect): Box
  {
    Box(0.0, 0.0, body.width, body.height)
  }

  /** The clipped popup box of side `s`. */
  function Clipped(s: Side, w: real, h: real, body: Rect, pos: Side -> Position): Rect
  {
    Clip(PopupBox(pos(s), w, h), BodyBox(body))
  }

  /** Side `s` is not clipped at all: the clipped size is the popup's size. */
  predicate Fits(s: Side, w: real, h: real, body: Rect, pos: Side -> Position)
  {
    var r := Clipped(s, w, h, body, pos);
    r.width == w && r.height == h
  }

  /** `rect.width * rect.height`. */
  function RectArea(r: Rect): real
  {
    r.width * r.height
  }

  function Area(s: Side, w: real, h: real, body: Rect, pos: Side -> Position): real
  {
    RectArea(Clipped(s, w, h, body, pos))
  }

  function ChoiceOf(s: Side, pos: Side -> Position): Choice
  {
    Choice(s, pos(s).top, pos(s).left)
  }

  /** The record after a candidate that does not fit: `bestPlacement` is
      replaced when there is none yet or when the new area is strictly larger. */
  function Keep(best: Option<Best>, area: real, c: Choice): (r: Option<Best>)
    ensures r.Some? && (r == best || r == Some(Best(area, c)))
  {
    if best.None? || best.value.area < area then Some(Best(area, c)) else best
  }

  /** The search from the `k`-th candidate on, given the best candidate of the
      ones before it (none exactly when `k` is 0). */
  function Scan(start: nat, w: real, h: real, body: Rect, pos: Side -> Position,
                k: nat, best: Option<Best>): Choice
    requires start < |Possible| && k <= |Possible|
    requires k == 0 <==> best.None?
    decreases |Possible| - k
  {
    if k == |Possible| then best.value.choice
    else
      var s := Candidate(start, k);
      if Fits(s, w, h, body, pos) then ChoiceOf(s, pos)
      else Scan(start, w, h, body, pos, k + 1, Keep(best, Area(s, w, h, body, pos), ChoiceOf(s, pos)))
  }

  /** The placement `positionTooltip` chooses. Without a body box the start
      candidate is taken unconditionally. */
  function Resolve(preferred: string, w: real, h: real, body: Option<Rect>,
                   pos: Side -> Position): Choice
  {
    var start := StartIndex(preferred);
    if body.None? then ChoiceOf(Possible[start], pos)
    else Scan(start, w, h, body.value, pos, 0, None)
  }

  /** One step of `positionTooltip`'s loop body: the popup box at `p` and
      the body box, built as fresh corner objects and clipped. */
  method ClipAt(p: Position, w: real, h: real, body: Rect) returns (rect: Rect)
    ensures rect == Clip(PopupBox(p, w, h), BodyBox(body))
  {
    var r1 := new Corners(p.left, p.top, p.left + w, p.top + h);
    var r2 := new Corners(0.0, 0.0, body.width, body.height);
    rect := Intersection(r1, r2);
  }

  /** One candidate of the search, given its clipped box: the first-fit
      exit, or the record updated as the loop body does it. */
  lemma ScanStep(start: nat, w: real, h: real, body: Rect, pos: Side -> Position,
                 k: nat, best: Option<Best>, rect: Rect, next: Option<Best>)
    requires start < |Possible| && k < |Possible|
    requires k == 0 <==> best.None?
    requires rect == Clipped(Candidate(start, k), w, h, body, pos)
    requires next == Keep(best, RectArea(rect), ChoiceOf(Candidate(start, k), pos))
    ensures rect.width == w && rect.height == h ==>
              Scan(start, w, h, body, pos, k, best) == ChoiceOf(Candidate(start, k), pos)
    ensures !(rect.width == w && rect.height == h) ==>
              Scan(start, w, h, body, pos, k, best) == Scan(start, w, h, body, pos, k + 1, next)
  {
  }

  /** `positionTooltip`'s search: start at the preferred side's index and
      walk the candidate list with a `do ... while (i != start)` loop. */
  method PositionTooltip(preferred: string, w: real, h: real, body: Option<Rect>,
                         pos: Side -> Position) returns (c: Choice)
    ensures c == Resolve(preferred, w, h, body, pos)
  {
    var start := StartIndex(preferred);
    c := SearchFrom(start, w, h, body, pos);
  }

  /** The `do ... while` loop itself, from the start index on. */
  method SearchFrom(start: nat, w: real, h: real, body: Option<Rect>,
                    pos: Side -> Position) returns (c: Choice)
    requires start < |Possible|
    ensures body.None? ==> c == ChoiceOf(Possible[start], pos)
    ensures body.Some? ==> c == Scan(start, w, h, body.value, pos, 0, None)
  {
    var possible := Possible;
    ghost var goal := if body.None? then ChoiceOf(Possible[start], pos) else Scan(start, w, h, body.value, pos, 0, None);
    var best: Option<Best> := None;
    var i := start;
    ghost var k: nat := 0;
    while true
      invariant k < |possible| && i == Step(start, k)
      invariant body.None? ==> k == 0
      invariant k == 0 <==> best.None?
      invariant body.Some? ==> Scan(start, w, h, body.value, pos, k, best) == goal
      decreases |possible| - k
    {
      var p := pos(possible[i]);
      if body.None? {
        return Choice(possible[i], p.top, p.left);
      }
      ghost var s := Candidate(start, k);
      assert possible[i] == s;
      var rect := ClipAt(p, w, h, body.value);
      var area := RectArea(rect);
      ghost var next := Keep(best, area, ChoiceOf(s, pos));
      ScanStep(start, w, h, body.value, pos, k, best, rect, next);
      if rect.width == w && rect.height == h {
        return Choice(possible[i], p.top, p.left);
      }
      if best.None? || best.value.area < area {
        best := Some(Best(area, Choice(possible[i], p.top, p.left)));
      }
      assert best == next;
      NextCandidate(start, k);
      i := (i + 1) % |possible|;
      k := k + 1;
      if i == start {
        break;
      }
    }
    c := best.value.choice;
  }

  /** Without a body box the result is the preferred side (or `bottom` for an
      unknown name) at exactly the position `positionElements` gives it,
      whatever the popup's size. */
  lemma ResolveWithoutBody(preferred: string, w: real, h: real, pos: Side -> Position)
    ensures var c := Resolve(preferred, w, h, None, pos);
            c == ChoiceOf(Possible[StartIndex(preferred)], pos) &&
            (forall s: Side :: SideName(s) == preferred ==> c.side == s) &&
            ((forall s: Side :: SideName(s) != preferred) ==> c.side == Bottom)
  {
    var c := Resolve(preferred, w, h, None, pos);
    forall s: Side | SideName(s) == preferred ensures c.side == s {
      var k := match s case Bottom => 0 case Right => 1 case Top => 2 case Left => 3;
      assert SideName(Possible[k]) == preferred;
    }
    if forall s: Side :: SideName(s) != preferred {
      assert forall k :: 0 <= k < |Possible| ==> SideName(Possible[k]) != preferred;
    }
  }

  lemma {:induction false} ScanFirstFit(start: nat, w: real, h: real, body: Rect,
                                        pos: Side -> Position, k: nat, best: Option<Best>, j: nat)
    requires start < |Possible| && k <= j < |Possible|
    requires k == 0 <==> best.None?
    requires Fits(Candidate(start, j), w, h, body, pos)
    requires forall i :: k <= i < j ==> !Fits(Candidate(start, i), w, h, body, pos)
    ensures Scan(start, w, h, body, pos, k, best) == ChoiceOf(Candidate(start, j), pos)
    decreases j - k
  {
    if k < j {
      assert !Fits(Candidate(start, k), w, h, body, pos);
      var s := Candidate(start, k);
      ScanFirstFit(start, w, h, body, pos, k + 1, Keep(best, Area(s, w, h, body, pos), ChoiceOf(s, pos)), j);
    }
  }

  /** With a body box, when some side fits, the result is the first side in
      the cyclic order from the start that fits. */
  lemma ResolveFirstFit(preferred: string, w: real, h: real, body: Rect,
                        pos: Side -> Position, j: nat)
    requires j < |Possible|
    requires Fits(Candidate(StartIndex(preferred), j), w, h, body, pos)
    requires forall i :: 0 <= i < j ==> !Fits(Candidate(StartIndex(preferred), i), w, h, body, pos)
    ensures Resolve(preferred, w, h, Some(body), pos) == ChoiceOf(Candidate(StartIndex(preferred), j), pos)
  {
    ScanFirstFit(StartIndex(preferred), w, h, body, pos, 0, None, j);
  }

  /** The best-so-far record after the first `k` candidates, none of which
      fit: it holds candidate `m`, whose area is at least every earlier area
      and strictly greater than the areas before `m`. */
  ghost predicate BestOfPrefix(start: nat, w: real, h: real, body: Rect,
                               pos: Side -> Position, k: nat, best: Option<Best>, m: nat)
  {
    && start < |Possible| && k <= |Possible| && m < k
    && best == Some(Best(Area(Candidate(start, m), w, h, body, pos), ChoiceOf(Candidate(start, m), pos)))
    && (forall i :: 0 <= i < k ==> Area(Candidate(start, i), w, h, body, pos) <= Area(Candidate(start, m), w, h, body, pos))
    && (forall i :: 0 <= i < m ==> Area(Candidate(start, i), w, h, body, pos) < Area(Candidate(start, m), w, h, body, pos))
  }

  /** A candidate with a strictly larger area replaces the record. */
  lemma BestOfPrefixReplaced(start: nat, w: real, h: real, body: Rect,
                             pos: Side -> Position, k: nat, best: Option<Best>, m0: nat)
    requires start < |Possible| && k < |Possible|
    requires k == 0 <==> best.None?
    requires k > 0 ==> BestOfPrefix(start, w, h, body, pos, k, best, m0)
    requires best.None? || best.value.area < Area(Candidate(start, k), w, h, body, pos)
    ensures BestOfPrefix(start, w, h, body, pos, k + 1,
              Some(Best(Area(Candidate(start, k), w, h, body, pos), ChoiceOf(Candidate(start, k), pos))), k)
  {
    var a := Area(Candidate(start, k), w, h, body, pos);
    if k > 0 {
      forall i | 0 <= i < k ensures Area(Candidate(start, i), w, h, body, pos) < a {
        assert Area(Candidate(start, i), w, h, body, pos) <= best.value.area;
      }
    }
  }

  /** A candidate with an area no larger than the record leaves it. */
  lemma BestOfPrefixKept(start: nat, w: real, h: real, body: Rect,
                         pos: Side -> Position, k: nat, best: Option<Best>, m0: nat)
    requires k < |Possible|
    requires BestOfPrefix(start, w, h, body, pos, k, best, m0)
    requires !(best.value.area < Area(Candidate(start, k), w, h, body, pos))
    ensures BestOfPrefix(start, w, h, body, pos, k + 1, best, m0)
  {
  }

  lemma {:induction false} ScanBestFit(start: nat, w: real, h: real, body: Rect,
                                       pos: Side -> Position, k: nat, best: Option<Best>, m0: nat)
    returns (m: nat)
    requires start < |Possible| && k <= |Possible|
    requires k == 0 <==> best.None?
    requires k > 0 ==> BestOfPrefix(start, w, h, body, pos, k, best, m0)
    requires forall i :: k <= i < |Possible| ==> !Fits(Candidate(start, i), w, h, body, pos)
    ensures m < |Possible|
    ensures BestOfPrefix(start, w, h, body, pos, |Possible|, Some(Best(Area(Candidate(start, m), w, h, body, pos), ChoiceOf(Candidate(start, m), pos))), m)
    ensures Scan(start, w, h, body, pos, k, best) == ChoiceOf(Candidate(start, m), pos)
    decreases |Possible| - k
  {
    if k == |Possible| {
      m := m0;
    } else {
      var s := Candidate(start, k);
      var area := Area(s, w, h, body, pos);
      assert !Fits(s, w, h, body, pos);
      if best.None? || best.value.area < area {
        BestOfPrefixReplaced(start, w, h, body, pos, k, best, m0);
        m := ScanBestFit(start, w, h, body, pos, k + 1, Some(Best(area, ChoiceOf(s, pos))), k);
      } else {
        BestOfPrefixKept(start, w, h, body, pos, k, best, m0);
        m := ScanBestFit(start, w, h, body, pos, k + 1, best, m0);
      }
    }
  }

  /** With a body box, when no side fits, the result is the earliest side in
      the cyclic order whose clipped area is the largest: ties keep the
      earlier side because the comparison is strict. */
  lemma ResolveBestFit(preferred: string, w: real, h: real, body: Rect, pos: Side -> Position)
    requires forall i :: 0 <= i < |Possible| ==> !Fits(Candidate(StartIndex(preferred), i), w, h, body, pos)
    ensures exists m :: (0 <= m < |Possible| &&
      var start := StartIndex(preferred);
      && Resolve(preferred, w, h, Some(body), pos) == ChoiceOf(Candidate(start, m), pos)
      && (forall i :: 0 <= i < |Possible| ==>
            Area(Candidate(start, i), w, h, body, pos) <= Area(Candidate(start, m), w, h, body, pos))
      && (forall i :: 0 <= i < m ==>
            Area(Candidate(start, i), w, h, body, pos) < Area(Candidate(start, m), w, h, body, pos)))
  {
    var m := ScanBestFit(StartIndex(preferred), w, h, body, pos, 0, None, 0);
  }

  lemma {:induction false} ScanIsCandidate(start: nat, w: real, h: real, body: Rect,
                                           pos: Side -> Position, k: nat, best: Option<Best>)
    requires start < |Possible| && k <= |Possible|
    requires k == 0 <==> best.None?
    requires best.Some? ==> exists i :: 0 <= i < k && best.value.choice == ChoiceOf(Candidate(start, i), pos)
    ensures exists i :: 0 <= i < |Possible| && Scan(start, w, h, body, pos, k, best) == ChoiceOf(Candidate(start, i), pos)
    decreases |Possible| - k
  {
    if k < |Possible| {
      var s := Candidate(start, k);
      var area := Area(s, w, h, body, pos);
      if !Fits(s, w, h, body, pos) {
        ScanIsCandidate(start, w, h, body, pos, k + 1, Keep(best, area, ChoiceOf(s, pos)));
      } else {
        assert Scan(start, w, h, body, pos, k, best) == ChoiceOf(Candidate(start, k), pos);
      }
    }
  }

  /** Whatever the inputs, the result is one of the four sides at the
      position `positionElements` gives for it. */
  lemma ResolveIsCandidate(preferred: string, w: real, h: real, body: Option<Rect>, pos: Side -> Position)
    ensures var c := Resolve(preferred, w, h, body, pos);
            c == ChoiceOf(c.side, pos)
  {
    if body.Some? {
      ScanIsCandidate(StartIndex(preferred), w, h, body.value, pos, 0, None);
    }
  }

  /** Because the clipped size is not clamped, a side whose popup lies
      entirely off the body can win over sides that are partly visible: with
      a 100 x 100 body and a 10 x 10 popup, half of the popup shows at the
      `bottom`, `top` and `left` positions (area 50), while the `right`
      position, far above and to the left of the body, clips to
      -990 x -990 and so has the larger area 980100. */
  lemma OffscreenSideCanWin(pos: Side -> Position, body: Rect)
    requires pos(Bottom) == Position(95.0, 0.0) && pos(Right) == Position(-1000.0, -1000.0)
    requires pos(Top) == Position(-5.0, 0.0) && pos(Left) == Position(90.0, 95.0)
    requires body.width == 100.0 && body.height == 100.0
    ensures Clipped(Right, 10.0, 10.0, body, pos).width < 0.0
    ensures Area(Bottom, 10.0, 10.0, body, pos) == 50.0
    ensures Resolve("bottom", 10.0, 10.0, Some(body), pos) == Choice(Right, -1000.0, -1000.0)
  {
    var c0 := Clipped(Bottom, 10.0, 10.0, body, pos);
    var c1 := Clipped(Right, 10.0, 10.0, body, pos);
    var c2 := Clipped(Top, 10.0, 10.0, body, pos);
    var c3 := Clipped(Left, 10.0, 10.0, body, pos);
    assert c0 == Rect(0.0, 95.0, 10.0, 5.0);
    assert c1 == Rect(0.0, 0.0, -990.0, -990.0);
    assert c2 == Rect(0.0, 0.0, 10.0, 5.0);
    assert c3 == Rect(95.0, 90.0, 5.0, 10.0);
    var b1 := Some(Best(50.0, ChoiceOf(Bottom, pos)));
    var b2 := Some(Best(980100.0, ChoiceOf(Right, pos)));
    assert StartIndex("bottom") == 0;
    ScanStep(0, 10.0, 10.0, body, pos, 0, None, c0, b1);
    ScanStep(0, 10.0, 10.0, body, pos, 1, b1, c1, b2);
    ScanStep(0, 10.0, 10.0, body, pos, 2, b2, c2, b2);
    ScanStep(0, 10.0, 10.0, body, pos, 3, b2, c3, b2);
  }
}
