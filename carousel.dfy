/** The project carousel: an index into the list of projects that moves one
    step forward or back (wrapping around), a remembered direction of the last
    move, the role each card plays around the active one, and the truncation
    rules of a project card. */
module Carousel {
  import opened Common

  // ---------------------------------------------------------------- indices

  /** The index after `i`, wrapping to 0 after the last project. */
  function NextIndex(i: nat, n: nat): (r: nat)
    requires i < n
    ensures r < n
    ensures i < n - 1 ==> r == i + 1
    ensures i == n - 1 ==> r == 0
  {
    (i + 1) % n
  }

  /** The index before `i`, wrapping to the last project before 0. */
  function PrevIndex(i: nat, n: nat): (r: nat)
    requires i < n
    ensures r < n
    ensures 0 < i ==> r == i - 1
    ensures i == 0 ==> r == n - 1
  {
    (i - 1 + n) % n
  }

  /** Going forward and then back returns to the same project. */
  lemma PrevAfterNext(i: nat, n: nat)
    requires i < n
    ensures PrevIndex(NextIndex(i, n), n) == i
  {
  }

  /** Going back and then forward returns to the same project. */
  lemma NextAfterPrev(i: nat, n: nat)
    requires i < n
    ensures NextIndex(PrevIndex(i, n), n) == i
  {
  }

  /** `k` presses of the next button in a row. */
  function NextTimes(i: nat, k: nat, n: nat): (r: nat)
    requires i < n
    ensures r < n
  {
    if k == 0 then i else NextIndex(NextTimes(i, k - 1, n), n)
  }

  /** Within one round, `k` nexts move the index `k` places forward,
      wrapping past the last project at most once. */
  lemma {:induction false} NextTimesShift(i: nat, k: nat, n: nat)
    requires i < n && k <= n
    ensures NextTimes(i, k, n) == if i + k < n then i + k else i + k - n
  {
    if k > 0 {
      NextTimesShift(i, k - 1, n);
    }
  }

  /** A full round of `n` nexts comes back to the starting project. */
  lemma FullRound(i: nat, n: nat)
    requires i < n
    ensures NextTimes(i, n, n) == i
  {
    NextTimesShift(i, n, n);
  }

  /** `a` nexts followed by `b` more are `a + b` nexts. */
  lemma {:induction false} NextTimesAdd(i: nat, a: nat, b: nat, n: nat)
    requires i < n
    ensures NextTimes(NextTimes(i, a, n), b, n) == NextTimes(i, a + b, n)
  {
    if b > 0 {
      NextTimesAdd(i, a, b - 1, n);
    }
  }

  /** The index after `k` nexts repeats with period `n`. */
  lemma NextTimesPeriodic(i: nat, k: nat, n: nat)
    requires i < n
    ensures NextTimes(i, k + n, n) == NextTimes(i, k, n)
  {
    NextTimesAdd(i, k, n, n);
    FullRound(NextTimes(i, k, n), n);
  }

  // ------------------------------------------------------------- gestures

  /** The pixel distance a drag must exceed to change the project. */
  const DragThreshold: real := 50.0

  datatype Swipe = ToPrev | ToNext | Stay

  /** What the end of a horizontal drag of `offsetX` pixels does. */
  function DragAction(offsetX: real): (s: Swipe)
    ensures s == ToPrev <==> offsetX > DragThreshold
    ensures s == ToNext <==> offsetX < -DragThreshold
    ensures s == Stay <==> -DragThreshold <= offsetX <= DragThreshold
  {
    if offsetX > DragThreshold then ToPrev
    else if offsetX < -DragThreshold then ToNext
    else Stay
  }

  /** The direction a pagination dot sets: forward exactly when the target
      lies after the active project. Clicking the active dot counts as back. */
  function DotDirection(target: nat, active: nat): (d: int)
    ensures d == 1 || d == -1
    ensures d == 1 <==> target > active
  {
    if target > active then 1 else -1
  }

  /** The carousel's state: the active project and the last direction. */
  class Controller {
    const count: nat
    var activeIndex: nat
    var direction: int

    ghost predicate Valid()
      reads this
    {
      0 < count && activeIndex < count && direction in {-1, 0, 1}
    }

    constructor (count: nat)
      requires 0 < count
      ensures Valid()
      ensures this.count == count && activeIndex == 0 && direction == 0
    {
      this.count := count;
      activeIndex := 0;
      direction := 0;
    }

    method HandleNext()
      requires Valid()
      modifies this
      ensures Valid()
      ensures direction == 1 && activeIndex == NextIndex(old(activeIndex), count)
    {
      direction := 1;
      activeIndex := NextIndex(activeIndex, count);
    }

    method HandlePrev()
      requires Valid()
      modifies this
      ensures Valid()
      ensures direction == -1 && activeIndex == PrevIndex(old(activeIndex), count)
    {
      direction := -1;
      activeIndex := PrevIndex(activeIndex, count);
    }

    /** A drag to the right goes back, to the left goes forward, and a short
        drag changes nothing. */
    method HandleDragEnd(offsetX: real)
      requires Valid()
      modifies this
      ensures Valid()
      ensures offsetX > DragThreshold ==>
        direction == -1 && activeIndex == PrevIndex(old(activeIndex), count)
      ensures offsetX < -DragThreshold ==>
        direction == 1 && activeIndex == NextIndex(old(activeIndex), count)
      ensures DragAction(offsetX) == Stay ==>
        direction == old(direction) && activeIndex == old(activeIndex)
    {
      if offsetX > DragThreshold {
        HandlePrev();
      } else if offsetX < -DragThreshold {
        HandleNext();
      }
    }

    /** Clicking the dot of project `target`. */
    method DotClick(target: nat)
      requires Valid() && target < count
      modifies this
      ensures Valid()
      ensures direction == DotDirection(target, old(activeIndex)) && activeIndex == target
    {
      direction := DotDirection(target, activeIndex);
      activeIndex := target;
    }
  }

  // ------------------------------------------------------------- variants

  datatype Variant = Center | Left | Right | Hidden

  /** The role of card `index` on the desktop carousel. The checks are made in
      order, so with two projects the other card is `Left`, not `Right`. */
  function VariantOf(index: nat, active: nat, n: nat): (v: Variant)
    requires 0 < n
    ensures v == Center <==> index == active
    ensures active < n && v != Hidden ==>
      index == active || index == PrevIndex(active, n) || index == NextIndex(active, n)
  {
    if index == active then Center
    else if index == (active - 1 + n) % n then Left
    else if index == (active + 1) % n then Right
    else Hidden
  }

  /** The roles of all `n` cards, in list order. */
  function Variants(active: nat, n: nat): (vs: seq<Variant>)
    requires active < n
    ensures |vs| == n
    ensures forall j :: 0 <= j < n ==> vs[j] == VariantOf(j, active, n)
  {
    seq(n, j requires 0 <= j < n => VariantOf(j, active, n))
  }

  /** Exactly the active card is `Center`. */
  lemma CenterIsActive(index: nat, active: nat, n: nat)
    requires index < n && active < n
    ensures VariantOf(index, active, n) == Center <==> index == active
  {
  }

  /** The card before the active one is `Left`, whenever it is another card. */
  lemma LeftIsPrevious(index: nat, active: nat, n: nat)
    requires index < n && active < n
    ensures VariantOf(index, active, n) == Left <==>
      index != active && index == PrevIndex(active, n)
  {
  }

  /** The card after the active one is `Right`, unless it is the active card
      itself (one project) or already the `Left` one (two projects). */
  lemma RightIsNext(index: nat, active: nat, n: nat)
    requires index < n && active < n
    ensures VariantOf(index, active, n) == Right <==>
      3 <= n && index == NextIndex(active, n)
  {
    if 3 <= n && index == NextIndex(active, n) {
      assert index != active;
      if active == 0 { assert PrevIndex(active, n) == n - 1; }
    }
    if VariantOf(index, active, n) == Right {
      assert n != 1;
    }
  }

  /** Every card more than one step away from the active one is `Hidden`. */
  lemma HiddenIsFar(index: nat, active: nat, n: nat)
    requires index < n && active < n
    ensures VariantOf(index, active, n) == Hidden <==>
      index != active && index != PrevIndex(active, n) && index != NextIndex(active, n)
  {
  }

  /** How many entries of `s` equal `v`. */
  function Count(s: seq<Variant>, v: Variant): (c: nat)
    ensures c <= |s|
  {
    if s == [] then 0 else (if s[0] == v then 1 else 0) + Count(s[1..], v)
  }

  /** A value found at exactly one position occurs exactly once. */
  lemma {:induction false} CountSingle(s: seq<Variant>, v: Variant, k: nat)
    requires k < |s|
    requires forall j :: 0 <= j < |s| ==> (s[j] == v <==> j == k)
    ensures Count(s, v) == 1
  {
    if k == 0 {
      CountAbsent(s[1..], v);
    } else {
      CountSingle(s[1..], v, k - 1);
    }
  }

  lemma {:induction false} CountAbsent(s: seq<Variant>, v: Variant)
    requires forall j :: 0 <= j < |s| ==> s[j] != v
    ensures Count(s, v) == 0
  {
    if s != [] {
      CountAbsent(s[1..], v);
    }
  }

  /** Every card has exactly one of the four roles. */
  lemma {:induction false} CountsCoverAll(s: seq<Variant>)
    ensures Count(s, Center) + Count(s, Left) + Count(s, Right) + Count(s, Hidden) == |s|
  {
    if s != [] {
      CountsCoverAll(s[1..]);
    }
  }

  /** Exactly one card is in the centre; one is on the left once there are two
      projects and one on the right once there are three; all others are
      hidden. With a single project only the centre appears. */
  lemma VariantCounts(active: nat, n: nat)
    requires active < n
    ensures Count(Variants(active, n), Center) == 1
    ensures Count(Variants(active, n), Left) == (if n >= 2 then 1 else 0)
    ensures Count(Variants(active, n), Right) == (if n >= 3 then 1 else 0)
    ensures Count(Variants(active, n), Hidden) ==
      n - 1 - (if n >= 2 then 1 else 0) - (if n >= 3 then 1 else 0)
  {
    var vs := Variants(active, n);
    forall j | 0 <= j < n
      ensures vs[j] == Center <==> j == active
      ensures vs[j] == Left <==> n >= 2 && j == PrevIndex(active, n)
      ensures vs[j] == Right <==> n >= 3 && j == NextIndex(active, n)
    {
      CenterIsActive(j, active, n);
      LeftIsPrevious(j, active, n);
      RightIsNext(j, active, n);
    }
    CountSingle(vs, Center, active);
    if n >= 2 {
      CountSingle(vs, Left, PrevIndex(active, n));
    } else {
      CountAbsent(vs, Left);
    }
    if n >= 3 {
      CountSingle(vs, Right, NextIndex(active, n));
    } else {
      CountAbsent(vs, Right);
    }
    CountsCoverAll(vs);
  }

  // ------------------------------------------------------------- the card

  /** The category label drawn over a project's image. */
  function CategoryLabel(category: string): (r: string)
    ensures r in {"ML", "ANDROID", "WEB"}
    ensures r == "ML" <==> category == "Machine Learning"
    ensures r == "ANDROID" <==> category == "Android Development"
  {
    if category == "Machine Learning" then "ML"
    else if category == "Android Development" then "ANDROID"
    else "WEB"
  }

  /** The number of technology chips a card shows before the "+k more" badge. */
  function ChipLimit(isMobile: bool): (r: nat)
    ensures r == 5 <==> isMobile
    ensures r == 8 <==> !isMobile
  {
    if isMobile then 5 else 8
  }

  /** The chips and the optional "+k more" badge of a project card. */
  function TechnologyChips(technologies: seq<string>, isMobile: bool): (p: Preview<string>)
    ensures |p.shown| == Min(|technologies|, ChipLimit(isMobile))
    ensures p.shown == technologies[..|p.shown|]
    ensures p.badge.Some? <==> |technologies| > ChipLimit(isMobile)
    ensures p.badge.Some? ==> p.badge.value == |technologies| - ChipLimit(isMobile)
  {
    Truncate(technologies, ChipLimit(isMobile))
  }

  /** The length `description.substring(0, 140)` keeps on a phone. */
  const MobileDescriptionLength: nat := 140

  /** The description a card shows: on a phone the first 140 characters with
      "..." always appended (even when nothing was cut), otherwise all of it. */
  function CardDescription(description: string, isMobile: bool): (r: string)
    ensures !isMobile ==> r == description
    ensures isMobile ==> |r| == Min(|description|, MobileDescriptionLength) + 3
    ensures isMobile ==> r[..|r| - 3] == Prefix(description, MobileDescriptionLength)
    ensures isMobile ==> r[|r| - 3..] == "..."
  {
    if isMobile then Prefix(description, MobileDescriptionLength) + "..." else description
  }

  /** A short description is shown whole on a phone, followed by "...". */
  lemma ShortMobileDescription(description: string)
    requires |description| <= MobileDescriptionLength
    ensures CardDescription(description, true) == description + "..."
  {
    assert description[..|description|] == description;
  }
}
