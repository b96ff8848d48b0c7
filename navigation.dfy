/** The side navigation: it hides while the page scrolls down (throttled to
    one update per animation frame), follows the section the intersection
    observer last reported, and colours its indicator after that section. */
module Navigation {
  import opened Common

  datatype Section = Section(id: string, name: string, color: string)

  const Pink := "#EC4899"

  /** The sections of the page, in order. */
  const Sections: seq<Section> := [
    Section("home", "Home", Accent),
    Section("about", "About", Secondary),
    Section("education", "Education", SuccessColor),
    Section("skills", "Skills", Warning),
    Section("projects", "Projects", Danger),
    Section("research", "Research", Secondary),
    Section("experience", "Experience", SuccessColor),
    Section("contact", "Contact", Pink)
  ]

  predicate Listed(id: string)
  {
    exists k :: 0 <= k < |Sections| && Sections[k].id == id
  }

  // ---------------------------------------------------- scroll direction

  /** Near the top of the page the navigation always shows. */
  const TopZone: real := 100.0

  /** The navigation shows after a frame when the page moved up since the
      last frame or is near the top. */
  predicate VisibleAfter(scrollY: real, lastScrollY: real)
    ensures scrollY < TopZone ==> VisibleAfter(scrollY, lastScrollY)
    ensures scrollY < lastScrollY ==> VisibleAfter(scrollY, lastScrollY)
  {
    scrollY < lastScrollY || scrollY < TopZone
  }

  /** The scroll position remembered for the next frame: never negative. */
  function Clamp(scrollY: real): (r: real)
    ensures r >= 0.0
    ensures scrollY > 0.0 ==> r == scrollY
    ensures scrollY <= 0.0 ==> r == 0.0
  {
    if scrollY > 0.0 then scrollY else 0.0
  }

  /** Scrolling down, or staying put, below the top zone hides the navigation. */
  lemma DownwardHides(scrollY: real, lastScrollY: real)
    requires scrollY >= lastScrollY && scrollY >= TopZone
    ensures !VisibleAfter(scrollY, lastScrollY)
  {
  }

  /** The scroll listener's closure state and the visibility it sets. */
  class ScrollTracker {
    var lastScrollY: real
    var ticking: bool
    var isVisible: bool
    /** Frames requested with `requestAnimationFrame` and not yet run. */
    var pendingFrames: nat

    ghost predicate Valid()
      reads this
    {
      pendingFrames <= 1 && (ticking <==> pendingFrames == 1)
    }

    /** The effect starts from the current scroll position. */
    constructor (initialScrollY: real)
      ensures Valid()
      ensures lastScrollY == initialScrollY && !ticking && isVisible && pendingFrames == 0
    {
      lastScrollY := initialScrollY;
      ticking := false;
      isVisible := true;
      pendingFrames := 0;
    }

    /** A scroll event: a frame is requested only when none is pending. */
    method OnScroll()
      requires Valid()
      modifies this
      ensures Valid()
      ensures ticking
      ensures pendingFrames == 1
      ensures old(ticking) ==> pendingFrames == old(pendingFrames)
      ensures lastScrollY == old(lastScrollY) && isVisible == old(isVisible)
    {
      if !ticking {
        pendingFrames := pendingFrames + 1;
        ticking := true;
      }
    }

    /** The requested frame runs and reads the scroll position `scrollY`. */
    method UpdateScrollDirection(scrollY: real)
      requires Valid() && pendingFrames > 0
      modifies this
      ensures Valid()
      ensures isVisible == VisibleAfter(scrollY, old(lastScrollY))
      ensures lastScrollY == Clamp(scrollY)
      ensures !ticking && pendingFrames == 0
    {
      pendingFrames := pendingFrames - 1;
      isVisible := scrollY < lastScrollY || scrollY < TopZone;
      lastScrollY := if scrollY > 0.0 then scrollY else 0.0;
      ticking := false;
    }
  }

  // ------------------------------------------------------ active section

  /** One entry of an intersection observer batch. */
  datatype Entry = Entry(targetId: string, isIntersecting: bool)

  /** The active section after the observer callback walks `entries` in
      order, setting the section of each intersecting one. */
  function AfterBatch(entries: seq<Entry>, active: string): (r: string)
    ensures |entries| > 0 && entries[|entries| - 1].isIntersecting ==>
      r == entries[|entries| - 1].targetId
  {
    if entries == [] then active
    else AfterBatch(entries[1..], if entries[0].isIntersecting then entries[0].targetId else active)
  }

  /** The last intersecting entry of the batch decides the active section. */
  lemma {:induction false} LastIntersectingWins(entries: seq<Entry>, active: string, k: nat)
    requires k < |entries| && entries[k].isIntersecting
    requires forall j :: k < j < |entries| ==> !entries[j].isIntersecting
    ensures AfterBatch(entries, active) == entries[k].targetId
  {
    var next := if entries[0].isIntersecting then entries[0].targetId else active;
    if k == 0 {
      NoIntersectingKeeps(entries[1..], next);
    } else {
      LastIntersectingWins(entries[1..], next, k - 1);
    }
  }

  /** A batch without intersecting entries leaves the active section alone. */
  lemma {:induction false} NoIntersectingKeeps(entries: seq<Entry>, active: string)
    requires forall j :: 0 <= j < |entries| ==> !entries[j].isIntersecting
    ensures AfterBatch(entries, active) == active
  {
    if entries != [] {
      NoIntersectingKeeps(entries[1..], active);
    }
  }

  /** The result is the old section or the target of an intersecting entry. */
  lemma {:induction false} AfterBatchFrom(entries: seq<Entry>, active: string)
    ensures var r := AfterBatch(entries, active);
      r == active || exists k :: 0 <= k < |entries| && entries[k].isIntersecting && entries[k].targetId == r
  {
    if entries != [] {
      var next := if entries[0].isIntersecting then entries[0].targetId else active;
      AfterBatchFrom(entries[1..], next);
      var r := AfterBatch(entries, active);
      if r != next {
        var k :| 0 <= k < |entries[1..]| && entries[1..][k].isIntersecting && entries[1..][k].targetId == r;
        assert entries[k + 1] == entries[1..][k];
      }
    }
  }

  /** Only listed sections are observed, so the active section stays one of
      them. */
  lemma ActiveStaysListed(entries: seq<Entry>, active: string)
    requires Listed(active)
    requires forall j :: 0 <= j < |entries| ==> Listed(entries[j].targetId)
    ensures Listed(AfterBatch(entries, active))
  {
    AfterBatchFrom(entries, active);
  }

  class SectionSpy {
    var activeSection: string

    ghost predicate Valid()
      reads this
    {
      Listed(activeSection)
    }

    constructor ()
      ensures Valid() && activeSection == "home"
    {
      activeSection := "home";
      assert Sections[0].id == "home";
    }

    /** The observer callback, for a batch of entries on observed sections. */
    method OnIntersect(entries: seq<Entry>)
      requires Valid()
      requires forall j :: 0 <= j < |entries| ==> Listed(entries[j].targetId)
      modifies this
      ensures Valid()
      ensures activeSection == AfterBatch(entries, old(activeSection))
    {
      ActiveStaysListed(entries, activeSection);
      var i := 0;
      while i < |entries|
        invariant 0 <= i <= |entries|
        invariant AfterBatch(entries[i..], activeSection) == AfterBatch(entries, old(activeSection))
      {
        assert entries[i..][1..] == entries[i + 1..];
        if entries[i].isIntersecting {
          activeSection := entries[i].targetId;
        }
        i := i + 1;
      }
    }
  }

  // -------------------------------------------------------------- colours

  /** `sections.find(s => s.id === id)`. */
  function Find(sections: seq<Section>, id: string): (r: Option<Section>)
    ensures r.Some? ==> exists k :: 0 <= k < |sections| && sections[k] == r.value
                                  && r.value.id == id
                                  && (forall j :: 0 <= j < k ==> sections[j].id != id)
    ensures r.None? <==> forall k :: 0 <= k < |sections| ==> sections[k].id != id
  {
    if sections == [] then None
    else if sections[0].id == id then Some(sections[0])
    else
      var r := Find(sections[1..], id);
      assert forall k :: 1 <= k < |sections| ==> sections[k] == sections[1..][k - 1];
      r
  }

  /** The indicator colour: the active section's colour, or the accent colour
      when the section is not found or has none. */
  function IndicatorColor(active: string): (r: string)
    ensures r == Accent || exists k :: 0 <= k < |Sections| && Sections[k].color == r
  {
    match Find(Sections, active)
    case Some(s) => if s.color != "" then s.color else Accent
    case None => Accent
  }

  /** Each listed section gives the indicator its own colour; any other id
      gives the accent colour. */
  lemma IndicatorColorOfSection(active: string)
    ensures forall k :: 0 <= k < |Sections| && Sections[k].id == active ==>
      IndicatorColor(active) == Sections[k].color
    ensures !Listed(active) ==> IndicatorColor(active) == Accent
  {
    var r := Find(Sections, active);
    if r.Some? {
      var k :| 0 <= k < |Sections| && Sections[k] == r.value && r.value.id == active;
      forall j | 0 <= j < |Sections| && Sections[j].id == active
        ensures j == k
      {
        SectionIdsDistinct(j, k);
      }
    }
  }

  lemma SectionIdsDistinct(i: nat, j: nat)
    requires i < |Sections| && j < |Sections| && Sections[i].id == Sections[j].id
    ensures i == j
  {
  }

  /** A navigation click scrolls to the section's element when the page has
      one with that id, and does nothing otherwise. */
  function ScrollTarget(sectionId: string, dom: map<string, nat>): (r: Option<nat>)
    ensures r.Some? <==> sectionId in dom
    ensures r.Some? ==> r.value == dom[sectionId]
  {
    if sectionId in dom then Some(dom[sectionId]) else None
  }
}
