/** The services grid: at most one service card is expanded, at most one is
    hovered, a card is highlighted when it is either, and the "see projects"
    link scrolls to the first element that one of several selectors finds. */
module Services {
  import opened Common

  /** The expanded service after a click on `id`: a click on the expanded card
      closes it, a click on any other card expands that one instead. */
  function Toggled(active: Option<string>, id: string): (r: Option<string>)
    ensures active == Some(id) ==> r == None
    ensures active != Some(id) ==> r == Some(id)
  {
    if active == Some(id) then None else Some(id)
  }

  /** Two clicks on the same card from the closed state close it again. */
  lemma ToggleTwiceFromNone(id: string)
    ensures Toggled(Toggled(None, id), id) == None
  {
  }

  class ServicesView {
    var activeService: Option<string>
    var hoveredCard: Option<string>

    constructor ()
      ensures activeService == None && hoveredCard == None
    {
      activeService := None;
      hoveredCard := None;
    }

    method ToggleService(id: string)
      modifies this
      ensures activeService == Toggled(old(activeService), id)
      ensures hoveredCard == old(hoveredCard)
    {
      activeService := Toggled(activeService, id);
    }

    /** Hover start sets the hovered card; hover end clears it, whichever
        card was hovered before. */
    method HandleCardHover(id: string, isHovered: bool)
      modifies this
      ensures hoveredCard == (if isHovered then Some(id) else None)
      ensures activeService == old(activeService)
    {
      hoveredCard := if isHovered then Some(id) else None;
    }
  }

  /** A card is drawn highlighted (border, glow, particles) when it is hovered
      or expanded. */
  predicate Highlighted(hovered: Option<string>, active: Option<string>, id: string)
    ensures ShowsDetails(active, id) ==> Highlighted(hovered, active, id)
  {
    hovered == Some(id) || active == Some(id)
  }

  /** Once the mouse leaves, a card stays highlighted exactly when it is the
      expanded one; while it is hovered it is highlighted whatever is expanded. */
  lemma HighlightAfterHover(active: Option<string>, id: string, other: string)
    ensures Highlighted(None, active, id) <==> ShowsDetails(active, id)
    ensures Highlighted(Some(id), active, id)
    ensures other != id ==> (Highlighted(Some(other), active, id) <==> ShowsDetails(active, id))
  {
  }

  /** A card shows its expanded content exactly when it is the active one,
      that is, exactly when a click on it would close it. */
  predicate ShowsDetails(active: Option<string>, id: string)
    ensures ShowsDetails(active, id) <==> Toggled(active, id) == None
  {
    active == Some(id)
  }

  /** How many of the cards `ids` show their expanded content. */
  function ExpandedCount(ids: seq<string>, active: Option<string>): (c: nat)
    ensures c <= |ids|
  {
    if ids == [] then 0
    else (if ShowsDetails(active, ids[0]) then 1 else 0) + ExpandedCount(ids[1..], active)
  }

  predicate Distinct(ids: seq<string>)
  {
    forall i, j :: 0 <= i < j < |ids| ==> ids[i] != ids[j]
  }

  /** Over cards with distinct ids, one card is expanded when the active id
      is among them and none otherwise: never two at once. */
  lemma {:induction false} AtMostOneExpanded(ids: seq<string>, active: Option<string>)
    requires Distinct(ids)
    ensures ExpandedCount(ids, active) == (if active.Some? && active.value in ids then 1 else 0)
  {
    if ids != [] {
      assert Distinct(ids[1..]);
      AtMostOneExpanded(ids[1..], active);
      if ShowsDetails(active, ids[0]) {
        assert ids[0] !in ids[1..];
      } else {
        assert active.Some? && active.value in ids ==> active.value in ids[1..];
      }
    }
  }

  /** The service ids of the page, in order. */
  const ServiceIds: seq<string> := ["web-development", "app-development", "web-scraping",
                                    "api-development", "ml-ai", "automation"]

  /** A click on any service expands that one card and no other. */
  lemma ClickExpandsOnlyThatCard(active: Option<string>, k: nat)
    requires k < |ServiceIds| && active != Some(ServiceIds[k])
    ensures ExpandedCount(ServiceIds, Toggled(active, ServiceIds[k])) == 1
    ensures forall j :: 0 <= j < |ServiceIds| ==>
      (ShowsDetails(Toggled(active, ServiceIds[k]), ServiceIds[j]) <==> j == k)
  {
    AtMostOneExpanded(ServiceIds, Toggled(active, ServiceIds[k]));
  }

  /** The technology chips on a card: the first four and a "+k" badge. */
  const PreviewLimit: nat := 4

  function TechnologyPreview(technologies: seq<string>): (p: Preview<string>)
    ensures |p.shown| == Min(|technologies|, PreviewLimit)
    ensures p.shown == technologies[..|p.shown|]
    ensures p.badge.Some? <==> |technologies| > PreviewLimit
    ensures p.badge.Some? ==> p.badge.value == |technologies| - PreviewLimit
  {
    Truncate(technologies, PreviewLimit)
  }

  // ----------------------------------------------------- scroll to projects

  /** The selectors tried, in order, to find the projects section. */
  const ProjectSelectors: seq<string> := ["#projects", ".projects-section",
    "[data-section=\"projects\"]", "section[id*=\"project\"]", ".project-section"]

  /** The element `selectors` find first, given what `document.querySelector`
      returns for each selector the page matches. */
  function FirstMatch(selectors: seq<string>, dom: map<string, nat>): (r: Option<nat>)
    ensures r.Some? <==> exists i :: 0 <= i < |selectors| && selectors[i] in dom
    ensures r.Some? ==> exists i :: 0 <= i < |selectors| && selectors[i] in dom
                                 && r.value == dom[selectors[i]]
                                 && (forall j :: 0 <= j < i ==> selectors[j] !in dom)
  {
    if selectors == [] then None
    else if selectors[0] in dom then Some(dom[selectors[0]])
    else
      var r := FirstMatch(selectors[1..], dom);
      assert forall i :: 1 <= i < |selectors| ==> selectors[i] == selectors[1..][i - 1];
      r
  }

  /** The element `scrollToProjects` scrolls to, if any: the selectors are
      tried in list order and the loop stops at the first that finds one. */
  method ScrollToProjects(dom: map<string, nat>) returns (target: Option<nat>)
    ensures target == FirstMatch(ProjectSelectors, dom)
    ensures target.None? <==> forall j :: 0 <= j < |ProjectSelectors| ==> ProjectSelectors[j] !in dom
  {
    var selectors := ProjectSelectors;
    target := None;
    var i := 0;
    while i < |selectors|
      invariant 0 <= i <= |selectors|
      invariant target.None?
      invariant forall j :: 0 <= j < i ==> selectors[j] !in dom
      invariant FirstMatch(selectors, dom) == FirstMatch(selectors[i..], dom)
    {
      var selector := selectors[i];
      target := if selector in dom then Some(dom[selector]) else None;
      if target.Some? {
        break;
      }
      assert selectors[i..][1..] == selectors[i + 1..];
      i := i + 1;
    }
  }
}
