/**
 * The fixed navigation bar: the "scrolled" look, active-section tracking from
 * intersection entries, nav-link clicks that scroll to a section, and the
 * mobile menu toggle.
 */
module Navigation {
  import opened Wrappers

  const NavbarHeight: int := 64
  const ScrollOffset: int := 72
  const ScrolledThreshold: int := 50

  datatype NavItem = NavItem(name: string, href: string)  // `label` and `href`

  const NavItems: seq<NavItem> := [
    NavItem("about", "#about"),
    NavItem("skills", "#skills"),
    NavItem("projects", "#projects"),
    NavItem("experience", "#experience"),
    NavItem("contact", "#contact")
  ]

  /** One intersection-observer entry: the observed section's id and whether it intersects. */
  datatype Entry = Entry(targetId: string, isIntersecting: bool)

  /** The active section after a batch of entries is processed in order,
      starting from `current`. */
  function LastIntersecting(entries: seq<Entry>, current: string): (r: string)
    ensures r == current
      || exists k :: 0 <= k < |entries| && entries[k].isIntersecting && r == entries[k].targetId
    decreases |entries|
  {
    if entries == [] then current
    else
      var before := LastIntersecting(entries[..|entries| - 1], current);
      if entries[|entries| - 1].isIntersecting then entries[|entries| - 1].targetId else before
  }

  /** A batch in which nothing intersects leaves the active section alone. */
  lemma {:induction false} NoIntersectionKeepsSection(entries: seq<Entry>, current: string)
    requires forall k :: 0 <= k < |entries| ==> !entries[k].isIntersecting
    ensures LastIntersecting(entries, current) == current
    decreases |entries|
  {
    if entries != [] {
      var init := entries[..|entries| - 1];
      assert forall k :: 0 <= k < |init| ==> init[k] == entries[k];
      NoIntersectionKeepsSection(init, current);
    }
  }

  /** Otherwise the active section becomes the id of the last intersecting entry. */
  lemma {:induction false} LastIntersectingWins(entries: seq<Entry>, current: string, k: nat)
    requires k < |entries| && entries[k].isIntersecting
    requires forall j :: k < j < |entries| ==> !entries[j].isIntersecting
    ensures LastIntersecting(entries, current) == entries[k].targetId
    decreases |entries|
  {
    if k < |entries| - 1 {
      var init := entries[..|entries| - 1];
      assert init[k] == entries[k];
      assert forall j :: k < j < |init| ==> init[j] == entries[j];
      LastIntersectingWins(init, current, k);
    }
  }

  /** `href.replace('#', '')`: only the first '#' is removed. */
  function TargetId(href: string): (r: string)
    ensures |r| == |href| - (if '#' in href then 1 else 0)
  {
    if href == [] then []
    else if href[0] == '#' then href[1..]
    else [href[0]] + TargetId(href[1..])
  }

  /** A link without '#' is its own id; otherwise the first '#' is dropped
      and everything else, later '#'s included, is kept. */
  lemma {:induction false} TargetIdDropsFirstHash(href: string, p: nat)
    requires p <= |href|
    requires forall k :: 0 <= k < p ==> href[k] != '#'
    ensures p == |href| ==> TargetId(href) == href
    ensures p < |href| && href[p] == '#' ==> TargetId(href) == href[..p] + href[p + 1..]
  {
    if p > 0 {
      TargetIdDropsFirstHash(href[1..], p - 1);
      assert href[..p] == [href[0]] + href[1..][..p - 1];
      assert href == [href[0]] + href[1..];
    }
  }

  /** Every nav link targets the section its label names. */
  lemma NavTargetsAreLabels()
    ensures forall i :: 0 <= i < |NavItems| ==> TargetId(NavItems[i].href) == NavItems[i].name
    ensures forall i :: 0 <= i < |NavItems| ==> NavItems[i].name != ""
  {
    forall i | 0 <= i < |NavItems|
      ensures TargetId(NavItems[i].href) == NavItems[i].name
    {
      TargetIdDropsFirstHash(NavItems[i].href, 0);
    }
  }

  /** Where a click scrolls to: the section's top edge in the document, less the
      offset. `elementTop` is the section's top relative to the viewport before
      the scroll, so `elementTop + scrollY - r` is that top after it. */
  function ScrollDestination(elementTop: int, scrollY: int): (r: int)
    ensures elementTop + scrollY - r == ScrollOffset
    ensures elementTop + scrollY - r > NavbarHeight
  {
    elementTop + scrollY - ScrollOffset
  }

  class Navigation {
    var isOpen: bool
    var scrolled: bool
    var activeSection: string

    constructor ()
      ensures !isOpen && !scrolled && activeSection == ""
    {
      isOpen := false;
      scrolled := false;
      activeSection := "";
    }

    /** A nav item is highlighted iff it names the active section. */
    predicate IsActive(name: string)
      reads this
    {
      activeSection == name
    }

    /** The scroll listener. */
    method HandleScroll(scrollY: int)
      modifies this`scrolled
      ensures scrolled <==> scrollY > ScrolledThreshold
    {
      scrolled := scrollY > ScrolledThreshold;
    }

    /** The observer callback: `entries.forEach`, each intersecting entry
        overwriting the active section. */
    method HandleEntries(entries: seq<Entry>)
      modifies this`activeSection
      ensures activeSection == LastIntersecting(entries, old(activeSection))
    {
      var k := 0;
      while k < |entries|
        invariant 0 <= k <= |entries|
        invariant activeSection == LastIntersecting(entries[..k], old(activeSection))
      {
        assert entries[..k + 1][..k] == entries[..k];
        if entries[k].isIntersecting {
          activeSection := entries[k].targetId;
        }
        k := k + 1;
      }
      assert entries[..k] == entries;
    }

    /** A nav-link click. `elementTops` gives, for each element id on the
        page, the top of its bounding rectangle; the result is the position
        passed to `window.scrollTo`, if the target exists. The mobile menu
        closes either way. */
    method HandleNavClick(href: string, elementTops: map<string, int>, scrollY: int)
      returns (scrollTarget: Option<int>)
      modifies this`isOpen
      ensures !isOpen
      ensures scrollTarget.Some? <==> TargetId(href) in elementTops
      ensures scrollTarget.Some? ==>
        scrollTarget.value == ScrollDestination(elementTops[TargetId(href)], scrollY)
    {
      var targetId := TargetId(href);
      if targetId in elementTops {
        scrollTarget := Some(ScrollDestination(elementTops[targetId], scrollY));
      } else {
        scrollTarget := None;
      }
      isOpen := false;
    }

    /** The mobile menu button. */
    method ToggleMenu()
      modifies this`isOpen
      ensures isOpen == !old(isOpen)
    {
      isOpen := !isOpen;
    }
  }
}
