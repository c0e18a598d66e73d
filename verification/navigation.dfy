/**
 * The navigation bar's scroll logic (src/components/Navigation.tsx): which
 * section is active after a scroll, whether the bar shows its scrolled
 * background, and where a click on a nav item scrolls to.
 */
module Navigation {

  import opened Options

  /** The nav item ids, top of the page first. */
  const NavItems: seq<string> := ["hero", "about", "experience", "skills", "projects", "contact"]

  /** A section counts as reached once its top is within this many pixels below the viewport top. */
  const ActivationLead: real := 100.0

  /** Past this scroll offset the bar shows its blurred background. */
  const ScrolledThreshold: real := 20.0

  /** Height of the fixed bar; a scroll target sits this far above the section. */
  const NavbarHeight: real := 80.0

  /**
   * The page as the navigation reads it: the `offsetTop` of every element that
   * `document.getElementById` finds. An id not in the map is a missing element.
   */
  type Document = map<string, real>

  datatype NavState = NavState(activeSection: string, isScrolled: bool)

  /** The state before the first scroll handler runs. */
  const InitialNav: NavState := NavState("hero", false)

  /** Item `i` has a section in the page and that section's top has been reached. */
  predicate Reached(doc: Document, items: seq<string>, i: int, scrollY: real)
    requires 0 <= i < |items|
  {
    items[i] in doc && doc[items[i]] <= scrollY + ActivationLead
  }

  /** The highest index below `n` whose section has been reached, if any. */
  function LastReached(doc: Document, items: seq<string>, scrollY: real, n: nat): (r: Option<nat>)
    requires n <= |items|
    ensures r.Some? ==> r.value < n && Reached(doc, items, r.value, scrollY)
    ensures r.Some? ==> forall j :: r.value < j < n ==> !Reached(doc, items, j, scrollY)
    ensures r.None? ==> forall j :: 0 <= j < n ==> !Reached(doc, items, j, scrollY)
  {
    if n == 0 then None
    else if Reached(doc, items, n - 1, scrollY) then Some(n - 1)
    else LastReached(doc, items, scrollY, n - 1)
  }

  /** The active section the scan settles on: the last reached item, or the old one when none is reached. */
  function ActiveAfterScroll(doc: Document, items: seq<string>, scrollY: real, active: string): string
  {
    match LastReached(doc, items, scrollY, |items|)
    case None => active
    case Some(i) => items[i]
  }

  /** Any reached item with nothing reached after it is the one the reference scan picks. */
  lemma LastReachedUnique(doc: Document, items: seq<string>, scrollY: real, i: int)
    requires 0 <= i < |items| && Reached(doc, items, i, scrollY)
    requires forall j :: i < j < |items| ==> !Reached(doc, items, j, scrollY)
    ensures LastReached(doc, items, scrollY, |items|) == Some(i)
  {
  }

  /**
   * `handleScroll`: record whether the page is scrolled past 20 px, then scan
   * the items from the last to the first and activate the first (highest)
   * one whose section exists and whose top is at most 100 px below the
   * viewport top. Missing sections are skipped; if nothing qualifies the
   * active section stays.
   */
  method HandleScroll(st: NavState, doc: Document, items: seq<string>, scrollY: real) returns (r: NavState)
    ensures r.isScrolled <==> scrollY > ScrolledThreshold
    ensures r.activeSection == ActiveAfterScroll(doc, items, scrollY, st.activeSection)
    ensures (forall i :: 0 <= i < |items| ==> !Reached(doc, items, i, scrollY)) ==> r.activeSection == st.activeSection
    ensures r.activeSection == st.activeSection || exists i :: 0 <= i < |items| && r.activeSection == items[i] && Reached(doc, items, i, scrollY)
  {
    r := st.(isScrolled := scrollY > ScrolledThreshold);
    var i := |items| - 1;
    while i >= 0
      invariant -1 <= i < |items|
      invariant r == st.(isScrolled := scrollY > ScrolledThreshold)
      invariant forall j :: i < j < |items| ==> !Reached(doc, items, j, scrollY)
    {
      if items[i] in doc && doc[items[i]] <= scrollY + ActivationLead {
        LastReachedUnique(doc, items, scrollY, i);
        r := r.(activeSection := items[i]);
        return;
      }
      i := i - 1;
    }
  }

  /** Where `scrollToSection` sends the window, and the state it leaves. */
  datatype ScrollRequest = ScrollRequest(top: Option<real>, state: NavState)

  /**
   * `scrollToSection`: for a section in the page, scroll to 80 px above its top
   * and activate it at once; for a missing one, do nothing.
   */
  function ScrollToSection(st: NavState, doc: Document, id: string): (r: ScrollRequest)
    ensures id in doc ==> r.top == Some(doc[id] - NavbarHeight) && r.state == st.(activeSection := id)
    ensures id !in doc ==> r.top == None && r.state == st
  {
    if id in doc then ScrollRequest(Some(doc[id] - NavbarHeight), st.(activeSection := id))
    else ScrollRequest(None, st)
  }

  /**
   * The scroll target of a nav item lands where the scroll handler counts that
   * item as reached, so the next scan picks it or an item after it.
   */
  lemma ScrollTargetIsReached(st: NavState, doc: Document, items: seq<string>, k: int)
    requires 0 <= k < |items| && items[k] in doc
    ensures var target := ScrollToSection(st, doc, items[k]).top.value;
      && Reached(doc, items, k, target)
      && LastReached(doc, items, target, |items|).Some?
      && LastReached(doc, items, target, |items|).value >= k
  {
    var target := doc[items[k]] - NavbarHeight;
    assert Reached(doc, items, k, target);
  }

  /**
   * When every later section starts more than 20 px below item `k`'s section
   * (or is missing), scrolling to item `k` makes the next scan keep item `k`
   * active.
   */
  lemma ScrollThenScanAgrees(st: NavState, doc: Document, items: seq<string>, k: int)
    requires 0 <= k < |items| && items[k] in doc
    requires forall j :: k < j < |items| && items[j] in doc ==> doc[items[j]] > doc[items[k]] + ActivationLead - NavbarHeight
    ensures var req := ScrollToSection(st, doc, items[k]);
      ActiveAfterScroll(doc, items, req.top.value, req.state.activeSection) == items[k]
  {
    var target := doc[items[k]] - NavbarHeight;
    LastReachedUnique(doc, items, target, k);
  }
}
