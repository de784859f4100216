/**
 * The `Navbar` of src/components/layout/Navbar.tsx: which in-page section is
 * active for the current scroll position, whether that section is dark,
 * which link is highlighted, and the mobile menu flag.
 */
module Navbar {
  import opened Wrappers

  datatype NavItem = NavItem(caption: string, href: string)

  /** The default `darkSections`: no active section, and the two dark bands. */
  const DefaultDarkSections: seq<string> := ["", "liderazgo", "competitivo"]

  /** A link counts as active from this many pixels below the viewport top. */
  const ActivationLine: real := 100.0

  predicate IsHash(href: string) { |href| > 0 && href[0] == '#' }

  /** The section ids the navbar watches: the hash links' targets, in item order. */
  function Candidates(items: seq<NavItem>): (r: seq<string>)
    ensures |r| <= |items|
    ensures forall x :: x in r <==> exists j :: 0 <= j < |items| && IsHash(items[j].href) && items[j].href[1..] == x
  {
    if items == [] then []
    else
      var rest := Candidates(items[1..]);
      assert forall j :: 1 <= j < |items| ==> items[j] == items[1..][j - 1];
      if IsHash(items[0].href) then [items[0].href[1..]] + rest else rest
  }

  /** One item: its target when it is a hash link, nothing otherwise. */
  lemma CandidatesOne(item: NavItem)
    ensures Candidates([item]) == if IsHash(item.href) then [item.href[1..]] else []
  {
    assert [item][1..] == [];
  }

  /** Filtering and mapping keep the items' order: the candidates of a concatenation concatenate. */
  lemma {:induction false} CandidatesAppend(a: seq<NavItem>, b: seq<NavItem>)
    ensures Candidates(a + b) == Candidates(a) + Candidates(b)
    decreases |a|
  {
    if a == [] {
      assert a + b == b;
    } else {
      assert (a + b)[0] == a[0];
      assert (a + b)[1..] == a[1..] + b;
      CandidatesAppend(a[1..], b);
    }
  }

  /**
   * Whether a section counts as reached: its element exists and its top is
   * at or above the activation line. `tops` holds the elements'
   * `getBoundingClientRect().top`; `getElementById('')` finds no element,
   * so the empty id (a bare `#` link) is never reached.
   */
  predicate Reached(id: string, tops: map<string, real>) {
    id != "" && id in tops && tops[id] <= ActivationLine
  }

  /** The last reached section in order, as an index, or -1. */
  function LastReached(sections: seq<string>, tops: map<string, real>): (k: int)
    ensures -1 <= k < |sections|
    ensures k >= 0 ==> Reached(sections[k], tops)
    ensures forall j :: k < j < |sections| ==> !Reached(sections[j], tops)
  {
    if sections == [] then -1
    else if Reached(sections[|sections| - 1], tops) then |sections| - 1
    else LastReached(sections[..|sections| - 1], tops)
  }

  /** The section `handleScroll` makes active: the last reached one, or '' when none is. */
  function ActiveSection(sections: seq<string>, tops: map<string, real>): string {
    var k := LastReached(sections, tops);
    if k < 0 then "" else sections[k]
  }

  /**
   * `handleScroll`'s loop: walk the section ids from last to first and stop
   * at the first one reached.
   */
  method ScrollSelection(sections: seq<string>, tops: map<string, real>) returns (active: string)
    ensures active == ActiveSection(sections, tops)
    ensures active == "" || Reached(active, tops)
  {
    var i := |sections|;
    while i > 0
      invariant 0 <= i <= |sections|
      invariant LastReached(sections, tops) == LastReached(sections[..i], tops)
    {
      var sectionId := sections[i - 1];
      if sectionId != "" && sectionId in tops && tops[sectionId] <= ActivationLine {
        return sectionId;
      }
      assert sections[..i - 1] == sections[..i][..i - 1];
      i := i - 1;
    }
    active := "";
  }

  class NavbarState {
    const items: seq<NavItem>
    const darkSections: seq<string>
    /** The router's current path. */
    const pathname: string
    var menuOpen: bool
    var activeSection: string

    /** `darkSections` is optional and defaults to `DefaultDarkSections`. */
    constructor (items: seq<NavItem>, darkSections: Option<seq<string>>, pathname: string)
      ensures this.items == items && this.pathname == pathname
      ensures this.darkSections == darkSections.GetOr(DefaultDarkSections)
      ensures !menuOpen && activeSection == ""
    {
      this.items := items;
      this.darkSections := darkSections.GetOr(DefaultDarkSections);
      this.pathname := pathname;
      menuOpen := false;
      activeSection := "";
    }

    /** `darkSections.includes(activeSection)`. */
    function IsDarkSection(): (dark: bool)
      reads this
      ensures dark <==> exists i :: 0 <= i < |darkSections| && darkSections[i] == activeSection
    {
      activeSection in darkSections
    }

    /** Hash links compare with the active section, other links with the path. */
    function IsActive(href: string): (active: bool)
      reads this
      ensures |href| > 0 && href[0] == '#' ==> (active <==> "#" + activeSection == href)
      ensures !(|href| > 0 && href[0] == '#') ==> (active <==> pathname == href)
    {
      if IsHash(href) then activeSection == href[1..] else pathname == href
    }

    /** The scroll listener, and its first call on mount. */
    method HandleScroll(tops: map<string, real>)
      modifies this
      ensures activeSection == ActiveSection(Candidates(items), tops)
      ensures activeSection == "" || (activeSection in Candidates(items) && Reached(activeSection, tops))
      ensures menuOpen == old(menuOpen)
    {
      activeSection := ScrollSelection(Candidates(items), tops);
    }

    /** The hamburger button. */
    method ToggleMenu()
      modifies this
      ensures menuOpen == !old(menuOpen) && activeSection == old(activeSection)
    {
      menuOpen := !menuOpen;
    }

    /** A link in the mobile menu. */
    method MobileLinkClicked()
      modifies this
      ensures !menuOpen && activeSection == old(activeSection)
    {
      menuOpen := false;
    }
  }

  /** A hash link is highlighted exactly when its target is the active section. */
  lemma HashLinkActive(nav: NavbarState, id: string)
    ensures nav.IsActive("#" + id) <==> nav.activeSection == id
  {
    assert ("#" + id)[1..] == id;
  }

  /** With the default list, being above every section counts as dark. */
  lemma NoSectionIsDark(nav: NavbarState)
    requires nav.darkSections == DefaultDarkSections && nav.activeSection == ""
    ensures nav.IsDarkSection()
  {
    assert DefaultDarkSections[0] == "";
  }
}
