/** The site header: the scrolled threshold, the mobile drawer that every
    navigation closes, and exact-match active navigation items. */
module Header {
  import opened Common

  datatype NavItem = NavItem(name: string, href: string)

  const Navigation: seq<NavItem> := [
    NavItem("Home", "/"),
    NavItem("Projects", "/projects"),
    NavItem("Blog", "/blog"),
    NavItem("About", "/about"),
    NavItem("Contact", "/contact")
  ]

  const ScrolledThreshold: real := 50.0

  predicate ScrolledAt(scrollY: real) {
    scrollY > ScrolledThreshold
  }

  predicate IsActive(pathname: string, item: NavItem) {
    pathname == item.href
  }

  /** The index of the active item, searching from position `from`. */
  function ActiveFrom(pathname: string, from: nat): (r: Option<nat>)
    requires from <= |Navigation|
    ensures r.Some? ==> from <= r.value < |Navigation| && IsActive(pathname, Navigation[r.value])
    ensures r.Some? ==> forall i :: from <= i < r.value ==> !IsActive(pathname, Navigation[i])
    ensures r.None? <==> forall i :: from <= i < |Navigation| ==> !IsActive(pathname, Navigation[i])
    decreases |Navigation| - from
  {
    if from == |Navigation| then None
    else if IsActive(pathname, Navigation[from]) then Some(from)
    else ActiveFrom(pathname, from + 1)
  }

  /** The navigation hrefs are pairwise distinct. */
  lemma HrefsDistinct()
    ensures forall i, j :: 0 <= i < j < |Navigation| ==> Navigation[i].href != Navigation[j].href
  {
  }

  /** At most one item is active, and it is the one `ActiveFrom` finds. */
  lemma {:induction false} AtMostOneActive(pathname: string)
    ensures forall i, j ::
      (0 <= i < |Navigation| && 0 <= j < |Navigation|
       && IsActive(pathname, Navigation[i]) && IsActive(pathname, Navigation[j])) ==> i == j
  {
    HrefsDistinct();
  }

  /** A detail path activates no item: matching is exact, not by prefix. */
  lemma DetailPathActivatesNothing(slug: string)
    ensures ActiveFrom("/projects/" + slug, 0).None?
  {
    forall i | 0 <= i < |Navigation| ensures !IsActive("/projects/" + slug, Navigation[i]) {
      assert |Navigation[i].href| < |"/projects/" + slug|;
    }
  }

  class HeaderState {
    var isOpen: bool
    var scrolled: bool
    var pathname: string
    var scrollListening: bool

    /** Mounting: both flags false, the scroll listener added. */
    constructor (pathname: string)
      ensures !isOpen && !scrolled && this.pathname == pathname && scrollListening
    {
      isOpen, scrolled := false, false;
      this.pathname := pathname;
      scrollListening := true;
    }

    /** A window scroll event reaches the handler only while it is attached. */
    method OnScroll(scrollY: real)
      modifies this`scrolled
      ensures scrollListening ==> scrolled == ScrolledAt(scrollY)
      ensures !scrollListening ==> scrolled == old(scrolled)
    {
      if scrollListening {
        scrolled := ScrolledAt(scrollY);
      }
    }

    /** The menu button. */
    method ToggleMenu()
      modifies this`isOpen
      ensures isOpen == !old(isOpen)
    {
      isOpen := !isOpen;
    }

    /** Any location change, to a new path or the same one, closes the drawer. */
    method Navigate(path: string)
      modifies this`pathname, this`isOpen
      ensures pathname == path && !isOpen
    {
      pathname := path;
      isOpen := false;
    }

    /** The effect cleanup removes the scroll listener. */
    method Unmount()
      modifies this`scrollListening
      ensures !scrollListening
    {
      scrollListening := false;
    }

    function MobileMenuShown(): bool
      reads this
    {
      isOpen
    }

    function ActiveItem(): (r: Option<nat>)
      reads this
      ensures r.Some? ==> r.value < |Navigation| && Navigation[r.value].href == pathname
      ensures r.None? <==> forall i :: 0 <= i < |Navigation| ==> Navigation[i].href != pathname
    {
      ActiveFrom(pathname, 0)
    }
  }
}
