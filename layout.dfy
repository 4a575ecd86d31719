/** The page layout: the scroll-to-top threshold, its render gate, and how
    it relates to the header's own threshold. */
module Layout {
  import Header

  const ScrollTopThreshold: real := 400.0

  predicate ShowScrollTopAt(scrollY: real) {
    scrollY > ScrollTopThreshold
  }

  class LayoutState {
    var showScrollTop: bool
    var scrollListening: bool

    /** Mounting: the button hidden, the scroll listener added. */
    constructor ()
      ensures !showScrollTop && scrollListening
    {
      showScrollTop, scrollListening := false, true;
    }

    method OnScroll(scrollY: real)
      modifies this`showScrollTop
      ensures scrollListening ==> showScrollTop == ShowScrollTopAt(scrollY)
      ensures !scrollListening ==> showScrollTop == old(showScrollTop)
    {
      if scrollListening {
        showScrollTop := ShowScrollTopAt(scrollY);
      }
    }

    method Unmount()
      modifies this`scrollListening
      ensures !scrollListening
    {
      scrollListening := false;
    }

    /** `{showScrollTop && <ScrollToTop />}`. */
    function ScrollToTopRendered(): bool
      reads this
    {
      showScrollTop
    }
  }

  /** The pair of chrome flags one scroll offset produces. */
  function ChromeFlags(scrollY: real): (f: (bool, bool))
    ensures f.0 <==> scrollY > 50.0
    ensures f.1 <==> scrollY > 400.0
    ensures f.1 ==> f.0
    ensures f.0 && !f.1 <==> 50.0 < scrollY <= 400.0
  {
    (Header.ScrolledAt(scrollY), ShowScrollTopAt(scrollY))
  }

  /** The two thresholds are independent: 0, 200 and 500 give three different pairs. */
  lemma ThresholdExamples()
    ensures ChromeFlags(0.0) == (false, false)
    ensures ChromeFlags(200.0) == (true, false)
    ensures ChromeFlags(500.0) == (true, true)
  {
  }

  /** One scroll event delivered to both listeners leaves the flags agreeing with `ChromeFlags`. */
  method ScrollBoth(h: Header.HeaderState, l: LayoutState, scrollY: real)
    requires h.scrollListening && l.scrollListening
    modifies h`scrolled, l`showScrollTop
    ensures (h.scrolled, l.showScrollTop) == ChromeFlags(scrollY)
    ensures l.ScrollToTopRendered() ==> h.scrolled
  {
    h.OnScroll(scrollY);
    l.OnScroll(scrollY);
  }
}
