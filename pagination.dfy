/**
 * The page window of the gallery's pagination bar
 * (frontend/src/components/Pagination.jsx): which page numbers get a button,
 * when the ellipses show, and where the four navigation buttons lead.
 * Rendering and click handling are not modelled; a button is its target page
 * and its `disabled` flag.
 */
module Pagination {
  import opened Wrappers

  /** `maxVisible`: the most page buttons shown at once. */
  const MaxVisible: int := 5

  function Min(a: int, b: int): int {
    if a <= b then a else b
  }

  function Max(a: int, b: int): int {
    if a <= b then b else a
  }

  /** The pages `lo`, `lo + 1`, ..., `hi`, in increasing order. */
  function Range(lo: int, hi: int): (r: seq<int>)
    ensures |r| == Max(0, hi - lo + 1)
    ensures forall k :: 0 <= k < |r| ==> r[k] == lo + k
    decreases hi - lo
  {
    if hi < lo then [] else Range(lo, hi - 1) + [hi]
  }

  /** A page is in the range exactly when it lies between its ends. */
  lemma {:induction false} RangeMembers(lo: int, hi: int, page: int)
    ensures page in Range(lo, hi) <==> lo <= page <= hi
    decreases hi - lo
  {
    if lo <= hi {
      RangeMembers(lo, hi - 1, page);
    }
  }

  /** How many page buttons a window over `totalPages` pages holds. */
  function VisibleCount(totalPages: int): int {
    Min(MaxVisible, totalPages)
  }

  function Clamp(x: int, lo: int, hi: int): (c: int)
    requires lo <= hi
    ensures lo <= c <= hi
    ensures lo <= x <= hi ==> c == x
    ensures x < lo ==> c == lo
    ensures hi < x ==> c == hi
  {
    Max(lo, Min(x, hi))
  }

  /**
   * The intended window, stated independently of the component's steps:
   * VisibleCount(totalPages) consecutive pages, starting two before the current
   * page and shifted as little as needed to fit inside 1..totalPages.
   */
  function WindowStart(currentPage: int, totalPages: int): int {
    Clamp(currentPage - MaxVisible / 2, 1, totalPages - VisibleCount(totalPages) + 1)
  }

  function WindowEnd(currentPage: int, totalPages: int): int {
    WindowStart(currentPage, totalPages) + VisibleCount(totalPages) - 1
  }

  /**
   * With more than one page the window lies inside 1..totalPages, holds
   * VisibleCount(totalPages) pages and, for a current page in range, contains it.
   */
  lemma WindowFits(currentPage: int, totalPages: int)
    requires totalPages > 1
    ensures 1 <= WindowStart(currentPage, totalPages) <= WindowEnd(currentPage, totalPages) <= totalPages
    ensures 1 <= currentPage <= totalPages ==>
      WindowStart(currentPage, totalPages) <= currentPage <= WindowEnd(currentPage, totalPages)
  {
  }

  /**
   * The component's two-step computation of the window (a first guess from the
   * current page, moved back when it runs past the last page) yields the window.
   */
  lemma SourceWindow(currentPage: int, totalPages: int)
    requires totalPages > 1
    ensures var start := Max(1, currentPage - MaxVisible / 2);
      var end := Min(totalPages, start + MaxVisible - 1);
      && (if end - start + 1 < MaxVisible then Max(1, end - MaxVisible + 1) else start)
         == WindowStart(currentPage, totalPages)
      && end == WindowEnd(currentPage, totalPages)
  {
  }

  /** A navigation button: the page its click asks for, and whether it is disabled. */
  datatype NavButton = NavButton(target: int, disabled: bool)

  /** The four navigation buttons: first, previous, next and last. */
  datatype Controls = Controls(first: NavButton, previous: NavButton, next: NavButton, last: NavButton) {
    function Buttons(): seq<NavButton> {
      [first, previous, next, last]
    }
  }

  /** The buttons' targets and `disabled` conditions. */
  function NavControls(currentPage: int, totalPages: int): Controls {
    Controls(
      NavButton(1, currentPage == 1),
      NavButton(currentPage - 1, currentPage == 1),
      NavButton(currentPage + 1, currentPage == totalPages),
      NavButton(totalPages, currentPage == totalPages))
  }

  /**
   * On a page inside the range, a button is disabled exactly when following it
   * would leave the range or stay on the current page; an enabled button leads
   * to another existing page.
   */
  lemma ControlsLeadToOtherPages(currentPage: int, totalPages: int)
    requires 1 <= currentPage <= totalPages
    ensures forall b :: b in NavControls(currentPage, totalPages).Buttons() ==>
      (b.disabled <==> b.target == currentPage || b.target < 1 || totalPages < b.target)
  {
  }

  /** What the component renders when it renders anything. */
  datatype View = View(
    start: int,
    end: int,
    pages: seq<int>,
    leadingEllipsis: bool,
    trailingEllipsis: bool,
    controls: Controls)

  /**
   * `Pagination({currentPage, totalPages})`: nothing for a single page;
   * otherwise the window start..end of page buttons, the ellipses and the
   * navigation buttons.
   */
  method Render(currentPage: int, totalPages: int) returns (view: Option<View>)
    ensures view.None? <==> totalPages <= 1
    ensures view.Some? ==>
      var v := view.value;
      && v.start == WindowStart(currentPage, totalPages)
      && v.end == WindowEnd(currentPage, totalPages)
      && 1 <= v.start <= v.end <= totalPages
      && v.pages == Range(v.start, v.end)
      && |v.pages| == Min(MaxVisible, totalPages)
      && (1 <= currentPage <= totalPages ==> currentPage in v.pages)
      && (v.leadingEllipsis <==> 1 !in v.pages)
      && (v.trailingEllipsis <==> totalPages !in v.pages)
      && v.controls == NavControls(currentPage, totalPages)
  {
    if totalPages <= 1 {
      return None;
    }

    var start := Max(1, currentPage - MaxVisible / 2);
    var end := Min(totalPages, start + MaxVisible - 1);
    if end - start + 1 < MaxVisible {
      start := Max(1, end - MaxVisible + 1);
    }
    SourceWindow(currentPage, totalPages);
    WindowFits(currentPage, totalPages);

    var pages := [];
    var i := start;
    while i <= end
      invariant start <= i <= end + 1
      invariant pages == Range(start, i - 1)
    {
      pages := pages + [i];
      i := i + 1;
    }

    RangeMembers(start, end, 1);
    RangeMembers(start, end, totalPages);
    RangeMembers(start, end, currentPage);
    view := Some(View(start, end, pages, start > 1, end < totalPages, NavControls(currentPage, totalPages)));
  }
}
