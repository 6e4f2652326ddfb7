/**
 * The pure arithmetic of the home page's pagination bar: the page count, the window of
 * page numbers around the current page, the "1 …" and "… N" blocks and the Prev/Next
 * buttons. Every function here takes the number of pages and the current page and
 * computes what is rendered; nothing is clamped.
 */
module Pagination {

  /** Students requested per page (`limit`). */
  const Limit: nat := 10

  /** `Math.ceil(totalStudents / limit)`. */
  function TotalPages(totalStudents: nat): (pages: nat)
    ensures pages == 0 <==> totalStudents == 0
    ensures totalStudents <= pages * Limit
    ensures totalStudents > 0 ==> (pages - 1) * Limit < totalStudents
  {
    (totalStudents + Limit - 1) / Limit
  }

  /** The guard of `handlePageChange`: only pages 1 .. totalPages are accepted. */
  predicate Accepts(page: int, totalPages: nat) {
    1 <= page <= totalPages
  }

  function Abs(x: int): nat {
    if x < 0 then -x else x
  }

  function Min(a: int, b: int): int {
    if a <= b then a else b
  }

  function Max(a: int, b: int): int {
    if a <= b then b else a
  }

  /** The consecutive integers lo, lo + 1, ..., hi (empty when hi < lo). */
  function Span(lo: int, hi: int): seq<int> {
    if hi < lo then [] else seq(hi - lo + 1, i => lo + i)
  }

  /** `[...Array(n).keys()]`. */
  function Keys(n: nat): seq<int> {
    seq(n, i => i)
  }

  /** `.filter((page) => Math.abs(page + 1 - currentPage) <= 2)` on zero-based keys. */
  function NearCurrent(keys: seq<int>, current: int): seq<int> {
    if keys == [] then []
    else (if Abs(keys[0] + 1 - current) <= 2 then [keys[0]] else []) + NearCurrent(keys[1..], current)
  }

  /** `.map((page) => page + 1)`: the one-based page numbers of the kept keys. */
  function Labels(keys: seq<int>): seq<int> {
    seq(|keys|, i requires 0 <= i < |keys| => keys[i] + 1)
  }

  /** The page numbers rendered between the "1 …" and "… N" blocks. */
  function Window(totalPages: nat, current: int): seq<int> {
    Labels(NearCurrent(Keys(totalPages), current))
  }

  /** `currentPage > 3`: the "1 …" block is rendered. */
  predicate ShowLeading(current: int) {
    current > 3
  }

  /** `currentPage < totalPages - 2`: the "… totalPages" block is rendered. */
  predicate ShowTrailing(totalPages: nat, current: int) {
    current < totalPages - 2
  }

  /**
   * One control of the pagination bar. `page` is the page its click hands to
   * `handlePageChange`; an ellipsis is disabled and has no click handler.
   */
  datatype Control =
    | Prev(page: int, disabled: bool)
    | Item(page: int, active: bool)
    | Ellipsis
    | Next(page: int, disabled: bool)

  /** `.map(...)` of the window into items, the current page marked active. */
  function WindowItems(pages: seq<int>, current: int): seq<Control> {
    if pages == [] then []
    else [Item(pages[0], pages[0] == current)] + WindowItems(pages[1..], current)
  }

  /** The "1 …" block. */
  function LeadingBlock(current: int): seq<Control> {
    if ShowLeading(current) then [Item(1, false), Ellipsis] else []
  }

  /** The "… totalPages" block. */
  function TrailingBlock(totalPages: nat, current: int): seq<Control> {
    if ShowTrailing(totalPages, current) then [Ellipsis, Item(totalPages, false)] else []
  }

  /** The whole `<Pagination>` element, control by control, left to right. */
  function Bar(totalPages: nat, current: int): seq<Control> {
    [Prev(current - 1, current == 1)]
    + LeadingBlock(current)
    + WindowItems(Window(totalPages, current), current)
    + TrailingBlock(totalPages, current)
    + [Next(current + 1, current == totalPages)]
  }

  /** The page numbers of the bar's items, left to right. */
  function ItemPages(bar: seq<Control>): seq<int> {
    if bar == [] then []
    else (if bar[0].Item? then [bar[0].page] else []) + ItemPages(bar[1..])
  }

  /** The page numbers of the bar's items marked active, left to right. */
  function ActivePages(bar: seq<Control>): seq<int> {
    if bar == [] then []
    else (if bar[0].Item? && bar[0].active then [bar[0].page] else []) + ActivePages(bar[1..])
  }

  predicate StrictlyIncreasing(s: seq<int>) {
    forall i, j :: 0 <= i < j < |s| ==> s[i] < s[j]
  }

  // ---------------------------------------------------------------------------
  // The window

  lemma SpanCons(lo: int, hi: int)
    requires lo <= hi
    ensures Span(lo, hi) == [lo] + Span(lo + 1, hi)
  {
  }

  lemma {:induction false} NearCurrentOfSpan(lo: int, hi: int, current: int)
    ensures NearCurrent(Span(lo, hi), current) == Span(Max(lo, current - 3), Min(hi, current + 1))
    decreases hi - lo + 1
  {
    if lo <= hi {
      SpanCons(lo, hi);
      NearCurrentOfSpan(lo + 1, hi, current);
      var top := Min(hi, current + 1);
      if current - 3 <= lo <= current + 1 {
        SpanCons(lo, top);
      }
    }
  }

  /** The window is the run of pages from max(1, current - 2) to min(totalPages, current + 2). */
  lemma WindowIsSpan(totalPages: nat, current: int)
    ensures Window(totalPages, current) == Span(Max(1, current - 2), Min(totalPages, current + 2))
  {
    assert Keys(totalPages) == Span(0, totalPages - 1);
    NearCurrentOfSpan(0, totalPages - 1, current);
    var kept := NearCurrent(Keys(totalPages), current);
    assert Labels(kept) == Span(Max(1, current - 2), Min(totalPages, current + 2));
  }

  /** A page is in the window exactly when it exists and lies within 2 of the current page. */
  lemma WindowMembers(totalPages: nat, current: int)
    ensures forall p :: p in Window(totalPages, current) <==> 1 <= p <= totalPages && Abs(p - current) <= 2
  {
    WindowIsSpan(totalPages, current);
    var w := Window(totalPages, current);
    forall p | 1 <= p <= totalPages && Abs(p - current) <= 2
      ensures p in w
    {
      assert w[p - Max(1, current - 2)] == p;
    }
  }

  /** The window ascends by one, holds at most five pages and is empty when there are no pages. */
  lemma WindowShape(totalPages: nat, current: int)
    ensures var w := Window(totalPages, current);
      && |w| <= 5
      && (forall i :: 0 <= i < |w| - 1 ==> w[i + 1] == w[i] + 1)
      && (totalPages == 0 ==> w == [])
      && (w != [] <==> 1 <= totalPages && current - 2 <= totalPages && 1 <= current + 2)
  {
    WindowIsSpan(totalPages, current);
  }

  // ---------------------------------------------------------------------------
  // The bar

  lemma {:induction false} ItemPagesAppend(a: seq<Control>, b: seq<Control>)
    ensures ItemPages(a + b) == ItemPages(a) + ItemPages(b)
  {
    if a != [] {
      assert (a + b)[1..] == a[1..] + b;
      ItemPagesAppend(a[1..], b);
    } else {
      assert a + b == b;
    }
  }

  lemma {:induction false} ActivePagesAppend(a: seq<Control>, b: seq<Control>)
    ensures ActivePages(a + b) == ActivePages(a) + ActivePages(b)
  {
    if a != [] {
      assert (a + b)[1..] == a[1..] + b;
      ActivePagesAppend(a[1..], b);
    } else {
      assert a + b == b;
    }
  }

  lemma {:induction false} WindowItemsPages(lo: int, hi: int, current: int)
    ensures ItemPages(WindowItems(Span(lo, hi), current)) == Span(lo, hi)
    ensures ActivePages(WindowItems(Span(lo, hi), current)) == if lo <= current <= hi then [current] else []
    decreases hi - lo + 1
  {
    if lo <= hi {
      assert Span(lo, hi)[1..] == Span(lo + 1, hi);
      WindowItemsPages(lo + 1, hi, current);
      assert Span(lo, hi) == [lo] + Span(lo + 1, hi);
    }
  }

  lemma SinglePages(x: Control)
    ensures ItemPages([x]) == if x.Item? then [x.page] else []
    ensures ActivePages([x]) == if x.Item? && x.active then [x.page] else []
  {
    assert [x][1..] == [];
  }

  lemma PairPages(x: Control, y: Control)
    ensures ItemPages([x, y]) == ItemPages([x]) + ItemPages([y])
    ensures ActivePages([x, y]) == ActivePages([x]) + ActivePages([y])
  {
    assert [x, y] == [x] + [y];
    ItemPagesAppend([x], [y]);
    ActivePagesAppend([x], [y]);
  }

  lemma BlockPages(totalPages: nat, current: int)
    ensures ItemPages(LeadingBlock(current)) == if ShowLeading(current) then [1] else []
    ensures ItemPages(TrailingBlock(totalPages, current)) == if ShowTrailing(totalPages, current) then [totalPages] else []
    ensures ActivePages(LeadingBlock(current)) == [] && ActivePages(TrailingBlock(totalPages, current)) == []
  {
    SinglePages(Item(1, false));
    SinglePages(Ellipsis);
    SinglePages(Item(totalPages, false));
    PairPages(Item(1, false), Ellipsis);
    PairPages(Ellipsis, Item(totalPages, false));
  }

  lemma ItemPagesOfParts(prev: Control, leading: seq<Control>, items: seq<Control>, trailing: seq<Control>, next: Control)
    requires !prev.Item? && !next.Item?
    ensures ItemPages([prev] + leading + items + trailing + [next])
      == ItemPages(leading) + ItemPages(items) + ItemPages(trailing)
  {
    SinglePages(prev);
    SinglePages(next);
    ItemPagesAppend([prev], leading);
    ItemPagesAppend([prev] + leading, items);
    ItemPagesAppend([prev] + leading + items, trailing);
    ItemPagesAppend([prev] + leading + items + trailing, [next]);
  }

  lemma ActivePagesOfParts(prev: Control, leading: seq<Control>, items: seq<Control>, trailing: seq<Control>, next: Control)
    requires !prev.Item? && !next.Item?
    ensures ActivePages([prev] + leading + items + trailing + [next])
      == ActivePages(leading) + ActivePages(items) + ActivePages(trailing)
  {
    SinglePages(prev);
    SinglePages(next);
    ActivePagesAppend([prev], leading);
    ActivePagesAppend([prev] + leading, items);
    ActivePagesAppend([prev] + leading + items, trailing);
    ActivePagesAppend([prev] + leading + items + trailing, [next]);
  }

  lemma WindowItemsOfWindow(totalPages: nat, current: int)
    ensures ItemPages(WindowItems(Window(totalPages, current), current)) == Window(totalPages, current)
    ensures ActivePages(WindowItems(Window(totalPages, current), current))
      == if 1 <= current <= totalPages then [current] else []
  {
    WindowIsSpan(totalPages, current);
    WindowItemsPages(Max(1, current - 2), Min(totalPages, current + 2), current);
  }

  /** The items of the bar are "1" if the leading block shows, the window, then "N" if the trailing block shows. */
  lemma BarPages(totalPages: nat, current: int)
    ensures ItemPages(Bar(totalPages, current))
      == (if ShowLeading(current) then [1] else [])
       + Window(totalPages, current)
       + (if ShowTrailing(totalPages, current) then [totalPages] else [])
    ensures ActivePages(Bar(totalPages, current))
      == if 1 <= current <= totalPages then [current] else []
  {
    WindowItemsOfWindow(totalPages, current);
    BlockPages(totalPages, current);
    var prev, next := Prev(current - 1, current == 1), Next(current + 1, current == totalPages);
    var leading, trailing := LeadingBlock(current), TrailingBlock(totalPages, current);
    var items := WindowItems(Window(totalPages, current), current);
    ItemPagesOfParts(prev, leading, items, trailing, next);
    ActivePagesOfParts(prev, leading, items, trailing, next);
  }

  lemma ConcatIncreasing(a: seq<int>, b: seq<int>)
    requires StrictlyIncreasing(a) && StrictlyIncreasing(b)
    requires a != [] && b != [] ==> a[|a| - 1] < b[0]
    ensures StrictlyIncreasing(a + b)
  {
    var s := a + b;
    forall i, j | 0 <= i < j < |s|
      ensures s[i] < s[j]
    {
      if i < |a| && |a| <= j {
        assert a[i] <= a[|a| - 1] && b[0] <= b[j - |a|];
      }
    }
  }

  /**
   * No page number is rendered twice: the item labels of the bar strictly ascend, so when
   * "1 …" shows, page 1 is not in the window, and when "… N" shows, N is not.
   */
  lemma BarPagesAscend(totalPages: nat, current: int)
    ensures StrictlyIncreasing(ItemPages(Bar(totalPages, current)))
    ensures ShowLeading(current) ==> 1 !in Window(totalPages, current)
    ensures ShowTrailing(totalPages, current) ==> totalPages !in Window(totalPages, current)
  {
    BarPages(totalPages, current);
    WindowIsSpan(totalPages, current);
    WindowMembers(totalPages, current);
    var w := Window(totalPages, current);
    var leading: seq<int> := if ShowLeading(current) then [1] else [];
    var trailing: seq<int> := if ShowTrailing(totalPages, current) then [totalPages] else [];
    ConcatIncreasing(leading, w);
    ConcatIncreasing(leading + w, trailing);
  }

  /**
   * The pages the "1 …" block leaves out are 2 .. window start - 1: there are
   * current - 4 of them, so at page 4 the ellipsis stands for no page at all.
   */
  lemma LeadingEllipsisGap(totalPages: nat, current: int)
    requires ShowLeading(current) && current - 2 <= totalPages
    ensures var w := Window(totalPages, current);
      w != [] && w[0] == current - 2 && |Span(2, w[0] - 1)| == current - 4
  {
    WindowIsSpan(totalPages, current);
  }

  /**
   * The pages the "… N" block leaves out are window end + 1 .. N - 1: there are
   * totalPages - current - 3 of them, none at page totalPages - 3.
   */
  lemma TrailingEllipsisGap(totalPages: nat, current: int)
    requires ShowTrailing(totalPages, current) && current >= 1
    ensures var w := Window(totalPages, current);
      w != [] && w[|w| - 1] == current + 2 && |Span(w[|w| - 1] + 1, totalPages - 1)| == totalPages - current - 3
  {
    WindowIsSpan(totalPages, current);
  }

  /**
   * Prev and Next ask for the neighbouring pages. A disabled button's request is one the
   * guard refuses; on a page in range a button is enabled exactly when the guard accepts its
   * request. Beyond the last page (possible after the total shrinks, and at the start, when
   * page 1 is shown with no pages) Next stays enabled but its request is refused; two or
   * more pages beyond it, the same holds for Prev.
   */
  lemma NavigationGuard(totalPages: nat, current: int)
    requires current >= 1
    ensures Bar(totalPages, current)[0] == Prev(current - 1, current == 1)
    ensures Bar(totalPages, current)[|Bar(totalPages, current)| - 1] == Next(current + 1, current == totalPages)
    ensures current == 1 ==> !Accepts(current - 1, totalPages)
    ensures current == totalPages ==> !Accepts(current + 1, totalPages)
    ensures current <= totalPages ==>
      (Accepts(current - 1, totalPages) <==> current != 1) && (Accepts(current + 1, totalPages) <==> current != totalPages)
    ensures totalPages < current ==> current != totalPages && !Accepts(current + 1, totalPages)
    ensures totalPages + 1 < current ==> current != 1 && !Accepts(current - 1, totalPages)
  {
  }

  /** Clicking any numbered item of a non-empty bar requests a page the guard accepts. */
  lemma ItemsAccepted(totalPages: nat, current: int)
    requires totalPages >= 1
    ensures forall p :: p in ItemPages(Bar(totalPages, current)) ==> Accepts(p, totalPages)
  {
    BarPages(totalPages, current);
    WindowMembers(totalPages, current);
  }

  /** Page counts for a few totals. */
  lemma TotalPagesExamples()
    ensures TotalPages(95) == 10 && TotalPages(100) == 10 && TotalPages(101) == 11 && TotalPages(1) == 1
  {
  }

  /** On page 5 of at least 8 pages the window is 3 .. 7 and both blocks show. */
  lemma PageFiveExample(totalPages: nat)
    requires totalPages >= 8
    ensures Window(totalPages, 5) == [3, 4, 5, 6, 7] && ShowLeading(5) && ShowTrailing(totalPages, 5)
  {
    WindowIsSpan(totalPages, 5);
    assert Span(3, 7) == [3, 4, 5, 6, 7];
  }

  /** On page 1 of one page both buttons are disabled; with no pages at all Next is not. */
  lemma FirstPageExamples()
    ensures Bar(3, 1) == [Prev(0, true), Item(1, true), Item(2, false), Item(3, false), Next(2, false)]
    ensures Bar(1, 1) == [Prev(0, true), Item(1, true), Next(2, true)]
    ensures Bar(0, 1) == [Prev(0, true), Next(2, false)]
  {
    WindowIsSpan(3, 1);
    assert Span(1, 3) == [1, 2, 3];
    assert WindowItems([1, 2, 3], 1) == [Item(1, true), Item(2, false), Item(3, false)];
    WindowIsSpan(1, 1);
    assert Span(1, 1) == [1];
    assert WindowItems([1], 1) == [Item(1, true)];
    WindowIsSpan(0, 1);
  }

  /**
   * On page 4 of at least 7 pages the bar reads "‹ 1 … 2 3 [4] 5 6 … N ›": the leading
   * ellipsis sits between pages 1 and 2 and stands for no page.
   */
  lemma PageFourExample(totalPages: nat)
    requires totalPages >= 7
    ensures Bar(totalPages, 4) == [Prev(3, false), Item(1, false), Ellipsis,
                                   Item(2, false), Item(3, false), Item(4, true), Item(5, false), Item(6, false),
                                   Ellipsis, Item(totalPages, false), Next(5, false)]
  {
    PageFourItems(totalPages);
    assert LeadingBlock(4) == [Item(1, false), Ellipsis];
    assert TrailingBlock(totalPages, 4) == [Ellipsis, Item(totalPages, false)];
  }

  lemma PageFourItems(totalPages: nat)
    requires totalPages >= 7
    ensures WindowItems(Window(totalPages, 4), 4)
      == [Item(2, false), Item(3, false), Item(4, true), Item(5, false), Item(6, false)]
  {
    WindowIsSpan(totalPages, 4);
    assert Span(2, 6) == [2, 3, 4, 5, 6];
    var items := [Item(2, false), Item(3, false), Item(4, true), Item(5, false), Item(6, false)];
    assert WindowItems([6], 4) == items[4..];
    assert WindowItems([5, 6], 4) == items[3..];
    assert WindowItems([4, 5, 6], 4) == items[2..];
    assert WindowItems([3, 4, 5, 6], 4) == items[1..];
  }
}
