/** The history pagination bar, buildHistoryPageItems in
    server/internal/modules/weather/controller/handlers.go. */
module WeatherPagination {

  /** views.PaginationItem: a page link, or an ellipsis (whose Page is 0). */
  datatype PaginationItem = PaginationItem(page: int, ellipsis: bool)

  function PageItem(p: int): PaginationItem {
    PaginationItem(p, false)
  }

  const EllipsisItem := PaginationItem(0, true)

  /** Pages within this distance of the current page are shown. */
  const Window := 2

  /** The pages the bar shows: the first, the last, and those within the window around the
      current page, all clamped to [1, totalPages]. */
  predicate IsShown(p: int, totalPages: int, currentPage: int) {
    1 <= p <= totalPages && (p == 1 || p == totalPages || currentPage - Window <= p <= currentPage + Window)
  }

  predicate StrictlyIncreasing(s: seq<int>) {
    forall i, j :: 0 <= i < j < |s| ==> s[i] < s[j]
  }

  /** The shown pages from p upwards, in increasing order: a reference enumeration of IsShown. */
  function ShownFrom(p: int, totalPages: int, currentPage: int): (s: seq<int>)
    decreases totalPages - p
  {
    if p > totalPages then []
    else (if IsShown(p, totalPages, currentPage) then [p] else []) + ShownFrom(p + 1, totalPages, currentPage)
  }

  function ShownPages(totalPages: int, currentPage: int): seq<int> {
    ShownFrom(1, totalPages, currentPage)
  }

  lemma {:induction false} ShownFromFacts(p: int, totalPages: int, currentPage: int)
    ensures StrictlyIncreasing(ShownFrom(p, totalPages, currentPage))
    ensures forall x :: x in ShownFrom(p, totalPages, currentPage) <==> p <= x && IsShown(x, totalPages, currentPage)
    decreases totalPages - p
  {
    if p <= totalPages {
      var rest := ShownFrom(p + 1, totalPages, currentPage);
      ShownFromFacts(p + 1, totalPages, currentPage);
      assert forall j :: 0 <= j < |rest| ==> rest[j] > p by {
        assert forall j :: 0 <= j < |rest| ==> rest[j] in rest;
      }
    }
  }

  /** The ellipsis between two consecutive shown pages, if they are not adjacent; prev == 0
      stands for "no page yet". */
  function Gap(prev: int, p: int): seq<PaginationItem> {
    if prev != 0 && p > prev + 1 then [EllipsisItem] else []
  }

  /** The item loop: each page is preceded by an ellipsis when it skips pages after `prev`. */
  function Bar(ps: seq<int>, prev: int): seq<PaginationItem> {
    if ps == [] then [] else Gap(prev, ps[0]) + [PageItem(ps[0])] + Bar(ps[1..], ps[0])
  }

  /** What buildHistoryPageItems returns: nil without pages, otherwise the bar over the shown
      pages in increasing order. */
  function PageItems(totalPages: int, currentPage: int): seq<PaginationItem> {
    if totalPages <= 0 then [] else Bar(ShownPages(totalPages, currentPage), 0)
  }

  /** The page numbers of the bar, in order, ellipses dropped. */
  function Pages(items: seq<PaginationItem>): seq<int> {
    if items == [] then [] else (if items[0].ellipsis then [] else [items[0].page]) + Pages(items[1..])
  }

  lemma {:induction false} PagesAppend(a: seq<PaginationItem>, b: seq<PaginationItem>)
    ensures Pages(a + b) == Pages(a) + Pages(b)
  {
    if a == [] {
      assert a + b == b;
    } else {
      assert (a + b)[1..] == a[1..] + b;
      PagesAppend(a[1..], b);
    }
  }

  /** The bar lists exactly the given pages, in the given order. */
  lemma {:induction false} BarPages(ps: seq<int>, prev: int)
    ensures Pages(Bar(ps, prev)) == ps
  {
    if ps != [] {
      var g := Gap(prev, ps[0]);
      PagesAppend(g + [PageItem(ps[0])], Bar(ps[1..], ps[0]));
      PagesAppend(g, [PageItem(ps[0])]);
      assert Pages([PageItem(ps[0])]) == [ps[0]] by {
        assert [PageItem(ps[0])][1..] == [];
      }
      assert Pages(g) == [] by {
        if g != [] {
          assert g[1..] == [];
        }
      }
      BarPages(ps[1..], ps[0]);
    }
  }

  /** The ends of the bar: it finishes with the last page, and it opens with an ellipsis exactly
      when the first page skips pages after `prev`, followed by that first page. */
  lemma {:induction false} BarEnds(ps: seq<int>, prev: int)
    requires ps != [] && StrictlyIncreasing(ps) && 1 <= ps[0]
    requires prev == 0 || 1 <= prev < ps[0]
    ensures |Bar(ps, prev)| >= 1
    ensures Bar(ps, prev)[|Bar(ps, prev)| - 1] == PageItem(ps[|ps| - 1])
    ensures Bar(ps, prev)[0].ellipsis <==> prev != 0 && ps[0] > prev + 1
    ensures Bar(ps, prev)[0].ellipsis ==> |Bar(ps, prev)| >= 2 && Bar(ps, prev)[1] == PageItem(ps[0])
    ensures !Bar(ps, prev)[0].ellipsis ==> Bar(ps, prev)[0] == PageItem(ps[0])
  {
    var g := Gap(prev, ps[0]);
    var tail := Bar(ps[1..], ps[0]);
    assert Bar(ps, prev) == g + [PageItem(ps[0])] + tail;
    if |ps| > 1 {
      BarEnds(ps[1..], ps[0]);
    }
  }

  /** An ellipsis stands between two pages that are more than one apart. */
  lemma {:induction false} BarGaps(ps: seq<int>, prev: int)
    requires ps != [] && StrictlyIncreasing(ps) && 1 <= ps[0]
    requires prev == 0 || 1 <= prev < ps[0]
    ensures var items := Bar(ps, prev);
      forall i :: 0 < i < |items| - 1 && items[i].ellipsis ==>
        !items[i - 1].ellipsis && !items[i + 1].ellipsis && items[i + 1].page > items[i - 1].page + 1
  {
    var g := Gap(prev, ps[0]);
    var head := g + [PageItem(ps[0])];
    var tail := Bar(ps[1..], ps[0]);
    var items := Bar(ps, prev);
    assert items == head + tail;
    if |ps| > 1 {
      BarEnds(ps[1..], ps[0]);
      BarGaps(ps[1..], ps[0]);
      forall i | 0 < i < |items| - 1 && items[i].ellipsis
        ensures !items[i - 1].ellipsis && !items[i + 1].ellipsis && items[i + 1].page > items[i - 1].page + 1
      {
        if i >= |head| {
          var j := i - |head|;
          assert items[i] == tail[j];
          if j == 0 {
            assert items[i - 1] == PageItem(ps[0]);
            assert items[i + 1] == tail[1] == PageItem(ps[1]);
          } else {
            assert items[i - 1] == tail[j - 1] && items[i + 1] == tail[j + 1];
          }
        }
      }
    }
  }

  /** Two pages side by side in the bar are adjacent page numbers. */
  lemma {:induction false} BarSteps(ps: seq<int>, prev: int)
    requires ps != [] && StrictlyIncreasing(ps) && 1 <= ps[0]
    requires prev == 0 || 1 <= prev < ps[0]
    ensures var items := Bar(ps, prev);
      forall i :: 0 <= i < |items| - 1 && !items[i].ellipsis && !items[i + 1].ellipsis ==>
        items[i + 1].page == items[i].page + 1
  {
    var g := Gap(prev, ps[0]);
    var head := g + [PageItem(ps[0])];
    var tail := Bar(ps[1..], ps[0]);
    var items := Bar(ps, prev);
    assert items == head + tail;
    if |ps| > 1 {
      BarEnds(ps[1..], ps[0]);
      BarSteps(ps[1..], ps[0]);
      forall i | 0 <= i < |items| - 1 && !items[i].ellipsis && !items[i + 1].ellipsis
        ensures items[i + 1].page == items[i].page + 1
      {
        if i == |head| - 1 {
          assert items[i] == PageItem(ps[0]);
          assert items[i + 1] == tail[0] == PageItem(ps[1]);
        } else if i >= |head| {
          assert items[i] == tail[i - |head|] && items[i + 1] == tail[i - |head| + 1];
        }
      }
    }
  }

  /** The shape of the bar for at least one page: the page numbers are exactly the shown pages
      ({1, totalPages} and the window around the current page, within [1, totalPages]), once each
      and increasing; the first and last items are pages; every ellipsis sits between two pages
      more than one apart, and two pages side by side are adjacent numbers. */
  lemma PageItemsShape(totalPages: int, currentPage: int)
    requires totalPages >= 1
    ensures var items := PageItems(totalPages, currentPage);
      && StrictlyIncreasing(Pages(items))
      && (forall p :: p in Pages(items) <==> IsShown(p, totalPages, currentPage))
      && |items| >= 1 && !items[0].ellipsis && !items[|items| - 1].ellipsis
      && (forall i :: 0 < i < |items| - 1 && items[i].ellipsis ==>
            !items[i - 1].ellipsis && !items[i + 1].ellipsis && items[i + 1].page > items[i - 1].page + 1)
      && (forall i :: 0 <= i < |items| - 1 && !items[i].ellipsis && !items[i + 1].ellipsis ==>
            items[i + 1].page == items[i].page + 1)
  {
    PageItemsPages(totalPages, currentPage);
    PageItemsLayout(totalPages, currentPage);
  }

  /** The page numbers of the bar are the shown pages, increasing. */
  lemma PageItemsPages(totalPages: int, currentPage: int)
    requires totalPages >= 1
    ensures var items := PageItems(totalPages, currentPage);
      && StrictlyIncreasing(Pages(items))
      && (forall p :: p in Pages(items) <==> IsShown(p, totalPages, currentPage))
  {
    var ps := ShownPages(totalPages, currentPage);
    ShownPagesFacts(totalPages, currentPage);
    assert PageItems(totalPages, currentPage) == Bar(ps, 0);
    BarPages(ps, 0);
  }

  /** The bar starts and ends with a page, every ellipsis stands for skipped pages, and two pages
      side by side are consecutive. */
  lemma PageItemsLayout(totalPages: int, currentPage: int)
    requires totalPages >= 1
    ensures var items := PageItems(totalPages, currentPage);
      && |items| >= 1 && !items[0].ellipsis && !items[|items| - 1].ellipsis
      && (forall i :: 0 < i < |items| - 1 && items[i].ellipsis ==>
            !items[i - 1].ellipsis && !items[i + 1].ellipsis && items[i + 1].page > items[i - 1].page + 1)
      && (forall i :: 0 <= i < |items| - 1 && !items[i].ellipsis && !items[i + 1].ellipsis ==>
            items[i + 1].page == items[i].page + 1)
  {
    var ps := ShownPages(totalPages, currentPage);
    ShownPagesFacts(totalPages, currentPage);
    assert PageItems(totalPages, currentPage) == Bar(ps, 0);
    BarEnds(ps, 0);
    BarGaps(ps, 0);
    BarSteps(ps, 0);
  }

  /** The shown pages start at page 1, increase, and are exactly the pages IsShown accepts. */
  lemma ShownPagesFacts(totalPages: int, currentPage: int)
    requires totalPages >= 1
    ensures var ps := ShownPages(totalPages, currentPage);
      && ps != [] && ps[0] == 1 && StrictlyIncreasing(ps)
      && forall p :: p in ps <==> IsShown(p, totalPages, currentPage)
  {
    var ps := ShownPages(totalPages, currentPage);
    ShownFromFacts(1, totalPages, currentPage);
    assert 1 in ps;
    HeadIsLeast(ps);
    assert ps[0] == 1 by {
      assert ps[0] in ps;
    }
  }

  /** The first element of an increasing sequence is its least. */
  lemma HeadIsLeast(a: seq<int>)
    requires a != [] && StrictlyIncreasing(a)
    ensures forall x :: x in a ==> a[0] <= x
  {
    forall x | x in a ensures a[0] <= x {
      var k :| 0 <= k < |a| && a[k] == x;
      if k > 0 {
        assert a[0] < a[k];
      }
    }
  }

  /** A strictly increasing sequence is determined by its elements: used to pin ShownPages down
      for concrete arguments. */
  lemma ShownPagesAre(totalPages: int, currentPage: int, expected: seq<int>)
    requires totalPages >= 1 && StrictlyIncreasing(expected)
    requires forall x :: x in expected <==> IsShown(x, totalPages, currentPage)
    ensures ShownPages(totalPages, currentPage) == expected
  {
    ShownPagesFacts(totalPages, currentPage);
    IncreasingUnique(ShownPages(totalPages, currentPage), expected);
  }

  /** buildHistoryPageItems: collect the shown pages in a set, order them, then emit each page
      preceded by an ellipsis when it skips pages. */
  method BuildHistoryPageItems(totalPages: int, currentPage: int) returns (items: seq<PaginationItem>)
    ensures items == PageItems(totalPages, currentPage)
  {
    if totalPages <= 0 {
      return [];
    }
    var seen := ShownSet(totalPages, currentPage);
    var sorted := SortedElements(seen);
    ShownFromFacts(1, totalPages, currentPage);
    IncreasingUnique(sorted, ShownPages(totalPages, currentPage));
    items := EmitItems(sorted);
  }

  /** The keys of the seen map: first, last and the clamped window. */
  method ShownSet(totalPages: int, currentPage: int) returns (seen: set<int>)
    requires totalPages >= 1
    ensures forall q :: q in seen <==> IsShown(q, totalPages, currentPage)
  {
    seen := {1, totalPages};
    var p := currentPage - Window;
    while p <= currentPage + Window
      invariant currentPage - Window <= p <= currentPage + Window + 1
      invariant forall q :: q in seen <==> q == 1 || q == totalPages || (currentPage - Window <= q < p && 1 <= q <= totalPages)
    {
      if p >= 1 && p <= totalPages {
        seen := seen + {p};
      }
      p := p + 1;
    }
  }

  /** The item loop over the ordered pages, tracking the previous page (0 before the first). */
  method EmitItems(sorted: seq<int>) returns (items: seq<PaginationItem>)
    ensures items == Bar(sorted, 0)
  {
    items := [];
    var prev := 0;
    var i := 0;
    while i < |sorted|
      invariant 0 <= i <= |sorted|
      invariant prev == LastOr(sorted[..i], 0)
      invariant items == Bar(sorted[..i], 0)
    {
      BarSnoc(sorted[..i], sorted[i], 0);
      assert sorted[..i + 1] == sorted[..i] + [sorted[i]];
      if prev != 0 && sorted[i] > prev + 1 {
        items := items + [EllipsisItem];
      }
      items := items + [PageItem(sorted[i])];
      prev := sorted[i];
      i := i + 1;
    }
    assert sorted[..i] == sorted;
  }

  /** The last page of ps, or `prev` when there is none. */
  function LastOr(ps: seq<int>, prev: int): int {
    if ps == [] then prev else ps[|ps| - 1]
  }

  /** Appending one page to the bar's input appends its gap and its link to the bar. */
  lemma {:induction false} BarSnoc(ps: seq<int>, p: int, prev: int)
    ensures Bar(ps + [p], prev) == Bar(ps, prev) + Gap(LastOr(ps, prev), p) + [PageItem(p)]
  {
    if ps == [] {
      assert ps + [p] == [p];
      assert [p][1..] == [];
    } else {
      assert (ps + [p])[1..] == ps[1..] + [p];
      assert LastOr(ps[1..], ps[0]) == LastOr(ps, prev);
      BarSnoc(ps[1..], p, ps[0]);
    }
  }

  /** The elements of a set in increasing order (sort.Ints over the keys of the seen map, which
      are distinct). */
  method SortedElements(s: set<int>) returns (sorted: seq<int>)
    ensures StrictlyIncreasing(sorted)
    ensures forall x :: x in sorted <==> x in s
  {
    sorted := [];
    var rest := s;
    while rest != {}
      invariant StrictlyIncreasing(sorted)
      invariant forall x :: x in s <==> x in sorted || x in rest
      invariant forall i, y :: 0 <= i < |sorted| && y in rest ==> sorted[i] < y
      decreases |rest|
    {
      var m := Minimum(rest);
      sorted := sorted + [m];
      rest := rest - {m};
    }
  }

  /** The least element of a non-empty set, found by visiting its elements in any order. */
  method Minimum(s: set<int>) returns (m: int)
    requires s != {}
    ensures m in s && forall x :: x in s ==> m <= x
  {
    ElementOf(s);
    m :| m in s;
    var rest := s - {m};
    while rest != {}
      invariant m in s && rest <= s
      invariant forall x :: x in s && x !in rest ==> m <= x
      decreases |rest|
    {
      ElementOf(rest);
      var x :| x in rest;
      if x < m {
        m := x;
      }
      rest := rest - {x};
    }
  }

  lemma ElementOf(s: set<int>)
    requires s != {}
    ensures exists x :: x in s
  {
    if forall x :: x !in s {
      assert false;
    }
  }

  lemma HeadIn(a: seq<int>)
    requires a != []
    ensures a[0] in a
  {
  }

  /** Two increasing sequences with the same elements are equal. */
  lemma {:induction false} IncreasingUnique(a: seq<int>, b: seq<int>)
    requires StrictlyIncreasing(a) && StrictlyIncreasing(b)
    requires forall x :: x in a <==> x in b
    ensures a == b
    decreases |a|
  {
    if a != [] && b != [] {
      assert a[0] == b[0] by {
        assert a[0] in b && b[0] in a;
      }
      forall x ensures x in a[1..] <==> x in b[1..] {
        if x in a[1..] {
          assert x in b && x > a[0];
        }
        if x in b[1..] {
          assert x in a && x > b[0];
        }
      }
      IncreasingUnique(a[1..], b[1..]);
    } else if a != [] {
      HeadIn(a);
      assert false;
    } else if b != [] {
      HeadIn(b);
      assert false;
    }
  }

  /** The bars fixed by the controller's tests for no pages, one page and two pages. */
  lemma TestVectors()
    ensures PageItems(0, 1) == [] && PageItems(-1, 1) == []
    ensures PageItems(1, 1) == [PageItem(1)]
    ensures PageItems(2, 1) == [PageItem(1), PageItem(2)]
  {
    var ps1: seq<int> := [1];
    assert Bar(ps1, 0) == [PageItem(1)];
    forall x ensures x in ps1 <==> IsShown(x, 1, 1) {
    }
    ShownPagesAre(1, 1, ps1);
    var ps2: seq<int> := [1, 2];
    assert Bar(ps2, 0) == [PageItem(1), PageItem(2)] by {
      assert ps2[1..] == [2];
    }
    forall x ensures x in ps2 <==> IsShown(x, 2, 1) {
    }
    ShownPagesAre(2, 1, ps2);
  }

  lemma TestVectorFirst()
    ensures PageItems(5, 1) == [PageItem(1), PageItem(2), PageItem(3), EllipsisItem, PageItem(5)]
  {
    var ps: seq<int> := [1, 2, 3, 5];
    assert Bar(ps, 0) == [PageItem(1), PageItem(2), PageItem(3), EllipsisItem, PageItem(5)] by {
      assert ps[1..] == [2, 3, 5];
    }
    forall x ensures x in ps <==> IsShown(x, 5, 1) {
    }
    ShownPagesAre(5, 1, ps);
  }

  lemma TestVectorLast()
    ensures PageItems(5, 5) == [PageItem(1), EllipsisItem, PageItem(3), PageItem(4), PageItem(5)]
  {
    var ps: seq<int> := [1, 3, 4, 5];
    assert Bar(ps, 0) == [PageItem(1), EllipsisItem, PageItem(3), PageItem(4), PageItem(5)] by {
      assert ps[1..] == [3, 4, 5];
    }
    forall x ensures x in ps <==> IsShown(x, 5, 5) {
    }
    ShownPagesAre(5, 5, ps);
  }

  lemma TestVectorAllInWindow()
    ensures PageItems(5, 3) == [PageItem(1), PageItem(2), PageItem(3), PageItem(4), PageItem(5)]
  {
    var ps: seq<int> := [1, 2, 3, 4, 5];
    assert Bar(ps, 0) == [PageItem(1), PageItem(2), PageItem(3), PageItem(4), PageItem(5)] by {
      assert ps[1..] == [2, 3, 4, 5];
    }
    forall x ensures x in ps <==> IsShown(x, 5, 3) {
    }
    ShownPagesAre(5, 3, ps);
  }

  lemma TestVectorOutOfRange()
    ensures PageItems(5, 100) == [PageItem(1), EllipsisItem, PageItem(5)]
  {
    var ps: seq<int> := [1, 5];
    assert Bar(ps, 0) == [PageItem(1), EllipsisItem, PageItem(5)] by {
      assert ps[1..] == [5];
    }
    forall x ensures x in ps <==> IsShown(x, 5, 100) {
    }
    ShownPagesAre(5, 100, ps);
  }

  lemma TestVectorMiddle()
    ensures PageItems(10, 5) == [PageItem(1), EllipsisItem, PageItem(3), PageItem(4), PageItem(5),
                                 PageItem(6), PageItem(7), EllipsisItem, PageItem(10)]
  {
    var ps: seq<int> := [1, 3, 4, 5, 6, 7, 10];
    assert Bar(ps, 0) == [PageItem(1), EllipsisItem, PageItem(3), PageItem(4), PageItem(5),
                          PageItem(6), PageItem(7), EllipsisItem, PageItem(10)] by {
      assert ps[1..] == [3, 4, 5, 6, 7, 10];
    }
    forall x ensures x in ps <==> IsShown(x, 10, 5) {
    }
    ShownPagesAre(10, 5, ps);
  }

  lemma TestVectorSecond()
    ensures PageItems(10, 2) == [PageItem(1), PageItem(2), PageItem(3), PageItem(4), EllipsisItem, PageItem(10)]
  {
    var ps: seq<int> := [1, 2, 3, 4, 10];
    assert Bar(ps, 0) == [PageItem(1), PageItem(2), PageItem(3), PageItem(4), EllipsisItem, PageItem(10)] by {
      assert ps[1..] == [2, 3, 4, 10];
    }
    forall x ensures x in ps <==> IsShown(x, 10, 2) {
    }
    ShownPagesAre(10, 2, ps);
  }

  lemma TestVectorSecondToLast()
    ensures PageItems(10, 9) == [PageItem(1), EllipsisItem, PageItem(7), PageItem(8), PageItem(9), PageItem(10)]
  {
    var ps: seq<int> := [1, 7, 8, 9, 10];
    assert Bar(ps, 0) == [PageItem(1), EllipsisItem, PageItem(7), PageItem(8), PageItem(9), PageItem(10)] by {
      assert ps[1..] == [7, 8, 9, 10];
    }
    forall x ensures x in ps <==> IsShown(x, 10, 9) {
    }
    ShownPagesAre(10, 9, ps);
  }
}
