/**
 * The book grid's pagination bar and state selection: the window of up to
 * five numbered page links around the current page, the Previous / Next
 * targets, and which of the error, empty, loading and card views is shown.
 */
module BookGrid {
  import opened Lists

  // ---------------------------------------------------------------------------
  // The page window

  /** `Math.min(5, totalPages)` as an array length (a negative length makes no slots). */
  function SlotCount(totalPages: int): (n: nat)
    ensures n <= 5
    ensures totalPages >= 5 ==> n == 5
    ensures 0 <= totalPages <= 5 ==> n == totalPages
    ensures totalPages <= 0 ==> n == 0
  {
    if totalPages <= 0 then 0 else if totalPages < 5 then totalPages else 5
  }

  /** The page number of slot `i`, branch by branch as the window computes it. */
  function Slot(totalPages: int, currentPage: int, i: int): int {
    if totalPages <= 5 then i + 1
    else if currentPage <= 3 then i + 1
    else if currentPage >= totalPages - 2 then totalPages - 4 + i
    else currentPage - 2 + i
  }

  /** The pages of the window, slot by slot. */
  function Window(totalPages: int, currentPage: int): (w: seq<int>)
    ensures |w| == SlotCount(totalPages)
  {
    seq(SlotCount(totalPages), i => Slot(totalPages, currentPage, i))
  }

  /** `lo, lo + 1, ..., lo + n - 1` */
  function PageRange(lo: int, n: nat): (r: seq<int>)
    ensures |r| == n
    ensures forall i :: 0 <= i < n ==> r[i] == lo + i
  {
    seq(n, i => lo + i)
  }

  /** The first page of the window: 1 near the start, `totalPages - 4` near the end, `currentPage - 2` elsewhere. */
  function WindowStart(totalPages: int, currentPage: int): int {
    if totalPages <= 5 || currentPage <= 3 then 1
    else if currentPage >= totalPages - 2 then totalPages - 4
    else currentPage - 2
  }

  /** The window is one run of consecutive pages, starting at `WindowStart`. */
  lemma WindowIsRange(totalPages: int, currentPage: int)
    ensures Window(totalPages, currentPage) == PageRange(WindowStart(totalPages, currentPage), SlotCount(totalPages))
  {
  }

  lemma WindowConsecutive(totalPages: int, currentPage: int)
    ensures var w := Window(totalPages, currentPage);
      forall i :: 0 <= i < |w| - 1 ==> w[i + 1] == w[i] + 1
  {
    WindowIsRange(totalPages, currentPage);
  }

  /** For a current page in range, every window page is a real page. */
  lemma WindowWithin(totalPages: int, currentPage: int)
    requires 1 <= currentPage <= totalPages
    ensures var w := Window(totalPages, currentPage);
      forall i :: 0 <= i < |w| ==> 1 <= w[i] <= totalPages
  {
    WindowIsRange(totalPages, currentPage);
  }

  /** For a current page in range, the window shows it. */
  lemma WindowHasCurrent(totalPages: int, currentPage: int)
    requires 1 <= currentPage <= totalPages
    ensures currentPage in Window(totalPages, currentPage)
  {
    WindowIsRange(totalPages, currentPage);
    var lo := WindowStart(totalPages, currentPage);
    assert 0 <= currentPage - lo < SlotCount(totalPages);
    assert Window(totalPages, currentPage)[currentPage - lo] == currentPage;
  }

  /** Away from both ends of a long list, the window is centred on the current page. */
  lemma WindowCentred(totalPages: int, currentPage: int)
    requires totalPages > 5 && 3 < currentPage < totalPages - 2
    ensures Window(totalPages, currentPage) == [currentPage - 2, currentPage - 1, currentPage, currentPage + 1, currentPage + 2]
  {
  }

  /** Near the end of a long list, the window is the last five pages. */
  lemma WindowAtEnd(totalPages: int, currentPage: int)
    requires totalPages > 5 && currentPage > 3 && currentPage >= totalPages - 2
    ensures Window(totalPages, currentPage) == PageRange(totalPages - 4, 5)
  {
  }

  /** The window pages actually rendered: page 1 is skipped since it has its own link. */
  function Emitted(totalPages: int, currentPage: int): seq<int> {
    Filter(p => p != 1, Window(totalPages, currentPage))
  }

  /** Page 1 is not emitted; the window loses exactly its first slot when it starts at 1. */
  lemma EmittedSkipsFirst(totalPages: int, currentPage: int)
    requires 1 <= currentPage <= totalPages
    ensures 1 !in Emitted(totalPages, currentPage)
    ensures var w := Window(totalPages, currentPage);
      Emitted(totalPages, currentPage) == if WindowStart(totalPages, currentPage) == 1 then w[1..] else w
  {
    var w := Window(totalPages, currentPage);
    WindowIsRange(totalPages, currentPage);
    assert |w| >= 1;
    if WindowStart(totalPages, currentPage) == 1 {
      assert w == [w[0]] + w[1..];
      assert w[0] == 1;
      FilterAll(p => p != 1, w[1..]);
    } else {
      FilterAll(p => p != 1, w);
    }
  }

  // ---------------------------------------------------------------------------
  // Numbered links

  /** The numbered links in order: page 1, the emitted window pages, and the last page when there is more than one. */
  function PageLinks(totalPages: int, currentPage: int): seq<int> {
    [1] + Emitted(totalPages, currentPage) + (if totalPages > 1 then [totalPages] else [])
  }

  /**
   * As written, the last page is shown twice whenever the window reaches it:
   * the window does not skip it, and it then gets its own link as well.
   */
  lemma PageLinksRepeatLast(totalPages: int, currentPage: int)
    requires 1 <= currentPage <= totalPages && totalPages > 1
    requires totalPages <= 5 || currentPage >= totalPages - 2
    ensures !NoDuplicates(PageLinks(totalPages, currentPage))
  {
    var w := Window(totalPages, currentPage);
    WindowIsRange(totalPages, currentPage);
    var k := |w| - 1;
    assert w[k] == totalPages;
    var e := Emitted(totalPages, currentPage);
    assert totalPages in e;
    var j :| 0 <= j < |e| && e[j] == totalPages;
    var links := PageLinks(totalPages, currentPage);
    assert links[1 + j] == totalPages;
    assert links[|links| - 1] == totalPages;
    assert 1 + j < |links| - 1;
  }

  /** For instance, with three pages the links read 1, 2, 3, 3. */
  lemma ThreePagesShowLastTwice()
    ensures PageLinks(3, 1) == [1, 2, 3, 3]
  {
    assert Window(3, 1) == [1, 2, 3];
    EmittedSkipsFirst(3, 1);
    assert Window(3, 1)[1..] == [2, 3];
  }

  /** The links with the window skipping the last page as well as the first. */
  function CorrectedPageLinks(totalPages: int, currentPage: int): seq<int> {
    [1] + Filter(p => p != 1 && p != totalPages, Window(totalPages, currentPage))
      + (if totalPages > 1 then [totalPages] else [])
  }

  predicate Increasing(s: seq<int>) {
    forall i, j :: 0 <= i < j < |s| ==> s[i] < s[j]
  }

  lemma {:induction false} FilterIncreasing(p: int -> bool, s: seq<int>)
    requires Increasing(s)
    ensures Increasing(Filter(p, s))
  {
    if s != [] {
      FilterIncreasing(p, s[1..]);
      var t := Filter(p, s[1..]);
      if p(s[0]) {
        forall j | 0 <= j < |t| ensures s[0] < t[j] {
          var k :| 0 <= k < |s[1..]| && s[1..][k] == t[j];
          assert s[k + 1] == t[j];
        }
        IncreasingConcat([s[0]], t);
        assert Filter(p, s) == [s[0]] + t;
      } else {
        assert Filter(p, s) == t;
      }
    }
  }

  lemma IncreasingConcat(a: seq<int>, b: seq<int>)
    requires Increasing(a) && Increasing(b)
    requires forall i, j :: 0 <= i < |a| && 0 <= j < |b| ==> a[i] < b[j]
    ensures Increasing(a + b)
  {
    forall i, j | 0 <= i < j < |a + b|
      ensures (a + b)[i] < (a + b)[j]
    {
      if j < |a| {
      } else if i < |a| {
        assert (a + b)[j] == b[j - |a|];
      } else {
        assert (a + b)[i] == b[i - |a|] && (a + b)[j] == b[j - |a|];
      }
    }
  }

  /** The window pages strictly between the first and the last page, in increasing order. */
  lemma MiddleLinks(totalPages: int, currentPage: int)
    requires 1 <= currentPage <= totalPages
    ensures var mid := Filter(p => p != 1 && p != totalPages, Window(totalPages, currentPage));
      && Increasing(mid)
      && (forall i :: 0 <= i < |mid| ==> 1 < mid[i] < totalPages)
      && (1 < currentPage < totalPages ==> currentPage in mid)
  {
    var w := Window(totalPages, currentPage);
    WindowIsRange(totalPages, currentPage);
    WindowWithin(totalPages, currentPage);
    WindowHasCurrent(totalPages, currentPage);
    FilterIncreasing(p => p != 1 && p != totalPages, w);
  }

  /** With the last page skipped too, the links strictly increase (so none repeats), run from 1 to the last page and show the current page. */
  lemma CorrectedPageLinksIncrease(totalPages: int, currentPage: int)
    requires 1 <= currentPage <= totalPages
    ensures Increasing(CorrectedPageLinks(totalPages, currentPage))
    ensures NoDuplicates(CorrectedPageLinks(totalPages, currentPage))
    ensures CorrectedPageLinks(totalPages, currentPage)[0] == 1
    ensures CorrectedPageLinks(totalPages, currentPage)[|CorrectedPageLinks(totalPages, currentPage)| - 1] == totalPages
    ensures forall i :: 0 <= i < |CorrectedPageLinks(totalPages, currentPage)| ==> 1 <= CorrectedPageLinks(totalPages, currentPage)[i] <= totalPages
    ensures currentPage in CorrectedPageLinks(totalPages, currentPage)
  {
    MiddleLinks(totalPages, currentPage);
    var mid := Filter(p => p != 1 && p != totalPages, Window(totalPages, currentPage));
    assert CorrectedPageLinks(totalPages, currentPage) == Framed(mid, totalPages);
    FramedShape(mid, totalPages);
    IncreasingNoDuplicates(Framed(mid, totalPages));
    FramedHas(mid, totalPages, currentPage);
  }

  /** `[1, ...mid, last]`, the last page left out when it is page 1. */
  function Framed(mid: seq<int>, last: int): seq<int> {
    [1] + mid + (if last > 1 then [last] else [])
  }

  lemma FramedShape(mid: seq<int>, last: int)
    requires Increasing(mid) && last >= 1
    requires forall i :: 0 <= i < |mid| ==> 1 < mid[i] < last
    ensures Increasing(Framed(mid, last))
    ensures Framed(mid, last)[0] == 1 && Framed(mid, last)[|Framed(mid, last)| - 1] == last
    ensures forall i :: 0 <= i < |Framed(mid, last)| ==> 1 <= Framed(mid, last)[i] <= last
  {
    var tail: seq<int> := if last > 1 then [last] else [];
    IncreasingConcat([1], mid);
    IncreasingConcat([1] + mid, tail);
    assert Framed(mid, last) == ([1] + mid) + tail;
  }

  lemma FramedHas(mid: seq<int>, last: int, c: int)
    requires 1 <= c <= last
    requires 1 < c < last ==> c in mid
    ensures c in Framed(mid, last)
  {
    if c == 1 {
      assert Framed(mid, last)[0] == 1;
    } else if c == last {
      assert Framed(mid, last)[|Framed(mid, last)| - 1] == last;
    } else {
      var k :| 0 <= k < |mid| && mid[k] == c;
      assert Framed(mid, last)[k + 1] == c;
    }
  }

  lemma IncreasingNoDuplicates(s: seq<int>)
    requires Increasing(s)
    ensures NoDuplicates(s)
  {
  }

  // ---------------------------------------------------------------------------
  // Previous / Next

  /** `Math.max(1, currentPage - 1)` */
  function PrevTarget(currentPage: int): int {
    if currentPage - 1 > 1 then currentPage - 1 else 1
  }

  /** `Math.min(totalPages, currentPage + 1)` */
  function NextTarget(totalPages: int, currentPage: int): int {
    if currentPage + 1 < totalPages then currentPage + 1 else totalPages
  }

  /** From a page in range, Previous and Next stay in range and step by at most one. */
  lemma PrevNextWithin(totalPages: int, currentPage: int)
    requires 1 <= currentPage <= totalPages
    ensures 1 <= PrevTarget(currentPage) <= currentPage <= NextTarget(totalPages, currentPage) <= totalPages
    ensures currentPage - PrevTarget(currentPage) <= 1 && NextTarget(totalPages, currentPage) - currentPage <= 1
  {
  }

  /** Previous moves exactly when it is marked active (`currentPage > 1`), Next exactly when `currentPage < totalPages`. */
  lemma PrevNextActive(totalPages: int, currentPage: int)
    requires 1 <= currentPage <= totalPages
    ensures PrevTarget(currentPage) != currentPage <==> currentPage > 1
    ensures NextTarget(totalPages, currentPage) != currentPage <==> currentPage < totalPages
  {
  }

  /** Next undoes Previous and Previous undoes Next, wherever they move. */
  lemma PrevNextRoundTrip(totalPages: int, currentPage: int)
    ensures 1 < currentPage <= totalPages ==> NextTarget(totalPages, PrevTarget(currentPage)) == currentPage
    ensures 1 <= currentPage < totalPages ==> PrevTarget(NextTarget(totalPages, currentPage)) == currentPage
  {
  }

  // ---------------------------------------------------------------------------
  // What is shown

  datatype GridView = ErrorState(message: string) | EmptyState | Skeletons | Cards

  /** A non-empty error wins; otherwise no books and not loading is the empty state; otherwise skeletons while loading, cards after. */
  function SelectView(error: string, isLoading: bool, bookCount: nat): (v: GridView)
    ensures v.ErrorState? <==> error != ""
    ensures v.ErrorState? ==> v.message == error
    ensures v == EmptyState <==> error == "" && !isLoading && bookCount == 0
    ensures v == Skeletons <==> error == "" && isLoading
    ensures v == Cards <==> error == "" && !isLoading && bookCount > 0
  {
    if error != "" then ErrorState(error)
    else if !isLoading && bookCount == 0 then EmptyState
    else if isLoading then Skeletons
    else Cards
  }
}
