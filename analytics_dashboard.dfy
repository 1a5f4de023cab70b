/** The analytics dashboard demo (src/features/projects/demos/AnalyticsDashboardDemo.tsx): a
    time range picks a visitor series and a table of top pages; the table is shown sorted by a
    chosen column and direction. Conversion rates are decimal fractions with three digits in
    the source and are held here in thousandths (0.048 is 48), which keeps their order. */
module AnalyticsDashboard {

  datatype Range = Days7 | Days30 | Days90
  datatype SortKey = PageKey | Views | Conversion
  datatype SortDir = Asc | Desc

  datatype PageRow = PageRow(page: string, views: int, conversion: int)

  // ---------------------------------------------------------------------------
  // Data

  function Series(r: Range): seq<int> {
    match r
    case Days7 => [210, 240, 198, 260, 290, 310, 340]
    case Days30 => [120, 132, 145, 160, 155, 170, 190, 210, 205, 225, 240, 260, 255, 280]
    case Days90 => [80, 92, 105, 98, 120, 135, 140, 155, 162, 170, 190, 205, 198, 215, 230]
  }

  function TopPages(r: Range): seq<PageRow> {
    match r
    case Days7 => [
      PageRow("/pricing", 980, 48), PageRow("/home", 1240, 31), PageRow("/case-studies", 630, 54),
      PageRow("/blog/react-performance", 410, 18), PageRow("/contact", 220, 82)]
    case Days30 => [
      PageRow("/home", 8420, 27), PageRow("/pricing", 6120, 44), PageRow("/case-studies", 3210, 51),
      PageRow("/blog/react-performance", 1940, 19), PageRow("/contact", 880, 75)]
    case Days90 => [
      PageRow("/home", 24100, 26), PageRow("/pricing", 17980, 41), PageRow("/case-studies", 9820, 49),
      PageRow("/blog/react-performance", 6210, 17), PageRow("/contact", 2830, 72)]
  }

  // ---------------------------------------------------------------------------
  // KPIs and chart bounds

  /** `series.reduce((a, b) => a + b, 0)`: a left fold. */
  function Sum(s: seq<int>): int {
    if |s| == 0 then 0 else Sum(s[..|s| - 1]) + s[|s| - 1]
  }

  /** The total of two consecutive parts is the sum of their totals. */
  lemma {:induction false} SumAppend(a: seq<int>, b: seq<int>)
    ensures Sum(a + b) == Sum(a) + Sum(b)
  {
    if |b| > 0 {
      var b' := b[..|b| - 1];
      assert (a + b)[..|a + b| - 1] == a + b';
      SumAppend(a, b');
    } else {
      assert a + b == a;
    }
  }

  /** A series of non-negative counts totals at least each of its entries. */
  lemma {:induction false} SumBounds(s: seq<int>)
    requires forall k | 0 <= k < |s| :: s[k] >= 0
    ensures Sum(s) >= 0
    ensures forall k | 0 <= k < |s| :: s[k] <= Sum(s)
  {
    if |s| > 0 {
      var p := s[..|s| - 1];
      SumBounds(p);
      forall k | 0 <= k < |s| ensures s[k] <= Sum(s) {
        if k < |s| - 1 { assert s[k] == p[k]; }
      }
    }
  }

  /** `Math.max(...series)` for a non-empty series. */
  function SeqMax(s: seq<int>): (m: int)
    requires |s| > 0
    ensures m in s
    ensures forall k | 0 <= k < |s| :: s[k] <= m
  {
    if |s| == 1 then s[0]
    else
      var m := SeqMax(s[..|s| - 1]);
      assert forall k | 0 <= k < |s| - 1 :: s[k] == s[..|s| - 1][k];
      if s[|s| - 1] > m then s[|s| - 1] else m
  }

  /** `Math.min(...series)` for a non-empty series. */
  function SeqMin(s: seq<int>): (m: int)
    requires |s| > 0
    ensures m in s
    ensures forall k | 0 <= k < |s| :: m <= s[k]
  {
    if |s| == 1 then s[0]
    else
      var m := SeqMin(s[..|s| - 1]);
      assert forall k | 0 <= k < |s| - 1 :: s[k] == s[..|s| - 1][k];
      if s[|s| - 1] < m then s[|s| - 1] else m
  }

  /** Every range has a non-empty series of non-negative counts, so the chart's bounds exist
      and the total is at least the largest day. */
  lemma SeriesWellFormed(r: Range)
    ensures |Series(r)| > 0
    ensures forall k | 0 <= k < |Series(r)| :: Series(r)[k] >= 0
    ensures SeqMin(Series(r)) <= SeqMax(Series(r)) <= Sum(Series(r))
  {
    SumBounds(Series(r));
  }

  // ---------------------------------------------------------------------------
  // The comparator

  /** JavaScript's `<` on strings: lexicographic by character. */
  predicate StrLess(a: string, b: string) {
    if |a| == 0 then |b| > 0
    else if |b| == 0 then false
    else if a[0] != b[0] then a[0] < b[0]
    else StrLess(a[1..], b[1..])
  }

  lemma {:induction false} StrLessIrreflexive(a: string)
    ensures !StrLess(a, a)
  {
    if |a| > 0 { StrLessIrreflexive(a[1..]); }
  }

  lemma {:induction false} StrLessAsymmetric(a: string, b: string)
    requires StrLess(a, b)
    ensures !StrLess(b, a)
  {
    if |a| > 0 && |b| > 0 && a[0] == b[0] { StrLessAsymmetric(a[1..], b[1..]); }
  }

  /** Two different strings are ordered one way or the other. */
  lemma {:induction false} StrLessTotal(a: string, b: string)
    requires a != b
    ensures StrLess(a, b) || StrLess(b, a)
  {
    if |a| > 0 && |b| > 0 && a[0] == b[0] {
      assert a == [a[0]] + a[1..] && b == [b[0]] + b[1..];
      StrLessTotal(a[1..], b[1..]);
    }
  }

  lemma {:induction false} StrLessTransitive(a: string, b: string, c: string)
    requires StrLess(a, b) && StrLess(b, c)
    ensures StrLess(a, c)
  {
    if |a| > 0 && |b| > 0 && |c| > 0 && a[0] == b[0] && b[0] == c[0] {
      StrLessTransitive(a[1..], b[1..], c[1..]);
    }
  }

  /** `a[sortKey] < b[sortKey]`. */
  predicate KeyLess(a: PageRow, b: PageRow, key: SortKey) {
    match key
    case PageKey => StrLess(a.page, b.page)
    case Views => a.views < b.views
    case Conversion => a.conversion < b.conversion
  }

  predicate SameKey(a: PageRow, b: PageRow, key: SortKey) {
    match key
    case PageKey => a.page == b.page
    case Views => a.views == b.views
    case Conversion => a.conversion == b.conversion
  }

  /** The comparator handed to `sort`: -1, 1 or 0 by the key, negated for `desc`. */
  function Compare(a: PageRow, b: PageRow, key: SortKey, dir: SortDir): int {
    var cmp := if KeyLess(a, b, key) then -1 else if KeyLess(b, a, key) then 1 else 0;
    if dir == Asc then cmp else -cmp
  }

  /** The comparator answers 0 exactly on equal keys, swapping its arguments negates it, and
      `desc` is `asc` negated. */
  lemma CompareProperties(a: PageRow, b: PageRow, key: SortKey, dir: SortDir)
    ensures Compare(a, b, key, dir) == 0 <==> SameKey(a, b, key)
    ensures Compare(b, a, key, dir) == -Compare(a, b, key, dir)
    ensures Compare(a, b, key, Desc) == -Compare(a, b, key, Asc)
  {
    if key == PageKey {
      if a.page == b.page {
        StrLessIrreflexive(a.page);
      } else {
        StrLessTotal(a.page, b.page);
      }
      if StrLess(a.page, b.page) { StrLessAsymmetric(a.page, b.page); }
    }
  }

  /** `a` may come before `b`: the comparator does not put `b` first. */
  predicate InOrder(a: PageRow, b: PageRow, key: SortKey, dir: SortDir) {
    Compare(a, b, key, dir) <= 0
  }

  /** In order means a non-decreasing key for `asc` and a non-increasing one for `desc`. */
  lemma InOrderMeans(a: PageRow, b: PageRow, key: SortKey)
    ensures InOrder(a, b, key, Asc) <==> !KeyLess(b, a, key)
    ensures InOrder(a, b, key, Desc) <==> !KeyLess(a, b, key)
    ensures key == Views ==> (InOrder(a, b, key, Asc) <==> a.views <= b.views)
    ensures key == Views ==> (InOrder(a, b, key, Desc) <==> a.views >= b.views)
  {
    if key == PageKey && StrLess(a.page, b.page) { StrLessAsymmetric(a.page, b.page); }
  }

  lemma InOrderTransitive(a: PageRow, b: PageRow, c: PageRow, key: SortKey, dir: SortDir)
    requires InOrder(a, b, key, dir) && InOrder(b, c, key, dir)
    ensures InOrder(a, c, key, dir)
  {
    InOrderMeans(a, b, key);
    InOrderMeans(b, c, key);
    InOrderMeans(a, c, key);
    if key == PageKey {
      var x, y, z := a.page, b.page, c.page;
      if dir == Asc {
        if StrLess(z, x) {
          if x != y { StrLessTotal(x, y); }
          if y != z { StrLessTotal(y, z); }
          if StrLess(x, y) && StrLess(y, z) { StrLessTransitive(x, y, z); StrLessAsymmetric(x, z); }
          if x == y && StrLess(y, z) { StrLessAsymmetric(y, z); }
          if StrLess(x, y) && y == z { StrLessAsymmetric(x, y); }
          if x == y && y == z { StrLessIrreflexive(x); }
        }
      } else {
        if StrLess(x, z) {
          if x != y { StrLessTotal(x, y); }
          if y != z { StrLessTotal(y, z); }
          if StrLess(y, x) && StrLess(z, y) { StrLessTransitive(z, y, x); StrLessAsymmetric(z, x); }
          if x == y && StrLess(z, y) { StrLessAsymmetric(z, y); }
          if StrLess(y, x) && y == z { StrLessAsymmetric(y, x); }
          if x == y && y == z { StrLessIrreflexive(x); }
        }
      }
    }
  }

  /** Every earlier row may come before every later one. */
  predicate Sorted(s: seq<PageRow>, key: SortKey, dir: SortDir) {
    forall i, j | 0 <= i < j < |s| :: InOrder(s[i], s[j], key, dir)
  }

  predicate AdjacentSorted(s: seq<PageRow>, key: SortKey, dir: SortDir) {
    forall i | 0 < i < |s| :: InOrder(s[i - 1], s[i], key, dir)
  }

  /** Neighbours in order means all pairs in order, because the order is transitive. */
  lemma {:induction false} AdjacentSortedIsSorted(s: seq<PageRow>, key: SortKey, dir: SortDir)
    requires AdjacentSorted(s, key, dir)
    ensures Sorted(s, key, dir)
  {
    if |s| > 1 {
      var p := s[..|s| - 1];
      assert AdjacentSorted(p, key, dir) by {
        forall i | 0 < i < |p| ensures InOrder(p[i - 1], p[i], key, dir) {
          assert p[i - 1] == s[i - 1] && p[i] == s[i];
        }
      }
      AdjacentSortedIsSorted(p, key, dir);
      var n := |s| - 1;
      forall i | 0 <= i < n ensures InOrder(s[i], s[n], key, dir) {
        var k := n - 1;
        while k > i
          invariant i <= k <= n - 1
          invariant InOrder(s[k], s[n], key, dir)
        {
          assert InOrder(s[k - 1], s[k], key, dir);
          InOrderTransitive(s[k - 1], s[k], s[n], key, dir);
          k := k - 1;
        }
      }
      forall i, j | 0 <= i < j < |s| ensures InOrder(s[i], s[j], key, dir) {
        if j < n { assert s[i] == p[i] && s[j] == p[j]; }
      }
    }
  }

  // ---------------------------------------------------------------------------
  // Sorting

  /** `base.sort(comparator)`: an insertion sort in place. */
  method SortRows(a: array<PageRow>, key: SortKey, dir: SortDir)
    modifies a
    ensures AdjacentSorted(a[..], key, dir)
    ensures multiset(a[..]) == multiset(old(a[..]))
  {
    if a.Length == 0 {
      return;
    }
    var i := 1;
    while i < a.Length
      invariant 0 < i <= a.Length
      invariant AdjacentSorted(a[..i], key, dir)
      invariant multiset(a[..]) == multiset(old(a[..]))
    {
      InsertAt(a, i, key, dir);
      i := i + 1;
    }
    assert a[..] == a[..i];
  }

  /** The state of one insertion: neighbours of `s[..i + 1]` are in order except at the gap
      `j`, where the moving row sits, and the rows either side of it are in order too. */
  predicate SortedExcept(s: seq<PageRow>, i: int, j: int, key: SortKey, dir: SortDir)
    requires 0 <= j <= i < |s|
  {
    && (forall k | 0 < k <= i && k != j :: InOrder(s[k - 1], s[k], key, dir))
    && (0 < j < i ==> InOrder(s[j - 1], s[j + 1], key, dir))
  }

  lemma InsertStart(s: seq<PageRow>, i: int, key: SortKey, dir: SortDir)
    requires 0 < i < |s| && AdjacentSorted(s[..i], key, dir)
    ensures SortedExcept(s, i, i, key, dir)
  {
    forall k | 0 < k < i ensures InOrder(s[k - 1], s[k], key, dir) {
      assert s[..i][k - 1] == s[k - 1] && s[..i][k] == s[k];
    }
  }

  /** Swapping the moving row with a larger left neighbour moves the gap one to the left. */
  lemma InsertSwap(s: seq<PageRow>, i: int, j: int, key: SortKey, dir: SortDir)
    requires 0 < j <= i < |s| && SortedExcept(s, i, j, key, dir)
    requires Compare(s[j - 1], s[j], key, dir) > 0
    ensures SortedExcept(s[j - 1 := s[j]][j := s[j - 1]], i, j - 1, key, dir)
  {
    CompareProperties(s[j - 1], s[j], key, dir);
    var t := s[j - 1 := s[j]][j := s[j - 1]];
    forall k | 0 < k <= i && k != j - 1 ensures InOrder(t[k - 1], t[k], key, dir) {
      if k == j {
      } else if k == j + 1 {
      } else {
        assert t[k - 1] == s[k - 1] && t[k] == s[k];
      }
    }
    if 0 < j - 1 {
      assert t[j - 2] == s[j - 2] && t[j] == s[j - 1];
      assert InOrder(s[j - 2], s[j - 1], key, dir);
    }
  }

  lemma InsertEnd(s: seq<PageRow>, i: int, j: int, key: SortKey, dir: SortDir)
    requires 0 <= j <= i < |s| && SortedExcept(s, i, j, key, dir)
    requires j == 0 || Compare(s[j - 1], s[j], key, dir) <= 0
    ensures AdjacentSorted(s[..i + 1], key, dir)
  {
    var p := s[..i + 1];
    forall k | 0 < k < |p| ensures InOrder(p[k - 1], p[k], key, dir) {
      assert p[k - 1] == s[k - 1] && p[k] == s[k];
    }
  }

  /** Exchanges `a[j - 1]` and `a[j]`. */
  method SwapDown(a: array<PageRow>, j: int)
    requires 0 < j < a.Length
    modifies a
    ensures a[..] == old(a[..])[j - 1 := old(a[j])][j := old(a[j - 1])]
    ensures multiset(a[..]) == multiset(old(a[..]))
  {
    a[j - 1], a[j] := a[j], a[j - 1];
  }

  /** Moves `a[i]` left into the sorted prefix `a[..i]`. */
  method InsertAt(a: array<PageRow>, i: int, key: SortKey, dir: SortDir)
    requires 0 < i < a.Length
    requires AdjacentSorted(a[..i], key, dir)
    modifies a
    ensures AdjacentSorted(a[..i + 1], key, dir)
    ensures a[i + 1..] == old(a[i + 1..])
    ensures multiset(a[..]) == multiset(old(a[..]))
  {
    InsertStart(a[..], i, key, dir);
    var j := i;
    while j > 0 && Compare(a[j - 1], a[j], key, dir) > 0
      invariant 0 <= j <= i
      invariant SortedExcept(a[..], i, j, key, dir)
      invariant a[i + 1..] == old(a[i + 1..])
      invariant multiset(a[..]) == multiset(old(a[..]))
    {
      ghost var before := a[..];
      InsertSwap(before, i, j, key, dir);
      SwapDown(a, j);
      assert a[i + 1..] == before[i + 1..];
      j := j - 1;
    }
    InsertEnd(a[..], i, j, key, dir);
  }

  /** `rows`: a sorted copy of the range's table; the table itself is a value and stays as it
      is. */
  method Rows(r: Range, key: SortKey, dir: SortDir) returns (rows: seq<PageRow>)
    ensures Sorted(rows, key, dir)
    ensures multiset(rows) == multiset(TopPages(r))
    ensures |rows| == |TopPages(r)|
  {
    var table := TopPages(r);
    var base := new PageRow[|table|](k requires 0 <= k < |table| => table[k]);
    assert base[..] == table;
    SortRows(base, key, dir);
    rows := base[..];
    AdjacentSortedIsSorted(rows, key, dir);
    assert |multiset(rows)| == |multiset(table)|;
  }

  // ---------------------------------------------------------------------------
  // The component

  class Dashboard {
    var range: Range
    var sortKey: SortKey
    var sortDir: SortDir

    constructor ()
      ensures range == Days30 && sortKey == Views && sortDir == Desc
    {
      range := Days30;
      sortKey := Views;
      sortDir := Desc;
    }

    /** `toggleSort(nextKey)`: the current column flips direction; another column becomes the
        key, descending. */
    method ToggleSort(nextKey: SortKey)
      modifies this
      ensures range == old(range) && sortKey == nextKey
      ensures old(sortKey) == nextKey ==> sortDir == (if old(sortDir) == Asc then Desc else Asc)
      ensures old(sortKey) != nextKey ==> sortDir == Desc
    {
      if nextKey == sortKey {
        sortDir := if sortDir == Asc then Desc else Asc;
        return;
      }
      sortKey := nextKey;
      sortDir := Desc;
    }

    method SetRange(r: Range)
      modifies this
      ensures range == r && sortKey == old(sortKey) && sortDir == old(sortDir)
    {
      range := r;
    }

    /** `kpis.totalVisitors`. */
    function TotalVisitors(): int
      reads this
    {
      Sum(Series(range))
    }

    /** `chart.min` and `chart.max`. */
    function ChartMin(): int
      reads this
    {
      SeriesWellFormed(range);
      SeqMin(Series(range))
    }

    function ChartMax(): int
      reads this
    {
      SeriesWellFormed(range);
      SeqMax(Series(range))
    }

    /** The table as shown for the current range, column and direction. */
    method CurrentRows() returns (rows: seq<PageRow>)
      ensures Sorted(rows, sortKey, sortDir)
      ensures multiset(rows) == multiset(TopPages(range))
    {
      rows := Rows(range, sortKey, sortDir);
    }
  }
}
