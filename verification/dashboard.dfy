/**
 The dashboard's view model: the sales of the selected time window, their total
 commission, count, average ticket and top platform, the chart series, the list
 of sales shown under the chart, and the highlight of a newly arrived sale.
 */
module Dashboard {
  import opened Types
  import opened Sequences

  const MsPerDay: int := 86_400_000

  /** How many sales the list under the chart shows. */
  const RecentLimit: nat := 5

  datatype TimeRange = Today | Week | Month | All

  /** The window selected when the dashboard first appears. */
  const InitialRange: TimeRange := Month

  /** The local calendar date at render time: `dayNumber` counts days since the
      epoch, `dayOfWeek` is 0 for Sunday through 6 for Saturday, `dayOfMonth`
      starts at 1. */
  datatype CivilDate = CivilDate(dayNumber: int, dayOfWeek: int, dayOfMonth: int)

  predicate ValidDate(now: CivilDate)
  {
    0 <= now.dayOfWeek <= 6 && 1 <= now.dayOfMonth <= 31
  }

  /** The first millisecond of a day. */
  function Midnight(day: int): (r: Timestamp)
    ensures r % MsPerDay == 0 && r / MsPerDay == day
  {
    day * MsPerDay
  }

  function Min(a: nat, b: nat): nat
  {
    if a <= b then a else b
  }

  // ---------------------------------------------------------------------------
  // Time windows

  /** The earliest sale date a window counts; `None` for the unfiltered window.
      Every start is a midnight: today's, that of the last Sunday (the day
      `dayOfWeek` days back) or that of the first of the month (the day
      `dayOfMonth - 1` days back). */
  function WindowStart(range: TimeRange, now: CivilDate): (r: Option<Timestamp>)
    ensures r.None? <==> range == All
    ensures range == Today ==> r == Some(Midnight(now.dayNumber))
    ensures range == Week ==> r == Some(Midnight(now.dayNumber - now.dayOfWeek))
    ensures range == Month ==> r == Some(Midnight(now.dayNumber - (now.dayOfMonth - 1)))
    ensures r.Some? ==> r.value % MsPerDay == 0
    ensures ValidDate(now) && r.Some? ==>
      Midnight(now.dayNumber - 30) <= r.value <= Midnight(now.dayNumber)
  {
    match range
    case Today => Some(Midnight(now.dayNumber))
    case Week => Some(Midnight(now.dayNumber - now.dayOfWeek))
    case Month => Some(Midnight(now.dayNumber - (now.dayOfMonth - 1)))
    case All => None
  }

  /** Whether a sale belongs to the window. */
  function InWindow(range: TimeRange, now: CivilDate): Sale -> bool
  {
    match WindowStart(range, now)
    case None => (s: Sale) => true
    case Some(start) => (s: Sale) => s.saleDate >= start
  }

  /** The sales of the selected window, in the order of the full list. */
  function FilteredSales(sales: seq<Sale>, range: TimeRange, now: CivilDate): (r: seq<Sale>)
    ensures range == All ==> r == sales
    ensures range != All ==>
      forall x :: multiset(r)[x] ==
        if x.saleDate >= WindowStart(range, now).value then multiset(sales)[x] else 0
    ensures IsSubsequence(r, sales)
  {
    if range == All then SubsequenceReflexive(sales); sales else Filter(InWindow(range, now), sales)
  }

  /** Today's midnight is the latest of the three window starts. */
  lemma WindowStartsOrdered(now: CivilDate)
    requires ValidDate(now)
    ensures WindowStart(Week, now).value <= WindowStart(Today, now).value
    ensures WindowStart(Month, now).value <= WindowStart(Today, now).value
  {
  }

  /** Today's sales are exactly the sales of this week, and of this month, that
      fall on or after today's midnight; in particular they are a subsequence of both. */
  lemma TodayWithinWeekAndMonth(sales: seq<Sale>, now: CivilDate)
    requires ValidDate(now)
    ensures FilteredSales(sales, Today, now)
         == Filter(InWindow(Today, now), FilteredSales(sales, Week, now))
    ensures FilteredSales(sales, Today, now)
         == Filter(InWindow(Today, now), FilteredSales(sales, Month, now))
    ensures IsSubsequence(FilteredSales(sales, Today, now), FilteredSales(sales, Week, now))
    ensures IsSubsequence(FilteredSales(sales, Today, now), FilteredSales(sales, Month, now))
  {
    WindowStartsOrdered(now);
    FilterNested(InWindow(Week, now), InWindow(Today, now), sales);
    FilterNested(InWindow(Month, now), InWindow(Today, now), sales);
  }

  /** Filtering keeps a newest-first list newest-first. */
  lemma FilteredKeepsNewestFirst(sales: seq<Sale>, range: TimeRange, now: CivilDate)
    ensures NewestFirst(sales) ==> NewestFirst(FilteredSales(sales, range, now))
  {
    if NewestFirst(sales) {
      var later := (a: Sale, b: Sale) => b.saleDate <= a.saleDate;
      SubsequenceKeepsOrder(FilteredSales(sales, range, now), sales, later);
    }
  }

  // ---------------------------------------------------------------------------
  // Totals

  function TotalCommission(sales: seq<Sale>): (r: Cents)
    ensures NonNegativeCommissions(sales) ==> r >= 0
    ensures |sales| == 1 ==> r == sales[0].commission
  {
    if |sales| == 0 then 0 else sales[0].commission + TotalCommission(sales[1..])
  }

  /** The total of a list is its head's commission plus the total of the rest. */
  lemma TotalCommissionCons(y: Sale, s: seq<Sale>)
    ensures TotalCommission([y] + s) == y.commission + TotalCommission(s)
  {
    assert ([y] + s)[1..] == s;
  }

  /** The summed commission of the sales made on one platform. */
  function PlatformTotal(sales: seq<Sale>, p: Platform): (r: Cents)
    ensures NonNegativeCommissions(sales) ==> 0 <= r <= TotalCommission(sales)
    ensures (forall i :: 0 <= i < |sales| ==> sales[i].platform != p) ==> r == 0
  {
    if |sales| == 0 then 0
    else (if sales[0].platform == p then sales[0].commission else 0) + PlatformTotal(sales[1..], p)
  }

  /** The per-platform totals partition the total commission. */
  lemma {:induction false} PlatformTotalsPartitionTotal(sales: seq<Sale>)
    ensures PlatformTotal(sales, Hotmart) + PlatformTotal(sales, Monetizze)
          + PlatformTotal(sales, Eduzz) + PlatformTotal(sales, Kiwify)
         == TotalCommission(sales)
  {
    if |sales| > 0 {
      PlatformTotalsPartitionTotal(sales[1..]);
    }
  }

  /** Commission per sale, guarded against an empty window. */
  function AverageTicket(total: Cents, count: nat): (r: real)
    ensures count == 0 ==> r == 0.0
    ensures count > 0 ==> r * (count as real) == total as real
  {
    if count > 0 then (total as real) / (count as real) else 0.0
  }

  // ---------------------------------------------------------------------------
  // Top platform

  datatype TopPlatform = NotApplicable | Leader(platform: Platform)

  function PlatformName(p: Platform): (r: string)
    ensures r != "N/A"
  {
    match p
    case Hotmart => "Hotmart"
    case Monetizze => "Monetizze"
    case Eduzz => "Eduzz"
    case Kiwify => "Kiwify"
  }

  /** The text of the "top platform" card. */
  function TopPlatformLabel(t: TopPlatform): (r: string)
    ensures r == "N/A" <==> t.NotApplicable?
  {
    match t
    case NotApplicable => "N/A"
    case Leader(p) => PlatformName(p)
  }

  /** Each sale's weight in the race for top platform: its platform's total. */
  function Weights(sales: seq<Sale>): (w: seq<Cents>)
    ensures |w| == |sales|
    ensures forall j :: 0 <= j < |sales| ==> w[j] == PlatformTotal(sales, sales[j].platform)
  {
    seq(|sales|, j requires 0 <= j < |sales| => PlatformTotal(sales, sales[j].platform))
  }

  /** Among the weights before index `i`, the one at `best` is the first
      maximal one: every earlier weight is strictly lower, and no weight before
      `i` is higher. */
  predicate LeadsUpTo(w: seq<int>, i: nat, best: nat)
  {
    && best < i <= |w|
    && (forall j :: 0 <= j < best ==> w[j] < w[best])
    && (forall j :: 0 <= j < i ==> w[j] <= w[best])
  }

  /** Scans the weights from index `i` on, keeping in `best` the first index
      of the largest weight seen so far; only a strictly larger weight replaces
      it. The result is the first index of a maximal weight. */
  function LeaderScan(w: seq<int>, i: nat, best: nat): (r: nat)
    requires LeadsUpTo(w, i, best)
    ensures r < |w|
    ensures forall j :: 0 <= j < r ==> w[j] < w[r]
    ensures forall j :: 0 <= j < |w| ==> w[j] <= w[r]
    decreases |w| - i
  {
    if i == |w| then best
    else if w[i] > w[best] then LeaderScan(w, i + 1, i)
    else LeaderScan(w, i + 1, best)
  }

  /** The platform with the largest summed commission; on a tie, the one whose
      first sale comes first (the key order of the per-platform record, which
      the stable descending sort keeps among equal totals). */
  function TopPlatformOf(sales: seq<Sale>): (r: TopPlatform)
    ensures r.NotApplicable? <==> |sales| == 0
    ensures r.Leader? ==> exists i :: 0 <= i < |sales| && sales[i].platform == r.platform
    ensures r.Leader? ==> forall j :: 0 <= j < |sales| ==>
      PlatformTotal(sales, sales[j].platform) <= PlatformTotal(sales, r.platform)
    ensures r.Leader? ==> forall j ::
      0 <= j < |sales| && PlatformTotal(sales, sales[j].platform) == PlatformTotal(sales, r.platform) ==>
      exists i :: 0 <= i <= j && sales[i].platform == r.platform
  {
    if |sales| == 0 then NotApplicable
    else
      var k := LeaderScan(Weights(sales), 1, 0);
      Leader(sales[k].platform)
  }

  /** With non-negative commissions the leader also beats every platform that
      made no sale in the window. */
  lemma LeaderBeatsEveryPlatform(sales: seq<Sale>, q: Platform)
    requires NonNegativeCommissions(sales) && |sales| > 0
    ensures PlatformTotal(sales, q) <= PlatformTotal(sales, TopPlatformOf(sales).platform)
  {
    if exists i :: 0 <= i < |sales| && sales[i].platform == q {
      var i :| 0 <= i < |sales| && sales[i].platform == q;
      assert PlatformTotal(sales, sales[i].platform)
          <= PlatformTotal(sales, TopPlatformOf(sales).platform);
    }
  }

  // ---------------------------------------------------------------------------
  // Chart and the list of sales under it

  /** A sale no newer than the head of an oldest-first list can go in front of it. */
  lemma ConsOldestFirst(y: Sale, s: seq<Sale>)
    requires OldestFirst(s)
    requires |s| > 0 ==> y.saleDate <= s[0].saleDate
    ensures OldestFirst([y] + s)
  {
    var r := [y] + s;
    forall i, j | 0 <= i < j < |r|
      ensures r[i].saleDate <= r[j].saleDate
    {
      assert r[j] == s[j - 1];
      if i > 0 {
        assert r[i] == s[i - 1];
      } else {
        assert s[0].saleDate <= s[j - 1].saleDate;
      }
    }
  }

  /** Dropping the head of an oldest-first list keeps it oldest first. */
  lemma OldestFirstTail(s: seq<Sale>)
    requires OldestFirst(s) && |s| > 0
    ensures OldestFirst(s[1..])
  {
    var tail := s[1..];
    forall i, j | 0 <= i < j < |tail|
      ensures tail[i].saleDate <= tail[j].saleDate
    {
      assert tail[i] == s[i + 1] && tail[j] == s[j + 1];
    }
  }

  /** Inserts `x` before the first sale not older than it, so that among equal
      dates the earlier element of the input stays first. */
  function InsertByDate(x: Sale, sorted: seq<Sale>): (r: seq<Sale>)
    requires OldestFirst(sorted)
    ensures OldestFirst(r)
    ensures multiset(r) == multiset(sorted) + multiset{x}
    ensures |r| == |sorted| + 1
    ensures r[0] == x || (|sorted| > 0 && r[0] == sorted[0])
  {
    if |sorted| == 0 || x.saleDate <= sorted[0].saleDate then
      ConsOldestFirst(x, sorted);
      [x] + sorted
    else
      var tail := sorted[1..];
      OldestFirstTail(sorted);
      var rest := InsertByDate(x, tail);
      assert |tail| > 0 ==> tail[0] == sorted[1];
      assert sorted[0].saleDate <= rest[0].saleDate;
      ConsOldestFirst(sorted[0], rest);
      MultisetHead(sorted);
      [sorted[0]] + rest
  }

  /** Inserting a sale adds its commission to the total. */
  lemma {:induction false} InsertByDateTotal(x: Sale, sorted: seq<Sale>)
    requires OldestFirst(sorted)
    ensures TotalCommission(InsertByDate(x, sorted)) == x.commission + TotalCommission(sorted)
  {
    if |sorted| == 0 || x.saleDate <= sorted[0].saleDate {
      TotalCommissionCons(x, sorted);
    } else {
      OldestFirstTail(sorted);
      InsertByDateTotal(x, sorted[1..]);
      TotalCommissionCons(sorted[0], InsertByDate(x, sorted[1..]));
      TotalCommissionCons(sorted[0], sorted[1..]);
      assert sorted == [sorted[0]] + sorted[1..];
    }
  }

  /** Stable ascending sort by sale date: the order the chart draws the window in. */
  function SortByDate(sales: seq<Sale>): (r: seq<Sale>)
    ensures OldestFirst(r)
    ensures multiset(r) == multiset(sales)
    ensures |r| == |sales|
    ensures TotalCommission(r) == TotalCommission(sales)
  {
    if |sales| == 0 then []
    else
      assert sales == [sales[0]] + sales[1..];
      TotalCommissionCons(sales[0], sales[1..]);
      InsertByDateTotal(sales[0], SortByDate(sales[1..]));
      InsertByDate(sales[0], SortByDate(sales[1..]))
  }

  /** One bar of the earnings chart; the day/month label is the bar's date
      rendered in the Brazilian locale. */
  datatype ChartPoint = ChartPoint(date: Timestamp, commission: Cents)

  function ChartPoints(sorted: seq<Sale>): (r: seq<ChartPoint>)
    ensures |r| == |sorted|
    ensures forall i :: 0 <= i < |r| ==>
      r[i] == ChartPoint(sorted[i].saleDate, sorted[i].commission)
  {
    if |sorted| == 0 then [] else [ChartPoint(sorted[0].saleDate, sorted[0].commission)] + ChartPoints(sorted[1..])
  }

  function ChartTotal(points: seq<ChartPoint>): Cents
  {
    if |points| == 0 then 0 else points[0].commission + ChartTotal(points[1..])
  }

  /** The chart: one bar per sale of the window, oldest first, whose heights
      add up to the window's total commission. */
  function ChartData(filtered: seq<Sale>): (r: seq<ChartPoint>)
    ensures |r| == |filtered|
    ensures forall i, j :: 0 <= i < j < |r| ==> r[i].date <= r[j].date
    ensures ChartTotal(r) == TotalCommission(filtered)
    ensures multiset(r) == multiset(ChartPoints(filtered))
  {
    var sorted := SortByDate(filtered);
    ChartTotalOfPoints(sorted);
    ChartPointsOfPermutation(sorted, filtered);
    ChartPoints(sorted)
  }

  /** Drawing a list whose first sale is `x` puts `x`'s bar first. */
  lemma ChartPointsCons(x: Sale, s: seq<Sale>)
    ensures ChartPoints([x] + s) == [ChartPoint(x.saleDate, x.commission)] + ChartPoints(s)
  {
    assert forall i :: 0 <= i < |s| ==> ([x] + s)[i + 1] == s[i];
  }

  /** Removing the same element from two equal multisets leaves equal multisets. */
  lemma MultisetCancel<T>(x: T, a: multiset<T>, b: multiset<T>)
    requires multiset{x} + a == multiset{x} + b
    ensures a == b
  {
    forall y | y in a || y in b
      ensures a[y] == b[y]
    {
      assert (multiset{x} + a)[y] == (multiset{x} + b)[y];
    }
  }

  /** Drawing two lists one after the other draws their concatenation. */
  lemma ChartPointsAppend(a: seq<Sale>, b: seq<Sale>)
    ensures ChartPoints(a + b) == ChartPoints(a) + ChartPoints(b)
  {
    assert forall i :: 0 <= i < |b| ==> (a + b)[|a| + i] == b[i];
  }

  /** Taking out the element at `k` takes one occurrence of it out of the multiset. */
  lemma MultisetRemoveAt<T>(s: seq<T>, k: nat)
    requires k < |s|
    ensures multiset(s) == multiset{s[k]} + multiset(s[..k] + s[k + 1..])
  {
    SplitAt(s, k);
    assert multiset(s) == multiset(s[..k]) + multiset{s[k]} + multiset(s[k + 1..]);
  }

  /** A non-empty sequence's multiset is its head plus the multiset of its tail. */
  lemma MultisetHead<T>(s: seq<T>)
    requires |s| > 0
    ensures multiset(s) == multiset{s[0]} + multiset(s[1..])
  {
    assert s == [s[0]] + s[1..];
  }

  /** Taking out the sale at `k` takes its bar out of the bars. */
  lemma ChartPointsRemoveAt(s: seq<Sale>, k: nat)
    requires k < |s|
    ensures multiset(ChartPoints(s))
         == multiset{ChartPoint(s[k].saleDate, s[k].commission)}
          + multiset(ChartPoints(s[..k] + s[k + 1..]))
  {
    var before, after := s[..k], s[k + 1..];
    var p := ChartPoint(s[k].saleDate, s[k].commission);
    SplitAt(s, k);
    ChartPointsAppend(before, [s[k]] + after);
    ChartPointsCons(s[k], after);
    var left, right := ChartPoints(before), ChartPoints(after);
    assert ChartPoints(s) == left + ([p] + right);
    assert multiset(ChartPoints(s)) == multiset(left) + (multiset{p} + multiset(right));
    ChartPointsAppend(before, after);
    assert multiset(ChartPoints(before + after)) == multiset(left) + multiset(right);
  }

  /** Reordering the sales only reorders their bars: permutations of a list
      are drawn as permutations of its bars. */
  lemma {:induction false} ChartPointsOfPermutation(a: seq<Sale>, b: seq<Sale>)
    requires multiset(a) == multiset(b)
    ensures multiset(ChartPoints(a)) == multiset(ChartPoints(b))
    decreases |a|
  {
    if |a| > 0 {
      assert a[0] in multiset(b);
      var k :| 0 <= k < |b| && b[k] == a[0];
      var rest := b[..k] + b[k + 1..];
      MultisetHead(a);
      MultisetRemoveAt(b, k);
      assert multiset(b) == multiset{a[0]} + multiset(rest);
      MultisetCancel(a[0], multiset(a[1..]), multiset(rest));
      ChartPointsOfPermutation(a[1..], rest);
      assert a[..0] + a[1..] == a[1..];
      ChartPointsRemoveAt(a, 0);
      ChartPointsRemoveAt(b, k);
    }
  }

  lemma {:induction false} ChartTotalOfPoints(sorted: seq<Sale>)
    ensures ChartTotal(ChartPoints(sorted)) == TotalCommission(sorted)
  {
    if |sorted| > 0 {
      ChartTotalOfPoints(sorted[1..]);
      assert ChartPoints(sorted)[1..] == ChartPoints(sorted[1..]);
    }
  }

  /** The list under the chart as the app computes it: the window is sorted
      in place for the chart before it is sliced, so the list holds the OLDEST
      sales of the window. */
  function RecentSalesAsWritten(filtered: seq<Sale>): (r: seq<Sale>)
    ensures |r| == Min(RecentLimit, |filtered|)
    ensures OldestFirst(r)
    ensures multiset(r) <= multiset(filtered)
    ensures forall i :: 0 <= i < |r| ==> r[i] in filtered
    ensures forall i, j :: 0 <= i < |r| && 0 <= j < |filtered| && filtered[j] !in r ==>
      r[i].saleDate <= filtered[j].saleDate
  {
    var sorted := SortByDate(filtered);
    var n := Min(RecentLimit, |filtered|);
    PrefixOfSortedIsOldest(filtered, sorted, n);
    sorted[..n]
  }

  /** A prefix of an oldest-first permutation of `filtered` is no newer than
      any element of `filtered` it leaves out. */
  lemma PrefixOfSortedIsOldest(filtered: seq<Sale>, sorted: seq<Sale>, n: nat)
    requires OldestFirst(sorted) && multiset(sorted) == multiset(filtered)
    requires n <= |sorted|
    ensures OldestFirst(sorted[..n])
    ensures multiset(sorted[..n]) <= multiset(filtered)
    ensures forall i :: 0 <= i < n ==> sorted[..n][i] in filtered
    ensures forall i, j :: 0 <= i < n && 0 <= j < |filtered| && filtered[j] !in sorted[..n] ==>
      sorted[..n][i].saleDate <= filtered[j].saleDate
  {
    var prefix := sorted[..n];
    assert sorted == prefix + sorted[n..];
    assert multiset(sorted) == multiset(prefix) + multiset(sorted[n..]);
    forall i, j | 0 <= i < j < n
      ensures prefix[i].saleDate <= prefix[j].saleDate
    {
      assert prefix[i] == sorted[i] && prefix[j] == sorted[j];
    }
    forall i | 0 <= i < n
      ensures prefix[i] in filtered
    {
      assert prefix[i] == sorted[i];
      assert sorted[i] in multiset(sorted);
    }
    forall i, j | 0 <= i < n && 0 <= j < |filtered| && filtered[j] !in prefix
      ensures prefix[i].saleDate <= filtered[j].saleDate
    {
      assert filtered[j] in multiset(sorted);
      var k :| 0 <= k < |sorted| && sorted[k] == filtered[j];
      assert k >= n;
      assert prefix[i] == sorted[i];
    }
  }

  /** The list under the chart as intended: the first sales of the window taken
      before the chart's sort, which on a newest-first list are the newest. */
  function RecentSales(filtered: seq<Sale>): (r: seq<Sale>)
    ensures |r| == Min(RecentLimit, |filtered|)
    ensures forall i :: 0 <= i < |r| ==> r[i] == filtered[i]
    ensures NewestFirst(filtered) ==> NewestFirst(r)
    ensures NewestFirst(filtered) ==>
      forall i, j :: 0 <= i < |r| && 0 <= j < |filtered| && filtered[j] !in r ==>
        filtered[j].saleDate <= r[i].saleDate
  {
    filtered[..Min(RecentLimit, |filtered|)]
  }

  /** When the newest sale of a window of more than five is strictly newer
      than all the others, the list as written leaves it out, while the
      intended list shows it first. */
  lemma {:induction false} RecentSalesAsWrittenHidesNewest(w: seq<Sale>)
    requires |w| > RecentLimit
    requires forall j :: 0 < j < |w| ==> w[j].saleDate < w[0].saleDate
    ensures w[0] !in RecentSalesAsWritten(w)
    ensures RecentSales(w)[0] == w[0]
  {
    NewestNotAmongOldest(w, SortByDate(w), RecentLimit);
  }

  /** A sale strictly newer than all the others is not among the first `m`
      elements of an oldest-first permutation when `m` leaves something out. */
  lemma {:induction false} NewestNotAmongOldest(w: seq<Sale>, sorted: seq<Sale>, m: nat)
    requires m < |w|
    requires forall j :: 0 < j < |w| ==> w[j].saleDate < w[0].saleDate
    requires |sorted| == |w| && OldestFirst(sorted) && multiset(sorted) == multiset(w)
    ensures w[0] !in sorted[..m]
  {
    var n := |w|;
    if w[0] in sorted[..m] {
      var k :| 0 <= k < m && sorted[..m][k] == w[0];
      StrictNewestSortsLast(w, sorted);
      SingleOccurrence(w);
      TwoPositions(sorted, k, n - 1);
      assert false;
    }
  }

  /** A sale strictly newer than all the others ends up last in any oldest-first
      permutation. */
  lemma {:induction false} StrictNewestSortsLast(w: seq<Sale>, sorted: seq<Sale>)
    requires |w| > 0
    requires forall j :: 0 < j < |w| ==> w[j].saleDate < w[0].saleDate
    requires OldestFirst(sorted) && multiset(sorted) == multiset(w)
    ensures |sorted| == |w| && sorted[|w| - 1] == w[0]
  {
    assert |sorted| == |multiset(sorted)| == |multiset(w)| == |w|;
    var n := |w|;
    assert sorted[n - 1] in multiset(w);
    var j :| 0 <= j < n && w[j] == sorted[n - 1];
    assert w[0] in multiset(sorted);
    var m :| 0 <= m < n && sorted[m] == w[0];
    assert m == n - 1 || sorted[m].saleDate <= sorted[n - 1].saleDate;
  }

  /** A sale strictly newer than all the others occurs once. */
  lemma {:induction false} SingleOccurrence(w: seq<Sale>)
    requires |w| > 0
    requires forall j :: 0 < j < |w| ==> w[j].saleDate < w[0].saleDate
    ensures multiset(w)[w[0]] == 1
  {
    assert w == [w[0]] + w[1..];
    assert w[0] !in w[1..];
  }

  /** A value at two different positions occurs at least twice. */
  lemma {:induction false} TwoPositions<T>(s: seq<T>, i: nat, j: nat)
    requires i < j < |s| && s[i] == s[j]
    ensures multiset(s)[s[i]] >= 2
  {
    assert s == s[..i + 1] + s[i + 1..];
    assert s[..i + 1][i] == s[i];
    assert s[i + 1..][j - i - 1] == s[i];
    assert multiset(s[..i + 1])[s[i]] >= 1;
    assert multiset(s[i + 1..])[s[i]] >= 1;
  }

  // ---------------------------------------------------------------------------
  // The top platform on later draws of the same window

  /** The platform total of two lists one after the other. */
  lemma {:induction false} PlatformTotalAppend(a: seq<Sale>, b: seq<Sale>, p: Platform)
    ensures PlatformTotal(a + b, p) == PlatformTotal(a, p) + PlatformTotal(b, p)
    decreases |a|
  {
    if |a| == 0 {
      assert a + b == b;
    } else {
      assert (a + b)[1..] == a[1..] + b;
      PlatformTotalAppend(a[1..], b, p);
    }
  }

  /** Taking out the sale at `k` takes its share out of its platform's total. */
  lemma PlatformTotalRemoveAt(s: seq<Sale>, k: nat, p: Platform)
    requires k < |s|
    ensures PlatformTotal(s, p)
         == (if s[k].platform == p then s[k].commission else 0) + PlatformTotal(s[..k] + s[k + 1..], p)
  {
    SplitAt(s, k);
    PlatformTotalAppend(s[..k], [s[k]] + s[k + 1..], p);
    assert ([s[k]] + s[k + 1..])[1..] == s[k + 1..];
    PlatformTotalAppend(s[..k], s[k + 1..], p);
  }

  /** Reordering the sales leaves every platform's total as it is. */
  lemma {:induction false} PlatformTotalOfPermutation(a: seq<Sale>, b: seq<Sale>, p: Platform)
    requires multiset(a) == multiset(b)
    ensures PlatformTotal(a, p) == PlatformTotal(b, p)
    decreases |a|
  {
    if |a| == 0 {
      assert |b| == |multiset(b)| == 0;
    } else {
      assert a[0] in multiset(b);
      var k :| 0 <= k < |b| && b[k] == a[0];
      var rest := b[..k] + b[k + 1..];
      MultisetHead(a);
      MultisetRemoveAt(b, k);
      MultisetCancel(a[0], multiset(a[1..]), multiset(rest));
      PlatformTotalOfPermutation(a[1..], rest, p);
      PlatformTotalRemoveAt(b, k, p);
    }
  }

  /** The top platform as the card shows it on every draw of a window after
      the first: the window is memoised, and the chart's sort on the first draw
      left it oldest-first, so the scan runs over the sorted window. The totals
      are the window's, but a tie goes to the platform with the oldest sale
      among the tied ones rather than to the one listed first. */
  function TopPlatformOnRedrawAsWritten(filtered: seq<Sale>): (r: TopPlatform)
    ensures r.NotApplicable? <==> |filtered| == 0
    ensures r.Leader? ==> exists i :: 0 <= i < |filtered| && filtered[i].platform == r.platform
    ensures r.Leader? ==> forall j :: 0 <= j < |filtered| ==>
      PlatformTotal(filtered, filtered[j].platform) <= PlatformTotal(filtered, r.platform)
    ensures r.Leader? ==> forall j ::
      0 <= j < |filtered| && PlatformTotal(filtered, filtered[j].platform) == PlatformTotal(filtered, r.platform) ==>
      exists i :: 0 <= i < |filtered| && filtered[i].platform == r.platform
                  && filtered[i].saleDate <= filtered[j].saleDate
  {
    var sorted := SortByDate(filtered);
    LeaderOfSortedWindow(filtered, sorted);
    TopPlatformOf(sorted)
  }

  /** The leader of an oldest-first permutation of the window, stated over
      the window itself. */
  lemma LeaderOfSortedWindow(filtered: seq<Sale>, sorted: seq<Sale>)
    requires OldestFirst(sorted) && multiset(sorted) == multiset(filtered)
    ensures var r := TopPlatformOf(sorted);
      && (r.NotApplicable? <==> |filtered| == 0)
      && (r.Leader? ==> exists i :: 0 <= i < |filtered| && filtered[i].platform == r.platform)
      && (r.Leader? ==> forall j :: 0 <= j < |filtered| ==>
            PlatformTotal(filtered, filtered[j].platform) <= PlatformTotal(filtered, r.platform))
      && (r.Leader? ==> forall j ::
            0 <= j < |filtered| && PlatformTotal(filtered, filtered[j].platform) == PlatformTotal(filtered, r.platform) ==>
            exists i :: 0 <= i < |filtered| && filtered[i].platform == r.platform
                        && filtered[i].saleDate <= filtered[j].saleDate)
  {
    assert |sorted| == |multiset(sorted)| == |multiset(filtered)| == |filtered|;
    var r := TopPlatformOf(sorted);
    if r.Leader? {
      var i :| 0 <= i < |sorted| && sorted[i].platform == r.platform;
      var i' := PositionIn(filtered, sorted, i);
      forall j | 0 <= j < |filtered|
        ensures PlatformTotal(filtered, filtered[j].platform) <= PlatformTotal(filtered, r.platform)
        ensures PlatformTotal(filtered, filtered[j].platform) == PlatformTotal(filtered, r.platform) ==>
          exists i :: 0 <= i < |filtered| && filtered[i].platform == r.platform
                      && filtered[i].saleDate <= filtered[j].saleDate
      {
        SortedLeaderAgainst(filtered, sorted, j);
      }
    }
  }

  /** One sale of the window against the leader of its oldest-first
      permutation: its platform's total is no larger, and on a tie the leader
      has a sale no newer than it. */
  lemma SortedLeaderAgainst(filtered: seq<Sale>, sorted: seq<Sale>, j: nat)
    requires OldestFirst(sorted) && multiset(sorted) == multiset(filtered)
    requires j < |filtered|
    ensures TopPlatformOf(sorted).Leader?
    ensures var p := TopPlatformOf(sorted).platform;
      && PlatformTotal(filtered, filtered[j].platform) <= PlatformTotal(filtered, p)
      && (PlatformTotal(filtered, filtered[j].platform) == PlatformTotal(filtered, p) ==>
            exists i :: 0 <= i < |filtered| && filtered[i].platform == p
                        && filtered[i].saleDate <= filtered[j].saleDate)
  {
    var k := PositionIn(sorted, filtered, j);
    var p := TopPlatformOf(sorted).platform;
    var q := sorted[k].platform;
    PlatformTotalOfPermutation(sorted, filtered, p);
    PlatformTotalOfPermutation(sorted, filtered, q);
    if PlatformTotal(sorted, q) == PlatformTotal(sorted, p) {
      var m :| 0 <= m <= k && sorted[m].platform == p;
      assert sorted[m].saleDate <= sorted[k].saleDate;
      var i := PositionIn(filtered, sorted, m);
      assert filtered[i].platform == p && filtered[i].saleDate <= filtered[j].saleDate;
    }
  }

  /** Where an element of `b` sits in a permutation `a` of it. */
  lemma PositionIn<T>(a: seq<T>, b: seq<T>, j: nat) returns (k: nat)
    requires multiset(a) == multiset(b) && j < |b|
    ensures k < |a| && a[k] == b[j]
  {
    assert b[j] in multiset(a);
    k :| 0 <= k < |a| && a[k] == b[j];
  }

  /** Two sales on different platforms with equal commissions, the one
      listed first being the newer (Kiwify's sale of one real on day 2 ahead of
      Hotmart's of one real on day 1, say): the first draw names the first
      sale's platform, every later draw of the same window names the other. */
  lemma RedrawFlipsTiedLeader(w: seq<Sale>)
    requires |w| == 2 && w[0].platform != w[1].platform
    requires w[0].commission == w[1].commission && w[1].saleDate < w[0].saleDate
    ensures TopPlatformOf(w) == Leader(w[0].platform)
    ensures TopPlatformOnRedrawAsWritten(w) == Leader(w[1].platform)
  {
    TwoSaleTotals(w);
    FirstDrawOfTie(w);
    LaterDrawOfTie(w);
  }

  lemma FirstDrawOfTie(w: seq<Sale>)
    requires |w| == 2 && w[0].platform != w[1].platform
    requires PlatformTotal(w, w[0].platform) == PlatformTotal(w, w[1].platform)
    ensures TopPlatformOf(w) == Leader(w[0].platform)
  {
    var r := TopPlatformOf(w);
    var i :| 0 <= i < 2 && w[i].platform == r.platform;
    assert PlatformTotal(w, w[0].platform) == PlatformTotal(w, r.platform);
  }

  lemma LaterDrawOfTie(w: seq<Sale>)
    requires |w| == 2 && w[0].platform != w[1].platform && w[1].saleDate < w[0].saleDate
    requires w[0].commission == w[1].commission
    ensures TopPlatformOnRedrawAsWritten(w) == Leader(w[1].platform)
  {
    var sorted := SortByDate(w);
    SortTwo(w, sorted);
    TwoSaleTotals(sorted);
    FirstDrawOfTie(sorted);
  }

  /** Two sales of different dates sort into the older one, then the newer. */
  lemma SortTwo(w: seq<Sale>, sorted: seq<Sale>)
    requires |w| == 2 && w[1].saleDate < w[0].saleDate
    requires OldestFirst(sorted) && multiset(sorted) == multiset(w)
    ensures sorted == [w[1], w[0]]
  {
    assert |sorted| == |multiset(sorted)| == |multiset(w)| == 2;
    assert w == [w[0]] + [w[1]];
    assert multiset(w) == multiset{w[0], w[1]};
    assert sorted == [sorted[0]] + [sorted[1]];
    assert multiset(sorted) == multiset{sorted[0], sorted[1]};
    assert sorted[0].saleDate <= sorted[1].saleDate;
    assert sorted[0] in multiset(w) && sorted[1] in multiset(w);
    if sorted[0] == w[0] {
      assert false;
    }
    assert sorted[0] == w[1];
    assert multiset{sorted[1]} == multiset{w[0]};
    assert sorted[1] in multiset{w[0]};
  }

  /** The platform totals of two sales on different platforms. */
  lemma TwoSaleTotals(w: seq<Sale>)
    requires |w| == 2 && w[0].platform != w[1].platform
    ensures PlatformTotal(w, w[0].platform) == w[0].commission
    ensures PlatformTotal(w, w[1].platform) == w[1].commission
  {
    assert w[1..][1..] == [];
  }

  // ---------------------------------------------------------------------------
  // The whole dashboard

  datatype Summary = Summary(
    filtered: seq<Sale>,
    totalCommission: Cents,
    totalSales: nat,
    averageTicket: real,
    topPlatform: TopPlatform,
    chart: seq<ChartPoint>,
    recent: seq<Sale>)

  /** Everything the dashboard shows for one window. */
  function Summarize(sales: seq<Sale>, range: TimeRange, now: CivilDate): (r: Summary)
    ensures r.filtered == FilteredSales(sales, range, now)
    ensures IsSubsequence(r.filtered, sales)
    ensures r.totalCommission == TotalCommission(r.filtered)
    ensures r.totalSales == |r.filtered|
    ensures r.totalSales == 0 ==> r.averageTicket == 0.0 && r.topPlatform == NotApplicable
    ensures r.averageTicket == AverageTicket(r.totalCommission, r.totalSales)
    ensures r.topPlatform == TopPlatformOf(r.filtered)
    ensures r.topPlatform.NotApplicable? <==> r.totalSales == 0
    ensures r.chart == ChartData(r.filtered)
    ensures |r.chart| == r.totalSales && ChartTotal(r.chart) == r.totalCommission
    ensures r.recent == RecentSales(r.filtered)
    ensures |r.recent| == Min(RecentLimit, r.totalSales)
    ensures NewestFirst(sales) ==> NewestFirst(r.recent)
  {
    var filtered := FilteredSales(sales, range, now);
    FilteredKeepsNewestFirst(sales, range, now);
    var total := TotalCommission(filtered);
    var count := |filtered|;
    Summary(filtered, total, count, AverageTicket(total, count),
            TopPlatformOf(filtered), ChartData(filtered), RecentSales(filtered))
  }

  // ---------------------------------------------------------------------------
  // Highlight of a newly arrived sale

  /** The dashboard's memory of the list it last accepted, and the id of the
      sale currently highlighted, if any. */
  datatype Highlight = Highlight(previous: seq<Sale>, newSaleId: Option<string>)

  const InitialHighlight: Highlight := Highlight([], None)

  /** A new head appeared on a list the dashboard had already seen non-empty. */
  predicate HeadChanged(previous: seq<Sale>, sales: seq<Sale>)
  {
    |sales| > 0 && |previous| > 0 && sales[0].id != previous[0].id
  }

  /** Runs whenever the sales list changes. When the head is new, the head is
      highlighted and the remembered list is left as it was; otherwise the new
      list is remembered and the highlight is untouched. */
  function OnSalesChanged(h: Highlight, sales: seq<Sale>): (r: Highlight)
    ensures r.newSaleId != h.newSaleId ==> HeadChanged(h.previous, sales)
    ensures HeadChanged(h.previous, sales) ==>
      r.newSaleId == Some(sales[0].id) && r.previous == h.previous
    ensures !HeadChanged(h.previous, sales) ==>
      r.previous == sales && r.newSaleId == h.newSaleId
  {
    if |sales| > 0 && (|h.previous| == 0 || sales[0].id != h.previous[0].id) && |h.previous| > 0
    then Highlight(h.previous, Some(sales[0].id))
    else Highlight(sales, h.newSaleId)
  }

  /** The animation timer ran out. */
  function HighlightExpired(h: Highlight): (r: Highlight)
    ensures r.newSaleId == None && r.previous == h.previous
  {
    h.(newSaleId := None)
  }

  /** Nothing is highlighted on the initial load. */
  lemma NoHighlightOnFirstLoad(sales: seq<Sale>)
    ensures OnSalesChanged(InitialHighlight, sales).newSaleId == None
    ensures OnSalesChanged(InitialHighlight, sales).previous == sales
  {
  }

  /** A sale prepended to the list the dashboard last accepted is highlighted. */
  lemma PrependedSaleHighlighted(h: Highlight, s: Sale)
    requires |h.previous| > 0 && s.id != h.previous[0].id
    ensures OnSalesChanged(h, [s] + h.previous).newSaleId == Some(s.id)
  {
  }

  // ---------------------------------------------------------------------------
  // The "all" window sorts the shell's own list

  /** The shell's list after the dashboard has drawn a window, as the app does
      it: in the "all" window the filter hands back the shell's own array and
      the chart's sort reorders that array in place, so the shell's list comes
      out oldest first; the other windows sort a fresh array. */
  function SharedListAfterDrawAsWritten(sales: seq<Sale>, range: TimeRange): (r: seq<Sale>)
    ensures range != All ==> r == sales
    ensures range == All ==> OldestFirst(r) && multiset(r) == multiset(sales)
  {
    if range == All then SortByDate(sales) else sales
  }

  /** Sorting a list that is already oldest first leaves it as it is. */
  lemma {:induction false} SortOfSortedIsIdentity(sorted: seq<Sale>)
    requires OldestFirst(sorted)
    ensures SortByDate(sorted) == sorted
  {
    if |sorted| > 0 {
      assert sorted == [sorted[0]] + sorted[1..];
      OldestFirstTail(sorted);
      SortOfSortedIsIdentity(sorted[1..]);
    }
  }

  /** A sale strictly newer than every sale of an oldest-first list is inserted last. */
  lemma {:induction false} InsertNewestGoesLast(x: Sale, sorted: seq<Sale>)
    requires OldestFirst(sorted)
    requires forall i :: 0 <= i < |sorted| ==> sorted[i].saleDate < x.saleDate
    ensures InsertByDate(x, sorted) == sorted + [x]
  {
    if |sorted| > 0 {
      assert sorted == [sorted[0]] + sorted[1..];
      OldestFirstTail(sorted);
      InsertNewestGoesLast(x, sorted[1..]);
      assert InsertByDate(x, sorted) == [sorted[0]] + InsertByDate(x, sorted[1..]);
    }
  }

  /** A sale polled while the "all" window is shown. The shell's array is
      oldest first after the previous draw, and the highlight effect remembers
      that very array. The shell prepends the sale, the next draw sorts the new
      array in place before the effect runs, so the sale ends up last, the head
      the effect compares is the same oldest sale as before, and nothing is
      highlighted; the shell's list is no longer newest first. Had the draw
      left the shell's list alone, the effect would have seen the polled sale
      at the head and highlighted it. */
  lemma PolledSaleNotHighlightedAsWritten(h: Highlight, s: Sale)
    requires OldestFirst(h.previous) && |h.previous| > 0
    requires forall i :: 0 <= i < |h.previous| ==> h.previous[i].saleDate < s.saleDate
    ensures SharedListAfterDrawAsWritten([s] + h.previous, All) == h.previous + [s]
    ensures !NewestFirst(SharedListAfterDrawAsWritten([s] + h.previous, All))
    ensures OnSalesChanged(h, SharedListAfterDrawAsWritten([s] + h.previous, All))
         == Highlight(h.previous + [s], h.newSaleId)
    ensures s.id != h.previous[0].id ==>
      OnSalesChanged(h, [s] + h.previous).newSaleId == Some(s.id)
  {
    var prepended := [s] + h.previous;
    assert prepended[1..] == h.previous;
    SortOfSortedIsIdentity(h.previous);
    InsertNewestGoesLast(s, h.previous);
    var shown := h.previous + [s];
    assert shown[0] == h.previous[0];
    assert shown[|shown| - 1] == s;
  }
}
