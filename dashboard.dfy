/** The dashboard's figures over the Daily_Log and Sales tables: loading a
    table in date order, the egg and revenue totals, and the per-date sales series. */
module Dashboard {
  import opened Records
  import opened Seqs

  /** A fetched table as the dashboard uses it: an empty table is left as it
      is, any other is sorted ascending by date. */
  function LoadTable<T(==)>(rows: seq<T>, date: T -> int): (table: seq<T>)
    ensures SortedBy(table, date)
    ensures multiset(table) == multiset(rows)
    ensures rows == [] ==> table == rows
  {
    if rows == [] then rows else SortBy(rows, date)
  }

  /** Loading a table that is already in date order changes nothing. */
  lemma LoadSortedTable<T>(rows: seq<T>, date: T -> int)
    requires SortedBy(rows, date)
    ensures LoadTable(rows, date) == rows
  {
    SortByOfSorted(rows, date);
  }

  function Eggs(e: EggCount): int { e.eggs }
  function Price(e: SaleAmount): int { e.price }

  /** The Eggs_Collected column summed. */
  function TotalEggs(daily: seq<EggCount>): int
  {
    SumBy(daily, Eggs)
  }

  /** The Total_Price column summed, in cents. */
  function TotalRevenue(sales: seq<SaleAmount>): int
  {
    SumBy(sales, Price)
  }

  /** The egg figures the dashboard shows: none for an empty log, otherwise
      the total and the number of days it is spread over (their quotient is
      the daily average). */
  datatype EggFigures = NoEggData | EggTotals(total: int, days: nat)

  function EggMetrics(daily: seq<EggCount>): (r: EggFigures)
    ensures r == NoEggData <==> daily == []
    ensures r.EggTotals? ==> r.days == |daily| > 0 && r.total == TotalEggs(daily)
  {
    if daily == [] then NoEggData else EggTotals(TotalEggs(daily), |daily|)
  }

  /** Loading, which reorders the rows, does not change the totals. */
  lemma TotalsIgnoreLoadOrder(daily: seq<EggCount>, sales: seq<SaleAmount>)
    ensures TotalEggs(LoadTable(daily, DailyDate)) == TotalEggs(daily)
    ensures EggMetrics(LoadTable(daily, DailyDate)) == EggMetrics(daily)
    ensures TotalRevenue(LoadTable(sales, SaleDate)) == TotalRevenue(sales)
  {
    SumByPermutation(LoadTable(daily, DailyDate), daily, Eggs);
    SumByPermutation(LoadTable(sales, SaleDate), sales, Price);
    var loaded := LoadTable(daily, DailyDate);
    assert |loaded| == |multiset(loaded)| == |multiset(daily)| == |daily|;
  }

  /** A logged day adds exactly its eggs to the total. */
  lemma LoggedDayAddsEggs(daily: seq<EggCount>, e: EggCount)
    ensures TotalEggs(daily + [e]) == TotalEggs(daily) + e.eggs
  {
    SumBySnoc(daily, e, Eggs);
  }

  /** A recorded sale adds exactly its price to the revenue. */
  lemma RecordedSaleAddsRevenue(sales: seq<SaleAmount>, e: SaleAmount)
    ensures TotalRevenue(sales + [e]) == TotalRevenue(sales) + e.price
  {
    SumBySnoc(sales, e, Price);
  }

  /** Rows whose egg counts are all non-negative never give a negative total. */
  lemma {:induction false} TotalEggsNonNegative(daily: seq<EggCount>)
    requires forall e :: e in daily ==> e.eggs >= 0
    ensures TotalEggs(daily) >= 0
  {
    if daily != [] {
      TotalEggsNonNegative(daily[1..]);
    }
  }

  /** One bar of the sales chart: a date and the revenue of that date. */
  datatype DaySales = DaySales(date: Date, total: int)

  function SeriesDate(d: DaySales): int { d.date }
  function SeriesTotal(d: DaySales): int { d.total }

  /** A sale's price if it is dated `d`, else nothing. */
  function PriceOn(d: Date): SaleAmount -> int
  {
    (s: SaleAmount) => if s.date == d then s.price else 0
  }

  /** The revenue of the sales dated `d`. */
  function DateRevenue(sales: seq<SaleAmount>, d: Date): int
  {
    SumBy(sales, PriceOn(d))
  }

  predicate StrictlyIncreasing(series: seq<DaySales>)
  {
    forall i, j :: 0 <= i < j < |series| ==> series[i].date < series[j].date
  }

  /** Merges the runs of equal dates of a date-ordered sales table into one
      entry each, summing their prices. */
  function GroupRuns(sales: seq<SaleAmount>): (series: seq<DaySales>)
    requires SortedBy(sales, SaleDate)
    ensures sales != [] ==> series != [] && series[0].date == sales[0].date
    ensures StrictlyIncreasing(series)
  {
    if sales == [] then []
    else
      var head := sales[0];
      var rest := GroupRuns(sales[1..]);
      assert rest != [] ==> head.date <= rest[0].date;
      if rest != [] && rest[0].date == head.date then
        [DaySales(head.date, head.price + rest[0].total)] + rest[1..]
      else
        [DaySales(head.date, head.price)] + rest
  }

  /** The grouped series holds exactly the dates of the table. */
  lemma {:induction false} GroupRunsDates(sales: seq<SaleAmount>)
    requires SortedBy(sales, SaleDate)
    ensures KeySet(GroupRuns(sales), SeriesDate) == KeySet(sales, SaleDate)
  {
    if sales != [] {
      var head := sales[0];
      var rest := GroupRuns(sales[1..]);
      var series := GroupRuns(sales);
      GroupRunsDates(sales[1..]);
      assert sales == [head] + sales[1..];
      KeySetCons(head, sales[1..], SaleDate);
      var tail := KeySet(sales[1..], SaleDate);
      assert KeySet(sales, SaleDate) == {head.date} + tail;
      if rest != [] && rest[0].date == head.date {
        assert rest == [rest[0]] + rest[1..];
        KeySetCons(rest[0], rest[1..], SeriesDate);
        assert tail == {head.date} + KeySet(rest[1..], SeriesDate);
        assert series == [series[0]] + rest[1..];
        KeySetCons(series[0], rest[1..], SeriesDate);
      } else {
        assert series == [series[0]] + rest;
        KeySetCons(series[0], rest, SeriesDate);
      }
    }
  }

  /** Each entry of the grouped series holds the revenue of its date. */
  lemma {:induction false} GroupRunsTotals(sales: seq<SaleAmount>)
    requires SortedBy(sales, SaleDate)
    ensures forall k :: 0 <= k < |GroupRuns(sales)| ==>
      GroupRuns(sales)[k].total == DateRevenue(sales, GroupRuns(sales)[k].date)
  {
    if sales != [] {
      var head := sales[0];
      var rest := GroupRuns(sales[1..]);
      var series := GroupRuns(sales);
      GroupRunsTotals(sales[1..]);
      forall k | 0 <= k < |series|
        ensures series[k].total == DateRevenue(sales, series[k].date)
      {
        var d := series[k].date;
        assert DateRevenue(sales, d) == (if head.date == d then head.price else 0) + DateRevenue(sales[1..], d);
        if rest != [] && rest[0].date == head.date {
          if k > 0 {
            assert series[k] == rest[k];
          }
        } else if k == 0 {
          forall s | s in sales[1..] ensures PriceOn(d)(s) == 0 {
            var i :| 0 <= i < |sales[1..]| && sales[1..][i] == s;
            assert rest[0].date == sales[1].date;
            assert sales[1].date <= s.date;
          }
          SumByZero(sales[1..], PriceOn(d));
        } else {
          assert series[k] == rest[k - 1];
        }
      }
    }
  }

  /** The grouped series sums to the revenue of the whole table. */
  lemma {:induction false} GroupRunsSum(sales: seq<SaleAmount>)
    requires SortedBy(sales, SaleDate)
    ensures SumBy(GroupRuns(sales), SeriesTotal) == TotalRevenue(sales)
  {
    if sales != [] {
      GroupRunsSum(sales[1..]);
      var rest := GroupRuns(sales[1..]);
      if rest != [] && rest[0].date == sales[0].date {
        assert rest == [rest[0]] + rest[1..];
      }
    }
  }

  /** The sales chart's series: the sales table grouped by date, one entry per
      date in ascending order. */
  function DailySales(sales: seq<SaleAmount>): (series: seq<DaySales>)
    ensures StrictlyIncreasing(series)
    ensures KeySet(series, SeriesDate) == KeySet(sales, SaleDate)
    ensures forall k :: 0 <= k < |series| ==> series[k].total == DateRevenue(sales, series[k].date)
    ensures SumBy(series, SeriesTotal) == TotalRevenue(sales)
  {
    var sorted := LoadTable(sales, SaleDate);
    KeySetPermutation(sorted, sales, SaleDate);
    GroupRunsDates(sorted);
    GroupRunsTotals(sorted);
    GroupRunsSum(sorted);
    SumByPermutation(sorted, sales, Price);
    forall d: Date ensures DateRevenue(sorted, d) == DateRevenue(sales, d) {
      SumByPermutation(sorted, sales, PriceOn(d));
    }
    GroupRuns(sorted)
  }

  /** For a table already in date order the series groups the table as it is. */
  lemma DailySalesOfSorted(sales: seq<SaleAmount>)
    requires SortedBy(sales, SaleDate)
    ensures DailySales(sales) == GroupRuns(sales)
  {
    LoadSortedTable(sales, SaleDate);
  }

  /** Two sales on one day and one on the next, in date order, give two bars
      and a total revenue of 4000. */
  lemma ExampleSalesSeries(d1: Date, d2: Date)
    requires d1 < d2
    ensures var sales := [SaleAmount(d1, 1500), SaleAmount(d1, 500), SaleAmount(d2, 2000)];
            SortedBy(sales, SaleDate) && GroupRuns(sales) == [DaySales(d1, 2000), DaySales(d2, 2000)]
            && TotalRevenue(sales) == 4000
  {
    var s1, s2, s3 := SaleAmount(d1, 1500), SaleAmount(d1, 500), SaleAmount(d2, 2000);
    var sales := [s1, s2, s3];
    assert SortedBy(sales, SaleDate);
    assert sales[1..] == [s2, s3];
    assert sales[1..][1..] == [s3];
    assert [s3][1..] == [];
    assert GroupRuns([s3]) == [DaySales(d2, 2000)];
    assert GroupRuns([s2, s3]) == [DaySales(d1, 500), DaySales(d2, 2000)];
    RecordedSaleAddsRevenue([], s1);
    RecordedSaleAddsRevenue([s1], s2);
    RecordedSaleAddsRevenue([s1, s2], s3);
    assert [s1] == [] + [s1];
    assert [s1, s2] == [s1] + [s2];
    assert sales == [s1, s2] + [s3];
  }

  /** Three logged days of 10, 12 and 8 eggs give 30 eggs over 3 days. */
  lemma ExampleEggMetrics(d1: Date, d2: Date, d3: Date)
    ensures EggMetrics([EggCount(d1, 10), EggCount(d2, 12), EggCount(d3, 8)]) == EggTotals(30, 3)
  {
    var e1, e2, e3 := EggCount(d1, 10), EggCount(d2, 12), EggCount(d3, 8);
    LoggedDayAddsEggs([], e1);
    LoggedDayAddsEggs([e1], e2);
    LoggedDayAddsEggs([e1, e2], e3);
    assert [e1] == [] + [e1];
    assert [e1, e2] == [e1] + [e2];
    assert [e1, e2, e3] == [e1, e2] + [e3];
  }
}
