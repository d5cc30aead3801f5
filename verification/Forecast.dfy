/** Demand series and forecast (app/analytics/forecasting.py), over exact rationals. */
module Forecast {
  import opened Wrappers

  /** A sale date as the query hands it over; days are proleptic ordinals. */
  datatype SaleDate = Date(day: int) | DateTime(day: int, second: nat)

  datatype Row = Row(product: int, date: SaleDate, quantity: real)

  /** int(): towards zero. */
  function Truncate(x: real): int {
    if x >= 0.0 then x.Floor else -((-x).Floor)
  }

  /** What a row adds to one day of one product. */
  function Amount(row: Row, product: int, day: int): int {
    if row.product == product && row.date.day == day then Truncate(row.quantity) else 0
  }

  function DayTotal(rows: seq<Row>, product: int, day: int): int {
    if rows == [] then 0
    else DayTotal(rows[..|rows| - 1], product, day) + Amount(rows[|rows| - 1], product, day)
  }

  /** One day of the dense series per day, oldest first, ending the day before the reference date. */
  method BuildDailySeries(rows: seq<Row>, product: int, daysBack: int, reference: int) returns (series: seq<int>)
    ensures |series| == if daysBack > 0 then daysBack else 0
    ensures forall i | 0 <= i < |series| :: series[i] == DayTotal(rows, product, reference - daysBack + i)
  {
    var byDate: map<int, int> := map[];
    for i := 0 to |rows|
      invariant forall d :: (if d in byDate then byDate[d] else 0) == DayTotal(rows[..i], product, d)
    {
      assert rows[..i + 1][..i] == rows[..i];
      if rows[i].product == product {
        var day := rows[i].date.day;
        byDate := byDate[day := (if day in byDate then byDate[day] else 0) + Truncate(rows[i].quantity)];
      }
    }
    assert rows[..|rows|] == rows;
    series := [];
    var offset := daysBack;
    while offset > 0
      invariant offset <= daysBack && (offset >= 0 || daysBack < 0)
      invariant |series| == if daysBack > 0 then daysBack - offset else 0
      invariant forall i | 0 <= i < |series| :: series[i] == DayTotal(rows, product, reference - daysBack + i)
    {
      var day := reference - offset;
      series := series + [if day in byDate then byDate[day] else 0];
      offset := offset - 1;
    }
  }

  // ---- The series keeps every sale of the window ----

  function Sum(s: seq<int>): int {
    if s == [] then 0 else Sum(s[..|s| - 1]) + s[|s| - 1]
  }

  /** The quantities of the product's rows dated in [first, last). */
  function WindowTotal(rows: seq<Row>, product: int, first: int, last: int): int {
    if rows == [] then 0 else
      var row := rows[|rows| - 1];
      WindowTotal(rows[..|rows| - 1], product, first, last) +
      if row.product == product && first <= row.date.day < last then Truncate(row.quantity) else 0
  }

  lemma {:induction false} WindowGrows(rows: seq<Row>, product: int, first: int, last: int)
    requires first <= last
    ensures WindowTotal(rows, product, first, last + 1) == WindowTotal(rows, product, first, last) + DayTotal(rows, product, last)
  {
    if rows != [] {
      WindowGrows(rows[..|rows| - 1], product, first, last);
    }
  }

  lemma {:induction false} EmptyWindow(rows: seq<Row>, product: int, day: int)
    ensures WindowTotal(rows, product, day, day) == 0
  {
    if rows != [] {
      EmptyWindow(rows[..|rows| - 1], product, day);
    }
  }

  /** The dense series adds up to the product's quantities inside the window. */
  lemma {:induction false} SeriesKeepsTheSales(rows: seq<Row>, product: int, first: int, series: seq<int>)
    requires forall i | 0 <= i < |series| :: series[i] == DayTotal(rows, product, first + i)
    ensures Sum(series) == WindowTotal(rows, product, first, first + |series|)
  {
    if series == [] {
      EmptyWindow(rows, product, first);
    } else {
      SeriesKeepsTheSales(rows, product, first, series[..|series| - 1]);
      WindowGrows(rows, product, first, first + |series| - 1);
    }
  }

  /** Rows may come in any order. */
  lemma {:induction false} OrderIsIrrelevant(a: seq<Row>, b: seq<Row>, product: int, day: int)
    requires multiset(a) == multiset(b)
    ensures DayTotal(a, product, day) == DayTotal(b, product, day)
  {
    if a == [] {
      assert |multiset(b)| == 0;
    } else {
      var last := a[|a| - 1];
      assert last in multiset(b);
      var k :| 0 <= k < |b| && b[k] == last;
      var rest := b[..k] + b[k + 1..];
      assert b == b[..k] + [last] + b[k + 1..];
      assert a == a[..|a| - 1] + [last];
      assert multiset(b) == multiset(b[..k]) + multiset{last} + multiset(b[k + 1..]);
      assert multiset(a) == multiset(a[..|a| - 1]) + multiset{last};
      assert multiset(rest) == multiset(b[..k]) + multiset(b[k + 1..]);
      assert multiset(a[..|a| - 1]) == multiset(a) - multiset{last} == multiset(rest);
      OrderIsIrrelevant(a[..|a| - 1], rest, product, day);
      TotalWithout(b, k, product, day);
    }
  }

  lemma {:induction false} TotalWithout(b: seq<Row>, k: nat, product: int, day: int)
    requires k < |b|
    ensures DayTotal(b, product, day) == DayTotal(b[..k] + b[k + 1..], product, day) + Amount(b[k], product, day)
  {
    var rest := b[..k] + b[k + 1..];
    if k == |b| - 1 {
      assert rest == b[..|b| - 1];
    } else {
      var front := b[..|b| - 1];
      TotalWithout(front, k, product, day);
      assert front[..k] + front[k + 1..] == rest[..|rest| - 1];
      assert rest[|rest| - 1] == b[|b| - 1];
    }
  }

  /** int() drops the fraction: towards zero, by less than one. */
  lemma {:induction false} TruncateIs(x: real)
    ensures x >= 0.0 ==> 0.0 <= Truncate(x) as real <= x < Truncate(x) as real + 1.0
    ensures x <= 0.0 ==> Truncate(x) as real - 1.0 < x <= Truncate(x) as real <= 0.0
  {
  }

  // ---- The forecast ----

  datatype Method = NoHistory | ShortHistory | TrendWeighted

  datatype Result = Result(
    avgDailyDemand: real, recentWeekAvg: Option<real>, trendPct: real, next7Days: int, daysOfHistory: nat, how: Method)

  /** Python's round(x): ties go to the even neighbour. */
  function Round(x: real): int {
    var f := x.Floor;
    var d := x - f as real;
    if d < 0.5 || (d == 0.5 && f % 2 == 0) then f else f + 1
  }

  function Average(s: seq<int>): real
    requires s != []
  {
    Sum(s) as real / |s| as real
  }

  function RecentWeek(s: seq<int>): seq<int>
    requires |s| >= 14
  {
    s[|s| - 7..]
  }

  function PriorWeek(s: seq<int>): seq<int>
    requires |s| >= 14
  {
    s[|s| - 14..|s| - 7]
  }

  function Trend(recent: real, prior: real): real {
    var ratio := if prior > 0.0 then recent / prior else if recent > 0.0 then 2.0 else 1.0;
    if ratio < 0.5 then 0.5 else if ratio > 2.0 then 2.0 else ratio
  }

  /** 60% recent rate, scaled by the trend, and 40% long-run average. */
  function Weighted(recent: real, trend: real, average: real): real {
    0.6 * recent * trend + 0.4 * average
  }

  function Projected(s: seq<int>): real
    requires s != []
  {
    if |s| >= 14 then
      var recent := Average(RecentWeek(s));
      Weighted(recent, Trend(recent, Average(PriorWeek(s))), Average(s))
    else Average(s)
  }

  function ForecastProductDemand(s: seq<int>): Result {
    if s == [] then Result(0.0, None, 0.0, 0, 0, NoHistory)
    else
      var next := Round(Projected(s) * 7.0);
      var average := Round(Average(s) * 100.0) as real / 100.0;
      if |s| >= 14 then
        var recent := Average(RecentWeek(s));
        var trend := Trend(recent, Average(PriorWeek(s)));
        Result(average, Some(Round(recent * 100.0) as real / 100.0), Round((trend - 1.0) * 100.0 * 10.0) as real / 10.0,
               next, |s|, TrendWeighted)
      else Result(average, None, 0.0, next, |s|, ShortHistory)
  }

  /** Rounding goes to the nearest integer, and from halfway to the even one. */
  lemma {:induction false} RoundIsNearestEven(x: real)
    ensures -0.5 <= Round(x) as real - x <= 0.5
    ensures Round(x) as real - x == 0.5 || Round(x) as real - x == -0.5 ==> Round(x) % 2 == 0
  {
  }

  /** Without two weeks of history the forecast is flat, and without any there is none. */
  lemma {:induction false} ShortHistoryIsFlat(s: seq<int>)
    requires |s| < 14
    ensures s == [] ==> ForecastProductDemand(s) == Result(0.0, None, 0.0, 0, 0, NoHistory)
    ensures s != [] ==>
      var f, average := ForecastProductDemand(s), Sum(s) as real / |s| as real;
      && f.how == ShortHistory && f.recentWeekAvg == None && f.trendPct == 0.0 && f.daysOfHistory == |s|
      && f.next7Days == Round(7.0 * average) && f.avgDailyDemand == Round(100.0 * average) as real / 100.0
  {
    if s != [] {
      var average := Sum(s) as real / |s| as real;
      assert Average(s) == average;
      assert 7.0 * average == average * 7.0;
      hide Sum, Round;
    }
  }

  // ---- Its laws ----

  predicate Between(s: seq<int>, lo: int, hi: int) {
    forall i | 0 <= i < |s| :: lo <= s[i] <= hi
  }

  lemma {:induction false} SumBetween(s: seq<int>, lo: int, hi: int)
    requires Between(s, lo, hi)
    ensures lo as real * |s| as real <= Sum(s) as real <= hi as real * |s| as real
  {
    if s != [] {
      SumBetween(s[..|s| - 1], lo, hi);
      var n, last := |s|, s[|s| - 1];
      assert Sum(s) as real == Sum(s[..n - 1]) as real + last as real;
      assert lo as real <= last as real <= hi as real;
      hide Sum, Between;
      Times(lo as real, n);
      Times(hi as real, n);
    }
  }

  lemma Times(x: real, n: nat)
    requires n > 0
    ensures x * n as real == x * (n - 1) as real + x
  {
    assert n as real == (n - 1) as real + 1.0;
  }

  lemma QuotientBetween(x: real, n: real, lo: real, hi: real)
    requires n > 0.0 && lo * n <= x <= hi * n
    ensures lo <= x / n <= hi
  {
    var q := x / n;
    assert q * n == x;
    if q < lo { ProductLess(q, lo, n); }
    if hi < q { ProductLess(hi, q, n); }
  }

  lemma ProductLess(a: real, b: real, n: real)
    requires a < b && n > 0.0
    ensures a * n < b * n
  {
  }

  lemma AverageIs(s: seq<int>)
    requires s != []
    ensures Average(s) == Sum(s) as real / |s| as real
  {
  }

  lemma AverageBetween(s: seq<int>, lo: int, hi: int)
    requires s != [] && Between(s, lo, hi)
    ensures lo as real <= Average(s) <= hi as real
  {
    SumBetween(s, lo, hi);
    hide *;
    AverageIs(s);
    QuotientBetween(Sum(s) as real, |s| as real, lo as real, hi as real);
  }

  lemma ScaledByTrend(recent: real, ratio: real)
    requires recent >= 0.0 && 0.5 <= ratio <= 2.0
    ensures 0.5 * recent <= recent * ratio <= 2.0 * recent
  {
  }

  /** Two weeks or more of demand between lo and hi project between 0.7 lo and 1.6 hi a day. */
  lemma {:induction false} ProjectionIsBounded(s: seq<int>, lo: nat, hi: nat)
    requires |s| >= 14 && Between(s, lo, hi)
    ensures 0.7 * lo as real <= Projected(s) <= 1.6 * hi as real
    ensures ForecastProductDemand(s).next7Days >= 0
    ensures -50.0 <= ForecastProductDemand(s).trendPct <= 100.0
  {
    hide *;
    WeeksBetween(s, lo, hi);
    var recent, prior := Average(RecentWeek(s)), Average(PriorWeek(s));
    AverageBetween(s, lo, hi);
    AverageBetween(RecentWeek(s), lo, hi);
    var trend := Trend(recent, prior);
    TrendRange(recent, prior);
    ScaledByTrend(recent, trend);
    ProjectedIs(s);
    ForecastIs(s);
    Blend(recent, trend, Average(s), lo as real, hi as real);
    RoundMonotone(0.0, Projected(s) * 7.0);
    RoundMonotone(-500.0, (trend - 1.0) * 100.0 * 10.0);
    RoundMonotone((trend - 1.0) * 100.0 * 10.0, 1000.0);
    RoundWhole(0);
    RoundWhole(-500);
    RoundWhole(1000);
  }

  lemma Blend(recent: real, trend: real, average: real, lo: real, hi: real)
    requires 0.0 <= lo <= recent <= hi && lo <= average <= hi
    requires 0.5 * recent <= recent * trend <= 2.0 * recent
    ensures 0.7 * lo <= Weighted(recent, trend, average) <= 1.6 * hi
  {
    var r := recent * trend;
    assert 0.6 * recent * trend == 0.6 * r;
  }

  lemma TrendRange(recent: real, prior: real)
    ensures 0.5 <= Trend(recent, prior) <= 2.0
  {
  }

  lemma WeeksBetween(s: seq<int>, lo: int, hi: int)
    requires |s| >= 14 && Between(s, lo, hi)
    ensures RecentWeek(s) != [] && PriorWeek(s) != [] && Between(RecentWeek(s), lo, hi) && Between(PriorWeek(s), lo, hi)
  {
  }

  lemma ProjectedIs(s: seq<int>)
    requires |s| >= 14
    ensures RecentWeek(s) != [] && PriorWeek(s) != []
    ensures var recent := Average(RecentWeek(s));
            Projected(s) == Weighted(recent, Trend(recent, Average(PriorWeek(s))), Average(s))
  {
  }

  lemma ForecastIs(s: seq<int>)
    requires s != []
    ensures ForecastProductDemand(s).next7Days == Round(Projected(s) * 7.0)
    ensures |s| >= 14 ==>
      var trend := Trend(Average(RecentWeek(s)), Average(PriorWeek(s)));
      ForecastProductDemand(s).trendPct == Round((trend - 1.0) * 100.0 * 10.0) as real / 10.0
  {
  }

  lemma RoundWhole(n: int)
    ensures Round(n as real) == n
  {
  }

  lemma RoundMonotone(x: real, y: real)
    requires x <= y
    ensures Round(x) <= Round(y)
    ensures -0.5 <= Round(x) as real - x <= 0.5
  {
    assert x.Floor <= y.Floor;
  }

  /** b is at least a everywhere, and equal to it in the prior week. */
  predicate Raises(a: seq<int>, b: seq<int>) {
    && |a| == |b|
    && (forall i | 0 <= i < |a| :: a[i] <= b[i])
    && (|a| >= 14 ==> PriorWeek(a) == PriorWeek(b))
  }

  lemma {:induction false} SumMonotone(a: seq<int>, b: seq<int>)
    requires |a| == |b| && forall i | 0 <= i < |a| :: a[i] <= b[i]
    ensures Sum(a) <= Sum(b)
  {
    if a != [] {
      SumMonotone(a[..|a| - 1], b[..|b| - 1]);
    }
  }

  lemma AverageMonotone(a: seq<int>, b: seq<int>)
    requires a != [] && |a| == |b| && forall i | 0 <= i < |a| :: a[i] <= b[i]
    ensures Average(a) <= Average(b)
  {
    SumMonotone(a, b);
    QuotientMonotone(Sum(a) as real, Sum(b) as real, |a| as real);
  }

  lemma QuotientMonotone(x: real, y: real, n: real)
    requires x <= y && n > 0.0
    ensures x / n <= y / n
  {
  }

  lemma TrendMonotone(x: real, y: real, prior: real)
    requires x <= y
    ensures Trend(x, prior) <= Trend(y, prior)
    ensures 0.5 <= Trend(x, prior) <= 2.0
    ensures x < 0.0 ==> Trend(x, prior) <= 1.0
  {
    if prior > 0.0 {
      QuotientMonotone(x, y, prior);
      if x < 0.0 {
        QuotientMonotone(x, 0.0, prior);
      }
    }
  }

  /** x times its trend grows with x, on both sides of zero and across both clamps. */
  lemma TrendedMonotone(x: real, y: real, prior: real)
    requires x <= y
    ensures x * Trend(x, prior) <= y * Trend(y, prior)
  {
    TrendMonotone(x, y, prior);
    var t, u := Trend(x, prior), Trend(y, prior);
    if x >= 0.0 {
      ProductMonotone(x, y, t, u);
    } else if y >= 0.0 {
      ProductSigns(x, t, y, u);
    } else {
      NegativeTrends(x, y, prior);
      ProductMonotone(-y, -x, t, t);
    }
  }

  lemma NegativeTrends(x: real, y: real, prior: real)
    requires x < 0.0 && y < 0.0
    ensures Trend(x, prior) == Trend(y, prior)
  {
    if prior > 0.0 {
      QuotientMonotone(x, 0.0, prior);
      QuotientMonotone(y, 0.0, prior);
    }
  }

  lemma ProductMonotone(x: real, y: real, t: real, u: real)
    requires 0.0 <= x <= y && 0.0 < t <= u
    ensures x * t <= y * u
  {
    assert x * t <= x * u <= y * u;
  }

  lemma ProductSigns(x: real, t: real, y: real, u: real)
    requires x <= 0.0 <= y && t > 0.0 && u > 0.0
    ensures x * t <= 0.0 <= y * u
  {
  }

  /** Selling more on any day outside the prior week never lowers the forecast. */
  lemma {:induction false} MoreDemandNeverForecastsLess(a: seq<int>, b: seq<int>)
    requires a != [] && Raises(a, b)
    ensures Projected(a) <= Projected(b)
    ensures ForecastProductDemand(a).next7Days <= ForecastProductDemand(b).next7Days
  {
    hide *;
    RaisesAll(a, b);
    if |a| >= 14 {
      ProjectedRises(a, b);
    } else {
      AverageMonotone(a, b);
      ProjectedFlat(a);
      ProjectedFlat(b);
    }
    ForecastIs(a);
    ForecastIs(b);
    RoundMonotone(Projected(a) * 7.0, Projected(b) * 7.0);
  }

  lemma ProjectedRises(a: seq<int>, b: seq<int>)
    requires Raises(a, b) && |a| >= 14
    ensures Projected(a) <= Projected(b)
  {
    hide *;
    RaisesAll(a, b);
    WeeksRise(a, b);
    AverageMonotone(a, b);
    AverageMonotone(RecentWeek(a), RecentWeek(b));
    ProjectedIs(a);
    ProjectedIs(b);
    WeightedRises(Average(RecentWeek(a)), Average(RecentWeek(b)), Average(PriorWeek(a)), Average(a), Average(b));
  }

  lemma WeightedRises(x: real, y: real, prior: real, a: real, b: real)
    requires x <= y && a <= b
    ensures Weighted(x, Trend(x, prior), a) <= Weighted(y, Trend(y, prior), b)
  {
    hide Trend;
    TrendedMonotone(x, y, prior);
    BlendMonotone(x, Trend(x, prior), y, Trend(y, prior), a, b);
  }

  lemma RaisesAll(a: seq<int>, b: seq<int>)
    requires Raises(a, b)
    ensures |a| == |b| && forall i | 0 <= i < |a| :: a[i] <= b[i]
  {
  }

  lemma ProjectedFlat(s: seq<int>)
    requires 0 < |s| < 14
    ensures Projected(s) == Average(s)
  {
  }

  lemma WeeksRise(a: seq<int>, b: seq<int>)
    requires Raises(a, b) && |a| >= 14
    ensures RecentWeek(a) != [] && |RecentWeek(a)| == |RecentWeek(b)|
    ensures forall i | 0 <= i < |RecentWeek(a)| :: RecentWeek(a)[i] <= RecentWeek(b)[i]
    ensures PriorWeek(a) != [] && PriorWeek(a) == PriorWeek(b)
  {
  }

  lemma BlendMonotone(x: real, t: real, y: real, u: real, a: real, b: real)
    requires x * t <= y * u && a <= b
    ensures Weighted(x, t, a) <= Weighted(y, u, b)
  {
    assert 0.6 * x * t == 0.6 * (x * t);
    assert 0.6 * y * u == 0.6 * (y * u);
  }

  /** A constant demand, of any sign and length, is forecast as seven times itself. */
  lemma {:induction false} ConstantDemand(s: seq<int>, c: int)
    requires s != [] && Between(s, c, c)
    ensures ForecastProductDemand(s).next7Days == 7 * c
    ensures |s| >= 14 ==> ForecastProductDemand(s).trendPct == 0.0
  {
    AverageBetween(s, c, c);
    ForecastIs(s);
    var r := c as real;
    if |s| >= 14 {
      WeeksBetween(s, c, c);
      AverageBetween(RecentWeek(s), c, c);
      AverageBetween(PriorWeek(s), c, c);
      FlatTrend(r);
      ProjectedIs(s);
      RoundWhole(0);
    }
    assert Projected(s) == r;
    RoundWhole(7 * c);
    assert r * 7.0 == (7 * c) as real;
  }

  lemma FlatTrend(r: real)
    ensures Trend(r, r) == 1.0
  {
    if r > 0.0 {
      assert r / r == 1.0;
    }
  }

  // ---- Which days can lower it ----

  predicate Lower(a: seq<int>, b: seq<int>) {
    ForecastProductDemand(a).next7Days < ForecastProductDemand(b).next7Days
  }

  /** Selling x instead of a[i] on day i is no less, and is forecast as less. */
  predicate RaisingLowers(a: seq<int>, i: nat, x: int)
    requires i < |a|
  {
    a[i] <= x && Lower(a[i := x], a)
  }

  /** In no history of n days does selling more on day i lower the forecast. */
  ghost predicate NeverLowers(n: nat, i: nat)
    requires i < n
  {
    forall a: seq<int>, x: int | |a| == n :: !RaisingLowers(a, i, x)
  }

  predicate InPriorWeek(n: nat, i: nat) {
    n >= 14 && n - 14 <= i < n - 7
  }

  /** Selling more on one day can lower the forecast exactly when the day lies in the prior
      week of a history long enough to have one: the recent week then looks like a fall. */
  lemma {:induction false} OnlyThePriorWeekLowers(n: nat, i: nat)
    requires i < n
    ensures NeverLowers(n, i) <==> !InPriorWeek(n, i)
  {
    if InPriorWeek(n, i) {
      PeakLowers(n, i);
      assert RaisingLowers(Quiet(n), i, 70);
    } else {
      forall a: seq<int>, x: int | |a| == n ensures !RaisingLowers(a, i, x) {
        if a[i] <= x {
          assert n >= 14 ==> PriorWeek(a) == PriorWeek(a[i := x]);
          MoreDemandNeverForecastsLess(a, a[i := x]);
        }
      }
    }
  }

  /** Nothing sold until a recent week of ten a day. */
  function Quiet(n: nat): seq<int> {
    seq(n, j => if j < n - 7 then 0 else 10)
  }

  lemma {:induction false} SumUpdate(s: seq<int>, i: nat, x: int)
    requires i < |s|
    ensures Sum(s[i := x]) == Sum(s) - s[i] + x
  {
    var front := s[..|s| - 1];
    if i < |s| - 1 {
      assert s[i := x][..|s| - 1] == front[i := x];
      SumUpdate(front, i, x);
    } else {
      assert s[i := x][..|s| - 1] == front;
    }
  }

  lemma QuietSums(n: nat, i: nat)
    requires InPriorWeek(n, i)
    ensures |Quiet(n)| == n && Sum(Quiet(n)) == 70 && Sum(Quiet(n)[i := 70]) == 140
  {
    var s := Quiet(n);
    SumOfSame(s[..n - 7], 0);
    SumOfSame(s[n - 7..], 10);
    assert s == s[..n - 7] + s[n - 7..];
    SumConcat(s[..n - 7], s[n - 7..]);
    SumUpdate(s, i, 70);
  }

  /** The two weeks of both histories; with the peak the prior week averages ten as well. */
  lemma QuietWeeks(n: nat, i: nat)
    requires InPriorWeek(n, i)
    ensures var a, b := Quiet(n), Quiet(n)[i := 70];
            && RecentWeek(a) != [] && RecentWeek(b) == RecentWeek(a) && PriorWeek(a) != [] && PriorWeek(b) != []
            && Average(RecentWeek(a)) == 10.0 && Average(PriorWeek(a)) == 0.0 && Average(PriorWeek(b)) == 10.0
  {
    var a, b, k := Quiet(n), Quiet(n)[i := 70], i - (n - 14);
    assert Between(RecentWeek(a), 10, 10) && Between(PriorWeek(a), 0, 0);
    AverageBetween(RecentWeek(a), 10, 10);
    AverageBetween(PriorWeek(a), 0, 0);
    assert PriorWeek(b) == PriorWeek(a)[k := 70];
    SumOfSame(PriorWeek(a), 0);
    SumUpdate(PriorWeek(a), k, 70);
    AverageIs(PriorWeek(b));
  }

  lemma PeakLowers(n: nat, i: nat)
    requires InPriorWeek(n, i)
    ensures |Quiet(n)| == n && RaisingLowers(Quiet(n), i, 70)
  {
    var a, b := Quiet(n), Quiet(n)[i := 70];
    assert a[i] == 0;
    QuietSums(n, i);
    QuietWeeks(n, i);
    ProjectedIs(a);
    ProjectedIs(b);
    AverageIs(a);
    AverageIs(b);
    ForecastIs(a);
    ForecastIs(b);
    hide Quiet, Projected, Average, Sum, RecentWeek, PriorWeek, ForecastProductDemand, Round;
    QuotientBetween(70.0, n as real, 0.0, 5.0);
    QuotientBetween(140.0, n as real, 0.0, 10.0);
    assert Trend(10.0, 0.0) == 2.0 && Trend(10.0, 10.0) == 1.0;
    RoundMonotone(84.0, Projected(a) * 7.0);
    RoundMonotone(Projected(b) * 7.0, 70.0);
    RoundWhole(84);
    RoundWhole(70);
  }

  /** Two weeks, each of one constant daily demand. */
  function Weeks(prior: int, recent: int): seq<int> {
    seq(14, i => if i < 7 then prior else recent)
  }

  /** A step in demand, worked out in closed form: doubling or more counts as +100%, halving or
      less as -50%, anything between as what it is; the weights are 60% recent and 40% overall. */
  lemma {:induction false} StepInDemand(prior: nat, recent: nat)
    requires prior > 0 || recent > 0
    ensures var f, p, r := ForecastProductDemand(Weeks(prior, recent)), prior as real, recent as real;
            && f.daysOfHistory == 14 && f.how == TrendWeighted && f.recentWeekAvg == Some(r)
            && f.avgDailyDemand == Round((prior + recent) as real / 2.0 * 100.0) as real / 100.0
            && (recent >= 2 * prior ==> f.trendPct == 100.0 && f.next7Days == Round(9.8 * r + 1.4 * p))
            && (2 * recent <= prior ==> f.trendPct == -50.0 && f.next7Days == Round(3.5 * r + 1.4 * p))
            && (prior < 2 * recent && recent < 2 * prior ==>
                  && f.trendPct == Round((r / p - 1.0) * 1000.0) as real / 10.0
                  && f.next7Days == Round(4.2 * (r * r / p) + 1.4 * (p + r)))
  {
    var s := Weeks(prior, recent);
    hide *;
    WeeksAverages(prior, recent);
    ForecastFields(s);
    WeeksTrend(prior as real, recent as real);
    ProjectedIs(s);
    RoundCents(recent);
    WeightedIs(recent as real, Trend(recent as real, prior as real), (prior + recent) as real / 2.0);
    RoundWhole(1000);
    RoundWhole(-500);
    if prior < 2 * recent && recent < 2 * prior {
      UnclampedStep(prior, recent);
    }
  }

  lemma UnclampedStep(prior: nat, recent: nat)
    requires prior < 2 * recent && recent < 2 * prior
    ensures var f, p, r := ForecastProductDemand(Weeks(prior, recent)), prior as real, recent as real;
            && f.trendPct == Round((r / p - 1.0) * 1000.0) as real / 10.0
            && f.next7Days == Round(4.2 * (r * r / p) + 1.4 * (p + r))
  {
    var s, p, r := Weeks(prior, recent), prior as real, recent as real;
    hide *;
    WeeksAverages(prior, recent);
    ForecastFields(s);
    WeeksTrend(p, r);
    ProjectedIs(s);
    UnclampedWeight(r, p, p + r);
    PerMille(r / p);
  }

  /** Seven days at 60% of r * (r / p) and 40% of the average of two such weeks. */
  lemma UnclampedWeight(r: real, p: real, total: real)
    requires p > 0.0
    ensures Weighted(r, r / p, total / 2.0) * 7.0 == 4.2 * (r * r / p) + 1.4 * total
  {
    SquareShare(r, p);
    SevenDays(r, r / p, total);
  }

  lemma SevenDays(r: real, t: real, total: real)
    ensures Weighted(r, t, total / 2.0) * 7.0 == 4.2 * (r * t) + 1.4 * total
  {
    assert 0.6 * r * t == 0.6 * (r * t);
  }

  lemma PerMille(x: real)
    ensures (x - 1.0) * 100.0 * 10.0 == (x - 1.0) * 1000.0
  {
  }

  lemma WeightedIs(recent: real, trend: real, average: real)
    ensures trend == 2.0 ==> Weighted(recent, trend, average) == 1.2 * recent + 0.4 * average
    ensures trend == 0.5 ==> Weighted(recent, trend, average) == 0.3 * recent + 0.4 * average
  {
  }

  lemma SquareShare(r: real, p: real)
    requires p > 0.0
    ensures r * (r / p) == r * r / p
  {
  }

  lemma WeeksTrend(prior: real, recent: real)
    requires prior >= 0.0 && recent >= 0.0 && (prior > 0.0 || recent > 0.0)
    ensures recent >= 2.0 * prior ==> Trend(recent, prior) == 2.0
    ensures 2.0 * recent <= prior ==> Trend(recent, prior) == 0.5
    ensures prior < 2.0 * recent && recent < 2.0 * prior ==> Trend(recent, prior) == recent / prior
  {
    if prior > 0.0 {
      Share(2.0, prior);
      Share(0.5, prior);
      if recent >= 2.0 * prior {
        QuotientMonotone(2.0 * prior, recent, prior);
      } else {
        QuotientMonotone(recent, 2.0 * prior, prior);
      }
      if 2.0 * recent <= prior {
        QuotientMonotone(recent, 0.5 * prior, prior);
      } else {
        QuotientMonotone(0.5 * prior, recent, prior);
      }
    }
  }

  lemma Share(k: real, x: real)
    requires x > 0.0
    ensures (k * x) / x == k
  {
  }

  lemma RoundCents(n: int)
    ensures Round(n as real * 100.0) as real / 100.0 == n as real
  {
    RoundWhole(n * 100);
    assert n as real * 100.0 == (n * 100) as real;
  }

  lemma ForecastFields(s: seq<int>)
    requires |s| >= 14
    ensures RecentWeek(s) != [] && PriorWeek(s) != []
    ensures var f, trend := ForecastProductDemand(s), Trend(Average(RecentWeek(s)), Average(PriorWeek(s)));
            && f.daysOfHistory == |s| && f.how == TrendWeighted
            && f.recentWeekAvg == Some(Round(Average(RecentWeek(s)) * 100.0) as real / 100.0)
            && f.avgDailyDemand == Round(Average(s) * 100.0) as real / 100.0
            && f.trendPct == Round((trend - 1.0) * 100.0 * 10.0) as real / 10.0
            && f.next7Days == Round(Projected(s) * 7.0)
  {
  }

  lemma WeeksAverages(prior: int, recent: int)
    ensures var s := Weeks(prior, recent);
            && |s| == 14 && RecentWeek(s) != [] && PriorWeek(s) != []
            && Average(RecentWeek(s)) == recent as real && Average(PriorWeek(s)) == prior as real
            && Average(s) == (prior + recent) as real / 2.0
  {
    var s := Weeks(prior, recent);
    AverageBetween(RecentWeek(s), recent, recent);
    AverageBetween(PriorWeek(s), prior, prior);
    SumOfWeeks(prior, recent);
    AverageIs(s);
  }

  lemma SumOfWeeks(prior: int, recent: int)
    ensures Sum(Weeks(prior, recent)) == 7 * prior + 7 * recent
  {
    var s := Weeks(prior, recent);
    SumOfSame(s[..7], prior);
    SumOfSame(s[7..], recent);
    assert s == s[..7] + s[7..];
    SumConcat(s[..7], s[7..]);
  }

  lemma {:induction false} SumOfSame(s: seq<int>, x: int)
    requires forall i | 0 <= i < |s| :: s[i] == x
    ensures Sum(s) == |s| * x
  {
    if s != [] {
      SumOfSame(s[..|s| - 1], x);
    }
  }

  lemma {:induction false} SumConcat(a: seq<int>, b: seq<int>)
    ensures Sum(a + b) == Sum(a) + Sum(b)
  {
    if b == [] {
      assert a + b == a;
    } else {
      assert (a + b)[..|a + b| - 1] == a + b[..|b| - 1];
      SumConcat(a, b[..|b| - 1]);
    }
  }
}
