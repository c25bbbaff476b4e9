/** The analytics page: one request for the selected period, a generated
    demonstration series of that many days, a fixed category split, and
    stat cards that read a missing figure as 0. */
module Analytics {
  import opened Common
  import opened Listing

  const AnalyticsPath := "/analytics"
  const FetchFailure := "Failed to fetch analytics"
  const LoadFallback := "Failed to load analytics"
  const ExportNotice := "Export functionality would be implemented here"
  const Metrics := ["users", "orders", "revenue", "products"]

  datatype Overview = Overview(totalUsers: int, totalProducts: int, totalOrders: int, totalRfqs: int)
  datatype RecentCounts = RecentCounts(newUsers: int, newOrders: int)
  datatype AnalyticsData = AnalyticsData(overview: Overview, recent: RecentCounts, timestamp: string)

  /** The reply: `success`, and `data` when present. */
  datatype AnalyticsBody = AnalyticsBody(success: bool, data: Option<AnalyticsData>)

  /** What the error path stores: every count 0, stamped `now`. */
  function ZeroAnalytics(now: string): AnalyticsData {
    AnalyticsData(Overview(0, 0, 0, 0), RecentCounts(0, 0), now)
  }

  /** The number of days a period covers; an unrecognised period is 90. */
  function PeriodDays(period: string): (d: nat)
    ensures period == "7d" ==> d == 7
    ensures period == "30d" ==> d == 30
    ensures period != "7d" && period != "30d" ==> d == 90
    ensures d in {7, 30, 90}
  {
    if period == "7d" then 7 else if period == "30d" then 30 else 90
  }

  /** The query `getAnalytics` receives. */
  function AnalyticsQuery(period: string): seq<(string, Param)> {
    [("period", Text(period)), ("metrics", Texts(Metrics))]
  }

  // ---------------------------------------------------------------------
  // The demonstration series

  /** One point of the series: how many days before today it stands for
      (its label is that date, formatted) and its three figures. */
  datatype ChartPoint = ChartPoint(daysAgo: nat, users: int, orders: int, revenue: int)

  /** `Math.floor(r * span) + base`. */
  function Draw(r: real, span: nat, base: int): int {
    (r * span as real).Floor + base
  }

  /** A draw in `[0, 1)` lands in `base .. base + span - 1`. */
  lemma DrawBounds(r: real, span: nat, base: int)
    requires 0.0 <= r < 1.0 && span > 0
    ensures base <= Draw(r, span, base) < base + span
  {
    var x := r * span as real;
    assert 0.0 <= x < span as real;
    assert x.Floor as real <= x < x.Floor as real + 1.0;
  }

  /** The point for `daysAgo`, from three successive `Math.random` values. */
  function MockPoint(daysAgo: nat, u: real, o: real, v: real): ChartPoint {
    ChartPoint(daysAgo, Draw(u, 100, 20), Draw(o, 50, 10), Draw(v, 10000, 2000))
  }

  /** The series for `days` days: the k-th point stands for `days - 1 - k`
      days ago and takes the (3k)-th to (3k+2)-th random values. */
  function MockSeries(days: nat, random: seq<real>): (s: seq<ChartPoint>)
    requires |random| >= 3 * days
    ensures |s| == days
  {
    seq(days, k requires 0 <= k < days => MockPoint(days - 1 - k, random[3 * k], random[3 * k + 1], random[3 * k + 2]))
  }

  predicate UnitDraws(random: seq<real>) {
    forall j :: 0 <= j < |random| ==> 0.0 <= random[j] < 1.0
  }

  /** The series has one point per day, from the oldest day to today with
      no day skipped or repeated, and every figure in its range. */
  lemma MockSeriesShape(days: nat, random: seq<real>)
    requires |random| >= 3 * days && UnitDraws(random)
    ensures var s := MockSeries(days, random);
            && (forall k :: 0 <= k < days ==> s[k].daysAgo == days - 1 - k)
            && (forall k :: 0 < k < days ==> s[k].daysAgo == s[k - 1].daysAgo - 1)
            && (days > 0 ==> s[0].daysAgo == days - 1 && s[days - 1].daysAgo == 0)
            && (forall k :: 0 <= k < days ==> 20 <= s[k].users < 120)
            && (forall k :: 0 <= k < days ==> 10 <= s[k].orders < 60)
            && (forall k :: 0 <= k < days ==> 2000 <= s[k].revenue < 12000)
  {
    var s := MockSeries(days, random);
    forall k | 0 <= k < days
      ensures 20 <= s[k].users < 120 && 10 <= s[k].orders < 60 && 2000 <= s[k].revenue < 12000
    {
      DrawBounds(random[3 * k], 100, 20);
      DrawBounds(random[3 * k + 1], 50, 10);
      DrawBounds(random[3 * k + 2], 10000, 2000);
    }
  }

  /** generateMockChartData: counts `i` down from `days - 1` to 0 and pushes
      the point for `i` days ago. `random` holds the values `Math.random`
      returns, in call order, and must hold one value per draw. */
  method GenerateMockChartData(period: string, random: seq<real>) returns (data: seq<ChartPoint>)
    requires |random| >= 3 * PeriodDays(period)
    ensures data == MockSeries(PeriodDays(period), random)
  {
    var days := PeriodDays(period);
    data := [];
    var i: int := days - 1;
    while i >= 0
      invariant -1 <= i <= days - 1
      invariant |data| == days - 1 - i
      invariant forall k :: 0 <= k < |data| ==>
                  data[k] == MockPoint(days - 1 - k, random[3 * k], random[3 * k + 1], random[3 * k + 2])
      decreases i
    {
      var k := |data|;
      data := data + [MockPoint(i, random[3 * k], random[3 * k + 1], random[3 * k + 2])];
      i := i - 1;
    }
  }

  // ---------------------------------------------------------------------
  // The category split

  datatype Share = Share(name: string, value: int, colour: string)

  /** The fixed split shown beside the series. */
  const CategoryShares := [Share("Electronics", 35, "#8884d8"), Share("Clothing", 25, "#82ca9d"),
                           Share("Home & Garden", 20, "#ffc658"), Share("Books", 12, "#ff7300"),
                           Share("Sports", 8, "#00ff00")]

  function Total(shares: seq<Share>): int {
    if shares == [] then 0 else shares[0].value + Total(shares[1..])
  }

  /** The shares add up to a whole. */
  lemma {:induction false} SharesMakeWhole()
    ensures Total(CategoryShares) == 100
    ensures forall i :: 0 <= i < |CategoryShares| ==> CategoryShares[i].value > 0
  {
    var s := CategoryShares;
    assert Total(s[4..]) == 8;
    assert Total(s[3..]) == 20;
    assert Total(s[2..]) == 40;
    assert Total(s[1..]) == 65;
  }

  // ---------------------------------------------------------------------
  // Cards

  /** A stat card: its title, its number, and a fixed change label. */
  datatype AnalyticsCard = AnalyticsCard(name: string, value: int, change: string, increase: bool)

  /** The figures of a possibly missing record, each read as `x || 0`. */
  function Figures(a: Option<AnalyticsData>): AnalyticsData {
    a.GetOr(ZeroAnalytics(""))
  }

  /** The four cards. Without analytics every number is 0; the change
      labels are the same whatever the data. */
  function Cards(a: Option<AnalyticsData>): (cards: seq<AnalyticsCard>)
    ensures |cards| == 4
    ensures a.None? ==> forall i :: 0 <= i < 4 ==> cards[i].value == 0
    ensures a.Some? ==> && cards[0].value == a.value.overview.totalUsers
                        && cards[1].value == a.value.overview.totalProducts
                        && cards[2].value == a.value.overview.totalOrders
                        && cards[3].value == a.value.overview.totalRfqs
    ensures cards[0].change == "+12%" && cards[1].change == "+8%" && cards[2].change == "+15%" && cards[3].change == "-3%"
    ensures cards[0].increase && cards[1].increase && cards[2].increase && !cards[3].increase
  {
    [AnalyticsCard("Total Users", Figures(a).overview.totalUsers, "+12%", true),
     AnalyticsCard("Total Products", Figures(a).overview.totalProducts, "+8%", true),
     AnalyticsCard("Total Orders", Figures(a).overview.totalOrders, "+15%", true),
     AnalyticsCard("Total RFQs", Figures(a).overview.totalRfqs, "-3%", false)]
  }

  /** The summary tiles below the charts: new users, new orders, products
      and RFQs, each 0 without analytics. */
  function Summary(a: Option<AnalyticsData>): (r: seq<int>)
    ensures |r| == 4
    ensures a.None? ==> r == [0, 0, 0, 0]
    ensures a.Some? ==> r == [a.value.recent.newUsers, a.value.recent.newOrders,
                              a.value.overview.totalProducts, a.value.overview.totalRfqs]
  {
    [Figures(a).recent.newUsers, Figures(a).recent.newOrders,
     Figures(a).overview.totalProducts, Figures(a).overview.totalRfqs]
  }

  /** A failed load shows the same numbers as no analytics at all. */
  lemma ZeroedLooksEmpty(now: string)
    ensures Summary(Some(ZeroAnalytics(now))) == Summary(None)
    ensures forall i :: 0 <= i < 4 ==> Cards(Some(ZeroAnalytics(now)))[i] == Cards(None)[i]
  {
  }

  class AnalyticsPage {
    var analytics: Option<AnalyticsData>
    var chartData: seq<ChartPoint>
    var categoryData: seq<Share>
    var isLoading: bool
    var error: Option<string>
    var selectedPeriod: string
    var requests: seq<PageRequest>
    var alerts: seq<string>

    constructor ()
      ensures analytics.None? && chartData == [] && categoryData == [] && isLoading && error.None?
      ensures selectedPeriod == "7d" && requests == [] && alerts == []
    {
      analytics := None;
      chartData := [];
      categoryData := [];
      isLoading := true;
      error := None;
      selectedPeriod := "7d";
      requests := [];
      alerts := [];
    }

    /** fetchAnalytics. `random` feeds the demonstration series and `now`
        stamps the zeroed record of the error path. A reply without
        `success` is handled like a rejection. The requirement on `random`
        asks only that the stand-in for `Math.random` supply one value per
        draw; the source itself demands nothing of its caller. */
    method Fetch(response: Result<AnalyticsBody>, random: seq<real>, now: string)
      requires |random| >= 3 * PeriodDays(selectedPeriod)
      modifies this`analytics, this`chartData, this`categoryData, this`isLoading, this`error, this`requests
      ensures requests == old(requests) + [PageRequest("get", AnalyticsPath, AnalyticsQuery(selectedPeriod), [])]
      ensures response.Ok? && response.value.success ==>
                && analytics == response.value.data && error.None?
                && chartData == MockSeries(PeriodDays(selectedPeriod), random)
                && categoryData == CategoryShares
      ensures response.Ok? && !response.value.success ==>
                && analytics == Some(ZeroAnalytics(now)) && chartData == [] && categoryData == []
                && error == Some(Describe(Thrown(FetchFailure), LoadFallback))
      ensures response.Err? ==>
                && analytics == Some(ZeroAnalytics(now)) && chartData == [] && categoryData == []
                && error == Some(Describe(response.error, LoadFallback))
      ensures !isLoading
    {
      isLoading := true;
      error := None;
      requests := requests + [PageRequest("get", AnalyticsPath, AnalyticsQuery(selectedPeriod), [])];
      var failure: Option<JsError> := None;
      match response {
        case Err(e) =>
          failure := Some(e);
        case Ok(body) =>
          if body.success {
            analytics := body.data;
            chartData := GenerateMockChartData(selectedPeriod, random);
            categoryData := CategoryShares;
          } else {
            failure := Some(Thrown(FetchFailure));
          }
      }
      if failure.Some? {
        error := Some(Describe(failure.value, LoadFallback));
        analytics := Some(ZeroAnalytics(now));
        chartData := [];
        categoryData := [];
      }
      isLoading := false;
    }

    /** Choosing a period only records it; the reload it causes is a fetch. */
    method SelectPeriod(period: string)
      modifies this`selectedPeriod
      ensures selectedPeriod == period
    {
      selectedPeriod := period;
    }

    method HandleExport()
      modifies this`alerts
      ensures alerts == old(alerts) + [ExportNotice]
    {
      alerts := alerts + [ExportNotice];
    }
  }
}
