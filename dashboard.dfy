/** The dashboard overview: four requests whose replies are validated and
    defaulted, stat cards with a change indicator, the first five entries of
    each recent list, and the "Attention Required" banner. */
module Dashboard {
  import opened Common
  import opened Listing
  import Transactions

  const StatsPath := "/dashboard/stats"
  const ActivityPath := "/dashboard/activity"
  const PendingPath := "/dashboard/products/pending"
  const TransactionsPath := "/dashboard/transactions"
  const LoadFallback := "Failed to load dashboard data"

  datatype DashboardStats = DashboardStats(totalUsers: int, activeUsers: int, totalProducts: int, pendingProducts: int,
                                           totalOrders: int, pendingOrders: int, totalRevenue: int, monthlyRevenue: int,
                                           userGrowth: int, revenueGrowth: int)

  /** The record shown when no usable stats arrived. */
  const ZeroStats := DashboardStats(0, 0, 0, 0, 0, 0, 0, 0, 0, 0)

  datatype Person = Person(firstName: string, lastName: string, email: string)
  datatype RecentActivity = RecentActivity(id: string, activityType: string, description: string, timestamp: string, status: string)
  datatype PendingProduct = PendingProduct(id: string, title: string, seller: Person, categoryName: string, createdAt: string)
  datatype RecentTransaction = RecentTransaction(id: string, transactionType: string, amount: int, status: string,
                                                 createdAt: string, user: Person)

  /** The stats reply: `success`, and `data` when it is truthy. */
  datatype StatsBody = StatsBody(success: bool, data: Option<DashboardStats>)
  /** A list reply: `success`, and `data` when it is an array. */
  datatype ArrayBody<T> = ArrayBody(success: bool, data: Option<seq<T>>)

  /** The four replies, in the order the requests are listed. */
  datatype Replies = Replies(stats: StatsBody, activity: ArrayBody<RecentActivity>,
                             pending: ArrayBody<PendingProduct>, transactions: ArrayBody<RecentTransaction>)

  /** The stats to show: the reply's, when it succeeded with data; the
      zero record otherwise. */
  function StatsFrom(b: StatsBody): (s: DashboardStats)
    ensures b.success && b.data.Some? ==> s == b.data.value
    ensures !b.success || b.data.None? ==> s == ZeroStats
  {
    if b.success && b.data.Some? then b.data.value else ZeroStats
  }

  /** A list to show: the reply's array, when it succeeded with one; empty
      otherwise. */
  function ListFrom<T>(b: ArrayBody<T>): (xs: seq<T>)
    ensures b.success && b.data.Some? ==> xs == b.data.value
    ensures !b.success || b.data.None? ==> xs == []
  {
    if b.success && b.data.Some? then b.data.value else []
  }

  // ---------------------------------------------------------------------
  // Stat cards

  /** A stat card: its title, its number (`currency` for the rupee
      amount), its change in percent and where it links. */
  datatype StatCard = StatCard(name: string, value: int, currency: bool, change: int, href: string)

  /** The four cards; a missing stats record reads as zeros (`?? 0`).
      Products and orders carry no change figure. */
  function StatCards(stats: Option<DashboardStats>): (cards: seq<StatCard>)
    ensures |cards| == 4
    ensures stats.None? ==> forall i :: 0 <= i < 4 ==> cards[i].value == 0 && cards[i].change == 0
    ensures stats.Some? ==> && cards[0].value == stats.value.totalUsers && cards[0].change == stats.value.userGrowth
                            && cards[1].value == stats.value.totalProducts
                            && cards[2].value == stats.value.totalOrders
                            && cards[3].value == stats.value.monthlyRevenue && cards[3].change == stats.value.revenueGrowth
    ensures cards[1].change == 0 && cards[2].change == 0
    ensures cards[3].currency && !cards[0].currency && !cards[1].currency && !cards[2].currency
  {
    var s := stats.GetOr(ZeroStats);
    [StatCard("Total Users", s.totalUsers, false, s.userGrowth, "/dashboard/users"),
     StatCard("Active Products", s.totalProducts, false, 0, "/dashboard/products"),
     StatCard("Total Orders", s.totalOrders, false, 0, "/dashboard/orders"),
     StatCard("Monthly Revenue", s.monthlyRevenue, true, s.revenueGrowth, "/dashboard/transactions")]
  }

  function Abs(x: int): nat {
    if x < 0 then -x else x
  }

  /** The arrow and percentage next to a card's number. */
  datatype Indicator = Hidden | Rising(percent: nat) | Falling(percent: nat)

  function ChangeIndicator(change: int): (r: Indicator)
    ensures r.Hidden? <==> change == 0
    ensures r.Rising? <==> change > 0
    ensures r.Falling? <==> change < 0
    ensures !r.Hidden? ==> r.percent == Abs(change) && r.percent > 0
  {
    if change == 0 then Hidden
    else if change > 0 then Rising(change)
    else Falling(-change)
  }

  /** Opposite changes show the same percentage with opposite arrows. */
  lemma ChangeIndicatorMirrors(change: int)
    requires change != 0
    ensures ChangeIndicator(change).percent == ChangeIndicator(-change).percent
    ensures ChangeIndicator(change).Rising? <==> ChangeIndicator(-change).Falling?
  {
  }

  /** With zeroed stats (a failed load) no card shows a change, and the
      products and orders cards never do. */
  lemma IndicatorsOfCards(stats: Option<DashboardStats>)
    ensures ChangeIndicator(StatCards(stats)[1].change).Hidden?
    ensures ChangeIndicator(StatCards(stats)[2].change).Hidden?
    ensures stats.None? || stats == Some(ZeroStats) ==>
              forall i :: 0 <= i < 4 ==> ChangeIndicator(StatCards(stats)[i].change).Hidden?
  {
  }

  // ---------------------------------------------------------------------
  // Recent lists

  /** `slice(0, 5)`: the first five entries. */
  function Recent<T>(xs: seq<T>): (r: seq<T>)
    ensures |r| == Min(5, |xs|)
    ensures r == xs[..|r|]
  {
    if |xs| <= 5 then xs else xs[..5]
  }

  lemma RecentIdempotent<T>(xs: seq<T>)
    ensures Recent(Recent(xs)) == Recent(xs)
  {
  }

  /** The timeline draws a connector below an activity unless it is the
      last of the list or the fifth. */
  predicate ShowsConnector(index: int, total: int) {
    index != total - 1 && index != 4
  }

  /** Those two tests amount to "every shown activity but the last shown
      one has a connector". */
  lemma ConnectorsBetweenShown<T>(xs: seq<T>, i: int)
    requires 0 <= i < |Recent(xs)|
    ensures ShowsConnector(i, |xs|) <==> i < |Recent(xs)| - 1
  {
  }

  // ---------------------------------------------------------------------
  // Icons and colours

  datatype ActivityGlyph = UsersGlyph | PackageGlyph | CartGlyph | AlertGlyph | CheckGlyph

  /** getActivityIcon: one icon per known activity type, a check mark
      otherwise. */
  function ActivityIcon(activityType: string): (g: ActivityGlyph)
    ensures g == UsersGlyph <==> activityType == "user_registration"
    ensures g == PackageGlyph <==> activityType == "product_approval"
    ensures g == CartGlyph <==> activityType == "order_placed"
    ensures g == AlertGlyph <==> activityType == "dispute_raised"
    ensures g == CheckGlyph <==> activityType !in ["user_registration", "product_approval", "order_placed", "dispute_raised"]
  {
    if activityType == "user_registration" then UsersGlyph
    else if activityType == "product_approval" then PackageGlyph
    else if activityType == "order_placed" then CartGlyph
    else if activityType == "dispute_raised" then AlertGlyph
    else CheckGlyph
  }

  /** getActivityColor: green, yellow, red for success, warning, error;
      gray otherwise. */
  function ActivityColour(status: string): (t: Tone)
    ensures t == Green <==> status == "success"
    ensures t == Yellow <==> status == "warning"
    ensures t == Red <==> status == "error"
    ensures t == Gray <==> status !in ["success", "warning", "error"]
  {
    if status == "success" then Green
    else if status == "warning" then Yellow
    else if status == "error" then Red
    else Gray
  }

  /** The status chip of a recent transaction: completed green, pending
      yellow, anything else red. */
  function TxStatusTone(status: string): (t: Tone)
    ensures t == Green <==> status == "completed"
    ensures t == Yellow <==> status == "pending"
    ensures t == Red <==> status != "completed" && status != "pending"
  {
    if status == "completed" then Green
    else if status == "pending" then Yellow
    else Red
  }

  /** The overview and the transactions list colour the same status
      differently: a refund is red here and blue there, and an unknown
      status is red here but drawn as pending there. */
  lemma StatusColoursDisagree(status: string)
    requires status !in Transactions.StatusKeys
    ensures TxStatusTone(status) == Red
    ensures Transactions.StatusBadge(status).tone == Yellow
    ensures TxStatusTone("refunded") == Red && Transactions.StatusBadge("refunded").tone == Blue
  {
  }

  // ---------------------------------------------------------------------
  // Attention banner

  datatype Attention = AwaitingApproval(products: int) | RequireAttention(orders: int)

  function AttentionHref(a: Attention): string {
    match a
    case AwaitingApproval(_) => "/dashboard/products"
    case RequireAttention(_) => "/dashboard/orders"
  }

  /** The banner is drawn when stats exist and something is pending. */
  predicate ShowsBanner(stats: Option<DashboardStats>) {
    stats.Some? && (stats.value.pendingProducts > 0 || stats.value.pendingOrders > 0)
  }

  /** The banner's lines, each present only for a positive count. */
  function AttentionLines(stats: Option<DashboardStats>): (lines: seq<Attention>)
    ensures |lines| <= 2
    ensures forall n :: AwaitingApproval(n) in lines <==> stats.Some? && n == stats.value.pendingProducts && n > 0
    ensures forall n :: RequireAttention(n) in lines <==> stats.Some? && n == stats.value.pendingOrders && n > 0
    // products come before orders
    ensures |lines| == 2 ==> lines[0].AwaitingApproval? && lines[1].RequireAttention?
  {
    match stats
    case None => []
    case Some(s) =>
      (if s.pendingProducts > 0 then [AwaitingApproval(s.pendingProducts)] else [])
      + (if s.pendingOrders > 0 then [RequireAttention(s.pendingOrders)] else [])
  }

  /** The banner is drawn exactly when it has a line to show. */
  lemma BannerHasLines(stats: Option<DashboardStats>)
    ensures ShowsBanner(stats) <==> AttentionLines(stats) != []
  {
    var lines := AttentionLines(stats);
    if ShowsBanner(stats) {
      var s := stats.value;
      if s.pendingProducts > 0 {
        assert AwaitingApproval(s.pendingProducts) in lines;
      } else {
        assert RequireAttention(s.pendingOrders) in lines;
      }
    }
  }

  class DashboardPage {
    var stats: Option<DashboardStats>
    var recentActivity: seq<RecentActivity>
    var pendingProducts: seq<PendingProduct>
    var recentTransactions: seq<RecentTransaction>
    var isLoading: bool
    var error: Option<string>
    var requests: seq<PageRequest>

    constructor ()
      ensures stats.None? && recentActivity == [] && pendingProducts == [] && recentTransactions == []
      ensures isLoading && error.None? && requests == []
    {
      stats := None;
      recentActivity := [];
      pendingProducts := [];
      recentTransactions := [];
      isLoading := true;
      error := None;
      requests := [];
    }

    /** fetchDashboardData. `settled` is what the four requests settled to
        together: all four replies, or the rejection that ended the wait. */
    method Fetch(settled: Result<Replies>)
      modifies this
      ensures requests == old(requests) + [PageRequest("get", StatsPath, [], []), PageRequest("get", ActivityPath, [], []),
                                           PageRequest("get", PendingPath, [], []), PageRequest("get", TransactionsPath, [], [])]
      ensures settled.Ok? ==>
                && stats == Some(StatsFrom(settled.value.stats)) && error.None?
                && recentActivity == ListFrom(settled.value.activity)
                && pendingProducts == ListFrom(settled.value.pending)
                && recentTransactions == ListFrom(settled.value.transactions)
      ensures settled.Err? ==>
                && stats == Some(ZeroStats) && error == Some(Describe(settled.error, LoadFallback))
                && recentActivity == [] && pendingProducts == [] && recentTransactions == []
      ensures !isLoading
    {
      isLoading := true;
      error := None;
      requests := requests + [PageRequest("get", StatsPath, [], []), PageRequest("get", ActivityPath, [], []),
                              PageRequest("get", PendingPath, [], []), PageRequest("get", TransactionsPath, [], [])];
      match settled {
        case Ok(r) =>
          stats := Some(StatsFrom(r.stats));
          recentActivity := ListFrom(r.activity);
          pendingProducts := ListFrom(r.pending);
          recentTransactions := ListFrom(r.transactions);
        case Err(e) =>
          error := Some(Describe(e, LoadFallback));
          stats := Some(ZeroStats);
          recentActivity := [];
          pendingProducts := [];
          recentTransactions := [];
      }
      isLoading := false;
    }
  }

  /** A failed load leaves zeroed stats: no banner, and every card reads 0. */
  lemma FailedLoadShowsNoBanner()
    ensures !ShowsBanner(Some(ZeroStats))
    ensures AttentionLines(Some(ZeroStats)) == []
    ensures forall i :: 0 <= i < 4 ==> StatCards(Some(ZeroStats))[i].value == 0
  {
    BannerHasLines(Some(ZeroStats));
  }
}
