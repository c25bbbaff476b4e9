/** The transactions page: a paged list filtered by search term, type,
    status and a date range, with badges and signs derived from each
    transaction's type and status. */
module Transactions {
  import opened Common
  import opened Listing

  const FetchFailure := "Failed to fetch transactions"
  const LoadFallback := "Failed to load transactions"
  const Unfiltered := "No transactions have been processed yet."
  const ExportNotice := "Export functionality would be implemented here"

  datatype TxUser = TxUser(id: string, firstName: string, lastName: string, email: string)

  /** A transaction; absent optional fields are `""`. The amount is the
      number as received (its formatting is not modelled). */
  datatype Transaction = Transaction(id: string, transactionType: string, amount: int, status: string,
                                     referenceType: string, referenceId: string, cashfreeTransactionId: string,
                                     description: string, createdAt: string, user: TxUser)

  /** The five filter inputs. */
  datatype TxFilters = TxFilters(search: string, txType: string, status: string, dateFrom: string, dateTo: string)

  const NoFilters := TxFilters("", "", "", "", "")

  /** The filters as query parameter names and values, in the order the
      query is built. */
  function FilterPairs(f: TxFilters): seq<(string, string)> {
    [("search", f.search), ("type", f.txType), ("status", f.status), ("dateFrom", f.dateFrom), ("dateTo", f.dateTo)]
  }

  /** The query `getTransactions` receives. */
  function TransactionsQuery(page: int, f: TxFilters): seq<(string, Param)> {
    ListQuery(page, FilterPairs(f))
  }

  /** The query starts with the page and the page size and then carries
      each filter exactly when it is set. */
  lemma TransactionsQueryCarries(page: int, f: TxFilters)
    ensures var q := TransactionsQuery(page, f);
            && |q| >= 2 && q[0] == ("page", Num(page)) && q[1] == ("limit", Num(PageSize))
            && (("search", Text(f.search)) in q[2..] <==> f.search != "")
            && (("type", Text(f.txType)) in q[2..] <==> f.txType != "")
            && (("status", Text(f.status)) in q[2..] <==> f.status != "")
            && (("dateFrom", Text(f.dateFrom)) in q[2..] <==> f.dateFrom != "")
            && (("dateTo", Text(f.dateTo)) in q[2..] <==> f.dateTo != "")
  {
    var fs := FilterPairs(f);
    ListQueryCarries(page, fs, "search", f.search);
    ListQueryCarries(page, fs, "type", f.txType);
    ListQueryCarries(page, fs, "status", f.status);
    ListQueryCarries(page, fs, "dateFrom", f.dateFrom);
    ListQueryCarries(page, fs, "dateTo", f.dateTo);
  }

  /** fetchTransactions' `params`: page and limit, then each set filter
      added by its own `if`. */
  method BuildQuery(page: int, f: TxFilters) returns (params: seq<(string, Param)>)
    ensures params == TransactionsQuery(page, f)
  {
    var fs := FilterPairs(f);
    params := [("page", Num(page)), ("limit", Num(PageSize))];
    assert params == ListQuery(page, fs[..0]);
    params := AddIfSet(page, fs[..0], params, "search", f.search);
    assert fs[..0] + [fs[0]] == fs[..1];
    params := AddIfSet(page, fs[..1], params, "type", f.txType);
    assert fs[..1] + [fs[1]] == fs[..2];
    params := AddIfSet(page, fs[..2], params, "status", f.status);
    assert fs[..2] + [fs[2]] == fs[..3];
    params := AddIfSet(page, fs[..3], params, "dateFrom", f.dateFrom);
    assert fs[..3] + [fs[3]] == fs[..4];
    params := AddIfSet(page, fs[..4], params, "dateTo", f.dateTo);
    assert fs[..4] + [fs[4]] == fs;
  }

  /** Without filters only the page and the page size are sent. */
  lemma UnfilteredQuery(page: int)
    ensures TransactionsQuery(page, NoFilters) == [("page", Num(page)), ("limit", Num(PageSize))]
  {
    var fs := FilterPairs(NoFilters);
    assert !AnySet(fs[4..]);
    assert !AnySet(fs[3..]);
    assert !AnySet(fs[2..]);
    assert !AnySet(fs[1..]);
    SetFiltersEmpty(fs);
  }

  // ---------------------------------------------------------------------
  // Badges, icons and signs

  const StatusKeys := ["completed", "pending", "failed", "cancelled", "refunded"]

  /** getStatusBadge: looked up by the status AS RECEIVED (no case folding);
      anything that is not one of the five keys is shown as "Pending". */
  function StatusBadge(status: string): (b: Badge)
    ensures status !in StatusKeys ==> b == Badge(Yellow, "Pending")
    ensures status == "pending" ==> b == Badge(Yellow, "Pending")
    ensures status == "completed" ==> b == Badge(Green, "Completed")
    ensures status == "failed" ==> b == Badge(Red, "Failed")
    ensures status == "cancelled" ==> b == Badge(Gray, "Cancelled")
    ensures status == "refunded" ==> b == Badge(Blue, "Refunded")
  {
    if status == "completed" then Badge(Green, "Completed")
    else if status == "failed" then Badge(Red, "Failed")
    else if status == "cancelled" then Badge(Gray, "Cancelled")
    else if status == "refunded" then Badge(Blue, "Refunded")
    else Badge(Yellow, "Pending")
  }

  /** The five statuses get five different badges. */
  lemma StatusBadgesDistinct(s: string, t: string)
    requires s in StatusKeys && t in StatusKeys && s != t
    ensures StatusBadge(s) != StatusBadge(t)
  {
  }

  /** A capitalised status is not recognised: a completed transaction
      reported as "Completed" is shown as pending. */
  lemma StatusIsCaseSensitive()
    ensures StatusBadge("Completed") == StatusBadge("pending")
    ensures StatusBadge("completed") != StatusBadge("pending")
  {
    assert "Completed"[0] != "completed"[0];
    assert "Completed" !in StatusKeys;
  }

  /** The arrow in front of a transaction. */
  datatype Trend = Up | Down | Flat

  predicate Incoming(txType: string) {
    var t := ToLower(txType);
    t == "credit" || t == "deposit"
  }

  predicate Outgoing(txType: string) {
    var t := ToLower(txType);
    t == "debit" || t == "withdrawal"
  }

  /** getTransactionTypeIcon: by the lower-cased type. */
  function TypeIcon(txType: string): (r: Trend)
    ensures r == Up <==> Incoming(txType)
    ensures r == Down <==> Outgoing(txType)
    ensures r == Flat <==> !Incoming(txType) && !Outgoing(txType)
  {
    var t := ToLower(txType);
    if t == "credit" || t == "deposit" then Up
    else if t == "debit" || t == "withdrawal" then Down
    else Flat
  }

  /** The types `typeConfig` knows. */
  const TypeKeys := ["credit", "debit", "deposit", "withdrawal", "refund", "commission"]

  /** The colour of a type badge, by the lower-cased type: one colour per
      known type, gray for any other. */
  function TypeTone(t: string): (r: Tone)
    ensures t == "credit" ==> r == Green
    ensures t == "debit" ==> r == Red
    ensures t == "deposit" ==> r == Blue
    ensures t == "withdrawal" ==> r == Orange
    ensures t == "refund" ==> r == Purple
    ensures t == "commission" ==> r == Indigo
    ensures t !in TypeKeys ==> r == Gray
  {
    if t == "credit" then Green
    else if t == "debit" then Red
    else if t == "deposit" then Blue
    else if t == "withdrawal" then Orange
    else if t == "refund" then Purple
    else if t == "commission" then Indigo
    else Gray
  }

  /** getTransactionTypeBadge: coloured by the lower-cased type, labelled
      with the type exactly as received. */
  function TypeBadge(txType: string): (b: Badge)
    ensures b.text == txType
    ensures b.tone == TypeTone(ToLower(txType))
    ensures ToLower(txType) !in TypeKeys ==> b.tone == Gray
  {
    Badge(TypeTone(ToLower(txType)), txType)
  }

  /** The sign and colour of the amount column. */
  function AmountSign(txType: string): (r: char)
    ensures r == '+' || r == '-'
    ensures r == '+' <==> Incoming(txType)
  {
    var t := ToLower(txType);
    if t == "credit" || t == "deposit" then '+' else '-'
  }

  function AmountTone(txType: string): Tone {
    if AmountSign(txType) == '+' then Green else Red
  }

  /** The arrow, the sign and the colour agree: a rising arrow exactly for
      a '+' in green; the icon and the badge colour ignore case. */
  lemma TypeViewsAgree(txType: string)
    ensures TypeIcon(txType) == Up <==> AmountSign(txType) == '+'
    ensures AmountSign(txType) == '+' <==> AmountTone(txType) == Green
    ensures TypeIcon(ToLower(txType)) == TypeIcon(txType)
    ensures TypeBadge(ToLower(txType)).tone == TypeBadge(txType).tone
  {
    ToLowerIdempotent(txType);
  }

  /** Every type that is neither credit nor deposit, refunds included, is
      shown with a '-', although a refund has its own badge colour and a
      flat arrow. */
  lemma RefundShownAsDebit()
    ensures AmountSign("refund") == '-'
    ensures TypeIcon("refund") == Flat
    ensures TypeBadge("refund").tone == Purple
  {
    assert ToLower("refund") == "refund";
  }

  /** The shortened id in the table: its first eight characters and "...". */
  function DisplayId(id: string): (r: string)
    ensures |id| >= 8 ==> r == id[..8] + "..."
    ensures |id| < 8 ==> r == id + "..."
  {
    Prefix(id, 8) + "..."
  }

  /** Ids that agree on their first eight characters look the same. */
  lemma DisplayIdCollides(a: string, b: string)
    requires |a| >= 8 && |b| >= 8 && a[..8] == b[..8]
    ensures DisplayId(a) == DisplayId(b)
  {
  }

  /** The link to a transaction's detail page. */
  function DetailLink(id: string): string {
    "/dashboard/transactions/" + id
  }

  class TransactionsPage {
    var transactions: seq<Transaction>
    var pagination: Option<Pagination>
    var isLoading: bool
    var error: Option<string>
    var filters: TxFilters
    var currentPage: int
    var requests: seq<PageRequest>
    var alerts: seq<string>

    constructor ()
      ensures transactions == [] && pagination.None? && isLoading && error.None?
      ensures filters == NoFilters && currentPage == 1 && requests == [] && alerts == []
    {
      transactions := [];
      pagination := None;
      isLoading := true;
      error := None;
      filters := NoFilters;
      currentPage := 1;
      requests := [];
      alerts := [];
    }

    /** fetchTransactions, with the page number its closure holds. */
    method Fetch(page: int, response: Result<ListBody<Transaction>>)
      modifies this`transactions, this`pagination, this`isLoading, this`error, this`requests
      ensures requests == old(requests) + [PageRequest("get", "/transactions", TransactionsQuery(page, filters), [])]
      ensures var loaded := Load(response, FetchFailure, LoadFallback);
              transactions == loaded.items && pagination == loaded.pagination && error == loaded.error
      ensures !isLoading
    {
      isLoading := true;
      error := None;
      var params := BuildQuery(page, filters);
      requests := requests + [PageRequest("get", "/transactions", params, [])];
      var loaded := Load(response, FetchFailure, LoadFallback);
      transactions := loaded.items;
      pagination := loaded.pagination;
      error := loaded.error;
      isLoading := false;
    }

    /** handleSearch: back to page 1, and a fetch that still carries the
        page number of the render it was called from. */
    method HandleSearch(response: Result<ListBody<Transaction>>)
      modifies this`currentPage, this`transactions, this`pagination, this`isLoading, this`error, this`requests
      ensures currentPage == 1 && filters == old(filters) && alerts == old(alerts)
      ensures requests == old(requests) + [PageRequest("get", "/transactions", TransactionsQuery(old(currentPage), filters), [])]
      ensures var loaded := Load(response, FetchFailure, LoadFallback);
              transactions == loaded.items && pagination == loaded.pagination && error == loaded.error
      ensures !isLoading
    {
      var page := currentPage;
      currentPage := 1;
      Fetch(page, response);
    }

    method HandlePageChange(page: int)
      modifies this`currentPage
      ensures currentPage == page
    {
      currentPage := page;
    }

    /** handleExport only announces that exporting is not there. */
    method HandleExport()
      modifies this`alerts
      ensures alerts == old(alerts) + [ExportNotice]
    {
      alerts := alerts + [ExportNotice];
    }

    /** The text of the empty list: the filter hint while any filter is
        set, "nothing processed yet" otherwise. */
    function EmptyMessage(): (r: string)
      reads this
      ensures filters != NoFilters ==> r == AdjustHint
      ensures filters == NoFilters ==> r == Unfiltered
    {
      var fs := FilterPairs(filters);
      assert SetFilters(fs) == [] <==> !AnySet(fs) by {
        SetFiltersEmpty(fs);
      }
      assert AnySet(fs) <==> filters != NoFilters by {
        assert AnySet(fs[4..]) <==> filters.dateTo != "";
        assert AnySet(fs[3..]) <==> filters.dateFrom != "" || filters.dateTo != "";
        assert AnySet(fs[2..]) <==> filters.status != "" || filters.dateFrom != "" || filters.dateTo != "";
        assert AnySet(fs[1..]) <==> filters.txType != "" || filters.status != "" || filters.dateFrom != "" || filters.dateTo != "";
      }
      EmptyHint(fs, Unfiltered)
    }
  }
}
