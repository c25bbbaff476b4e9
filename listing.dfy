/** What the three list pages (categories, products, transactions) share:
    the query they send, how they read a list reply, and the pagination bar
    ("Showing a to b of n results" and at most five page buttons). */
module Listing {
  import opened Common

  /** Every list page asks for twenty rows at a time. */
  const PageSize := 20

  datatype Pagination = Pagination(page: int, limit: int, total: int, totalPages: int, hasNext: bool, hasPrev: bool)

  /** A query parameter or body field value. */
  datatype Param = Num(n: int) | Text(s: string) | Flag(b: bool) | Texts(items: seq<string>)

  /** A request a page issues through the API client: method, path, query
      parameters and body fields. */
  datatype PageRequest = PageRequest(verb: string, url: string, query: seq<(string, Param)>, body: seq<(string, Param)>)

  /** `response.data?.success` of a reply whose body is not otherwise read. */
  datatype Ack = Ack(success: bool)

  /** What a failed action shows in `alert`: the server's message or the
      page's fallback (the error's own message is not consulted). */
  function AlertText(e: JsError, fallback: string): (r: string)
    ensures e.responseMessage != "" ==> r == e.responseMessage
    ensures e.responseMessage == "" ==> r == fallback
  {
    Or(e.responseMessage, fallback)
  }

  /** The filters that are set (non-empty), in the order given. */
  function SetFilters(filters: seq<(string, string)>): (r: seq<(string, Param)>)
    ensures |r| <= |filters|
    ensures forall k :: 0 <= k < |r| ==> r[k].1.Text? && r[k].1.s != ""
  {
    if filters == [] then []
    else
      var (name, value) := filters[0];
      (if value != "" then [(name, Text(value))] else []) + SetFilters(filters[1..])
  }

  /** A filter reaches the query exactly when it is set. */
  lemma {:induction false} SetFiltersExact(filters: seq<(string, string)>, name: string, value: string)
    ensures (name, Text(value)) in SetFilters(filters) <==> (name, value) in filters && value != ""
  {
    if filters != [] {
      SetFiltersExact(filters[1..], name, value);
      var (n, v) := filters[0];
      var head: seq<(string, Param)> := if v != "" then [(n, Text(v))] else [];
      assert SetFilters(filters) == head + SetFilters(filters[1..]);
      assert (name, Text(value)) in head <==> (n, v) == (name, value) && value != "";
      assert (name, value) in filters <==> filters[0] == (name, value) || (name, value) in filters[1..];
    }
  }

  /** Some filter holds a non-empty value (`a || b || …` over the filters). */
  predicate AnySet(filters: seq<(string, string)>) {
    filters != [] && (filters[0].1 != "" || AnySet(filters[1..]))
  }

  /** The query carries a filter exactly when some filter is set. */
  lemma {:induction false} SetFiltersEmpty(filters: seq<(string, string)>)
    ensures SetFilters(filters) == [] <==> !AnySet(filters)
  {
    if filters != [] {
      SetFiltersEmpty(filters[1..]);
      var (n, v) := filters[0];
      var head: seq<(string, Param)> := if v != "" then [(n, Text(v))] else [];
      assert SetFilters(filters) == head + SetFilters(filters[1..]);
    }
  }

  const AdjustHint := "Try adjusting your search criteria."

  /** The text under "No … found": the filter hint while any filter is set,
      the page's own message otherwise. */
  function EmptyHint(filters: seq<(string, string)>, unfiltered: string): (r: string)
    ensures SetFilters(filters) != [] ==> r == AdjustHint
    ensures SetFilters(filters) == [] ==> r == unfiltered
  {
    SetFiltersEmpty(filters);
    if AnySet(filters) then AdjustHint else unfiltered
  }

  /** `{ page, limit: 20 }` followed by every filter that is set. */
  function ListQuery(page: int, filters: seq<(string, string)>): seq<(string, Param)> {
    [("page", Num(page)), ("limit", Num(PageSize))] + SetFilters(filters)
  }

  /** `if (value) params[name] = value`: the parameter, when it is set. */
  function Optional(name: string, value: string): seq<(string, Param)> {
    if value != "" then [(name, Text(value))] else []
  }

  lemma {:induction false} SetFiltersSnoc(done: seq<(string, string)>, name: string, value: string)
    ensures SetFilters(done + [(name, value)]) == SetFilters(done) + Optional(name, value)
    decreases |done|
  {
    if done == [] {
      assert [(name, value)][1..] == [];
      assert SetFilters([(name, value)]) == Optional(name, value) + SetFilters([]);
    } else {
      var all := done + [(name, value)];
      assert all[0] == done[0];
      assert all[1..] == done[1..] + [(name, value)];
      SetFiltersSnoc(done[1..], name, value);
    }
  }

  /** Adding the filters one at a time, as the pages' fetches do, builds
      the query filter by filter. */
  lemma ListQueryStep(page: int, done: seq<(string, string)>, name: string, value: string)
    ensures ListQuery(page, done + [(name, value)]) == ListQuery(page, done) + Optional(name, value)
  {
    SetFiltersSnoc(done, name, value);
  }

  /** The query starts with the page and the page size, and after them
      carries a filter exactly when that filter is set. */
  lemma ListQueryCarries(page: int, filters: seq<(string, string)>, name: string, value: string)
    ensures var q := ListQuery(page, filters);
            && |q| >= 2 && q[0] == ("page", Num(page)) && q[1] == ("limit", Num(PageSize))
            && ((name, Text(value)) in q[2..] <==> (name, value) in filters && value != "")
  {
    var q := ListQuery(page, filters);
    assert q[2..] == SetFilters(filters);
    SetFiltersExact(filters, name, value);
  }

  /** `if (value) params[name] = value` on the query built so far from the
      filters `done`. */
  method AddIfSet(page: int, done: seq<(string, string)>, params: seq<(string, Param)>, name: string, value: string)
    returns (next: seq<(string, Param)>)
    requires params == ListQuery(page, done)
    ensures next == ListQuery(page, done + [(name, value)])
    ensures value == "" ==> next == params
    ensures value != "" ==> next == params + [(name, Text(value))]
  {
    ListQueryStep(page, done, name, value);
    next := params;
    if value != "" {
      next := next + [(name, Text(value))];
    }
  }

  /** A successful list reply's `data`: the rows and the pagination. */
  datatype ListData<T> = ListData(items: seq<T>, pagination: Pagination)
  /** A list reply: `success`, and `data` when present. */
  datatype ListBody<T> = ListBody(success: bool, data: Option<ListData<T>>)

  /** What a list page shows after a fetch: the rows, the pagination bar's
      data, and the error banner's text. */
  datatype Loaded<T> = Loaded(items: seq<T>, pagination: Option<Pagination>, error: Option<string>)

  /** A fetch: rows and pagination from a successful reply, otherwise no
      rows, no pagination and an error message. A reply without `success`
      throws `failure`; a rejected request shows the server's message, then
      the error's own, then `fallback`. */
  function Load<T>(response: Result<ListBody<T>>, failure: string, fallback: string): (r: Loaded<T>)
    ensures r.error.None? <==> response.Ok? && response.value.success && response.value.data.Some?
    ensures r.error.None? ==>
              r.items == response.value.data.value.items && r.pagination == Some(response.value.data.value.pagination)
    ensures r.error.Some? ==> r.items == [] && r.pagination.None?
    ensures response.Ok? && !response.value.success ==> r.error == Some(Or(failure, fallback))
    ensures response.Err? ==> r.error == Some(Describe(response.error, fallback))
    ensures fallback != "" && r.error.Some? ==> r.error.value != ""
  {
    match response
    case Err(e) => Loaded([], None, Some(Describe(e, fallback)))
    case Ok(body) =>
      if !body.success then Loaded([], None, Some(Describe(Thrown(failure), fallback)))
      else
        match body.data
        case None => Loaded([], None, Some(Describe(Thrown(ReadOfUndefined), fallback)))
        case Some(d) => Loaded(d.items, Some(d.pagination), None)
  }

  /** The badge colours the pages use. */
  datatype Tone = Green | Yellow | Red | Gray | Blue | Orange | Purple | Indigo

  /** A status or type badge: its colour and its text. */
  datatype Badge = Badge(tone: Tone, text: string)

  /** The count in a list header: `pagination?.total || 0`. */
  function HeaderCount(p: Option<Pagination>): (n: int)
    ensures p.None? ==> n == 0
    ensures p.Some? ==> n == p.value.total
  {
    match p
    case None => 0
    case Some(q) => q.total
  }

  /** The pagination bar is drawn only for more than one page. */
  predicate ShowsPagination(p: Option<Pagination>) {
    p.Some? && p.value.totalPages > 1
  }

  // ---------------------------------------------------------------------
  // Page buttons

  function Min(a: int, b: int): int { if a <= b then a else b }
  function Max(a: int, b: int): int { if a >= b then a else b }

  /** `start, start + 1, …`, `n` numbers. */
  function Consecutive(start: int, n: nat): (r: seq<int>)
    ensures |r| == n && forall i :: 0 <= i < n ==> r[i] == start + i
  {
    seq(n, i requires 0 <= i < n => start + i)
  }

  /** The numbers of `xs` not above `bound`, in order (the buttons whose
      render callback does not return `null`). */
  function AtMost(xs: seq<int>, bound: int): (r: seq<int>)
    ensures |r| <= |xs|
  {
    if xs == [] then []
    else (if xs[0] <= bound then [xs[0]] else []) + AtMost(xs[1..], bound)
  }

  /** `x` clamped into `0..n`. */
  function Clamp(x: int, n: nat): (r: nat)
    ensures r <= n
  {
    if x < 0 then 0 else if x > n then n else x
  }

  /** Dropping the numbers above `bound` from a run keeps a prefix of it. */
  lemma {:induction false} AtMostConsecutive(start: int, n: nat, bound: int)
    ensures AtMost(Consecutive(start, n), bound) == Consecutive(start, Clamp(bound - start + 1, n))
    decreases n
  {
    if n > 0 {
      var xs := Consecutive(start, n);
      assert xs[0] == start;
      assert xs[1..] == Consecutive(start + 1, n - 1);
      AtMostConsecutive(start + 1, n - 1, bound);
      var tail := Consecutive(start + 1, Clamp(bound - start, n - 1));
      if start <= bound {
        assert [start] + tail == Consecutive(start, Clamp(bound - start + 1, n));
      } else {
        assert tail == [];
      }
    }
  }

  /** The first button's number. */
  function WindowStart(page: int): int {
    Max(1, page - 2)
  }

  /** The page buttons: `Array.from({ length: min(5, totalPages) })` counted
      from `max(1, page - 2)`, with the numbers above `totalPages` dropped. */
  function PageWindow(page: int, totalPages: int): (r: seq<int>)
    ensures |r| <= 5
    ensures forall i :: 0 <= i < |r| ==> r[i] == WindowStart(page) + i
    ensures forall i :: 0 <= i < |r| ==> 1 <= r[i] <= totalPages
    ensures 1 <= page <= totalPages ==> page in r
    ensures totalPages >= 1 && page <= 3 ==> |r| == Min(5, totalPages)
    ensures r == Consecutive(WindowStart(page), Clamp(totalPages - WindowStart(page) + 1, Max(0, Min(5, totalPages))))
  {
    var n: nat := Max(0, Min(5, totalPages));
    AtMostConsecutive(WindowStart(page), n, totalPages);
    var r := AtMost(Consecutive(WindowStart(page), n), totalPages);
    assert 1 <= page <= totalPages ==> r[page - WindowStart(page)] == page;
    r
  }

  /** Near the last page the window is not shifted back: on page 10 of 10
      only pages 8 to 10 get a button. */
  lemma WindowShrinksAtEnd()
    ensures PageWindow(10, 10) == [8, 9, 10]
  {
    var r := PageWindow(10, 10);
    AtMostConsecutive(8, 5, 10);
    assert |r| == 3;
  }

  // ---------------------------------------------------------------------
  // "Showing a to b of n results"

  /** First and last row numbers of the current page. */
  function ShowingRange(p: Pagination): (int, int) {
    ((p.page - 1) * p.limit + 1, Min(p.page * p.limit, p.total))
  }

  lemma MulMonotone(a: int, b: int, c: int)
    requires 0 <= a <= b && c >= 0
    ensures a * c <= b * c
  {
  }

  /** For a page that holds rows, the range is a non-empty stretch of at
      most `limit` rows inside `1..total`; on the last page it ends at
      `total`. */
  lemma ShowingRangeBounds(p: Pagination)
    requires p.page >= 1 && p.limit >= 1
    requires (p.page - 1) * p.limit < p.total
    ensures var (first, last) := ShowingRange(p);
            && 1 <= first <= last <= p.total
            && last - first + 1 <= p.limit
            && (p.total <= p.page * p.limit ==> last == p.total)
  {
    MulMonotone(0, p.page - 1, p.limit);
    assert p.page * p.limit == (p.page - 1) * p.limit + p.limit;
  }
}
