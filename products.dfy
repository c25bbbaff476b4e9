/** The products page: a paged list filtered by search term, category and
    status, where an administrator approves or rejects pending products. */
module Products {
  import opened Common
  import opened Listing

  const FetchFailure := "Failed to fetch products"
  const LoadFallback := "Failed to load products"
  const ApproveFallback := "Failed to approve product"
  const RejectFallback := "Failed to reject product"
  const Unfiltered := "No products have been added yet."

  datatype Seller = Seller(id: string, firstName: string, lastName: string, email: string)
  datatype CategoryRef = CategoryRef(id: string, name: string)

  /** A product; an absent description is `""` and absent media is `[]`
      (only the media URLs are kept). */
  datatype Product = Product(id: string, title: string, description: string, status: string,
                             createdAt: string, updatedAt: string, seller: Seller, category: CategoryRef,
                             media: seq<string>)

  /** The three filter inputs. */
  datatype ProductFilters = ProductFilters(search: string, category: string, status: string)

  const NoFilters := ProductFilters("", "", "")

  function FilterPairs(f: ProductFilters): seq<(string, string)> {
    [("search", f.search), ("category", f.category), ("status", f.status)]
  }

  /** The query `getProducts` receives. */
  function ProductsQuery(page: int, f: ProductFilters): seq<(string, Param)> {
    ListQuery(page, FilterPairs(f))
  }

  /** The query starts with the page and the page size and then carries
      each filter exactly when it is set. */
  lemma ProductsQueryCarries(page: int, f: ProductFilters)
    ensures var q := ProductsQuery(page, f);
            && |q| >= 2 && q[0] == ("page", Num(page)) && q[1] == ("limit", Num(PageSize))
            && (("search", Text(f.search)) in q[2..] <==> f.search != "")
            && (("category", Text(f.category)) in q[2..] <==> f.category != "")
            && (("status", Text(f.status)) in q[2..] <==> f.status != "")
  {
    var fs := FilterPairs(f);
    ListQueryCarries(page, fs, "search", f.search);
    ListQueryCarries(page, fs, "category", f.category);
    ListQueryCarries(page, fs, "status", f.status);
  }

  /** fetchProducts' `params`: page and limit, then each set filter added
      by its own `if`. */
  method BuildQuery(page: int, f: ProductFilters) returns (params: seq<(string, Param)>)
    ensures params == ProductsQuery(page, f)
  {
    var fs := FilterPairs(f);
    params := [("page", Num(page)), ("limit", Num(PageSize))];
    assert params == ListQuery(page, fs[..0]);
    params := AddIfSet(page, fs[..0], params, "search", f.search);
    assert fs[..0] + [fs[0]] == fs[..1];
    params := AddIfSet(page, fs[..1], params, "category", f.category);
    assert fs[..1] + [fs[1]] == fs[..2];
    params := AddIfSet(page, fs[..2], params, "status", f.status);
    assert fs[..2] + [fs[2]] == fs;
  }

  function ApproveUrl(id: string): string {
    "/products/" + id + "/approve"
  }

  function RejectUrl(id: string): string {
    "/products/" + id + "/reject"
  }

  /** The rows after a decision on product `id`: every row with that id has
      the new status, nothing else changes. */
  function WithStatus(ps: seq<Product>, id: string, status: string): (r: seq<Product>)
    ensures |r| == |ps|
    ensures forall i :: 0 <= i < |ps| && ps[i].id == id ==> r[i] == ps[i].(status := status)
    ensures forall i :: 0 <= i < |ps| && ps[i].id != id ==> r[i] == ps[i]
  {
    seq(|ps|, i requires 0 <= i < |ps| => if ps[i].id == id then ps[i].(status := status) else ps[i])
  }

  /** Setting the same status twice is setting it once; a later decision
      overrides an earlier one. */
  lemma WithStatusOverrides(ps: seq<Product>, id: string, first: string, second: string)
    ensures WithStatus(WithStatus(ps, id, first), id, second) == WithStatus(ps, id, second)
  {
    var left := WithStatus(WithStatus(ps, id, first), id, second);
    var right := WithStatus(ps, id, second);
    forall i | 0 <= i < |ps| ensures left[i] == right[i] {
    }
  }

  /** Approve and reject buttons appear only on pending products. */
  predicate ShowsActions(p: Product) {
    p.status == "pending"
  }

  /** After a decision the product no longer offers the buttons, and the
      other rows still offer exactly what they did. */
  lemma DecisionHidesActions(ps: seq<Product>, id: string, status: string)
    requires status == "active" || status == "rejected"
    ensures var r := WithStatus(ps, id, status);
            && (forall i :: 0 <= i < |r| && r[i].id == id ==> !ShowsActions(r[i]))
            && (forall i :: 0 <= i < |r| && r[i].id != id ==> (ShowsActions(r[i]) <==> ShowsActions(ps[i])))
  {
  }

  const StatusKeys := ["active", "pending", "rejected", "inactive"]

  /** getStatusBadge: by the status as received; anything else is shown as
      "Pending". */
  function StatusBadge(status: string): (b: Badge)
    ensures status !in StatusKeys ==> b == Badge(Yellow, "Pending")
    ensures status == "pending" ==> b == Badge(Yellow, "Pending")
    ensures status == "active" ==> b == Badge(Green, "Active")
    ensures status == "rejected" ==> b == Badge(Red, "Rejected")
    ensures status == "inactive" ==> b == Badge(Gray, "Inactive")
  {
    if status == "active" then Badge(Green, "Active")
    else if status == "rejected" then Badge(Red, "Rejected")
    else if status == "inactive" then Badge(Gray, "Inactive")
    else Badge(Yellow, "Pending")
  }

  /** An unknown status is DRAWN as pending, but offers no buttons. */
  lemma UnknownStatusLooksPending(p: Product)
    requires p.status !in StatusKeys
    ensures StatusBadge(p.status) == StatusBadge("pending")
    ensures !ShowsActions(p)
  {
  }

  /** The image shown on a product card: its first media URL, if any. */
  function Thumbnail(p: Product): (r: Option<string>)
    ensures r.Some? <==> |p.media| > 0
    ensures r.Some? ==> r.value == p.media[0]
  {
    if |p.media| > 0 then Some(p.media[0]) else None
  }

  class ProductsPage {
    var products: seq<Product>
    var pagination: Option<Pagination>
    var isLoading: bool
    var error: Option<string>
    var filters: ProductFilters
    var currentPage: int
    var requests: seq<PageRequest>
    var alerts: seq<string>

    constructor ()
      ensures products == [] && pagination.None? && isLoading && error.None?
      ensures filters == NoFilters && currentPage == 1 && requests == [] && alerts == []
    {
      products := [];
      pagination := None;
      isLoading := true;
      error := None;
      filters := NoFilters;
      currentPage := 1;
      requests := [];
      alerts := [];
    }

    /** fetchProducts, with the page number its closure holds. */
    method Fetch(page: int, response: Result<ListBody<Product>>)
      modifies this`products, this`pagination, this`isLoading, this`error, this`requests
      ensures requests == old(requests) + [PageRequest("get", "/products", ProductsQuery(page, filters), [])]
      ensures var loaded := Load(response, FetchFailure, LoadFallback);
              products == loaded.items && pagination == loaded.pagination && error == loaded.error
      ensures !isLoading
    {
      isLoading := true;
      error := None;
      var params := BuildQuery(page, filters);
      requests := requests + [PageRequest("get", "/products", params, [])];
      var loaded := Load(response, FetchFailure, LoadFallback);
      products := loaded.items;
      pagination := loaded.pagination;
      error := loaded.error;
      isLoading := false;
    }

    /** handleSearch: back to page 1, and a fetch that still carries the
        page number of the render it was called from. */
    method HandleSearch(response: Result<ListBody<Product>>)
      modifies this`currentPage, this`products, this`pagination, this`isLoading, this`error, this`requests
      ensures currentPage == 1 && filters == old(filters) && alerts == old(alerts)
      ensures requests == old(requests) + [PageRequest("get", "/products", ProductsQuery(old(currentPage), filters), [])]
      ensures var loaded := Load(response, FetchFailure, LoadFallback);
              products == loaded.items && pagination == loaded.pagination && error == loaded.error
      ensures !isLoading
    {
      var page := currentPage;
      currentPage := 1;
      Fetch(page, response);
    }

    method HandlePageChange(page: int)
      modifies this`currentPage
      ensures currentPage == page
    {
      currentPage := page;
    }

    /** handleApproveProduct: any reply that arrives marks the product
        active (the reply's `success` is not read); a rejection alerts. */
    method Approve(id: string, response: Result<Ack>)
      modifies this`products, this`requests, this`alerts
      ensures requests == old(requests) + [PageRequest("post", ApproveUrl(id), [], [])]
      ensures response.Ok? ==> products == WithStatus(old(products), id, "active") && alerts == old(alerts)
      ensures response.Err? ==> products == old(products) && alerts == old(alerts) + [AlertText(response.error, ApproveFallback)]
    {
      requests := requests + [PageRequest("post", ApproveUrl(id), [], [])];
      match response
      case Err(e) =>
        alerts := alerts + [AlertText(e, ApproveFallback)];
      case Ok(_) =>
        products := WithStatus(products, id, "active");
    }

    /** handleRejectProduct: `reason` is what the prompt returned (None when
        it was cancelled). Without a non-empty reason nothing is sent;
        otherwise the reason goes in the body and any reply that arrives
        marks the product rejected. */
    method Reject(id: string, reason: Option<string>, response: Result<Ack>)
      modifies this`products, this`requests, this`alerts
      ensures reason.None? || reason.value == "" ==>
                requests == old(requests) && products == old(products) && alerts == old(alerts)
      ensures reason.Some? && reason.value != "" ==>
                && requests == old(requests) + [PageRequest("post", RejectUrl(id), [], [("reason", Text(reason.value))])]
                && (response.Ok? ==> products == WithStatus(old(products), id, "rejected") && alerts == old(alerts))
                && (response.Err? ==> products == old(products) && alerts == old(alerts) + [AlertText(response.error, RejectFallback)])
    {
      if reason.None? || reason.value == "" {
        return;
      }
      requests := requests + [PageRequest("post", RejectUrl(id), [], [("reason", Text(reason.value))])];
      match response
      case Err(e) =>
        alerts := alerts + [AlertText(e, RejectFallback)];
      case Ok(_) =>
        products := WithStatus(products, id, "rejected");
    }

    /** The text of the empty list: the filter hint while any filter is
        set, "nothing added yet" otherwise. */
    function EmptyMessage(): (r: string)
      reads this
      ensures filters != NoFilters ==> r == AdjustHint
      ensures filters == NoFilters ==> r == Unfiltered
    {
      var fs := FilterPairs(filters);
      assert SetFilters(fs) == [] <==> !AnySet(fs) by {
        SetFiltersEmpty(fs);
      }
      assert AnySet(fs) <==> filters != NoFilters by {
        assert AnySet(fs[2..]) <==> filters.status != "";
        assert AnySet(fs[1..]) <==> filters.category != "" || filters.status != "";
      }
      EmptyHint(fs, Unfiltered)
    }
  }
}
