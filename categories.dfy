/** The categories page: a paged, searchable list of categories with
    create, edit and delete, and in-place toggles of the `isActive` and
    `featured` flags. Every network call's settled outcome is a parameter. */
module Categories {
  import opened Common
  import opened Listing

  const FetchFailure := "Failed to fetch categories"
  const LoadFallback := "Failed to load categories"
  const CreateFallback := "Failed to create category"
  const UpdateFallback := "Failed to update category"
  const DeleteFallback := "Failed to delete category"
  const StatusFallback := "Failed to update category status"
  const FeaturedFallback := "Failed to update category featured status"

  /** The alert fallback of each switch. */
  function ToggleFallback(sw: Switch): string {
    match sw
    case ActiveSwitch => StatusFallback
    case FeaturedSwitch => FeaturedFallback
  }
  const Unfiltered := "Get started by creating your first category."

  /** A category; an absent description or parent is `""`. */
  datatype Category = Category(id: string, name: string, slug: string, description: string, parentId: string,
                               isActive: bool, featured: bool, createdAt: string, updatedAt: string, productCount: int)

  datatype CategoryForm = CategoryForm(name: string, description: string, parentId: string, isActive: bool, featured: bool)

  /** The form's initial and reset value. */
  const EmptyForm := CategoryForm("", "", "", true, false)

  /** The form as sent in a create or update body. */
  function FormBody(f: CategoryForm): seq<(string, Param)> {
    [("name", Text(f.name)), ("description", Text(f.description)), ("parentId", Text(f.parentId)),
     ("isActive", Flag(f.isActive)), ("featured", Flag(f.featured))]
  }

  /** openEditModal's form: the category's own values. */
  function EditForm(c: Category): (f: CategoryForm)
    ensures f.name == c.name && f.description == c.description && f.parentId == c.parentId
    ensures f.isActive == c.isActive && f.featured == c.featured
  {
    CategoryForm(c.name, c.description, c.parentId, c.isActive, c.featured)
  }

  function CategoryUrl(id: string): string {
    "/categories/" + id
  }

  /** The two flags a row's switches update in place. */
  datatype Switch = ActiveSwitch | FeaturedSwitch {
    /** The body field the update sends. */
    function Field(): string {
      match this
      case ActiveSwitch => "isActive"
      case FeaturedSwitch => "featured"
    }

    function Of(c: Category): bool {
      match this
      case ActiveSwitch => c.isActive
      case FeaturedSwitch => c.featured
    }

    /** `{ ...category, [field]: value }`: only this flag changes. */
    function Put(c: Category, value: bool): (d: Category)
      ensures Of(d) == value
      ensures d.id == c.id && d.name == c.name && d.slug == c.slug && d.description == c.description
      ensures d.parentId == c.parentId && d.productCount == c.productCount
      ensures d.createdAt == c.createdAt && d.updatedAt == c.updatedAt
      ensures this == ActiveSwitch ==> d.featured == c.featured
      ensures this == FeaturedSwitch ==> d.isActive == c.isActive
    {
      match this
      case ActiveSwitch => c.(isActive := value)
      case FeaturedSwitch => c.(featured := value)
    }
  }

  /** The rows after a successful toggle: every row with the id gets the
      negation of the value the button was drawn with; no other row and no
      other field changes. */
  function Toggled(cs: seq<Category>, id: string, sw: Switch, value: bool): (r: seq<Category>)
    ensures |r| == |cs|
    ensures forall i :: 0 <= i < |cs| && cs[i].id == id ==> r[i] == sw.Put(cs[i], !value)
    ensures forall i :: 0 <= i < |cs| && cs[i].id != id ==> r[i] == cs[i]
  {
    seq(|cs|, i requires 0 <= i < |cs| => if cs[i].id == id then sw.Put(cs[i], !value) else cs[i])
  }

  /** Every row with the id shows `value` in the switch's flag. */
  predicate Shows(cs: seq<Category>, id: string, sw: Switch, value: bool) {
    forall i :: 0 <= i < |cs| && cs[i].id == id ==> sw.Of(cs[i]) == value
  }

  /** Clicking a switch twice, each time with the value on screen, restores
      the list. */
  lemma ToggledTwice(cs: seq<Category>, id: string, sw: Switch, value: bool)
    requires Shows(cs, id, sw, value)
    ensures Shows(Toggled(cs, id, sw, value), id, sw, !value)
    ensures Toggled(Toggled(cs, id, sw, value), id, sw, !value) == cs
  {
    var once := Toggled(cs, id, sw, value);
    var twice := Toggled(once, id, sw, !value);
    forall i | 0 <= i < |cs| ensures twice[i] == cs[i] {
      if cs[i].id == id {
        assert once[i] == sw.Put(cs[i], !value);
      }
    }
  }

  /** The two switches touch different fields and commute. */
  lemma TogglesCommute(cs: seq<Category>, a: string, isActive: bool, b: string, featured: bool)
    ensures Toggled(Toggled(cs, a, ActiveSwitch, isActive), b, FeaturedSwitch, featured) ==
            Toggled(Toggled(cs, b, FeaturedSwitch, featured), a, ActiveSwitch, isActive)
  {
    var left := Toggled(Toggled(cs, a, ActiveSwitch, isActive), b, FeaturedSwitch, featured);
    var right := Toggled(Toggled(cs, b, FeaturedSwitch, featured), a, ActiveSwitch, isActive);
    forall i | 0 <= i < |cs| ensures left[i] == right[i] {
    }
  }

  class CategoriesPage {
    var categories: seq<Category>
    var pagination: Option<Pagination>
    var isLoading: bool
    var error: Option<string>
    var searchTerm: string
    var currentPage: int
    var showCreateModal: bool
    var showEditModal: bool
    var editing: Option<Category>
    var form: CategoryForm
    /** Every request issued, in order. */
    var requests: seq<PageRequest>
    /** Every `alert` shown, in order. */
    var alerts: seq<string>

    /** The loaded list and its status are the given ones. */
    predicate ListUnchanged(cs: seq<Category>, p: Option<Pagination>, loading: bool, e: Option<string>)
      reads this
    {
      categories == cs && pagination == p && isLoading == loading && error == e
    }

    constructor ()
      ensures categories == [] && pagination.None? && isLoading && error.None?
      ensures searchTerm == "" && currentPage == 1 && !showCreateModal && !showEditModal
      ensures editing.None? && form == EmptyForm && requests == [] && alerts == []
    {
      categories := [];
      pagination := None;
      isLoading := true;
      error := None;
      searchTerm := "";
      currentPage := 1;
      showCreateModal := false;
      showEditModal := false;
      editing := None;
      form := EmptyForm;
      requests := [];
      alerts := [];
    }

    /** fetchCategories, with the page number its closure holds. */
    method Fetch(page: int, response: Result<ListBody<Category>>)
      modifies this`categories, this`pagination, this`isLoading, this`error, this`requests
      ensures requests == old(requests) + [PageRequest("get", "/categories", ListQuery(page, [("search", searchTerm)]), [])]
      ensures var loaded := Load(response, FetchFailure, LoadFallback);
              categories == loaded.items && pagination == loaded.pagination && error == loaded.error
      ensures !isLoading
    {
      isLoading := true;
      error := None;
      var params := [("page", Num(page)), ("limit", Num(PageSize))];
      assert params == ListQuery(page, []);
      params := AddIfSet(page, [], params, "search", searchTerm);
      assert [] + [("search", searchTerm)] == [("search", searchTerm)];
      requests := requests + [PageRequest("get", "/categories", params, [])];
      var loaded := Load(response, FetchFailure, LoadFallback);
      categories := loaded.items;
      pagination := loaded.pagination;
      error := loaded.error;
      isLoading := false;
    }

    /** handleSearch: back to page 1, and a fetch that still carries the
        page number of the render it was called from. */
    method HandleSearch(response: Result<ListBody<Category>>)
      modifies this`currentPage, this`categories, this`pagination, this`isLoading, this`error, this`requests
      ensures currentPage == 1 && !isLoading
      ensures requests == old(requests) + [PageRequest("get", "/categories", ListQuery(old(currentPage), [("search", searchTerm)]), [])]
      ensures var loaded := Load(response, FetchFailure, LoadFallback);
              categories == loaded.items && pagination == loaded.pagination && error == loaded.error
      ensures searchTerm == old(searchTerm) && form == old(form) && alerts == old(alerts)
      ensures showCreateModal == old(showCreateModal) && showEditModal == old(showEditModal) && editing == old(editing)
    {
      var page := currentPage;
      currentPage := 1;
      Fetch(page, response);
    }

    /** handleCreateCategory: a successful reply closes the modal, resets the
        form and reloads; a rejection shows an alert; an unsuccessful reply
        does nothing more. */
    method Create(response: Result<Ack>, reload: Result<ListBody<Category>>)
      modifies this`categories, this`pagination, this`isLoading, this`error, this`requests, this`alerts
      modifies this`showCreateModal, this`form
      ensures response.Ok? && response.value.success ==> !isLoading
      ensures !(response.Ok? && response.value.success) ==> ListUnchanged(old(categories), old(pagination), old(isLoading), old(error))
      ensures old(requests) < requests && requests[|old(requests)|] == PageRequest("post", "/categories", [], FormBody(old(form)))
      ensures response.Ok? && response.value.success ==>
                && !showCreateModal && form == EmptyForm && alerts == old(alerts)
                && requests == old(requests) + [PageRequest("post", "/categories", [], FormBody(old(form))),
                                                PageRequest("get", "/categories", ListQuery(currentPage, [("search", searchTerm)]), [])]
                && var loaded := Load(reload, FetchFailure, LoadFallback);
                   categories == loaded.items && pagination == loaded.pagination && error == loaded.error
      ensures response.Err? ==>
                && alerts == old(alerts) + [AlertText(response.error, CreateFallback)]
                && requests == old(requests) + [PageRequest("post", "/categories", [], FormBody(old(form)))]
                && form == old(form) && showCreateModal == old(showCreateModal) && categories == old(categories)
      ensures response.Ok? && !response.value.success ==>
                && alerts == old(alerts) && form == old(form) && showCreateModal == old(showCreateModal)
                && requests == old(requests) + [PageRequest("post", "/categories", [], FormBody(old(form)))]
      ensures currentPage == old(currentPage) && searchTerm == old(searchTerm) && editing == old(editing)
      ensures showEditModal == old(showEditModal)
    {
      requests := requests + [PageRequest("post", "/categories", [], FormBody(form))];
      match response
      case Err(e) =>
        alerts := alerts + [AlertText(e, CreateFallback)];
      case Ok(ack) =>
        if ack.success {
          showCreateModal := false;
          form := EmptyForm;
          Fetch(currentPage, reload);
        }
    }

    /** handleEditCategory: nothing without a category being edited;
        otherwise an update of it with the form, and on success the modal
        closes, the edit ends, the form resets and the list reloads. */
    method Edit(response: Result<Ack>, reload: Result<ListBody<Category>>)
      modifies this`categories, this`pagination, this`isLoading, this`error, this`requests, this`alerts
      modifies this`showEditModal, this`editing, this`form
      ensures old(editing).None? ==>
                && requests == old(requests) && alerts == old(alerts) && form == old(form)
                && editing == old(editing) && showEditModal == old(showEditModal)
      ensures old(editing).Some? && response.Ok? && response.value.success ==> !isLoading
      ensures !(old(editing).Some? && response.Ok? && response.value.success) ==>
                && ListUnchanged(old(categories), old(pagination), old(isLoading), old(error))
                && showEditModal == old(showEditModal)
      ensures old(editing).Some? ==>
                var put := PageRequest("put", CategoryUrl(old(editing).value.id), [], FormBody(old(form)));
                && old(requests) < requests && requests[|old(requests)|] == put
                && (response.Ok? && response.value.success ==>
                      && !showEditModal && editing.None? && form == EmptyForm && alerts == old(alerts)
                      && requests == old(requests) + [put, PageRequest("get", "/categories", ListQuery(currentPage, [("search", searchTerm)]), [])]
                      && var loaded := Load(reload, FetchFailure, LoadFallback);
                         categories == loaded.items && pagination == loaded.pagination && error == loaded.error)
                && (response.Err? ==>
                      && alerts == old(alerts) + [AlertText(response.error, UpdateFallback)]
                      && requests == old(requests) + [put] && editing == old(editing) && form == old(form))
                && (response.Ok? && !response.value.success ==>
                      requests == old(requests) + [put] && editing == old(editing) && form == old(form) && alerts == old(alerts))
      ensures currentPage == old(currentPage) && searchTerm == old(searchTerm) && showCreateModal == old(showCreateModal)
    {
      if editing.None? {
        return;
      }
      var put := PageRequest("put", CategoryUrl(editing.value.id), [], FormBody(form));
      requests := requests + [put];
      match response
      case Err(e) =>
        alerts := alerts + [AlertText(e, UpdateFallback)];
      case Ok(ack) =>
        if ack.success {
          showEditModal := false;
          editing := None;
          form := EmptyForm;
          Fetch(currentPage, reload);
        }
    }

    /** handleDeleteCategory: only after confirmation; any settled reply
        reloads the list, a rejection shows an alert. */
    method Delete(id: string, confirmed: bool, response: Result<Ack>, reload: Result<ListBody<Category>>)
      modifies this`categories, this`pagination, this`isLoading, this`error, this`requests, this`alerts
      ensures !confirmed ==>
                requests == old(requests) && alerts == old(alerts) && ListUnchanged(old(categories), old(pagination), old(isLoading), old(error))
      ensures confirmed && response.Ok? ==> !isLoading
      ensures confirmed && response.Ok? ==>
                && alerts == old(alerts)
                && requests == old(requests) + [PageRequest("delete", CategoryUrl(id), [], []),
                                                PageRequest("get", "/categories", ListQuery(currentPage, [("search", searchTerm)]), [])]
                && var loaded := Load(reload, FetchFailure, LoadFallback);
                   categories == loaded.items && pagination == loaded.pagination && error == loaded.error
      ensures confirmed && response.Err? ==>
                && alerts == old(alerts) + [AlertText(response.error, DeleteFallback)]
                && requests == old(requests) + [PageRequest("delete", CategoryUrl(id), [], [])]
                && ListUnchanged(old(categories), old(pagination), old(isLoading), old(error))
      ensures currentPage == old(currentPage) && searchTerm == old(searchTerm) && form == old(form) && editing == old(editing)
      ensures showCreateModal == old(showCreateModal) && showEditModal == old(showEditModal)
    {
      if !confirmed {
        return;
      }
      requests := requests + [PageRequest("delete", CategoryUrl(id), [], [])];
      match response
      case Err(e) =>
        alerts := alerts + [AlertText(e, DeleteFallback)];
      case Ok(_) =>
        Fetch(currentPage, reload);
    }

    /** handleToggleActive and handleToggleFeatured: the update carries the
        negated value, and once it settles the rows change as Toggled says. */
    method Toggle(id: string, sw: Switch, value: bool, response: Result<Ack>)
      modifies this`categories, this`requests, this`alerts
      ensures requests == old(requests) + [PageRequest("put", CategoryUrl(id), [], [(sw.Field(), Flag(!value))])]
      ensures response.Ok? ==> categories == Toggled(old(categories), id, sw, value) && alerts == old(alerts)
      ensures response.Err? ==> categories == old(categories) && alerts == old(alerts) + [AlertText(response.error, ToggleFallback(sw))]
    {
      requests := requests + [PageRequest("put", CategoryUrl(id), [], [(sw.Field(), Flag(!value))])];
      match response
      case Err(e) =>
        alerts := alerts + [AlertText(e, ToggleFallback(sw))];
      case Ok(_) =>
        categories := Toggled(categories, id, sw, value);
    }

    method OpenEditModal(c: Category)
      modifies this`editing, this`form, this`showEditModal
      ensures editing == Some(c) && form == EditForm(c) && showEditModal
    {
      editing := Some(c);
      form := EditForm(c);
      showEditModal := true;
    }

    method HandlePageChange(page: int)
      modifies this`currentPage
      ensures currentPage == page
    {
      currentPage := page;
    }

    /** The text of the empty list: the filter hint while a search term is
        set (and then no "create" button), an invitation otherwise. */
    function EmptyMessage(): (r: string)
      reads this
      ensures searchTerm != "" ==> r == AdjustHint
      ensures searchTerm == "" ==> r == Unfiltered
    {
      assert SetFilters([("search", searchTerm)]) == (if searchTerm != "" then [("search", Text(searchTerm))] else []) + SetFilters([]);
      EmptyHint([("search", searchTerm)], Unfiltered)
    }
  }
}
