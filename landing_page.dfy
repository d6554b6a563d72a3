/** The public catalogue (client-side/src/pages/public/LandingPage.jsx): the locations
    fetched for the chosen category, narrowed in the browser by a case-insensitive
    search over name and address. */
module LandingPage {
  import opened Shared
  import opened Api
  import opened Text
  import Query
  import Decimal

  const CatalogueEndpoint := "/location/filter/check"
  const CategoriesEndpoint := "/locations-categories"

  /** `item.f && item.f.toLowerCase().includes(needle)`. */
  predicate FieldHas(field: Option<string>, needle: string) {
    field.Some? && field.value != "" && Includes(Lower(field.value), needle)
  }

  /** The `filter` callback of `filteredLocations`. */
  predicate Keeps(search: string, item: CatalogItem) {
    search == "" || FieldHas(item.name, Lower(search)) || FieldHas(item.address, Lower(search))
  }

  /** `locations.filter(...)`. */
  function Filtered(items: seq<CatalogItem>, search: string): seq<CatalogItem> {
    if items == [] then []
    else (if Keeps(search, items[0]) then [items[0]] else []) + Filtered(items[1..], search)
  }

  /** Reference definition: the name or the address contains the search text, ignoring case. */
  ghost predicate Mentions(item: CatalogItem, search: string) {
    (item.name.Some? && IsInfix(Lower(search), Lower(item.name.value))) ||
    (item.address.Some? && IsInfix(Lower(search), Lower(item.address.value)))
  }

  /** `a` is `b` with some elements left out, order kept. */
  ghost predicate IsSublist<T>(a: seq<T>, b: seq<T>)
    decreases |b|
  {
    if a == [] then true
    else if b == [] then false
    else (a[0] == b[0] && IsSublist(a[1..], b[1..])) || IsSublist(a, b[1..])
  }

  /** For a non-empty search the callback keeps exactly the items that mention it. */
  lemma KeepsIffMentions(search: string, item: CatalogItem)
    requires search != ""
    ensures Keeps(search, item) <==> Mentions(item, search)
  {
    var needle := Lower(search);
    assert needle != [];
    if item.name.Some? {
      IncludesIsInfix(Lower(item.name.value), needle);
      if item.name.value == "" {
        assert Lower("") == [];
      }
    }
    if item.address.Some? {
      IncludesIsInfix(Lower(item.address.value), needle);
      if item.address.value == "" {
        assert Lower("") == [];
      }
    }
  }

  /** With an empty search nothing is filtered out. */
  lemma {:induction false} FilteredEmptySearch(items: seq<CatalogItem>)
    ensures Filtered(items, "") == items
  {
    if items != [] {
      FilteredEmptySearch(items[1..]);
    }
  }

  /** Each kept item occurs as often as in the fetched list, each dropped one not at all. */
  lemma {:induction false} FilteredCounts(items: seq<CatalogItem>, search: string, x: CatalogItem)
    ensures multiset(Filtered(items, search))[x] == if Keeps(search, x) then multiset(items)[x] else 0
  {
    if items != [] {
      FilteredCounts(items[1..], search, x);
      assert items == [items[0]] + items[1..];
    }
  }

  /** The result is an order-preserving sub-list of the fetched list. */
  lemma {:induction false} FilteredIsSublist(items: seq<CatalogItem>, search: string)
    ensures IsSublist(Filtered(items, search), items)
  {
    if items != [] {
      FilteredIsSublist(items[1..], search);
      var rest := Filtered(items[1..], search);
      if Keeps(search, items[0]) {
        assert Filtered(items, search) == [items[0]] + rest;
        assert ([items[0]] + rest)[1..] == rest;
      } else {
        assert Filtered(items, search) == rest;
        assert rest == [] || IsSublist(rest, items[1..]);
      }
    }
  }

  /** Every kept item mentions the search text, and every fetched item that mentions
      it is kept. */
  lemma FilteredExactly(items: seq<CatalogItem>, search: string, x: CatalogItem)
    ensures x in Filtered(items, search) <==> x in items && (search == "" || Mentions(x, search))
  {
    FilteredCounts(items, search, x);
    if search != "" {
      KeepsIffMentions(search, x);
    }
  }

  /** `FilteredExactly` for every item at once. */
  lemma FilteredMembership(items: seq<CatalogItem>, search: string)
    ensures forall x :: x in Filtered(items, search) <==> x in items && (search == "" || Mentions(x, search))
  {
    forall x {
      FilteredExactly(items, search, x);
    }
  }

  /** An item with neither a name nor an address never matches a non-empty search. */
  lemma BlankItemDropped(items: seq<CatalogItem>, search: string, x: CatalogItem)
    requires search != ""
    requires x.name.GetOr("") == "" && x.address.GetOr("") == ""
    ensures x !in Filtered(items, search)
  {
    FilteredCounts(items, search, x);
  }

  /** The search text's own case does not matter. */
  lemma {:induction false} FilterIgnoresSearchCase(items: seq<CatalogItem>, search: string)
    ensures Filtered(items, search) == Filtered(items, Lower(search))
  {
    LowerIdempotent(search);
    assert search == "" <==> Lower(search) == "";
    if items != [] {
      FilterIgnoresSearchCase(items[1..], search);
    }
  }

  /** The query of the catalogue fetch: `category_id` only for a chosen category. */
  function CategoryQuery(filterCategory: string): (q: seq<(string, string)>)
    ensures |q| <= 1
    ensures Find(q, "category_id") == NonEmpty(filterCategory)
    ensures forall i :: 0 <= i < |q| ==> q[i].0 == "category_id"
  {
    if filterCategory != "" then [("category_id", filterCategory)] else []
  }

  function CatalogueRequest(filterCategory: string): Request {
    Request(Get, CatalogueEndpoint + "?" + Query.Join(CategoryQuery(filterCategory)), NoPayload, map[])
  }

  function CategoriesRequest(): Request {
    Request(Get, CategoriesEndpoint, NoPayload, map[])
  }

  /** Where the "Pesan Sekarang" button sends the browser for a catalogue item. */
  function BookingPath(id: int): string {
    "/reservation/" + Decimal.Show(id)
  }

  class Landing {
    const api: Client
    var locations: seq<CatalogItem>
    var categories: seq<Category>
    var isLoading: bool
    var search: string
    var filterCategory: string

    constructor (api: Client)
      ensures this.api == api
      ensures locations == [] && categories == [] && isLoading
      ensures search == "" && filterCategory == ""
    {
      this.api := api;
      locations := [];
      categories := [];
      isLoading := true;
      search := "";
      filterCategory := "";
    }

    /** `filteredLocations`, the list the page shows. */
    function FilteredLocations(): (r: seq<CatalogItem>)
      reads this
      ensures forall x :: x in r <==> x in locations && (search == "" || Mentions(x, search))
    {
      FilteredMembership(locations, search);
      Filtered(locations, search)
    }

    /** `fetchData`: the list is replaced only by a `success` answer. */
    method FetchData(answer: Outcome<ListBody<CatalogItem>>)
      modifies this`isLoading, this`locations, api
      ensures api.Snapshot() == Exchange(old(api.Snapshot()), CatalogueRequest(filterCategory), answer)
      ensures answer.Ok? && SuccessData(answer.body).Some? ==> locations == SuccessData(answer.body).value
      ensures !(answer.Ok? && SuccessData(answer.body).Some?) ==> locations == old(locations)
      ensures !isLoading
    {
      isLoading := true;
      var params := CategoryQuery(filterCategory);
      var r := api.Send(Request(Get, CatalogueEndpoint + "?" + Query.Join(params), NoPayload, map[]), answer);
      if r.Ok? {
        var data := SuccessData(r.body);
        if data.Some? {
          locations := data.value;
        }
      }
      isLoading := false;
    }

    /** `fetchCategories`: the same rule for the category drop-down. */
    method FetchCategories(answer: Outcome<ListBody<Category>>)
      modifies this`categories, api
      ensures api.Snapshot() == Exchange(old(api.Snapshot()), CategoriesRequest(), answer)
      ensures answer.Ok? && SuccessData(answer.body).Some? ==> categories == SuccessData(answer.body).value
      ensures !(answer.Ok? && SuccessData(answer.body).Some?) ==> categories == old(categories)
    {
      var r := api.Send(CategoriesRequest(), answer);
      if r.Ok? {
        var data := SuccessData(r.body);
        if data.Some? {
          categories := data.value;
        }
      }
    }

    /** The booking button: `window.location.href = /reservation/${item.id}`. */
    method Book(item: CatalogItem)
      modifies api`location
      ensures api.location == BookingPath(item.id)
    {
      api.location := "/reservation/" + Decimal.Show(item.id);
    }
  }
}
