/** The car list page (client/src/pages/CarList.js): the filter and sort
    state, the query string sent to `GET /api/cars`, the local wishlist
    update, and the filter handlers. Navigation is recorded as the route
    the page asked for; HTTP calls are represented by their outcomes. */
module CarListPage {
  import opened Common
  import opened JsText
  import opened UserRoutes
  import opened CarRoutes

  /** A filter value: text from a select or text field, or a slider number. */
  datatype FilterValue = Str(s: string) | Num(n: int)

  /** The keys of the filters object, in its insertion order. */
  const FilterKeys: seq<string> := ["type", "transmission", "fuelType", "minPrice", "maxPrice", "seats", "location"]

  /** The inputs wired to `handleFilterChange`, by their `name`. */
  const FilterInputNames: set<string> := {"type", "transmission", "fuelType", "seats", "location"}

  /** The default filters: empty text, price range 0 to 1000. */
  const DefaultFilters: map<string, FilterValue> := map[
    "type" := Str(""), "transmission" := Str(""), "fuelType" := Str(""),
    "minPrice" := Num(0), "maxPrice" := Num(1000), "seats" := Str(""), "location" := Str("")]

  /** The filters object has exactly its seven keys. */
  predicate FiltersShape(f: map<string, FilterValue>) {
    f.Keys == {"type", "transmission", "fuelType", "minPrice", "maxPrice", "seats", "location"}
  }

  /** `Object.entries(filters)`. */
  function Entries(f: map<string, FilterValue>): (r: seq<(string, FilterValue)>)
    requires FiltersShape(f)
    ensures |r| == |FilterKeys|
    ensures forall i :: 0 <= i < |r| ==> r[i] == (FilterKeys[i], f[FilterKeys[i]])
  {
    seq(|FilterKeys|, i requires 0 <= i < |FilterKeys| => (FilterKeys[i], f[FilterKeys[i]]))
  }

  /** A filter is sent unless it is empty text or a price bound at its
      default (strict equality: the text "0" is sent). */
  predicate Kept(key: string, v: FilterValue) {
    v != Str("") && !(key == "minPrice" && v == Num(0)) && !(key == "maxPrice" && v == Num(1000))
  }

  /** The text `URLSearchParams.append` stores for a value. */
  function ParamText(v: FilterValue): string {
    match v
    case Str(s) => s
    case Num(n) => IntToString(n)
  }

  /** The parameters the filter loop appends, in entry order. */
  function KeptParams(es: seq<(string, FilterValue)>): (r: seq<(string, string)>)
    ensures |r| <= |es|
  {
    if es == [] then []
    else
      var last := es[|es| - 1];
      KeptParams(es[..|es| - 1]) + (if Kept(last.0, last.1) then [(last.0, ParamText(last.1))] else [])
  }

  /** A parameter is sent exactly when it comes from a kept entry. */
  lemma {:induction false} KeptParamsMembership(es: seq<(string, FilterValue)>, p: (string, string))
    ensures p in KeptParams(es) <==>
            exists i :: 0 <= i < |es| && Kept(es[i].0, es[i].1) && p == (es[i].0, ParamText(es[i].1))
  {
    if es != [] {
      var init := es[..|es| - 1];
      KeptParamsMembership(init, p);
      if p in KeptParams(init) {
        var i :| 0 <= i < |init| && Kept(init[i].0, init[i].1) && p == (init[i].0, ParamText(init[i].1));
        assert es[i] == init[i];
      }
      if exists i :: 0 <= i < |es| && Kept(es[i].0, es[i].1) && p == (es[i].0, ParamText(es[i].1)) {
        var i :| 0 <= i < |es| && Kept(es[i].0, es[i].1) && p == (es[i].0, ParamText(es[i].1));
        if i < |init| {
          assert init[i] == es[i];
        }
      }
    }
  }

  /** The default filters send no parameter. */
  lemma DefaultFiltersSendNothing()
    ensures KeptParams(Entries(DefaultFilters)) == []
  {
    var es := Entries(DefaultFilters);
    if KeptParams(es) != [] {
      var p := KeptParams(es)[0];
      KeptParamsMembership(es, p);
      var i :| 0 <= i < |es| && Kept(es[i].0, es[i].1) && p == (es[i].0, ParamText(es[i].1));
      assert false;
    }
  }

  /** The sort selection as `sortBy` and `order`; anything else adds nothing. */
  function SortParams(sort: string): (r: seq<(string, string)>)
    ensures sort in {"priceAsc", "priceDesc", "yearAsc", "yearDesc"} ==> |r| == 2 && r[0].0 == "sortBy" && r[1].0 == "order"
    ensures sort == "priceAsc" || sort == "priceDesc" ==> r[0].1 == "pricePerDay"
    ensures sort == "yearAsc" || sort == "yearDesc" ==> r[0].1 == "year"
    ensures sort == "priceAsc" || sort == "yearAsc" ==> r[1].1 == "asc"
    ensures sort == "priceDesc" || sort == "yearDesc" ==> r[1].1 == "desc"
    ensures sort !in {"priceAsc", "priceDesc", "yearAsc", "yearDesc"} ==> r == []
  {
    if sort == "priceAsc" then [("sortBy", "pricePerDay"), ("order", "asc")]
    else if sort == "priceDesc" then [("sortBy", "pricePerDay"), ("order", "desc")]
    else if sort == "yearAsc" then [("sortBy", "year"), ("order", "asc")]
    else if sort == "yearDesc" then [("sortBy", "year"), ("order", "desc")]
    else []
  }

  /** `searchParams.get(key)`: the first value under the key. */
  function QueryGet(ps: seq<(string, string)>, key: string): (r: Option<string>)
    ensures r.Some? ==> exists i :: 0 <= i < |ps| && ps[i] == (key, r.value)
                                    && forall j :: 0 <= j < i ==> ps[j].0 != key
    ensures r.None? <==> forall i :: 0 <= i < |ps| ==> ps[i].0 != key
  {
    if ps == [] then None
    else if ps[0].0 == key then Some(ps[0].1)
    else
      var r := QueryGet(ps[1..], key);
      if r.Some? then
        var i :| 0 <= i < |ps[1..]| && ps[1..][i] == (key, r.value)
                 && forall j :: 0 <= j < i ==> ps[1..][j].0 != key;
        assert ps[i + 1] == (key, r.value) && forall j :: 0 <= j < i + 1 ==> ps[j].0 != key;
        r
      else r
  }

  /** When every parameter under `key` carries the same text, `get` returns it. */
  lemma {:induction false} QueryGetAgreed(ps: seq<(string, string)>, key: string, v: string)
    requires (key, v) in ps
    requires forall i :: 0 <= i < |ps| && ps[i].0 == key ==> ps[i].1 == v
    ensures QueryGet(ps, key) == Some(v)
  {
    if ps[0].0 != key {
      QueryGetAgreed(ps[1..], key, v);
    }
  }

  /** The query the server reads from the page's parameters. */
  function ServerQuery(ps: seq<(string, string)>): CarQuery {
    CarQuery(QueryGet(ps, "type"), QueryGet(ps, "minPrice"), QueryGet(ps, "maxPrice"),
             QueryGet(ps, "transmission"), QueryGet(ps, "fuelType"), QueryGet(ps, "seats"),
             QueryGet(ps, "location"), QueryGet(ps, "available"))
  }

  /** The server reads a kept filter as the page sent it, and a filter that
      is not kept as absent. */
  lemma ParamReachesServer(f: map<string, FilterValue>, sort: string, i: nat)
    requires FiltersShape(f) && i < |FilterKeys|
    ensures var ps := KeptParams(Entries(f)) + SortParams(sort);
            var k := FilterKeys[i];
            QueryGet(ps, k) == if Kept(k, f[k]) then Some(ParamText(f[k])) else None
  {
    var es := Entries(f);
    var ps := KeptParams(es) + SortParams(sort);
    var k := FilterKeys[i];
    forall j | 0 <= j < |ps| && ps[j].0 == k
      ensures Kept(k, f[k]) && ps[j].1 == ParamText(f[k])
    {
      if j < |KeptParams(es)| {
        assert ps[j] in KeptParams(es);
        KeptParamsMembership(es, ps[j]);
      }
    }
    if Kept(k, f[k]) {
      KeptParamsMembership(es, (k, ParamText(f[k])));
      QueryGetAgreed(ps, k, ParamText(f[k]));
    }
  }

  /** A price bound moved off its default reaches the server as the same
      inclusive bound. */
  lemma PriceBoundReachesServer(f: map<string, FilterValue>, sort: string, i: nat)
    requires FiltersShape(f) && (i == 3 || i == 4)
    requires f[FilterKeys[i]].Num? && Kept(FilterKeys[i], f[FilterKeys[i]])
    ensures var ps := KeptParams(Entries(f)) + SortParams(sort);
            QueryGet(ps, FilterKeys[i]) == Some(IntToString(f[FilterKeys[i]].n))
            && ParseInt(QueryGet(ps, FilterKeys[i]).value) == Some(f[FilterKeys[i]].n)
  {
    ParamReachesServer(f, sort, i);
    ParseIntOfIntToString(f[FilterKeys[i]].n);
  }

  /** The server's price constraint for a query built by the page: the
      slider's bounds, each only when moved off its default. */
  lemma PriceFilterFromPage(f: map<string, FilterValue>, sort: string)
    requires FiltersShape(f) && f["minPrice"].Num? && f["maxPrice"].Num?
    ensures var q := ServerQuery(KeptParams(Entries(f)) + SortParams(sort));
            && BuildFilter(q).minPrice == (if f["minPrice"].n == 0 then None else Some(Some(f["minPrice"].n)))
            && BuildFilter(q).maxPrice == (if f["maxPrice"].n == 1000 then None else Some(Some(f["maxPrice"].n)))
  {
    var ps := KeptParams(Entries(f)) + SortParams(sort);
    assert FilterKeys[3] == "minPrice" && FilterKeys[4] == "maxPrice";
    ParamReachesServer(f, sort, 3);
    ParamReachesServer(f, sort, 4);
    if f["minPrice"].n != 0 {
      PriceBoundReachesServer(f, sort, 3);
    }
    if f["maxPrice"].n != 1000 {
      PriceBoundReachesServer(f, sort, 4);
    }
  }

  /** The page never sends `available`, so the server lists unavailable
      cars too. */
  lemma AvailableNeverSent(f: map<string, FilterValue>, sort: string)
    requires FiltersShape(f)
    ensures ServerQuery(KeptParams(Entries(f)) + SortParams(sort)).available.None?
  {
    var es := Entries(f);
    var ps := KeptParams(es) + SortParams(sort);
    forall j | 0 <= j < |ps| ensures ps[j].0 != "available" {
      if j < |KeptParams(es)| {
        assert ps[j] in KeptParams(es);
        KeptParamsMembership(es, ps[j]);
      }
    }
  }

  /** The value a chip's delete button restores. */
  function ChipReset(key: string): (v: FilterValue)
    ensures !Kept(key, v)
  {
    if key == "minPrice" then Num(0) else if key == "maxPrice" then Num(1000) else Str("")
  }

  /** The page state. */
  class CarList {
    const isAuthenticated: bool
    var filters: map<string, FilterValue>
    var sort: string
    var wishlist: seq<CarId>
    var navigatedTo: Option<string>

    ghost predicate Valid()
      reads this
    {
      FiltersShape(filters)
    }

    /** The first render: default filters, price ascending, empty wishlist. */
    constructor (isAuthenticated: bool)
      ensures Valid()
      ensures this.isAuthenticated == isAuthenticated
      ensures filters == DefaultFilters && sort == "priceAsc" && wishlist == [] && navigatedTo == None
    {
      this.isAuthenticated := isAuthenticated;
      filters := DefaultFilters;
      sort := "priceAsc";
      wishlist := [];
      navigatedTo := None;
    }

    /** `fetchCars`' query string: each kept filter in entry order, then the
        sort parameters. */
    method BuildQuery() returns (params: seq<(string, string)>)
      requires Valid()
      ensures params == KeptParams(Entries(filters)) + SortParams(sort)
    {
      var entries := Entries(filters);
      params := [];
      var i := 0;
      while i < |entries|
        invariant 0 <= i <= |entries|
        invariant params == KeptParams(entries[..i])
      {
        var (key, value) := entries[i];
        if Kept(key, value) {
          params := params + [(key, ParamText(value))];
        }
        assert entries[..i + 1][..i] == entries[..i];
        i := i + 1;
      }
      assert entries[..i] == entries;
      params := params + SortParams(sort);
    }

    /** A `location` in the page's URL, when non-empty, becomes the location
        filter. */
    method ApplyLocationParam(locationParam: Option<string>)
      requires Valid()
      modifies `filters
      ensures Valid()
      ensures locationParam.Some? && locationParam.value != "" ==>
                filters == old(filters)["location" := Str(locationParam.value)]
      ensures !(locationParam.Some? && locationParam.value != "") ==> filters == old(filters)
    {
      if locationParam.Some? && locationParam.value != "" {
        filters := filters["location" := Str(locationParam.value)];
      }
    }

    /** `handleFilterChange`: the named filter takes the input's text. */
    method HandleFilterChange(name: string, value: string)
      requires Valid() && name in FilterInputNames
      modifies `filters
      ensures Valid()
      ensures filters == old(filters)[name := Str(value)]
    {
      filters := filters[name := Str(value)];
    }

    /** `handlePriceChange`: both bounds from the slider. */
    method HandlePriceChange(lo: int, hi: int)
      requires Valid()
      modifies `filters
      ensures Valid()
      ensures filters == old(filters)["minPrice" := Num(lo)]["maxPrice" := Num(hi)]
    {
      filters := filters["minPrice" := Num(lo)]["maxPrice" := Num(hi)];
    }

    /** `handleSortChange`: a deselection (null) is ignored. */
    method HandleSortChange(newSort: Option<string>)
      modifies `sort
      ensures sort == if newSort.Some? then newSort.value else old(sort)
    {
      if newSort.Some? {
        sort := newSort.value;
      }
    }

    /** `clearFilters`: every filter back to its default, sort price
        ascending. */
    method ClearFilters()
      modifies `filters, `sort
      ensures Valid()
      ensures filters == DefaultFilters && sort == "priceAsc"
    {
      filters := DefaultFilters;
      sort := "priceAsc";
    }

    /** A chip's delete button: that one filter back to its reset value, so
        it is no longer sent. */
    method DeleteChip(key: string)
      requires Valid() && key in FilterKeys
      modifies `filters
      ensures Valid()
      ensures filters == old(filters)[key := ChipReset(key)]
      ensures !Kept(key, filters[key])
    {
      filters := filters[key := ChipReset(key)];
    }

    /** `handleToggleWishlist`: signed out, the page only navigates to the
        login page. Otherwise, after the server call succeeds the car is
        toggled locally; after it fails the wishlist is refetched, and kept
        as it was if that fails too. */
    method HandleToggleWishlist(car: CarId, serverOk: bool, refetched: Option<seq<CarId>>)
      modifies `wishlist, `navigatedTo
      ensures !isAuthenticated ==> navigatedTo == Some("/login") && wishlist == old(wishlist)
      ensures isAuthenticated ==> navigatedTo == old(navigatedTo)
      ensures isAuthenticated && serverOk ==> wishlist == Toggle(old(wishlist), car)
      ensures isAuthenticated && !serverOk ==> wishlist == refetched.GetOr(old(wishlist))
    {
      if !isAuthenticated {
        navigatedTo := Some("/login");
        return;
      }
      if serverOk {
        if car in wishlist {
          wishlist := Remove(wishlist, car);
        } else {
          wishlist := wishlist + [car];
        }
      } else if refetched.Some? {
        wishlist := refetched.value;
      }
    }
  }

  /** Clearing after any changes gives back a page that sends only the
      default sort. */
  method ClearThenQuery(page: CarList) returns (params: seq<(string, string)>)
    modifies page
    ensures params == [("sortBy", "pricePerDay"), ("order", "asc")]
  {
    page.ClearFilters();
    params := page.BuildQuery();
    DefaultFiltersSendNothing();
  }
}
