/**
 * The listing page (`CountriesPage`): which endpoint a fetch uses, the
 * baseline name sort and the region filter applied to the batch, the
 * display sort chosen with the column buttons, and the two-way sync of the
 * search and region filters with the URL's query parameters.
 */
module AllCountries {
  import opened Countries
  import opened Sorting

  /** The options of the region select. The `region` URL parameter is not checked against them. */
  const Regions: seq<string> := ["Africa", "Americas", "Asia", "Europe", "Oceania", "Antarctic"]

  /** The countries API call a fetch makes. */
  datatype Endpoint = GetCountriesByRegion(region: string) | SearchCountries(query: string) | GetAllCountries

  datatype SortKey = Name | Population | Region
  datatype SortOrder = Asc | Desc
  datatype ViewMode = Grid | List

  /**
   * The fetch path. The region endpoint needs a region and no search text,
   * the search endpoint a search text and no region; with both filters set,
   * or neither, every country is fetched, so a search text typed while a
   * region is chosen never reaches the API.
   */
  function ChooseEndpoint(search: string, region: string): (e: Endpoint)
    ensures e.GetCountriesByRegion? <==> region != "" && search == ""
    ensures e.SearchCountries? <==> search != "" && region == ""
    ensures e.GetAllCountries? <==> (search == "" <==> region == "")
    ensures e.GetCountriesByRegion? ==> e.region == region
    ensures e.SearchCountries? ==> e.query == search
  {
    if region != "" && search == "" then GetCountriesByRegion(region)
    else if search != "" && region == "" then SearchCountries(search)
    else GetAllCountries
  }

  /** With a region chosen, the search text does not change what is requested. */
  lemma SearchIgnoredWithRegion(search1: string, search2: string, region: string)
    requires region != "" && search1 != "" && search2 != ""
    ensures ChooseEndpoint(search1, region) == ChooseEndpoint(search2, region) == GetAllCountries
  {
  }

  /** `a.name.common.localeCompare(b.name.common) <= 0`; records with equal names tie. */
  function NameLe(a: Country, b: Country): (r: bool)
    ensures a.name == b.name ==> r
  {
    StrLeReflexive(a.name);
    StrLe(a.name, b.name)
  }

  /** Two records tie under the name comparator exactly when their common names are equal. */
  lemma NameLeTies(a: Country, b: Country)
    ensures NameLe(a, b) && NameLe(b, a) <==> a.name == b.name
  {
    if NameLe(a, b) && NameLe(b, a) {
      StrLeAntisymmetric(a.name, b.name);
    }
  }

  lemma NameLeTotalPreorder()
    ensures TotalPreorder(NameLe)
  {
    forall a: Country, b: Country
      ensures NameLe(a, b) || NameLe(b, a)
    {
      StrLeTotal(a.name, b.name);
    }
    forall a: Country, b: Country, c: Country | NameLe(a, b) && NameLe(b, c)
      ensures NameLe(a, c)
    {
      StrLeTransitive(a.name, b.name, c.name);
    }
  }

  /** The fetched batch after `data.sort(...)` by common name: the same records, name-ascending. */
  function BaseList(data: seq<Country>): (r: seq<Country>)
    ensures multiset(r) == multiset(data)
    ensures forall i, j :: 0 <= i < j < |r| ==> StrLe(r[i].name, r[j].name)
  {
    NameLeTotalPreorder();
    SortBySorted(data, NameLe);
    SortBy(data, NameLe)
  }

  /** `filter(country => country.region === regionFilter)`. */
  function FilterRegion(s: seq<Country>, region: string): (r: seq<Country>)
    ensures |r| <= |s|
    ensures forall i :: 0 <= i < |r| ==> r[i].region == region
  {
    if s == [] then []
    else
      assert s == [s[0]] + s[1..];
      var rest := FilterRegion(s[1..], region);
      if s[0].region == region then [s[0]] + rest else rest
  }

  /** The filter keeps every record of the region, as often as it occurs, and nothing else. */
  lemma {:induction false} FilterRegionCounts(s: seq<Country>, region: string)
    ensures forall c :: multiset(FilterRegion(s, region))[c] == if c.region == region then multiset(s)[c] else 0
  {
    if s != [] {
      FilterRegionCounts(s[1..], region);
      assert s == [s[0]] + s[1..];
    }
  }

  /** The filter works element by element, so it keeps the records' relative order. */
  lemma {:induction false} FilterRegionConcat(a: seq<Country>, b: seq<Country>, region: string)
    ensures FilterRegion(a + b, region) == FilterRegion(a, region) + FilterRegion(b, region)
  {
    if a == [] {
      assert a + b == b;
    } else {
      var ab := a + b;
      assert ab[0] == a[0] && ab[1..] == a[1..] + b;
      FilterRegionConcat(a[1..], b, region);
      var head := if a[0].region == region then [a[0]] else [];
      assert FilterRegion(ab, region) == head + FilterRegion(ab[1..], region);
      assert FilterRegion(a, region) == head + FilterRegion(a[1..], region);
    }
  }

  /** The filter keeps any order the list was in, in particular the name order of the base list. */
  lemma {:induction false} FilterRegionSorted(s: seq<Country>, region: string, le: (Country, Country) -> bool)
    requires Sorted(s, le)
    ensures Sorted(FilterRegion(s, region), le)
  {
    if s != [] {
      var rest := FilterRegion(s[1..], region);
      FilterRegionSorted(s[1..], region, le);
      FilterRegionCounts(s[1..], region);
      if s[0].region == region {
        forall k | 0 <= k < |rest|
          ensures le(s[0], rest[k])
        {
          assert rest[k] in multiset(rest);
          assert rest[k] in multiset(s[1..]);
          var j :| 0 <= j < |s[1..]| && s[1..][j] == rest[k];
          assert s[j + 1] == rest[k];
        }
      }
    }
  }

  /** The filtered list the page shows after a successful fetch. */
  function Filtered(countries: seq<Country>, search: string, region: string): (r: seq<Country>)
    ensures search != "" && region != "" ==> r == FilterRegion(countries, region)
    ensures search == "" || region == "" ==> r == countries
  {
    if search != "" && region != "" then FilterRegion(countries, region) else countries
  }

  /**
   * With both filters set the page shows exactly the fetched records of the
   * chosen region, name-ascending, whatever the search text; with at most
   * one filter set it shows the whole sorted batch.
   */
  lemma FetchedListing(data: seq<Country>, search: string, region: string)
    ensures var r := Filtered(BaseList(data), search, region);
      && (search != "" && region != "" ==>
            && (forall c :: multiset(r)[c] == if c.region == region then multiset(data)[c] else 0)
            && Sorted(r, NameLe))
      && (search == "" || region == "" ==> multiset(r) == multiset(data) && Sorted(r, NameLe))
  {
    var base := BaseList(data);
    assert Sorted(base, NameLe);
    FilterRegionCounts(base, region);
    FilterRegionSorted(base, region, NameLe);
  }

  /**
   * One column's comparison: population numerically, name and region as
   * strings; the name column orders as the base list does, and equal keys tie.
   */
  function KeyLe(key: SortKey, a: Country, b: Country): (r: bool)
    ensures key == Name ==> (r <==> NameLe(a, b))
    ensures key == Population ==> (r <==> a.population <= b.population)
    ensures key == Region && a.region == b.region ==> r
  {
    StrLeReflexive(a.region);
    match key
    case Name => StrLe(a.name, b.name)
    case Population => a.population <= b.population
    case Region => StrLe(a.region, b.region)
  }

  /**
   * The display comparator: the column's order, reversed (`b` against `a`)
   * for `desc`. Each of the six is a total preorder, so the sort is well defined.
   */
  function DisplayOrder(key: SortKey, order: SortOrder): (le: (Country, Country) -> bool)
    ensures TotalPreorder(le)
  {
    KeyLeTotalPreorder(key);
    (a: Country, b: Country) => if order == Asc then KeyLe(key, a, b) else KeyLe(key, b, a)
  }

  /** Each column's comparison is total and transitive. */
  lemma KeyLeTotalPreorder(key: SortKey)
    ensures forall a, b :: KeyLe(key, a, b) || KeyLe(key, b, a)
    ensures forall a, b, c :: KeyLe(key, a, b) && KeyLe(key, b, c) ==> KeyLe(key, a, c)
  {
    forall a: Country, b: Country
      ensures KeyLe(key, a, b) || KeyLe(key, b, a)
    {
      StrLeTotal(a.name, b.name);
      StrLeTotal(a.region, b.region);
    }
    forall a: Country, b: Country, c: Country | KeyLe(key, a, b) && KeyLe(key, b, c)
      ensures KeyLe(key, a, c)
    {
      if key == Name {
        StrLeTransitive(a.name, b.name, c.name);
      } else if key == Region {
        StrLeTransitive(a.region, b.region, c.region);
      }
    }
  }

  /**
   * `[...filteredCountries].sort(...)`: a permutation of the list, ascending
   * in the chosen column under `asc` and descending under `desc`.
   */
  function DisplaySort(list: seq<Country>, key: SortKey, order: SortOrder): (r: seq<Country>)
    ensures multiset(r) == multiset(list)
    ensures order == Asc ==> forall i, j :: 0 <= i < j < |r| ==> KeyLe(key, r[i], r[j])
    ensures order == Desc ==> forall i, j :: 0 <= i < j < |r| ==> KeyLe(key, r[j], r[i])
  {
    SortBySorted(list, DisplayOrder(key, order));
    SortBy(list, DisplayOrder(key, order))
  }

  /**
   * With tied keys the stable sort keeps the input order under both orders,
   * so the `desc` list is not the `asc` list reversed.
   */
  lemma DescNotReversedOnTies(a: Country, b: Country)
    requires a != b && a.population == b.population
    ensures DisplaySort([a, b], Population, Asc) == [a, b]
    ensures DisplaySort([a, b], Population, Desc) == [a, b]
  {
    assert Sorted([a, b], DisplayOrder(Population, Asc));
    assert Sorted([a, b], DisplayOrder(Population, Desc));
    SortByOfSorted([a, b], DisplayOrder(Population, Asc));
    SortByOfSorted([a, b], DisplayOrder(Population, Desc));
  }

  function Flip(order: SortOrder): (r: SortOrder)
    ensures r != order
  {
    if order == Asc then Desc else Asc
  }

  /** The query parameters written for the filters: an empty filter is left out. */
  function UrlParams(search: string, region: string): (p: map<string, string>)
    ensures p.Keys <= {"search", "region"}
    ensures "search" in p <==> search != ""
    ensures "region" in p <==> region != ""
    ensures "search" in p ==> p["search"] == search
    ensures "region" in p ==> p["region"] == region
  {
    var p := if search != "" then map["search" := search] else map[];
    if region != "" then p["region" := region] else p
  }

  /** The filter value seeded from parameter `key`: a non-empty value replaces the current one. */
  function Seeded(params: map<string, string>, key: string, current: string): (v: string)
    ensures key in params && params[key] != "" ==> v == params[key]
    ensures key !in params || params[key] == "" ==> v == current
  {
    if key in params && params[key] != "" then params[key] else current
  }

  /** Seeding from the written parameters restores every non-empty filter and keeps the rest. */
  lemma UrlRoundTrip(search: string, region: string, search0: string, region0: string)
    ensures Seeded(UrlParams(search, region), "search", search0) == if search != "" then search else search0
    ensures Seeded(UrlParams(search, region), "region", region0) == if region != "" then region else region0
  {
  }

  /** A fresh page seeded from a link reproduces the filters the link was written from. */
  lemma UrlRoundTripFresh(search: string, region: string)
    ensures Seeded(UrlParams(search, region), "search", "") == search
    ensures Seeded(UrlParams(search, region), "region", "") == region
  {
    UrlRoundTrip(search, region, "", "");
  }

  /** Any non-empty region parameter is taken, listed region or not. */
  lemma UnlistedRegionAccepted(region: string, current: string)
    requires region != "" && region !in Regions
    ensures Seeded(map["region" := region], "region", current) == region
  {
  }

  /** The page's state. `searchParams` is the URL's query string as a map. */
  class ListingController {
    var countries: seq<Country>
    var filteredCountries: seq<Country>
    var loading: bool
    var searchQuery: string
    var regionFilter: string
    var searchParams: map<string, string>
    var viewMode: ViewMode
    var sortBy: SortKey
    var sortOrder: SortOrder

    constructor (url: map<string, string>)
      ensures countries == [] && filteredCountries == [] && loading
      ensures searchQuery == "" && regionFilter == "" && searchParams == url
      ensures viewMode == Grid && sortBy == Name && sortOrder == Asc
    {
      countries, filteredCountries, loading := [], [], true;
      searchQuery, regionFilter, searchParams := "", "", url;
      viewMode, sortBy, sortOrder := Grid, Name, Asc;
    }

    /** Typing in the search box. */
    method SetSearchQuery(q: string)
      modifies this`searchQuery
      ensures searchQuery == q
    {
      searchQuery := q;
    }

    /** Choosing in the region select ("" is "All Regions"). */
    method SetRegionFilter(r: string)
      modifies this`regionFilter
      ensures regionFilter == r
    {
      regionFilter := r;
    }

    method SetViewMode(m: ViewMode)
      modifies this`viewMode
      ensures viewMode == m
    {
      viewMode := m;
    }

    /**
     * `fetchCountries`, as one step. `api` answers each endpoint; the
     * endpoint asked is returned. A failure clears both lists; `loading`
     * ends false either way; the filters and sort state are untouched.
     */
    method FetchCountries(api: Endpoint -> ApiResult<seq<Country>>) returns (requested: Endpoint)
      modifies this`countries, this`filteredCountries, this`loading
      ensures requested == ChooseEndpoint(searchQuery, regionFilter)
      ensures !loading
      ensures api(requested).Threw? ==> countries == [] && filteredCountries == []
      ensures api(requested).Returned? ==>
        && countries == BaseList(api(requested).value)
        && filteredCountries == Filtered(countries, searchQuery, regionFilter)
        && (searchQuery != "" && regionFilter != "" ==>
              forall i :: 0 <= i < |filteredCountries| ==> filteredCountries[i].region == regionFilter)
    {
      loading := true;
      requested := ChooseEndpoint(searchQuery, regionFilter);
      match api(requested) {
        case Threw(_) =>
          countries := [];
          filteredCountries := [];
        case Returned(data) =>
          var sorted := BaseList(data);
          countries := sorted;
          if searchQuery != "" && regionFilter != "" {
            filteredCountries := FilterRegion(sorted, regionFilter);
          } else {
            filteredCountries := sorted;
          }
      }
      loading := false;
    }

    /** The effect on `searchParams`: each non-empty parameter replaces its filter. */
    method SeedFromUrl()
      modifies this`searchQuery, this`regionFilter
      ensures searchQuery == Seeded(searchParams, "search", old(searchQuery))
      ensures regionFilter == Seeded(searchParams, "region", old(regionFilter))
    {
      if "search" in searchParams && searchParams["search"] != "" {
        searchQuery := searchParams["search"];
      }
      if "region" in searchParams && searchParams["region"] != "" {
        regionFilter := searchParams["region"];
      }
    }

    /** The effect on the filters: the URL is rewritten from them. */
    method WriteUrl()
      modifies this`searchParams
      ensures searchParams == UrlParams(searchQuery, regionFilter)
    {
      var params: map<string, string> := map[];
      if searchQuery != "" {
        params := params["search" := searchQuery];
      }
      if regionFilter != "" {
        params := params["region" := regionFilter];
      }
      searchParams := params;
    }

    /** `handleSort`: the same column flips the order, another column starts ascending. */
    method HandleSort(criteria: SortKey)
      modifies this`sortBy, this`sortOrder
      ensures old(sortBy) == criteria ==> sortBy == criteria && sortOrder == Flip(old(sortOrder))
      ensures old(sortBy) != criteria ==> sortBy == criteria && sortOrder == Asc
    {
      if sortBy == criteria {
        sortOrder := if sortOrder == Asc then Desc else Asc;
      } else {
        sortBy := criteria;
        sortOrder := Asc;
      }
    }

    /** Both "clear filters" buttons; afterwards every country is fetched. */
    method ClearFilters()
      modifies this`searchQuery, this`regionFilter
      ensures searchQuery == "" && regionFilter == ""
      ensures ChooseEndpoint(searchQuery, regionFilter) == GetAllCountries
      ensures !ClearButtonShown()
    {
      searchQuery := "";
      regionFilter := "";
    }

    /**
     * The clear button above the results is shown while some filter is set;
     * when it is hidden the page already lists every country.
     */
    function ClearButtonShown(): (shown: bool)
      reads this
      ensures shown <==> !(searchQuery == "" && regionFilter == "")
      ensures !shown ==> ChooseEndpoint(searchQuery, regionFilter) == GetAllCountries
    {
      searchQuery != "" || regionFilter != ""
    }

    /** The list rendered: a sorted copy, `filteredCountries` itself stays as it is. */
    function SortedCountries(): (r: seq<Country>)
      reads this
      ensures multiset(r) == multiset(filteredCountries)
      ensures sortOrder == Asc ==> forall i, j :: 0 <= i < j < |r| ==> KeyLe(sortBy, r[i], r[j])
      ensures sortOrder == Desc ==> forall i, j :: 0 <= i < j < |r| ==> KeyLe(sortBy, r[j], r[i])
    {
      DisplaySort(filteredCountries, sortBy, sortOrder)
    }
  }
}
