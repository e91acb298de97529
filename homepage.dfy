/**
 * The home page (`HomePage`): the featured countries, at most six drawn
 * from a shuffled copy of the whole list, and the signed-in user's
 * favourite countries, fetched by their stored codes.
 */
module Homepage {
  import opened Countries
  import opened Text
  import opened Store

  const AllUrl: string := "https://restcountries.com/v3.1/all"
  const AlphaUrl: string := "https://restcountries.com/v3.1/alpha?codes="
  const FeaturedCount: nat := 6

  /** `slice(0, 6)`: the first six entries, or all of them when there are fewer. */
  function TakeFeatured(shuffled: seq<Country>): (r: seq<Country>)
    ensures |r| == if |shuffled| < FeaturedCount then |shuffled| else FeaturedCount
    ensures r == shuffled[..|r|]
  {
    if |shuffled| < FeaturedCount then shuffled else shuffled[..FeaturedCount]
  }

  /**
   * Whatever order the shuffle produced, the featured entries are at most
   * six records of the fetched batch, none repeated more often than there.
   */
  lemma FeaturedFromBatch(data: seq<Country>, shuffled: seq<Country>)
    requires multiset(shuffled) == multiset(data)
    ensures |TakeFeatured(shuffled)| <= FeaturedCount
    ensures |data| >= FeaturedCount ==> |TakeFeatured(shuffled)| == FeaturedCount
    ensures multiset(TakeFeatured(shuffled)) <= multiset(data)
  {
    var r := TakeFeatured(shuffled);
    assert shuffled == r + shuffled[|r|..];
    assert |shuffled| == |data| by {
      assert |multiset(shuffled)| == |shuffled|;
    }
  }

  /**
   * The favourites request: the stored codes in stored order, joined by ",".
   * For codes without commas the query reads back as exactly those codes.
   */
  function FavoritesUrl(codes: seq<string>): (url: string)
    ensures |AlphaUrl| <= |url| && url[..|AlphaUrl|] == AlphaUrl
    ensures codes != [] && (forall i :: 0 <= i < |codes| ==> ',' !in codes[i]) ==>
      Split(url[|AlphaUrl|..], ',') == codes
  {
    var url := AlphaUrl + Join(codes, ",");
    assert url[|AlphaUrl|..] == Join(codes, ",");
    if codes != [] && (forall i :: 0 <= i < |codes| ==> ',' !in codes[i]) then
      SplitJoin(codes, ',');
      url
    else
      url
  }

  /** The page's state. */
  class HomeController {
    var featuredCountries: seq<Country>
    var favoriteCountries: seq<Country>
    var loading: bool

    constructor ()
      ensures featuredCountries == [] && favoriteCountries == [] && loading
    {
      featuredCountries, favoriteCountries, loading := [], [], true;
    }

    /**
     * `fetchFeaturedCountries`. `fetch` answers each URL; `shuffle` is the
     * `Math.random` comparator sort, some permutation of its input. A failed
     * or non-OK fetch keeps the previous featured list; `loading` ends false.
     */
    method FetchFeatured(fetch: string -> Http<seq<Country>>, shuffle: seq<Country> -> seq<Country>)
      requires forall s :: multiset(shuffle(s)) == multiset(s)
      modifies this`featuredCountries, this`loading
      ensures !loading
      ensures fetch(AllUrl).HttpOk? ==>
        && featuredCountries == TakeFeatured(shuffle(fetch(AllUrl).body))
        && |featuredCountries| <= FeaturedCount
        && multiset(featuredCountries) <= multiset(fetch(AllUrl).body)
      ensures !fetch(AllUrl).HttpOk? ==> featuredCountries == old(featuredCountries)
    {
      match fetch(AllUrl) {
        case HttpOk(data) =>
          var shuffled := shuffle(data);
          FeaturedFromBatch(data, shuffled);
          featuredCountries := TakeFeatured(shuffled);
          loading := false;
        case HttpNotOk =>
          loading := false;
        case HttpThrew =>
          loading := false;
      }
    }

    /**
     * `fetchFavoriteCountries`. Without a user the list is emptied and the
     * store is not read. Otherwise a request is made only when the read
     * succeeds and the stored list is non-empty; the list is replaced only
     * by an OK answer to it, and kept in every other case.
     */
    method FetchFavorites(user: Option<string>, store: FavoritesStore, readOk: bool,
                          fetch: string -> Http<seq<Country>>)
      returns (storeRead: bool, requested: Option<string>)
      modifies this`favoriteCountries
      ensures storeRead <==> user.Some?
      ensures user.None? ==> favoriteCountries == [] && requested == None
      ensures user.Some? ==>
        requested == if readOk && store.Favorites(user.value) != []
                     then Some(FavoritesUrl(store.Favorites(user.value)))
                     else None
      ensures requested.Some? && fetch(requested.value).HttpOk? ==>
        favoriteCountries == fetch(requested.value).body
      ensures user.Some? && !(requested.Some? && fetch(requested.value).HttpOk?) ==>
        favoriteCountries == old(favoriteCountries)
    {
      storeRead, requested := false, None;
      if user.None? {
        favoriteCountries := [];
        return;
      }
      storeRead := true;
      if !readOk {
        return;
      }
      var codes := store.Favorites(user.value);
      if |codes| > 0 {
        var url := FavoritesUrl(codes);
        requested := Some(url);
        match fetch(url) {
          case HttpOk(data) =>
            favoriteCountries := data;
          case HttpNotOk =>
          case HttpThrew =>
        }
      }
    }

    /** The favourites section is rendered for a signed-in user with at least one favourite. */
    function FavoritesShown(user: Option<string>): (shown: bool)
      reads this
      ensures shown ==> user.Some? && favoriteCountries != []
      ensures user.Some? && favoriteCountries != [] ==> shown
    {
      user.Some? && |favoriteCountries| > 0
    }
  }
}
