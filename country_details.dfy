/**
 * The detail page (`CountryDetail`): loading one country and its border
 * countries, choosing the screen to render, the capital, language and
 * currency labels, and the favourite check and toggle against the user's
 * stored list of codes.
 */
module CountryDetails {
  import opened Countries
  import opened Text
  import opened Store

  /** What `getCountryByCode` resolves to: null, an object without `name`, or a record. */
  datatype CountryPayload = NullPayload | NamelessPayload | CountryData(country: Country)

  /** What `getCountriesByCodes` resolves to: an array of records, or anything else. */
  datatype BordersPayload = NotAnArray | Records(records: seq<Country>)

  datatype BorderLink = BorderLink(name: string, code: string)

  datatype Screen = LoadingScreen | NotFoundScreen(message: Option<string>) | DetailsScreen

  const NoCodeMessage: string := "No country code provided"
  const InvalidDataMessage: string := "Invalid country data received"

  /** One link per returned record, in the order returned, carrying its common name and code. */
  function BorderLinks(records: seq<Country>): (links: seq<BorderLink>)
    ensures |links| == |records|
    ensures forall i :: 0 <= i < |records| ==> links[i].name == records[i].name && links[i].code == records[i].cca3
  {
    if records == [] then []
    else [BorderLink(records[0].name, records[0].cca3)] + BorderLinks(records[1..])
  }

  /** The border request is made only for a border list that is present and not empty. */
  function HasBorders(c: Country): (r: bool)
    ensures r <==> c.borders.Some? && c.borders.value != []
  {
    c.borders.Some? && |c.borders.value| > 0
  }

  /** `userData?.favoriteCountries?.includes(code) || false`. */
  function IsFavoriteIn(field: Option<seq<string>>, code: Option<string>): (r: bool)
    ensures r <==> field.Some? && code.Some? && code.value in field.value
  {
    match field
    case None => false
    case Some(list) => code.Some? && code.value in list
  }

  /** `!code`: the route parameter is absent or empty. */
  function MissingCode(code: Option<string>): (r: bool)
    ensures r <==> code.None? || code.value == ""
    ensures !r ==> |code.value| > 0
  {
    match code
    case None => true
    case Some(c) => |c| == 0
  }

  /** `favoriteCountries.filter(c => c !== code)`. */
  function RemoveAll(list: seq<string>, code: string): (r: seq<string>)
    ensures |r| <= |list|
    ensures forall i :: 0 <= i < |r| ==> r[i] != code
  {
    if list == [] then []
    else if list[0] == code then RemoveAll(list[1..], code)
    else [list[0]] + RemoveAll(list[1..], code)
  }

  /** Every other code stays, as often as it was there. */
  lemma {:induction false} RemoveAllCounts(list: seq<string>, code: string)
    ensures forall x :: x != code ==> multiset(RemoveAll(list, code))[x] == multiset(list)[x]
  {
    if list != [] {
      RemoveAllCounts(list[1..], code);
      assert list == [list[0]] + list[1..];
    }
  }

  /** Removal works entry by entry, so the remaining codes keep their order. */
  lemma {:induction false} RemoveAllConcat(a: seq<string>, b: seq<string>, code: string)
    ensures RemoveAll(a + b, code) == RemoveAll(a, code) + RemoveAll(b, code)
  {
    if a == [] {
      assert a + b == b;
    } else {
      assert (a + b)[0] == a[0] && (a + b)[1..] == a[1..] + b;
      RemoveAllConcat(a[1..], b, code);
    }
  }

  /** A list without the code is left as it is. */
  lemma {:induction false} RemoveAllAbsent(list: seq<string>, code: string)
    requires code !in list
    ensures RemoveAll(list, code) == list
  {
    if list != [] {
      RemoveAllAbsent(list[1..], code);
      assert list == [list[0]] + list[1..];
    }
  }

  /** The stored list a toggle writes: the code removed everywhere, or appended at the end. */
  function Toggled(list: seq<string>, code: string, isFavorite: bool): (r: seq<string>)
    ensures isFavorite ==> code !in r && |r| <= |list|
    ensures !isFavorite ==> |r| == |list| + 1 && r[..|list|] == list && r[|list|] == code
  {
    if isFavorite then RemoveAll(list, code) else list + [code]
  }

  /** When the flag is right, a toggle flips membership of the code in the stored list. */
  lemma ToggleFlipsMembership(list: seq<string>, code: string)
    ensures IsFavoriteIn(Some(Toggled(list, code, code in list)), Some(code)) == (code !in list)
  {
  }

  /** Adding a code the list lacks and then removing it gives the list back. */
  lemma AddThenRemove(list: seq<string>, code: string)
    requires code !in list
    ensures Toggled(Toggled(list, code, false), code, true) == list
  {
    RemoveAllConcat(list, [code], code);
    RemoveAllAbsent(list, code);
    assert RemoveAll([code], code) == [];
  }

  /** Removing and adding again moves the code to the end and keeps the other codes in order. */
  lemma RemoveThenAdd(list: seq<string>, code: string)
    ensures Toggled(Toggled(list, code, true), code, false) == RemoveAll(list, code) + [code]
  {
  }

  /**
   * With a stale flag the branch follows the flag, not the list: a code
   * already stored is appended a second time.
   */
  lemma StaleFlagDuplicates(list: seq<string>, code: string)
    requires code in list
    ensures multiset(Toggled(list, code, false))[code] >= 2
  {
  }

  /** Two toggles of "FRA" on ["FRA", "DEU"]: first it is removed, then appended after "DEU". */
  lemma ToggleExample()
    ensures Toggled(["FRA", "DEU"], "FRA", true) == ["DEU"]
    ensures Toggled(["DEU"], "FRA", false) == ["DEU", "FRA"]
  {
    assert ["FRA", "DEU"][1..] == ["DEU"];
    assert RemoveAll(["DEU"], "FRA") == ["DEU"] by {
      RemoveAllAbsent(["DEU"], "FRA");
    }
  }

  /** `country.capital?.[0] || "N/A"`: the first capital, unless there is none or it is empty. */
  function CapitalLabel(capital: Option<seq<string>>): (shown: string)
    ensures shown != ""
    ensures capital.Some? && |capital.value| > 0 && capital.value[0] != "" ==> shown == capital.value[0]
    ensures capital.None? || |capital.value| == 0 || capital.value[0] == "" ==> shown == "N/A"
  {
    if capital.Some? && |capital.value| > 0 && capital.value[0] != "" then capital.value[0] else "N/A"
  }

  /** The part in parentheses: the symbol, or the currency code when the symbol is empty. */
  function CurrencyTag(c: Currency): (tag: string)
    ensures c.symbol != "" ==> tag == c.symbol
    ensures c.symbol == "" ==> tag == c.code
    ensures tag == "" <==> c.symbol == "" && c.code == ""
  {
    if c.symbol != "" then c.symbol else c.code
  }

  /** `${currency.name} (${currency.symbol || code})`. */
  function CurrencyLabel(c: Currency): (shown: string)
    ensures |shown| == |c.name| + |CurrencyTag(c)| + 3
    ensures shown[..|c.name|] == c.name
    ensures shown[|c.name|..|c.name| + 2] == " ("
    ensures shown[|c.name| + 2..|shown| - 1] == CurrencyTag(c)
    ensures shown[|shown| - 1] == ')'
  {
    c.name + " (" + CurrencyTag(c) + ")"
  }

  function CurrencyLabels(cs: seq<Currency>): (labels: seq<string>)
    ensures |labels| == |cs|
    ensures forall i :: 0 <= i < |cs| ==> labels[i] == CurrencyLabel(cs[i])
  {
    if cs == [] then [] else [CurrencyLabel(cs[0])] + CurrencyLabels(cs[1..])
  }

  /** The currencies line: "N/A" without a currencies object, else the labels joined by ", ". */
  function CurrenciesLabel(currencies: Option<seq<Currency>>): (shown: string)
    ensures currencies.None? ==> shown == "N/A"
    ensures currencies.Some? && currencies.value == [] ==> shown == ""
    ensures currencies.Some? && |currencies.value| == 1 ==> shown == CurrencyLabel(currencies.value[0])
  {
    match currencies
    case None => "N/A"
    case Some(cs) => Join(CurrencyLabels(cs), ", ")
  }

  /** Each further entry adds ", " and its label at the end: labels appear in entry order. */
  lemma CurrenciesLabelSnoc(cs: seq<Currency>, c: Currency)
    requires cs != []
    ensures CurrenciesLabel(Some(cs + [c])) == CurrenciesLabel(Some(cs)) + ", " + CurrencyLabel(c)
  {
    CurrencyLabelsSnoc(cs, c);
    JoinSnoc(CurrencyLabels(cs), ", ", CurrencyLabel(c));
  }

  lemma CurrencyLabelsSnoc(cs: seq<Currency>, c: Currency)
    ensures CurrencyLabels(cs + [c]) == CurrencyLabels(cs) + [CurrencyLabel(c)]
  {
    var l, r := CurrencyLabels(cs + [c]), CurrencyLabels(cs) + [CurrencyLabel(c)];
    assert |l| == |r|;
    forall i | 0 <= i < |l|
      ensures l[i] == r[i]
    {
      assert (cs + [c])[i] == if i < |cs| then cs[i] else c;
    }
  }

  /** The languages line: "N/A" without a languages object, else the names joined by ", ". */
  function LanguagesLabel(languages: Option<seq<string>>): (shown: string)
    ensures languages.None? ==> shown == "N/A"
    ensures languages.Some? && languages.value == [] ==> shown == ""
    ensures languages.Some? && languages.value != [] ==> |languages.value[0]| <= |shown| && shown[..|languages.value[0]|] == languages.value[0]
    ensures languages.Some? && |languages.value| == 1 ==> shown == languages.value[0]
  {
    match languages
    case None => "N/A"
    case Some(names) => Join(names, ", ")
  }

  /** Each further language adds ", " and its name at the end: names appear in entry order. */
  lemma LanguagesLabelSnoc(names: seq<string>, n: string)
    requires names != []
    ensures LanguagesLabel(Some(names + [n])) == LanguagesLabel(Some(names)) + ", " + n
  {
    JoinSnoc(names, ", ", n);
  }

  /**
   * The page's state for the route parameter `code` (None: no parameter).
   * The route parameter can change while the page stays mounted.
   */
  class DetailController {
    var code: Option<string>
    var country: Option<Country>
    var loading: bool
    var borderCountries: seq<BorderLink>
    var error: Option<string>
    var isFavorite: bool

    /** A country is only ever held while the route carries a code parameter. */
    ghost predicate Valid()
      reads this
    {
      country.Some? ==> code.Some?
    }

    constructor (code: Option<string>)
      ensures Valid()
      ensures this.code == code && country == None && loading
      ensures borderCountries == [] && error == None && !isFavorite
    {
      this.code := code;
      country, loading, borderCountries, error, isFavorite := None, true, [], None, false;
    }

    /**
     * The screen rendered: loading first, then the single "Country not found"
     * screen for any error or no country. The error is tested for
     * truthiness, so an empty message does not count as one.
     */
    function Screen(): (s: Screen)
      reads this
      ensures loading ==> s == LoadingScreen
      ensures !loading && ((error.Some? && error.value != "") || country.None?) ==> s == NotFoundScreen(error)
      ensures s == DetailsScreen <==> !loading && country.Some? && (error.None? || error.value == "")
    {
      if loading then LoadingScreen
      else if (error.Some? && error.value != "") || country.None? then NotFoundScreen(error)
      else DetailsScreen
    }

    /**
     * `fetchCountry`, as one step. The two API calls are parameters; the
     * code looked up and the border codes asked for are returned (None: no
     * call). `error` and `country` are only ever set, never cleared.
     */
    method FetchCountry(getCountryByCode: string -> ApiResult<CountryPayload>,
                        getCountriesByCodes: seq<string> -> ApiResult<BordersPayload>)
      returns (lookedUp: Option<string>, bordersAsked: Option<seq<string>>)
      requires Valid()
      modifies this`country, this`loading, this`borderCountries, this`error
      ensures Valid()
      ensures !loading
      ensures lookedUp == if MissingCode(code) then None else code
      ensures MissingCode(code) ==>
        && bordersAsked == None
        && error == Some(NoCodeMessage)
        && country == old(country) && borderCountries == old(borderCountries)
        && Screen() == NotFoundScreen(Some(NoCodeMessage))
      ensures !MissingCode(code) && getCountryByCode(code.value).Threw? ==>
        && bordersAsked == None
        && error == Some(ErrorText(getCountryByCode(code.value).thrown))
        && country == old(country) && borderCountries == old(borderCountries)
      ensures !MissingCode(code) && getCountryByCode(code.value).Returned? && !getCountryByCode(code.value).value.CountryData? ==>
        && bordersAsked == None
        && error == Some(InvalidDataMessage)
        && country == old(country) && borderCountries == old(borderCountries)
      ensures !MissingCode(code) && getCountryByCode(code.value).Returned? && getCountryByCode(code.value).value.CountryData? ==>
        var c := getCountryByCode(code.value).value.country;
        && country == Some(c)
        && bordersAsked == (if HasBorders(c) then Some(c.borders.value) else None)
        && (bordersAsked.None? ==> error == old(error) && borderCountries == old(borderCountries))
        && (bordersAsked.Some? ==>
              match getCountriesByCodes(c.borders.value)
              case Threw(t) => error == Some(ErrorText(t)) && borderCountries == old(borderCountries)
              case Returned(NotAnArray) => error == old(error) && borderCountries == old(borderCountries)
              case Returned(Records(rs)) => error == old(error) && borderCountries == BorderLinks(rs))
      ensures error.Some? && error.value != "" ==> Screen() == NotFoundScreen(error)
      ensures country.Some? && (error.None? || error.value == "") ==> Screen() == DetailsScreen
    {
      lookedUp, bordersAsked := None, None;
      if MissingCode(code) {
        error := Some(NoCodeMessage);
        loading := false;
        return;
      }
      lookedUp := code;
      match getCountryByCode(code.value) {
        case Threw(t) =>
          error := Some(ErrorText(t));
          loading := false;
        case Returned(payload) =>
          if !payload.CountryData? {
            error := Some(InvalidDataMessage);
            loading := false;
          } else {
            var c := payload.country;
            country := Some(c);
            if HasBorders(c) {
              bordersAsked := Some(c.borders.value);
              match getCountriesByCodes(c.borders.value) {
                case Threw(t) =>
                  error := Some(ErrorText(t));
                case Returned(NotAnArray) =>
                case Returned(Records(rs)) =>
                  borderCountries := BorderLinks(rs);
              }
            }
            loading := false;
          }
      }
    }

    /**
     * `checkFavorite`. Without a user, or when the read fails, the flag is
     * kept; otherwise it says whether the stored list holds the code.
     */
    method CheckFavorite(user: Option<string>, store: FavoritesStore, readOk: bool)
      modifies this`isFavorite
      ensures user.None? || !readOk ==> isFavorite == old(isFavorite)
      ensures user.Some? && readOk ==> isFavorite == IsFavoriteIn(store.Field(user.value), code)
    {
      if user.None? {
        return;
      }
      if readOk {
        isFavorite := IsFavoriteIn(store.Field(user.value), code);
      }
    }

    /**
     * `toggleFavorite`: read the stored list, remove or append the code as
     * the local flag says, write the list back, and flip the flag once the
     * write succeeded. The button exists only on the details screen.
     */
    method ToggleFavorite(user: Option<string>, store: FavoritesStore, readOk: bool, writeReached: bool)
      requires Valid() && Screen() == DetailsScreen
      modifies this`isFavorite, store
      ensures user.None? || !readOk ==> store.docs == old(store.docs) && isFavorite == old(isFavorite)
      ensures user.Some? && readOk ==>
        var uid := user.value;
        var written := writeReached && uid in old(store.docs);
        var list := Toggled(old(store.Favorites(uid)), code.value, old(isFavorite));
        && store.docs == (if written then old(store.docs)[uid := Some(list)] else old(store.docs))
        && isFavorite == (if written then !old(isFavorite) else old(isFavorite))
    {
      if user.None? || !readOk {
        return;
      }
      var uid := user.value;
      var list := store.Favorites(uid);
      if isFavorite {
        list := RemoveAll(list, code.value);
      } else {
        list := list + [code.value];
      }
      var ok := store.Update(uid, list, writeReached);
      if ok {
        isFavorite := !isFavorite;
      }
    }

    /**
     * A border link (or the browser's back and forward) to another code on
     * the same route: the page stays mounted, so only the parameter changes.
     * Until the effects run again, the previous country, border links,
     * error, flag and screen all stay as they were.
     */
    method Navigate(c: string)
      requires Valid()
      modifies this`code
      ensures Valid()
      ensures code == Some(c)
      ensures Screen() == old(Screen())
    {
      code := Some(c);
    }
  }
}
