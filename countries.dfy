/**
 * Shared data of the three pages: the country record as the pages read it
 * from the countries API, and the shapes in which the external services
 * (countries API, document store, plain fetch) answer.
 */
module Countries {

  datatype Option<+T> = None | Some(value: T)

  /** One entry of a record's `currencies` object, keyed by its currency code. */
  datatype Currency = Currency(code: string, name: string, symbol: string)

  /**
   * A country record. `name` is `name.common`; `cca3` is the three-letter
   * code used in routes, favourites and border lists. `capital`, `borders`,
   * `currencies` and `languages` are optional in the payload (None: absent).
   * The currency and language objects are kept as their entries in
   * enumeration order. An empty `symbol` stands for an empty or absent one.
   */
  datatype Country = Country(
    name: string,
    cca3: string,
    region: string,
    population: nat,
    capital: Option<seq<string>>,
    borders: Option<seq<string>>,
    currencies: Option<seq<Currency>>,
    languages: Option<seq<string>>)

  /** What a `catch` clause receives: an `Error` with its message, or any other value. */
  datatype Thrown = ErrorThrown(message: string) | OtherThrown

  /** The outcome of one awaited call into the countries API. */
  datatype ApiResult<+T> = Returned(value: T) | Threw(thrown: Thrown)

  /** The outcome of a plain `fetch` followed by `response.json()`. */
  datatype Http<+T> = HttpOk(body: T) | HttpNotOk | HttpThrew

  /** The text a catch clause reports: the Error's message, or a fixed fallback. */
  function ErrorText(t: Thrown): (msg: string)
    ensures t.ErrorThrown? ==> msg == t.message
    ensures t.OtherThrown? ==> msg == "An unknown error occurred"
  {
    match t
    case ErrorThrown(m) => m
    case OtherThrown => "An unknown error occurred"
  }
}
