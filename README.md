# Countries explorer: view-state and favourites model

A Dafny model of the logic inside the three page components of a React
single-page app for browsing world countries:

- **Listing page** (`src/pages/AllCountries.tsx`, module `AllCountries`,
  class `ListingController`): which countries-API endpoint a fetch uses for
  the current search text and region filter, the baseline sort by common
  name, the client-side region filter, the clearing of both lists on a
  failed fetch, the sort-column / sort-order toggle, the display sort of a
  copy of the filtered list, the two-way sync of the filters with the URL's
  `search` and `region` query parameters, and "clear filters".
- **Detail page** (`src/pages/CountryDetails.tsx`, module `CountryDetails`,
  class `DetailController`): the missing-code guard, validation of the
  primary record, the border-country lookup and its mapping to
  `{name, code}` links, the screen chosen for rendering, the capital,
  language and currency labels, and the favourite check and
  read-modify-write toggle against the user's stored list of codes.
- **Home page** (`src/pages/Homepage.tsx`, module `Homepage`, class
  `HomeController`): the featured selection (at most six entries of a
  shuffled batch) and the favourites expansion (the stored codes joined by
  "," into one request, made only for a signed-in user with a non-empty
  list).

Shared pieces: `Countries` (the country record and the shapes of the
answers of the external services), `Sorting` (the comparator sort the
pages hand to `Array.prototype.sort`, as a stable insertion sort over any
total preorder), `Text` (`join` and its inverse on one separator
character) and `Store` (the document store's `favoriteCountries` field per
user document).

The network, the document store, `Math.random` and the signed-in user are
parameters: each API call is a function from the request to its outcome
(a value, a thrown `Error` with its message, or another thrown value), a
store read or write that may fail takes a flag saying whether the call got
through, the shuffle is any permutation, and the user is an optional id.
Each handler is one atomic step.

Where the code does something a reader might not expect, the model follows
the code:

- With both a search text and a region set, the code fetches every country
  and filters by region; the search text has no effect on the result
  (`AllCountries.SearchIgnoredWithRegion`, `AllCountries.FetchedListing`).
- A `region` URL parameter is taken without checking it against the six
  listed regions (`AllCountries.UnlistedRegionAccepted`).
- A country that does not exist and a transport failure both end on the one
  "Country not found" screen; only the message differs
  (`CountryDetails.DetailController.Screen`).
- The error is tested for truthiness, so an `Error` thrown with an empty
  message while the border countries load leaves the details screen up for
  the country already stored (`CountryDetails.DetailController.FetchCountry`).
- A newer fetch does not discard an older, slower response: there is no
  request sequencing in the code, so there is none in the model.
- `fetchCountry` never clears `error` or `country` and never sets `loading`
  back to true; an error stays on the page until it is remounted.
- The toggle chooses remove or append from the page's local flag, not from
  the list it has just read, so a stale flag appends a code a second time
  (`CountryDetails.StaleFlagDuplicates`).
- Sorting in `desc` order uses the reversed comparator with a stable sort;
  entries that tie keep their original order, so the `desc` list is not
  the `asc` list reversed when keys tie (`AllCountries.DescNotReversedOnTies`).
- A border link leads to the same route with another code, so the detail
  page stays mounted: the previous country, border links, error and
  favourite flag stay on screen until the effects run again, and `loading`
  does not return to true (`CountryDetails.DetailController.Navigate`).

## Model

| member | source | states |
|---|---|---|
| `AllCountries.ChooseEndpoint` | src/pages/AllCountries.tsx:48-54 | region endpoint exactly when a region is set and the search is empty, search endpoint exactly when a search is set and the region is empty, all countries otherwise (both set, or neither) |
| `AllCountries.SearchIgnoredWithRegion` | src/pages/AllCountries.tsx:48-54 | with a region chosen, two different search texts request the same endpoint, the all-countries one |
| `AllCountries.NameLe` | src/pages/AllCountries.tsx:56-58 | records with equal common names tie under the name comparator |
| `AllCountries.NameLeTotalPreorder` | src/pages/AllCountries.tsx:56-58 | the name comparator is total and transitive |
| `AllCountries.NameLeTies` | src/pages/AllCountries.tsx:56-58 | two records tie under the name comparator exactly when their common names are equal |
| `AllCountries.BaseList` | src/pages/AllCountries.tsx:56-60 | the base list is a permutation of the fetched batch, ascending by common name |
| `AllCountries.FilterRegion` | src/pages/AllCountries.tsx:62-66 | the filtered list is no longer than its input and holds only records of the chosen region |
| `AllCountries.FilterRegionCounts` | src/pages/AllCountries.tsx:62-66 | every record of the chosen region is kept as often as it occurs, every other record is dropped |
| `AllCountries.FilterRegionConcat` | src/pages/AllCountries.tsx:63-65 | the filter distributes over concatenation, so kept records stay in their relative order |
| `AllCountries.FilterRegionSorted` | src/pages/AllCountries.tsx:56-66 | filtering a list ordered by any comparator leaves it ordered, so the filtered list stays name-ascending |
| `AllCountries.Filtered` | src/pages/AllCountries.tsx:62-69 | with both filters set the shown list is the region filter of the base list, otherwise the base list itself |
| `AllCountries.FetchedListing` | src/pages/AllCountries.tsx:56-69 | after a successful fetch with both filters set, the shown list holds exactly the fetched records of the chosen region, name-ascending, whatever the search text; with fewer filters, the whole batch name-ascending |
| `AllCountries.KeyLe` | src/pages/AllCountries.tsx:100-114 | the name column orders as the base list does, population compares numerically, and records with equal regions tie |
| `AllCountries.KeyLeTotalPreorder` | src/pages/AllCountries.tsx:100-114 | each column's comparison is total and transitive |
| `AllCountries.DisplayOrder` | src/pages/AllCountries.tsx:100-114 | each of the six display comparators (three columns, two orders) is a total preorder |
| `AllCountries.DisplaySort` | src/pages/AllCountries.tsx:100-114 | the display list is a permutation of its input, non-decreasing in the chosen column under asc and non-increasing under desc; population compares numerically, name and region as strings |
| `AllCountries.DescNotReversedOnTies` | src/pages/AllCountries.tsx:100-110 | two different records with equal population come out in input order under both `asc` and `desc`, so `desc` is not `asc` reversed |
| `AllCountries.Flip` | src/pages/AllCountries.tsx:119 | flipping the order always changes it |
| `AllCountries.UrlParams` | src/pages/AllCountries.tsx:91-97 | the written parameters hold `search` exactly when the search is non-empty and `region` exactly when the region is non-empty, with those values, and nothing else |
| `AllCountries.Seeded` | src/pages/AllCountries.tsx:83-89 | a present, non-empty parameter replaces the filter; an absent or empty one leaves it unchanged |
| `AllCountries.UrlRoundTrip` | src/pages/AllCountries.tsx:83-97 | seeding from the written parameters restores every non-empty filter and keeps the current value of an empty one |
| `AllCountries.UrlRoundTripFresh` | src/pages/AllCountries.tsx:83-97 | a fresh page seeded from a written URL reproduces both filters |
| `AllCountries.UnlistedRegionAccepted` | src/pages/AllCountries.tsx:85-88 | any non-empty region outside the six listed ones is taken from the URL as it is, whatever the current filter |
| `AllCountries.ListingController.constructor` | src/pages/AllCountries.tsx:22-32 | empty lists, loading, empty filters, grid view, sort by name ascending |
| `AllCountries.ListingController.SetSearchQuery` | src/pages/AllCountries.tsx:203 | typing sets the search text and nothing else |
| `AllCountries.ListingController.SetRegionFilter` | src/pages/AllCountries.tsx:220 | choosing a region sets the region filter and nothing else |
| `AllCountries.ListingController.SetViewMode` | src/pages/AllCountries.tsx:239-263 | the view buttons set the view mode and nothing else |
| `AllCountries.ListingController.FetchCountries` | src/pages/AllCountries.tsx:43-77 | asks the chosen endpoint; on success stores the name-sorted batch and the filtered list (only records of the region when both filters are set); on failure empties both lists; loading is false afterwards; filters and sort state unchanged |
| `AllCountries.ListingController.SeedFromUrl` | src/pages/AllCountries.tsx:83-89 | each filter becomes its non-empty URL parameter, or keeps its value |
| `AllCountries.ListingController.WriteUrl` | src/pages/AllCountries.tsx:91-97 | the URL parameters become exactly the non-empty filters |
| `AllCountries.ListingController.HandleSort` | src/pages/AllCountries.tsx:117-124 | the current column flips the order and keeps the column; another column becomes the sort column with ascending order |
| `AllCountries.ListingController.ClearFilters` | src/pages/AllCountries.tsx:339-344 | both filters become empty, the all-countries endpoint is selected and the clear button is hidden |
| `AllCountries.ListingController.ClearButtonShown` | src/pages/AllCountries.tsx:339 | the clear button is shown exactly when some filter is non-empty; when it is hidden, the all-countries endpoint is already the one in use |
| `AllCountries.ListingController.SortedCountries` | src/pages/AllCountries.tsx:100-114 | the rendered list is a permutation of the filtered list, ordered by the chosen column and order; the filtered list itself is only read |
| `Sorting.Insert` | src/pages/AllCountries.tsx:56-58 | inserting adds exactly the one element |
| `Sorting.SortBy` | src/pages/AllCountries.tsx:56-58 | sorting returns a permutation of its input |
| `Sorting.InsertSorted` | src/pages/AllCountries.tsx:56-58 | inserting into an ordered list keeps it ordered under a total preorder |
| `Sorting.SortBySorted` | src/pages/AllCountries.tsx:56-58 | the sort result is ordered under any total preorder comparator |
| `Sorting.SortByOfSorted` | src/pages/AllCountries.tsx:100-114 | an already ordered list is returned unchanged |
| `Sorting.SortByIdempotent` | src/pages/AllCountries.tsx:100-114 | sorting twice with the same comparator gives the same list as sorting once |
| `Sorting.StrLe` | src/pages/AllCountries.tsx:57 | stand-in for `localeCompare(..) <= 0` (see the `localeCompare` line under Left out): a prefix comes no later than the longer string, and a longer string never comes before its own proper prefix |
| `Sorting.StrLeReflexive` | src/pages/AllCountries.tsx:57 | every string compares as not after itself |
| `Sorting.StrLeTotal` | src/pages/AllCountries.tsx:57 | any two names are comparable under the string order |
| `Sorting.StrLeTransitive` | src/pages/AllCountries.tsx:57 | the string order is transitive |
| `Sorting.StrLeAntisymmetric` | src/pages/AllCountries.tsx:57 | two strings ordered both ways are equal |
| `Countries.ErrorText` | src/pages/CountryDetails.tsx:306-308 | a caught Error reports its message, any other thrown value "An unknown error occurred" |
| `Text.Join` | src/pages/Homepage.tsx:64-66 | joining nothing gives the empty string; otherwise the result starts with the first part and has the parts' total length plus one separator between each two |
| `Text.JoinSnoc` | src/pages/CountryDetails.tsx:563-568 | joining one more part appends the separator and that part, so parts appear in list order |
| `Text.Split` | src/pages/Homepage.tsx:64-66 | splitting gives one more piece than separators in the input, none holding the separator |
| `Text.SplitJoin` | src/pages/Homepage.tsx:64-66 | a non-empty list of separator-free parts, joined and split again, gives the parts back in order |
| `Store.FavoritesStore.Field` | src/pages/CountryDetails.tsx:231-233 | the stored field is present exactly when the user has a document with the field |
| `Store.FavoritesStore.Favorites` | src/pages/CountryDetails.tsx:247-249 | the stored list, empty when the document or the field is missing |
| `Store.FavoritesStore.Update` | src/pages/CountryDetails.tsx:257-259 | the write succeeds exactly when it gets through and the user's document exists, and then replaces only that user's field |
| `CountryDetails.MissingCode` | src/pages/CountryDetails.tsx:269 | the code counts as missing exactly when the route parameter is absent or empty |
| `CountryDetails.HasBorders` | src/pages/CountryDetails.tsx:286 | the border request is due exactly when the border list is present and not empty |
| `CountryDetails.BorderLinks` | src/pages/CountryDetails.tsx:295-298 | one link per returned record, same length and order, each with the record's common name and code |
| `CountryDetails.IsFavoriteIn` | src/pages/CountryDetails.tsx:233 | favourite exactly when the stored field exists and contains the route code; a missing document or field gives false |
| `CountryDetails.RemoveAll` | src/pages/CountryDetails.tsx:252 | removal leaves no occurrence of the code and never lengthens the list |
| `CountryDetails.RemoveAllCounts` | src/pages/CountryDetails.tsx:252 | every other code keeps its number of occurrences |
| `CountryDetails.RemoveAllConcat` | src/pages/CountryDetails.tsx:252 | removal distributes over concatenation, so the other codes keep their order |
| `CountryDetails.RemoveAllAbsent` | src/pages/CountryDetails.tsx:252 | a list without the code is left unchanged |
| `CountryDetails.Toggled` | src/pages/CountryDetails.tsx:251-255 | with the flag set the written list holds no occurrence of the code; without it, the old list followed by the code |
| `CountryDetails.ToggleFlipsMembership` | src/pages/CountryDetails.tsx:251-255 | when the flag matches the list, a toggle flips whether the list holds the code |
| `CountryDetails.AddThenRemove` | src/pages/CountryDetails.tsx:251-255 | adding a missing code and then removing it gives the original list back |
| `CountryDetails.RemoveThenAdd` | src/pages/CountryDetails.tsx:251-255 | removing and adding again moves the code to the end and keeps the other codes in order |
| `CountryDetails.StaleFlagDuplicates` | src/pages/CountryDetails.tsx:251-255 | with a stale flag, a code already stored is appended a second time |
| `CountryDetails.ToggleExample` | src/pages/CountryDetails.tsx:251-255 | toggling "FRA" on ["FRA", "DEU"] gives ["DEU"], and again gives ["DEU", "FRA"] |
| `CountryDetails.CapitalLabel` | src/pages/CountryDetails.tsx:499 | the first capital when there is a non-empty one, "N/A" otherwise; never blank |
| `CountryDetails.CurrencyTag` | src/pages/CountryDetails.tsx:566 | the symbol, or the currency code when the symbol is empty; blank only when both are |
| `CountryDetails.CurrencyLabel` | src/pages/CountryDetails.tsx:565-566 | the label is the currency's name, then " (", then its tag, then ")", and nothing more |
| `CountryDetails.CurrencyLabels` | src/pages/CountryDetails.tsx:563-567 | one label per currency entry, in entry order |
| `CountryDetails.CurrenciesLabel` | src/pages/CountryDetails.tsx:562-569 | "N/A" without a currencies object, the empty string for an empty one, a single entry's label for one entry |
| `CountryDetails.CurrenciesLabelSnoc` | src/pages/CountryDetails.tsx:562-569 | each further entry appends ", " and its label, so labels appear in entry order |
| `CountryDetails.LanguagesLabel` | src/pages/CountryDetails.tsx:548-550 | "N/A" without a languages object, the empty string for an empty one; otherwise the line starts with the first language, and is it for a single one |
| `CountryDetails.LanguagesLabelSnoc` | src/pages/CountryDetails.tsx:548-550 | each further language appends ", " and its name, so every name appears, in entry order |
| `CountryDetails.DetailController.constructor` | src/pages/CountryDetails.tsx:215-222 | no country, loading, no border links, no error, not a favourite |
| `CountryDetails.DetailController.Screen` | src/pages/CountryDetails.tsx:316-377 | loading screen while loading; otherwise the single "Country not found" screen for a non-empty error message or no country; the details screen exactly when loaded with a country and no error or an empty message |
| `CountryDetails.DetailController.FetchCountry` | src/pages/CountryDetails.tsx:268-311 | no code or an empty one: "No country code provided" without any call; a thrown error: its message; a null or nameless record: "Invalid country data received" with the country left unset; a record: stored, and border codes requested only when the list is non-empty, a returned array mapped to links, a non-array ignored, a thrown error reported; loading false on every path; a non-empty error shows the not-found screen, a stored country with no error or an empty message the details screen |
| `CountryDetails.DetailController.CheckFavorite` | src/pages/CountryDetails.tsx:227-237 | no user or a failed read: the flag is unchanged; otherwise it says whether the stored list holds the code |
| `CountryDetails.DetailController.ToggleFavorite` | src/pages/CountryDetails.tsx:242-265 | no user or a failed read: nothing changes; otherwise the list read is rewritten with the code removed everywhere (flag set) or appended (flag clear), and the flag flips exactly when the write succeeded |
| `CountryDetails.DetailController.Navigate` | src/pages/CountryDetails.tsx:635-637 | a route change to another code on the mounted page sets only the code; the screen and all earlier state stay as they were |
| `Homepage.TakeFeatured` | src/pages/Homepage.tsx:36-38 | a prefix of the shuffled batch of length six, or the whole batch when it is shorter |
| `Homepage.FeaturedFromBatch` | src/pages/Homepage.tsx:36-40 | for any shuffle, at most six featured entries, exactly six when the batch has six or more, each drawn from the batch no more often than it occurs there |
| `Homepage.FavoritesUrl` | src/pages/Homepage.tsx:63-67 | the request is the alpha endpoint followed by the codes joined by ","; for comma-free codes the query reads back as exactly the stored codes in stored order |
| `Homepage.HomeController.constructor` | src/pages/Homepage.tsx:22-24 | no featured or favourite countries, loading |
| `Homepage.HomeController.FetchFeatured` | src/pages/Homepage.tsx:29-46 | an OK answer sets at most six featured countries taken from the shuffled batch; a non-OK answer or an exception keeps the previous list; loading false either way |
| `Homepage.HomeController.FetchFavorites` | src/pages/Homepage.tsx:52-77 | no user: the list is emptied and the store not read; otherwise the request is made exactly when the read succeeds and the stored list is non-empty, and only an OK answer replaces the list |
| `Homepage.HomeController.FavoritesShown` | src/pages/Homepage.tsx:121 | the favourites section is rendered exactly when there is a user and the favourites list is non-empty |

## Left out

- Rendering: all JSX, icons and styling, the grid/list markup, the "no countries found" panel, and the flag, coat-of-arms and map links.
- `Header.tsx`, `Footer.tsx`, `App.tsx` and `utils/theme.ts`: presentational chrome, route wiring and constants.
- The countries API module (src/api/country) is not part of this model; its calls are oracle parameters. Document-store semantics beyond "a field per user document, updates need an existing document" are not modelled.
- Asynchrony: concurrent effects, late responses, the lost-update race of the favourites read-modify-write, and the React effect-dependency feedback between the two URL effects. Each handler is one atomic step, so the `loading = true` at the start of `fetchCountries` is not observable in the model.
- `localeCompare` is replaced by lexicographic order by code point (Unicode scalar value), which differs from locale collation; every sorting lemma is stated for an arbitrary total preorder. `Intl.NumberFormat` (population and area display) is left out.
- `Array.prototype.sort` sorts the fetched array in place; the model sorts a value, as nothing else holds a reference to that array.
- `Math.random`: the shuffle is an arbitrary permutation of the batch.
- URL percent-encoding and parsing: query parameters are a key-to-value map.
- Country-code syntax: codes are opaque strings.
- Malformed records: a listing or border record without `name.common` makes the sort or the border mapping throw in the code; the model's records always carry a name.
- The currency symbol is a string in which empty stands for both an empty and an absent symbol.
