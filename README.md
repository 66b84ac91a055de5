# Price comparison search — a verified model

This project models the core of a demo price-comparison application.

**Backend.** A `POST /api/search/` endpoint answers a product query with price records from three shops: amazon.com, bestbuy.com and walmart.com.
- A query that matches a key of a fixed, ordered product table gets that entry's records, flattened shop by shop and numbered from 1.
- Any other query gets six generated records: two per shop, with category-based prices, shop-specific name suffixes and URLs built from a slug of the query.
- The endpoint sorts the records by price and wraps them in a completed response.

**Web client.** The search form's submission handler is a state machine over:
- the query box;
- the "searching" flag;
- the shown response;
- the notifications, kept by id.

The model also covers the render-time guards of the submit button and of a product card (price, confidence badge, link).

Files:
- `wrappers.dfy`: `Option`.
- `text.dfy`: the string built-ins the source relies on:
  - Python `lower`, `strip`, `split`, `in` and `replace`;
  - JavaScript `trim`;
  - decimal rendering of integers.
- `models.dfy`: the request, product and response records.
- `catalog.dfy`: the product table.
- `price_sort.dfy`: the stable sort by price.
- `mock_search.dfy`: table lookup, flattening, generation and the endpoint.
- `search_client.dfy`: the submission handler and the render guards.
- `end_to_end.dfy`: what the client shows for the backend's responses.

Modelling choices:
- **Randomness.** Each generated record consumes one `Draw`. A draw holds the values the random calls returned, and `ValidDraw` bounds them to what those calls can return.
- **Time.** Timestamps and the measured search time are parameters.
- **Prices** are integer cents.
- **The network.** The outcome of the request is the parameter `FetchOutcome`: a transport error, or a status with a body that parsed or did not.

## Model

| member | source | states |
|---|---|---|
| Text.Lower | backend/simple_main.py:237 | `query.lower()`: same length; each capital A-Z becomes its small letter, every other character is kept |
| Text.LowerNoCapitals | backend/simple_main.py:237 | `lower()` leaves a string without capitals unchanged |
| Text.Strip | backend/simple_main.py:237 | `strip()` / `trim()`: the input minus a whitespace prefix and suffix; the result neither starts nor ends with whitespace; it is empty exactly when the input is all whitespace (Python and JavaScript whitespace sets) |
| Text.StripUnpadded | backend/simple_main.py:237 | `strip()` leaves a non-empty string unchanged when it neither starts nor ends with whitespace |
| Text.ContainsIsOccurs | backend/simple_main.py:242 | `p in s` holds exactly when `p` occurs in `s` at some position |
| Text.Split | backend/simple_main.py:242 | `key.split()` yields non-empty words free of whitespace |
| Text.SplitFromWordsOccur | backend/simple_main.py:242 | every word the left-to-right scan of `split()` yields occurs in the text it has read |
| Text.SplitWordsOccur | backend/simple_main.py:242 | every word of `key.split()` occurs in the key |
| Text.SplitFirstWord | backend/simple_main.py:242 | a word followed by whitespace or the end of the text is the first word of `split()`, the rest split on |
| Text.SplitSkipsSpace | backend/simple_main.py:242 | `split()` ignores leading whitespace |
| Text.SplitWordSpace | backend/simple_main.py:242 | splitting `w + " " + rest` gives `w` followed by the words of `rest` |
| Text.ReplaceChar | backend/simple_main.py:213 | `replace`: the replaced character is gone when the replacement lacks it; every other character survives; nothing new appears |
| Text.ReplaceCharAppend | backend/simple_main.py:213 | `replace` distributes over concatenation |
| Text.NatToString | frontend-vite/src/App.tsx:67 | a number renders as a non-empty digit string without a leading zero |
| Text.ParseNatToString | frontend-vite/src/App.tsx:67 | reading back a rendered number gives the number |
| Text.IntToString | frontend-vite/src/App.tsx:67 | the rendering starts with "-" exactly for negative numbers; the rest is a digit string that reads back as the magnitude, and a non-negative number reads back from the whole rendering |
| PriceSort.AppendSorted | backend/simple_main.py:311 | appending a record whose price key bounds every key keeps the list sorted |
| PriceSort.InsertByPrice | backend/simple_main.py:311 | inserting into a price-sorted list keeps it sorted and adds exactly the one record |
| PriceSort.SortByPrice | backend/simple_main.py:311 | `sort(key=price or 0)`: the result is nondecreasing by price (missing price as 0) and a permutation of the input |
| PriceSort.SortByPriceStable | backend/simple_main.py:311 | the sort is stable: the records sharing a price key keep their relative order |
| MockSearch.AnyWordContained | backend/simple_main.py:242 | `any(word in query_lower ...)` holds exactly when some word is contained |
| MockSearch.KeyMatchesIsOccurs | backend/simple_main.py:242 | a key matches exactly when the key, or one of its words, is a substring of the query |
| MockSearch.FirstMatch | backend/simple_main.py:240-244 | the chosen entry is the first key in table order that is in the query or has a word in it; none exactly when no key matches |
| MockSearch.FindEntry | backend/simple_main.py:240-244 | the key loop with `break` returns that first match |
| MockSearch.WholeKeyTestRedundant | backend/simple_main.py:242 | for a key with at least one word, the key matches exactly when one of its words is in the query |
| MockSearch.AirpodsProSelectsIphone | backend/simple_main.py:237-244 | the query "airpods pro" selects the "iphone 15 pro" entry (through the word "pro"), not the "airpods pro" entry listed later |
| MockSearch.ListingOrder | backend/simple_main.py:250-251 | item `t` of shop `s` sits at position (items of the earlier shops) + `t` of the flattened list |
| MockSearch.ListingLength | backend/simple_main.py:250-251 | the flattened list holds every item of every shop |
| MockSearch.MockConfidence | backend/simple_main.py:260 | a matched record's confidence lies in [0.88, 0.98] |
| MockSearch.MockProduct | backend/simple_main.py:252-261 | a matched record takes the item's name, price and URL and the shop as site; its id is the counter; USD; no image; the timestamp; a confidence in [0.88, 0.98] |
| MockSearch.FlattenEntry | backend/simple_main.py:248-264 | the nested loop with its id counter returns the shop-by-shop listing numbered 1, 2, ... |
| MockSearch.MatchedProductAt | backend/simple_main.py:250-263 | a matched record copies name, price and URL from its item and takes its shop as site; its id is its 1-based position; currency USD; confidence at least 0.88 |
| MockSearch.DatabaseUniform | backend/simple_main.py:66-137 | every table entry lists the three shops in order, two items each, each item with a positive price and a URL |
| MockSearch.FirstCategory | backend/simple_main.py:169-172 | the chosen category is the first, in listed order, whose name is in the lower-cased query; none exactly when none is |
| MockSearch.ChooseRange | backend/simple_main.py:168-172 | the loop starting from the default range and breaking at the first hit returns that category's range, else the default |
| MockSearch.CategoryRangeBounds | backend/simple_main.py:148-172 | every range the choice can give starts at 5 or more and is not empty |
| MockSearch.GeneratedPriceWithin | backend/simple_main.py:185-189 | a generated price lies between the range start times the shop factor times 0.9 and the range end times the shop factor times 1.1, each rounded to cents |
| MockSearch.GeneratedPricePositive | backend/simple_main.py:185-189 | a generated price in such a range is at least 4.28 |
| MockSearch.Slug | backend/simple_main.py:213 | the URL slug contains no space and no "&" |
| MockSearch.SlugIsByChar | backend/simple_main.py:213 | the slug maps each character independently: space to "-", "&" to "and", letters lower-cased |
| MockSearch.SiteSuffixOf | backend/simple_main.py:204-210 | each supported shop appends its fixed suffix to the name |
| MockSearch.GeneratedNameShape | backend/simple_main.py:197-202 | a generated name starts with the stripped query and ends with the drawn colour |
| MockSearch.ShopNamesDiffer | backend/simple_main.py:183-202 | the first and second record of a shop are named differently, whatever values each of them drew |
| MockSearch.GeneratedNameFacts | backend/simple_main.py:197-210 | a generated name starts with the stripped query and ends with the shop's suffix |
| MockSearch.GeneratedUrlShape | backend/simple_main.py:213-218 | three candidate URLs: amazon `/dp/B`, then "0" or "1", then six digits; bestbuy `/site/<slug>/`, seven digits, then ".p"; walmart `/ip/<slug>/`, then nine digits |
| MockSearch.GeneratedUrlFacts | backend/simple_main.py:214-217 | the bestbuy and walmart URLs contain the slug |
| MockSearch.GeneratedProductFacts | backend/simple_main.py:220-229 | a generated record carries its id and shop, currency USD, the name facts, a non-empty URL and a confidence in [0.85, 0.98] |
| MockSearch.GeneratedPrefixAt | backend/simple_main.py:181-231 | record `k` of the output is record `k % 2` of shop `k / 2`, with id `k + 1` |
| MockSearch.GenerateRealisticProducts | backend/simple_main.py:139-233 | the category loop and the nested shop/record loops with the id counter build exactly the generated list |
| MockSearch.GeneratedShape | backend/simple_main.py:181-231 | six records, ids 1 to 6, two per shop in shop order, each complete, the bestbuy and walmart URLs holding the slug |
| MockSearch.GeneratedListShape | backend/simple_main.py:139-233 | the generated list is six complete records, ids 1 to 6, two per shop in shop order |
| MockSearch.CreateMockProducts | backend/simple_main.py:235-267 | the matched entry flattened, or (no match) exactly the generated list: the table is not consulted further |
| MockSearch.UniformEntryShape | backend/simple_main.py:246-264 | flattening an entry with three shops of two items gives six complete records, ids 1 to 6, two per shop in shop order |
| MockSearch.UniformTableShape | backend/simple_main.py:235-267 | over such a table, matched or not, the result has that same shape |
| MockSearch.MockProductsShape | backend/simple_main.py:235-267 | every query against the product table yields six complete records, ids 1 to 6, two per shop in shop order |
| MockSearch.SortKeepsComplete | backend/simple_main.py:311 | sorting keeps the number of records and keeps each one complete |
| MockSearch.SortedRecordsComplete | backend/simple_main.py:308-311 | the sorted results of every query are six complete records |
| MockSearch.SearchProducts | backend/simple_main.py:294-325 | the results are the mock records sorted by price (sorted, and a permutation of them); the response is completed, echoes the query, has `total_found == fresh_results == len(results) == 6`, zero cached results, the three shops, the elapsed time, no error message, and only complete records |
| SearchClient.OptionalNumberText | frontend-vite/src/App.tsx:67 | a present number renders as digits (after a "-" when negative) that read back as the number; an absent one renders as "undefined" |
| SearchClient.FailureMessage | frontend-vite/src/App.tsx:71 | the error message when present and non-empty, else "Search failed"; never empty |
| SearchClient.SuccessMessage | frontend-vite/src/App.tsx:67 | the success text starts with "Found ", ends with "ms", and is exactly as long as its fixed words and the two rendered numbers |
| SearchClient.SuccessMessageReports | frontend-vite/src/App.tsx:66-69 | the success text contains `total_found` and `search_time_ms`, each at its fixed position |
| SearchClient.TerminalToast | frontend-vite/src/App.tsx:58-76 | success exactly for an ok, parsed, "completed" response, with the text "Found <total_found> products in <search_time_ms>ms" of that response; the backend-down text for every transport error, non-ok status or unparsable body; the response's failure text for "failed"; no new notification for any other status; never an empty or loading one |
| SearchClient.SubmitDisabled | frontend-vite/src/App.tsx:196 | the button is disabled exactly while searching or when the query is all whitespace |
| SearchClient.FormatPrice | frontend-vite/src/App.tsx:82-88 | "Price not available" exactly for an absent price; otherwise the amount in the given currency, USD by default |
| SearchClient.ShowsConfidence | frontend-vite/src/App.tsx:265 | the confidence badge needs a confidence; a zero confidence hides it; a positive one shows it |
| SearchClient.PriceCellOf | frontend-vite/src/App.tsx:277-286 | a card shows "Price not extracted" exactly for an absent or zero price; a shown price is the record's amount and currency, never "Price not available" |
| SearchClient.ShowsLink | frontend-vite/src/App.tsx:289 | the shop link needs a URL; an empty URL hides it; a non-empty one shows it |
| SearchClient.App.constructor | frontend-vite/src/App.tsx:32-34 | empty query, not searching, no response, no notifications |
| SearchClient.App.SetQuery | frontend-vite/src/App.tsx:187 | typing replaces the query and changes nothing else |
| SearchClient.App.BeginSearch | frontend-vite/src/App.tsx:38-55 | a blank query returns with nothing sent and nothing changed; otherwise searching is set, the response cleared, the loading notification raised under "search", the button disabled, and the request is the trimmed query with 3 results per site and the cache on |
| SearchClient.App.FinishSearch | frontend-vite/src/App.tsx:58-79 | the response is shown only when delivered; the notification under "search" is replaced by the terminal one; searching ends false on every path |
| SearchClient.App.HandleSearch | frontend-vite/src/App.tsx:36-80 | a blank query changes nothing; otherwise searching ends false, the shown response is the delivered one or none, only the "search" notification is touched, and it stays the loading one exactly when no terminal one was raised; the button is enabled again |
| EndToEnd.CardsOfCompleteRecords | frontend-vite/src/App.tsx:265-289 | every card of a backend response shows a formatted price, the confidence badge and the shop link |
| EndToEnd.CompletedSearchToast | frontend-vite/src/App.tsx:65-69 | a completed six-record response raises "Found 6 products in <time>ms" |

## Left out

- Framework plumbing is not modelled: the FastAPI app, CORS, the server start-up, logging, and the constant endpoints `/`, `/health` and `/api/sites`.
- `asyncio.sleep`, `datetime.utcnow()` and the measured `search_time_ms` are not modelled. The timestamp and the elapsed milliseconds are parameters (`now`, `elapsedMs`).
  - Every record of one response takes the same `now`. The backend calls `utcnow()` once per record, so its timestamps can differ slightly between records.
- Distributions of `random.uniform`, `random.choice` and `random.randint` are not modelled. Each generated record takes a supplied `Draw`, and only the ranges of the returned values are modelled.
- Floating point is not modelled. Prices are integer cents and the arithmetic is on exact reals.
  - `round(x, 2)` is modelled as half-up rounding. Python rounds the binary float and can differ by a cent.
  - The generated confidence is the drawn value, without its `round(..., 2)`.
  - The matched confidence `0.88 + (id * 0.02) % 0.12` is computed exactly as `0.88 + 0.02 * (id % 6)`.
- The badge's `Math.round(confidence * 100)` text is not modelled.
- `lower()` is modelled for ASCII letters only, with no other Unicode case mapping.
- `max_results_per_site` and `use_cache` are carried in the request, but the backend never reads them, so the model does not either.
  - Their backend defaults (3 and `true`) are not modelled. The client always sends both fields, with those same values.
- The `except` branch of `search_products` (HTTP 500) is not modelled. No modelled operation can fail, so the branch is unreachable in the model.
- `list.sort` is modelled on values (`SortByPrice` on a sequence). Reordering the list in place is not captured.
- `fetch`, `response.json()`, `console.error` and the notification library are not modelled. They become the `FetchOutcome` parameter and a map from notification id to notification. A body is either a parsed `SearchResponse` or unparsable; JSON of another shape is not modelled.
- Numbers are rendered in decimal, as JavaScript does for magnitudes below 10^21. JavaScript renders larger numbers in exponent form ("1e+21"), and JSON numbers are doubles; neither is modelled.
- The notifications' 4-second display time is not modelled: a notification stays in the map until it is replaced. So "the loading notification is shown" holds in the browser only until it times out.
- The JSON value `null` is not modelled. An absent `search_time_ms` renders as "undefined"; a JSON `null` would render as "null".
- `Intl.NumberFormat` is not modelled. A formatted price is kept as its amount and currency.
- Overlapping searches are not modelled. A submission is one `BeginSearch` followed by one `FinishSearch`.
- The disabled state of the input box while searching is not modelled. `SetQuery` may be called at any time.
- JSX layout, styling, tabs and the results header are not modelled.
