# Product search demo: a verified model

This project models the core of a small product-search backend:

- The mock search endpoint `GET /api/products/search` (`backend/server.py`). It builds a
  `filters` dict from the optional request parameters and scans the in-memory catalog
  `MOCK_PRODUCTS` with one `continue` guard per filter. The survivors are then sorted by rating
  (descending) and name (ascending).
- The search-engine-backed `ProductService` (`backend/api/products.py`), in three parts:
  - the structured query body sent for a search: one `must` clause, the ordered `filter`
    clauses, a fixed sort and page size 100;
  - the extraction of the results from the response hits;
  - the read-through cache of `get_product`.
- The user helpers (`backend/api/users.py`): `get_user_batch` splits a list into consecutive
  slices, and `calculate_user_score` computes a weighted engagement score.

Modules:

- `Values`: `Option`, the dynamic values of a JSON-like record, and Python truthiness.
- `Text`: ASCII lower-casing, substring search, Python's code-point order on `str`, and the
  decimal rendering of integers.
- `Catalog`: the product, the price range and the result order.
- `MockSearch`: the endpoint.
- `MockSearchExamples`: its behaviour on the demo catalog.
- `ProductsApi`: the service.
- `SearchAgreement`: the claim that the mock scan simulates the search-engine path.
- `UsersApi`: the user helpers.

Modelling choices:

- Prices and ratings are exact `real`s. The search code only compares them.
- Stock is an unbounded `int`.
- Dicts with optional keys become datatypes with `Option` fields.
- `results.sort` becomes an in-place insertion sort on an array. It is proved sorted and a
  permutation of its input.
- The cache and the products table of `ProductService` are `map` fields of a class. A ghost log
  records the database lookups.
- Where the code raises (`range` with a step of 0, a missing key or a non-numeric count in the
  score), the model returns `None`.

The model follows the code as written:

- The mock scan applies every filter value as given, with no validation step, and returns every survivor.
- A price range with `min > max` silently gives an empty result.
- For availability `true`, the mock scan rejects only a stock of exactly 0. For `false`, it
  rejects only a positive stock. Its tests therefore agree with the search-engine clauses
  (`gt 0` and `term 0`) only on non-negative stock; `SearchAgreement.NegativeStockDiverges`
  shows where they part.

## Model

| member | source | states |
|---|---|---|
| MockSearch.BuildFilters | backend/server.py:58-70 | `category` present exactly for a non-empty category; `availability` present exactly for a non-empty string, true iff it lower-cases to `"true"`; `price_range` present iff a bound is given, holding exactly the given bounds; `rating` present iff `min_rating` is given (0 included) |
| MockSearch.ScanCatalog | backend/server.py:73-107 | the scan loop returns exactly the catalog products, in catalog order, that pass the text test and every active structural test |
| MockSearch.SurvivorsCount | backend/server.py:73-107 | soundness and completeness with multiplicities: a matching product survives as often as it occurs in the catalog, a non-matching one never |
| MockSearch.SurvivorsAreMatchingProducts | backend/server.py:73-107 | the survivors are no more than the catalog, and a product is among them iff it is a catalog product that matches |
| MockSearch.SortByRank | backend/server.py:110 | after the sort every earlier product has a higher rating, or an equal rating and a name not after the later one in code-point order; the contents are a permutation of the input |
| MockSearch.MatchesIffAdmits | backend/server.py:58-107 | the scan with the filters built from a request tests exactly what the request parameters ask for |
| MockSearch.SearchProducts | backend/server.py:44-112 | the response is ranked and is a permutation of the catalog products the request admits (case-insensitive substring of name or description, category, availability, inclusive price bounds, minimum rating); it is no longer than the catalog |
| MockSearch.SearchMockProducts | backend/server.py:25-112 | the same over `MOCK_PRODUCTS` |
| MockSearch.InvertedPriceRangeIsEmpty | backend/server.py:97-100 | with both bounds and `min > max` the result is empty |
| MockSearch.PointPriceRange | backend/server.py:97-100 | with `min == max` every result is priced at that bound |
| MockSearchExamples.CategoryRequestAdmits | backend/server.py:82-84 | a category-only request admits exactly the products of that category |
| MockSearchExamples.ElectronicsExample | backend/server.py:25-34 | category "Electronics" on the demo catalog gives exactly [Smartphone, Wireless Headphones] |
| MockSearchExamples.UnfilteredTieExample | backend/server.py:110 | with no filters Smartphone comes before Stand Mixer on their 4.7 tie |
| MockSearchExamples.OutrankedComesLater | backend/server.py:110 | in a ranked list a product that strictly outranks another comes first |
| MockSearchExamples.OutOfStockRequestAdmits | backend/server.py:87-92 | availability "false" admits exactly the products whose stock is not positive |
| MockSearchExamples.OutOfStockExample | backend/server.py:87-92 | availability "false" on the demo catalog gives exactly [Cotton T-Shirt] |
| Catalog.RankLeTotal | backend/server.py:110 | any two products are ordered one way or the other by the sort key |
| Catalog.RankLeTransitive | backend/server.py:110 | the sort-key order is transitive |
| Catalog.RankLeAntisymmetric | backend/server.py:110 | two products tie on the sort key only when rating and name agree |
| Catalog.AdjacentSortedIsSorted | backend/server.py:110 | a list ordered pair by neighbouring pair is ordered pair by pair |
| Text.Lower | backend/server.py:77-78 | `.lower()` keeps the length and lower-cases each ASCII letter in place |
| Text.ContainsIffOccurs | backend/server.py:78 | `t in s` holds exactly when `t` occurs in `s` at some index |
| Text.LexLeReflexive | backend/server.py:110 | every name is ordered before or equal to itself |
| Text.LexLeTotal | backend/server.py:110 | code-point order on names is total |
| Text.LexLeAntisymmetric | backend/server.py:110 | names ordered both ways are equal |
| Text.LexLeTransitive | backend/server.py:110 | code-point order on names is transitive |
| Text.PrefixIsLexLe | backend/server.py:110 | a prefix of a name comes before it |
| Text.NatToString | backend/api/products.py:16 | the rendering of a natural number is a non-empty string of digits |
| Text.ParseNatToString | backend/api/products.py:16 | reading the digits of the rendering back gives the number |
| Text.IntToStringSign | backend/api/products.py:16 | the rendering starts with a minus sign exactly for negative numbers |
| Text.IntToStringInjective | backend/api/products.py:16 | distinct integers render differently |
| ProductsApi.BuildSearchBody | backend/api/products.py:55-122 | exactly one `must` clause: `multi_match` on `name^2` and `description`, `best_fields`, fuzziness `AUTO` for a non-empty query, otherwise `match_all`; the filter clauses are those of the active filters in source order; the sort is rating desc, `name.keyword` asc, and the size is 100 |
| ProductsApi.PriceBoundsClause | backend/api/products.py:75-81 | the bounds dict built key by key gives the one price clause, or none when it is empty |
| ProductsApi.PriceClauseBounds | backend/api/products.py:73-81 | at most one price clause; one exactly when a bound is given; it is a `range` on `price` whose keys are `gte` for min and `lte` for max, holding those bounds |
| ProductsApi.ClauseCount | backend/api/products.py:72-107 | the number of filter clauses equals the number of active filters |
| ProductsApi.ClausesInFixedOrder | backend/api/products.py:72-107 | the clauses come in the order price, category, availability, rating |
| ProductsApi.ClauseTopics | backend/api/products.py:72-107 | a clause on each of price, category, availability and rating occurs exactly when that filter is active |
| ProductsApi.PriceClausesMeaning | backend/api/products.py:73-81 | a product passes the price clause exactly when its price lies within the given inclusive bounds |
| ProductsApi.OtherClausesMeaning | backend/api/products.py:84-107 | `term` category means equal, `terms` means any of the list; availability true means stock > 0, false means stock == 0; rating means at least the threshold |
| ProductsApi.FilterClausesMeaning | backend/api/products.py:72-107 | a product passes every filter clause exactly when it satisfies the documented filters |
| ProductsApi.ExtractHits | backend/api/products.py:131-135 | one result per hit in hit order; each is the hit's `_source` with `id` set to `_id` and every other key unchanged |
| ProductsApi.CacheKeyInjective | backend/api/products.py:16 | distinct product ids never share a cache key |
| ProductsApi.ProductService.constructor | backend/api/products.py:10-12 | the service starts with the given products table and cache |
| ProductsApi.ProductService.GetProduct | backend/api/products.py:14-29 | on a hit (a non-empty cached record) returns it with the cache unchanged and no database lookup; on a miss looks the id up once, caches a found non-empty row under `product:<id>`, and leaves the cache unchanged otherwise; a cache that mirrors the table stays so, and the answer is then the table's row |
| ProductsApi.LookupTwice | backend/api/products.py:14-29 | two lookups in a row agree; when the first found a non-empty product, the query log grows by at most the first lookup's one query (none on a cache hit), so the second makes no database lookup; the products table is unchanged |
| SearchAgreement.ScanAgreesWithQuery | backend/server.py:72-107 | for non-negative stock the mock scan's structural tests pass exactly when every filter clause built for the same filters (scalar category) holds |
| SearchAgreement.RequestAgreesWithQuery | backend/server.py:56 | with an empty query, a request admits a product of non-negative stock exactly when the query body built from its filters does |
| SearchAgreement.NegativeStockDiverges | backend/server.py:89 | for negative stock, availability `true` keeps the product in the scan but fails the `gt 0` clause |
| UsersApi.GetUserBatch | backend/api/users.py:6-13 | a step of 0 is an error, a negative step gives no batches; otherwise the batches concatenate to the input, there are ceil(len/size) of them, batch k is the slice at offset k·size, every batch but the last is full and the last holds 1 to size users |
| UsersApi.CeilDiv | backend/api/users.py:11 | `(n + b - 1) / b` is the number of slices of `b` needed to cover `n` |
| UsersApi.BatchingDone | backend/api/users.py:10-13 | the finished loop state is a partition of the input into the slices |
| UsersApi.LastBatch | backend/api/users.py:11-12 | every slice but the last is full and the last is non-empty |
| UsersApi.GetUserBatchDefault | backend/api/users.py:6-13 | without a batch size, the users are cut into consecutive slices of the default 10 |
| UsersApi.CalculateUserScore | backend/api/users.py:16-30 | fails exactly when a key is missing or a count is not a number; otherwise 5·logins + 10·posts + 2·comments, times 3/2 for a truthy `premium` |

## Left out

- The FastAPI application, CORS middleware, the root HTML route and uvicorn start-up: framework wiring with nothing to state.
- The search-engine call, its relevance scoring and fuzzy `multi_match`: the query is modelled as data with a filter-clause semantics, and the query text is not evaluated by the engine side.
- The engine's result order: `sort` is checked as data (`rating` desc, `name.keyword` asc) but the engine's sorting is not modelled.
- Cache TTL (`ttl=3600`), `async`/`await` and the real database and cache clients: the collaborators are reduced to maps.
- ProductsApi.ExtractHits: builds a fresh record per hit; the Python loop mutates the `_source` dict of the response in place, and that aliasing is not modelled.
- `apply_discount`: floating-point arithmetic, outside the modelled core.
- `fetch_user_data`: database I/O.
- `frontend/components/UserList.tsx`: the React UI is not part of this model.
- Text.Lower: lower-cases ASCII letters only, not Python's full Unicode case mapping.
- UsersApi.CalculateUserScore: exact real arithmetic; the float rounding of `* 1.5`, NaN and infinities are not modelled, and counts are numbers or booleans only.
- MockSearch.SortByRank: states sortedness and permutation but not the stability of Python's sort (equal keys keeping their scan order).
- MockSearch.SearchProducts: for the same reason leaves open the relative order of results tied on both rating and name.
- The mock examples stop at category and availability requests: evaluating the text query on the demo strings is left out.
