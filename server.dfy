/** The mock product search endpoint: filter construction from request parameters,
    a linear scan over the in-memory catalog and the two-key sort. */
module MockSearch {
  import opened Values
  import opened Text
  import opened Catalog

  /** The query parameters of `GET /api/products/search`. The string parameters default to "". */
  datatype Request = Request(
    query: string,
    category: string,
    availability: string,
    minPrice: Option<real>,
    maxPrice: Option<real>,
    minRating: Option<real>)

  /** The `filters` dict; a key that is absent is `None`. */
  datatype SearchFilters = SearchFilters(
    category: Option<string>,
    availability: Option<bool>,
    priceRange: Option<PriceRange>,
    rating: Option<real>)

  const Headphones := Product(1, "Wireless Headphones", "Premium noise-cancelling headphones", 199.99, "Electronics", 15, 4.5)
  const PythonBook := Product(2, "Python Programming Book", "Learn Python from scratch", 49.99, "Books", 8, 4.8)
  const TShirt := Product(3, "Cotton T-Shirt", "Comfortable everyday t-shirt", 24.99, "Clothing", 0, 4.2)
  const CoffeeMaker := Product(4, "Coffee Maker", "Programmable coffee maker", 89.99, "Home", 12, 4.6)
  const Smartphone := Product(5, "Smartphone", "Latest model smartphone", 699.99, "Electronics", 5, 4.7)
  const JavaScriptGuide := Product(6, "JavaScript Guide", "Complete guide to modern JavaScript", 39.99, "Books", 20, 4.9)
  const RunningShoes := Product(7, "Running Shoes", "Lightweight running shoes", 129.99, "Clothing", 7, 4.4)
  const StandMixer := Product(8, "Stand Mixer", "Professional stand mixer", 299.99, "Home", 3, 4.7)

  /** The demo catalog `MOCK_PRODUCTS`, in its source order. */
  const MockProducts: seq<Product> :=
    [Headphones, PythonBook, TShirt, CoffeeMaker, Smartphone, JavaScriptGuide, RunningShoes, StandMixer]

  /** The relation between the request parameters and the `filters` dict built from them. */
  ghost predicate FiltersOf(req: Request, filters: SearchFilters) {
    && filters.category == (if req.category != "" then Some(req.category) else None)
    && filters.availability == (if req.availability != "" then Some(Lower(req.availability) == "true") else None)
    && (filters.priceRange.Some? <==> req.minPrice.Some? || req.maxPrice.Some?)
    && (filters.priceRange.Some? ==> filters.priceRange.value == PriceRange(req.minPrice, req.maxPrice))
    && filters.rating == req.minRating
  }

  /** Builds the `filters` dict key by key. */
  method BuildFilters(req: Request) returns (filters: SearchFilters)
    ensures FiltersOf(req, filters)
  {
    filters := SearchFilters(None, None, None, None);
    if req.category != "" {
      filters := filters.(category := Some(req.category));
    }
    if req.availability != "" {
      filters := filters.(availability := Some(Lower(req.availability) == "true"));
    }
    if req.minPrice.Some? || req.maxPrice.Some? {
      var range := PriceRange(None, None);
      if req.minPrice.Some? {
        range := range.(min := req.minPrice);
      }
      if req.maxPrice.Some? {
        range := range.(max := req.maxPrice);
      }
      filters := filters.(priceRange := Some(range));
    }
    if req.minRating.Some? {
      filters := filters.(rating := req.minRating);
    }
  }

  /** The case-insensitive text test: the lowered query occurs in the lowered name or description. */
  predicate MatchesQuery(p: Product, query: string) {
    query == "" || Contains(Lower(p.name), Lower(query)) || Contains(Lower(p.description), Lower(query))
  }

  /** The scan's availability test. Only a stock of exactly 0 fails `true`; any positive stock fails `false`. */
  predicate MatchesAvailability(p: Product, availability: Option<bool>) {
    match availability
    case None => true
    case Some(inStock) => if inStock then p.stockQuantity != 0 else p.stockQuantity <= 0
  }

  predicate MatchesPrice(p: Product, priceRange: Option<PriceRange>) {
    match priceRange
    case None => true
    case Some(range) =>
      (range.min.None? || p.price >= range.min.value) && (range.max.None? || p.price <= range.max.value)
  }

  /** The structural filters of the scan, each one a `continue` guard. */
  predicate MatchesFilters(p: Product, filters: SearchFilters) {
    && (filters.category.None? || p.category == filters.category.value)
    && MatchesAvailability(p, filters.availability)
    && MatchesPrice(p, filters.priceRange)
    && (filters.rating.None? || p.rating >= filters.rating.value)
  }

  predicate Matches(p: Product, query: string, filters: SearchFilters) {
    MatchesQuery(p, query) && MatchesFilters(p, filters)
  }

  /** The products of `catalog` that survive the scan, in catalog order. */
  function Survivors(catalog: seq<Product>, query: string, filters: SearchFilters): seq<Product> {
    if catalog == [] then []
    else
      var rest := Survivors(catalog[..|catalog| - 1], query, filters);
      var p := catalog[|catalog| - 1];
      if Matches(p, query, filters) then rest + [p] else rest
  }

  /** Soundness and completeness of the scan, with multiplicities: a product survives as often as
      it occurs in the catalog when it matches, and never otherwise. */
  lemma {:induction false} SurvivorsCount(catalog: seq<Product>, query: string, filters: SearchFilters, p: Product)
    ensures multiset(Survivors(catalog, query, filters))[p] ==
            if Matches(p, query, filters) then multiset(catalog)[p] else 0
  {
    if catalog != [] {
      var init := catalog[..|catalog| - 1];
      SurvivorsCount(init, query, filters, p);
      assert catalog == init + [catalog[|catalog| - 1]];
    }
  }

  /** The survivors are a sub-list of the catalog: each is a catalog product that matches. */
  lemma {:induction false} SurvivorsAreMatchingProducts(catalog: seq<Product>, query: string, filters: SearchFilters)
    ensures |Survivors(catalog, query, filters)| <= |catalog|
    ensures forall p :: p in Survivors(catalog, query, filters) <==> p in catalog && Matches(p, query, filters)
  {
    if catalog != [] {
      var init := catalog[..|catalog| - 1];
      SurvivorsAreMatchingProducts(init, query, filters);
      assert catalog == init + [catalog[|catalog| - 1]];
    }
  }

  lemma SurvivorsStep(catalog: seq<Product>, i: int, query: string, filters: SearchFilters)
    requires 0 <= i < |catalog|
    ensures Survivors(catalog[..i + 1], query, filters) ==
            if Matches(catalog[i], query, filters) then Survivors(catalog[..i], query, filters) + [catalog[i]]
            else Survivors(catalog[..i], query, filters)
  {
    assert catalog[..i + 1][..i] == catalog[..i];
  }

  /** The scan-and-filter loop, with its `continue` guards in source order. */
  method ScanCatalog(catalog: seq<Product>, query: string, filters: SearchFilters) returns (results: seq<Product>)
    ensures results == Survivors(catalog, query, filters)
  {
    results := [];
    for i := 0 to |catalog|
      invariant results == Survivors(catalog[..i], query, filters)
    {
      SurvivorsStep(catalog, i, query, filters);
      var product := catalog[i];
      if query != "" {
        var queryLower := Lower(query);
        if !Contains(Lower(product.name), queryLower) && !Contains(Lower(product.description), queryLower) {
          continue;
        }
      }
      if filters.category.Some? {
        if product.category != filters.category.value {
          continue;
        }
      }
      if filters.availability.Some? {
        var availabilityMatch := filters.availability.value;
        if availabilityMatch && product.stockQuantity == 0 {
          continue;
        }
        if !availabilityMatch && product.stockQuantity > 0 {
          continue;
        }
      }
      if filters.priceRange.Some? {
        var priceRange := filters.priceRange.value;
        if priceRange.min.Some? && product.price < priceRange.min.value {
          continue;
        }
        if priceRange.max.Some? && product.price > priceRange.max.value {
          continue;
        }
      }
      if filters.rating.Some? {
        if product.rating < filters.rating.value {
          continue;
        }
      }
      results := results + [product];
    }
    assert catalog[..|catalog|] == catalog;
  }

  /** The state of the insertion sort while `s[j]` moves left through the sorted prefix `s[..i + 1]`:
      every adjacent pair up to `i` is in order except those around the hole at `j`. */
  ghost predicate Inserting(s: seq<Product>, i: int, j: int) {
    && 0 <= j <= i < |s|
    && (forall k :: 0 < k <= i && k != j ==> RankLe(s[k - 1], s[k]))
    && (0 < j < i ==> RankLe(s[j - 1], s[j + 1]))
  }

  /** The swap of the out-of-order pair at `j - 1, j` moves the hole one place to the left. */
  lemma InsertionStep(s: seq<Product>, i: int, j: int)
    requires Inserting(s, i, j) && 0 < j && !RankLe(s[j - 1], s[j])
    ensures Inserting(s[j - 1 := s[j]][j := s[j - 1]], i, j - 1)
  {
    RankLeTotal(s[j - 1], s[j]);
  }

  /** A sorted prefix with a new last element is where the insertion starts. */
  lemma StartInserting(s: seq<Product>, i: int)
    requires 0 <= i < |s| && AdjacentSorted(s[..i])
    ensures Inserting(s, i, i)
  {
    var prefix := s[..i];
    forall k | 0 < k < i
      ensures RankLe(s[k - 1], s[k])
    {
      assert RankLe(prefix[k - 1], prefix[k]);
    }
  }

  /** Once the moving element is in place, the prefix through `i` is sorted. */
  lemma InsertionDone(s: seq<Product>, i: int, j: int)
    requires Inserting(s, i, j) && (j == 0 || RankLe(s[j - 1], s[j]))
    ensures AdjacentSorted(s[..i + 1])
  {
    var prefix := s[..i + 1];
    forall k | 0 < k < |prefix|
      ensures RankLe(prefix[k - 1], prefix[k])
    {
      if k == j + 1 && 0 < j {
        assert RankLe(s[j - 1], s[j + 1]);
        RankLeTotal(s[j], s[j + 1]);
      }
    }
  }

  lemma SwapKeepsMultiset(s: seq<Product>, j: int)
    requires 0 < j < |s|
    ensures multiset(s[j - 1 := s[j]][j := s[j - 1]]) == multiset(s)
  {
  }

  /** The two-key sort of the results (rating descending, then name), as an in-place insertion sort. */
  method SortByRank(a: array<Product>)
    modifies a
    ensures Sorted(a[..])
    ensures multiset(a[..]) == multiset(old(a[..]))
  {
    for i := 0 to a.Length
      invariant AdjacentSorted(a[..i])
      invariant multiset(a[..]) == multiset(old(a[..]))
    {
      StartInserting(a[..], i);
      var j := i;
      while 0 < j && !RankLe(a[j - 1], a[j])
        invariant Inserting(a[..], i, j)
        invariant multiset(a[..]) == multiset(old(a[..]))
      {
        ghost var before := a[..];
        InsertionStep(before, i, j);
        SwapKeepsMultiset(before, j);
        a[j - 1], a[j] := a[j], a[j - 1];
        assert a[..] == before[j - 1 := before[j]][j := before[j - 1]];
        j := j - 1;
      }
      InsertionDone(a[..], i, j);
    }
    assert a[..a.Length] == a[..];
    AdjacentSortedIsSorted(a[..]);
  }

  /** What the endpoint promises about one product, read off the request parameters alone. */
  predicate Admits(req: Request, p: Product) {
    && MatchesQuery(p, req.query)
    && (req.category == "" || p.category == req.category)
    && (req.availability == "" ||
        if Lower(req.availability) == "true" then p.stockQuantity != 0 else p.stockQuantity <= 0)
    && (req.minPrice.None? || req.minPrice.value <= p.price)
    && (req.maxPrice.None? || p.price <= req.maxPrice.value)
    && (req.minRating.None? || req.minRating.value <= p.rating)
  }

  /** The response of the endpoint: ranked, and a permutation of the catalog products it admits. */
  ghost predicate IsSearchResult(results: seq<Product>, catalog: seq<Product>, req: Request) {
    && Sorted(results)
    && forall p :: multiset(results)[p] == if Admits(req, p) then multiset(catalog)[p] else 0
  }

  /** The scan with the filters built from a request tests exactly what the request asks for. */
  lemma MatchesIffAdmits(req: Request, filters: SearchFilters, p: Product)
    requires FiltersOf(req, filters)
    ensures Matches(p, req.query, filters) <==> Admits(req, p)
  {
  }

  /** `search_products` over a given catalog (the endpoint itself always scans `MockProducts`). */
  method SearchProducts(catalog: seq<Product>, req: Request) returns (results: seq<Product>)
    ensures IsSearchResult(results, catalog, req)
    ensures |results| <= |catalog|
  {
    var filters := BuildFilters(req);
    var matching := ScanCatalog(catalog, req.query, filters);
    var a := new Product[|matching|](i requires 0 <= i < |matching| => matching[i]);
    assert a[..] == matching;
    SortByRank(a);
    results := a[..];
    SurvivorsAreMatchingProducts(catalog, req.query, filters);
    assert |results| == |multiset(results)| == |multiset(matching)| == |matching|;
    forall p
      ensures multiset(results)[p] == if Admits(req, p) then multiset(catalog)[p] else 0
    {
      SurvivorsCount(catalog, req.query, filters, p);
      MatchesIffAdmits(req, filters, p);
    }
  }

  /** The endpoint as deployed: the search over `MOCK_PRODUCTS`. */
  method SearchMockProducts(req: Request) returns (results: seq<Product>)
    ensures IsSearchResult(results, MockProducts, req)
  {
    results := SearchProducts(MockProducts, req);
  }

  /** A price range with `min > max` admits nothing: the result is empty and no error is raised. */
  lemma InvertedPriceRangeIsEmpty(results: seq<Product>, catalog: seq<Product>, req: Request)
    requires req.minPrice.Some? && req.maxPrice.Some? && req.minPrice.value > req.maxPrice.value
    requires IsSearchResult(results, catalog, req)
    ensures results == []
  {
    forall p
      ensures multiset(results)[p] == 0
    {
    }
    assert multiset(results) == multiset{};
  }

  /** With `min == max` every result is priced exactly at that bound. */
  lemma PointPriceRange(results: seq<Product>, catalog: seq<Product>, req: Request)
    requires req.minPrice.Some? && req.maxPrice == req.minPrice
    requires IsSearchResult(results, catalog, req)
    ensures forall p :: p in results ==> p.price == req.minPrice.value
  {
    forall p | p in results
      ensures p.price == req.minPrice.value
    {
      assert multiset(results)[p] > 0;
    }
  }
}
