/** The search-engine-backed product service: the structured query body a search sends,
    the extraction of hits from the response, and the read-through cache of single products. */
module ProductsApi {
  import opened Values
  import opened Text
  import opened Catalog

  /** The `category` filter: one category name or a list of them (match any). */
  datatype CategoryFilter = Category(name: string) | Categories(names: seq<string>)

  /** The `filters` dict of a search; a key that is absent is `None`. */
  datatype Filters = Filters(
    priceRange: Option<PriceRange>,
    category: Option<CategoryFilter>,
    availability: Option<bool>,
    rating: Option<real>)

  /** The comparison keys of a `range` clause. */
  datatype RangeOp = Gt | Gte | Lte

  datatype MustClause =
    | MultiMatch(query: string, fields: seq<string>, matchType: string, fuzziness: string)
    | MatchAll

  datatype FilterClause =
    | Range(field: string, bounds: map<RangeOp, real>)
    | Term(field: string, value: Value)
    | Terms(field: string, values: seq<string>)

  datatype SortOrder = Asc | Desc

  datatype SortKey = SortKey(field: string, order: SortOrder)

  datatype BoolQuery = BoolQuery(must: seq<MustClause>, filter: seq<FilterClause>)

  /** The request body: a `bool` query, the sort keys and the page size. */
  datatype SearchBody = SearchBody(query: BoolQuery, sort: seq<SortKey>, size: nat)

  const ResultOrder: seq<SortKey> := [SortKey("rating", Desc), SortKey("name.keyword", Asc)]

  const MaxHits: nat := 100

  /** The clause a price range contributes: `min` becomes `gte`, `max` becomes `lte`, and a range
      without bounds contributes nothing. */
  function PriceClauses(priceRange: Option<PriceRange>): seq<FilterClause> {
    match priceRange
    case None => []
    case Some(PriceRange(None, None)) => []
    case Some(PriceRange(Some(lo), None)) => [Range("price", map[Gte := lo])]
    case Some(PriceRange(None, Some(hi))) => [Range("price", map[Lte := hi])]
    case Some(PriceRange(Some(lo), Some(hi))) => [Range("price", map[Gte := lo, Lte := hi])]
  }

  function CategoryClauses(category: Option<CategoryFilter>): seq<FilterClause> {
    match category
    case None => []
    case Some(Category(name)) => [Term("category", Str(name))]
    case Some(Categories(names)) => [Terms("category", names)]
  }

  function AvailabilityClauses(availability: Option<bool>): seq<FilterClause> {
    match availability
    case None => []
    case Some(true) => [Range("stock_quantity", map[Gt := 0.0])]
    case Some(false) => [Term("stock_quantity", Int(0))]
  }

  function RatingClauses(rating: Option<real>): seq<FilterClause> {
    match rating
    case None => []
    case Some(threshold) => [Range("rating", map[Gte := threshold])]
  }

  /** The filter clauses of a search, in the fixed order price, category, availability, rating. */
  function ActiveClauses(f: Filters): seq<FilterClause> {
    PriceClauses(f.priceRange) + CategoryClauses(f.category) + AvailabilityClauses(f.availability) + RatingClauses(f.rating)
  }

  /** Builds the query body, appending clause by clause. */
  method BuildSearchBody(query: string, filters: Filters) returns (body: SearchBody)
    ensures |body.query.must| == 1
    ensures query != "" ==> body.query.must[0] == MultiMatch(query, ["name^2", "description"], "best_fields", "AUTO")
    ensures query == "" ==> body.query.must[0] == MatchAll
    ensures body.query.filter == ActiveClauses(filters)
    ensures body.sort == ResultOrder && body.size == MaxHits
  {
    var mustClauses: seq<MustClause> := [];
    var filterClauses: seq<FilterClause> := [];
    if query != "" {
      mustClauses := mustClauses + [MultiMatch(query, ["name^2", "description"], "best_fields", "AUTO")];
    } else {
      mustClauses := mustClauses + [MatchAll];
    }
    if filters.priceRange.Some? {
      var priceRange := filters.priceRange.value;
      var priceFilter: map<RangeOp, real> := map[];
      if priceRange.min.Some? {
        priceFilter := priceFilter[Gte := priceRange.min.value];
      }
      assert priceFilter == if priceRange.min.Some? then map[Gte := priceRange.min.value] else map[];
      if priceRange.max.Some? {
        priceFilter := priceFilter[Lte := priceRange.max.value];
      }
      if priceFilter != map[] {
        filterClauses := filterClauses + [Range("price", priceFilter)];
      }
      PriceBoundsClause(priceRange, priceFilter);
    }
    assert filterClauses == PriceClauses(filters.priceRange);
    if filters.category.Some? {
      match filters.category.value
      case Categories(names) =>
        filterClauses := filterClauses + [Terms("category", names)];
      case Category(name) =>
        filterClauses := filterClauses + [Term("category", Str(name))];
    }
    assert filterClauses == PriceClauses(filters.priceRange) + CategoryClauses(filters.category);
    if filters.availability.Some? {
      if filters.availability.value {
        filterClauses := filterClauses + [Range("stock_quantity", map[Gt := 0.0])];
      } else {
        filterClauses := filterClauses + [Term("stock_quantity", Int(0))];
      }
    }
    assert filterClauses == PriceClauses(filters.priceRange) + CategoryClauses(filters.category)
                            + AvailabilityClauses(filters.availability);
    if filters.rating.Some? {
      filterClauses := filterClauses + [Range("rating", map[Gte := filters.rating.value])];
    }
    body := SearchBody(BoolQuery(mustClauses, filterClauses),
                       [SortKey("rating", Desc), SortKey("name.keyword", Asc)], 100);
  }

  /** The bounds map built key by key is the one the price clause carries. */
  lemma PriceBoundsClause(range: PriceRange, m: map<RangeOp, real>)
    requires m == (if range.min.Some? then map[Gte := range.min.value] else map[])
                  + (if range.max.Some? then map[Lte := range.max.value] else map[])
    ensures PriceClauses(Some(range)) == if m != map[] then [Range("price", m)] else []
  {
    match range
    case PriceRange(None, None) =>
      assert m == map[];
    case PriceRange(Some(lo), None) =>
      assert m == map[Gte := lo] && Gte in m;
    case PriceRange(None, Some(hi)) =>
      assert m == map[Lte := hi] && Lte in m;
    case PriceRange(Some(lo), Some(hi)) =>
      assert m == map[Gte := lo, Lte := hi] && Gte in m;
  }

  /** The price clause, when there is one, holds exactly the given bounds under `gte` and `lte`. */
  lemma PriceClauseBounds(priceRange: Option<PriceRange>)
    ensures |PriceClauses(priceRange)| <= 1
    ensures |PriceClauses(priceRange)| == 1 <==> priceRange.Some? && (priceRange.value.min.Some? || priceRange.value.max.Some?)
    ensures |PriceClauses(priceRange)| == 1 ==>
      var range := priceRange.value;
      var c := PriceClauses(priceRange)[0];
      && c.Range? && c.field == "price"
      && c.bounds.Keys == (if range.min.Some? then {Gte} else {}) + (if range.max.Some? then {Lte} else {})
      && (range.min.Some? ==> c.bounds[Gte] == range.min.value)
      && (range.max.Some? ==> c.bounds[Lte] == range.max.value)
  {
  }

  /** The filter a clause comes from, read off the field it tests: 0 price, 1 category,
      2 availability, 3 rating. */
  function Topic(c: FilterClause): int {
    if c.field == "price" then 0
    else if c.field == "category" then 1
    else if c.field == "stock_quantity" then 2
    else if c.field == "rating" then 3
    else 4
  }

  /** The filters the clauses of a list come from. */
  function Topics(cs: seq<FilterClause>): set<int> {
    set i | 0 <= i < |cs| :: Topic(cs[i])
  }

  /** The number of filters that contribute a clause (a price range without bounds does not). */
  function ActiveFilterCount(f: Filters): nat {
    (if f.priceRange.Some? && (f.priceRange.value.min.Some? || f.priceRange.value.max.Some?) then 1 else 0)
    + (if f.category.Some? then 1 else 0)
    + (if f.availability.Some? then 1 else 0)
    + (if f.rating.Some? then 1 else 0)
  }

  /** Every clause tests the field of filter `topic`, and there is at most one. */
  predicate OneClauseOn(cs: seq<FilterClause>, topic: int) {
    |cs| <= 1 && forall k :: 0 <= k < |cs| ==> Topic(cs[k]) == topic
  }

  /** The topics strictly increase along the list and stay below `bound`. */
  predicate IncreasingBelow(cs: seq<FilterClause>, bound: int) {
    && (forall i, j :: 0 <= i < j < |cs| ==> Topic(cs[i]) < Topic(cs[j]))
    && (forall i :: 0 <= i < |cs| ==> Topic(cs[i]) < bound)
  }

  lemma AppendTopic(cs: seq<FilterClause>, d: seq<FilterClause>, topic: int)
    requires IncreasingBelow(cs, topic) && OneClauseOn(d, topic)
    ensures IncreasingBelow(cs + d, topic + 1)
    ensures forall t :: t in Topics(cs + d) <==> t in Topics(cs) || (t == topic && |d| == 1)
  {
    forall t | t in Topics(cs + d)
      ensures t in Topics(cs) || (t == topic && |d| == 1)
    {
      var i :| 0 <= i < |cs + d| && Topic((cs + d)[i]) == t;
      if i < |cs| {
        assert (cs + d)[i] == cs[i];
      }
    }
    forall t | t in Topics(cs)
      ensures t in Topics(cs + d)
    {
      var i :| 0 <= i < |cs| && Topic(cs[i]) == t;
      assert (cs + d)[i] == cs[i];
    }
    if |d| == 1 {
      assert (cs + d)[|cs|] == d[0];
      assert topic in Topics(cs + d);
    }
  }

  lemma PartTopics(f: Filters)
    ensures OneClauseOn(PriceClauses(f.priceRange), 0)
    ensures OneClauseOn(CategoryClauses(f.category), 1)
    ensures OneClauseOn(AvailabilityClauses(f.availability), 2)
    ensures OneClauseOn(RatingClauses(f.rating), 3)
  {
  }

  /** One clause for each filter that is active, none for any other. */
  lemma ClauseCount(f: Filters)
    ensures |ActiveClauses(f)| == ActiveFilterCount(f)
  {
    PriceClauseBounds(f.priceRange);
  }

  lemma SingleTopic(d: seq<FilterClause>, topic: int)
    requires OneClauseOn(d, topic)
    ensures IncreasingBelow(d, topic + 1)
    ensures forall t :: t in Topics(d) <==> t == topic && |d| == 1
  {
    if |d| == 1 {
      assert Topic(d[0]) in Topics(d);
    }
  }

  /** The clauses come in the fixed order price, category, availability, rating. */
  lemma ClausesInFixedOrder(f: Filters)
    ensures forall i, j :: 0 <= i < j < |ActiveClauses(f)| ==> Topic(ActiveClauses(f)[i]) < Topic(ActiveClauses(f)[j])
  {
    var p, c, a, r := PriceClauses(f.priceRange), CategoryClauses(f.category),
                      AvailabilityClauses(f.availability), RatingClauses(f.rating);
    PartTopics(f);
    SingleTopic(p, 0);
    AppendTopic(p, c, 1);
    AppendTopic(p + c, a, 2);
    AppendTopic(p + c + a, r, 3);
    assert ActiveClauses(f) == p + c + a + r;
  }

  /** Exactly the active filters are represented among the clauses. */
  lemma ClauseTopics(f: Filters)
    ensures forall t :: t in Topics(ActiveClauses(f)) <==>
      || (t == 0 && f.priceRange.Some? && (f.priceRange.value.min.Some? || f.priceRange.value.max.Some?))
      || (t == 1 && f.category.Some?)
      || (t == 2 && f.availability.Some?)
      || (t == 3 && f.rating.Some?)
  {
    var p, c, a, r := PriceClauses(f.priceRange), CategoryClauses(f.category),
                      AvailabilityClauses(f.availability), RatingClauses(f.rating);
    PriceClauseBounds(f.priceRange);
    PartTopics(f);
    SingleTopic(p, 0);
    AppendTopic(p, c, 1);
    AppendTopic(p + c, a, 2);
    AppendTopic(p + c + a, r, 3);
    assert ActiveClauses(f) == p + c + a + r;
  }

  /** The value of a product's field as the search index stores it. */
  function FieldOf(p: Product, field: string): Option<Value> {
    if field == "id" then Some(Int(p.id))
    else if field == "name" then Some(Str(p.name))
    else if field == "description" then Some(Str(p.description))
    else if field == "price" then Some(Num(p.price))
    else if field == "category" then Some(Str(p.category))
    else if field == "stock_quantity" then Some(Int(p.stockQuantity))
    else if field == "rating" then Some(Num(p.rating))
    else None
  }

  predicate InBounds(x: real, bounds: map<RangeOp, real>) {
    && (Gt in bounds ==> x > bounds[Gt])
    && (Gte in bounds ==> x >= bounds[Gte])
    && (Lte in bounds ==> x <= bounds[Lte])
  }

  /** Whether a product passes one filter clause (exact `term`, exact `terms`, numeric `range`). */
  predicate ClauseHolds(c: FilterClause, p: Product) {
    var v := FieldOf(p, c.field);
    match c
    case Range(_, bounds) => v.Some? && NumberOf(v.value).Some? && InBounds(NumberOf(v.value).value, bounds)
    case Term(_, value) => v == Some(value)
    case Terms(_, values) => v.Some? && v.value.Str? && v.value.s in values
  }

  predicate AllHold(cs: seq<FilterClause>, p: Product) {
    forall i :: 0 <= i < |cs| ==> ClauseHolds(cs[i], p)
  }

  /** The documented meaning of the filters: inclusive price bounds, category (any of a list),
      availability as stock > 0 or stock == 0, and a minimum rating. */
  predicate SatisfiesFilters(p: Product, f: Filters) {
    && (f.priceRange.None? ||
        ((f.priceRange.value.min.None? || f.priceRange.value.min.value <= p.price) &&
         (f.priceRange.value.max.None? || p.price <= f.priceRange.value.max.value)))
    && (f.category.None? ||
        match f.category.value
        case Category(name) => p.category == name
        case Categories(names) => p.category in names)
    && (f.availability.None? || if f.availability.value then p.stockQuantity > 0 else p.stockQuantity == 0)
    && (f.rating.None? || f.rating.value <= p.rating)
  }

  lemma AllHoldConcat(a: seq<FilterClause>, b: seq<FilterClause>, p: Product)
    ensures AllHold(a + b, p) <==> AllHold(a, p) && AllHold(b, p)
  {
    if AllHold(a, p) && AllHold(b, p) {
      forall i | 0 <= i < |a + b|
        ensures ClauseHolds((a + b)[i], p)
      {
        if i >= |a| {
          assert (a + b)[i] == b[i - |a|];
        }
      }
    }
    if AllHold(a + b, p) {
      forall i | 0 <= i < |a|
        ensures ClauseHolds(a[i], p)
      {
        assert (a + b)[i] == a[i];
      }
      forall i | 0 <= i < |b|
        ensures ClauseHolds(b[i], p)
      {
        assert (a + b)[|a| + i] == b[i];
      }
    }
  }

  lemma PriceClausesMeaning(f: Filters, p: Product)
    ensures AllHold(PriceClauses(f.priceRange), p) <==>
      (f.priceRange.None? ||
       ((f.priceRange.value.min.None? || f.priceRange.value.min.value <= p.price) &&
        (f.priceRange.value.max.None? || p.price <= f.priceRange.value.max.value)))
  {
    var cs := PriceClauses(f.priceRange);
    if |cs| == 1 {
      assert AllHold(cs, p) <==> ClauseHolds(cs[0], p);
    }
  }

  lemma OtherClausesMeaning(f: Filters, p: Product)
    ensures AllHold(CategoryClauses(f.category), p) <==>
      (f.category.None? ||
       match f.category.value
       case Category(name) => p.category == name
       case Categories(names) => p.category in names)
    ensures AllHold(AvailabilityClauses(f.availability), p) <==>
      (f.availability.None? || if f.availability.value then p.stockQuantity > 0 else p.stockQuantity == 0)
    ensures AllHold(RatingClauses(f.rating), p) <==> (f.rating.None? || f.rating.value <= p.rating)
  {
    var cc, ac, rc := CategoryClauses(f.category), AvailabilityClauses(f.availability), RatingClauses(f.rating);
    if |cc| == 1 {
      assert AllHold(cc, p) <==> ClauseHolds(cc[0], p);
    }
    if |ac| == 1 {
      assert AllHold(ac, p) <==> ClauseHolds(ac[0], p);
    }
    if |rc| == 1 {
      assert AllHold(rc, p) <==> ClauseHolds(rc[0], p);
    }
  }

  /** A product passes every filter clause of the body exactly when it satisfies the filters. */
  lemma FilterClausesMeaning(f: Filters, p: Product)
    ensures AllHold(ActiveClauses(f), p) <==> SatisfiesFilters(p, f)
  {
    PriceClausesMeaning(f, p);
    OtherClausesMeaning(f, p);
    var pc, cc, ac, rc := PriceClauses(f.priceRange), CategoryClauses(f.category),
                          AvailabilityClauses(f.availability), RatingClauses(f.rating);
    AllHoldConcat(pc, cc, p);
    AllHoldConcat(pc + cc, ac, p);
    AllHoldConcat(pc + cc + ac, rc, p);
  }

  /** One search hit: the document id and the stored document. */
  datatype Hit = Hit(id: string, source: Record)

  /** The extraction loop over `response['hits']['hits']`: each result is the hit's source with
      its `id` field set to the document id. */
  method ExtractHits(hits: seq<Hit>) returns (results: seq<Record>)
    ensures |results| == |hits|
    ensures forall k :: 0 <= k < |hits| ==> results[k].Keys == hits[k].source.Keys + {"id"}
    ensures forall k :: 0 <= k < |hits| ==> results[k]["id"] == Str(hits[k].id)
    ensures forall k, key :: 0 <= k < |hits| && key in hits[k].source && key != "id" ==>
              results[k][key] == hits[k].source[key]
  {
    results := [];
    for i := 0 to |hits|
      invariant |results| == i
      invariant forall k :: 0 <= k < i ==> results[k] == hits[k].source["id" := Str(hits[k].id)]
    {
      var product := hits[i].source;
      product := product["id" := Str(hits[i].id)];
      results := results + [product];
    }
  }

  /** The cache key of a product: the prefix `product:` followed by the decimal id. */
  function CacheKey(productId: int): string {
    "product:" + IntToString(productId)
  }

  /** Distinct products never share a cache entry. */
  lemma CacheKeyInjective(a: int, b: int)
    requires CacheKey(a) == CacheKey(b)
    ensures a == b
  {
    assert CacheKey(a)[8..] == IntToString(a);
    assert CacheKey(b)[8..] == IntToString(b);
    IntToStringInjective(a, b);
  }

  /** The product service with its two collaborators reduced to their contents: the cache as a map
      from keys to records and the products table as a map from ids to rows. */
  class ProductService {
    var cache: map<string, Record>
    var db: map<int, Record>
    /** The ids the service has looked up in the database, in order. */
    ghost var dbQueries: seq<int>

    constructor (db: map<int, Record>, cache: map<string, Record>)
      ensures this.db == db && this.cache == cache && dbQueries == []
    {
      this.db := db;
      this.cache := cache;
      dbQueries := [];
    }

    /** The products-table lookup by id: the row, or nothing when the id is absent. */
    function FetchOne(productId: int): Option<Record>
      reads this
    {
      if productId in db then Some(db[productId]) else None
    }

    /** Every product cache entry holds the product's current row. */
    ghost predicate Coherent()
      reads this
    {
      forall id :: CacheKey(id) in cache ==> id in db && cache[CacheKey(id)] == db[id]
    }

    /** Read-through lookup. A cached record counts as a hit only when it is truthy (non-empty). */
    method GetProduct(productId: int) returns (product: Option<Record>)
      modifies this`cache, this`dbQueries
      ensures var key := CacheKey(productId);
        if key in old(cache) && TruthyRecord(old(cache)[key]) then
          && product == Some(old(cache)[key])
          && cache == old(cache)
          && dbQueries == old(dbQueries)
        else
          && product == FetchOne(productId)
          && dbQueries == old(dbQueries) + [productId]
          && cache == if product.Some? && TruthyRecord(product.value) then old(cache)[key := product.value]
                      else old(cache)
      ensures old(Coherent()) ==> Coherent() && product == FetchOne(productId)
    {
      var cacheKey := CacheKey(productId);
      if cacheKey in cache && TruthyRecord(cache[cacheKey]) {
        return Some(cache[cacheKey]);
      }
      product := FetchOne(productId);
      dbQueries := dbQueries + [productId];
      if product.Some? && TruthyRecord(product.value) {
        cache := cache[cacheKey := product.value];
        forall id | CacheKey(id) == cacheKey
          ensures id == productId
        {
          CacheKeyInjective(id, productId);
        }
      }
    }
  }

  /** Two lookups of one product in a row give the same answer, and once the first has found a
      product the second is served from the cache: only the first can have reached the database. */
  method LookupTwice(service: ProductService, productId: int) returns (first: Option<Record>, second: Option<Record>)
    modifies service`cache, service`dbQueries
    ensures first == second
    ensures first.Some? && TruthyRecord(first.value) ==>
      var key := CacheKey(productId);
      service.dbQueries == old(service.dbQueries) +
        if key in old(service.cache) && TruthyRecord(old(service.cache)[key]) then [] else [productId]
    ensures service.db == old(service.db)
  {
    first := service.GetProduct(productId);
    second := service.GetProduct(productId);
  }
}
