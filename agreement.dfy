/** The mock scan "simulates" the search-engine path: its structural tests agree with the
    filter clauses of the query body built for the same filters. */
module SearchAgreement {
  import opened Values
  import opened Catalog
  import MockSearch
  import ProductsApi

  /** The mock `filters` dict read as a search `filters` dict: its category is a single name. */
  function AsQueryFilters(f: MockSearch.SearchFilters): ProductsApi.Filters {
    ProductsApi.Filters(
      f.priceRange,
      if f.category.Some? then Some(ProductsApi.Category(f.category.value)) else None,
      f.availability,
      f.rating)
  }

  /** For a product whose stock is not negative, the scan's structural tests pass exactly when
      every filter clause of the query body does. */
  lemma ScanAgreesWithQuery(f: MockSearch.SearchFilters, p: Product)
    requires p.stockQuantity >= 0
    ensures MockSearch.MatchesFilters(p, f) <==> ProductsApi.AllHold(ProductsApi.ActiveClauses(AsQueryFilters(f)), p)
  {
    ProductsApi.FilterClausesMeaning(AsQueryFilters(f), p);
  }

  /** With an empty query (`match_all` on the engine side) an endpoint request admits a product
      exactly when the query body built from its filters does. */
  lemma RequestAgreesWithQuery(req: MockSearch.Request, f: MockSearch.SearchFilters, p: Product)
    requires MockSearch.FiltersOf(req, f) && req.query == "" && p.stockQuantity >= 0
    ensures MockSearch.Admits(req, p) <==> ProductsApi.AllHold(ProductsApi.ActiveClauses(AsQueryFilters(f)), p)
  {
    MockSearch.MatchesIffAdmits(req, f, p);
    ScanAgreesWithQuery(f, p);
  }

  /** On a negative stock the two paths part: the scan keeps the product for availability `true`
      (it rejects only a stock of exactly 0), the `gt 0` range clause does not. */
  lemma NegativeStockDiverges(p: Product)
    requires p.stockQuantity < 0
    ensures var f := MockSearch.SearchFilters(None, Some(true), None, None);
      MockSearch.MatchesFilters(p, f) && !ProductsApi.AllHold(ProductsApi.ActiveClauses(AsQueryFilters(f)), p)
  {
    var f := MockSearch.SearchFilters(None, Some(true), None, None);
    ProductsApi.FilterClausesMeaning(AsQueryFilters(f), p);
  }
}
