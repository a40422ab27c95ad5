/** The behaviour of the mock endpoint on the demo catalog. */
module MockSearchExamples {
  import opened Values
  import opened Text
  import opened Catalog
  import opened MockSearch

  /** The request that filters on one category and nothing else. */
  function CategoryRequest(category: string): Request {
    Request("", category, "", None, None, None)
  }

  lemma CategoryRequestAdmits(category: string, p: Product)
    requires category != ""
    ensures Admits(CategoryRequest(category), p) <==> p.category == category
  {
  }

  lemma ElectronicsInMock(p: Product)
    requires p.category == "Electronics"
    ensures multiset(MockProducts)[p] == multiset([Smartphone, Headphones])[p]
  {
  }

  lemma ElectronicsCount(p: Product)
    ensures (if Admits(CategoryRequest("Electronics"), p) then multiset(MockProducts)[p] else 0)
            == multiset([Smartphone, Headphones])[p]
  {
    CategoryRequestAdmits("Electronics", p);
    if p.category == "Electronics" {
      ElectronicsInMock(p);
    }
  }

  /** Two results with distinct ranks that hold the same products as `expected` are `expected` itself. */
  lemma PairByRank(results: seq<Product>, first: Product, second: Product)
    requires Sorted(results)
    requires multiset(results) == multiset([first, second])
    requires !RankLe(second, first)
    ensures results == [first, second]
  {
    assert |results| == 2;
    assert results[0] in multiset(results) && results[1] in multiset(results);
    assert RankLe(results[0], results[1]);
  }

  /** Category "Electronics": Smartphone (4.7) before Wireless Headphones (4.5). */
  lemma ElectronicsExample(results: seq<Product>)
    requires IsSearchResult(results, MockProducts, CategoryRequest("Electronics"))
    ensures results == [Smartphone, Headphones]
  {
    var expected := [Smartphone, Headphones];
    forall p
      ensures multiset(results)[p] == multiset(expected)[p]
    {
      ElectronicsCount(p);
    }
    assert multiset(results) == multiset(expected);
    PairByRank(results, Smartphone, Headphones);
  }

  lemma SingleResult(results: seq<Product>, only: Product)
    requires multiset(results) == multiset([only])
    ensures results == [only]
  {
    assert |results| == 1;
    assert results[0] in multiset(results);
  }

  /** In a ranked list, a product that strictly outranks another comes first. */
  lemma OutrankedComesLater(results: seq<Product>, i: int, j: int)
    requires Sorted(results)
    requires 0 <= i < |results| && 0 <= j < |results|
    requires !RankLe(results[j], results[i])
    ensures i < j
  {
    LexLeReflexive(results[i].name);
  }

  /** With no filters, the tie at rating 4.7 is broken by name: Smartphone before Stand Mixer. */
  lemma UnfilteredTieExample(results: seq<Product>)
    requires IsSearchResult(results, MockProducts, Request("", "", "", None, None, None))
    ensures exists i, j :: 0 <= i < j < |results| && results[i] == Smartphone && results[j] == StandMixer
  {
    assert multiset(results)[Smartphone] == multiset(MockProducts)[Smartphone] > 0;
    assert multiset(results)[StandMixer] == multiset(MockProducts)[StandMixer] > 0;
    assert Smartphone in results && StandMixer in results;
    var i :| 0 <= i < |results| && results[i] == Smartphone;
    var j :| 0 <= j < |results| && results[j] == StandMixer;
    assert !LexLe(StandMixer.name, Smartphone.name);
    OutrankedComesLater(results, i, j);
  }

  lemma OutOfStockRequestAdmits(p: Product)
    ensures Admits(Request("", "", "false", None, None, None), p) <==> p.stockQuantity <= 0
  {
    assert Lower("false") == "false";
  }

  lemma OutOfStockInMock(p: Product)
    requires p.stockQuantity <= 0
    ensures multiset(MockProducts)[p] == multiset([TShirt])[p]
  {
  }

  lemma OutOfStockCount(p: Product)
    ensures (if Admits(Request("", "", "false", None, None, None), p) then multiset(MockProducts)[p] else 0)
            == multiset([TShirt])[p]
  {
    OutOfStockRequestAdmits(p);
    if p.stockQuantity <= 0 {
      OutOfStockInMock(p);
    }
  }

  /** Availability "false" keeps only the product out of stock, Cotton T-Shirt. */
  lemma OutOfStockExample(results: seq<Product>)
    requires IsSearchResult(results, MockProducts, Request("", "", "false", None, None, None))
    ensures results == [TShirt]
  {
    forall p
      ensures multiset(results)[p] == multiset([TShirt])[p]
    {
      OutOfStockCount(p);
    }
    assert multiset(results) == multiset([TShirt]);
    SingleResult(results, TShirt);
  }
}
