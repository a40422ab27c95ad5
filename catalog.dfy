/** The searchable entity and the result order shared by both search paths. */
module Catalog {
  import opened Values
  import opened Text

  /** A catalog product. Prices and ratings are only ever compared, so they are exact reals. */
  datatype Product = Product(
    id: int,
    name: string,
    description: string,
    price: real,
    category: string,
    stockQuantity: int,
    rating: real)

  /** The `price_range` filter: each bound is inclusive and may be absent. */
  datatype PriceRange = PriceRange(min: Option<real>, max: Option<real>)

  /** `p` may come before `q` in a result list: Python's `(-p.rating, p.name) <= (-q.rating, q.name)`,
      i.e. higher rating first, then name in code-point order. */
  predicate RankLe(p: Product, q: Product) {
    p.rating > q.rating || (p.rating == q.rating && LexLe(p.name, q.name))
  }

  lemma RankLeTotal(p: Product, q: Product)
    ensures RankLe(p, q) || RankLe(q, p)
  {
    LexLeTotal(p.name, q.name);
  }

  lemma RankLeTransitive(p: Product, q: Product, r: Product)
    requires RankLe(p, q) && RankLe(q, r)
    ensures RankLe(p, r)
  {
    if p.rating == q.rating == r.rating {
      LexLeTransitive(p.name, q.name, r.name);
    }
  }

  /** Two products rank equally only if they agree on rating and name. */
  lemma RankLeAntisymmetric(p: Product, q: Product)
    requires RankLe(p, q) && RankLe(q, p)
    ensures p.rating == q.rating && p.name == q.name
  {
    LexLeAntisymmetric(p.name, q.name);
  }

  /** Every earlier element may precede every later one. */
  ghost predicate Sorted(s: seq<Product>) {
    forall i, j :: 0 <= i < j < |s| ==> RankLe(s[i], s[j])
  }

  /** Every element may precede its successor. */
  ghost predicate AdjacentSorted(s: seq<Product>) {
    forall i :: 0 < i < |s| ==> RankLe(s[i - 1], s[i])
  }

  lemma {:induction false} AdjacentSortedIsSorted(s: seq<Product>)
    requires AdjacentSorted(s)
    ensures Sorted(s)
  {
    if |s| > 1 {
      var init := s[..|s| - 1];
      assert AdjacentSorted(init);
      AdjacentSortedIsSorted(init);
      forall i | 0 <= i < |s| - 1
        ensures RankLe(s[i], s[|s| - 1])
      {
        if i < |s| - 2 {
          assert RankLe(init[i], init[|s| - 2]);
          RankLeTransitive(s[i], s[|s| - 2], s[|s| - 1]);
        }
      }
    }
  }
}
