/**
 * The supplier's product picker (Pages/Supplier/Products.js): five fixed
 * spice products and a case-insensitive search over their names.
 */
module Products {
  import opened Common
  import Text

  datatype CatalogProduct = CatalogProduct(id: nat, name: string, icon: string)

  const Catalog: seq<CatalogProduct> := [
    CatalogProduct(1, "Cinnamon - Kurundu", "leaf"),
    CatalogProduct(2, "Turmeric - Kaha", "circle"),
    CatalogProduct(3, "Pepper - Gammiris", "circle"),
    CatalogProduct(4, "Berries - Goraka", "circle"),
    CatalogProduct(5, "Coffee - Sisep", "coffee")
  ]

  /** The filter's test: the lowercased name contains the lowercased search text. */
  predicate NameMatches(p: CatalogProduct, searchText: string)
  {
    Text.Includes(Text.ToLower(p.name), Text.ToLower(searchText))
  }

  function MatchesSearch(searchText: string): CatalogProduct -> bool
  {
    p => NameMatches(p, searchText)
  }

  /** `filteredProducts`. */
  function FilteredProducts(searchText: string): seq<CatalogProduct>
  {
    Filter(Catalog, MatchesSearch(searchText))
  }

  /** A product is listed exactly when its name matches, and the listing keeps the catalogue's order. */
  lemma FilteredProductsSpec(searchText: string)
    ensures forall p :: p in FilteredProducts(searchText) <==> p in Catalog && NameMatches(p, searchText)
    ensures Subsequence(FilteredProducts(searchText), Catalog)
    ensures |FilteredProducts(searchText)| <= 5
  {
    FilterIsSubsequence(Catalog, MatchesSearch(searchText));
  }

  /** An empty search lists all five products. */
  lemma EmptySearchListsAll()
    ensures FilteredProducts("") == Catalog
    ensures |FilteredProducts("")| == 5
  {
    forall p | p in Catalog ensures NameMatches(p, "") {
      Text.IncludesEmpty(Text.ToLower(p.name));
    }
    FilterKeepsAll(Catalog, MatchesSearch(""));
  }

  /** Search texts that differ only in letter case list the same products; in particular lowercasing the search changes nothing. */
  lemma SearchIgnoresCase(a: string, b: string)
    requires Text.ToLower(a) == Text.ToLower(b)
    ensures FilteredProducts(a) == FilteredProducts(b)
    ensures FilteredProducts(a) == FilteredProducts(Text.ToLower(a))
  {
    FilterSameTest(Catalog, MatchesSearch(a), MatchesSearch(b));
    Text.ToLowerIdempotent(a);
    FilterSameTest(Catalog, MatchesSearch(a), MatchesSearch(Text.ToLower(a)));
  }
}
