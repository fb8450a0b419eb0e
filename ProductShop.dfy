/**
 * The supplier's shop list for one product (Pages/Supplier/ProductShop.js):
 * five sample shops, the search filter over name and location, the
 * availability colour and the star counts of a rating. Ratings are kept in
 * tenths of a star (4.5 is 45).
 */
module ProductShop {
  import opened Common
  import Text

  datatype Shop = Shop(id: nat, name: string, location: string, rating: nat, distance: string, price: string, availability: string)

  const Shops: seq<Shop> := [
    Shop(1, "Green Valley Organic Store", "Colombo 03", 45, "2.3 km", "Rs. 450/kg", "In Stock"),
    Shop(2, "Spice Garden Market", "Kandy", 48, "45.2 km", "Rs. 420/kg", "In Stock"),
    Shop(3, "Ceylon Spice Hub", "Galle", 43, "78.5 km", "Rs. 480/kg", "Limited Stock"),
    Shop(4, "Natural Farm Products", "Negombo", 46, "15.7 km", "Rs. 465/kg", "In Stock"),
    Shop(5, "Traditional Spice Corner", "Matara", 42, "92.1 km", "Rs. 435/kg", "Out of Stock")
  ]

  /** The filter's test: the lowercased name or the lowercased location contains the lowercased search text. */
  predicate ShopMatches(shop: Shop, searchText: string)
  {
    var q := Text.ToLower(searchText);
    Text.Includes(Text.ToLower(shop.name), q) || Text.Includes(Text.ToLower(shop.location), q)
  }

  function MatchesSearch(searchText: string): Shop -> bool
  {
    shop => ShopMatches(shop, searchText)
  }

  /** `filteredShops`. */
  function FilteredShops(shops: seq<Shop>, searchText: string): seq<Shop>
  {
    Filter(shops, MatchesSearch(searchText))
  }

  /** A shop is listed exactly when it is one of the shops and matches; the listing keeps the shops' order. */
  lemma FilteredShopsSpec(shops: seq<Shop>, searchText: string)
    ensures forall shop :: shop in FilteredShops(shops, searchText) <==> shop in shops && ShopMatches(shop, searchText)
    ensures Subsequence(FilteredShops(shops, searchText), shops)
  {
    FilterIsSubsequence(shops, MatchesSearch(searchText));
  }

  /** An empty search lists every shop. */
  lemma EmptySearchKeepsAll(shops: seq<Shop>)
    ensures FilteredShops(shops, "") == shops
  {
    forall shop | shop in shops ensures ShopMatches(shop, "") {
      Text.IncludesEmpty(Text.ToLower(shop.name));
    }
    FilterKeepsAll(shops, MatchesSearch(""));
  }

  /** Search texts that differ only in the case of ASCII letters list the same shops. */
  lemma SearchIgnoresCase(shops: seq<Shop>, a: string, b: string)
    requires Text.ToLower(a) == Text.ToLower(b)
    ensures FilteredShops(shops, a) == FilteredShops(shops, b)
  {
    FilterSameTest(shops, MatchesSearch(a), MatchesSearch(b));
  }

  /** Filtering an already filtered list with the same text changes nothing. */
  lemma FilteredShopsIdempotent(shops: seq<Shop>, searchText: string)
    ensures FilteredShops(FilteredShops(shops, searchText), searchText) == FilteredShops(shops, searchText)
  {
    FilterIdempotent(shops, MatchesSearch(searchText));
  }

  const InStockColor := "#4CAF50"
  const LimitedStockColor := "#FF9800"
  const OutOfStockColor := "#F44336"
  const UnknownColor := "#757575"

  /** `getAvailabilityColor(availability)`. */
  function AvailabilityColor(availability: string): string
  {
    if availability == "In Stock" then InStockColor
    else if availability == "Limited Stock" then LimitedStockColor
    else if availability == "Out of Stock" then OutOfStockColor
    else UnknownColor
  }

  /**
   * Grey is shown exactly for availabilities other than the three known ones,
   * and the three known ones get three different colours, so the colour
   * tells them apart.
   */
  lemma AvailabilityColorSpec(a: string, b: string)
    ensures AvailabilityColor(a) == UnknownColor <==> a != "In Stock" && a != "Limited Stock" && a != "Out of Stock"
    ensures AvailabilityColor(a) == AvailabilityColor(b) && AvailabilityColor(a) != UnknownColor ==> a == b
  {
  }

  /** The stars `renderStarRating` draws. */
  datatype Stars = Stars(full: nat, half: bool, empty: nat)

  /**
   * `renderStarRating(rating)` for a rating in tenths: `Math.floor` full
   * stars, a half star when there is a fractional part, and the rest of five
   * empty. A negative empty count makes `Array(emptyStars)` throw a
   * RangeError while rendering, which takes the shop card down with it; that
   * rating has no stars to show, and is `None` here.
   */
  function StarCounts(rating: nat): Option<Stars>
  {
    var full := rating / 10;
    var half := rating % 10 != 0;
    var empty := 5 - full - (if half then 1 else 0);
    if empty < 0 then None else Some(Stars(full, half, empty))
  }

  /**
   * Stars are drawn exactly for ratings up to 5; then there are always five in
   * all, the full stars are the whole part, and any fraction (4.3 as much as
   * 4.5) shows one half star.
   */
  lemma StarCountsSpec(rating: nat)
    ensures StarCounts(rating).Some? <==> rating <= 50
    ensures StarCounts(rating).Some? ==>
      var s := StarCounts(rating).value;
      && s.full + (if s.half then 1 else 0) + s.empty == 5
      && s.full * 10 <= rating < s.full * 10 + 10
      && (s.half <==> rating % 10 != 0)
  {
  }

  /** Every sample shop's rating draws, and 4.3 shows four full stars, a half and none empty. */
  lemma SampleShopsDraw()
    ensures forall i :: 0 <= i < |Shops| ==> StarCounts(Shops[i].rating).Some?
    ensures StarCounts(43) == Some(Stars(4, true, 0))
  {
    forall i | 0 <= i < |Shops| ensures StarCounts(Shops[i].rating).Some? {
      assert Shops[i].rating <= 50;
      StarCountsSpec(Shops[i].rating);
    }
  }

}
