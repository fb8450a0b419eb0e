/**
 * The Alba price list (Pages/Buyer/Cinnamon/Alba/AlbaPriceList.js): a list
 * of price entries loaded once and grown only at the front, and the route
 * parameters with which its rows and its Update button open the price
 * screen.
 */
module AlbaPriceList {

  /** One price entry; the screens keep all three parts as typed text. */
  datatype PriceItem = PriceItem(date: string, quantity: string, price: string)

  /** The parameters the price screen opens with, apart from the `addNewPrice` callback. */
  datatype UpdateParams = UpdateParams(latest: PriceItem, isViewOnly: bool)

  /** A row opens its own entry for viewing. */
  function RowParams(item: PriceItem): UpdateParams
  {
    UpdateParams(item, true)
  }

  /** The Update button opens an empty entry for editing. */
  function UpdateButtonParams(): UpdateParams
  {
    UpdateParams(PriceItem("", "", ""), false)
  }

  /**
   * Only the Update button opens an editable screen: every row opens
   * view-only, with the very entry tapped, so no row's parameters are the
   * button's.
   */
  lemma OpenParamsSpec(item: PriceItem)
    ensures RowParams(item).isViewOnly && RowParams(item).latest == item
    ensures !UpdateButtonParams().isViewOnly
    ensures UpdateButtonParams().latest == PriceItem("", "", "")
    ensures RowParams(item) != UpdateButtonParams()
  {
  }

  /** The list after `addNewPrice` has been called with each of `items` in turn. */
  function AfterAdds(prices: seq<PriceItem>, items: seq<PriceItem>): seq<PriceItem>
    decreases |items|
  {
    if items == [] then prices else AfterAdds([items[0]] + prices, items[1..])
  }

  function Reversed<T>(s: seq<T>): seq<T>
  {
    if s == [] then [] else Reversed(s[1..]) + [s[0]]
  }

  /**
   * Prepending one entry at a time leaves the entries newest first, in front
   * of the list as it was, which is never reordered or shortened.
   */
  lemma {:induction false} AfterAddsSpec(prices: seq<PriceItem>, items: seq<PriceItem>)
    ensures AfterAdds(prices, items) == Reversed(items) + prices
    ensures |AfterAdds(prices, items)| == |prices| + |items|
    ensures AfterAdds(prices, items)[|items|..] == prices
    decreases |items|
  {
    if items != [] {
      AfterAddsSpec([items[0]] + prices, items[1..]);
      assert Reversed(items) == Reversed(items[1..]) + [items[0]];
      assert Reversed(items[1..]) + ([items[0]] + prices) == Reversed(items) + prices;
      ReversedLength(items);
    } else {
      assert AfterAdds(prices, items)[0..] == prices;
    }
  }

  lemma {:induction false} ReversedLength<T>(s: seq<T>)
    ensures |Reversed(s)| == |s|
    decreases |s|
  {
    if s != [] {
      ReversedLength(s[1..]);
    }
  }

  /** The price list's state: `prices`. */
  class PriceList {
    var prices: seq<PriceItem>

    /** `useState([])`. */
    constructor ()
      ensures prices == []
    {
      prices := [];
    }

    /** The mount effect: the list becomes the stored entries. */
    method Load(initialPrices: seq<PriceItem>)
      modifies this
      ensures prices == initialPrices
    {
      prices := initialPrices;
    }

    /** `addNewPrice(newItem)`: the new entry goes first, the old list follows it. */
    method AddNewPrice(newItem: PriceItem)
      modifies this
      ensures prices == [newItem] + old(prices)
      ensures prices == AfterAdds(old(prices), [newItem])
    {
      prices := [newItem] + prices;
    }
  }
}
