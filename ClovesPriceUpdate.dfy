/**
 * The price entry screen (Pages/Buyer/Products/Cloves/ClovesPriceUpdate.js):
 * three text fields started from the `latest` route parameter, and the Ok
 * handler that checks them, hands the entry to the `onAddNewPrice` callback
 * and goes back. In the app the Alba price list opens its own update
 * screen, not this one; this screen takes the same route parameters
 * (`latest`, `onAddNewPrice`, `isViewOnly`), so the callback is modelled as
 * the Alba list's `addNewPrice`. That pairing rests on the shared
 * parameters only: it is not a route of the app.
 */
module ClovesPriceUpdate {
  import opened Common
  import Text
  import AlbaPriceList

  /** The `latest` record as received: any of its fields may be missing. */
  datatype Latest = Latest(date: Option<string>, quantity: Option<string>, price: Option<string>)

  /** The record a price list row passes: every field present. */
  function LatestOf(item: AlbaPriceList.PriceItem): Latest
  {
    Latest(Some(item.date), Some(item.quantity), Some(item.price))
  }

  /** `onAddNewPrice`: absent, a value that is not a function, or a price list's `addNewPrice`. */
  datatype Callback = NoCallback | NotAFunction | AddNewPrice(list: AlbaPriceList.PriceList)

  datatype Part = Date | Quantity | Price

  function Get(latest: Latest, part: Part): Option<string>
  {
    match part
    case Date => latest.date
    case Quantity => latest.quantity
    case Price => latest.price
  }

  /** `latest?.x || ''` for one field. */
  function Initial(latest: Option<Latest>, part: Part): string
  {
    if latest.Some? then OrElse(Get(latest.value, part), "") else ""
  }

  /** The check in `handleOk`: no field is empty or whitespace-only. */
  predicate Complete(date: string, quantity: string, price: string)
  {
    Text.Trim(date) != "" && Text.Trim(quantity) != "" && Text.Trim(price) != ""
  }

  /**
   * A row's entry comes back into the fields unchanged, and a screen opened
   * without `latest` starts with three empty fields, which the check refuses.
   */
  lemma InitialSpec(item: AlbaPriceList.PriceItem)
    ensures Initial(Some(LatestOf(item)), Date) == item.date
    ensures Initial(Some(LatestOf(item)), Quantity) == item.quantity
    ensures Initial(Some(LatestOf(item)), Price) == item.price
    ensures Initial(None, Date) == "" && !Complete("", "", "")
  {
  }

  /** The check passes exactly when every field has a character that is not whitespace. */
  lemma CompleteIff(date: string, quantity: string, price: string)
    ensures Complete(date, quantity, price) <==>
      !Text.AllSpace(date) && !Text.AllSpace(quantity) && !Text.AllSpace(price)
  {
    Text.TrimEmptyIff(date);
    Text.TrimEmptyIff(quantity);
    Text.TrimEmptyIff(price);
  }

  class PriceUpdateScreen {
    var date: string
    var quantity: string
    var price: string
    /** The `isViewOnly` route parameter: the fields are read-only and the Cancel and Ok buttons are hidden. */
    const isViewOnly: bool

    constructor (latest: Option<Latest>, viewOnly: bool)
      ensures date == Initial(latest, Date)
      ensures quantity == Initial(latest, Quantity)
      ensures price == Initial(latest, Price)
      ensures isViewOnly == viewOnly
    {
      date := if latest.Some? && Truthy(latest.value.date) then latest.value.date.value else "";
      quantity := if latest.Some? && Truthy(latest.value.quantity) then latest.value.quantity.value else "";
      price := if latest.Some? && Truthy(latest.value.price) then latest.value.price.value else "";
      isViewOnly := viewOnly;
    }

    /** Typing into the date field, which is editable only outside view mode. */
    method SetDate(s: string)
      requires !isViewOnly
      modifies this`date
      ensures date == s
    {
      date := s;
    }

    method SetQuantity(s: string)
      requires !isViewOnly
      modifies this`quantity
      ensures quantity == s
    {
      quantity := s;
    }

    method SetPrice(s: string)
      requires !isViewOnly
      modifies this`price
      ensures price == s
    {
      price := s;
    }

    /**
     * `handleOk()`, reachable only through the Ok button outside view mode.
     * An incomplete entry stops at the alert: nothing is handed over and the
     * screen stays. Otherwise the entry, exactly as typed, is passed to the
     * callback when it is a function, and the screen goes back either way.
     */
    method HandleOk(callback: Callback) returns (handedOver: Option<AlbaPriceList.PriceItem>, navigatedBack: bool)
      requires !isViewOnly
      modifies if callback.AddNewPrice? then {callback.list} else {}
      ensures navigatedBack <==> Complete(date, quantity, price)
      ensures handedOver.Some? <==> Complete(date, quantity, price) && callback.AddNewPrice?
      ensures handedOver.Some? ==> handedOver.value == AlbaPriceList.PriceItem(date, quantity, price)
      ensures callback.AddNewPrice? ==>
        callback.list.prices == if handedOver.Some? then [handedOver.value] + old(callback.list.prices) else old(callback.list.prices)
    {
      if Text.Trim(date) == "" || Text.Trim(quantity) == "" || Text.Trim(price) == "" {
        return None, false;
      }
      var newItem := AlbaPriceList.PriceItem(date, quantity, price);
      handedOver := None;
      if callback.AddNewPrice? {
        callback.list.AddNewPrice(newItem);
        handedOver := Some(newItem);
      }
      navigatedBack := true;
    }
  }

  /**
   * The Alba list's Update-button parameters given to this screen, followed
   * by typing and Ok (a pairing of the shared parameters, not an app route):
   * the screen opens editable and empty, and an entry typed in full ends up first in
   * the list with the earlier entries after it; anything less leaves the
   * list and the screen as they were.
   */
  method UpdateFromButton(list: AlbaPriceList.PriceList, d: string, q: string, p: string)
    returns (navigatedBack: bool)
    modifies list
    ensures navigatedBack <==> Complete(d, q, p)
    ensures Complete(d, q, p) ==> list.prices == [AlbaPriceList.PriceItem(d, q, p)] + old(list.prices)
    ensures !Complete(d, q, p) ==> list.prices == old(list.prices)
  {
    var params := AlbaPriceList.UpdateButtonParams();
    var screen := new PriceUpdateScreen(Some(LatestOf(params.latest)), params.isViewOnly);
    screen.SetDate(d);
    screen.SetQuantity(q);
    screen.SetPrice(p);
    var handedOver;
    handedOver, navigatedBack := screen.HandleOk(AddNewPrice(list));
  }
}
