/**
 * The supplier's shop details screen (Pages/Supplier/ShopDetails.js): which
 * shop record it shows, the defaults that fill a missing record, the number
 * the Call button dials, the maps link of the Directions button, the date
 * labels and the first entries of the price history. Coordinates are kept
 * in ten-thousandths of a degree (5.9485 is 59485).
 */
module ShopDetails {
  import opened Common
  import Text

  /** The shop record the screen is opened with, or the server's detailed record; any field may be missing. */
  datatype ShopRecord = ShopRecord(
    shopId: Option<string>,
    productId: Option<string>,
    shopName: Option<string>,
    price: Option<string>,
    availability: Option<string>,
    weeklyQuantity: Option<string>,
    contactNumber: Option<string>,
    shopLocation: Option<string>,
    shopOwnerName: Option<string>,
    telephone: Option<string>,
    description: Option<string>,
    latitude: Option<int>,
    longitude: Option<int>)

  /** A number is truthy when present and not zero. */
  predicate NumTruthy(x: Option<int>)
  {
    x.Some? && x.value != 0
  }

  /** `x || fallback` for an optional number. */
  function NumOrElse(x: Option<int>, fallback: int): int
  {
    if NumTruthy(x) then x.value else fallback
  }

  const FallbackDescription := "Quality spices and fresh ingredients at competitive prices"
  const FallbackShopName := "Samagi Store"
  const FallbackPrice := "Rs. 120/100g"
  const FallbackAvailability := "In Stock"
  const FallbackWeeklyQuantity := "50 units/week"
  const FallbackContactNumber := "0702031499"
  const FallbackLocation := "Kirinda, Matara"
  const FallbackOwnerName := "Mr. Perera"
  const FallbackTelephone := "0412234567"
  const FallbackLatitude := 59485
  const FallbackLongitude := 805353

  /** `getFallbackShopInfo()`: the shop's own record with its gaps filled and three fields overwritten. */
  function FallbackShopInfo(shop: ShopRecord): ShopRecord
  {
    shop.(
      description := Some(FallbackDescription),
      shopName := Some(OrElse(shop.shopName, FallbackShopName)),
      price := Some(OrElse(shop.price, FallbackPrice)),
      availability := Some(OrElse(shop.availability, FallbackAvailability)),
      weeklyQuantity := Some(OrElse(shop.weeklyQuantity, FallbackWeeklyQuantity)),
      contactNumber := Some(OrElse(shop.contactNumber, FallbackContactNumber)),
      shopLocation := Some(OrElse(shop.shopLocation, FallbackLocation)),
      shopOwnerName := Some(FallbackOwnerName),
      telephone := Some(FallbackTelephone),
      latitude := Some(NumOrElse(shop.latitude, FallbackLatitude)),
      longitude := Some(NumOrElse(shop.longitude, FallbackLongitude)))
  }

  /**
   * The fallback keeps the shop's ids; it keeps each of the eight defaulted
   * fields the shop has a truthy value for and puts the fixed default in the
   * others (so a latitude of 0 is replaced too); description, owner name and
   * telephone are always the fixed ones; and every displayed field ends up
   * non-empty.
   */
  lemma FallbackShopInfoSpec(shop: ShopRecord)
    ensures var f := FallbackShopInfo(shop);
      && f.shopId == shop.shopId && f.productId == shop.productId
      && f.description == Some(FallbackDescription)
      && f.shopOwnerName == Some(FallbackOwnerName) && f.telephone == Some(FallbackTelephone)
      && (Truthy(shop.shopName) ==> f.shopName == shop.shopName)
      && (!Truthy(shop.shopName) ==> f.shopName == Some(FallbackShopName))
      && (Truthy(shop.price) ==> f.price == shop.price)
      && (!Truthy(shop.price) ==> f.price == Some(FallbackPrice))
      && (Truthy(shop.availability) ==> f.availability == shop.availability)
      && (!Truthy(shop.availability) ==> f.availability == Some(FallbackAvailability))
      && (Truthy(shop.weeklyQuantity) ==> f.weeklyQuantity == shop.weeklyQuantity)
      && (!Truthy(shop.weeklyQuantity) ==> f.weeklyQuantity == Some(FallbackWeeklyQuantity))
      && (Truthy(shop.contactNumber) ==> f.contactNumber == shop.contactNumber)
      && (!Truthy(shop.contactNumber) ==> f.contactNumber == Some(FallbackContactNumber))
      && (Truthy(shop.shopLocation) ==> f.shopLocation == shop.shopLocation)
      && (!Truthy(shop.shopLocation) ==> f.shopLocation == Some(FallbackLocation))
      && (NumTruthy(shop.latitude) ==> f.latitude == shop.latitude)
      && (!NumTruthy(shop.latitude) ==> f.latitude == Some(FallbackLatitude))
      && (NumTruthy(shop.longitude) ==> f.longitude == shop.longitude)
      && (!NumTruthy(shop.longitude) ==> f.longitude == Some(FallbackLongitude))
      && Truthy(f.shopName) && Truthy(f.price) && Truthy(f.availability) && Truthy(f.weeklyQuantity)
      && Truthy(f.contactNumber) && Truthy(f.shopLocation)
      && NumTruthy(f.latitude) && NumTruthy(f.longitude)
  {
  }

  /** Falling back twice is falling back once. */
  lemma FallbackShopInfoIdempotent(shop: ShopRecord)
    ensures FallbackShopInfo(FallbackShopInfo(shop)) == FallbackShopInfo(shop)
  {
  }

  /** How the details request settled: a JSON answer with `response.ok`, `data.success` and `data.shopDetails`, or a thrown error. */
  datatype DetailsReply = Answer(ok: bool, success: bool, shopDetails: Option<ShopRecord>) | Thrown

  /** Whether `fetchDetailedShopInfo` sends a request at all. */
  predicate DetailsRequested(shop: ShopRecord)
  {
    Truthy(shop.shopId)
  }

  /** The record `fetchDetailedShopInfo` leaves in `detailedShopInfo`, once its request (if any) has settled with `reply`. */
  function DetailedShopInfo(shop: ShopRecord, reply: DetailsReply): ShopRecord
  {
    if !DetailsRequested(shop) then FallbackShopInfo(shop)
    else match reply
      case Answer(ok, success, details) =>
        if ok && success && details.Some? then details.value else FallbackShopInfo(shop)
      case Thrown => FallbackShopInfo(shop)
  }

  /**
   * Without a shop id no request is sent, so the reply does not matter and
   * the fallback is shown; with one, the server's record is shown exactly
   * when the answer is ok, successful and carries a record, and the
   * fallback otherwise, thrown errors included.
   */
  lemma DetailedShopInfoSpec(shop: ShopRecord, reply: DetailsReply, other: DetailsReply)
    ensures !DetailsRequested(shop) ==>
      DetailedShopInfo(shop, reply) == FallbackShopInfo(shop) == DetailedShopInfo(shop, other)
    ensures DetailsRequested(shop) && reply.Answer? && reply.ok && reply.success && reply.shopDetails.Some? ==>
      DetailedShopInfo(shop, reply) == reply.shopDetails.value
    ensures DetailsRequested(shop) && !(reply.Answer? && reply.ok && reply.success && reply.shopDetails.Some?) ==>
      DetailedShopInfo(shop, reply) == FallbackShopInfo(shop)
  {
  }

  /** The number `handleCall` dials: `contactNumber || telephone`, or none, which gives the error alert. */
  function CallNumber(info: Option<ShopRecord>): Option<string>
  {
    if info.None? then None
    else if Truthy(info.value.contactNumber) then info.value.contactNumber
    else if Truthy(info.value.telephone) then info.value.telephone
    else None
  }

  /**
   * A call is offered only with a non-empty number; the contact number
   * wins over the telephone; the error alert comes exactly when neither is
   * there; and a fallback record can always be called.
   */
  lemma CallNumberSpec(info: Option<ShopRecord>, shop: ShopRecord)
    ensures CallNumber(info).Some? ==> CallNumber(info).value != ""
    ensures CallNumber(info).None? <==>
      info.None? || (!Truthy(info.value.contactNumber) && !Truthy(info.value.telephone))
    ensures info.Some? && Truthy(info.value.contactNumber) ==> CallNumber(info) == info.value.contactNumber
    ensures info.Some? && !Truthy(info.value.contactNumber) ==> CallNumber(info) == OptionOf(info.value.telephone)
    ensures CallNumber(Some(FallbackShopInfo(shop))).Some?
  {
  }

  /** A truthy optional text, or none. */
  function OptionOf(s: Option<string>): Option<string>
  {
    if Truthy(s) then s else None
  }

  /** The two buttons of the directions alert. */
  datatype MapsApp = GoogleMaps | AppleMaps

  const GoogleDirectionsBase := "https://www.google.com/maps/dir/?api=1&destination="
  const GoogleSearchBase := "https://www.google.com/maps/search/?api=1&query="
  const AppleDirectionsBase := "http://maps.apple.com/?daddr="
  const AppleSearchBase := "http://maps.apple.com/?q="

  /** A maps link: directions to `latitude,longitude`, or a search for the (URL-encoded) location. */
  datatype MapsUrl =
    | Directions(base: string, latitude: int, longitude: int)
    | Search(base: string, location: Option<string>)

  /** The link a directions button opens. */
  function DirectionsUrl(app: MapsApp, info: ShopRecord): MapsUrl
  {
    if NumTruthy(info.latitude) && NumTruthy(info.longitude) then
      Directions(if app == GoogleMaps then GoogleDirectionsBase else AppleDirectionsBase, info.latitude.value, info.longitude.value)
    else
      Search(if app == GoogleMaps then GoogleSearchBase else AppleSearchBase, info.shopLocation)
  }

  /** The link tried when Apple Maps cannot be opened. */
  function AppleFallbackUrl(info: ShopRecord): MapsUrl
  {
    if NumTruthy(info.latitude) && NumTruthy(info.longitude) then
      Directions(GoogleDirectionsBase, info.latitude.value, info.longitude.value)
    else
      Search(GoogleSearchBase, info.shopLocation)
  }

  /**
   * Both buttons give directions to the coordinates exactly when both are
   * non-zero and search for the location otherwise; the two apps always agree
   * on which; Apple's fallback is the Google link; and a fallback record
   * always gets directions.
   */
  lemma DirectionsUrlSpec(app: MapsApp, info: ShopRecord, shop: ShopRecord)
    ensures DirectionsUrl(app, info).Directions? <==> NumTruthy(info.latitude) && NumTruthy(info.longitude)
    ensures DirectionsUrl(app, info).Directions? ==>
      DirectionsUrl(app, info).latitude == info.latitude.value && DirectionsUrl(app, info).longitude == info.longitude.value
    ensures DirectionsUrl(app, info).Search? ==> DirectionsUrl(app, info).location == info.shopLocation
    ensures DirectionsUrl(GoogleMaps, info).Directions? == DirectionsUrl(AppleMaps, info).Directions?
    ensures AppleFallbackUrl(info) == DirectionsUrl(GoogleMaps, info)
    ensures DirectionsUrl(app, FallbackShopInfo(shop)).Directions?
  {
  }

  /** `formatDate(dateString)` for the date's local parts: day, 1-based month and year joined by '/'. */
  function FormatDate(d: DateParts): string
    requires ValidDate(d)
  {
    Text.NatToString(d.day) + "/" + Text.NatToString(d.month + 1) + "/" + Text.NatToString(d.year)
  }

  /** The label reads back: split at '/' it is the day, the 1-based month and the year. */
  lemma FormatDateParses(d: DateParts)
    requires ValidDate(d)
    ensures
      var parts := Text.Split(FormatDate(d), '/');
      && |parts| == 3
      && Text.AllDigits(parts[0]) && Text.AllDigits(parts[1]) && Text.AllDigits(parts[2])
      && Text.DigitsValue(parts[0]) == d.day
      && Text.DigitsValue(parts[1]) == d.month + 1
      && Text.DigitsValue(parts[2]) == d.year
  {
    Text.JoinedNumbersParse(d.day, d.month + 1, d.year, '/');
  }

  /** One entry of the price history, its date given by its local parts. */
  datatype HistoryEntry = HistoryEntry(date: DateParts, pricePer100g: string, weeklyQuantity: string)

  /** `priceHistory.slice(0, 3)`. */
  function ShownEntries(history: seq<HistoryEntry>): seq<HistoryEntry>
  {
    if |history| <= 3 then history else history[..3]
  }

  /** The card shows the first three entries, or all of them when there are fewer, in their order. */
  lemma ShownEntriesSpec(history: seq<HistoryEntry>)
    ensures |ShownEntries(history)| == if |history| < 3 then |history| else 3
    ensures ShownEntries(history) == history[..|ShownEntries(history)|]
  {
  }

  /**
   * The three entries the card offers when the history is empty (2025-04-05,
   * 2025-03-05 and 2025-02-05). A date-only string is read as midnight UTC, so
   * the local parts depend on the device's time zone: these are the parts in
   * UTC+5:30 (Sri Lanka), 05:30 on the same day. Any zone at or east of UTC
   * gives the same day; west of UTC the day is the 4th, whose label differs
   * from the written one as well.
   */
  const PlaceholderEntries: seq<HistoryEntry> := [
    HistoryEntry(DateParts(2025, 3, 5, 6, 5, 30), "120", "50"),
    HistoryEntry(DateParts(2025, 2, 5, 3, 5, 30), "115", "45"),
    HistoryEntry(DateParts(2025, 1, 5, 3, 5, 30), "110", "40")
  ]

  /** The date labels of those entries, as the screen writes them out. */
  const WrittenPlaceholderLabels: seq<string> := ["4/5/2025", "3/5/2025", "2/5/2025"]

  /**
   * The written labels put the month first, while `formatDate`, which labels
   * every real entry, puts the day first: the entry of 5 April 2025 is
   * labelled "4/5/2025" but would be formatted "5/4/2025".
   */
  lemma PlaceholderLabelsDisagree()
    ensures ValidDate(PlaceholderEntries[0].date)
    ensures FormatDate(PlaceholderEntries[0].date) == "5/4/2025"
    ensures WrittenPlaceholderLabels[0] != FormatDate(PlaceholderEntries[0].date)
  {
    assert Text.NatToString(2025) == "2025" by {
      assert Text.NatToString(2) == "2" && Text.NatToString(20) == "20" && Text.NatToString(202) == "202";
    }
  }

  /** The date labels of the rows the card shows: the real entries' labels, or the placeholders' when there are none. */
  function RowLabels(history: seq<HistoryEntry>): (labels: seq<string>)
    requires forall e :: e in history ==> ValidDate(e.date)
    ensures |labels| == if history == [] then 3 else |ShownEntries(history)|
  {
    var rows := if history == [] then PlaceholderEntries else ShownEntries(history);
    assert forall e :: e in rows ==> ValidDate(e.date);
    seq(|rows|, i requires 0 <= i < |rows| => FormatDate(rows[i].date))
  }

  /**
   * Every row label reads back as its entry's date, day first, placeholders
   * included.
   */
  lemma RowLabelsParse(history: seq<HistoryEntry>, i: nat)
    requires forall e :: e in history ==> ValidDate(e.date)
    requires i < |RowLabels(history)|
    ensures
      var e := if history == [] then PlaceholderEntries[i] else history[i];
      var parts := Text.Split(RowLabels(history)[i], '/');
      && |parts| == 3
      && Text.AllDigits(parts[0]) && Text.AllDigits(parts[1]) && Text.AllDigits(parts[2])
      && Text.DigitsValue(parts[0]) == e.date.day
      && Text.DigitsValue(parts[1]) == e.date.month + 1
      && Text.DigitsValue(parts[2]) == e.date.year
  {
    var rows := if history == [] then PlaceholderEntries else ShownEntries(history);
    assert rows[i] in rows;
    ShownEntriesSpec(history);
    FormatDateParses(rows[i].date);
  }
}
