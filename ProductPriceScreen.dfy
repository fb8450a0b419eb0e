/**
 * The supplier's price-history screen for one product
 * (Pages/ProductPriceScreen.js): the history array, which `getCurrentPrice`
 * sorts in place newest first; the update-price modal and its guards; the
 * product picture's source; and the date label of each history row.
 */
module ProductPriceScreen {
  import opened Common
  import Text

  const ApiBaseUrl := "http://192.168.0.100:5000"

  /**
   * One history entry. `date` is the entry's time as a number (what
   * `new Date(date)` yields); the price and the weekly quantity are kept as
   * the text `toString` gives them, absent when the field is missing.
   */
  datatype PriceEntry = PriceEntry(id: string, date: int, pricePer100g: Option<string>, weeklyQuantity: Option<string>)

  predicate SortedNewestFirst(s: seq<PriceEntry>)
  {
    forall k, l :: 0 <= k < l < |s| ==> s[k].date >= s[l].date
  }

  /**
   * `priceHistory.sort((a, b) => new Date(b.date) - new Date(a.date))`: the
   * array is reordered in place, newest first, and holds the same entries.
   */
  method SortNewestFirst(a: array<PriceEntry>)
    modifies a
    ensures SortedNewestFirst(a[..])
    ensures multiset(a[..]) == multiset(old(a[..]))
  {
    if a.Length == 0 {
      return;
    }
    var i := 1;
    while i < a.Length
      invariant 1 <= i <= a.Length
      invariant SortedNewestFirst(a[..i])
      invariant multiset(a[..]) == multiset(old(a[..]))
    {
      InsertNewestFirst(a, i);
      i := i + 1;
    }
  }

  /** One insertion-sort pass: `a[i]` moves left past every older entry, so `a[..i + 1]` becomes sorted. */
  method InsertNewestFirst(a: array<PriceEntry>, i: int)
    requires 1 <= i < a.Length && SortedNewestFirst(a[..i])
    modifies a
    ensures SortedNewestFirst(a[..i + 1])
    ensures multiset(a[..]) == multiset(old(a[..]))
  {
    var j := i;
    assert SortedApartFrom(a[..i + 1], j) by {
      assert forall k :: 0 <= k < i ==> a[..i + 1][k] == a[..i][k];
    }
    while j > 0 && a[j - 1].date < a[j].date
      invariant 0 <= j <= i
      invariant SortedApartFrom(a[..i + 1], j)
      invariant NewerThanRest(a[..i + 1], j)
      invariant multiset(a[..]) == multiset(old(a[..]))
    {
      ghost var before := a[..];
      a[j - 1], a[j] := a[j], a[j - 1];
      assert a[..] == Swapped(before, j - 1, j);
      assert a[..i + 1] == Swapped(before[..i + 1], j - 1, j);
      SwapKeepsMultiset(before, j - 1, j);
      SwapStep(before[..i + 1], j);
      j := j - 1;
    }
    InsertionDone(a[..i + 1], j);
  }

  function Swapped(s: seq<PriceEntry>, x: int, y: int): seq<PriceEntry>
    requires 0 <= x < y < |s|
  {
    s[x := s[y]][y := s[x]]
  }

  /** Every pair of entries not involving position `j` is in newest-first order. */
  predicate SortedApartFrom(s: seq<PriceEntry>, j: int)
  {
    forall k, l :: 0 <= k < l < |s| && k != j && l != j ==> s[k].date >= s[l].date
  }

  /** The entry at `j` is newer than every entry after it. */
  predicate NewerThanRest(s: seq<PriceEntry>, j: int)
    requires 0 <= j < |s|
  {
    forall l :: j < l < |s| ==> s[j].date > s[l].date
  }

  /** Swapping the moving entry with an older left neighbour moves it one place left. */
  lemma SwapStep(s: seq<PriceEntry>, j: int)
    requires 0 < j < |s| && SortedApartFrom(s, j) && NewerThanRest(s, j)
    requires s[j - 1].date < s[j].date
    ensures SortedApartFrom(Swapped(s, j - 1, j), j - 1)
    ensures NewerThanRest(Swapped(s, j - 1, j), j - 1)
  {
  }

  /** Once the moving entry is no newer than its left neighbour, the whole prefix is sorted. */
  lemma InsertionDone(s: seq<PriceEntry>, j: int)
    requires 0 <= j < |s| && SortedApartFrom(s, j) && NewerThanRest(s, j)
    requires j > 0 ==> s[j - 1].date >= s[j].date
    ensures SortedNewestFirst(s)
  {
    forall k, l | 0 <= k < l < |s| ensures s[k].date >= s[l].date {
      if l == j && k < j - 1 {
        assert s[k].date >= s[j - 1].date;
      }
    }
  }

  lemma SwapKeepsMultiset(s: seq<PriceEntry>, x: int, y: int)
    requires 0 <= x < y < |s|
    ensures multiset(Swapped(s, x, y)) == multiset(s)
  {
  }

  /** Where the product picture comes from: a remote URI or a bundled asset. */
  datatype ImageSource = Uri(uri: string) | Asset(handle: int)

  /** `getProductImageSource()` for the product's `image` field. */
  function ProductImageSource(image: ImageValue): ImageSource
  {
    match image
    case ImageString(path) =>
      if Text.StartsWith(path, "/uploads") then Uri(ApiBaseUrl + path)
      else if Text.StartsWith(path, "http") then Uri(path)
      else Asset(CinnamonPicture.handle)
    case ImageAsset(handle) => Asset(handle)
    case _ => Asset(CinnamonPicture.handle)
  }

  lemma StartsWithAppend(a: string, b: string, prefix: string)
    requires Text.StartsWith(a, prefix)
    ensures Text.StartsWith(a + b, prefix)
  {
    assert (a + b)[..|prefix|] == a[..|prefix|];
  }

  /**
   * A server path becomes a URI on the API server that ends with the path; a
   * URL is used as it is; a bundled asset is kept; everything else (no
   * image, a `{ uri }` object, any other string) shows the cinnamon picture.
   * Every URI produced is an `http` URL ending with the stored string.
   */
  lemma ProductImageSourceCases(image: ImageValue)
    ensures ProductImageSource(image).Uri? <==>
      image.ImageString? && (Text.StartsWith(image.text, "/uploads") || Text.StartsWith(image.text, "http"))
    ensures ProductImageSource(image).Uri? ==>
      var uri := ProductImageSource(image).uri;
      && Text.StartsWith(uri, "http")
      && |image.text| <= |uri| && uri[|uri| - |image.text|..] == image.text
    ensures image.ImageString? && Text.StartsWith(image.text, "/uploads") ==>
      ProductImageSource(image).uri == ApiBaseUrl + image.text
    ensures image.ImageString? && !Text.StartsWith(image.text, "/uploads") && Text.StartsWith(image.text, "http") ==>
      ProductImageSource(image) == Uri(image.text)
    ensures image.ImageString? && !Text.StartsWith(image.text, "/uploads") && !Text.StartsWith(image.text, "http") ==>
      ProductImageSource(image) == Asset(CinnamonPicture.handle)
    ensures image.ImageAsset? ==> ProductImageSource(image) == Asset(image.handle)
    ensures !image.ImageString? && !image.ImageAsset? ==> ProductImageSource(image) == Asset(CinnamonPicture.handle)
  {
    if image.ImageString? && Text.StartsWith(image.text, "/uploads") {
      assert Text.StartsWith(ApiBaseUrl, "http");
      StartsWithAppend(ApiBaseUrl, image.text, "http");
      var uri := ApiBaseUrl + image.text;
      assert uri[|uri| - |image.text|..] == image.text;
    }
  }

  const DayAbbrevs: seq<string> := ["Sun", "Mon", "Tue", "Wed", "Thu", "Fri", "Sat"]

  /** `formatDateDisplay(date)`: the short weekday, then day, 1-based month and year joined by '-'. */
  function FormatDateDisplay(d: DateParts): string
    requires ValidDate(d)
  {
    DayAbbrevs[d.weekday] + " " + (Text.NatToString(d.day) + "-" + Text.NatToString(d.month + 1) + "-" + Text.NatToString(d.year))
  }

  /** A word and a text joined by a space, the word free of spaces, split at the first space back into the two. */
  lemma WordAndRest(word: string, rest: string)
    requires ' ' !in word && ' ' !in rest
    ensures Text.Split(word + " " + rest, ' ') == [word, rest]
  {
    assert word + " " + rest == word + [' '] + rest;
    Text.SplitJoin(word, ' ', rest);
    assert Text.Split(rest, ' ') == [rest];
  }


  /** A space-free word, a space and three numbers joined by '-' read back as the word and the three numbers. */
  lemma ShortLabelParses(word: string, x: nat, y: nat, z: nat)
    requires ' ' !in word
    ensures
      var parts := Text.Split(word + " " + (Text.NatToString(x) + "-" + Text.NatToString(y) + "-" + Text.NatToString(z)), ' ');
      && |parts| == 2 && parts[0] == word
      && var nums := Text.Split(parts[1], '-');
      && |nums| == 3
      && Text.AllDigits(nums[0]) && Text.AllDigits(nums[1]) && Text.AllDigits(nums[2])
      && Text.DigitsValue(nums[0]) == x && Text.DigitsValue(nums[1]) == y && Text.DigitsValue(nums[2]) == z
  {
    var a, b, c := Text.NatToString(x), Text.NatToString(y), Text.NatToString(z);
    Text.JoinedNumbersParse(x, y, z, '-');
    Text.NotInDigits(a, ' ');
    Text.NotInDigits(b, ' ');
    Text.NotInDigits(c, ' ');
    WordAndRest(word, a + "-" + b + "-" + c);
  }

  /**
   * The label reads back: split at the space it is the weekday's abbreviation
   * and a date, and the date split at '-' gives the day, the 1-based month
   * and the year.
   */
  lemma FormatDateDisplayParses(d: DateParts)
    requires ValidDate(d)
    ensures
      var parts := Text.Split(FormatDateDisplay(d), ' ');
      && |parts| == 2 && parts[0] == DayAbbrevs[d.weekday]
      && var nums := Text.Split(parts[1], '-');
      && |nums| == 3
      && Text.AllDigits(nums[0]) && Text.AllDigits(nums[1]) && Text.AllDigits(nums[2])
      && Text.DigitsValue(nums[0]) == d.day
      && Text.DigitsValue(nums[1]) == d.month + 1
      && Text.DigitsValue(nums[2]) == d.year
  {
    assert ' ' !in DayAbbrevs[d.weekday];
    ShortLabelParses(DayAbbrevs[d.weekday], d.day, d.month + 1, d.year);
  }

  /** The PUT request `handleUpdatePrice` sends: the entry's id and the two typed texts, before number parsing. */
  datatype PriceUpdate = PriceUpdate(priceId: string, pricePer100g: string, weeklyQuantity: string)

  class PriceScreen {
    var priceHistory: array<PriceEntry>
    var loading: bool
    var showUpdatePriceModal: bool
    var updatePricePer100g: string
    var updateWeeklyQuantity: string
    var isUpdatingPrice: bool
    var currentPriceItem: Option<PriceEntry>
    /** Every value `isUpdatingPrice` has been set to, oldest first. */
    ghost var updatingTrace: seq<bool>

    constructor ()
      ensures priceHistory.Length == 0 && loading && !showUpdatePriceModal && !isUpdatingPrice
      ensures updatePricePer100g == "" && updateWeeklyQuantity == "" && currentPriceItem == None
      ensures updatingTrace == []
    {
      priceHistory := new PriceEntry[0];
      loading := true;
      showUpdatePriceModal := false;
      updatePricePer100g := "";
      updateWeeklyQuantity := "";
      isUpdatingPrice := false;
      currentPriceItem := None;
      updatingTrace := [];
    }

    /**
     * `fetchPriceHistory()` once the reply is known: an OK reply installs
     * `data.prices`, or an empty list when it is missing; any failure
     * installs an empty list; loading ends either way.
     */
    method FetchPriceHistory(reply: Reply<Option<seq<PriceEntry>>>)
      modifies this`priceHistory, this`loading
      ensures fresh(priceHistory) && !loading
      ensures priceHistory[..] == if reply.Ok? && reply.body.Some? then reply.body.value else []
    {
      var prices: seq<PriceEntry> := [];
      if reply.Ok? && reply.body.Some? {
        prices := reply.body.value;
      }
      priceHistory := new PriceEntry[|prices|](i requires 0 <= i < |prices| => prices[i]);
      loading := false;
    }

    /**
     * `getCurrentPrice()`: null for an empty history; otherwise the history
     * is sorted in place newest first and its first entry, one whose date is
     * at least every entry's date, is returned.
     */
    method GetCurrentPrice() returns (latest: Option<PriceEntry>)
      modifies priceHistory
      ensures latest.None? <==> priceHistory.Length == 0
      ensures priceHistory.Length > 0 ==> latest == Some(priceHistory[0])
      ensures latest.Some? ==> latest.value in old(priceHistory[..])
      ensures latest.Some? ==> forall e :: e in old(priceHistory[..]) ==> e.date <= latest.value.date
      ensures SortedNewestFirst(priceHistory[..])
      ensures multiset(priceHistory[..]) == multiset(old(priceHistory[..]))
    {
      if priceHistory.Length == 0 {
        return None;
      }
      SortNewestFirst(priceHistory);
      latest := Some(priceHistory[0]);
      assert priceHistory[0] in multiset(old(priceHistory[..]));
      forall e | e in old(priceHistory[..]) ensures e.date <= priceHistory[0].date {
        assert e in multiset(priceHistory[..]);
        var k :| 0 <= k < priceHistory.Length && priceHistory[k] == e;
      }
    }

    /**
     * `handleUpdateClick()`: with a latest entry, selects it, prefills the two
     * boxes from it ('' for a missing field) and opens the modal; with an
     * empty history only the alert is shown.
     */
    method HandleUpdateClick() returns (alerted: bool)
      modifies this`currentPriceItem, this`updatePricePer100g, this`updateWeeklyQuantity, this`showUpdatePriceModal, priceHistory
      ensures alerted <==> priceHistory.Length == 0
      ensures SortedNewestFirst(priceHistory[..])
      ensures multiset(priceHistory[..]) == multiset(old(priceHistory[..]))
      ensures alerted ==>
        && currentPriceItem == old(currentPriceItem) && showUpdatePriceModal == old(showUpdatePriceModal)
        && updatePricePer100g == old(updatePricePer100g) && updateWeeklyQuantity == old(updateWeeklyQuantity)
      ensures !alerted ==>
        && currentPriceItem == Some(priceHistory[0]) && showUpdatePriceModal
        && updatePricePer100g == OrElse(priceHistory[0].pricePer100g, "")
        && updateWeeklyQuantity == OrElse(priceHistory[0].weeklyQuantity, "")
        && forall e :: e in old(priceHistory[..]) ==> e.date <= priceHistory[0].date
    {
      var latestPrice := GetCurrentPrice();
      if latestPrice.Some? {
        currentPriceItem := latestPrice;
        updatePricePer100g := OrElse(latestPrice.value.pricePer100g, "");
        updateWeeklyQuantity := OrElse(latestPrice.value.weeklyQuantity, "");
        showUpdatePriceModal := true;
        alerted := false;
      } else {
        alerted := true;
      }
    }

    /**
     * `handleUpdatePrice()` once the server's reply and the refetch's reply are
     * known. Without a selected entry nothing happens and nothing is sent.
     * Otherwise the update is sent for the selected entry; an OK reply clears
     * the boxes, closes the modal, drops the selection and refetches the
     * history; a failure leaves all of those as they were. The busy flag is
     * raised before the request and lowered after it in every case.
     */
    method HandleUpdatePrice(reply: Reply<()>, refetch: Reply<Option<seq<PriceEntry>>>) returns (sent: Option<PriceUpdate>)
      modifies this
      ensures old(currentPriceItem).None? ==> sent.None? && unchanged(this)
      ensures old(currentPriceItem).Some? ==>
        && sent == Some(PriceUpdate(old(currentPriceItem).value.id, old(updatePricePer100g), old(updateWeeklyQuantity)))
        && updatingTrace == old(updatingTrace) + [true, false] && !isUpdatingPrice
      ensures old(currentPriceItem).Some? && reply.Ok? ==>
        && updatePricePer100g == "" && updateWeeklyQuantity == "" && !showUpdatePriceModal && currentPriceItem.None?
        && fresh(priceHistory) && !loading
        && priceHistory[..] == (if refetch.Ok? && refetch.body.Some? then refetch.body.value else [])
      ensures old(currentPriceItem).Some? && !reply.Ok? ==>
        && updatePricePer100g == old(updatePricePer100g) && updateWeeklyQuantity == old(updateWeeklyQuantity)
        && showUpdatePriceModal == old(showUpdatePriceModal) && currentPriceItem == old(currentPriceItem)
        && priceHistory == old(priceHistory) && loading == old(loading)
    {
      if currentPriceItem.None? {
        return None;
      }
      isUpdatingPrice := true;
      updatingTrace := updatingTrace + [true];
      sent := Some(PriceUpdate(currentPriceItem.value.id, updatePricePer100g, updateWeeklyQuantity));
      if reply.Ok? {
        updatePricePer100g := "";
        updateWeeklyQuantity := "";
        showUpdatePriceModal := false;
        currentPriceItem := None;
        FetchPriceHistory(refetch);
      }
      isUpdatingPrice := false;
      updatingTrace := updatingTrace + [false];
    }
  }
}
