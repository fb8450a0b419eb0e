/**
 * The supplier's reservation form (Pages/Supplier/ReservationForm.js): a
 * record of text fields and two payment flags, a map of error messages that
 * `validateForm` rebuilds field by field, and the submit guard.
 */
module ReservationForm {
  import opened Common
  import Text

  /** The keys the form's handlers and its error map use. */
  datatype Field =
    | Name | MobileNo | Location | TotalQuantity | QualityGrade | DeliveryDate
    | AccountNumber | BankName | BranchHolderName | PaymentMethod

  /** The fields with a text box wired to `handleInputChange` (spiceName is shown read-only). */
  predicate Editable(field: Field)
  {
    !field.PaymentMethod?
  }

  datatype Form = Form(
    name: string,
    mobileNo: string,
    location: string,
    spiceName: string,
    totalQuantity: string,
    qualityGrade: string,
    deliveryDate: string,
    paymentMethod: string,
    advancePayment: bool,
    cashOnDelivery: bool,
    accountNumber: string,
    bankName: string,
    branchHolderName: string)

  const NameRequired := "Name is required"
  const MobileRequired := "Mobile number is required"
  const LocationRequired := "Location is required"
  const QuantityRequired := "Quantity is required"
  const PaymentRequired := "Please select a payment method"
  const MobileInvalid := "Please enter a valid mobile number"

  /** The form as the screen opens with `productName` from the route. */
  function InitialForm(productName: Option<string>): (f: Form)
    ensures f.spiceName == (if productName.Some? then productName.value else "")
    ensures f.name == f.mobileNo == f.location == f.totalQuantity == f.qualityGrade == ""
    ensures f.deliveryDate == f.paymentMethod == f.accountNumber == f.bankName == f.branchHolderName == ""
    ensures !f.advancePayment && !f.cashOnDelivery
  {
    Form("", "", "", OrElse(productName, ""), "", "", "", "", false, false, "", "", "")
  }

  function Get(f: Form, field: Field): string
  {
    match field
    case Name => f.name
    case MobileNo => f.mobileNo
    case Location => f.location
    case TotalQuantity => f.totalQuantity
    case QualityGrade => f.qualityGrade
    case DeliveryDate => f.deliveryDate
    case AccountNumber => f.accountNumber
    case BankName => f.bankName
    case BranchHolderName => f.branchHolderName
    case PaymentMethod => f.paymentMethod
  }

  /** `{ ...prev, [field]: value }` for an editable field. */
  function SetField(f: Form, field: Field, value: string): Form
    requires Editable(field)
  {
    match field
    case Name => f.(name := value)
    case MobileNo => f.(mobileNo := value)
    case Location => f.(location := value)
    case TotalQuantity => f.(totalQuantity := value)
    case QualityGrade => f.(qualityGrade := value)
    case DeliveryDate => f.(deliveryDate := value)
    case AccountNumber => f.(accountNumber := value)
    case BankName => f.(bankName := value)
    case BranchHolderName => f.(branchHolderName := value)
  }

  /** Typing into one box changes that field and no other, and never the read-only spice name or the payment choice. */
  lemma SetFieldOnlyChanges(f: Form, field: Field, value: string)
    requires Editable(field)
    ensures Get(SetField(f, field, value), field) == value
    ensures forall other :: other != field ==> Get(SetField(f, field, value), other) == Get(f, other)
    ensures SetField(f, field, value).spiceName == f.spiceName
    ensures SetField(f, field, value).advancePayment == f.advancePayment
    ensures SetField(f, field, value).cashOnDelivery == f.cashOnDelivery
  {
  }

  /** `handlePaymentMethodSelect(method)`. */
  function SelectPayment(f: Form, m: string): Form
  {
    f.(paymentMethod := m, advancePayment := m == "advance", cashOnDelivery := m == "cod")
  }

  /** The flags follow the chosen method, so they are never both set. */
  ghost predicate FlagsMatch(f: Form)
  {
    && (f.advancePayment <==> f.paymentMethod == "advance")
    && (f.cashOnDelivery <==> f.paymentMethod == "cod")
  }

  lemma FlagsExclusive(f: Form)
    requires FlagsMatch(f)
    ensures !(f.advancePayment && f.cashOnDelivery)
  {
  }

  /** Choosing a method sets both flags from it, and every text field but the method keeps its value. */
  lemma SelectPaymentShape(f: Form, m: string)
    ensures FlagsMatch(SelectPayment(f, m))
    ensures !(SelectPayment(f, m).advancePayment && SelectPayment(f, m).cashOnDelivery)
    ensures Get(SelectPayment(f, m), PaymentMethod) == m
    ensures forall other :: other != PaymentMethod ==> Get(SelectPayment(f, m), other) == Get(f, other)
    ensures SelectPayment(f, m).spiceName == f.spiceName
  {
  }

  /** A character of the bracket `[\d\s\-\(\)]`. */
  predicate MobileChar(c: char)
  {
    Text.IsDigit(c) || Text.IsSpace(c) || c == '-' || c == '(' || c == ')'
  }

  /**
   * `/^\+?[\d\s\-\(\)]{10,15}$/.test(t)`: after an optional leading '+', 10 to 15
   * characters of the bracket and nothing else. A '+' is not in the bracket, so
   * a leading '+' can only be the optional one.
   */
  predicate MobileOk(t: string)
  {
    var start := if |t| > 0 && t[0] == '+' then 1 else 0;
    10 <= |t| - start <= 15 && forall i :: start <= i < |t| ==> MobileChar(t[i])
  }

  /** The pattern accepts 10 to 16 characters, a '+' only in front, and no letters. */
  lemma MobileOkShape(t: string)
    requires MobileOk(t)
    ensures 10 <= |t| <= 16
    ensures forall i :: 0 < i < |t| ==> t[i] != '+' && !('a' <= t[i] <= 'z') && !('A' <= t[i] <= 'Z')
  {
  }

  /** Examples: a local number and an international one with spaces are accepted; a short one and one with a letter are not. */
  lemma MobileOkExamples()
    ensures MobileOk("0702031499")
    ensures MobileOk("+94 77 123 4567")
    ensures !MobileOk("070203149")
    ensures !MobileOk("07020314x9")
  {
    assert !MobileChar("07020314x9"[8]);
  }

  /** The fields `validateForm` can complain about. */
  const ErrorFields: set<Field> := {Name, MobileNo, Location, TotalQuantity, PaymentMethod}

  /** The outcome of each test `validateForm` makes, in the order it makes them. */
  datatype Checks = Checks(
    nameBlank: bool, mobileBlank: bool, locationBlank: bool, quantityBlank: bool,
    paymentMissing: bool, mobileBad: bool)

  function ChecksOf(f: Form): Checks
  {
    Checks(
      Text.Trim(f.name) == "", Text.Trim(f.mobileNo) == "", Text.Trim(f.location) == "",
      Text.Trim(f.totalQuantity) == "", f.paymentMethod == "",
      f.mobileNo != "" && !MobileOk(Text.Trim(f.mobileNo)))
  }

  /** The message left for one field, if any; the pattern message wins over the required one. */
  function FieldError(c: Checks, field: Field): Option<string>
  {
    match field
    case Name => if c.nameBlank then Some(NameRequired) else None
    case MobileNo =>
      if c.mobileBad then Some(MobileInvalid)
      else if c.mobileBlank then Some(MobileRequired)
      else None
    case Location => if c.locationBlank then Some(LocationRequired) else None
    case TotalQuantity => if c.quantityBlank then Some(QuantityRequired) else None
    case PaymentMethod => if c.paymentMissing then Some(PaymentRequired) else None
    case _ => None
  }

  /** The error map for a set of test outcomes: one entry per field with a message. */
  function ErrorsFor(c: Checks): map<Field, Option<string>>
  {
    map k | k in ErrorFields && FieldError(c, k).Some? :: FieldError(c, k)
  }

  /** The error map `validateForm` commits for form `f`. */
  function FormErrors(f: Form): map<Field, Option<string>>
  {
    ErrorsFor(ChecksOf(f))
  }

  /** A map with exactly the entries the tests call for is the error map. */
  lemma ErrorsForByField(c: Checks, m: map<Field, Option<string>>)
    requires m.Keys <= ErrorFields
    requires forall k | k in m :: m[k] == FieldError(c, k)
    requires Name in m <==> c.nameBlank
    requires MobileNo in m <==> c.mobileBlank || c.mobileBad
    requires Location in m <==> c.locationBlank
    requires TotalQuantity in m <==> c.quantityBlank
    requires PaymentMethod in m <==> c.paymentMissing
    ensures m == ErrorsFor(c)
  {
    var e := ErrorsFor(c);
    forall k ensures (k in m <==> k in e) && (k in m ==> m[k] == e[k]) {
      assert k in e <==> k in ErrorFields && FieldError(c, k).Some?;
    }
  }

  lemma ErrorsForEmptyIff(c: Checks)
    ensures ErrorsFor(c) == map[] <==>
      !c.nameBlank && !c.mobileBlank && !c.locationBlank && !c.quantityBlank && !c.paymentMissing && !c.mobileBad
  {
    var e := ErrorsFor(c);
    if !c.nameBlank && !c.mobileBlank && !c.locationBlank && !c.quantityBlank && !c.paymentMissing && !c.mobileBad {
      assert forall k :: k !in e;
    } else {
      assert Name in e || MobileNo in e || Location in e || TotalQuantity in e || PaymentMethod in e;
    }
  }

  /** The form passes exactly when the four required texts are non-blank, the trimmed mobile number fits the pattern and a method is chosen. */
  lemma ValidIff(f: Form)
    ensures FormErrors(f) == map[] <==>
      && Text.Trim(f.name) != ""
      && MobileOk(Text.Trim(f.mobileNo))
      && Text.Trim(f.location) != ""
      && Text.Trim(f.totalQuantity) != ""
      && f.paymentMethod != ""
  {
    ErrorsForEmptyIff(ChecksOf(f));
    if f.mobileNo == "" {
      assert Text.Trim(f.mobileNo) == "";
    }
  }

  /** The optional texts, the spice name and the payment flags never produce an error, even when advance payment is chosen. */
  lemma OptionalFieldsIgnored(f: Form, qualityGrade: string, deliveryDate: string, accountNumber: string,
                              bankName: string, branchHolderName: string, spiceName: string, advance: bool, cod: bool)
    ensures FormErrors(f) == FormErrors(f.(qualityGrade := qualityGrade, deliveryDate := deliveryDate,
      accountNumber := accountNumber, bankName := bankName, branchHolderName := branchHolderName,
      spiceName := spiceName, advancePayment := advance, cashOnDelivery := cod))
  {
    var g := f.(qualityGrade := qualityGrade, deliveryDate := deliveryDate,
      accountNumber := accountNumber, bankName := bankName, branchHolderName := branchHolderName,
      spiceName := spiceName, advancePayment := advance, cashOnDelivery := cod);
    assert ChecksOf(f) == ChecksOf(g);
  }

  /** Choosing a payment method leaves no payment error for the next validation. */
  lemma SelectPaymentSatisfiesRequirement(f: Form, m: string)
    requires m != ""
    ensures PaymentMethod !in FormErrors(SelectPayment(f, m))
  {
    var c := ChecksOf(SelectPayment(f, m));
    assert !c.paymentMissing;
    assert FieldError(c, PaymentMethod).None?;
    assert PaymentMethod !in ErrorsFor(c);
  }

  /**
   * The body of `validateForm` once its tests are made: start from no errors,
   * record a message for each failed test in turn, and let the pattern
   * message replace the required one for the mobile number.
   */
  method BuildErrors(c: Checks) returns (newErrors: map<Field, Option<string>>)
    ensures newErrors == ErrorsFor(c)
  {
    newErrors := map[];
    if c.nameBlank {
      newErrors := newErrors[Name := Some(NameRequired)];
    }
    if c.mobileBlank {
      newErrors := newErrors[MobileNo := Some(MobileRequired)];
    }
    if c.locationBlank {
      newErrors := newErrors[Location := Some(LocationRequired)];
    }
    if c.quantityBlank {
      newErrors := newErrors[TotalQuantity := Some(QuantityRequired)];
    }
    if c.paymentMissing {
      newErrors := newErrors[PaymentMethod := Some(PaymentRequired)];
    }
    if c.mobileBad {
      newErrors := newErrors[MobileNo := Some(MobileInvalid)];
    }
    ErrorsForByField(c, newErrors);
  }

  /** What `shopInfo?.id || shopInfo` puts into the reservation. */
  datatype ShopRef = ShopIdRef(id: string) | ShopObject(shop: Option<ShopParam>)

  /** The route's `shopInfo`, reduced to the field the reservation reads. */
  datatype ShopParam = ShopParam(id: Option<string>)

  function ShopRefOf(shopInfo: Option<ShopParam>): (r: ShopRef)
    ensures r.ShopIdRef? <==> shopInfo.Some? && Truthy(shopInfo.value.id)
    ensures r.ShopIdRef? ==> r.id == shopInfo.value.id.value
    ensures r.ShopObject? ==> r.shop == shopInfo
  {
    if shopInfo.Some? && Truthy(shopInfo.value.id) then ShopIdRef(shopInfo.value.id.value) else ShopObject(shopInfo)
  }

  /** The `reservationData` record built on a valid submit; `createdAt` is the submit time. */
  datatype Reservation = Reservation(form: Form, productName: Option<string>, shopInfo: ShopRef, createdAt: int)

  class ReservationScreen {
    var form: Form
    var errors: map<Field, Option<string>>
    const productName: Option<string>
    const shopInfo: Option<ShopParam>

    ghost predicate Valid()
      reads this
    {
      FlagsMatch(form)
    }

    constructor (productName: Option<string>, shopInfo: Option<ShopParam>)
      ensures Valid()
      ensures form == InitialForm(productName) && errors == map[]
      ensures this.productName == productName && this.shopInfo == shopInfo
    {
      form := InitialForm(productName);
      errors := map[];
      this.productName := productName;
      this.shopInfo := shopInfo;
    }

    /** `handleInputChange(field, value)`: sets the field, and clears its error to null only when one is showing. */
    method HandleInputChange(field: Field, value: string)
      requires Valid() && Editable(field)
      modifies this`form, this`errors
      ensures Valid()
      ensures form == SetField(old(form), field, value)
      ensures errors == if field in old(errors) && Truthy(old(errors)[field]) then old(errors)[field := None] else old(errors)
    {
      form := SetField(form, field, value);
      if field in errors && Truthy(errors[field]) {
        errors := errors[field := None];
      }
    }

    /** `handlePaymentMethodSelect(method)`; the error map is left as it is. */
    method HandlePaymentMethodSelect(m: string)
      requires Valid()
      modifies this`form
      ensures Valid()
      ensures form == SelectPayment(old(form), m)
    {
      form := form.(paymentMethod := m, advancePayment := m == "advance", cashOnDelivery := m == "cod");
    }

    /** `validateForm()`: rebuilds the error map check by check, commits it, and reports whether it is empty. */
    method ValidateForm() returns (ok: bool)
      requires Valid()
      modifies this`errors
      ensures Valid()
      ensures errors == FormErrors(form)
      ensures ok <==> errors == map[]
    {
      var newErrors := BuildErrors(ChecksOf(form));
      errors := newErrors;
      ok := |newErrors| == 0;
    }

    /** `handleSubmit(now)`: nothing is built unless validation passes; otherwise the form, product name, shop reference and time. */
    method HandleSubmit(now: int) returns (submitted: Option<Reservation>)
      requires Valid()
      modifies this`errors
      ensures Valid()
      ensures errors == FormErrors(form)
      ensures submitted.Some? <==> FormErrors(form) == map[]
      ensures submitted.Some? ==> submitted.value == Reservation(form, productName, ShopRefOf(shopInfo), now)
    {
      var ok := ValidateForm();
      if !ok {
        return None;
      }
      submitted := Some(Reservation(form, productName, ShopRefOf(shopInfo), now));
    }
  }
}
