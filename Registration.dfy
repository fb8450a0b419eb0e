/**
 * The general shop registration form (Pages/RegistrationScreen.js): its
 * eight field names, the empty initial values built from them, and the
 * field rules of its validation schema, compared with the buyer form's.
 */
module Registration {
  import Text
  import BuyerRegistration

  const FieldNames: seq<string> := [
    "shopName", "shopOwnerName", "shopLocation", "contactNumber",
    "products", "emailAddress", "password", "confirmPassword"
  ]

  /** `fields.reduce((acc, field) => ({ ...acc, [field.name]: '' }), acc)`. */
  function InitialValuesFrom(acc: map<string, string>, fields: seq<string>): map<string, string>
    decreases |fields|
  {
    if fields == [] then acc else InitialValuesFrom(acc[fields[0] := ""], fields[1..])
  }

  /** `initialValues`: the reduce started from `{}`. */
  function InitialValues(): map<string, string>
  {
    InitialValuesFrom(map[], FieldNames)
  }

  /** The reduce adds exactly the listed names, each mapped to '', to what it started from. */
  lemma {:induction false} InitialValuesFromSpec(acc: map<string, string>, fields: seq<string>)
    ensures InitialValuesFrom(acc, fields).Keys == acc.Keys + set f | f in fields
    ensures forall k :: k in InitialValuesFrom(acc, fields) ==>
      InitialValuesFrom(acc, fields)[k] == if k in fields then "" else acc[k]
    decreases |fields|
  {
    if fields != [] {
      InitialValuesFromSpec(acc[fields[0] := ""], fields[1..]);
      assert forall f :: f in fields <==> f == fields[0] || f in fields[1..];
    }
  }

  /** The form starts with every one of the eight fields empty, and no other key. */
  lemma InitialValuesSpec()
    ensures InitialValues().Keys == set f | f in FieldNames
    ensures forall k :: k in InitialValues() ==> InitialValues()[k] == ""
    ensures "products" in InitialValues() && "confirmPassword" in InitialValues()
  {
    InitialValuesFromSpec(map[], FieldNames);
    assert FieldNames[4] == "products" && FieldNames[7] == "confirmPassword";
  }

  /** The form's values. */
  datatype Values = Values(
    shopName: string,
    shopOwnerName: string,
    shopLocation: string,
    contactNumber: string,
    products: string,
    emailAddress: string,
    password: string,
    confirmPassword: string)

  /** `.matches(/^[0-9]+$/).required()`: digits only, with no minimum length. */
  predicate ContactNumberOk(s: string)
  {
    s != "" && Text.AllDigits(s)
  }

  /** The `is-not-empty` test and `required()`: at least one character that is not whitespace. */
  predicate ProductsOk(s: string)
  {
    s != "" && |Text.Trim(s)| > 0
  }

  /** `.min(6).required()`: no rule about the kinds of character; the length is JavaScript's, in UTF-16 code units. */
  predicate PasswordOk(s: string)
  {
    s != "" && Text.Utf16Length(s) >= 6
  }

  /** `.oneOf([Yup.ref('password'), null]).required()`: a string is never null, so it must equal the password. */
  predicate ConfirmOk(confirm: string, password: string)
  {
    confirm != "" && confirm == password
  }

  /** The whole schema; the verdict of Yup's `email()` test comes in as `emailOk`. */
  predicate FormValid(v: Values, emailOk: bool)
  {
    && v.shopName != "" && v.shopOwnerName != "" && v.shopLocation != ""
    && ContactNumberOk(v.contactNumber)
    && ProductsOk(v.products)
    && emailOk && v.emailAddress != ""
    && PasswordOk(v.password)
    && ConfirmOk(v.confirmPassword, v.password)
  }

  /** The products text passes exactly when it is not all whitespace. */
  lemma ProductsOkIff(s: string)
    ensures ProductsOk(s) <==> !Text.AllSpace(s)
  {
    Text.TrimEmptyIff(s);
  }

  /** The value Formik hands the schema for one field: the stored text, or '' for a key it does not hold. */
  function Lookup(m: map<string, string>, k: string): string
  {
    if k in m then m[k] else ""
  }

  /** The form's values read from a map of field names. */
  function ValuesOf(m: map<string, string>): Values
  {
    Values(Lookup(m, "shopName"), Lookup(m, "shopOwnerName"), Lookup(m, "shopLocation"),
      Lookup(m, "contactNumber"), Lookup(m, "products"), Lookup(m, "emailAddress"),
      Lookup(m, "password"), Lookup(m, "confirmPassword"))
  }

  /** The initial values do not pass: every required field starts empty. */
  lemma InitialValuesInvalid(emailOk: bool)
    ensures ValuesOf(InitialValues()) == Values("", "", "", "", "", "", "", "")
    ensures !FormValid(ValuesOf(InitialValues()), emailOk)
  {
    InitialValuesSpec();
  }

  /**
   * The length counts UTF-16 code units: three emoji make a six-unit
   * password, which passes, while three letters do not.
   */
  lemma PasswordLengthExamples()
    ensures PasswordOk("\U{1F336}\U{1F336}\U{1F336}")
    ensures !PasswordOk("abc")
  {
    assert Text.Utf16Length("\U{1F336}\U{1F336}\U{1F336}") == 6 by {
      assert "\U{1F336}\U{1F336}\U{1F336}"[1..] == "\U{1F336}\U{1F336}";
      assert "\U{1F336}\U{1F336}"[1..] == "\U{1F336}";
    }
    Text.Utf16LengthSpec("abc");
  }

  /**
   * The buyer form's contact and password rules are strictly stronger than
   * this form's: whatever the buyer form accepts this one accepts, and a
   * short number or an all-lowercase password shows the converse fails.
   */
  lemma BuyerRulesStronger(contact: string, password: string)
    ensures BuyerRegistration.ContactNumberOk(contact) ==> ContactNumberOk(contact)
    ensures BuyerRegistration.PasswordOk(password) ==> PasswordOk(password)
    ensures ContactNumberOk("123") && !BuyerRegistration.ContactNumberOk("123")
    ensures PasswordOk("spices") && !BuyerRegistration.PasswordOk("spices")
  {
    assert !BuyerRegistration.HasUpper("spices") by {
      forall i | 0 <= i < 6 ensures !('A' <= "spices"[i] <= 'Z') {
      }
    }
  }
}
