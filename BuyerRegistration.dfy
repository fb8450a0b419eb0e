/**
 * The buyer's shop registration form
 * (Pages/Buyer/Registration/RegistrationScreen.js): the field rules of its
 * validation schema, the payload `handleRegister` posts, and how the screen
 * ends up once the server has answered.
 */
module BuyerRegistration {
  import opened Common
  import Text

  /** The form's values, as Formik holds them. */
  datatype BuyerValues = BuyerValues(
    shopName: string,
    shopOwnerName: string,
    shopLocation: string,
    contactNumber: string,
    emailAddress: string,
    password: string,
    confirmPassword: string)

  /** Yup's `string().required()`: the empty string fails; whitespace does not. */
  predicate Required(s: string)
  {
    s != ""
  }

  /** `.matches(/^[0-9]+$/).min(10).required()`. */
  predicate ContactNumberOk(s: string)
  {
    Required(s) && Text.AllDigits(s) && |s| >= 10
  }

  predicate HasLower(s: string)
  {
    exists i :: 0 <= i < |s| && 'a' <= s[i] <= 'z'
  }

  predicate HasUpper(s: string)
  {
    exists i :: 0 <= i < |s| && 'A' <= s[i] <= 'Z'
  }

  predicate HasDigit(s: string)
  {
    exists i :: 0 <= i < |s| && Text.IsDigit(s[i])
  }

  /**
   * `.min(6).matches(/^(?=.*[a-z])(?=.*[A-Z])(?=.*\d)/).required()`. The
   * length is JavaScript's, in UTF-16 code units; the pattern has no `s` or
   * `m` flag, so `.` stops at the first line terminator and the three
   * lookaheads see only the first line.
   */
  predicate PasswordOk(s: string)
  {
    var line := Text.FirstLine(s);
    Required(s) && Text.Utf16Length(s) >= 6 && HasLower(line) && HasUpper(line) && HasDigit(line)
  }

  /** `.oneOf([Yup.ref('password')]).required()`. */
  predicate ConfirmOk(confirm: string, password: string)
  {
    Required(confirm) && confirm == password
  }

  /**
   * The whole schema. Yup's `email()` test is library behaviour: its verdict
   * on the address comes in as `emailOk`.
   */
  predicate FormValid(v: BuyerValues, emailOk: bool)
  {
    && Required(v.shopName) && Required(v.shopOwnerName) && Required(v.shopLocation)
    && ContactNumberOk(v.contactNumber)
    && emailOk && Required(v.emailAddress)
    && PasswordOk(v.password)
    && ConfirmOk(v.confirmPassword, v.password)
  }

  /** A valid form has a ten-digit-or-longer numeric contact number, a strong password of six or more characters, and a matching confirmation. */
  lemma FormValidShape(v: BuyerValues, emailOk: bool)
    requires FormValid(v, emailOk)
    ensures |v.contactNumber| >= 10 && forall i :: 0 <= i < |v.contactNumber| ==> '0' <= v.contactNumber[i] <= '9'
    ensures Text.Utf16Length(v.password) >= 6 && v.confirmPassword == v.password
    ensures v.shopName != "" && v.shopOwnerName != "" && v.shopLocation != ""
  {
  }

  /** Examples of the contact number rule: ten digits pass; nine digits, or a dash, do not. */
  lemma ContactExamples()
    ensures ContactNumberOk("0771234567")
    ensures !ContactNumberOk("077123456")
    ensures !ContactNumberOk("077-1234567")
  {
    assert !Text.IsDigit("077-1234567"[3]);
  }

  /**
   * Examples of the password rule: "Spice1" passes; without a capital, or
   * with five characters, it fails; and a capital, a lowercase letter and a
   * digit after a line break are not seen.
   */
  lemma PasswordExamples()
    ensures PasswordOk("Spice1")
    ensures !PasswordOk("spice1")
    ensures !PasswordOk("Spic1")
    ensures !PasswordOk("\nSpice1")
  {
    Text.FirstLineWhole("Spice1");
    Text.Utf16LengthSpec("Spice1");
    assert "Spice1"[1] == 'p' && "Spice1"[0] == 'S' && "Spice1"[5] == '1';
    Text.FirstLineWhole("spice1");
    assert !HasUpper("spice1") by {
      forall i | 0 <= i < 6 ensures !('A' <= "spice1"[i] <= 'Z') {
      }
    }
    Text.Utf16LengthSpec("Spic1");
    assert Text.FirstLine("\nSpice1") == [];
  }

  /** The body posted to the server: every text trimmed except the password; there is no confirmation field. */
  datatype Submission = Submission(
    shopName: string,
    shopOwnerName: string,
    contactNumber: string,
    emailAddress: string,
    password: string,
    shopLocation: string)

  function SubmissionOf(v: BuyerValues): Submission
  {
    Submission(
      Text.Trim(v.shopName), Text.Trim(v.shopOwnerName), Text.Trim(v.contactNumber),
      Text.Trim(v.emailAddress), v.password, Text.Trim(v.shopLocation))
  }

  /**
   * The posted texts carry no surrounding whitespace, the password is sent as
   * typed, and trimming the form's texts beforehand would post the same body.
   */
  lemma SubmissionTrimmed(v: BuyerValues)
    ensures var p := SubmissionOf(v);
      && p.shopName == Text.Trim(v.shopName) && p.shopOwnerName == Text.Trim(v.shopOwnerName)
      && p.contactNumber == Text.Trim(v.contactNumber) && p.emailAddress == Text.Trim(v.emailAddress)
      && p.shopLocation == Text.Trim(v.shopLocation)
      && Text.Trim(p.shopName) == p.shopName && Text.Trim(p.shopOwnerName) == p.shopOwnerName
      && Text.Trim(p.contactNumber) == p.contactNumber && Text.Trim(p.emailAddress) == p.emailAddress
      && Text.Trim(p.shopLocation) == p.shopLocation
      && p.password == v.password
    ensures SubmissionOf(v.(shopName := Text.Trim(v.shopName), shopOwnerName := Text.Trim(v.shopOwnerName),
      shopLocation := Text.Trim(v.shopLocation), contactNumber := Text.Trim(v.contactNumber),
      emailAddress := Text.Trim(v.emailAddress))) == SubmissionOf(v)
  {
    Text.TrimIdempotent(v.shopName);
    Text.TrimIdempotent(v.shopOwnerName);
    Text.TrimIdempotent(v.contactNumber);
    Text.TrimIdempotent(v.emailAddress);
    Text.TrimIdempotent(v.shopLocation);
  }

  /** The parsed body of the server's answer. */
  datatype RegisterBody = RegisterBody(userId: Option<string>, message: Option<string>)

  /** The request once settled: a JSON answer with its `ok` flag, or a thrown error (no connection, or a body that is not JSON). */
  datatype RegisterReply = Answered(ok: bool, body: RegisterBody) | Unreachable

  const UnknownError := "An unknown error occurred. Please try again."

  /** How `handleRegister` ends: registered under a user id, refused with a message, or the network alert. */
  datatype RegisterOutcome = Registered(userId: string) | Refused(message: string) | NetworkAlert

  /** The outcome for a reply; `now` is `Date.now()`, the fallback user id. */
  function OutcomeOf(reply: RegisterReply, now: nat): RegisterOutcome
  {
    match reply
    case Unreachable => NetworkAlert
    case Answered(ok, body) =>
      if ok then Registered(OrElse(body.userId, Text.NatToString(now)))
      else Refused(OrElse(body.message, UnknownError))
  }

  /**
   * A successful answer registers under the server's id when it sends a
   * non-empty one, and under the decimal timestamp otherwise, so the id is
   * never empty; a refusal shows the server's message or the fixed text.
   */
  lemma OutcomeSpec(reply: RegisterReply, now: nat)
    ensures OutcomeOf(reply, now).Registered? <==> reply.Answered? && reply.ok
    ensures OutcomeOf(reply, now).Registered? ==> OutcomeOf(reply, now).userId != ""
    ensures OutcomeOf(reply, now).Registered? && !Truthy(reply.body.userId) ==>
      Text.AllDigits(OutcomeOf(reply, now).userId) && Text.DigitsValue(OutcomeOf(reply, now).userId) == now
    ensures OutcomeOf(reply, now).Refused? ==> OutcomeOf(reply, now).message != ""
  {
    Text.NatToStringRoundTrip(now);
  }

  class BuyerRegistrationScreen {
    var isLoading: bool
    /** Every value `isLoading` has been set to, oldest first. */
    ghost var loadingTrace: seq<bool>

    constructor ()
      ensures !isLoading && loadingTrace == []
    {
      isLoading := false;
      loadingTrace := [];
    }

    /**
     * `handleRegister(values)` once the reply is known: the busy flag is
     * raised, the trimmed body is posted, and the flag is lowered whatever
     * the answer. The `setUser` the screen calls on success does nothing.
     */
    method HandleRegister(values: BuyerValues, reply: RegisterReply, now: nat)
      returns (sent: Submission, outcome: RegisterOutcome)
      modifies this
      ensures sent == SubmissionOf(values)
      ensures outcome == OutcomeOf(reply, now)
      ensures !isLoading && loadingTrace == old(loadingTrace) + [true, false]
    {
      isLoading := true;
      loadingTrace := loadingTrace + [true];
      sent := Submission(
        Text.Trim(values.shopName), Text.Trim(values.shopOwnerName), Text.Trim(values.contactNumber),
        Text.Trim(values.emailAddress), values.password, Text.Trim(values.shopLocation));
      match reply {
        case Unreachable =>
          outcome := NetworkAlert;
        case Answered(ok, body) =>
          if ok {
            var userId := if Truthy(body.userId) then body.userId.value else Text.NatToString(now);
            outcome := Registered(userId);
          } else {
            outcome := Refused(if Truthy(body.message) then body.message.value else UnknownError);
          }
      }
      isLoading := false;
      loadingTrace := loadingTrace + [false];
    }
  }
}
