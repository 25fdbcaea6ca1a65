/** The payment page: input formatting, per-method validation of the payment form,
    and the order update sent when the payment is processed
    (src/pages/users/PaymentPage.jsx). */
module Payment {
  import opened JsValue
  import opened Text

  /** The `paymentDetails` form state; every field is the text of an input or a select. */
  datatype PaymentDetails = PaymentDetails(
    cardNumber: string,
    cardHolderName: string,
    expiryDate: string,
    cvv: string,
    upiId: string,
    netBankingBank: string,
    walletType: string,
    emiMonths: string,
    emiBank: string)

  /** A field of the form; the `errors` map is keyed by these (the JavaScript keys are
      the field names). */
  datatype DetailField =
    CardNumber | CardHolderName | ExpiryDate | Cvv | UpiId | NetBankingBank | WalletType | EmiMonths | EmiBank

  /** `selectedPayment`: '' until a method card is clicked, then one of the six ids. */
  datatype PaymentMethod = Unselected | Card | Upi | NetBanking | Wallet | Emi | Cod

  /** The id stored in the order's `paymentMethod`. */
  function Id(m: PaymentMethod): string {
    match m
    case Unselected => ""
    case Card => "card"
    case Upi => "upi"
    case NetBanking => "netbanking"
    case Wallet => "wallet"
    case Emi => "emi"
    case Cod => "cod"
  }

  const EmptyDetails := PaymentDetails("", "", "", "", "", "", "", "", "")

  const TestCardNumber := "4111111111111111"
  const TestCardName := "Test User"
  const TestCardExpiry := "12/25"
  const TestCardCvv := "123"

  function Get(d: PaymentDetails, f: DetailField): string {
    match f
    case CardNumber => d.cardNumber
    case CardHolderName => d.cardHolderName
    case ExpiryDate => d.expiryDate
    case Cvv => d.cvv
    case UpiId => d.upiId
    case NetBankingBank => d.netBankingBank
    case WalletType => d.walletType
    case EmiMonths => d.emiMonths
    case EmiBank => d.emiBank
  }

  /** The message shown under a field that fails its check. */
  function Message(f: DetailField): string {
    match f
    case CardNumber => "Enter a valid 16-digit card number"
    case CardHolderName => "Cardholder name is required"
    case ExpiryDate => "Enter valid expiry date (MM/YY)"
    case Cvv => "Enter valid CVV"
    case UpiId => "Enter a valid UPI ID"
    case NetBankingBank => "Please select a bank"
    case WalletType => "Please select a wallet"
    case EmiMonths => "Please select EMI duration"
    case EmiBank => "Please select bank for EMI"
  }

  // ---------------------------------------------------------------------------
  // Card number formatting

  /** `.replace(/(.{4})/g, '$1 ')` on a string without line terminators: a space after
      every complete run of four characters. */
  function SpaceAfterFours(s: string): string
    decreases |s|
  {
    if |s| < 4 then s else s[..4] + " " + SpaceAfterFours(s[4..])
  }

  /** The intended layout: runs of four characters separated by single spaces. */
  function Grouped(s: string): string
    decreases |s|
  {
    if |s| <= 4 then s else s[..4] + " " + Grouped(s[4..])
  }

  lemma {:induction false} SpaceAfterFoursIsGrouped(s: string)
    ensures SpaceAfterFours(s) == Grouped(s) + (if |s| > 0 && |s| % 4 == 0 then " " else "")
    decreases |s|
  {
    if |s| == 4 {
      assert s[4..] == [];
      assert s[..4] == s;
    } else if |s| > 4 {
      SpaceAfterFoursIsGrouped(s[4..]);
    }
  }

  lemma {:induction false} GroupedEnds(s: string)
    requires NoWhitespace(s)
    ensures Grouped(s) == [] <==> s == []
    ensures s != [] ==> Grouped(s)[0] == s[0] && Grouped(s)[|Grouped(s)| - 1] == s[|s| - 1]
    decreases |s|
  {
    if |s| > 4 {
      GroupedEnds(s[4..]);
    }
  }

  /** `value.replace(/\s/g, '').replace(/(.{4})/g, '$1 ').trim()`. */
  function FormatCardNumber(value: string): (r: string)
    ensures r == Grouped(StripWhitespace(value))
  {
    var s := StripWhitespace(value);
    TrimmedGroups(s);
    Trim(SpaceAfterFours(s))
  }

  lemma TrimmedGroups(s: string)
    requires NoWhitespace(s)
    ensures Trim(SpaceAfterFours(s)) == Grouped(s)
  {
    SpaceAfterFoursIsGrouped(s);
    GroupedEnds(s);
    var g := Grouped(s);
    if |s| > 0 && |s| % 4 == 0 {
      assert TrimStart(g + " ") == g + " ";
      assert (g + " ")[..|g|] == g;
      assert TrimEnd(g + " ") == TrimEnd(g);
    }
    TrimUntouched(g);
  }

  /** In the grouped layout the spaces sit exactly at every fifth position, and the
      other positions hold the input's characters in order. */
  lemma {:induction false} GroupedLayout(s: string, i: nat)
    requires NoWhitespace(s)
    requires i < |Grouped(s)|
    ensures Grouped(s)[i] == ' ' <==> i % 5 == 4
    ensures i % 5 != 4 ==> i - i / 5 < |s| && Grouped(s)[i] == s[i - i / 5]
    decreases |s|
  {
    if |s| > 4 && i >= 5 {
      GroupedLayout(s[4..], i - 5);
    }
  }

  lemma {:induction false} StripGrouped(s: string)
    requires NoWhitespace(s)
    ensures StripWhitespace(Grouped(s)) == s
    decreases |s|
  {
    if |s| <= 4 {
      StripNoWhitespace(s);
    } else {
      StripAppend(s[..4] + " ", Grouped(s[4..]));
      StripAppend(s[..4], " ");
      StripNoWhitespace(s[..4]);
      StripGrouped(s[4..]);
      assert s[..4] + s[4..] == s;
    }
  }

  /** Removing the spaces from a formatted card number gives back the stripped input. */
  lemma CardNumberRoundTrip(value: string)
    ensures StripWhitespace(FormatCardNumber(value)) == StripWhitespace(value)
  {
    StripGrouped(StripWhitespace(value));
  }

  /** Formatting an already formatted card number changes nothing. */
  lemma CardNumberIdempotent(value: string)
    ensures FormatCardNumber(FormatCardNumber(value)) == FormatCardNumber(value)
  {
    CardNumberRoundTrip(value);
  }

  // ---------------------------------------------------------------------------
  // Expiry formatting

  predicate FourDigits(s: string) {
    |s| == 4 && AllDigits(s)
  }

  predicate DoubleSlashAt(s: string, i: int) {
    0 <= i && i + 1 < |s| && s[i] == '/' && s[i + 1] == '/'
  }

  /** `.replace(/\/\//g, '/')`: each "//" met from the left becomes "/". */
  function CollapseSlashes(s: string): string
    decreases |s|
  {
    if |s| >= 2 && s[0] == '/' && s[1] == '/' then "/" + CollapseSlashes(s[2..])
    else if s == [] then []
    else [s[0]] + CollapseSlashes(s[1..])
  }

  /** The characters other than '/', in order. */
  function NonSlash(s: string): string {
    if s == [] then [] else (if s[0] == '/' then "" else [s[0]]) + NonSlash(s[1..])
  }

  lemma {:induction false} CollapseKeepsOthers(s: string)
    ensures NonSlash(CollapseSlashes(s)) == NonSlash(s)
    ensures |CollapseSlashes(s)| <= |s|
    ensures NoWhitespace(s) ==> NoWhitespace(CollapseSlashes(s))
    decreases |s|
  {
    if |s| >= 2 && s[0] == '/' && s[1] == '/' {
      CollapseKeepsOthers(s[2..]);
      assert NonSlash(s) == NonSlash(s[1..]) == NonSlash(s[2..]);
    } else if s != [] {
      CollapseKeepsOthers(s[1..]);
    }
  }

  lemma {:induction false} CollapseNoDouble(s: string)
    requires forall i :: !DoubleSlashAt(s, i)
    ensures CollapseSlashes(s) == s
    decreases |s|
  {
    if s != [] {
      assert !DoubleSlashAt(s, 0);
      forall i ensures !DoubleSlashAt(s[1..], i) {
        assert !DoubleSlashAt(s, i + 1);
      }
      CollapseNoDouble(s[1..]);
    }
  }

  /** `value.replace(/\s/g, '').replace(/^([0-9]{2})([0-9]{2})$/g, '$1/$2').replace(/\/\//g, '/')`. */
  function FormatExpiry(value: string): (r: string)
    ensures var s := StripWhitespace(value);
      && (FourDigits(s) ==> r == s[..2] + "/" + s[2..])
      && (!FourDigits(s) ==> r == CollapseSlashes(s))
      && NoWhitespace(r)
      && NonSlash(r) == NonSlash(s)
  {
    var s := StripWhitespace(value);
    if FourDigits(s) then
      ExpirySlashed(s);
      CollapseSlashes(s[..2] + "/" + s[2..])
    else
      CollapseKeepsOthers(s);
      CollapseSlashes(s)
  }

  lemma {:induction false} NonSlashAppend(a: string, b: string)
    ensures NonSlash(a + b) == NonSlash(a) + NonSlash(b)
  {
    if a == [] {
      assert a + b == b;
    } else {
      assert (a + b)[0] == a[0] && (a + b)[1..] == a[1..] + b;
      NonSlashAppend(a[1..], b);
    }
  }

  /** Four digits with a slash after the second: the slash collapse leaves it alone and
      the digits are those of the input. */
  lemma ExpirySlashed(s: string)
    requires FourDigits(s)
    ensures var t := s[..2] + "/" + s[2..];
      CollapseSlashes(t) == t && NonSlash(t) == NonSlash(s) && NoWhitespace(t)
  {
    var t := s[..2] + "/" + s[2..];
    forall i ensures !DoubleSlashAt(t, i) {
    }
    CollapseNoDouble(t);
    NonSlashAppend(s[..2] + "/", s[2..]);
    NonSlashAppend(s[..2], "/");
    NonSlashAppend(s[..2], s[2..]);
    assert s[..2] + s[2..] == s;
    assert NonSlash("/") == "";
  }

  // ---------------------------------------------------------------------------
  // Field checks

  /** The card number, stripped, is the test card or exactly sixteen ASCII digits. */
  predicate CardNumberAccepted(cardNumber: string) {
    var n := StripWhitespace(cardNumber);
    n == TestCardNumber || (|n| == 16 && AllDigits(n))
  }

  /** The test-card exception adds nothing: the test number is itself sixteen digits. */
  lemma TestCardNeedsNoException(cardNumber: string)
    ensures CardNumberAccepted(cardNumber) <==>
            |StripWhitespace(cardNumber)| == 16 && AllDigits(StripWhitespace(cardNumber))
  {
    assert |TestCardNumber| == 16 && AllDigits(TestCardNumber);
  }

  /** `0[1-9]|1[0-2]`. */
  predicate MonthDigits(a: char, b: char) {
    (a == '0' && '1' <= b <= '9') || (a == '1' && '0' <= b <= '2')
  }

  /** `/^(0[1-9]|1[0-2])\/?([0-9]{2})$/` on the given text. */
  predicate ExpiryPattern(e: string) {
    || (|e| == 4 && MonthDigits(e[0], e[1]) && IsDigit(e[2]) && IsDigit(e[3]))
    || (|e| == 5 && MonthDigits(e[0], e[1]) && e[2] == '/' && IsDigit(e[3]) && IsDigit(e[4]))
  }

  /** The expiry check runs on the white-space-stripped text. */
  predicate ExpiryAccepted(expiry: string) {
    ExpiryPattern(StripWhitespace(expiry))
  }

  /** `/^[0-9]{3,4}$/`. */
  predicate CvvAccepted(cvv: string) {
    (|cvv| == 3 || |cvv| == 4) && AllDigits(cvv)
  }

  predicate IsLetter(c: char) {
    'a' <= c <= 'z' || 'A' <= c <= 'Z'
  }

  /** `[a-zA-Z0-9.-]`. */
  predicate IsUpiNameChar(c: char) {
    IsLetter(c) || IsDigit(c) || c == '.' || c == '-'
  }

  /** The regular expression `/^[a-zA-Z0-9.-]{2,256}@[a-zA-Z][a-zA-Z]{2,64}$/` matches
      `id` with its '@' at position `k`. */
  predicate UpiMatchAt(id: string, k: int) {
    && 2 <= k <= 256 && k < |id| && id[k] == '@'
    && (forall i :: 0 <= i < k ==> IsUpiNameChar(id[i]))
    && 3 <= |id| - (k + 1) <= 65
    && (forall i :: k < i < |id| ==> IsLetter(id[i]))
  }

  /** The position of the first `c` in `s`, or `|s|` when there is none. */
  function IndexOf(s: string, c: char): (k: nat)
    ensures k <= |s| && (k < |s| ==> s[k] == c)
    ensures forall i :: 0 <= i < k ==> s[i] != c
  {
    if s == [] then 0 else if s[0] == c then 0 else 1 + IndexOf(s[1..], c)
  }

  /** The UPI check, decided at the first '@'. */
  predicate UpiAccepted(id: string) {
    UpiMatchAt(id, IndexOf(id, '@'))
  }

  /** Checking at the first '@' decides the regular expression: no character class in it
      admits '@', so a match can only split there. */
  lemma UpiAcceptedIff(id: string)
    ensures UpiAccepted(id) <==> exists k :: UpiMatchAt(id, k)
  {
    if exists k :: UpiMatchAt(id, k) {
      var k :| UpiMatchAt(id, k);
      var first := IndexOf(id, '@');
      if first < k {
        assert IsUpiNameChar(id[first]);
      } else if first > k {
        assert id[k] == '@';
      }
    }
  }

  // ---------------------------------------------------------------------------
  // Validation

  /** The payment method whose form holds field `f`. */
  function MethodOf(f: DetailField): PaymentMethod {
    match f
    case CardNumber | CardHolderName | ExpiryDate | Cvv => Card
    case UpiId => Upi
    case NetBankingBank => NetBanking
    case WalletType => Wallet
    case EmiMonths | EmiBank => Emi
  }

  /** Whether field `f` fails its check under the chosen method: the specification of
      `validatePaymentDetails`. Only the chosen method's fields are checked. */
  predicate Fails(m: PaymentMethod, d: PaymentDetails, f: DetailField)
    ensures Fails(m, d, f) ==> MethodOf(f) == m && m != Cod && m != Unselected
  {
    match f
    case CardNumber => m == Card && !CardNumberAccepted(d.cardNumber)
    case CardHolderName => m == Card && Blank(d.cardHolderName)
    case ExpiryDate => m == Card && !ExpiryAccepted(d.expiryDate)
    case Cvv => m == Card && !CvvAccepted(d.cvv)
    case UpiId => m == Upi && !UpiAccepted(d.upiId)
    case NetBankingBank => m == NetBanking && d.netBankingBank == ""
    case WalletType => m == Wallet && d.walletType == ""
    case EmiMonths => m == Emi && d.emiMonths == ""
    case EmiBank => m == Emi && d.emiBank == ""
  }

  predicate Valid(m: PaymentMethod, d: PaymentDetails) {
    forall f :: !Fails(m, d, f)
  }

  /** Cash on delivery and an unselected method check nothing. */
  lemma NothingToCheck(m: PaymentMethod, d: PaymentDetails)
    requires m == Cod || m == Unselected
    ensures Valid(m, d)
  {
  }

  /** Each failing field is reported with its own message and nothing else is reported. */
  predicate Reports(errors: map<DetailField, string>, m: PaymentMethod, d: PaymentDetails) {
    forall f :: ReportsField(errors, m, d, f)
  }

  predicate ReportsField(errors: map<DetailField, string>, m: PaymentMethod, d: PaymentDetails, f: DetailField) {
    (f in errors <==> Fails(m, d, f)) && (f in errors ==> errors[f] == Message(f))
  }

  /** The `newErrors` object for the fields in `failing`: each maps to its own message. */
  function ErrorsFor(failing: set<DetailField>): (errors: map<DetailField, string>)
    ensures errors.Keys == failing
    ensures forall f :: f in errors ==> errors[f] == Message(f)
  {
    map f | f in failing :: Message(f)
  }

  /** Checking the nine fields one by one establishes the report. */
  lemma ReportsEachField(failing: set<DetailField>, m: PaymentMethod, d: PaymentDetails)
    requires CardNumber in failing <==> Fails(m, d, CardNumber)
    requires CardHolderName in failing <==> Fails(m, d, CardHolderName)
    requires ExpiryDate in failing <==> Fails(m, d, ExpiryDate)
    requires Cvv in failing <==> Fails(m, d, Cvv)
    requires UpiId in failing <==> Fails(m, d, UpiId)
    requires NetBankingBank in failing <==> Fails(m, d, NetBankingBank)
    requires WalletType in failing <==> Fails(m, d, WalletType)
    requires EmiMonths in failing <==> Fails(m, d, EmiMonths)
    requires EmiBank in failing <==> Fails(m, d, EmiBank)
    ensures Reports(ErrorsFor(failing), m, d)
  {
    var errors := ErrorsFor(failing);
    forall f ensures ReportsField(errors, m, d, f) {
      match f
      case CardNumber =>
      case CardHolderName =>
      case ExpiryDate =>
      case Cvv =>
      case UpiId =>
      case NetBankingBank =>
      case WalletType =>
      case EmiMonths =>
      case EmiBank =>
    }
  }

  /** `validatePaymentDetails`: fills `newErrors` inside the switch and reports whether it
      stayed empty. */
  method ValidatePaymentDetails(m: PaymentMethod, d: PaymentDetails) returns (errors: map<DetailField, string>, ok: bool)
    ensures Reports(errors, m, d)
    ensures ok <==> Valid(m, d)
    ensures ok <==> errors == map[]
  {
    var failing := FailingFields(m, d);
    ReportsEachField(failing, m, d);
    errors := ErrorsFor(failing);
    ReportsEmpty(errors, m, d);
    ok := |errors| == 0;
  }

  /** The switch of `validatePaymentDetails`: one `if` per field of the chosen method. */
  method FailingFields(m: PaymentMethod, d: PaymentDetails) returns (failing: set<DetailField>)
    ensures forall f :: f in failing <==> Fails(m, d, f)
  {
    failing := {};
    match m {
      case Card =>
        failing := CardFailures(d);
      case Upi =>
        if !UpiAccepted(d.upiId) {
          failing := failing + {UpiId};
        }
      case NetBanking =>
        if d.netBankingBank == "" {
          failing := failing + {NetBankingBank};
        }
      case Wallet =>
        if d.walletType == "" {
          failing := failing + {WalletType};
        }
      case Emi =>
        if d.emiMonths == "" {
          failing := failing + {EmiMonths};
        }
        if d.emiBank == "" {
          failing := failing + {EmiBank};
        }
      case _ =>
    }
  }

  /** The `'card'` case: the four card fields are checked one after the other. */
  method CardFailures(d: PaymentDetails) returns (failing: set<DetailField>)
    ensures CardNumber in failing <==> !CardNumberAccepted(d.cardNumber)
    ensures CardHolderName in failing <==> Blank(d.cardHolderName)
    ensures ExpiryDate in failing <==> !ExpiryAccepted(d.expiryDate)
    ensures Cvv in failing <==> !CvvAccepted(d.cvv)
    ensures failing <= {CardNumber, CardHolderName, ExpiryDate, Cvv}
  {
    failing := {};
    if !CardNumberAccepted(d.cardNumber) {
      failing := failing + {CardNumber};
    }
    if Blank(d.cardHolderName) {
      failing := failing + {CardHolderName};
    }
    if !ExpiryAccepted(d.expiryDate) {
      failing := failing + {ExpiryDate};
    }
    if !CvvAccepted(d.cvv) {
      failing := failing + {Cvv};
    }
  }

  /** The error map is empty exactly when no field fails. */
  lemma ReportsEmpty(errors: map<DetailField, string>, m: PaymentMethod, d: PaymentDetails)
    requires Reports(errors, m, d)
    ensures |errors| == 0 <==> Valid(m, d)
    ensures |errors| == 0 <==> errors == map[]
  {
    if |errors| != 0 {
      var f :| f in errors;
      assert ReportsField(errors, m, d, f);
    } else {
      assert errors == map[];
      forall f ensures !Fails(m, d, f) {
        assert ReportsField(errors, m, d, f);
      }
    }
  }

  /** `fillTestCard`: the four card fields take the test card's values. */
  function FillTestCard(d: PaymentDetails): (r: PaymentDetails)
    ensures Get(r, CardNumber) == TestCardNumber && Get(r, CardHolderName) == TestCardName
    ensures Get(r, ExpiryDate) == TestCardExpiry && Get(r, Cvv) == TestCardCvv
    ensures forall f :: MethodOf(f) != Card ==> Get(r, f) == Get(d, f)
  {
    d.(cardNumber := TestCardNumber, cardHolderName := TestCardName,
       expiryDate := TestCardExpiry, cvv := TestCardCvv)
  }

  lemma TestNameNotBlank()
    ensures !Blank(TestCardName)
  {
    assert !IsWhitespace(TestCardName[0]);
  }

  lemma TestExpiryAccepted()
    ensures ExpiryAccepted(TestCardExpiry)
  {
    VisibleNoWhitespace(TestCardExpiry);
    StripNoWhitespace(TestCardExpiry);
  }

  lemma TestNumberAccepted()
    ensures CardNumberAccepted(TestCardNumber)
  {
    VisibleNoWhitespace(TestCardNumber);
    StripNoWhitespace(TestCardNumber);
  }

  lemma TestCardField(d: PaymentDetails, f: DetailField)
    ensures !Fails(Card, FillTestCard(d), f)
  {
    match f
    case CardNumber => TestNumberAccepted();
    case CardHolderName => TestNameNotBlank();
    case ExpiryDate => TestExpiryAccepted();
    case Cvv => assert CvvAccepted(TestCardCvv);
    case _ =>
  }

  /** The test card passes every card check. */
  lemma TestCardPasses(d: PaymentDetails)
    ensures Valid(Card, FillTestCard(d))
  {
    forall f ensures !Fails(Card, FillTestCard(d), f) {
      TestCardField(d, f);
    }
  }

  /** A four-digit expiry with a valid month, once formatted, passes the expiry check. */
  lemma FormattedExpiryAccepted(value: string)
    requires var s := StripWhitespace(value); FourDigits(s) && MonthDigits(s[0], s[1])
    ensures ExpiryAccepted(FormatExpiry(value))
  {
    StripNoWhitespace(FormatExpiry(value));
  }

  // ---------------------------------------------------------------------------
  // Input handling

  /** The value a typed text is stored as: the card number and the expiry date are
      reformatted, the other fields keep the text as typed. */
  function Formatted(name: DetailField, value: string): string {
    if name == CardNumber then FormatCardNumber(value)
    else if name == ExpiryDate then FormatExpiry(value)
    else value
  }

  /** `{...paymentDetails, [name]: v}`. */
  function With(d: PaymentDetails, name: DetailField, v: string): (r: PaymentDetails)
    ensures Get(r, name) == v
    ensures forall f :: f != name ==> Get(r, f) == Get(d, f)
  {
    match name
    case CardNumber => d.(cardNumber := v)
    case CardHolderName => d.(cardHolderName := v)
    case ExpiryDate => d.(expiryDate := v)
    case Cvv => d.(cvv := v)
    case UpiId => d.(upiId := v)
    case NetBankingBank => d.(netBankingBank := v)
    case WalletType => d.(walletType := v)
    case EmiMonths => d.(emiMonths := v)
    case EmiBank => d.(emiBank := v)
  }

  /** `handleInputChange`. */
  function HandleInputChange(d: PaymentDetails, name: DetailField, value: string): (r: PaymentDetails)
    ensures forall f :: f != name ==> Get(r, f) == Get(d, f)
    ensures name == CardNumber ==> Get(r, name) == FormatCardNumber(value)
    ensures name == ExpiryDate ==> Get(r, name) == FormatExpiry(value)
    ensures name != CardNumber && name != ExpiryDate ==> Get(r, name) == value
  {
    With(d, name, Formatted(name, value))
  }

  /** Typing into a field changes that field only; the card number keeps the typed
      characters apart from white space, and the expiry keeps the typed characters
      apart from white space and slashes. */
  lemma InputChangeEffect(d: PaymentDetails, name: DetailField, value: string)
    ensures var r := HandleInputChange(d, name, value);
      && (forall f :: f != name ==> Get(r, f) == Get(d, f))
      && (name == CardNumber ==> StripWhitespace(Get(r, name)) == StripWhitespace(value))
      && (name == ExpiryDate ==> NonSlash(Get(r, name)) == NonSlash(StripWhitespace(value)))
      && (name != CardNumber && name != ExpiryDate ==> Get(r, name) == value)
  {
    if name == CardNumber {
      CardNumberRoundTrip(value);
    }
  }

  // ---------------------------------------------------------------------------
  // Processing the payment

  const PaymentKeys := {"paymentStatus", "orderStatus", "paymentMethod", "deliveredDate"}

  /** `updatedOrder`: the order with its payment fields replaced; `now` is `new Date().getTime()`. */
  function UpdatedOrder(order: Object, m: PaymentMethod, now: real): (r: Object)
    ensures r.Keys == order.Keys + PaymentKeys
    ensures forall k :: k in order && k !in PaymentKeys ==> r[k] == order[k]
    ensures r["paymentMethod"] == Str(Id(m))
    ensures m == Cod ==>
      r["paymentStatus"] == Str("NOTPAID") && r["orderStatus"] == Str("PENDING") && r["deliveredDate"] == Null
    ensures m != Cod ==>
      r["paymentStatus"] == Str("PAID") && r["orderStatus"] == Str("CONFIRMED") && r["deliveredDate"] == Num(now)
  {
    var cod := m == Cod;
    order["paymentStatus" := Str(if cod then "NOTPAID" else "PAID")]
         ["orderStatus" := Str(if cod then "PENDING" else "CONFIRMED")]
         ["paymentMethod" := Str(Id(m))]
         ["deliveredDate" := if cod then Null else Num(now)]
  }

  /** `error.response?.data?.message || error.message || <default>`. */
  function ErrorText(e: HttpError): (r: string)
    ensures r != ""
    ensures e.response.Some? && e.response.value.message != "" ==> r == e.response.value.message
  {
    if e.response.Some? && e.response.value.message != "" then e.response.value.message
    else if e.message != "" then e.message
    else "Error in processing payment. Please try again later."
  }

  /** The redirect to the cart after a failure: the message mentions inventory or stock. */
  function RedirectsToCart(message: string): (r: bool)
    ensures r <==> (exists i :: OccursAt(message, "inventory", i)) || (exists i :: OccursAt(message, "stock", i))
  {
    ContainsIff(message, "inventory");
    ContainsIff(message, "stock");
    Contains(message, "inventory") || Contains(message, "stock")
  }

  datatype PaymentOutcome =
    | DetailsRejected
    | Processed
    | PaymentFailed(message: string, toCart: bool)

  /** A failure is reported with its message, and sends the user to the cart when the
      message is about inventory or stock. */
  function Failure(message: string): PaymentOutcome {
    PaymentFailed(message, RedirectsToCart(message))
  }

  /** `processPayment`, given the order passed to the page, the clock and how the update
      request settles. Returns the order sent, if any, and the outcome. */
  method ProcessPayment(m: PaymentMethod, d: PaymentDetails, order: Object, now: real, reply: Reply<Object>)
    returns (sent: Option<Object>, outcome: PaymentOutcome)
    ensures !Valid(m, d) ==> sent == None && outcome == DetailsRejected
    ensures Valid(m, d) && !Has(order, "orderId") ==>
              sent == None && outcome == Failure("Invalid order data")
    ensures Valid(m, d) && Has(order, "orderId") ==>
              && sent == Some(UpdatedOrder(order, m, now))
              && (reply.Ok? && Has(reply.body, "orderStatus") ==> outcome == Processed)
              && (reply.Ok? && !Has(reply.body, "orderStatus") ==>
                    outcome == Failure("Invalid response from server"))
              && (reply.Failed? ==>
                    outcome == Failure(ErrorText(reply.error)))
  {
    var errors, ok := ValidatePaymentDetails(m, d);
    if !ok {
      return None, DetailsRejected;
    }
    var message: string;
    if !Has(order, "orderId") {
      sent := None;
      message := "Invalid order data";
    } else {
      sent := Some(UpdatedOrder(order, m, now));
      if reply.Ok? && Has(reply.body, "orderStatus") {
        return sent, Processed;
      }
      message := if reply.Ok? then "Invalid response from server" else ErrorText(reply.error);
    }
    outcome := Failure(message);
  }
}
