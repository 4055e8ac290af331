/**
 The client-side payment checks of ola-frontend/src/pages/PaymentPage.tsx: the UPI id and card
 validators, the per-method validation that runs before paying, and the sanitisers the card
 inputs apply on every keystroke. Each is a pure function over strings.
 */
module PaymentPage {

  import opened Common
  import opened JsRegex

  // ---------------------------------------------------------------------------------------
  // UPI id: /^[\w.-]+@[\w.-]+$/
  // ---------------------------------------------------------------------------------------

  /** `[\w.-]`. */
  predicate IsUpiChar(c: char)
  {
    IsWordChar(c) || c == '.' || c == '-'
  }

  predicate AllUpiChars(s: string)
  {
    forall i :: 0 <= i < |s| ==> IsUpiChar(s[i])
  }

  /** The language of the UPI regex: one '@' with a non-empty run of `[\w.-]` on each side. */
  ghost predicate UpiShape(s: string)
  {
    exists p :: 0 < p < |s| - 1 && s[p] == '@' && (forall k :: 0 <= k < |s| && k != p ==> IsUpiChar(s[k]))
  }

  /** The first position of c in s. */
  function IndexOf(s: string, c: char): (r: Option<nat>)
    ensures r.None? ==> forall j :: 0 <= j < |s| ==> s[j] != c
    ensures r.Some? ==> r.value < |s| && s[r.value] == c && forall j :: 0 <= j < r.value ==> s[j] != c
  {
    if s == [] then None
    else if s[0] == c then Some(0)
    else match IndexOf(s[1..], c)
      case None => None
      case Some(i) => Some(i + 1)
  }

  /** Split at the first '@' and check both sides. */
  predicate SplitAtFirstAt(upi: string)
  {
    match IndexOf(upi, '@')
    case None => false
    case Some(p) => 0 < p < |upi| - 1 && AllUpiChars(upi[..p]) && AllUpiChars(upi[p + 1..])
  }

  /** Splitting at the first '@' accepts exactly the strings the anchored regex matches. */
  lemma SplitAtFirstAtCorrect(upi: string)
    ensures SplitAtFirstAt(upi) <==> UpiShape(upi)
  {
    if SplitAtFirstAt(upi) {
      var p := IndexOf(upi, '@').value;
      forall k | 0 <= k < |upi| && k != p ensures IsUpiChar(upi[k]) {
        if k < p {
          assert upi[..p][k] == upi[k];
        } else {
          assert upi[p + 1..][k - p - 1] == upi[k];
        }
      }
    }
    if UpiShape(upi) {
      var p0 :| 0 < p0 < |upi| - 1 && upi[p0] == '@' && (forall k :: 0 <= k < |upi| && k != p0 ==> IsUpiChar(upi[k]));
      var r := IndexOf(upi, '@');
      assert r.Some? by {
        assert upi[p0] == '@';
      }
      var p := r.value;
      assert p == p0;
      assert AllUpiChars(upi[..p]);
      var rest := upi[p + 1..];
      forall i | 0 <= i < |rest| ensures IsUpiChar(rest[i]) {
        assert rest[i] == upi[p + 1 + i];
      }
    }
  }

  /** `validateUPI(upi)`: the anchored regex test, decided by splitting at the first '@'. */
  function ValidateUpi(upi: string): (r: bool)
    ensures r <==> UpiShape(upi)
  {
    SplitAtFirstAtCorrect(upi);
    SplitAtFirstAt(upi)
  }

  // ---------------------------------------------------------------------------------------
  // Card: /^\d{16}$/ after deleting white space, /^(0[1-9]|1[0-2])\/\d{2}$/, /^\d{3,4}$/
  // ---------------------------------------------------------------------------------------

  predicate CardNumberOk(cardNumber: string)
  {
    var digits := StripWhitespace(cardNumber);
    |digits| == 16 && AllDigits(digits)
  }

  predicate ExpiryOk(expiry: string)
  {
    && |expiry| == 5
    && ((expiry[0] == '0' && '1' <= expiry[1] <= '9') || (expiry[0] == '1' && '0' <= expiry[1] <= '2'))
    && expiry[2] == '/'
    && IsDigit(expiry[3]) && IsDigit(expiry[4])
  }

  predicate CvvOk(cvv: string)
  {
    3 <= |cvv| <= 4 && AllDigits(cvv)
  }

  /** The month of a two-digit prefix. */
  function Month(s: string): int
    requires |s| >= 2
  {
    10 * DigitValue(s[0]) + DigitValue(s[1])
  }

  /** The expiry regex accepts exactly "MM/YY" with MM a month from 01 to 12 and YY any two
      digits. */
  lemma ExpiryOkMeansMonth(expiry: string)
    ensures ExpiryOk(expiry) <==>
      && |expiry| == 5 && IsDigit(expiry[0]) && IsDigit(expiry[1]) && expiry[2] == '/'
      && IsDigit(expiry[3]) && IsDigit(expiry[4])
      && 1 <= Month(expiry) <= 12
  {
  }

  const CARD_NUMBER_INVALID := "Invalid card number (must be 16 digits)"
  const EXPIRY_INVALID := "Invalid expiry date (MM/YY format)"
  const CVV_INVALID := "Invalid CVV (must be 3-4 digits)"

  /** `validateCard()`: number, then expiry, then CVV; the first failure is the one reported. */
  function ValidateCard(cardNumber: string, cardExpiry: string, cardCvv: string): (r: Check)
    ensures r == Valid <==> CardNumberOk(cardNumber) && ExpiryOk(cardExpiry) && CvvOk(cardCvv)
    ensures !CardNumberOk(cardNumber) ==> r == Invalid(CARD_NUMBER_INVALID)
    ensures CardNumberOk(cardNumber) && !ExpiryOk(cardExpiry) ==> r == Invalid(EXPIRY_INVALID)
    ensures CardNumberOk(cardNumber) && ExpiryOk(cardExpiry) && !CvvOk(cardCvv) ==> r == Invalid(CVV_INVALID)
  {
    if !CardNumberOk(cardNumber) then Invalid(CARD_NUMBER_INVALID)
    else if !ExpiryOk(cardExpiry) then Invalid(EXPIRY_INVALID)
    else if !CvvOk(cardCvv) then Invalid(CVV_INVALID)
    else Valid
  }

  const UPI_MISSING := "Please enter your UPI ID"
  const UPI_INVALID := "Invalid UPI ID format (e.g., user@paytm)"
  const CARD_MISSING := "Please fill all card details"

  /** The validation branch of `handlePayment` for the selected method: UPI and card are
      checked, cash, wallet and every other method pass unchecked. */
  function ValidatePayment(selectedMethod: string, upiId: string, cardNumber: string,
                           cardExpiry: string, cardCvv: string): (r: Check)
    ensures selectedMethod != "upi" && selectedMethod != "card" ==> r == Valid
    ensures selectedMethod == "upi" ==> (r == Valid <==> UpiShape(upiId))
    ensures selectedMethod == "upi" && upiId == "" ==> r == Invalid(UPI_MISSING)
    ensures selectedMethod == "upi" && upiId != "" && !UpiShape(upiId) ==> r == Invalid(UPI_INVALID)
    ensures selectedMethod == "card" ==>
      (r == Valid <==> CardNumberOk(cardNumber) && ExpiryOk(cardExpiry) && CvvOk(cardCvv))
    ensures (selectedMethod == "card" && (cardNumber == "" || cardExpiry == "" || cardCvv == ""))
      ==> r == Invalid(CARD_MISSING)
    ensures (selectedMethod == "card" && cardNumber != "" && cardExpiry != "" && cardCvv != "")
      ==> r == ValidateCard(cardNumber, cardExpiry, cardCvv)
  {
    if selectedMethod == "upi" then
      if upiId == "" then Invalid(UPI_MISSING)
      else if !ValidateUpi(upiId) then Invalid(UPI_INVALID)
      else Valid
    else if selectedMethod == "card" then
      if cardNumber == "" || cardExpiry == "" || cardCvv == "" then Invalid(CARD_MISSING)
      else ValidateCard(cardNumber, cardExpiry, cardCvv)
    else Valid
  }

  // ---------------------------------------------------------------------------------------
  // Input sanitisers
  // ---------------------------------------------------------------------------------------

  /** The card-number input: white space and non-digits deleted, cut to 16 characters. */
  function SanitizeCardNumber(input: string): (r: string)
    ensures AllDigits(r) && |r| <= 16
  {
    Take(KeepDigits(StripWhitespace(input)), 16)
  }

  /** The CVV input: non-digits deleted, cut to 4 characters. */
  function SanitizeCvv(input: string): (r: string)
    ensures AllDigits(r) && |r| <= 4
  {
    Take(KeepDigits(input), 4)
  }

  /** The expiry input: non-digits deleted; from two digits on, the first two, a '/', and at most
      the next two. */
  function FormatExpiry(input: string): (r: string)
    ensures |r| <= 5
    ensures forall i :: 0 <= i < |r| && i != 2 ==> IsDigit(r[i])
    ensures |r| >= 3 <==> |KeepDigits(input)| >= 2
    ensures |r| >= 3 ==> r[2] == '/'
  {
    var digits := KeepDigits(input);
    if |digits| >= 2 then digits[..2] + "/" + digits[2..if |digits| < 4 then |digits| else 4]
    else digits
  }

  /** Sanitising a sanitised card number changes nothing, and the sanitised number passes the
      card-number check exactly when the input held at least 16 digits. */
  lemma SanitizeCardNumberProperties(input: string)
    ensures SanitizeCardNumber(SanitizeCardNumber(input)) == SanitizeCardNumber(input)
    ensures CardNumberOk(SanitizeCardNumber(input)) <==> |KeepDigits(input)| >= 16
    ensures SanitizeCardNumber(input) == Take(KeepDigits(input), 16)
  {
    StripThenKeepDigits(input);
    var once := SanitizeCardNumber(input);
    StripThenKeepDigits(once);
  }

  /** The sanitised CVV passes the CVV check exactly when the input held at least 3 digits. */
  lemma SanitizeCvvProperties(input: string)
    ensures SanitizeCvv(SanitizeCvv(input)) == SanitizeCvv(input)
    ensures CvvOk(SanitizeCvv(input)) <==> |KeepDigits(input)| >= 3
  {
  }

  /** "1225" is shown as "12/25". */
  lemma FormatExpiryExample()
    ensures FormatExpiry("1225") == "12/25"
  {
    assert KeepDigits("1225") == "1225";
  }

  /** The digits of a formatted expiry are the first four digits of the input. */
  lemma FormatExpiryDigits(input: string)
    ensures var d := KeepDigits(input);
      KeepDigits(FormatExpiry(input)) == Take(d, 4)
  {
    var d := KeepDigits(input);
    if |d| >= 2 {
      var m := if |d| < 4 then |d| else 4;
      KeepDigitsConcat(d[..2] + "/", d[2..m]);
      KeepDigitsConcat(d[..2], "/");
      assert KeepDigits("/") == [];
      assert d[..2] + d[2..m] == d[..m];
    }
  }

  /** Formatting a formatted expiry changes nothing, and it passes the expiry check exactly when
      the input held at least four digits whose first two form a month from 01 to 12. */
  lemma FormatExpiryProperties(input: string)
    ensures FormatExpiry(FormatExpiry(input)) == FormatExpiry(input)
    ensures ExpiryOk(FormatExpiry(input)) <==>
      |KeepDigits(input)| >= 4 && 1 <= Month(KeepDigits(input)) <= 12
  {
    FormatExpiryDigits(input);
    ExpiryOkMeansMonth(FormatExpiry(input));
    var d := KeepDigits(input);
    if |d| >= 2 {
      assert FormatExpiry(input)[..2] == d[..2];
    }
  }
}
