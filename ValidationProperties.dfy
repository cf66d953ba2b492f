/**
 * What `validatePaymentRequest` accepts and, when it refuses, which reason
 * it gives: an order-free statement of the accepted requests, the rule
 * table whose first broken rule decides the reason, and the rules one by
 * one.
 */
module ValidationProperties {
  import opened Wrappers
  import opened JavaLang
  import opened PaymentModel
  import opened PaymentGateway

  /**
   * The requests the service accepts, stated without order: a 14 to 19
   * digit card number, a month in 1..12 that is not before the current
   * (year, month), one of GBP, EUR, USD in any ASCII letter case, a positive
   * amount and a CVV that is a 3 or 4 digit number.
   */
  ghost predicate IsAcceptable(request: PaymentRequest, currentYear: int, currentMonth: int) {
    && request.cardNumber.Some?
    && 14 <= |request.cardNumber.value| <= 19
    && AllDigits(request.cardNumber.value)
    && 1 <= request.expiryMonth <= 12
    && (request.expiryYear > currentYear
        || (request.expiryYear == currentYear && request.expiryMonth >= currentMonth))
    && request.currency.Some?
    && |request.currency.value| == 3
    && ToUpperCase(request.currency.value) in AllowedCurrencies
    && request.amount > 0
    && 100 <= request.cvv <= 9999
  }

  /** The validator passes a request exactly when it is acceptable. */
  lemma ValidateAcceptsExactly(request: PaymentRequest, currentYear: int, currentMonth: int)
    ensures ValidatePaymentRequest(request, currentYear, currentMonth).Pass?
            <==> IsAcceptable(request, currentYear, currentMonth)
  {
    ThreeOrFourDigits(request.cvv);
  }

  /** The rules in the order the service checks them. */
  const ValidationOrder: seq<Reason> := [
    CardNumberRequired, CardNumberLength, CardNumberNotNumeric,
    ExpiryMonthRange, ExpiryYearPast, CardExpired,
    CurrencyRequired, CurrencyLength, CurrencyNotAllowed,
    AmountNotPositive, CvvLength, CvvNotNumeric]

  /** Whether `request` breaks the rule whose refusal is `rule`, that rule taken on its own. */
  predicate Breaks(rule: Reason, request: PaymentRequest, currentYear: int, currentMonth: int) {
    match rule
    case CardNumberRequired => request.cardNumber.None? || request.cardNumber.value == []
    case CardNumberLength =>
      request.cardNumber.Some? && (|request.cardNumber.value| < 14 || |request.cardNumber.value| > 19)
    case CardNumberNotNumeric => request.cardNumber.Some? && !MatchesDigits(request.cardNumber.value)
    case ExpiryMonthRange => !(1 <= request.expiryMonth <= 12)
    case ExpiryYearPast => request.expiryYear < currentYear
    case CardExpired => request.expiryYear == currentYear && request.expiryMonth < currentMonth
    case CurrencyRequired => request.currency.None? || request.currency.value == []
    case CurrencyLength => request.currency.Some? && |request.currency.value| != 3
    case CurrencyNotAllowed =>
      request.currency.Some? && ToUpperCase(request.currency.value) !in AllowedCurrencies
    case AmountNotPositive => request.amount <= 0
    case CvvLength => !(3 <= |IntToString(request.cvv)| <= 4)
    case CvvNotNumeric => !MatchesDigits(IntToString(request.cvv))
    case BankUnavailable => false
    case InvalidId => false
  }

  /** The position of the first rule of `rules` that `request` breaks; `|rules|` when it breaks none. */
  function FirstBroken(rules: seq<Reason>, request: PaymentRequest, currentYear: int, currentMonth: int)
    : (k: nat)
    ensures k <= |rules|
    ensures forall j :: 0 <= j < k ==> !Breaks(rules[j], request, currentYear, currentMonth)
    ensures k < |rules| ==> Breaks(rules[k], request, currentYear, currentMonth)
  {
    if rules == [] then 0
    else if Breaks(rules[0], request, currentYear, currentMonth) then 0
    else 1 + FirstBroken(rules[1..], request, currentYear, currentMonth)
  }

  /**
   * Fail fast: the validator refuses with the first rule of
   * `ValidationOrder` the request breaks, and passes it when it breaks none.
   */
  lemma ValidationReportsFirstBrokenRule(request: PaymentRequest, currentYear: int, currentMonth: int)
    ensures var k := FirstBroken(ValidationOrder, request, currentYear, currentMonth);
            ValidatePaymentRequest(request, currentYear, currentMonth)
            == if k == |ValidationOrder| then Pass else Fail(ValidationOrder[k])
  {
    var order := ValidationOrder;
    var k := FirstBroken(order, request, currentYear, currentMonth);
    assert order[0] == CardNumberRequired;
    assert order[1] == CardNumberLength;
    assert order[2] == CardNumberNotNumeric;
    assert order[3] == ExpiryMonthRange;
    assert order[4] == ExpiryYearPast;
    assert order[5] == CardExpired;
    assert order[6] == CurrencyRequired;
    assert order[7] == CurrencyLength;
    assert order[8] == CurrencyNotAllowed;
    assert order[9] == AmountNotPositive;
    assert order[10] == CvvLength;
    assert order[11] == CvvNotNumeric;
  }

  /** The card-number guards come first, and a passing request has a 14 to 19 digit number. */
  lemma CardNumberRules(request: PaymentRequest, currentYear: int, currentMonth: int)
    ensures var v := ValidatePaymentRequest(request, currentYear, currentMonth);
            var c := request.cardNumber;
            && (c.None? || c.value == [] ==> v == Fail(CardNumberRequired))
            && (c.Some? && c.value != [] && (|c.value| < 14 || |c.value| > 19) ==> v == Fail(CardNumberLength))
            && (c.Some? && 14 <= |c.value| <= 19 && !AllDigits(c.value) ==> v == Fail(CardNumberNotNumeric))
            && (v.Pass? ==> c.Some? && 14 <= |c.value| <= 19 && AllDigits(c.value))
  {
  }

  /** A month outside 1..12 is refused before the date is compared with the clock. */
  lemma ExpiryMonthCheckedFirst(request: PaymentRequest, currentYear: int, currentMonth: int,
                                otherYear: int, otherMonth: int)
    requires request.cardNumber.Some? && 14 <= |request.cardNumber.value| <= 19
    requires MatchesDigits(request.cardNumber.value)
    requires !(1 <= request.expiryMonth <= 12)
    ensures ValidatePaymentRequest(request, currentYear, currentMonth) == Fail(ExpiryMonthRange)
    ensures ValidatePaymentRequest(request, otherYear, otherMonth) == Fail(ExpiryMonthRange)
  {
  }

  /** The date is refused exactly when it is strictly before the current (year, month). */
  lemma ExpiryDateRule(request: PaymentRequest, currentYear: int, currentMonth: int)
    requires request.cardNumber.Some? && 14 <= |request.cardNumber.value| <= 19
    requires MatchesDigits(request.cardNumber.value)
    requires 1 <= request.expiryMonth <= 12
    ensures var v := ValidatePaymentRequest(request, currentYear, currentMonth);
            (v == Fail(ExpiryYearPast) || v == Fail(CardExpired))
            <==> (request.expiryYear < currentYear
                  || (request.expiryYear == currentYear && request.expiryMonth < currentMonth))
    ensures request.expiryYear < currentYear
            ==> ValidatePaymentRequest(request, currentYear, currentMonth) == Fail(ExpiryYearPast)
    ensures request.expiryYear == currentYear && request.expiryMonth < currentMonth
            ==> ValidatePaymentRequest(request, currentYear, currentMonth) == Fail(CardExpired)
  {
  }

  /** The currency passes exactly when it has three characters whose capitals are GBP, EUR or USD. */
  lemma CurrencyRule(request: PaymentRequest, currentYear: int, currentMonth: int)
    requires request.cardNumber.Some? && 14 <= |request.cardNumber.value| <= 19
    requires MatchesDigits(request.cardNumber.value)
    requires 1 <= request.expiryMonth <= 12
    requires request.expiryYear > currentYear
             || (request.expiryYear == currentYear && request.expiryMonth >= currentMonth)
    ensures var v := ValidatePaymentRequest(request, currentYear, currentMonth);
            (v == Fail(CurrencyRequired) || v == Fail(CurrencyLength) || v == Fail(CurrencyNotAllowed))
            <==> !(request.currency.Some? && |request.currency.value| == 3
                   && ToUpperCase(request.currency.value) in AllowedCurrencies)
  {
  }

  /** A three-letter code that agrees with an allowed code up to ASCII case is allowed. */
  lemma {:induction false} CurrencyIgnoresCase(code: string, currency: string)
    requires code in AllowedCurrencies
    requires |currency| == 3
    requires forall i :: 0 <= i < 3 ==> currency[i] == code[i] || currency[i] as int == code[i] as int + 32
    ensures ToUpperCase(currency) in AllowedCurrencies
  {
    assert forall i :: 0 <= i < 3 ==> 'A' <= code[i] <= 'Z';
    assert ToUpperCase(currency) == code;
  }

  /** "usd" is allowed as it is, JPY is not. */
  lemma CurrencySamples()
    ensures ToUpperCase("usd") in AllowedCurrencies
    ensures ToUpperCase("JPY") !in AllowedCurrencies
  {
    assert ToUpperCase("usd") == "USD";
    assert ToUpperCase("JPY") == "JPY";
  }

  /** Once everything else passes, the CVV decides: it passes exactly when 100 <= cvv <= 9999. */
  lemma AmountAndCvvRules(request: PaymentRequest, currentYear: int, currentMonth: int)
    requires request.cardNumber.Some? && 14 <= |request.cardNumber.value| <= 19
    requires MatchesDigits(request.cardNumber.value)
    requires 1 <= request.expiryMonth <= 12
    requires request.expiryYear > currentYear
             || (request.expiryYear == currentYear && request.expiryMonth >= currentMonth)
    requires request.currency.Some? && |request.currency.value| == 3
    requires ToUpperCase(request.currency.value) in AllowedCurrencies
    ensures request.amount <= 0 ==> ValidatePaymentRequest(request, currentYear, currentMonth) == Fail(AmountNotPositive)
    ensures request.amount > 0 ==>
              (ValidatePaymentRequest(request, currentYear, currentMonth).Pass? <==> 100 <= request.cvv <= 9999)
  {
    ThreeOrFourDigits(request.cvv);
  }

  /** CVV 12 renders as "12", too short; CVV -12 renders as "-12", long enough but not all digits. */
  lemma CvvSamples()
    ensures |IntToString(12)| == 2
    ensures |IntToString(-12)| == 3 && !MatchesDigits(IntToString(-12))
  {
  }

  /** The reason whose message has `n` characters: every message has a length of its own. */
  function ReasonOfLength(n: nat): Option<Reason> {
    if n == 10 then Some(InvalidId)
    else if n == 20 then Some(CurrencyRequired)
    else if n == 23 then Some(CardNumberRequired)
    else if n == 29 then Some(CurrencyLength)
    else if n == 31 then Some(CvvLength)
    else if n == 32 then Some(AmountNotPositive)
    else if n == 33 then Some(ExpiryYearPast)
    else if n == 35 then Some(BankUnavailable)
    else if n == 37 then Some(ExpiryMonthRange)
    else if n == 38 then Some(CurrencyNotAllowed)
    else if n == 40 then Some(CvvNotNumeric)
    else if n == 48 then Some(CardNumberNotNumeric)
    else if n == 52 then Some(CardExpired)
    else if n == 53 then Some(CardNumberLength)
    else None
  }

  lemma MessageLengthDecodes(r: Reason)
    ensures ReasonOfLength(|Message(r)|) == Some(r)
  {
  }

  /** Each refusal has its own text: a client can tell the reasons apart by message alone. */
  lemma MessagesDistinct(a: Reason, b: Reason)
    requires a != b
    ensures Message(a) != Message(b)
  {
    MessageLengthDecodes(a);
    MessageLengthDecodes(b);
  }
}
