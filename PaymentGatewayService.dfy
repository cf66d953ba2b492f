/**
 * The payment service (`PaymentGatewayService`): a fail-fast validator, the
 * call to the acquiring bank, the construction of the payment record and
 * the in-memory store keyed by payment id.
 *
 * The wall clock, the bank's HTTP endpoint and UUID generation are inputs:
 * `currentYear` and `currentMonth`, a `BankReply`, and a fresh id.
 */
module PaymentGateway {
  import opened Wrappers
  import opened JavaLang
  import opened PaymentModel

  /** Why a request is refused: one EventProcessingException message each. */
  datatype Reason =
    | CardNumberRequired
    | CardNumberLength
    | CardNumberNotNumeric
    | ExpiryMonthRange
    | ExpiryYearPast
    | CardExpired
    | CurrencyRequired
    | CurrencyLength
    | CurrencyNotAllowed
    | AmountNotPositive
    | CvvLength
    | CvvNotNumeric
    | BankUnavailable
    | InvalidId

  /** The exception text for each refusal; `MessagesDistinct` shows no two share one. */
  function Message(reason: Reason): (m: string)
    ensures m != []
  {
    match reason
    case CardNumberRequired => "Card number is required"
    case CardNumberLength => "Card number must be between 14 and 19 characters long"
    case CardNumberNotNumeric => "Card number must only contain numeric characters"
    case ExpiryMonthRange => "Expiry month must be between 1 and 12"
    case ExpiryYearPast => "Expiry year must be in the future"
    case CardExpired => "Card has expired - expiry date must be in the future"
    case CurrencyRequired => "Currency is required"
    case CurrencyLength => "Currency must be 3 characters"
    case CurrencyNotAllowed => "Currency must be one of: USD, EUR, GBP"
    case AmountNotPositive => "Amount must be greater than zero"
    case CvvLength => "CVV must be 3-4 characters long"
    case CvvNotNumeric => "CVV must only contain numeric characters"
    case BankUnavailable => "Failed to process payment with bank"
    case InvalidId => "Invalid ID"
  }

  const AllowedCurrencies: set<string> := {"GBP", "EUR", "USD"}

  // ---------------------------------------------------------------------------
  // validatePaymentRequest
  // ---------------------------------------------------------------------------

  /**
   * `validatePaymentRequest`: the guards in source order; the first that
   * fails decides the reason.
   */
  function ValidatePaymentRequest(request: PaymentRequest, currentYear: int, currentMonth: int): (r: Outcome<Reason>)
    ensures r.Fail? ==> r.error != BankUnavailable && r.error != InvalidId
    ensures r.Pass? ==> && request.cardNumber.Some? && 14 <= |request.cardNumber.value| <= 19
                        && request.currency.Some? && |request.currency.value| == 3
                        && 1 <= request.expiryMonth <= 12 && request.amount > 0
  {
    if request.cardNumber.None? || request.cardNumber.value == [] then Fail(CardNumberRequired)
    else if |request.cardNumber.value| < 14 || |request.cardNumber.value| > 19 then Fail(CardNumberLength)
    else if !MatchesDigits(request.cardNumber.value) then Fail(CardNumberNotNumeric)
    else if request.expiryMonth < 1 || request.expiryMonth > 12 then Fail(ExpiryMonthRange)
    else if request.expiryYear < currentYear then Fail(ExpiryYearPast)
    else if request.expiryYear == currentYear && request.expiryMonth < currentMonth then Fail(CardExpired)
    else if request.currency.None? || request.currency.value == [] then Fail(CurrencyRequired)
    else if |request.currency.value| != 3 then Fail(CurrencyLength)
    else if ToUpperCase(request.currency.value) !in AllowedCurrencies then Fail(CurrencyNotAllowed)
    else if request.amount <= 0 then Fail(AmountNotPositive)
    else
      var cvvText := IntToString(request.cvv);
      if |cvvText| < 3 || |cvvText| > 4 then Fail(CvvLength)
      else if !MatchesDigits(cvvText) then Fail(CvvNotNumeric)
      else Pass
  }

  // ---------------------------------------------------------------------------
  // callAcquiringBank
  // ---------------------------------------------------------------------------

  /** The body posted to the bank: the request serialised through its JSON properties. */
  datatype BankRequestBody = BankRequestBody(
    cardNumber: Option<string>,
    expiryDate: string,
    currency: Option<string>,
    amount: Int32,
    cvv: Int32)

  /**
   * The body carries the request's fields unchanged, and its expiry text
   * gives back the request's month and year when parsed the way
   * `setExpiryDate` parses it.
   */
  function BankRequestBodyOf(request: PaymentRequest): (body: BankRequestBody)
    ensures ApplyExpiryDate(0, 0, Some(body.expiryDate)) == ExpiryUpdate(request.expiryMonth, request.expiryYear, Pass)
    ensures body.cardNumber == request.cardNumber && body.currency == request.currency
    ensures body.amount == request.amount && body.cvv == request.cvv
  {
    ExpiryDateRoundTrip(request.expiryMonth, request.expiryYear, 0, 0);
    BankRequestBody(request.cardNumber, FormatExpiryDate(request.expiryMonth, request.expiryYear),
                    request.currency, request.amount, request.cvv)
  }

  /** The bank's decoded reply. */
  datatype BankResponse = BankResponse(authorized: bool, authorizationCode: Option<string>)

  /**
   * What `postForObject` does, as seen by the service: a decoded reply, an
   * empty body (Java returns null), or any exception (connection failure,
   * timeout, error status, undecodable body).
   */
  datatype BankReply = Reply(response: BankResponse) | EmptyBody | TransportError

  /**
   * `callAcquiringBank`: every exception becomes "Failed to process payment
   * with bank"; a null reply is passed on as `None`.
   */
  function CallAcquiringBank(reply: BankReply): (r: Result<Option<BankResponse>, Reason>)
    ensures r.Failure? <==> reply.TransportError?
    ensures r.Failure? ==> r.error == BankUnavailable
    ensures r.Success? ==> (r.value.Some? <==> reply.Reply?)
    ensures reply.Reply? ==> r == Success(Some(reply.response))
  {
    match reply
    case Reply(response) => Success(Some(response))
    case EmptyBody => Success(None)
    case TransportError => Failure(BankUnavailable)
  }

  // ---------------------------------------------------------------------------
  // The payment record and processPayment
  // ---------------------------------------------------------------------------

  /** A payment id (`java.util.UUID`). */
  type Uuid = nat

  datatype PaymentStatus = Authorized | Declined

  /** `PostPaymentResponse`: what is stored and returned for a processed payment. */
  datatype PaymentRecord = PaymentRecord(
    id: Uuid,
    status: PaymentStatus,
    cardNumberLastFour: string,
    expiryMonth: Int32,
    expiryYear: Int32,
    currency: Option<string>,
    amount: Int32)

  /** `getLastFourDigits`: the last four characters, or "" for null or a shorter string. */
  function GetLastFourDigits(cardNumber: Option<string>): (r: string)
    ensures cardNumber.None? || |cardNumber.value| < 4 ==> r == []
    ensures cardNumber.Some? && |cardNumber.value| >= 4 ==>
              |r| == 4 && cardNumber.value == cardNumber.value[..|cardNumber.value| - 4] + r
  {
    if cardNumber.None? || |cardNumber.value| < 4 then []
    else cardNumber.value[|cardNumber.value| - 4..]
  }

  /** How `processPayment` ends when it does not return a record. */
  datatype ProcessError =
    | Rejected(reason: Reason)  // EventProcessingException: HTTP 400 at the controller
    | NullBankResponse          // NullPointerException at `bankResponse.isAuthorized()` in `processPayment` on a null reply

  /** The record `processPayment` builds from a validated request and the bank's reply. */
  function BuildRecord(id: Uuid, response: BankResponse, request: PaymentRequest): (record: PaymentRecord)
    ensures record.id == id && (record.status == Authorized <==> response.authorized)
    ensures record.expiryMonth == request.expiryMonth && record.expiryYear == request.expiryYear
    ensures record.currency == request.currency && record.amount == request.amount
    ensures request.cardNumber.Some? && |request.cardNumber.value| >= 4 ==>
              var c := request.cardNumber.value;
              |record.cardNumberLastFour| == 4 && c == c[..|c| - 4] + record.cardNumberLastFour
  {
    PaymentRecord(
      id,
      if response.authorized then Authorized else Declined,
      GetLastFourDigits(request.cardNumber),
      request.expiryMonth,
      request.expiryYear,
      request.currency,
      request.amount)
  }

  /** What `processPayment` returns or throws, given the clock, the bank's reply and the fresh id. */
  function PaymentOutcome(request: PaymentRequest, id: Uuid, reply: BankReply, currentYear: int, currentMonth: int)
    : (r: Result<PaymentRecord, ProcessError>)
    ensures r.Success? ==> && ValidatePaymentRequest(request, currentYear, currentMonth).Pass?
                           && reply.Reply? && r.value.id == id
    ensures r.Failure? && r.error.Rejected? ==> r.error.reason != InvalidId
  {
    match ValidatePaymentRequest(request, currentYear, currentMonth)
    case Fail(reason) => Failure(Rejected(reason))
    case Pass =>
      match CallAcquiringBank(reply)
      case Failure(reason) => Failure(Rejected(reason))
      case Success(None) => Failure(NullBankResponse)
      case Success(Some(response)) => Success(BuildRecord(id, response, request))
  }

  /** `PaymentsRepository.get`: the record stored under `id`, or "Invalid ID". */
  function Lookup(store: map<Uuid, PaymentRecord>, id: Uuid): (r: Result<PaymentRecord, Reason>)
    ensures r.Success? <==> id in store
    ensures r.Success? ==> r.value == store[id]
    ensures r.Failure? ==> r.error == InvalidId
  {
    if id in store then Success(store[id]) else Failure(InvalidId)
  }

  /** `PaymentsRepository.add`: the record is stored under its own id. */
  function Add(store: map<Uuid, PaymentRecord>, record: PaymentRecord): (s: map<Uuid, PaymentRecord>)
    ensures s.Keys == store.Keys + {record.id}
    ensures s[record.id] == record
    ensures forall k :: k in store && k != record.id ==> s[k] == store[k]
  {
    store[record.id := record]
  }

  /** Every record sits under its own id. */
  ghost predicate KeyedById(store: map<Uuid, PaymentRecord>) {
    forall id :: id in store ==> store[id].id == id
  }

  class PaymentGatewayService {
    /** The payment repository. */
    var payments: map<Uuid, PaymentRecord>
    /** Every body posted to the acquiring bank so far, oldest first. */
    ghost var bankCalls: seq<BankRequestBody>

    ghost predicate Valid()
      reads this
    {
      KeyedById(payments)
    }

    constructor ()
      ensures Valid() && payments == map[] && bankCalls == []
    {
      payments := map[];
      bankCalls := [];
    }

    /** `getPaymentById`: the stored record under `id`, or "Invalid ID". */
    function GetPaymentById(id: Uuid): (r: Result<PaymentRecord, Reason>)
      reads this
      requires Valid()
      ensures r.Success? <==> id in payments
      ensures r.Success? ==> r.value == payments[id] && r.value.id == id
      ensures r.Failure? ==> r.error == InvalidId
    {
      Lookup(payments, id)
    }

    /**
     * `processPayment`: validate, call the bank, build the record, store it.
     * A refusal or a failed bank call leaves the store as it was; the bank
     * is called exactly when the request is valid.
     */
    method ProcessPayment(request: PostPaymentRequest, freshId: Uuid, reply: BankReply,
                          currentYear: int, currentMonth: int)
      returns (r: Result<PaymentRecord, ProcessError>)
      requires Valid()
      requires freshId !in payments
      modifies this
      ensures Valid()
      ensures r == PaymentOutcome(request.Value(), freshId, reply, currentYear, currentMonth)
      ensures payments == if r.Success? then Add(old(payments), r.value) else old(payments)
      ensures bankCalls == if ValidatePaymentRequest(request.Value(), currentYear, currentMonth).Pass?
                           then old(bankCalls) + [BankRequestBodyOf(request.Value())]
                           else old(bankCalls)
    {
      var validation := ValidatePaymentRequest(request.Value(), currentYear, currentMonth);
      if validation.Fail? {
        return Failure(Rejected(validation.error));
      }
      bankCalls := bankCalls + [BankRequestBodyOf(request.Value())];
      var bankResponse := CallAcquiringBank(reply);
      if bankResponse.Failure? {
        return Failure(Rejected(bankResponse.error));
      }
      if bankResponse.value.None? {
        return Failure(NullBankResponse);
      }
      var record := BuildRecord(freshId, bankResponse.value.value, request.Value());
      payments := Add(payments, record);
      return Success(record);
    }
  }
}
