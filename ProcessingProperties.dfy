/**
 * What `processPayment` produces: a declined authorization is a success, a
 * refusal or a bank failure stores nothing, the record copies the request,
 * and the store returns what was put in it.
 */
module ProcessingProperties {
  import opened Wrappers
  import opened JavaLang
  import opened PaymentModel
  import opened PaymentGateway
  import opened ValidationProperties

  /**
   * A record comes back exactly when the request is valid and the bank
   * answered with a body; its status is AUTHORIZED when the bank authorized
   * and DECLINED otherwise, and both are successes.
   */
  lemma OutcomeFollowsBank(request: PaymentRequest, id: Uuid, reply: BankReply, currentYear: int, currentMonth: int)
    ensures var r := PaymentOutcome(request, id, reply, currentYear, currentMonth);
            r.Success? <==> IsAcceptable(request, currentYear, currentMonth) && reply.Reply?
    ensures var r := PaymentOutcome(request, id, reply, currentYear, currentMonth);
            r.Success? ==> (r.value.status == Authorized <==> reply.response.authorized)
                           && (r.value.status == Declined <==> !reply.response.authorized)
  {
    ValidateAcceptsExactly(request, currentYear, currentMonth);
  }

  /** A refused request ends with the validator's reason, whatever the bank would have said. */
  lemma RefusalCarriesReason(request: PaymentRequest, id: Uuid, reply: BankReply, currentYear: int, currentMonth: int)
    requires ValidatePaymentRequest(request, currentYear, currentMonth).Fail?
    ensures PaymentOutcome(request, id, reply, currentYear, currentMonth)
            == Failure(Rejected(ValidatePaymentRequest(request, currentYear, currentMonth).error))
  {
  }

  /** After a valid request, a transport failure is "Failed to process payment with bank" and a null reply a NullPointerException. */
  lemma BankFailureRefuses(request: PaymentRequest, id: Uuid, currentYear: int, currentMonth: int)
    requires ValidatePaymentRequest(request, currentYear, currentMonth).Pass?
    ensures PaymentOutcome(request, id, TransportError, currentYear, currentMonth) == Failure(Rejected(BankUnavailable))
    ensures PaymentOutcome(request, id, EmptyBody, currentYear, currentMonth) == Failure(NullBankResponse)
  {
  }

  /**
   * The record carries the fresh id, the request's month, year, currency and
   * amount unchanged, and the last four characters of the card number:
   * four ASCII digits that end it.
   */
  lemma RecordCopiesRequest(request: PaymentRequest, id: Uuid, reply: BankReply, currentYear: int, currentMonth: int)
    requires PaymentOutcome(request, id, reply, currentYear, currentMonth).Success?
    ensures var record := PaymentOutcome(request, id, reply, currentYear, currentMonth).value;
            && record.id == id
            && record.expiryMonth == request.expiryMonth
            && record.expiryYear == request.expiryYear
            && record.currency == request.currency
            && record.amount == request.amount
            && request.cardNumber.Some?
            && |record.cardNumberLastFour| == 4
            && AllDigits(record.cardNumberLastFour)
            && record.cardNumberLastFour == request.cardNumber.value[|request.cardNumber.value| - 4..]
  {
  }

  /** For a card number that passed validation, the last four are four digits ending the number. */
  lemma LastFourOfValidCard(request: PaymentRequest, currentYear: int, currentMonth: int)
    requires ValidatePaymentRequest(request, currentYear, currentMonth).Pass?
    ensures var c := request.cardNumber.value;
            var four := GetLastFourDigits(request.cardNumber);
            |four| == 4 && AllDigits(four) && c == c[..|c| - 4] + four
  {
  }

  /** A stored record is found under its id; every other id finds what it found before. */
  lemma LookupAfterAdd(store: map<Uuid, PaymentRecord>, record: PaymentRecord, other: Uuid)
    requires other != record.id
    ensures Lookup(Add(store, record), record.id) == Success(record)
    ensures Lookup(Add(store, record), other) == Lookup(store, other)
  {
  }

  /** Adding a record under its own id keeps every record under its own id. */
  lemma AddKeepsKeyedById(store: map<Uuid, PaymentRecord>, record: PaymentRecord)
    requires KeyedById(store)
    ensures KeyedById(Add(store, record))
  {
  }

  /**
   * Processing, then fetching the new id twice: both fetches return the
   * record `processPayment` returned; a refused request leaves the id unknown.
   */
  method ProcessThenFetchTwice(service: PaymentGatewayService, request: PostPaymentRequest, freshId: Uuid,
                               reply: BankReply, currentYear: int, currentMonth: int)
    returns (first: Result<PaymentRecord, Reason>, second: Result<PaymentRecord, Reason>)
    requires service.Valid() && freshId !in service.payments
    modifies service
    ensures service.Valid()
    ensures PaymentOutcome(old(request.Value()), freshId, reply, currentYear, currentMonth).Success?
            ==> first == second == Success(PaymentOutcome(old(request.Value()), freshId, reply, currentYear, currentMonth).value)
    ensures PaymentOutcome(old(request.Value()), freshId, reply, currentYear, currentMonth).Failure?
            ==> first == second == Failure(InvalidId)
  {
    var r := service.ProcessPayment(request, freshId, reply, currentYear, currentMonth);
    first := service.GetPaymentById(freshId);
    second := service.GetPaymentById(freshId);
  }

  // ---------------------------------------------------------------------------
  // Concrete requests
  // ---------------------------------------------------------------------------

  const VisaTest: string := "4111111111111111"

  lemma VisaTestDigits()
    ensures |VisaTest| == 16 && MatchesDigits(VisaTest)
    ensures GetLastFourDigits(Some(VisaTest)) == "1111"
  {
  }

  /** Card 4111111111111111, 12/2099, USD, 1050, CVV 123, authorized: an AUTHORIZED record ending in 1111. */
  lemma AuthorizedScenario(id: Uuid, currentYear: int, currentMonth: int)
    requires currentYear < 2099
    ensures var request := PaymentRequest(Some(VisaTest), 12, 2099, Some("USD"), 1050, 123);
            PaymentOutcome(request, id, Reply(BankResponse(true, None)), currentYear, currentMonth)
            == Success(PaymentRecord(id, Authorized, "1111", 12, 2099, Some("USD"), 1050))
  {
    VisaTestDigits();
    CurrencySamples();
    assert ToUpperCase("USD") == "USD";
    ThreeOrFourDigits(123);
  }

  /** Card number "4111" is refused for its length, before the bank is called. */
  lemma ShortCardScenario(id: Uuid, reply: BankReply, currentYear: int, currentMonth: int)
    ensures var request := PaymentRequest(Some("4111"), 12, 2099, Some("USD"), 1050, 123);
            PaymentOutcome(request, id, reply, currentYear, currentMonth) == Failure(Rejected(CardNumberLength))
  {
  }

  /** Currency JPY is refused as not allowed. */
  lemma JpyScenario(id: Uuid, reply: BankReply, currentYear: int, currentMonth: int)
    requires currentYear < 2099
    ensures var request := PaymentRequest(Some(VisaTest), 12, 2099, Some("JPY"), 1050, 123);
            PaymentOutcome(request, id, reply, currentYear, currentMonth) == Failure(Rejected(CurrencyNotAllowed))
  {
  }

  /** Expiry 01/2020 is refused once the year is past 2020. */
  lemma ExpiredScenario(id: Uuid, reply: BankReply, currentYear: int, currentMonth: int)
    requires currentYear > 2020
    ensures var request := PaymentRequest(Some(VisaTest), 1, 2020, Some("USD"), 1050, 123);
            PaymentOutcome(request, id, reply, currentYear, currentMonth) == Failure(Rejected(ExpiryYearPast))
  {
  }

  /** CVV 12 is refused for its length. */
  lemma ShortCvvScenario(id: Uuid, reply: BankReply, currentYear: int, currentMonth: int)
    requires currentYear < 2099
    ensures var request := PaymentRequest(Some(VisaTest), 12, 2099, Some("USD"), 1050, 12);
            PaymentOutcome(request, id, reply, currentYear, currentMonth) == Failure(Rejected(CvvLength))
  {
    VisaTestDigits();
    CurrencySamples();
    CvvSamples();
  }
}
