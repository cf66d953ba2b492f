/**
 * The inbound payment request (`PostPaymentRequest`): six mutable fields, a
 * plain setter for each, and the `expiry_date` property, which is written as
 * `M/YYYY` and parsed back into `expiryMonth` and `expiryYear`.
 */
module PaymentModel {
  import opened Wrappers
  import opened JavaLang

  /** The fields of a request at one moment. A null Java string is `None`. */
  datatype PaymentRequest = PaymentRequest(
    cardNumber: Option<string>,
    expiryMonth: Int32,
    expiryYear: Int32,
    currency: Option<string>,
    amount: Int32,
    cvv: Int32)

  /** The two IllegalArgumentExceptions `setExpiryDate` throws. */
  datatype ExpiryDateError =
    | InvalidFormat      // a part is not an int
    | ExpectedMonthYear  // the split did not give exactly two parts

  /** The IllegalArgumentException text of each failure; the two differ (`ExpiryDateMessagesDistinct`). */
  function ExpiryDateErrorMessage(e: ExpiryDateError): (m: string)
    ensures m != []
  {
    match e
    case InvalidFormat => "Invalid expiry date format"
    case ExpectedMonthYear => "Invalid expiry date format. Expected MM/YYYY"
  }

  /** A caller can tell the two failures apart by their texts. */
  lemma ExpiryDateMessagesDistinct()
    ensures ExpiryDateErrorMessage(InvalidFormat) != ExpiryDateErrorMessage(ExpectedMonthYear)
  {
    assert |ExpiryDateErrorMessage(InvalidFormat)| == 26;
  }

  /** `String.format("%d/%d", month, year)`: no zero padding, a '-' for negative values. */
  function FormatExpiryDate(month: Int32, year: Int32): (s: string)
    ensures JavaSplit(s, '/') == [IntToString(month), IntToString(year)]
  {
    SplitTwo(IntToString(month), IntToString(year), '/');
    IntToString(month) + "/" + IntToString(year)
  }

  /** The expiry fields after a call to `setExpiryDate`, with what the call threw. */
  datatype ExpiryUpdate = ExpiryUpdate(month: Int32, year: Int32, outcome: Outcome<ExpiryDateError>)

  /**
   * The effect of `setExpiryDate(expiryDate)` on fields holding `month` and
   * `year`. Null and "" change nothing; otherwise the text is split on '/'
   * and must give exactly two parts; the month is assigned as soon as the
   * first part parses, before the second part is looked at.
   */
  function ApplyExpiryDate(month: Int32, year: Int32, expiryDate: Option<string>): (r: ExpiryUpdate)
    ensures r.year != year ==> r.outcome.Pass?
    ensures r.outcome == Fail(ExpectedMonthYear) ==> r.month == month && r.year == year
  {
    if expiryDate.None? || expiryDate.value == [] then ExpiryUpdate(month, year, Pass)
    else
      var parts := JavaSplit(expiryDate.value, '/');
      if |parts| != 2 then ExpiryUpdate(month, year, Fail(ExpectedMonthYear))
      else
        match ParseInt(parts[0])
        case None => ExpiryUpdate(month, year, Fail(InvalidFormat))
        case Some(m) =>
          match ParseInt(parts[1])
          case None => ExpiryUpdate(m, year, Fail(InvalidFormat))
          case Some(y) => ExpiryUpdate(m, y, Pass)
  }

  class PostPaymentRequest {
    var expiryMonth: Int32
    var expiryYear: Int32
    var currency: Option<string>
    var amount: Int32
    var cvv: Int32
    var cardNumber: Option<string>

    /** The request's fields as a value. */
    function Value(): PaymentRequest
      reads this
    {
      PaymentRequest(cardNumber, expiryMonth, expiryYear, currency, amount, cvv)
    }

    /** Java's implicit constructor: every `int` 0, every `String` null. */
    constructor ()
      ensures Value() == PaymentRequest(None, 0, 0, None, 0, 0)
    {
      expiryMonth, expiryYear, currency := 0, 0, None;
      amount, cvv, cardNumber := 0, 0, None;
    }

    method SetCardNumber(cardNumber: Option<string>)
      modifies this
      ensures Value() == old(Value()).(cardNumber := cardNumber)
    {
      this.cardNumber := cardNumber;
    }

    method SetExpiryMonth(expiryMonth: Int32)
      modifies this
      ensures Value() == old(Value()).(expiryMonth := expiryMonth)
    {
      this.expiryMonth := expiryMonth;
    }

    method SetExpiryYear(expiryYear: Int32)
      modifies this
      ensures Value() == old(Value()).(expiryYear := expiryYear)
    {
      this.expiryYear := expiryYear;
    }

    method SetCurrency(currency: Option<string>)
      modifies this
      ensures Value() == old(Value()).(currency := currency)
    {
      this.currency := currency;
    }

    method SetAmount(amount: Int32)
      modifies this
      ensures Value() == old(Value()).(amount := amount)
    {
      this.amount := amount;
    }

    method SetCvv(cvv: Int32)
      modifies this
      ensures Value() == old(Value()).(cvv := cvv)
    {
      this.cvv := cvv;
    }

    /** `getExpiryDate()`: feeding its text back to `setExpiryDate` restores both fields. */
    function GetExpiryDate(): (s: string)
      reads this
      ensures forall m, y :: ApplyExpiryDate(m, y, Some(s)) == ExpiryUpdate(expiryMonth, expiryYear, Pass)
    {
      var s := FormatExpiryDate(expiryMonth, expiryYear);
      assert forall m, y :: ApplyExpiryDate(m, y, Some(s)) == ExpiryUpdate(expiryMonth, expiryYear, Pass) by {
        forall m, y ensures ApplyExpiryDate(m, y, Some(s)) == ExpiryUpdate(expiryMonth, expiryYear, Pass) {
          ExpiryDateRoundTrip(expiryMonth, expiryYear, m, y);
        }
      }
      s
    }

    /**
     * `setExpiryDate(expiryDate)`: the expiry fields become what
     * `ApplyExpiryDate` gives, and nothing else changes. A failure leaves
     * the month already assigned when only the year fails to parse.
     */
    method SetExpiryDate(expiryDate: Option<string>) returns (outcome: Outcome<ExpiryDateError>)
      modifies this
      ensures ExpiryUpdate(expiryMonth, expiryYear, outcome)
              == ApplyExpiryDate(old(expiryMonth), old(expiryYear), expiryDate)
      ensures cardNumber == old(cardNumber) && currency == old(currency)
      ensures amount == old(amount) && cvv == old(cvv)
    {
      if expiryDate.Some? && expiryDate.value != [] {
        var parts := JavaSplit(expiryDate.value, '/');
        if |parts| == 2 {
          var month := ParseInt(parts[0]);
          if month.None? {
            return Fail(InvalidFormat);
          }
          expiryMonth := month.value;
          var year := ParseInt(parts[1]);
          if year.None? {
            return Fail(InvalidFormat);
          }
          expiryYear := year.value;
        } else {
          return Fail(ExpectedMonthYear);
        }
      }
      return Pass;
    }
  }

  // ---------------------------------------------------------------------------
  // Properties of setExpiryDate / getExpiryDate
  // ---------------------------------------------------------------------------

  /** `setExpiryDate(getExpiryDate())` restores any pair of `int` fields, whatever they held before. */
  lemma {:induction false} ExpiryDateRoundTrip(month: Int32, year: Int32, oldMonth: Int32, oldYear: Int32)
    ensures ApplyExpiryDate(oldMonth, oldYear, Some(FormatExpiryDate(month, year))) == ExpiryUpdate(month, year, Pass)
  {
    ParseIntOfRendering(month);
    ParseIntOfRendering(year);
  }

  /** Null and the empty string are ignored: no exception, both fields unchanged. */
  lemma ExpiryDateAbsentIgnored(month: Int32, year: Int32)
    ensures ApplyExpiryDate(month, year, None) == ExpiryUpdate(month, year, Pass)
    ensures ApplyExpiryDate(month, year, Some("")) == ExpiryUpdate(month, year, Pass)
  {
  }

  /**
   * A non-empty text is accepted exactly when it splits into two parts that
   * both parse as `int`; the month then holds the first and the year the
   * second. The parser checks no range.
   */
  lemma ExpiryDateAccepted(month: Int32, year: Int32, text: string)
    requires text != []
    ensures var parts := JavaSplit(text, '/');
            ApplyExpiryDate(month, year, Some(text)).outcome.Pass?
            <==> |parts| == 2 && ParseInt(parts[0]).Some? && ParseInt(parts[1]).Some?
    ensures var parts := JavaSplit(text, '/');
            |parts| == 2 && ParseInt(parts[0]).Some? && ParseInt(parts[1]).Some? ==>
              ApplyExpiryDate(month, year, Some(text))
              == ExpiryUpdate(ParseInt(parts[0]).value, ParseInt(parts[1]).value, Pass)
  {
  }

  /** Any number of parts but two throws "Expected MM/YYYY" and changes neither field. */
  lemma ExpiryDateWrongPartCount(month: Int32, year: Int32, text: string)
    requires text != [] && |JavaSplit(text, '/')| != 2
    ensures ApplyExpiryDate(month, year, Some(text)) == ExpiryUpdate(month, year, Fail(ExpectedMonthYear))
  {
  }

  /**
   * With two parts, a first part that does not parse changes nothing; a
   * first part that parses followed by one that does not leaves the month
   * overwritten and the year as it was.
   */
  lemma ExpiryDatePartialUpdate(month: Int32, year: Int32, text: string)
    requires text != [] && |JavaSplit(text, '/')| == 2
    ensures var parts := JavaSplit(text, '/');
            ParseInt(parts[0]).None? ==>
              ApplyExpiryDate(month, year, Some(text)) == ExpiryUpdate(month, year, Fail(InvalidFormat))
    ensures var parts := JavaSplit(text, '/');
            ParseInt(parts[0]).Some? && ParseInt(parts[1]).None? ==>
              ApplyExpiryDate(month, year, Some(text))
              == ExpiryUpdate(ParseInt(parts[0]).value, year, Fail(InvalidFormat))
  {
  }

  /** "%d/%d" does not zero-pad: month 1 and year 2026 give "1/2026". */
  lemma FormatExpiryDateUnpadded()
    ensures FormatExpiryDate(1, 2026) == "1/2026"
  {
  }

  lemma ParseSamples()
    ensures ParseInt("0") == Some(0) && ParseInt("12") == Some(12) && ParseInt("13") == Some(13)
    ensures ParseInt("2025") == Some(2025)
  {
    DecimalValueSnoc("1", '2');
    assert "1" + ['2'] == "12";
    DecimalValueSnoc("1", '3');
    assert "1" + ['3'] == "13";
    DecimalValueSnoc("2", '0');
    DecimalValueSnoc("20", '2');
    DecimalValueSnoc("202", '5');
    assert "2" + ['0'] == "20" && "20" + ['2'] == "202" && "202" + ['5'] == "2025";
  }

  lemma SplitTrailingSlash()
    ensures JavaSplit("12/", '/') == ["12"]
  {
    PiecesCons("12", "", '/');
    assert "12/" == "12" + ['/'] + "";
    assert Pieces("12/", '/') == ["12", ""];
  }

  lemma SplitTwoTrailingSlash()
    ensures JavaSplit("12/2025/", '/') == ["12", "2025"]
  {
    PiecesCons("2025", "", '/');
    assert "2025/" == "2025" + ['/'] + "";
    PiecesCons("12", "2025/", '/');
    assert "12/2025/" == "12" + ['/'] + "2025/";
    assert Pieces("12/2025/", '/') == ["12", "2025", ""];
  }

  /** Java drops trailing empty strings: "12/" is one part and fails, "12/2025/" is two parts and passes. */
  lemma ExpiryDateTrailingSlash(month: Int32, year: Int32)
    ensures ApplyExpiryDate(month, year, Some("12/")) == ExpiryUpdate(month, year, Fail(ExpectedMonthYear))
    ensures ApplyExpiryDate(month, year, Some("12/2025/")) == ExpiryUpdate(12, 2025, Pass)
  {
    assert ApplyExpiryDate(month, year, Some("12/")) == ExpiryUpdate(month, year, Fail(ExpectedMonthYear)) by {
      SplitTrailingSlash();
    }
    assert ApplyExpiryDate(month, year, Some("12/2025/")) == ExpiryUpdate(12, 2025, Pass) by {
      SplitTwoTrailingSlash();
      ParseSamples();
    }
  }

  lemma ExpiryDateOfTwoParts(month: Int32, year: Int32, m: string, y: string)
    requires '/' !in m && '/' !in y && y != []
    requires ParseInt(m).Some? && ParseInt(y).Some?
    ensures ApplyExpiryDate(month, year, Some(m + ['/'] + y)) == ExpiryUpdate(ParseInt(m).value, ParseInt(y).value, Pass)
  {
    SplitTwo(m, y, '/');
  }

  /** No range check: "13/2025" and "0/0" are accepted as they are. */
  lemma ExpiryDateNoRangeCheck(month: Int32, year: Int32)
    ensures ApplyExpiryDate(month, year, Some("13/2025")) == ExpiryUpdate(13, 2025, Pass)
    ensures ApplyExpiryDate(month, year, Some("0/0")) == ExpiryUpdate(0, 0, Pass)
  {
    ParseSamples();
    assert "13/2025" == "13" + ['/'] + "2025";
    ExpiryDateOfTwoParts(month, year, "13", "2025");
    assert "0/0" == "0" + ['/'] + "0";
    ExpiryDateOfTwoParts(month, year, "0", "0");
  }
}
