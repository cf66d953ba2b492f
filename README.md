# Payment gateway core, modelled in Dafny

This project models the core of a card-payment gateway. A merchant posts a
payment request (card number, expiry date, currency, amount, CVV). The
service checks it against a fixed chain of validation rules, forwards it to
an acquiring bank, builds a payment record from the bank's answer, stores
the record under a fresh id, and later returns it by id. Two Java classes
are modelled:

- `PaymentGatewayService` (module `PaymentGateway`). `validatePaymentRequest` is a pure function
  returning `Pass` or the first failed rule's `Reason`. `callAcquiringBank` and
  `getLastFourDigits` are pure functions. `processPayment` and `getPaymentById` are members
  of a class that holds the payment store as a `map`. `processPayment` is proved against the
  specification function `PaymentOutcome`.
- `PostPaymentRequest` (module `PaymentModel`) is a class with the six
  mutable fields and their setters. The `expiry_date` property is a
  formatter (`"%d/%d"`) and a parser. The parser assigns the month before it
  parses the year, so a failure can leave a partial update.
  `SetExpiryDate` is proved against the function `ApplyExpiryDate`.

Module `JavaLang` spells out the Java library behaviour the code depends on:
- the 32-bit `int`;
- `String.valueOf(int)` / `%d`;
- `Integer.parseInt`, which takes an optional sign and requires the `int` range;
- `String.split("/")`, which drops trailing empty strings;
- `matches("\\d+")`;
- `toUpperCase`.

`ValidationProperties` and `ProcessingProperties` hold the lemmas.

Inputs replace the environment:
- the wall clock becomes `currentYear` and `currentMonth`;
- the bank's HTTP endpoint becomes a `BankReply` (a decoded reply, an empty body, or a transport exception);
- `UUID.randomUUID()` becomes a fresh id supplied by the caller.

A ghost log `bankCalls` records each body posted to the bank, so the
contracts can say when the bank is called.

Some behaviour of the code differs from what a reader might expect. The model follows the code:
- The bank receives the request object itself. A zero-padded `MM/YYYY` expiry text and a CVV
  string might be expected. The code sends `getExpiryDate()`, i.e. `"%d/%d"` without zero padding
  (month 1 gives `"1/2026"`), and the CVV as a number.
- A bank reply with an empty body makes `postForObject` return null. `isAuthorized()` then
  throws a NullPointerException outside the try block (PaymentGatewayService.java line 52), so this is
  not the "failed to process payment with bank" refusal. The model keeps it apart as
  `NullBankResponse`. Nothing is stored.
- The stored currency is the request's text as given (`"usd"` stays `"usd"`). Only the
  allow-list comparison upper-cases it.
- `cardNumberLastFour` is the four-character string the service computes. Leading zeros are kept.

## Model

| member | source | states |
|---|---|---|
| `PaymentGateway.ValidatePaymentRequest` | src/main/java/com/checkout/payment/gateway/service/PaymentGatewayService.java:67-128 | the twelve guards in source order, the clock as inputs; a refusal is always a validation reason (never the bank or id message); a pass guarantees a present 14–19 character card number, a present 3-character currency, a month in 1..12 and a positive amount. The exact accepted set is `ValidateAcceptsExactly`, the order of refusals `ValidationReportsFirstBrokenRule` |
| `ValidationProperties.ValidateAcceptsExactly` | src/main/java/com/checkout/payment/gateway/service/PaymentGatewayService.java:67-128 | the validator passes a request iff it lies in the order-free acceptable set: 14–19 ASCII digits, month 1..12, (year, month) not before now, 3-char currency whose capitals are GBP/EUR/USD, amount > 0, 100 <= cvv <= 9999 |
| `ValidationProperties.FirstBroken` | src/main/java/com/checkout/payment/gateway/service/PaymentGatewayService.java:67-128 | gives the position of the first broken rule: every earlier rule holds, and the rule at that position (if any) is broken |
| `ValidationProperties.ValidationReportsFirstBrokenRule` | src/main/java/com/checkout/payment/gateway/service/PaymentGatewayService.java:67-128 | fail fast: the validator refuses with the first rule of the fixed order that the request breaks, and passes when none is broken |
| `ValidationProperties.CardNumberRules` | src/main/java/com/checkout/payment/gateway/service/PaymentGatewayService.java:69-79 | null/empty gives "required"; a length outside 14..19 gives the length message; a non-digit gives the numeric message; a passing request has 14–19 digits |
| `ValidationProperties.ExpiryMonthCheckedFirst` | src/main/java/com/checkout/payment/gateway/service/PaymentGatewayService.java:82-84 | a month outside 1..12 is refused with the month message for every value of the clock |
| `ValidationProperties.ExpiryDateRule` | src/main/java/com/checkout/payment/gateway/service/PaymentGatewayService.java:87-97 | the date is refused iff year < current year, or same year and month < current month; the two cases give their own messages, and the current month is accepted |
| `ValidationProperties.CurrencyRule` | src/main/java/com/checkout/payment/gateway/service/PaymentGatewayService.java:100-112 | a currency-rule refusal happens iff the currency is not (non-null, 3 chars, upper-cased form in {GBP, EUR, USD}) |
| `ValidationProperties.CurrencyIgnoresCase` | src/main/java/com/checkout/payment/gateway/service/PaymentGatewayService.java:109-110 | any 3-char spelling of an allowed code in mixed ASCII case passes |
| `ValidationProperties.CurrencySamples` | src/main/java/com/checkout/payment/gateway/service/PaymentGatewayService.java:109-110 | "usd" passes, "JPY" fails |
| `ValidationProperties.AmountAndCvvRules` | src/main/java/com/checkout/payment/gateway/service/PaymentGatewayService.java:115-127 | amount <= 0 is refused; with a positive amount the request passes iff 100 <= cvv <= 9999 |
| `ValidationProperties.CvvSamples` | src/main/java/com/checkout/payment/gateway/service/PaymentGatewayService.java:120-126 | cvv 12 renders with 2 characters (length refusal); -12 has 3 characters but is not all digits |
| `JavaLang.MatchesDigits` | src/main/java/com/checkout/payment/gateway/service/PaymentGatewayService.java:77 | `matches("\\d+")`: a match is non-empty and starts and ends with an ASCII digit; with all characters digits it is the card-number and CVV test |
| `JavaLang.MatchesDigitsOfRendering` | src/main/java/com/checkout/payment/gateway/service/PaymentGatewayService.java:125 | `String.valueOf(cvv).matches("\\d+")` holds exactly when cvv >= 0 |
| `JavaLang.ThreeOrFourDigits` | src/main/java/com/checkout/payment/gateway/service/PaymentGatewayService.java:120-127 | `String.valueOf(cvv)` has 3–4 characters, all digits, iff 100 <= cvv <= 9999 |
| `PaymentGateway.Message` | src/main/java/com/checkout/payment/gateway/service/PaymentGatewayService.java:37-142 | the `EventProcessingException` text of each refusal, never empty; `MessagesDistinct` shows that different reasons have different texts |
| `ValidationProperties.MessagesDistinct` | src/main/java/com/checkout/payment/gateway/service/PaymentGatewayService.java:69-127 | two different reasons never share a message, so a client can tell every refusal apart by its text |
| `JavaLang.ToUpperCase` | src/main/java/com/checkout/payment/gateway/service/PaymentGatewayService.java:110 | upper-casing keeps the length and maps each character by the ASCII rule |
| `PaymentGateway.GetLastFourDigits` | src/main/java/com/checkout/payment/gateway/service/PaymentGatewayService.java:146-151 | "" for null or fewer than 4 characters; otherwise 4 characters that end the card number |
| `PaymentGateway.CallAcquiringBank` | src/main/java/com/checkout/payment/gateway/service/PaymentGatewayService.java:130-144 | every transport exception becomes the "Failed to process payment with bank" refusal; a decoded reply is passed on; an empty body is passed on as null |
| `PaymentGateway.BankRequestBodyOf` | src/main/java/com/checkout/payment/gateway/service/PaymentGatewayService.java:134-135 | the posted body carries the card number, currency, amount and CVV unchanged, and its expiry text parses back to the request's month and year |
| `PaymentGateway.Lookup` | src/main/java/com/checkout/payment/gateway/service/PaymentGatewayService.java:37 | finds a record iff the id is stored, returning that record; otherwise "Invalid ID" |
| `PaymentGateway.BuildRecord` | src/main/java/com/checkout/payment/gateway/service/PaymentGatewayService.java:50-57 | the record has the given id, status AUTHORIZED iff the bank authorized, the request's month, year, currency and amount, and for a card of at least 4 characters the 4 characters that end it |
| `PaymentGateway.PaymentOutcome` | src/main/java/com/checkout/payment/gateway/service/PaymentGatewayService.java:40-65 | what `processPayment` returns or throws: a record only after validation passed and the bank answered with a body, carrying the fresh id; a refusal is never "Invalid ID". `OutcomeFollowsBank`, `RefusalCarriesReason`, `BankFailureRefuses` and `RecordCopiesRequest` state each path |
| `PaymentGateway.Add` | src/main/java/com/checkout/payment/gateway/service/PaymentGatewayService.java:60 | after an insert the ids are the old ids plus the record's id, the record's id finds the record, and every other id keeps its old record |
| `PaymentGateway.PaymentGatewayService.constructor` | src/main/java/com/checkout/payment/gateway/service/PaymentGatewayService.java:30-33 | the service starts with an empty store and no bank calls |
| `PaymentGateway.PaymentGatewayService.GetPaymentById` | src/main/java/com/checkout/payment/gateway/service/PaymentGatewayService.java:35-38 | returns the stored record, whose id is the one asked for, iff the id is present; otherwise fails with "Invalid ID" |
| `PaymentGateway.PaymentGatewayService.ProcessPayment` | src/main/java/com/checkout/payment/gateway/service/PaymentGatewayService.java:40-65 | the result is `PaymentOutcome`; the store gains exactly that record under its id on success and is unchanged otherwise; the bank is called once, with the request's body, iff validation passes |
| `ProcessingProperties.OutcomeFollowsBank` | src/main/java/com/checkout/payment/gateway/service/PaymentGatewayService.java:44-57 | a record is returned iff the request is acceptable and the bank answered; status AUTHORIZED iff authorized, DECLINED iff not, and both are successes |
| `ProcessingProperties.RefusalCarriesReason` | src/main/java/com/checkout/payment/gateway/service/PaymentGatewayService.java:44 | a failed validation ends with that reason whatever the bank would say |
| `ProcessingProperties.BankFailureRefuses` | src/main/java/com/checkout/payment/gateway/service/PaymentGatewayService.java:47-52 | after a valid request, a transport failure is the bank refusal and an empty body is the null-pointer failure |
| `ProcessingProperties.RecordCopiesRequest` | src/main/java/com/checkout/payment/gateway/service/PaymentGatewayService.java:50-57 | the record has the fresh id, the request's month, year, currency and amount unchanged, and the last four card characters, which are digits |
| `ProcessingProperties.LastFourOfValidCard` | src/main/java/com/checkout/payment/gateway/service/PaymentGatewayService.java:146-151 | for a validated card number the last four has length 4, is all digits and ends the number |
| `ProcessingProperties.LookupAfterAdd` | src/main/java/com/checkout/payment/gateway/service/PaymentGatewayService.java:35-38 | after storing a record, its id finds it and every other id finds what it found before |
| `ProcessingProperties.AddKeepsKeyedById` | src/main/java/com/checkout/payment/gateway/service/PaymentGatewayService.java:60 | inserting keeps every record under its own id |
| `ProcessingProperties.ProcessThenFetchTwice` | src/main/java/com/checkout/payment/gateway/service/PaymentGatewayService.java:35-65 | fetching the new id twice after processing gives the returned record both times on success, and "Invalid ID" both times on failure |
| `ProcessingProperties.AuthorizedScenario` | src/test/java/com/checkout/payment/gateway/controller/PaymentGatewayControllerTest.java:72-96 | card 4111111111111111, 12/2099, USD, 1050, cvv 123, authorized: an AUTHORIZED record ending in "1111" with USD and 1050 |
| `ProcessingProperties.ShortCardScenario` | src/test/java/com/checkout/payment/gateway/controller/PaymentGatewayControllerTest.java:98-117 | card "4111" is refused for its length |
| `ProcessingProperties.JpyScenario` | src/test/java/com/checkout/payment/gateway/controller/PaymentGatewayControllerTest.java:119-138 | currency JPY is refused as not allowed |
| `ProcessingProperties.ExpiredScenario` | src/test/java/com/checkout/payment/gateway/controller/PaymentGatewayControllerTest.java:140-159 | expiry 01/2020 is refused once the current year is after 2020 |
| `ProcessingProperties.ShortCvvScenario` | src/test/java/com/checkout/payment/gateway/controller/PaymentGatewayControllerTest.java:161-180 | cvv 12 is refused for its length |
| `PaymentModel.PostPaymentRequest.constructor` | src/main/java/com/checkout/payment/gateway/model/PostPaymentRequest.java:7-20 | a new request has every int 0 and every string null |
| `PaymentModel.PostPaymentRequest.SetCardNumber` | src/main/java/com/checkout/payment/gateway/model/PostPaymentRequest.java:24 | changes the card number and no other field |
| `PaymentModel.PostPaymentRequest.SetExpiryMonth` | src/main/java/com/checkout/payment/gateway/model/PostPaymentRequest.java:30-32 | changes the expiry month and no other field |
| `PaymentModel.PostPaymentRequest.SetExpiryYear` | src/main/java/com/checkout/payment/gateway/model/PostPaymentRequest.java:38-40 | changes the expiry year and no other field |
| `PaymentModel.PostPaymentRequest.SetCurrency` | src/main/java/com/checkout/payment/gateway/model/PostPaymentRequest.java:46-48 | changes the currency and no other field |
| `PaymentModel.PostPaymentRequest.SetAmount` | src/main/java/com/checkout/payment/gateway/model/PostPaymentRequest.java:54-56 | changes the amount and no other field |
| `PaymentModel.PostPaymentRequest.SetCvv` | src/main/java/com/checkout/payment/gateway/model/PostPaymentRequest.java:62-64 | changes the CVV and no other field |
| `PaymentModel.PostPaymentRequest.GetExpiryDate` | src/main/java/com/checkout/payment/gateway/model/PostPaymentRequest.java:66-69 | feeding the rendered text back to `setExpiryDate` restores both fields, whatever they held |
| `PaymentModel.PostPaymentRequest.SetExpiryDate` | src/main/java/com/checkout/payment/gateway/model/PostPaymentRequest.java:71-87 | month, year and the thrown error are what `ApplyExpiryDate` gives for the old fields; the other fields are unchanged |
| `PaymentModel.ApplyExpiryDate` | src/main/java/com/checkout/payment/gateway/model/PostPaymentRequest.java:71-87 | the effect of `setExpiryDate` on (month, year) and what it throws: the year changes only when the call succeeds, and a wrong part count changes neither field. The cases are `ExpiryDateAbsentIgnored`, `ExpiryDateAccepted`, `ExpiryDateWrongPartCount` and `ExpiryDatePartialUpdate`, the inverse `ExpiryDateRoundTrip` |
| `PaymentModel.ExpiryDateErrorMessage` | src/main/java/com/checkout/payment/gateway/model/PostPaymentRequest.java:79-85 | the `IllegalArgumentException` text of each `setExpiryDate` failure, never empty; `ExpiryDateMessagesDistinct` shows the two differ |
| `PaymentModel.ExpiryDateMessagesDistinct` | src/main/java/com/checkout/payment/gateway/model/PostPaymentRequest.java:80-84 | "Invalid expiry date format" and "Invalid expiry date format. Expected MM/YYYY" are different texts |
| `PaymentModel.ExpiryDateOfTwoParts` | src/main/java/com/checkout/payment/gateway/model/PostPaymentRequest.java:74-78 | any `m/y` with slash-free parts, `y` non-empty, both parsing as int, sets the month to `m`'s value and the year to `y`'s and throws nothing |
| `PaymentModel.FormatExpiryDate` | src/main/java/com/checkout/payment/gateway/model/PostPaymentRequest.java:68 | the rendered `"%d/%d"` text splits on '/' into exactly the month's and the year's decimal renderings |
| `PaymentModel.ExpiryDateRoundTrip` | src/main/java/com/checkout/payment/gateway/model/PostPaymentRequest.java:66-78 | `setExpiryDate(getExpiryDate())` yields the same month and year, with no error, for any int values |
| `PaymentModel.ExpiryDateAbsentIgnored` | src/main/java/com/checkout/payment/gateway/model/PostPaymentRequest.java:73 | null and "" leave both fields unchanged and throw nothing |
| `PaymentModel.ExpiryDateAccepted` | src/main/java/com/checkout/payment/gateway/model/PostPaymentRequest.java:74-78 | a non-empty text passes iff it splits into two parts that both parse as int; month and year are then those values |
| `PaymentModel.ExpiryDateWrongPartCount` | src/main/java/com/checkout/payment/gateway/model/PostPaymentRequest.java:74-85 | any other number of parts throws "Expected MM/YYYY" with both fields unchanged |
| `PaymentModel.ExpiryDatePartialUpdate` | src/main/java/com/checkout/payment/gateway/model/PostPaymentRequest.java:76-81 | if the first part fails, nothing changes; if only the second part fails, the month is overwritten and the year is kept |
| `PaymentModel.FormatExpiryDateUnpadded` | src/main/java/com/checkout/payment/gateway/model/PostPaymentRequest.java:68 | month 1, year 2026 render as "1/2026" |
| `PaymentModel.ExpiryDateTrailingSlash` | src/main/java/com/checkout/payment/gateway/model/PostPaymentRequest.java:74-75 | "12/" is one part and fails; "12/2025/" is two parts and sets 12 and 2025 |
| `PaymentModel.ExpiryDateNoRangeCheck` | src/main/java/com/checkout/payment/gateway/model/PostPaymentRequest.java:77-78 | "13/2025" and "0/0" are accepted as they are |
| `JavaLang.ParseInt` | src/main/java/com/checkout/payment/gateway/model/PostPaymentRequest.java:77-78 | `Integer.parseInt` in radix 10: a plain digit string in int range parses to its decimal value; a result comes only from a non-empty text, and a negative one only from a text starting with '-'. Its inverse is `ParseIntOfRendering` |
| `JavaLang.IntToString` | src/main/java/com/checkout/payment/gateway/service/PaymentGatewayService.java:120 | `String.valueOf(int)`: non-empty, digits only except a leading '-', which appears iff the value is negative. `ParseIntOfRendering` and `ThreeOrFourDigits` relate it to the value |
| `JavaLang.JavaSplit` | src/main/java/com/checkout/payment/gateway/model/PostPaymentRequest.java:74 | `split("/")`: no part contains the separator; the parts are the pieces between separators without the trailing empty ones (`JoinPieces`, `DropTrailingEmpty`), and `SplitTwo` splits a joined pair back apart |
| `JavaLang.ParseIntOfRendering` | src/main/java/com/checkout/payment/gateway/model/PostPaymentRequest.java:68-78 | `Integer.parseInt(String.valueOf(n)) == n` for every int n |
| `JavaLang.ParseIntRejects` | src/main/java/com/checkout/payment/gateway/model/PostPaymentRequest.java:77-81 | `parseInt` refuses "", a lone sign and any text containing '/'; every result is in int range |
| `JavaLang.PiecesCons` | src/main/java/com/checkout/payment/gateway/model/PostPaymentRequest.java:74 | the text before the first separator is the first piece, and the rest is split on its own |
| `JavaLang.SplitTwo` | src/main/java/com/checkout/payment/gateway/model/PostPaymentRequest.java:74 | two slash-free strings, the second non-empty, joined by '/' split back into exactly those two |
| `JavaLang.JoinPieces` | src/main/java/com/checkout/payment/gateway/model/PostPaymentRequest.java:74 | joining the pieces between separators gives back the original string |
| `JavaLang.DropTrailingEmpty` | src/main/java/com/checkout/payment/gateway/model/PostPaymentRequest.java:74 | the result is a prefix of the pieces, does not end with an empty string, and only empty strings were dropped |

## Left out

- The HTTP call and the bank URL setting (PaymentGatewayService.java lines 27-28, 134-135) are network I/O. The bank is the `BankReply` input. The body posted is recorded at field level; the JSON text is not modelled.
- `Year.now()` and `YearMonth.now()` are the wall clock, so they are inputs. They are two independent parameters, as the code reads them separately, so near a year boundary they may come from different instants.
- `UUID.randomUUID()` is not modelled. The id is an input (`Uuid` is a `nat`). How unique random UUIDs are in probability is out of scope.
- PaymentGateway.PaymentGatewayService.ProcessPayment: requires the fresh id not to be in the store yet. This stands for UUID uniqueness. What the repository does with a duplicate id is not modelled.
- `PaymentsRepository` and `PostPaymentResponse` are not part of this model. The store is a `map` from id to record. The record is a datatype built in one expression, not through setters; nothing can observe the intermediate states in between.
- The Java service receives its `PaymentsRepository` from outside (PaymentGatewayService.java lines 30-33), and other code can share it; the controller test adds a payment to it directly. In the model the repository is the service's own `map`, which starts empty. `ProcessPayment` and `GetPaymentById` are specified for any store that keeps every record under its own id, so this does not limit what they state.
- The `PostPaymentResponse` that is stored (PaymentGatewayService.java line 60) and the one returned (line 64) are the same mutable Java object. The model makes the record an immutable value, so this aliasing is not modelled. No code in the core changes the object once it is stored, so no stated property depends on it.
- Logging (SLF4J) is left out. `EventProcessingException` is left out except for its message, which is the `Reason` value and `Message`.
- `PaymentGatewayController` is left out. It only maps a refusal to HTTP 400 and a success to 200, which the `Result` values already separate. Thread safety of the shared store is left out too, because the model is sequential.
- Getters are plain field reads of the class. `toString`, the Jackson annotations and the unused `authorization_code` are not modelled (the code is carried in `BankResponse` but never read).
- Digits are ASCII only. Java's `Integer.parseInt` also accepts other Unicode decimal digits, so for example Arabic-Indic digits in the expiry text would be accepted by Java and refused by the model. `%d` is assumed to use a locale with ASCII digits.
- `toUpperCase` is modelled for ASCII letters only. Java also maps 'ſ' (U+017F) to 'S', so Java would accept the currency "uſd" and the model refuses it.
- String lengths count Unicode characters, while Java counts UTF-16 code units. The two differ only for characters outside the Basic Multilingual Plane, which are never digits or letters of an allowed code. So only the refusal message can differ, never whether the request is accepted.
- The tests set `cardNumberLastFour` as an int. The model keeps the string that the service computes.
- The tests' "12/2025" expiry depends on the clock, so it is not restated. The scenarios choose expiry 2099 and put the corresponding condition on the clock.
