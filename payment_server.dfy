/**
 * The dummy payment endpoint `POST /api/payment`: a required-field check on
 * the JSON body, then a simulated outcome that succeeds when the random draw
 * exceeds 0.2, with a transaction id made from the clock.
 */
module PaymentServer {
  import opened Common
  import opened Text

  /** A JSON value as the handler sees it once parsed; `JUndefined` is a missing key. */
  datatype Json = JUndefined | JNull | JBool(b: bool) | JNum(x: real) | JNaN | JStr(s: string) | JComposite

  /** JavaScript falsiness: undefined, null, false, 0, NaN and the empty string. */
  predicate Falsy(v: Json)
  {
    match v
    case JUndefined => true
    case JNull => true
    case JBool(b) => !b
    case JNum(x) => x == 0.0
    case JNaN => true
    case JStr(s) => s == ""
    case JComposite => false
  }

  /** The four fields the handler destructures from `req.body`. */
  datatype Body = Body(cardNumber: Json, expiry: Json, cvv: Json, amount: Json)

  datatype Response = Response(status: nat, success: bool, message: string, transactionId: Option<string>)

  const InvalidDetails := "Invalid payment details"
  const Succeeded := "Payment Successful!"
  const Failed := "Payment Failed! Please try again."

  /** The guard `!cardNumber || !expiry || !cvv || !amount` does not fire. */
  predicate Valid(body: Body)
  {
    !Falsy(body.cardNumber) && !Falsy(body.expiry) && !Falsy(body.cvv) && !Falsy(body.amount)
  }

  /** `TXN${Date.now()}`. */
  function TransactionId(now: nat): (r: string)
    ensures |r| > 3 && r[..3] == "TXN" && r[3..] == NatToString(now)
  {
    "TXN" + NatToString(now)
  }

  /** The handler, given the draw of `Math.random()` and the value of `Date.now()`. */
  function HandlePayment(body: Body, draw: real, now: nat): (r: Response)
  {
    if !Valid(body) then Response(400, false, InvalidDetails, None)
    else if draw > 0.2 then Response(200, true, Succeeded, Some(TransactionId(now)))
    else Response(200, false, Failed, None)
  }

  /** A body that fails the check gets 400 and `success: false`, whatever the draw and the clock. */
  lemma InvalidBodyRejected(body: Body, draw: real, now: nat, draw': real, now': nat)
    requires !Valid(body)
    ensures HandlePayment(body, draw, now).status == 400
    ensures !HandlePayment(body, draw, now).success
    ensures HandlePayment(body, draw, now).transactionId.None?
    ensures HandlePayment(body, draw, now) == HandlePayment(body, draw', now')
  {
  }

  /** For a valid body, the answer is 200, and it is a success exactly when the draw exceeds 0.2. */
  lemma ValidBodyOutcome(body: Body, draw: real, now: nat)
    requires Valid(body)
    ensures HandlePayment(body, draw, now).status == 200
    ensures HandlePayment(body, draw, now).success <==> draw > 0.2
  {
  }

  /**
   * A success carries the transaction id of the clock value; every other
   * answer carries none. The id gives the clock value back.
   */
  lemma TransactionIdOnSuccessOnly(body: Body, draw: real, now: nat)
    ensures HandlePayment(body, draw, now).success <==> HandlePayment(body, draw, now).transactionId.Some?
    ensures HandlePayment(body, draw, now).success ==>
              var id := HandlePayment(body, draw, now).transactionId.value;
              |id| > 3 && id[..3] == "TXN" && AllDigits(id[3..]) && DigitsValue(id[3..]) == now
  {
    if HandlePayment(body, draw, now).success {
      var id := TransactionId(now);
      assert id[3..] == NatToString(now);
      NatToStringRoundTrip(now);
    }
  }

  /** Two successes at different clock values carry different transaction ids. */
  lemma TransactionIdsDiffer(now: nat, now': nat)
    requires now != now'
    ensures TransactionId(now) != TransactionId(now')
  {
    assert TransactionId(now)[3..] == NatToString(now);
    assert TransactionId(now')[3..] == NatToString(now');
    NatToStringInjective(now, now');
  }

  /** A numeric amount of 0 is rejected; the string "0" is truthy and passes the check. */
  lemma ZeroAmount(card: Json, expiry: Json, cvv: Json)
    requires !Falsy(card) && !Falsy(expiry) && !Falsy(cvv)
    ensures !Valid(Body(card, expiry, cvv, JNum(0.0)))
    ensures Valid(Body(card, expiry, cvv, JStr("0")))
  {
  }
}
