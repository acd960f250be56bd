/**
 * The stand-alone payment gateway form: card number, month-and-year expiry,
 * CVV and amount, sent as JSON to the payment endpoint with the expiry
 * written as month/year-of-century, and the endpoint's message (or a fixed
 * error) shown underneath.
 */
module PaymentGateway {
  import opened Common
  import opened Text
  import PaymentServer

  /** The picked date, as the two parts the formatter reads: `getFullYear()` and `getMonth()` (0 to 11). */
  datatype ExpiryDate = ExpiryDate(year: int, month0: int)

  /** JavaScript's `%`: the remainder takes the sign of the dividend. */
  function JsRem(a: int, b: int): (r: int)
    requires b > 0
    ensures a >= 0 ==> r == a % b
    ensures -b < r < b
    ensures a < 0 ==> r == -((-a) % b)
  {
    if a >= 0 then a % b else -((-a) % b)
  }

  /** `expiry ? `${getMonth() + 1}/${getFullYear() % 100}` : ''`, neither part padded. */
  function FormatExpiry(expiry: Option<ExpiryDate>): (r: string)
    ensures expiry.None? <==> r == ""
  {
    match expiry
    case None => ""
    case Some(d) => IntToString(d.month0 + 1) + "/" + IntToString(JsRem(d.year, 100))
  }

  /** The example of a date in May 2005: the year part is "5", not "05". */
  lemma FormatExpiryExample()
    ensures FormatExpiry(Some(ExpiryDate(2005, 4))) == "5/5"
  {
    assert IntToString(5) == "5";
  }

  /** The first index of `c` in `s`, or `|s|` when there is none. */
  function IndexOf(s: string, c: char): (k: nat)
    ensures k <= |s|
    ensures forall i :: 0 <= i < k ==> s[i] != c
    ensures k < |s| ==> s[k] == c
  {
    if s == [] then 0 else if s[0] == c then 0 else 1 + IndexOf(s[1..], c)
  }

  /** Reads an expiry written as "M/Y" back into its two numbers. */
  function ParseExpiry(s: string): Option<(int, int)>
  {
    var k := IndexOf(s, '/');
    if k == |s| then None
    else match (ParseInt(s[..k]), ParseInt(s[k + 1..]))
         case (Some(m), Some(y)) => Some((m, y))
         case _ => None
  }

  lemma {:induction false} IndexOfNoSlash(a: string, b: string)
    requires forall i :: 0 <= i < |a| ==> a[i] != '/'
    ensures IndexOf(a + "/" + b, '/') == |a|
  {
    if a != [] {
      assert (a + "/" + b)[1..] == a[1..] + "/" + b;
      IndexOfNoSlash(a[1..], b);
    }
  }

  /** Reading "M/Y" splits at the first slash, which is the one after `m` when `m` has none. */
  lemma ParseExpirySplits(m: string, y: string)
    requires forall i :: 0 <= i < |m| ==> m[i] != '/'
    ensures ParseExpiry(m + "/" + y) ==
              match (ParseInt(m), ParseInt(y))
              case (Some(a), Some(b)) => Some((a, b))
              case _ => None
  {
    var s := m + "/" + y;
    IndexOfNoSlash(m, y);
    assert s[..|m|] == m;
    assert s[|m| + 1..] == y;
  }

  /** The formatted expiry gives back the month (1 to 12) and the year within its century. */
  lemma FormatExpiryRoundTrip(d: ExpiryDate)
    ensures ParseExpiry(FormatExpiry(Some(d))) == Some((d.month0 + 1, JsRem(d.year, 100)))
  {
    IntToStringNoSlash(d.month0 + 1);
    ParseExpirySplits(IntToString(d.month0 + 1), IntToString(JsRem(d.year, 100)));
    ParseIntRoundTrip(d.month0 + 1);
    ParseIntRoundTrip(JsRem(d.year, 100));
  }

  lemma IntToStringNoSlash(i: int)
    ensures forall k :: 0 <= k < |IntToString(i)| ==> IntToString(i)[k] != '/'
  {
    var s := IntToString(i);
    if i < 0 {
      assert s == "-" + NatToString(-i);
      forall k | 1 <= k < |s| ensures s[k] != '/' {
        assert s[k] == NatToString(-i)[k - 1];
      }
    } else {
      assert s == NatToString(i);
    }
  }

  /** The inputs of the form whose `name` the change handler reads. */
  datatype InputField = CardNumber | Cvv | Amount

  class GatewayForm {
    var cardNumber: string
    var expiry: Option<ExpiryDate>
    var cvv: string
    var amount: string
    var responseMessage: string

    constructor ()
      ensures cardNumber == "" && expiry == None && cvv == "" && amount == "" && responseMessage == ""
    {
      cardNumber, expiry, cvv, amount, responseMessage := "", None, "", "", "";
    }

    /** `formattedFormData`: the text fields as they are, the expiry formatted. */
    function Payload(): (b: PaymentServer.Body)
      reads this
      ensures b.cardNumber == PaymentServer.JStr(cardNumber)
      ensures b.cvv == PaymentServer.JStr(cvv) && b.amount == PaymentServer.JStr(amount)
      ensures b.expiry == PaymentServer.JStr(FormatExpiry(expiry))
    {
      PaymentServer.Body(PaymentServer.JStr(cardNumber), PaymentServer.JStr(FormatExpiry(expiry)),
                         PaymentServer.JStr(cvv), PaymentServer.JStr(amount))
    }

    /** The endpoint accepts what the form sends exactly when no field is empty and a date was picked. */
    lemma PayloadAccepted()
      ensures PaymentServer.Valid(Payload()) <==>
                cardNumber != "" && expiry.Some? && cvv != "" && amount != ""
    {
    }

    /** `handleInputChange`: only the named field changes. */
    method HandleInputChange(f: InputField, value: string)
      modifies this
      ensures f == CardNumber ==> cardNumber == value
      ensures f != CardNumber ==> cardNumber == old(cardNumber)
      ensures f == Cvv ==> cvv == value
      ensures f != Cvv ==> cvv == old(cvv)
      ensures f == Amount ==> amount == value
      ensures f != Amount ==> amount == old(amount)
      ensures expiry == old(expiry) && responseMessage == old(responseMessage)
    {
      match f
      case CardNumber => cardNumber := value;
      case Cvv => cvv := value;
      case Amount => amount := value;
    }

    /** `handleDateChange`: only the expiry changes. */
    method HandleDateChange(date: Option<ExpiryDate>)
      modifies this
      ensures expiry == date
      ensures cardNumber == old(cardNumber) && cvv == old(cvv) && amount == old(amount)
      ensures responseMessage == old(responseMessage)
    {
      expiry := date;
    }

    /**
     * `handlePayment`: post the payload; show the endpoint's message, or the
     * fixed error when the request cannot be made. The endpoint's draw and
     * clock are parameters, as is whether it can be reached.
     */
    method HandlePayment(reachable: bool, draw: real, now: nat)
      modifies this
      ensures reachable ==> responseMessage == PaymentServer.HandlePayment(old(Payload()), draw, now).message
      ensures !reachable ==> responseMessage == "Error processing payment. Please try again later."
      ensures cardNumber == old(cardNumber) && expiry == old(expiry)
      ensures cvv == old(cvv) && amount == old(amount)
    {
      if reachable {
        var response := PaymentServer.HandlePayment(Payload(), draw, now);
        responseMessage := response.message;
      } else {
        responseMessage := "Error processing payment. Please try again later.";
      }
    }
  }
}
