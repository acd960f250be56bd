/**
 * The checkout page: an eight-field shipping and card form, the order total,
 * and the submit handler that writes an order snapshot at
 * `users/{uid}/payments/{now}`, clears the remote cart, empties the cart
 * context and resets the form.
 */
module PaymentForm {
  import opened Common
  import opened Text
  import CartContext

  /** `cart.reduce((acc, item) => acc + item.price * (item.quantity || 1), 0)`, in paise. */
  function Total(cart: seq<Item>): int
  {
    if cart == [] then 0
    else Total(cart[..|cart| - 1]) + cart[|cart| - 1].price * ItemQty(cart[|cart| - 1])
  }

  /** The total of a cart is the sum of the totals of its parts. */
  lemma {:induction false} TotalAppend(a: seq<Item>, b: seq<Item>)
    ensures Total(a + b) == Total(a) + Total(b)
    decreases |b|
  {
    if b == [] {
      assert a + b == a;
    } else {
      var c := a + b;
      assert c[..|c| - 1] == a + b[..|b| - 1];
      TotalAppend(a, b[..|b| - 1]);
    }
  }

  /** A cart whose quantities are all missing or positive never totals below the sum of its prices. */
  lemma {:induction false} TotalAtLeastPrices(cart: seq<Item>)
    requires forall i :: 0 <= i < |cart| ==> cart[i].quantity == None || cart[i].quantity.value >= 0
    ensures Total(cart) >= PriceSum(cart) >= 0
  {
    if cart != [] {
      var last := cart[|cart| - 1];
      assert ItemQty(last) >= 1;
      assert last.price * ItemQty(last) >= last.price;
      TotalAtLeastPrices(cart[..|cart| - 1]);
    }
  }

  /** The plain sum of the prices, each item counted once. */
  function PriceSum(cart: seq<Item>): nat
  {
    if cart == [] then 0 else PriceSum(cart[..|cart| - 1]) + cart[|cart| - 1].price
  }

  /** The worked example: 100.50 twice plus 33.33 once is "234.33". */
  lemma TotalExample(a: Item, b: Item)
    requires a.price == 10050 && a.quantity == Some(2)
    requires b.price == 3333 && b.quantity == Some(1)
    ensures Fixed2(Total([a, b])) == "234.33"
  {
    assert [a, b][..1] == [a];
    assert [a][..0] == [];
    assert ItemQty(a) == 2 && ItemQty(b) == 1;
    assert Total([a]) == 20100;
    assert Total([a, b]) == 23433;
    assert NatToString(2) == "2";
    assert NatToString(23) == "23";
    assert NatToString(234) == "234";
    assert TwoDigits(33) == "33";
  }

  // ---------------------------------------------------------------- the form

  /** The `name` attributes of the form's eight inputs. */
  datatype Field = Name | Address | City | State | PostalCode | CardNumber | ExpiryDate | Cvv

  datatype Form = Form(
    name: string, address: string, city: string, state: string,
    postalCode: string, cardNumber: string, expiryDate: string, cvv: string)

  const EmptyForm := Form("", "", "", "", "", "", "", "")

  function Get(form: Form, f: Field): string
  {
    match f
    case Name => form.name
    case Address => form.address
    case City => form.city
    case State => form.state
    case PostalCode => form.postalCode
    case CardNumber => form.cardNumber
    case ExpiryDate => form.expiryDate
    case Cvv => form.cvv
  }

  /** `{...formData, [name]: value}`: the named field takes the value, every other keeps its own. */
  function Set(form: Form, f: Field, value: string): (r: Form)
    ensures Get(r, f) == value
    ensures forall g :: g != f ==> Get(r, g) == Get(form, g)
  {
    match f
    case Name => form.(name := value)
    case Address => form.(address := value)
    case City => form.(city := value)
    case State => form.(state := value)
    case PostalCode => form.(postalCode := value)
    case CardNumber => form.(cardNumber := value)
    case ExpiryDate => form.(expiryDate := value)
    case Cvv => form.(cvv := value)
  }

  lemma EmptyFormIsBlank()
    ensures forall f :: Get(EmptyForm, f) == ""
  {
    forall f ensures Get(EmptyForm, f) == "" {
      match f
      case Name =>
      case Address =>
      case City =>
      case State =>
      case PostalCode =>
      case CardNumber =>
      case ExpiryDate =>
      case Cvv =>
    }
  }

  // ------------------------------------------------------------ the order

  datatype PaymentDetails = PaymentDetails(
    address: string, cardNumber: string, city: string, cvv: string,
    expiryDate: string, name: string, postalCode: string, state: string,
    timestamp: string, totalPrice: string)

  /**
   * A record under `users/{uid}/payments/{id}`. `status` is `None` when the
   * stored object has no `status` field, which is how checkout writes it.
   */
  datatype PaymentRecord = PaymentRecord(paymentDetails: PaymentDetails, status: Option<string>, cart: seq<Item>)

  /** The object the submit handler writes. */
  function Snapshot(form: Form, cart: seq<Item>, isoTime: string): (r: PaymentRecord)
    ensures r.status == None && r.cart == cart
    ensures ParseFixed2(r.paymentDetails.totalPrice) == Some(Total(cart))
    ensures r.paymentDetails.timestamp == isoTime
    ensures r.paymentDetails.name == Get(form, Name) && r.paymentDetails.address == Get(form, Address)
    ensures r.paymentDetails.city == Get(form, City) && r.paymentDetails.state == Get(form, State)
    ensures r.paymentDetails.postalCode == Get(form, PostalCode)
    ensures r.paymentDetails.cardNumber == Get(form, CardNumber)
    ensures r.paymentDetails.expiryDate == Get(form, ExpiryDate) && r.paymentDetails.cvv == Get(form, Cvv)
  {
    Fixed2RoundTrip(Total(cart));
    PaymentRecord(
      PaymentDetails(form.address, form.cardNumber, form.city, form.cvv, form.expiryDate,
                     form.name, form.postalCode, form.state, isoTime, Fixed2(Total(cart))),
      None, cart)
  }

  /** The key of an order placed at clock value `now`: `${Date.now()}`. */
  function OrderKey(now: nat): (k: string)
    ensures |k| >= 1 && AllDigits(k) && DigitsValue(k) == now
  {
    NatToStringRoundTrip(now);
    NatToString(now)
  }

  /** Two orders get the same key exactly when they were placed at the same clock value. */
  lemma OrderKeyCollides(a: nat, b: nat)
    ensures OrderKey(a) == OrderKey(b) <==> a == b
  {
    NatToStringInjective(a, b);
  }

  datatype Outcome = NotLoggedIn | EmptyCart | PaymentFailed | Paid(orderId: string)

  class PaymentPage {
    /** The cart context the page reads and empties. */
    const carts: CartContext.CartStore
    var form: Form
    var modalOpen: bool
    /** The `users/{uid}/payments` subtrees of the remote store. */
    var payments: map<string, map<string, PaymentRecord>>

    constructor (carts: CartContext.CartStore, remote: map<string, map<string, PaymentRecord>>)
      ensures this.carts == carts && form == EmptyForm && !modalOpen && payments == remote
    {
      this.carts := carts;
      form, modalOpen, payments := EmptyForm, false, remote;
    }

    /** What a read of `users/{uid}/payments` yields. */
    function PaymentsOf(uid: string): map<string, PaymentRecord>
      reads this
    {
      if uid in payments then payments[uid] else map[]
    }

    /** The total shown in the order summary and on the pay button. */
    function DisplayTotal(): (r: string)
      reads this, carts
      ensures ParseFixed2(r) == Some(Total(carts.cart))
    {
      Fixed2RoundTrip(Total(carts.cart));
      Fixed2(Total(carts.cart))
    }

    /** `handleChange`: only the named field changes. */
    method HandleChange(f: Field, value: string)
      modifies this
      ensures form == Set(old(form), f, value)
      ensures modalOpen == old(modalOpen) && payments == old(payments)
    {
      form := Set(form, f, value);
    }

    /**
     * `handleSubmit`. Guards: a signed-in user and a non-empty cart. Then the
     * snapshot write; then the write of `[]` to `carts/{uid}`; a failure of either
     * ends in the payment-failed alert with nothing after it done. On success the
     * cart context is emptied, the confirmation modal opens and the form resets.
     */
    method Submit(now: nat, isoTime: string, snapshotOk: bool, clearOk: bool, emptyOk: bool)
      returns (outcome: Outcome)
      modifies this, carts
      ensures carts.user == old(carts.user)
      ensures old(carts.user).None? ==> outcome == NotLoggedIn && unchanged(this, carts)
      ensures old(carts.user).Some? && old(carts.cart) == [] ==> outcome == EmptyCart && unchanged(this, carts)
      ensures old(carts.user).Some? && old(carts.cart) != [] && !snapshotOk ==>
                outcome == PaymentFailed && unchanged(this, carts)
      ensures old(carts.user).Some? && old(carts.cart) != [] && snapshotOk ==>
                var uid := old(carts.user).value;
                payments == old(payments)[uid := old(PaymentsOf(uid))[OrderKey(now) :=
                                          Snapshot(old(form), old(carts.cart), isoTime)]]
      ensures old(carts.user).Some? && old(carts.cart) != [] && snapshotOk && !clearOk ==>
                outcome == PaymentFailed && unchanged(carts) &&
                form == old(form) && modalOpen == old(modalOpen)
      ensures old(carts.user).Some? && old(carts.cart) != [] && snapshotOk && clearOk ==>
                var uid := old(carts.user).value;
                outcome == Paid(OrderKey(now)) &&
                carts.cart == [] && carts.store == old(carts.store)[uid := []] &&
                form == EmptyForm && modalOpen
    {
      if carts.user.None? {
        return NotLoggedIn;
      }
      var uid := carts.user.value;
      if |carts.cart| == 0 {
        return EmptyCart;
      }
      if !snapshotOk {
        return PaymentFailed;
      }
      var key := OrderKey(now);
      RecordPayment(uid, key, Snapshot(form, carts.cart, isoTime));
      if !clearOk {
        return PaymentFailed;
      }
      ClearAndReset(uid, emptyOk);
      outcome := Paid(key);
    }

    /** The snapshot write to `users/{uid}/payments/{key}`. */
    method RecordPayment(uid: string, key: string, record: PaymentRecord)
      modifies this
      ensures payments == old(payments)[uid := old(PaymentsOf(uid))[key := record]]
      ensures form == old(form) && modalOpen == old(modalOpen)
    {
      payments := payments[uid := PaymentsOf(uid)[key := record]];
    }

    /** After the order is stored: `[]` at `carts/{uid}`, the cart context emptied, the modal open, the form reset. */
    method ClearAndReset(uid: string, emptyOk: bool)
      requires carts.user == Some(uid)
      modifies this, carts
      ensures carts.user == old(carts.user) && carts.cart == [] && carts.store == old(carts.store)[uid := []]
      ensures payments == old(payments) && form == EmptyForm && modalOpen
    {
      carts.store := carts.store[uid := []];
      carts.Empty(emptyOk);
      modalOpen := true;
      form := EmptyForm;
    }
  }
}
