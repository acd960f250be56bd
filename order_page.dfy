/**
 * The orders page: the signed-in user's payment records, read from
 * `users/{uid}/payments`, flattened into a list of orders, each shown with its
 * status (defaulting to "Pending") and linking to its own detail route.
 */
module OrderPage {
  import opened Common
  import opened Text
  import PaymentForm

  /** `{orderId, ...data.paymentDetails, status: data.status, cart: data.cart}`. */
  datatype Order = Order(
    orderId: string,
    address: string, cardNumber: string, city: string, cvv: string,
    expiryDate: string, name: string, postalCode: string, state: string,
    timestamp: string, totalPrice: string,
    status: Option<string>,
    cart: seq<Item>)

  /** One order built from the record stored under key `id`. */
  function ToOrder(id: string, rec: PaymentForm.PaymentRecord): (o: Order)
    ensures o.orderId == id && o.status == rec.status && o.cart == rec.cart
  {
    var d := rec.paymentDetails;
    Order(id, d.address, d.cardNumber, d.city, d.cvv, d.expiryDate, d.name,
          d.postalCode, d.state, d.timestamp, d.totalPrice, rec.status, rec.cart)
  }

  /** The payment details an order carries, read back out of the flattened order. */
  function DetailsOf(o: Order): PaymentForm.PaymentDetails
  {
    PaymentForm.PaymentDetails(o.address, o.cardNumber, o.city, o.cvv, o.expiryDate,
                               o.name, o.postalCode, o.state, o.timestamp, o.totalPrice)
  }

  /** Flattening loses nothing: the record can be rebuilt from the order. */
  lemma ToOrderKeepsRecord(id: string, rec: PaymentForm.PaymentRecord)
    ensures DetailsOf(ToOrder(id, rec)) == rec.paymentDetails
    ensures PaymentForm.PaymentRecord(DetailsOf(ToOrder(id, rec)), ToOrder(id, rec).status,
                                      ToOrder(id, rec).cart) == rec
  {
  }

  /** `Object.entries(snapshot.val()).map(...)`, over the entries in the order they are read. */
  function Project(entries: seq<(string, PaymentForm.PaymentRecord)>): (r: seq<Order>)
    ensures |r| == |entries|
    ensures forall i :: 0 <= i < |entries| ==> r[i] == ToOrder(entries[i].0, entries[i].1)
  {
    if entries == [] then [] else [ToOrder(entries[0].0, entries[0].1)] + Project(entries[1..])
  }

  /**
   * The fetch effect: with no user nothing is fetched and the list stays as it
   * was; a failed read is not caught, so the list stays as it was too; a
   * missing payments record gives the empty list.
   */
  function FetchOrders(current: seq<Order>, user: Option<string>, readOk: bool,
                       snapshot: Option<seq<(string, PaymentForm.PaymentRecord)>>): (r: seq<Order>)
    ensures user.None? || !readOk ==> r == current
    ensures user.Some? && readOk && snapshot.None? ==> r == []
    ensures user.Some? && readOk && snapshot.Some? ==>
              |r| == |snapshot.value| &&
              forall i :: 0 <= i < |r| ==> r[i].orderId == snapshot.value[i].0
    ensures user.Some? && readOk && snapshot.Some? ==> r == Project(snapshot.value)
  {
    if user.None? || !readOk then current
    else if snapshot.None? then []
    else Project(snapshot.value)
  }

  /** `order.status || "Pending"`. */
  function StatusLabel(o: Order): (s: string)
    ensures s != ""
    ensures o.status.Some? && o.status.value != "" ==> s == o.status.value
    ensures o.status.None? || o.status == Some("") ==> s == "Pending"
  {
    if o.status.Some? && o.status.value != "" then o.status.value else "Pending"
  }

  /** `handleOrderClick`: the route of an order's detail page. */
  function OrderRoute(orderId: string): (r: string)
    ensures |r| == 7 + |orderId| && r[..7] == "/order/" && r[7..] == orderId
  {
    "/order/" + orderId
  }

  /** An order's route names it: distinct orders lead to distinct routes. */
  lemma OrderRouteInjective(a: string, b: string)
    ensures OrderRoute(a) == OrderRoute(b) <==> a == b
  {
    if OrderRoute(a) == OrderRoute(b) {
      assert a == OrderRoute(a)[7..];
      assert b == OrderRoute(b)[7..];
    }
  }

  /** The entries list the map exactly: distinct keys, each with its stored record, covering every key. */
  predicate ListsMap(entries: seq<(string, PaymentForm.PaymentRecord)>, m: map<string, PaymentForm.PaymentRecord>)
  {
    (forall i, j :: 0 <= i < j < |entries| ==> entries[i].0 != entries[j].0) &&
    (forall i :: 0 <= i < |entries| ==> entries[i].0 in m && m[entries[i].0] == entries[i].1) &&
    (forall k :: k in m ==> exists i :: 0 <= i < |entries| && entries[i].0 == k)
  }

  /** Every listed order is the projection of the record stored under its id, and every stored id is listed. */
  lemma ProjectListsEveryRecord(entries: seq<(string, PaymentForm.PaymentRecord)>,
                                m: map<string, PaymentForm.PaymentRecord>)
    requires ListsMap(entries, m)
    ensures forall o :: o in Project(entries) ==> o.orderId in m && o == ToOrder(o.orderId, m[o.orderId])
    ensures forall k :: k in m ==> ToOrder(k, m[k]) in Project(entries)
  {
    ListedOrdersAreStored(entries, m);
    StoredOrdersAreListed(entries, m);
  }

  lemma ListedOrdersAreStored(entries: seq<(string, PaymentForm.PaymentRecord)>,
                              m: map<string, PaymentForm.PaymentRecord>)
    requires forall i :: 0 <= i < |entries| ==> entries[i].0 in m && m[entries[i].0] == entries[i].1
    ensures forall o :: o in Project(entries) ==> o.orderId in m && o == ToOrder(o.orderId, m[o.orderId])
  {
  }

  lemma StoredOrdersAreListed(entries: seq<(string, PaymentForm.PaymentRecord)>,
                              m: map<string, PaymentForm.PaymentRecord>)
    requires ListsMap(entries, m)
    ensures forall k :: k in m ==> ToOrder(k, m[k]) in Project(entries)
  {
    var r := Project(entries);
    forall k | k in m ensures ToOrder(k, m[k]) in r {
      var i :| 0 <= i < |entries| && entries[i].0 == k;
      assert r[i] == ToOrder(k, m[k]);
    }
  }

  /**
   * An order placed at clock value `now` is listed after checkout under the id
   * `now`, with the cart it was placed with and the status label "Pending".
   */
  lemma PlacedOrderIsListed(entries: seq<(string, PaymentForm.PaymentRecord)>,
                            m: map<string, PaymentForm.PaymentRecord>,
                            now: nat, form: PaymentForm.Form, cart: seq<Item>, isoTime: string)
    requires ListsMap(entries, m)
    requires PaymentForm.OrderKey(now) in m && m[PaymentForm.OrderKey(now)] == PaymentForm.Snapshot(form, cart, isoTime)
    ensures exists o :: o in Project(entries) && o.orderId == PaymentForm.OrderKey(now) &&
                        o.cart == cart && StatusLabel(o) == "Pending" &&
                        ParseFixed2(o.totalPrice) == Some(PaymentForm.Total(cart))
  {
    ProjectListsEveryRecord(entries, m);
    var key := PaymentForm.OrderKey(now);
    var o := ToOrder(key, m[key]);
    assert o in Project(entries);
  }
}
