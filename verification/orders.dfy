/**
  The order collection and the bookkeeping the handlers perform on it: the
  `Order` document with its defaults, the store that assigns fresh ids, the
  amount and product-list computation, the guest sentinels, and the two
  in-place status updates (by payment id for the webhook, by id for the
  administrative override).
 */
module Orders {
  import opened Basics
  import Numerals

  /** Default status of the `Order` schema. */
  const Processing := "Processing"
  const Paid := "Paid"

  /** Sentinels stored when a guest or verified order arrives without contact details. */
  const GuestEmail := "guest@bharatbartan.in"
  const NotProvided := "Not Provided"

  /** One line of an order request: what the client sends in `items`. */
  datatype LineItem = LineItem(title: string, price: int, quantity: int)

  /**
    An order document. `id` stands for the database-assigned `_id`; fields the
    request may omit are optional; the creation timestamp is not modelled.
   */
  datatype Order = Order(
    id: nat,
    paymentId: Option<string>,
    gatewayOrderId: Option<string>,
    userEmail: Option<string>,
    productList: seq<string>,
    totalAmount: Option<int>,
    address: Option<string>,
    status: string)

  /**
    The order collection in insertion order (assumed to be the order `findOne` scans it in),
    and the id the next inserted document receives.
   */
  datatype Store = Store(orders: seq<Order>, nextId: nat)

  /** Ids are below `nextId` and strictly increase along the collection, so they are unique. */
  predicate Valid(s: Store) {
    && (forall i :: 0 <= i < |s.orders| ==> s.orders[i].id < s.nextId)
    && (forall i, j :: 0 <= i < j < |s.orders| ==> s.orders[i].id < s.orders[j].id)
  }

  /** Saving a new document: it receives a fresh id and goes to the end of the collection. */
  function Insert(s: Store, o: Order): (r: Store)
    ensures |r.orders| == |s.orders| + 1
    ensures r.orders[..|s.orders|] == s.orders
    ensures r.orders[|s.orders|] == o.(id := s.nextId)
    ensures Valid(s) ==> Valid(r)
    ensures Valid(s) ==> forall i :: 0 <= i < |s.orders| ==> s.orders[i].id != s.nextId
  {
    Store(s.orders + [o.(id := s.nextId)], s.nextId + 1)
  }

  /**
    JavaScript `value || fallback` for a string field: absent and "" are both
    falsy. The stored value is the supplied one or the fallback, a non-empty
    supplied value always survives, and a non-empty fallback means the stored
    field is never empty.
   */
  function OrDefault(value: Option<string>, fallback: string): (r: string)
    ensures value == Some(r) || r == fallback
    ensures value.Some? && value.value != "" ==> r == value.value
    ensures fallback != "" ==> r != ""
  {
    if value.Some? && value.value != "" then value.value else fallback
  }

  function LineTotal(item: LineItem): int {
    item.price * item.quantity
  }

  /** Reference definition of an order's amount: the sum of price times quantity. */
  function Sum(items: seq<LineItem>): int {
    if |items| == 0 then 0 else LineTotal(items[0]) + Sum(items[1..])
  }

  /** `items.reduce((sum, item) => sum + item.price * item.quantity, acc)`, left to right. */
  function Reduce(items: seq<LineItem>, acc: int): int {
    if |items| == 0 then acc else Reduce(items[1..], acc + LineTotal(items[0]))
  }

  /** The amount the handlers compute is the sum of the line totals. */
  lemma {:induction false} ReduceIsSum(items: seq<LineItem>, acc: int)
    ensures Reduce(items, acc) == acc + Sum(items)
    decreases |items|
  {
    if |items| > 0 {
      ReduceIsSum(items[1..], acc + LineTotal(items[0]));
    }
  }

  /** The template `${item.title} x${item.quantity}`. */
  function Describe(item: LineItem): string {
    item.title + " x" + Numerals.IntToString(item.quantity)
  }

  /** A product description determines its title and quantity. */
  lemma DescribeRecoversItem(item: LineItem)
    ensures Describe(item)[..|item.title| + 2] == item.title + " x"
    ensures Numerals.IsIntNumeral(Describe(item)[|item.title| + 2..])
    ensures Numerals.ParseInt(Describe(item)[|item.title| + 2..]) == item.quantity
  {
    assert Describe(item)[|item.title| + 2..] == Numerals.IntToString(item.quantity);
    Numerals.IntToStringRoundTrip(item.quantity);
  }

  /** `items.map(...)`: one description per item, in order. */
  function ProductList(items: seq<LineItem>): (r: seq<string>)
    ensures |r| == |items|
    ensures forall i :: 0 <= i < |items| ==> r[i] == Describe(items[i])
  {
    if |items| == 0 then [] else [Describe(items[0])] + ProductList(items[1..])
  }

  /** The query `{ razorpayPaymentId: paymentId }`. */
  function WithPayment(paymentId: string): Order -> bool {
    (o: Order) => o.paymentId == Some(paymentId)
  }

  /** The query `findById(id)`. */
  function WithId(id: nat): Order -> bool {
    (o: Order) => o.id == id
  }

  /**
    The webhook's update: the first order carrying `paymentId` gets status
    "Paid"; with no such order nothing changes.
   */
  function MarkPaid(s: Store, paymentId: string): (r: Store)
    ensures r.nextId == s.nextId && |r.orders| == |s.orders|
    ensures !Exists(s.orders, WithPayment(paymentId)) ==> r == s
    ensures Exists(s.orders, WithPayment(paymentId)) ==>
      exists k: nat :: IsFirst(s.orders, WithPayment(paymentId), k)
        && r.orders[k] == s.orders[k].(status := Paid)
        && forall j :: 0 <= j < |s.orders| && j != k ==> r.orders[j] == s.orders[j]
  {
    match FirstIndex(s.orders, WithPayment(paymentId))
    case None => s
    case Some(k) => s.(orders := s.orders[k := s.orders[k].(status := Paid)])
  }

  /** Marking a payment as paid a second time changes nothing. */
  lemma MarkPaidIdempotent(s: Store, paymentId: string)
    ensures MarkPaid(MarkPaid(s, paymentId), paymentId) == MarkPaid(s, paymentId)
  {
    var r := MarkPaid(s, paymentId);
    var p := WithPayment(paymentId);
    forall j | 0 <= j < |s.orders|
      ensures p(s.orders[j]) == p(r.orders[j])
    {
      assert s.orders[j].paymentId == r.orders[j].paymentId;
    }
    FirstIndexDependsOnlyOnVerdicts(s.orders, r.orders, p);
    match FirstIndex(s.orders, p)
    case None =>
    case Some(k) =>
      assert r.orders[k := r.orders[k].(status := Paid)] == r.orders;
  }

  /**
    The administrative override: `None` when no order has that id, otherwise
    the order found gets the new status and nothing else changes.
   */
  function SetStatus(s: Store, id: nat, status: string): (r: Option<Store>)
    ensures r.None? <==> !Exists(s.orders, WithId(id))
    ensures r.Some? ==> r.value.nextId == s.nextId && |r.value.orders| == |s.orders|
    ensures r.Some? ==>
      exists k: nat :: IsFirst(s.orders, WithId(id), k)
        && r.value.orders[k] == s.orders[k].(status := status)
        && forall j :: 0 <= j < |s.orders| && j != k ==> r.value.orders[j] == s.orders[j]
  {
    match FirstIndex(s.orders, WithId(id))
    case None => None
    case Some(k) => Some(s.(orders := s.orders[k := s.orders[k].(status := status)]))
  }

  /**
    In a valid store ids are unique, so the override rewrites the status of
    exactly the order with that id.
   */
  lemma SetStatusTouchesOnlyThatOrder(s: Store, id: nat, status: string, j: nat)
    requires Valid(s)
    requires j < |s.orders|
    requires SetStatus(s, id, status).Some?
    ensures s.orders[j].id == id ==> SetStatus(s, id, status).value.orders[j] == s.orders[j].(status := status)
    ensures s.orders[j].id != id ==> SetStatus(s, id, status).value.orders[j] == s.orders[j]
  {
    var k: nat :| IsFirst(s.orders, WithId(id), k)
      && SetStatus(s, id, status).value.orders[k] == s.orders[k].(status := status)
      && forall i :: 0 <= i < |s.orders| && i != k ==> SetStatus(s, id, status).value.orders[i] == s.orders[i];
    assert WithId(id)(s.orders[k]);
  }
}
