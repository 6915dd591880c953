/**
  The order and payment endpoints as pure state transitions: each handler maps
  the order store and a request to the next store and the response sent back.
  The signing secret, the keyed hash and the webhook body's serialisation are
  parameters; `persisted` says whether the database accepted the write on the
  paths where the server catches a failed save.
 */
module Handlers {
  import opened Basics
  import opened Orders
  import opened Signature

  /** The JSON bodies the endpoints answer with. */
  datatype Body =
    | MessageBody(message: string)
    | SavedBody(message: string, savedId: nat)
    | ErrorBody(error: string)
    | VerifyBody(verified: bool, createdId: Option<nat>, saveError: Option<string>)
    | StatusBody(status: string)

  datatype Response = Response(code: nat, body: Body)

  /** The store after the request and the response sent for it. */
  datatype Outcome = Outcome(store: Store, response: Response)

  /** Body of `POST /api/order`: every field is optional and stored as given. */
  datatype OrderRequest = OrderRequest(
    paymentId: Option<string>,
    gatewayOrderId: Option<string>,
    email: Option<string>,
    productList: Option<seq<string>>,
    totalAmount: Option<int>,
    address: Option<string>)

  /** Body of `POST /api/save-order`; `items` may be missing altogether. */
  datatype SaveRequest = SaveRequest(items: Option<seq<LineItem>>, email: Option<string>, address: Option<string>)

  /** Body of `POST /api/verify-payment`. */
  datatype VerifyRequest = VerifyRequest(
    gatewayOrderId: string,
    paymentId: string,
    signature: Option<string>,
    email: Option<string>,
    address: Option<string>,
    items: Option<seq<LineItem>>)

  /**
    A gateway webhook body: its event type and `payload.payment.entity.{id, order_id}`.
    The server uses only the payment id; the order id is read but unused, and the event type is never inspected.
   */
  datatype WebhookEvent = WebhookEvent(event: string, paymentId: string, gatewayOrderId: string)

  /** `JSON.stringify` of a webhook body. */
  type Serializer = WebhookEvent -> string

  const SaveFailed := "Failed to save order"
  const VerifiedButNotSaved := "Payment verified but order save failed"

  /**
    The order the guest and verified paths build from line items: amount and
    product list computed from the items, guest sentinels for missing contact
    details, no gateway ids and the schema's default status.
   */
  function Materialise(items: seq<LineItem>, email: Option<string>, address: Option<string>): (o: Order)
    ensures o.totalAmount == Some(Sum(items))
    ensures |o.productList| == |items|
    ensures forall i :: 0 <= i < |items| ==> o.productList[i] == Describe(items[i])
    ensures email.None? || email == Some("") ==> o.userEmail == Some(GuestEmail)
    ensures email.Some? && email.value != "" ==> o.userEmail == email
    ensures address.None? || address == Some("") ==> o.address == Some(NotProvided)
    ensures address.Some? && address.value != "" ==> o.address == address
    ensures o.paymentId.None? && o.gatewayOrderId.None?
    ensures o.status == Processing
  {
    ReduceIsSum(items, 0);
    Order(
      id := 0,
      paymentId := None,
      gatewayOrderId := None,
      userEmail := Some(OrDefault(email, GuestEmail)),
      productList := ProductList(items),
      totalAmount := Some(Reduce(items, 0)),
      address := Some(OrDefault(address, NotProvided)),
      status := Processing)
  }

  /**
    `POST /api/order`: appends one order whose fields are exactly the request's,
    with no guest defaults, an empty product list when none is sent, and status "Processing".
   */
  function PostOrder(s: Store, req: OrderRequest): (out: Outcome)
    ensures out.response == Response(200, MessageBody("Order saved successfully"))
    ensures |out.store.orders| == |s.orders| + 1
    ensures out.store.orders[..|s.orders|] == s.orders
    ensures var o := out.store.orders[|s.orders|];
      && o.paymentId == req.paymentId
      && o.gatewayOrderId == req.gatewayOrderId
      && o.userEmail == req.email
      && o.address == req.address
      && o.totalAmount == req.totalAmount
      && o.productList == (if req.productList.Some? then req.productList.value else [])
      && o.status == Processing
    ensures Valid(s) ==> Valid(out.store)
  {
    var o := Order(
      id := 0,
      paymentId := req.paymentId,
      gatewayOrderId := req.gatewayOrderId,
      userEmail := req.email,
      productList := if req.productList.Some? then req.productList.value else [],
      totalAmount := req.totalAmount,
      address := req.address,
      status := Processing);
    Outcome(Insert(s, o), Response(200, MessageBody("Order saved successfully")))
  }

  /**
    `POST /api/save-order`: a guest order built from the items, answered with
    its fresh id; a missing item list or a failed save is a 500 and leaves the store alone.
   */
  function SaveOrder(s: Store, req: SaveRequest, persisted: bool): (out: Outcome)
    ensures req.items.None? || !persisted ==>
      out == Outcome(s, Response(500, ErrorBody(SaveFailed)))
    ensures req.items.Some? && persisted ==>
      && out.response == Response(200, SavedBody("Guest order saved successfully", s.nextId))
      && |out.store.orders| == |s.orders| + 1
      && out.store.orders[..|s.orders|] == s.orders
      && out.store.orders[|s.orders|] == Materialise(req.items.value, req.email, req.address).(id := s.nextId)
    ensures Valid(s) ==> Valid(out.store)
    ensures Valid(s) && out.response.code == 200 ==>
      forall i :: 0 <= i < |s.orders| ==> s.orders[i].id != out.response.body.savedId
  {
    if req.items.None? || !persisted then
      Outcome(s, Response(500, ErrorBody(SaveFailed)))
    else
      var o := Materialise(req.items.value, req.email, req.address);
      Outcome(Insert(s, o), Response(200, SavedBody("Guest order saved successfully", s.nextId)))
  }

  /**
    `PUT /api/orders/:id/status`: 404 and no change for an unknown id;
    otherwise the order with that id takes the new status.
   */
  function UpdateStatus(s: Store, id: nat, status: string): (out: Outcome)
    ensures !Exists(s.orders, WithId(id)) ==>
      out == Outcome(s, Response(404, MessageBody("Order not found")))
    ensures Exists(s.orders, WithId(id)) ==>
      out.response == Response(200, MessageBody("Status updated"))
    ensures Exists(s.orders, WithId(id)) ==> out.store == SetStatus(s, id, status).value
    ensures Valid(s) ==> Valid(out.store)
  {
    match SetStatus(s, id, status)
    case None => Outcome(s, Response(404, MessageBody("Order not found")))
    case Some(s') => Outcome(s', Response(200, MessageBody("Status updated")))
  }

  /** On a known id of a valid store, the override changes that order's status and nothing else. */
  lemma UpdateStatusFrame(s: Store, id: nat, status: string, j: nat)
    requires Valid(s)
    requires j < |s.orders|
    ensures |UpdateStatus(s, id, status).store.orders| == |s.orders|
    ensures s.orders[j].id == id ==>
      UpdateStatus(s, id, status).store.orders[j] == s.orders[j].(status := status)
    ensures s.orders[j].id != id ==>
      UpdateStatus(s, id, status).store.orders[j] == s.orders[j]
  {
    if Exists(s.orders, WithId(id)) {
      SetStatusTouchesOnlyThatOrder(s, id, status, j);
    }
  }

  /** The message the client verification path signs. */
  function VerifyMessage(req: VerifyRequest): string {
    PaymentMessage(req.gatewayOrderId, req.paymentId)
  }

  /**
    `POST /api/verify-payment`. A signature that does not equal the digest of
    "order id|payment id" is answered `verified: false` with the store untouched.
    A matching one appends a new "Paid" order carrying both gateway ids, and
    when the items are missing or the save fails the answer is still `verified: true`.
   */
  function VerifyPayment(s: Store, hmac: Hmac, secret: string, req: VerifyRequest, persisted: bool): (out: Outcome)
    ensures !Matches(hmac, secret, VerifyMessage(req), req.signature) ==>
      out == Outcome(s, Response(200, VerifyBody(false, None, None)))
    ensures Matches(hmac, secret, VerifyMessage(req), req.signature) && (req.items.None? || !persisted) ==>
      out == Outcome(s, Response(500, VerifyBody(true, None, Some(VerifiedButNotSaved))))
    ensures Matches(hmac, secret, VerifyMessage(req), req.signature) && req.items.Some? && persisted ==>
      && out.response == Response(200, VerifyBody(true, Some(s.nextId), None))
      && |out.store.orders| == |s.orders| + 1
      && out.store.orders[..|s.orders|] == s.orders
      && out.store.orders[|s.orders|]
        == Materialise(req.items.value, req.email, req.address).(
             id := s.nextId,
             paymentId := Some(req.paymentId),
             gatewayOrderId := Some(req.gatewayOrderId),
             status := Paid)
    ensures Valid(s) ==> Valid(out.store)
  {
    if !Matches(hmac, secret, VerifyMessage(req), req.signature) then
      Outcome(s, Response(200, VerifyBody(false, None, None)))
    else if req.items.None? || !persisted then
      Outcome(s, Response(500, VerifyBody(true, None, Some(VerifiedButNotSaved))))
    else
      var o := Materialise(req.items.value, req.email, req.address).(
        paymentId := Some(req.paymentId),
        gatewayOrderId := Some(req.gatewayOrderId),
        status := Paid);
      Outcome(Insert(s, o), Response(200, VerifyBody(true, Some(s.nextId), None)))
  }

  /** A successful verification records a paid order for that payment. */
  predicate Confirms(hmac: Hmac, secret: string, req: VerifyRequest, persisted: bool) {
    Matches(hmac, secret, VerifyMessage(req), req.signature) && req.items.Some? && persisted
  }

  /**
    Verification is not idempotent: replaying a confirmed request appends a
    second paid order with the same payment id under a new id.
   */
  lemma VerifyPaymentNotIdempotent(s: Store, hmac: Hmac, secret: string, req: VerifyRequest)
    requires Valid(s)
    requires Confirms(hmac, secret, req, true)
    ensures var once := VerifyPayment(s, hmac, secret, req, true);
      var twice := VerifyPayment(once.store, hmac, secret, req, true);
      && |twice.store.orders| == |s.orders| + 2
      && twice.store.orders[|s.orders|].paymentId == Some(req.paymentId)
      && twice.store.orders[|s.orders| + 1].paymentId == Some(req.paymentId)
      && twice.store.orders[|s.orders|].status == Paid
      && twice.store.orders[|s.orders| + 1].status == Paid
      && twice.store.orders[|s.orders|].id != twice.store.orders[|s.orders| + 1].id
      && once.response != twice.response
  {
    var once := VerifyPayment(s, hmac, secret, req, true);
    assert once.store.orders[..|s.orders| + 1] == once.store.orders;
    var twice := VerifyPayment(once.store, hmac, secret, req, true);
    assert twice.store.orders[|s.orders|] == once.store.orders[|s.orders|];
  }

  /**
    `POST /webhook/razorpay`. A signature that does not equal the digest of
    the serialised body is a 400 with the store untouched. A matching one is
    always a 200 and marks the first order with the event's payment id as paid.
   */
  function Webhook(s: Store, hmac: Hmac, secret: string, serialize: Serializer, event: WebhookEvent, signature: Option<string>)
    : (out: Outcome)
    ensures !Matches(hmac, secret, serialize(event), signature) ==>
      out == Outcome(s, Response(400, StatusBody("invalid signature")))
    ensures Matches(hmac, secret, serialize(event), signature) ==>
      out.response == Response(200, StatusBody("ok"))
    ensures Matches(hmac, secret, serialize(event), signature) ==>
      out.store == MarkPaid(s, event.paymentId)
    ensures Valid(s) ==> Valid(out.store)
  {
    if Matches(hmac, secret, serialize(event), signature) then
      Outcome(MarkPaid(s, event.paymentId), Response(200, StatusBody("ok")))
    else
      Outcome(s, Response(400, StatusBody("invalid signature")))
  }

  /** Delivering the same webhook twice leaves the store as one delivery does, with the same answer. */
  lemma WebhookIdempotent(s: Store, hmac: Hmac, secret: string, serialize: Serializer, event: WebhookEvent, signature: Option<string>)
    ensures var once := Webhook(s, hmac, secret, serialize, event, signature);
      var twice := Webhook(once.store, hmac, secret, serialize, event, signature);
      twice == once
  {
    MarkPaidIdempotent(s, event.paymentId);
  }

  /**
    The webhook does not look at the event type: a correctly signed
    `payment.failed` event updates the store exactly as a `payment.captured`
    one for the same payment does, marking the first matching order "Paid".
   */
  lemma WebhookIgnoresEventType(s: Store, hmac: Hmac, secret: string, serialize: Serializer, event: WebhookEvent,
                                signature: Option<string>, k: nat)
    requires event.event == "payment.failed"
    requires Matches(hmac, secret, serialize(event), signature)
    requires IsFirst(s.orders, WithPayment(event.paymentId), k)
    ensures Webhook(s, hmac, secret, serialize, event, signature).response.code == 200
    ensures Webhook(s, hmac, secret, serialize, event, signature).store.orders[k].status == Paid
    ensures forall other: WebhookEvent, sig: Option<string> ::
      other.paymentId == event.paymentId && Matches(hmac, secret, serialize(other), sig) ==>
        Webhook(s, hmac, secret, serialize, other, sig).store == Webhook(s, hmac, secret, serialize, event, signature).store
  {
    assert WithPayment(event.paymentId)(s.orders[k]);
  }

  /**
    The webhook never moves an order backwards: each order either keeps every
    field or only changes its status to "Paid"; no order is added or removed.
   */
  lemma WebhookOnlyMarksPaid(s: Store, hmac: Hmac, secret: string, serialize: Serializer, event: WebhookEvent, signature: Option<string>, j: nat)
    requires j < |s.orders|
    ensures var out := Webhook(s, hmac, secret, serialize, event, signature);
      && |out.store.orders| == |s.orders|
      && (out.store.orders[j] == s.orders[j] || out.store.orders[j] == s.orders[j].(status := Paid))
  {
  }

  /** Neither reconciliation path takes an order out of "Paid". */
  lemma PaidNeverRegresses(s: Store, hmac: Hmac, secret: string, serialize: Serializer, event: WebhookEvent,
                           signature: Option<string>, req: VerifyRequest, persisted: bool, j: nat)
    requires j < |s.orders| && s.orders[j].status == Paid
    ensures Webhook(s, hmac, secret, serialize, event, signature).store.orders[j].status == Paid
    ensures VerifyPayment(s, hmac, secret, req, persisted).store.orders[j].status == Paid
  {
    WebhookOnlyMarksPaid(s, hmac, secret, serialize, event, signature, j);
    var out := VerifyPayment(s, hmac, secret, req, persisted);
    if Confirms(hmac, secret, req, persisted) {
      assert out.store.orders[j] == out.store.orders[..|s.orders|][j];
    }
  }

  /**
    When verification has recorded the first order for a payment, the webhook
    for that payment finds that very order, already paid, and changes nothing:
    the two paths converge on one paid record.
   */
  lemma WebhookAfterVerifyIsNoOp(s: Store, hmac: Hmac, secret: string, req: VerifyRequest, serialize: Serializer,
                                 event: WebhookEvent, signature: Option<string>)
    requires Confirms(hmac, secret, req, true)
    requires event.paymentId == req.paymentId
    requires !Exists(s.orders, WithPayment(req.paymentId))
    ensures var verified := VerifyPayment(s, hmac, secret, req, true);
      Webhook(verified.store, hmac, secret, serialize, event, signature).store == verified.store
  {
    var v := VerifyPayment(s, hmac, secret, req, true).store;
    var n := |s.orders|;
    var p := WithPayment(req.paymentId);
    assert p(v.orders[n]);
    forall j | 0 <= j < n
      ensures !p(v.orders[j])
    {
      assert v.orders[j] == v.orders[..n][j];
    }
    assert IsFirst(v.orders, p, n);
    assert v.orders[n := v.orders[n].(status := Paid)] == v.orders;
  }

  /** `amount: totalAmount * 100`: rupees to paise for the gateway's order creation. */
  function GatewayAmount(totalAmount: int): (paise: int)
    ensures paise % 100 == 0
    ensures paise / 100 == totalAmount
  {
    totalAmount * 100
  }
}
