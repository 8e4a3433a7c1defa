/** The eSewa payment endpoints: initiating a payment for one of the
    customer's orders, and the gateway's callback that marks the order paid
    or cancelled. */
module EsewaApi {
  import opened Wrappers
  import opened Text
  import opened Market
  import opened Esewa

  const DEFAULT_FRONTEND_URL := "http://localhost:3001"
  const MAX_PRODUCT_NAME := 255
  const GENERIC_NAME := "Product"

  /** The items of one order, in table order. */
  function ItemsOf(items: seq<OrderItem>, orderId: string): (r: seq<OrderItem>)
    ensures |r| <= |items|
    ensures forall k | 0 <= k < |r| :: r[k].orderId == orderId && r[k] in items
    ensures forall it | it in items && it.orderId == orderId :: it in r
  {
    if items == [] then []
    else (if items[0].orderId == orderId then [items[0]] else []) + ItemsOf(items[1..], orderId)
  }

  /** `title ?? name ?? null` over a snapshot: the first of the two that
      is present and not null. */
  function SnapshotName(snap: map<string, Value>): (v: Value)
    ensures v != Null ==> (("title" in snap && v == snap["title"]) || ("name" in snap && v == snap["name"]))
    ensures "title" in snap && snap["title"] != Null ==> v == snap["title"]
  {
    if "title" in snap && snap["title"] != Null then snap["title"]
    else if "name" in snap && snap["name"] != Null then snap["name"]
    else Null
  }

  /** The text of a truthy string value. */
  function TruthyText(v: Value): (r: Option<string>)
    ensures r.Some? <==> v.Str? && Truthy(v.s)
    ensures r.Some? ==> r.value == v.s
  {
    if v.Str? && Truthy(v.s) then Some(v.s) else None
  }

  /** An item's name: the snapshot's title or name when truthy, else the
      product's current title when truthy, else the generic name. */
  function ItemName(it: OrderItem, titles: map<string, string>): (r: string)
    ensures Truthy(r)
    ensures TruthyText(SnapshotName(it.snapshot)).Some? ==> r == TruthyText(SnapshotName(it.snapshot)).value
    ensures TruthyText(SnapshotName(it.snapshot)).None? && it.productId in titles && Truthy(titles[it.productId])
            ==> r == titles[it.productId]
    ensures r == GENERIC_NAME || (SnapshotName(it.snapshot).Str? && r == SnapshotName(it.snapshot).s) || (it.productId in titles && r == titles[it.productId])
  {
    match TruthyText(SnapshotName(it.snapshot))
    case Some(s) => s
    case None =>
      if it.productId in titles && Truthy(titles[it.productId]) then titles[it.productId] else GENERIC_NAME
  }

  /** `Name (Qty: q, Price: Rs p)`, the quantity defaulting to one and the
      price to zero, the price grouped in thousands. */
  function ItemLabel(it: OrderItem, titles: map<string, string>): (r: string)
    ensures r == ItemName(it, titles) + " (Qty: " + NatToString(it.quantity.GetOr(1))
                 + ", Price: Rs " + GroupThousands(it.unitPrice.GetOr(0)) + ")"
    ensures |r| > |ItemName(it, titles)|
  {
    ItemName(it, titles) + " (Qty: " + NatToString(it.quantity.GetOr(1))
    + ", Price: Rs " + GroupThousands(it.unitPrice.GetOr(0)) + ")"
  }

  function Labels(rows: seq<OrderItem>, titles: map<string, string>): (r: seq<string>)
    ensures |r| == |rows|
  {
    seq(|rows|, k requires 0 <= k < |rows| => ItemLabel(rows[k], titles))
  }

  /** The loop collecting one label per item. */
  method CollectLabels(rows: seq<OrderItem>, titles: map<string, string>) returns (labels: seq<string>)
    ensures labels == Labels(rows, titles)
    ensures forall k | 0 <= k < |rows| :: labels[k] == ItemLabel(rows[k], titles)
  {
    labels := [];
    for i := 0 to |rows|
      invariant labels == Labels(rows[..i], titles)
    {
      labels := labels + [ItemLabel(rows[i], titles)];
    }
    assert rows[..|rows|] == rows;
  }

  /** A string longer than the limit is cut to 252 characters and marked
      with an ellipsis, so the result never exceeds 255. */
  function Truncate(s: string): (r: string)
    ensures |r| <= MAX_PRODUCT_NAME
    ensures |s| <= MAX_PRODUCT_NAME ==> r == s
    ensures |s| > MAX_PRODUCT_NAME ==> |r| == MAX_PRODUCT_NAME && r[..252] == s[..252] && r[252..] == "..."
  {
    if |s| > MAX_PRODUCT_NAME then s[..252] + "..." else s
  }

  /** The product name sent to the gateway. */
  function ProductName(rows: seq<OrderItem>, titles: map<string, string>): (r: string)
    ensures |r| <= MAX_PRODUCT_NAME
  {
    Truncate(Join(Labels(rows, titles), "; "))
  }

  function SuccessUrl(frontend: string, orderNumber: string): string
  {
    frontend + "/order-confirmation?order=" + orderNumber + "&payment=esewa"
  }

  function FailureUrl(frontend: string, orderNumber: string, uuid: string): string
  {
    frontend + "/payment-failure?order=" + orderNumber + "&transaction_uuid=" + uuid + "&payment=esewa"
  }

  /** What initiate hands to the form builder for an order. */
  function InitiationData(orderId: string, o: Order, name: string, frontend: string): (d: OrderData)
    ensures d.transactionUuid == Some(orderId) && d.productCode.None?
    ensures d.amount == Some(o.subtotal) && d.taxAmount == Some(o.taxTotal) && d.totalAmount == Some(o.grandTotal)
    ensures d.serviceCharge == Some(0) && d.deliveryCharge == Some(o.shippingTotal)
  {
    OrderData(Some(orderId), Some(o.subtotal), Some(o.taxTotal), Some(o.grandTotal), None, Some(name),
              Some(0), Some(o.shippingTotal), Some(SuccessUrl(frontend, o.orderNumber)),
              Some(FailureUrl(frontend, o.orderNumber, orderId)))
  }

  /** The order after initiation: two metadata keys set, nothing else. */
  function Initiated(o: Order, stamp: string, uuid: string): (r: Order)
    ensures r.metadata.Keys == o.metadata.Keys + {"esewa_payment_initiated", "esewa_transaction_uuid"}
    ensures r.metadata["esewa_payment_initiated"] == Str(stamp) && r.metadata["esewa_transaction_uuid"] == Str(uuid)
    ensures forall k | k in o.metadata && k != "esewa_payment_initiated" && k != "esewa_transaction_uuid" :: r.metadata[k] == o.metadata[k]
    ensures r == o.(metadata := r.metadata)
  {
    o.(metadata := o.metadata["esewa_payment_initiated" := Str(stamp)]["esewa_transaction_uuid" := Str(uuid)])
  }

  /** Request data as a metadata value. */
  function AsValue(data: Fields): (v: Value)
    ensures v.Obj? && v.fields.Keys == data.Keys
    ensures forall k | k in data :: v.fields[k] == Str(data[k])
  {
    Obj(map k | k in data :: Str(data[k]))
  }

  /** A payment status the callback takes as success; an absent status
      counts as a failure. */
  predicate Succeeded(data: Fields)
  {
    "status" in data && (data["status"] == "COMPLETE" || data["status"] == "SUCCESS")
  }

  /** `transaction_code ?? transaction_uuid ?? null`. */
  function Reference(data: Fields): (v: Value)
    ensures "transaction_code" in data ==> v == Str(data["transaction_code"])
    ensures "transaction_code" !in data && "transaction_uuid" in data ==> v == Str(data["transaction_uuid"])
    ensures v == Null <==> "transaction_code" !in data && "transaction_uuid" !in data
  {
    if "transaction_code" in data then Str(data["transaction_code"])
    else if "transaction_uuid" in data then Str(data["transaction_uuid"])
    else Null
  }

  /** The order after a callback: paid with the gateway's reference on
      success; otherwise cancelled with the failure message recorded. */
  function AfterCallback(o: Order, data: Fields, stamp: string): (r: Order)
    ensures r.status == (if Succeeded(data) then Paid else Cancelled)
    ensures r == o.(status := r.status, metadata := r.metadata)
    ensures r.metadata.Keys == o.metadata.Keys + (if Succeeded(data) then SUCCESS_KEYS else FAILURE_KEYS)
    ensures r.metadata["esewa_callback_received"] == Str(stamp) && r.metadata["esewa_response"] == AsValue(data)
    ensures r.metadata["payment_method"] == Str("esewa")
    ensures Succeeded(data) ==> && r.metadata["payment_status"] == Str("paid")
                                && r.metadata["payment_reference"] == Reference(data)
    ensures !Succeeded(data) ==> && r.metadata["payment_status"] == Str("failed")
                                 && r.metadata["payment_error"] == Str(if "failure_message" in data then data["failure_message"] else "Payment failed")
                                 && r.metadata["cancelled_at"] == Str(stamp)
                                 && r.metadata["cancellation_reason"] == Str("Payment failed")
    ensures forall k | k in o.metadata && k !in CALLBACK_KEYS :: r.metadata[k] == o.metadata[k]
  {
    var m := o.metadata["esewa_callback_received" := Str(stamp)]["esewa_response" := AsValue(data)];
    if Succeeded(data) then
      o.(status := Paid, metadata := m["payment_status" := Str("paid")]["payment_method" := Str("esewa")]
                                       ["payment_reference" := Reference(data)])
    else
      var error := if "failure_message" in data then data["failure_message"] else "Payment failed";
      o.(status := Cancelled, metadata := m["payment_status" := Str("failed")]["payment_method" := Str("esewa")]
                                            ["payment_error" := Str(error)]["cancelled_at" := Str(stamp)]
                                            ["cancellation_reason" := Str("Payment failed")])
  }

  /** The metadata keys a successful callback writes. */
  const SUCCESS_KEYS: set<string> := {"esewa_callback_received", "esewa_response", "payment_status", "payment_method",
                                      "payment_reference"}
  /** The metadata keys a failed callback writes. */
  const FAILURE_KEYS: set<string> := {"esewa_callback_received", "esewa_response", "payment_status", "payment_method",
                                      "payment_error", "cancelled_at", "cancellation_reason"}
  const CALLBACK_KEYS: set<string> := SUCCESS_KEYS + FAILURE_KEYS

  /** Where the callback sends the browser. */
  function CallbackRedirect(frontend: string, orderNumber: string, data: Fields, uuid: string): (url: string)
    ensures Succeeded(data) ==> url == SuccessUrl(frontend, orderNumber)
    ensures !Succeeded(data) ==> url == FailureUrl(frontend, orderNumber, uuid)
  {
    if Succeeded(data) then SuccessUrl(frontend, orderNumber) else FailureUrl(frontend, orderNumber, uuid)
  }

  datatype Initiation = Initiation(formData: PaymentForm, formAction: string, orderNumber: string)

  /** The callback's redirect, and whether the order's status changed
      (which sends the status-change notification). */
  datatype CallbackResult = CallbackResult(redirect: string, statusChanged: bool)

  class EsewaPaymentController {
    const book: OrderBook
    /** Current product titles by product id. */
    const titles: map<string, string>
    const cfg: Config
    const frontendUrl: string

    constructor (book: OrderBook, titles: map<string, string>, cfg: Config, frontendUrl: Option<string>)
      ensures this.book == book && this.titles == titles && this.cfg == cfg
      ensures this.frontendUrl == frontendUrl.GetOr(DEFAULT_FRONTEND_URL)
    {
      this.book := book;
      this.titles := titles;
      this.cfg := cfg;
      this.frontendUrl := frontendUrl.GetOr(DEFAULT_FRONTEND_URL);
    }

    /** Starts a payment: 401 without a user, 422 when the order does not
        exist, 404 when it is not the user's; otherwise the signed form for
        the order's totals, with the initiation stamped on the order. */
    method Initiate(userId: Option<string>, orderId: Option<string>, stamp: string) returns (r: Reply<Initiation>)
      modifies book`orders
      ensures userId.None? <==> r == Refused(401, "Unauthorized")
      ensures userId.Some? && (orderId.None? || orderId.value !in old(book.orders)) <==> r == Refused(422, INVALID)
      ensures (&& userId.Some? && orderId.Some? && orderId.value in old(book.orders)
               && old(book.orders)[orderId.value].userId != userId.value) <==> r == Refused(404, NOT_FOUND)
      ensures r.Refused? ==> book.orders == old(book.orders)
      ensures r.Ok? ==> && userId.Some? && orderId.Some? && orderId.value in old(book.orders)
                        && old(book.orders)[orderId.value].userId == userId.value
      ensures r.Ok? ==>
        var o := old(book.orders)[orderId.value];
        var f := r.body.formData;
        && Verifies(cfg, Wire(f))
        && f == FormData(cfg, InitiationData(orderId.value, o, ProductName(ItemsOf(book.items, orderId.value), titles), frontendUrl), orderId.value)
        && f.transactionUuid == orderId.value && f.totalAmount == NatToString(o.grandTotal)
        && |f.productName| <= MAX_PRODUCT_NAME
        && r.body.formAction == API_URL && r.body.orderNumber == o.orderNumber
        && book.orders == old(book.orders)[orderId.value := Initiated(o, stamp, orderId.value)]
    {
      if userId.None? {
        return Refused(401, "Unauthorized");
      }
      if orderId.None? || orderId.value !in book.orders {
        return Refused(422, INVALID);
      }
      var id := orderId.value;
      var o := book.orders[id];
      if o.userId != userId.value {
        return Refused(404, NOT_FOUND);
      }
      var labels := CollectLabels(ItemsOf(book.items, id), titles);
      var name := Truncate(Join(labels, "; "));
      var formData := FormData(cfg, InitiationData(id, o, name, frontendUrl), id);
      FormVerifies(cfg, InitiationData(id, o, name, frontendUrl), id);
      book.orders := book.orders[id := Initiated(o, stamp, formData.transactionUuid)];
      r := Ok(Initiation(formData, API_URL, o.orderNumber));
    }

    /** The gateway's callback: 400 when the signature fails, 400 when the
        transaction id is missing or falsy, 404 when no order has it;
        otherwise the order is marked paid or cancelled. */
    method Callback(data: Fields, stamp: string) returns (r: Reply<CallbackResult>)
      modifies book`orders
      ensures !Verifies(cfg, data) <==> r == Refused(400, "Invalid signature")
      ensures (Verifies(cfg, data) && ("transaction_uuid" !in data || !Truthy(data["transaction_uuid"])))
              <==> r == Refused(400, "Transaction UUID missing")
      ensures (&& Verifies(cfg, data) && "transaction_uuid" in data && Truthy(data["transaction_uuid"])
               && data["transaction_uuid"] !in old(book.orders)) <==> r == Refused(404, "Order not found")
      ensures r.Refused? ==> book.orders == old(book.orders)
      ensures r.Ok? ==> && Verifies(cfg, data) && "transaction_uuid" in data && data["transaction_uuid"] in old(book.orders)
      ensures r.Ok? ==>
        var id := data["transaction_uuid"];
        var o := old(book.orders)[id];
        && book.orders == old(book.orders)[id := AfterCallback(o, data, stamp)]
        && r.body.statusChanged == (AfterCallback(o, data, stamp).status != o.status)
        && r.body.redirect == CallbackRedirect(frontendUrl, o.orderNumber, data, id)
    {
      var ok := VerifySignature(cfg, data);
      if !ok {
        return Refused(400, "Invalid signature");
      }
      if "transaction_uuid" !in data || !Truthy(data["transaction_uuid"]) {
        return Refused(400, "Transaction UUID missing");
      }
      var id := data["transaction_uuid"];
      if id !in book.orders {
        return Refused(404, "Order not found");
      }
      var o := book.orders[id];
      var updated := AfterCallback(o, data, stamp);
      book.orders := book.orders[id := updated];
      r := Ok(CallbackResult(CallbackRedirect(frontendUrl, o.orderNumber, data, id), updated.status != o.status));
    }

    /** The callback as it is evidently meant to work: data whose status
        the signature does not cover is refused like a bad signature;
        otherwise it is handled as `Callback` handles it. */
    method CallbackSigned(data: Fields, stamp: string) returns (r: Reply<CallbackResult>)
      modifies book`orders
      ensures !(Verifies(cfg, data) && StatusSigned(data)) <==> r == Refused(400, "Invalid signature")
      ensures r.Refused? ==> book.orders == old(book.orders)
      ensures r.Ok? ==>
        && Verifies(cfg, data) && StatusSigned(data)
        && "transaction_uuid" in data && data["transaction_uuid"] in old(book.orders)
        && var id := data["transaction_uuid"];
           var o := old(book.orders)[id];
           && book.orders == old(book.orders)[id := AfterCallback(o, data, stamp)]
           && r.body.redirect == CallbackRedirect(frontendUrl, o.orderNumber, data, id)
    {
      if !StatusSigned(data) {
        return Refused(400, "Invalid signature");
      }
      r := Callback(data, stamp);
    }
  }

  /** The callback data's status is among the fields its signature covers. */
  predicate StatusSigned(data: Fields)
  {
    "signed_field_names" in data && "status" in Split(data["signed_field_names"], ',')
  }

  /** Form data as initiate signs it, with a status added, does not sign
      its status, so a callback that demands a signed status refuses it. */
  lemma ForgedStatusRefused(cfg: Config, f: Fields)
    requires CarriesSignature(cfg, f)
    ensures !StatusSigned(f["status" := "COMPLETE"])
  {
    var g := f["status" := "COMPLETE"];
    assert g["signed_field_names"] == SIGNED_FIELD_NAMES;
    SignedNamesSplit();
    StatusNotSigned();
  }

  /** "status" is not one of the three signed fields. */
  lemma StatusNotSigned()
    ensures "status" !in SIGNED_FIELDS
  {
    var fs := SIGNED_FIELDS;
    assert fs[0] != "status" && fs[1] != "status" && fs[2] != "status";
  }

  /** The status is not among the signed fields: any signed data with a
      successful status added still verifies, and the callback then marks
      the order paid. */
  lemma AddedStatusCompletes(cfg: Config, f: Fields, o: Order, stamp: string)
    requires CarriesSignature(cfg, f)
    ensures Verifies(cfg, f["status" := "COMPLETE"])
    ensures f["status" := "COMPLETE"]["transaction_uuid"] == f["transaction_uuid"]
    ensures AfterCallback(o, f["status" := "COMPLETE"], stamp).status == Paid
  {
    UnsignedFieldKeepsSignature(cfg, f, "status", "COMPLETE");
  }

  /** In particular the form data initiate returns, with a successful
      status added, verifies and names the order. */
  lemma InitiatedFormCompletes(cfg: Config, orderId: string, o: Order, name: string, frontend: string, stamp: string)
    ensures var data := Wire(FormData(cfg, InitiationData(orderId, o, name, frontend), orderId))["status" := "COMPLETE"];
            && Verifies(cfg, data) && data["transaction_uuid"] == orderId
            && AfterCallback(o, data, stamp).status == Paid
  {
    var d := InitiationData(orderId, o, name, frontend);
    FormVerifies(cfg, d, orderId);
    AddedStatusCompletes(cfg, Wire(FormData(cfg, d, orderId)), o, stamp);
  }

  /** The same form data is refused by the corrected callback. */
  lemma InitiatedFormRefused(cfg: Config, orderId: string, o: Order, name: string, frontend: string)
    ensures !StatusSigned(Wire(FormData(cfg, InitiationData(orderId, o, name, frontend), orderId))["status" := "COMPLETE"])
  {
    FormVerifies(cfg, InitiationData(orderId, o, name, frontend), orderId);
    ForgedStatusRefused(cfg, Wire(FormData(cfg, InitiationData(orderId, o, name, frontend), orderId)));
  }
}
