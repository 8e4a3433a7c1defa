/** The administrator's order endpoints: creating an order on anyone's
    behalf, with a default grand total and a generated order number, and
    updating only the fields a request carries. */
module AdminOrders {
  import opened Wrappers
  import opened Text
  import opened Market

  const PAYMENT_STATUSES: set<string> := {"pending", "paid", "failed", "refunded"}
  /** The longest order number an administrator may choose. */
  const MAX_NUMBER: nat := 50
  /** The length of the random part of a generated order number. */
  const TOKEN_LENGTH: nat := 8
  /** The total columns an update may set, in the order it sets them. */
  const TOTAL_FIELDS: seq<string> := ["subtotal", "tax_total", "shipping_total", "discount_total", "grand_total"]

  /** The body of a creation. Totals are keyed by column name; an absent or
      null total is missing from the map. */
  datatype StoreRequest = StoreRequest(
    userId: Option<string>,
    sellerId: Option<string>,
    status: Option<string>,
    paymentStatus: Option<string>,
    totals: map<string, int>,
    placedAt: Option<int>,
    orderNumber: Option<string>)

  /** The body of an update. A field the request does not carry is None;
      `sellerId` and `placedAt` may also be sent as null, Some(None). */
  datatype UpdateRequest = UpdateRequest(
    status: Option<string>,
    paymentStatus: Option<string>,
    sellerId: Option<Option<string>>,
    totals: map<string, int>,
    placedAt: Option<Option<int>>)

  predicate TotalsValid(totals: map<string, int>)
  {
    forall f | f in totals :: totals[f] >= 0
  }

  predicate StoreValid(req: StoreRequest, users: map<string, User>, orders: map<string, Order>)
  {
    && req.userId.Some? && req.userId.value in users
    && (req.sellerId.None? || req.sellerId.value in users)
    && req.status.Some? && ParseStatus(req.status.value).Some?
    && req.paymentStatus.Some? && req.paymentStatus.value in PAYMENT_STATUSES
    && TotalsValid(req.totals)
    && (req.orderNumber.None? || (|req.orderNumber.value| <= MAX_NUMBER && !NumberUsed(orders, req.orderNumber.value)))
  }

  predicate UpdateValid(req: UpdateRequest, users: map<string, User>)
  {
    && (req.status.None? || ParseStatus(req.status.value).Some?)
    && (req.paymentStatus.None? || req.paymentStatus.value in PAYMENT_STATUSES)
    && (req.sellerId.None? || req.sellerId.value.None? || req.sellerId.value.value in users)
    && TotalsValid(req.totals)
  }

  /** A total of a creation; a missing one counts as zero. */
  function TotalOr(totals: map<string, int>, f: string): (v: nat)
    requires TotalsValid(totals)
    ensures f in totals ==> v == totals[f]
    ensures f !in totals ==> v == 0
  {
    if f in totals then totals[f] else 0
  }

  /** The grand total of a creation: the one sent, else subtotal plus tax
      plus shipping less discount, never below zero. */
  function GrandTotal(totals: map<string, int>): (g: nat)
    requires TotalsValid(totals)
    ensures "grand_total" in totals ==> g == totals["grand_total"]
    ensures "grand_total" !in totals ==>
              var net := TotalOr(totals, "subtotal") + TotalOr(totals, "tax_total")
                         + TotalOr(totals, "shipping_total") - TotalOr(totals, "discount_total");
              g >= net && (g == net || g == 0) && (net >= 0 ==> g == net)
  {
    if "grand_total" in totals then totals["grand_total"]
    else
      var net := TotalOr(totals, "subtotal") + TotalOr(totals, "tax_total")
                 + TotalOr(totals, "shipping_total") - TotalOr(totals, "discount_total");
      if net > 0 then net else 0
  }

  function Candidate(draw: string): string { "ORD-" + Upper(draw) }

  /** The number the retry loop settles on: the first candidate among the
      draws that no order has, if any. */
  function FirstFresh(orders: map<string, Order>, draws: seq<string>): (r: Option<string>)
    ensures r.Some? ==> !NumberUsed(orders, r.value)
    ensures r.Some? ==> exists k :: 0 <= k < |draws| && r.value == Candidate(draws[k])
                                    && forall j | 0 <= j < k :: NumberUsed(orders, Candidate(draws[j]))
    ensures r.None? ==> forall k | 0 <= k < |draws| :: NumberUsed(orders, Candidate(draws[k]))
  {
    if draws == [] then None
    else if !NumberUsed(orders, Candidate(draws[0])) then Some(Candidate(draws[0]))
    else
      var rest := FirstFresh(orders, draws[1..]);
      assert forall k | 1 <= k < |draws| :: draws[k] == draws[1..][k - 1];
      if rest.Some? then
        var k' :| 0 <= k' < |draws[1..]| && rest.value == Candidate(draws[1..][k'])
                  && forall j | 0 <= j < k' :: NumberUsed(orders, Candidate(draws[1..][j]));
        assert rest.value == Candidate(draws[k' + 1]);
        rest
      else rest
  }

  /** Sets one total column by its name. */
  function SetTotal(o: Order, f: string, v: nat): Order
  {
    if f == "subtotal" then o.(subtotal := v)
    else if f == "tax_total" then o.(taxTotal := v)
    else if f == "shipping_total" then o.(shippingTotal := v)
    else if f == "discount_total" then o.(discountTotal := v)
    else if f == "grand_total" then o.(grandTotal := v)
    else o
  }

  /** The order after setting, field by field, the totals a request carries. */
  function WithTotals(o: Order, totals: map<string, int>, fields: seq<string>): Order
    requires TotalsValid(totals)
  {
    if fields == [] then o
    else
      var o' := WithTotals(o, totals, fields[..|fields| - 1]);
      var f := fields[|fields| - 1];
      if f in totals then SetTotal(o', f, totals[f]) else o'
  }

  function Chosen(totals: map<string, int>, f: string, old_: nat): nat
    requires TotalsValid(totals)
  {
    if f in totals then totals[f] else old_
  }

  lemma WithTotalsStep(o: Order, totals: map<string, int>, i: nat)
    requires TotalsValid(totals) && i < |TOTAL_FIELDS|
    ensures var before := WithTotals(o, totals, TOTAL_FIELDS[..i]);
            var f := TOTAL_FIELDS[i];
            WithTotals(o, totals, TOTAL_FIELDS[..i + 1]) == if f in totals then SetTotal(before, f, totals[f]) else before
  {
    assert TOTAL_FIELDS[..i + 1][..i] == TOTAL_FIELDS[..i];
  }

  /** The first three totals: each the one sent, else the old one. */
  lemma FirstTotalsApplied(o: Order, totals: map<string, int>)
    requires TotalsValid(totals)
    ensures WithTotals(o, totals, TOTAL_FIELDS[..3])
            == o.(subtotal := Chosen(totals, "subtotal", o.subtotal), taxTotal := Chosen(totals, "tax_total", o.taxTotal),
                  shippingTotal := Chosen(totals, "shipping_total", o.shippingTotal))
  {
    var fs := TOTAL_FIELDS;
    assert fs[..0] == [];
    WithTotalsStep(o, totals, 0);
    var u1 := WithTotals(o, totals, fs[..1]);
    assert u1 == o.(subtotal := Chosen(totals, "subtotal", o.subtotal));
    WithTotalsStep(o, totals, 1);
    var u2 := WithTotals(o, totals, fs[..2]);
    assert u2 == u1.(taxTotal := Chosen(totals, "tax_total", o.taxTotal));
    WithTotalsStep(o, totals, 2);
  }

  /** Each total is the one sent, else the old one, and nothing else moves. */
  lemma TotalsApplied(o: Order, totals: map<string, int>)
    requires TotalsValid(totals)
    ensures var u := WithTotals(o, totals, TOTAL_FIELDS);
            && u.subtotal == Chosen(totals, "subtotal", o.subtotal)
            && u.taxTotal == Chosen(totals, "tax_total", o.taxTotal)
            && u.shippingTotal == Chosen(totals, "shipping_total", o.shippingTotal)
            && u.discountTotal == Chosen(totals, "discount_total", o.discountTotal)
            && u.grandTotal == Chosen(totals, "grand_total", o.grandTotal)
            && u == o.(subtotal := u.subtotal, taxTotal := u.taxTotal, shippingTotal := u.shippingTotal,
                       discountTotal := u.discountTotal, grandTotal := u.grandTotal)
  {
    var fs := TOTAL_FIELDS;
    FirstTotalsApplied(o, totals);
    var u3 := WithTotals(o, totals, fs[..3]);
    WithTotalsStep(o, totals, 3);
    var u4 := WithTotals(o, totals, fs[..4]);
    assert u4 == u3.(discountTotal := Chosen(totals, "discount_total", o.discountTotal));
    WithTotalsStep(o, totals, 4);
    assert fs[..5] == fs;
  }

  /** The order after the assignments an update makes before its totals:
      status, payment status in the metadata beside its other keys, seller. */
  function Reassigned(o: Order, req: UpdateRequest): (u: Order)
    ensures req.status.Some? && ParseStatus(req.status.value).Some? ==> StatusName(u.status) == req.status.value
    ensures req.status.None? ==> u.status == o.status
    ensures req.paymentStatus.Some? ==> "payment_status" in u.metadata && u.metadata["payment_status"] == Str(req.paymentStatus.value)
    ensures forall k | k in o.metadata && k != "payment_status" :: k in u.metadata && u.metadata[k] == o.metadata[k]
    ensures req.paymentStatus.None? ==> u.metadata == o.metadata
    ensures u.sellerId == req.sellerId.GetOr(o.sellerId)
    ensures u == o.(status := u.status, metadata := u.metadata, sellerId := u.sellerId)
  {
    var o := if req.status.Some? && ParseStatus(req.status.value).Some? then o.(status := ParseStatus(req.status.value).value) else o;
    var o := if req.paymentStatus.Some? then o.(metadata := o.metadata["payment_status" := Str(req.paymentStatus.value)]) else o;
    if req.sellerId.Some? then o.(sellerId := req.sellerId.value) else o
  }

  /** The order after a valid update: each field the request carries is
      replaced, in the order the controller assigns them. */
  function Patched(o: Order, req: UpdateRequest): Order
    requires TotalsValid(req.totals)
  {
    var u := WithTotals(Reassigned(o, req), req.totals, TOTAL_FIELDS);
    if req.placedAt.Some? then u.(placedAt := req.placedAt.value) else u
  }

  /** Only the fields a request carries change: the totals take the sent
      values, and the columns an update never names keep theirs. */
  lemma PatchedFields(o: Order, req: UpdateRequest)
    requires TotalsValid(req.totals)
    ensures var u := Patched(o, req);
            && u.status == Reassigned(o, req).status && u.metadata == Reassigned(o, req).metadata
            && u.sellerId == req.sellerId.GetOr(o.sellerId)
            && u.placedAt == req.placedAt.GetOr(o.placedAt)
            && u.subtotal == Chosen(req.totals, "subtotal", o.subtotal)
            && u.taxTotal == Chosen(req.totals, "tax_total", o.taxTotal)
            && u.shippingTotal == Chosen(req.totals, "shipping_total", o.shippingTotal)
            && u.discountTotal == Chosen(req.totals, "discount_total", o.discountTotal)
            && u.grandTotal == Chosen(req.totals, "grand_total", o.grandTotal)
            && u == o.(status := u.status, metadata := u.metadata, sellerId := u.sellerId, placedAt := u.placedAt,
                       subtotal := u.subtotal, taxTotal := u.taxTotal, shippingTotal := u.shippingTotal,
                       discountTotal := u.discountTotal, grandTotal := u.grandTotal)
  {
    TotalsApplied(Reassigned(o, req), req.totals);
  }

  /** An update never touches the number, so numbers stay unique. */
  lemma UpdateKeepsNumbersUnique(orders: map<string, Order>, orderId: string, req: UpdateRequest)
    requires NumbersUnique(orders) && orderId in orders && TotalsValid(req.totals)
    ensures NumbersUnique(orders[orderId := Patched(orders[orderId], req)])
  {
    PatchedFields(orders[orderId], req);
  }

  datatype UpdateResult = UpdateResult(order: Order, statusChanged: bool)

  class AdminOrderController {
    const book: OrderBook
    const users: UserDirectory

    constructor (book: OrderBook, users: UserDirectory)
      ensures this.book == book && this.users == users
    {
      this.book := book;
      this.users := users;
    }

    /** Draws candidates until one is unused. The random draws are given;
        when every draw is taken there is no number. */
    method GenerateOrderNumber(draws: seq<string>) returns (r: Option<string>)
      requires forall k | 0 <= k < |draws| :: |draws[k]| == TOKEN_LENGTH
      ensures r == FirstFresh(book.orders, draws)
      ensures r.Some? ==> |r.value| == 4 + TOKEN_LENGTH
    {
      var i := 0;
      while i < |draws|
        invariant 0 <= i <= |draws|
        invariant FirstFresh(book.orders, draws) == FirstFresh(book.orders, draws[i..])
      {
        assert draws[i..][1..] == draws[i + 1..];
        var number := Candidate(draws[i]);
        if !NumberUsed(book.orders, number) {
          return Some(number);
        }
        i := i + 1;
      }
      return None;
    }

    /** Creates an order: missing totals are zero, the grand total defaults
        to the clamped net, the number is the one sent or a generated one,
        the payment status is the only metadata, and the placing time
        defaults to now. */
    method Store(req: StoreRequest, orderId: string, draws: seq<string>, now: int) returns (r: Reply<Order>)
      requires forall k | 0 <= k < |draws| :: |draws[k]| == TOKEN_LENGTH
      requires req.orderNumber.None? ==> FirstFresh(book.orders, draws).Some?
      modifies book`orders
      ensures !StoreValid(req, users.users, old(book.orders)) <==> r == Refused(422, INVALID)
      ensures StoreValid(req, users.users, old(book.orders)) && orderId in old(book.orders)
              <==> r == Refused(500, SERVER_ERROR)
      ensures r.Ok? <==> StoreValid(req, users.users, old(book.orders)) && orderId !in old(book.orders)
      ensures r.Refused? ==> book.orders == old(book.orders)
      ensures NumbersUnique(old(book.orders)) ==> NumbersUnique(book.orders)
      ensures r.Ok? ==>
                && orderId !in old(book.orders)
                && book.orders == old(book.orders)[orderId := r.body]
                && r.body.userId == req.userId.value && r.body.sellerId == req.sellerId
                && StatusName(r.body.status) == req.status.value
                && r.body.metadata == map["payment_status" := Str(req.paymentStatus.value)]
                && r.body.subtotal == TotalOr(req.totals, "subtotal") && r.body.taxTotal == TotalOr(req.totals, "tax_total")
                && r.body.shippingTotal == TotalOr(req.totals, "shipping_total")
                && r.body.discountTotal == TotalOr(req.totals, "discount_total")
                && r.body.grandTotal == GrandTotal(req.totals)
                && r.body.placedAt == Some(req.placedAt.GetOr(now))
                && !NumberUsed(old(book.orders), r.body.orderNumber)
                && (req.orderNumber.Some? ==> r.body.orderNumber == req.orderNumber.value)
                && (req.orderNumber.None? ==> Some(r.body.orderNumber) == FirstFresh(old(book.orders), draws))
    {
      if !StoreValid(req, users.users, book.orders) {
        return Refused(422, INVALID);
      }
      if orderId in book.orders {
        return Refused(500, SERVER_ERROR);
      }
      var number;
      if req.orderNumber.Some? {
        number := req.orderNumber.value;
      } else {
        var generated := GenerateOrderNumber(draws);
        number := generated.value;
      }
      var t := req.totals;
      var o := Order(req.userId.value, req.sellerId, number, ParseStatus(req.status.value).value,
                     TotalOr(t, "subtotal"), TotalOr(t, "tax_total"), TotalOr(t, "shipping_total"),
                     TotalOr(t, "discount_total"), GrandTotal(t),
                     None, None, map["payment_status" := Str(req.paymentStatus.value)],
                     Some(req.placedAt.GetOr(now)), None, None, false, None, None);
      if NumbersUnique(book.orders) {
        StoreKeepsNumbersUnique(book.orders, orderId, o);
      }
      book.orders := book.orders[orderId := o];
      r := Ok(o);
    }

    /** The assignments of status, payment status and seller. */
    static method Reassign(o: Order, req: UpdateRequest) returns (u: Order)
      requires req.status.None? || ParseStatus(req.status.value).Some?
      ensures u == Reassigned(o, req)
    {
      u := o;
      if req.status.Some? {
        u := u.(status := ParseStatus(req.status.value).value);
      }
      if req.paymentStatus.Some? {
        var metadata := u.metadata;
        metadata := metadata["payment_status" := Str(req.paymentStatus.value)];
        u := u.(metadata := metadata);
      }
      if req.sellerId.Some? {
        u := u.(sellerId := req.sellerId.value);
      }
    }

    /** The loop over the total columns, setting those the request carries. */
    static method AssignTotals(o: Order, totals: map<string, int>) returns (u: Order)
      requires TotalsValid(totals)
      ensures u == WithTotals(o, totals, TOTAL_FIELDS)
    {
      u := o;
      for i := 0 to |TOTAL_FIELDS|
        invariant u == WithTotals(o, totals, TOTAL_FIELDS[..i])
      {
        WithTotalsStep(o, totals, i);
        var field := TOTAL_FIELDS[i];
        if field in totals {
          u := SetTotal(u, field, totals[field]);
        }
      }
      assert TOTAL_FIELDS[..|TOTAL_FIELDS|] == TOTAL_FIELDS;
    }

    /** Updates the fields the request carries. */
    method Update(orderId: string, req: UpdateRequest) returns (r: Reply<UpdateResult>)
      modifies book`orders
      ensures orderId !in old(book.orders) ==> r == Refused(404, NOT_FOUND)
      ensures orderId in old(book.orders) && !UpdateValid(req, users.users) ==> r == Refused(422, INVALID)
      ensures r.Refused? ==> book.orders == old(book.orders)
      ensures r.Ok? <==> orderId in old(book.orders) && UpdateValid(req, users.users)
      ensures r.Ok? ==>
                var o := Patched(old(book.orders[orderId]), req);
                && book.orders == old(book.orders)[orderId := o]
                && r.body == UpdateResult(o, o.status != old(book.orders[orderId].status))
    {
      if orderId !in book.orders {
        return Refused(404, NOT_FOUND);
      }
      if !UpdateValid(req, users.users) {
        return Refused(422, INVALID);
      }
      var order := book.orders[orderId];
      var originalStatus := order.status;
      order := Reassign(order, req);
      order := AssignTotals(order, req.totals);
      if req.placedAt.Some? {
        order := order.(placedAt := req.placedAt.value);
      }
      book.orders := book.orders[orderId := order];
      r := Ok(UpdateResult(order, order.status != originalStatus));
    }
  }
}
