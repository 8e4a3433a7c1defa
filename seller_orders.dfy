/** The seller's order endpoints: the status a seller may set and how it
    maps onto the order's own status, the journey of stages kept in the
    metadata, the actions offered on the pipeline of latest orders, and the
    choice of orders to print shipping labels for. */
module SellerOrders {
  import opened Wrappers
  import opened Text
  import opened Market

  /** The most labels printed, or offered, at once. */
  const PRINT_LABEL_LIMIT: nat := 20
  /** The pipeline lists this many of the latest orders. */
  const PIPELINE_SIZE: nat := 10
  const SELLER_STATUSES: set<string> := {"processing", "ready_to_ship", "shipped", "completed", "cancelled"}
  const SELLER_ONLY := "Seller access only."
  const NOT_ALLOWED := "You are not allowed to update this order."

  /** The order status a seller's stage sets; ready to ship is still
      processing. */
  function ToInternal(display: string): (r: Option<OrderStatus>)
    ensures r.Some? <==> display in SELLER_STATUSES
    ensures display == "ready_to_ship" ==> r == Some(Processing)
    ensures r.Some? && display != "ready_to_ship" ==> StatusName(r.value) == display
  {
    if display == "processing" then Some(Processing)
    else if display == "ready_to_ship" then Some(Processing)
    else if display == "shipped" then Some(Shipped)
    else if display == "completed" then Some(Completed)
    else if display == "cancelled" then Some(Cancelled)
    else None
  }

  /** The stage shown for an order status; a refund shows as cancelled. */
  function InternalToDisplay(s: OrderStatus): (d: string)
    ensures s != Refunded ==> d == StatusName(s)
    ensures s == Refunded ==> d == "cancelled"
  {
    if s == Refunded then "cancelled" else StatusName(s)
  }

  /** The journey kept in the metadata; none when absent or not an object. */
  function JourneyOf(m: Metadata): map<string, Value>
  {
    if "journey" in m && m["journey"].Obj? then m["journey"].fields else map[]
  }

  /** The stage shown for an order: the recorded current stage, else the
      stage of its status, lower-cased. */
  function DisplayStatus(o: Order): (d: string)
    ensures "current_stage" in o.metadata && o.metadata["current_stage"].Str? ==> d == Lower(o.metadata["current_stage"].s)
    ensures !("current_stage" in o.metadata && o.metadata["current_stage"].Str?) ==> d == Lower(InternalToDisplay(o.status))
  {
    var m := o.metadata;
    Lower(if "current_stage" in m && m["current_stage"].Str? then m["current_stage"].s else InternalToDisplay(o.status))
  }

  /** An address counts as filled when it is a non-empty object. */
  predicate AddressFilled(a: Option<map<string, Value>>) { a.Some? && |a.value| > 0 }

  predicate BookCourierAllowed(o: Order)
  {
    DisplayStatus(o) in {"processing", "ready_to_ship", "paid"}
  }

  predicate PrintLabelAllowed(o: Order)
  {
    DisplayStatus(o) in {"processing", "ready_to_ship", "shipped"} && AddressFilled(o.shippingAddress)
  }

  /** The order after a seller sets a stage: its status, the stage stamped
      into the journey and recorded as current. */
  function Staged(o: Order, display: string, internal: OrderStatus, stamp: string): (u: Order)
    ensures u.status == internal
    ensures "current_stage" in u.metadata && u.metadata["current_stage"] == Str(display)
    ensures "journey" in u.metadata && JourneyOf(u.metadata) == JourneyOf(o.metadata)[display := Str(stamp)]
    ensures forall k | k in o.metadata && k != "journey" && k != "current_stage" :: k in u.metadata && u.metadata[k] == o.metadata[k]
    ensures u == o.(status := internal, metadata := u.metadata)
  {
    var journey := JourneyOf(o.metadata)[display := Str(stamp)];
    o.(status := internal, metadata := o.metadata["journey" := Obj(journey)]["current_stage" := Str(display)])
  }

  /** Setting a stage keeps every other stage's time in the journey. */
  lemma JourneyKeepsOtherStages(o: Order, display: string, internal: OrderStatus, stamp: string, other: string)
    requires other in JourneyOf(o.metadata) && other != display
    ensures var j := JourneyOf(Staged(o, display, internal, stamp).metadata);
            other in j && j[other] == JourneyOf(o.metadata)[other]
  {
  }

  /** After setting a stage the order shows that stage. */
  lemma ShowsSetStage(o: Order, display: string, internal: OrderStatus, stamp: string)
    ensures DisplayStatus(Staged(o, display, internal, stamp)) == Lower(display)
  {
  }

  /** Moving a processing order between processing and ready to ship keeps
      its status, so nobody is notified. */
  lemma ReadyToShipIsSilent(o: Order, display: string)
    requires o.status == Processing && (display == "processing" || display == "ready_to_ship")
    ensures ToInternal(display) == Some(o.status)
  {
  }

  /** The rows a condition selects, in their order. */
  function Filter<T>(rows: seq<T>, p: T -> bool): (r: seq<T>)
    ensures |r| <= |rows|
    ensures forall k | 0 <= k < |r| :: r[k] in rows && p(r[k])
    ensures forall j | 0 <= j < |rows| && p(rows[j]) :: rows[j] in r
    decreases |rows|
  {
    if rows == [] then []
    else
      var init := rows[..|rows| - 1];
      var last := rows[|rows| - 1];
      assert forall j | 0 <= j < |init| :: init[j] == rows[j];
      Filter(init, p) + (if p(last) then [last] else [])
  }

  /** Filtering from the front: the first row, when selected, then the
      selection from the rest. */
  lemma {:induction false} FilterCons<T>(rows: seq<T>, p: T -> bool)
    requires rows != []
    ensures Filter(rows, p) == (if p(rows[0]) then [rows[0]] else []) + Filter(rows[1..], p)
    decreases |rows|
  {
    if |rows| == 1 {
      assert rows[1..] == [] && rows[..0] == [];
    } else {
      var init := rows[..|rows| - 1];
      FilterCons(init, p);
      assert init[1..] == rows[1..][..|rows[1..]| - 1];
      assert rows[1..][|rows[1..]| - 1] == rows[|rows| - 1];
    }
  }

  /** The first `n` rows a condition selects, in their order. */
  function FirstN<T>(rows: seq<T>, p: T -> bool, n: nat): (r: seq<T>)
    ensures |r| <= n
    ensures forall k | 0 <= k < |r| :: r[k] in rows && p(r[k])
    ensures |r| < n ==> forall j | 0 <= j < |rows| && p(rows[j]) :: rows[j] in r
    decreases |rows|
  {
    if rows == [] || n == 0 then []
    else
      var rest := FirstN(rows[1..], p, if p(rows[0]) then n - 1 else n);
      if p(rows[0]) then
        assert forall j | 1 <= j < |rows| :: rows[j] == rows[1..][j - 1];
        [rows[0]] + rest
      else
        assert forall j | 1 <= j < |rows| :: rows[j] == rows[1..][j - 1];
        rest
  }

  /** The first `n` rows are the selection cut to `n` rows, or all of it
      when it is shorter. */
  lemma {:induction false} FirstNIsPrefix<T>(rows: seq<T>, p: T -> bool, n: nat)
    ensures var all := Filter(rows, p); FirstN(rows, p, n) == if |all| < n then all else all[..n]
    decreases |rows|
  {
    if rows != [] && n != 0 {
      var m := if p(rows[0]) then n - 1 else n;
      FirstNIsPrefix(rows[1..], p, m);
      FilterCons(rows, p);
      var all := Filter(rows[1..], p);
      var rest := FirstN(rows[1..], p, m);
      assert rest == if |all| < m then all else all[..m];
      if p(rows[0]) {
        assert FirstN(rows, p, n) == [rows[0]] + rest;
        assert Filter(rows, p) == [rows[0]] + all;
        if |all| >= m {
          assert ([rows[0]] + all)[..n] == [rows[0]] + all[..m];
        }
      } else {
        assert FirstN(rows, p, n) == rest;
        assert Filter(rows, p) == all;
      }
    }
  }

  /** The requested ids without empty ones and without repeats, each kept
      at its first occurrence. */
  function DistinctIds(ids: seq<string>): (r: seq<string>)
    ensures forall k | 0 <= k < |r| :: r[k] in ids && Truthy(r[k])
    ensures forall j | 0 <= j < |ids| && Truthy(ids[j]) :: ids[j] in r
    ensures forall a, b | 0 <= a < b < |r| :: r[a] != r[b]
    decreases |ids|
  {
    if ids == [] then []
    else
      var init := ids[..|ids| - 1];
      var last := ids[|ids| - 1];
      var r := DistinctIds(init);
      assert forall j | 0 <= j < |init| :: init[j] == ids[j];
      if !Truthy(last) || last in r then r else r + [last]
  }

  /** One row of the pipeline and the actions it offers. */
  datatype PipelineRow = PipelineRow(id: string, status: string, printLabel: bool, bookCourier: bool)

  function RowOf(id: string, o: Order): (row: PipelineRow)
    ensures row.id == id && row.status == DisplayStatus(o)
    ensures row.printLabel <==> PrintLabelAllowed(o)
    ensures row.bookCourier <==> BookCourierAllowed(o)
  {
    PipelineRow(id, DisplayStatus(o), PrintLabelAllowed(o), BookCourierAllowed(o))
  }

  /** Whether a pipeline row offers label printing. */
  predicate Printed(row: PipelineRow)
  {
    row.printLabel
  }

  /** The ids of rows, in their order. */
  function IdsOf(rows: seq<PipelineRow>): (ids: seq<string>)
    ensures |ids| == |rows| && forall k | 0 <= k < |rows| :: ids[k] == rows[k].id
  {
    seq(|rows|, k requires 0 <= k < |rows| => rows[k].id)
  }

  /** The ids of the pipeline rows offered for label printing: the
      printable rows in their order, cut to twenty. */
  function ReadyForLabels(rows: seq<PipelineRow>): (ids: seq<string>)
    ensures |ids| <= PRINT_LABEL_LIMIT
    ensures forall k | 0 <= k < |ids| :: exists j :: 0 <= j < |rows| && rows[j].id == ids[k] && rows[j].printLabel
    ensures var all := Filter(rows, Printed);
            ids == IdsOf(if |all| < PRINT_LABEL_LIMIT then all else all[..PRINT_LABEL_LIMIT])
  {
    var picked := FirstN(rows, Printed, PRINT_LABEL_LIMIT);
    FirstNIsPrefix(rows, Printed, PRINT_LABEL_LIMIT);
    assert forall k | 0 <= k < |picked| :: picked[k] in rows && picked[k].printLabel;
    IdsOfPicked(rows, picked);
    IdsOf(picked)
  }

  lemma IdsOfPicked(rows: seq<PipelineRow>, picked: seq<PipelineRow>)
    requires forall k | 0 <= k < |picked| :: picked[k] in rows && picked[k].printLabel
    ensures forall k | 0 <= k < |picked| :: exists j :: 0 <= j < |rows| && rows[j].id == picked[k].id && rows[j].printLabel
  {
    forall k | 0 <= k < |picked|
      ensures exists j :: 0 <= j < |rows| && rows[j].id == picked[k].id && rows[j].printLabel
    {
      assert picked[k] in rows;
      var j :| 0 <= j < |rows| && rows[j] == picked[k];
    }
    assert forall k | 0 <= k < |picked| :: exists j :: 0 <= j < |rows| && rows[j].id == picked[k].id && rows[j].printLabel;
  }

  /** The pipeline has at most ten rows, so the cap of twenty labels it
      offers never takes effect: every printable row is offered. */
  lemma PipelineLabelsUncapped(rows: seq<PipelineRow>)
    requires |rows| <= PIPELINE_SIZE
    ensures forall j | 0 <= j < |rows| && rows[j].printLabel :: rows[j].id in ReadyForLabels(rows)
  {
    var picked := FirstN(rows, Printed, PRINT_LABEL_LIMIT);
    var ids := ReadyForLabels(rows);
    assert |picked| <= |rows| by {
      PickedWithin(rows, Printed, PRINT_LABEL_LIMIT);
    }
    forall j | 0 <= j < |rows| && rows[j].printLabel
      ensures rows[j].id in ids
    {
      assert rows[j] in picked;
      var k :| 0 <= k < |picked| && picked[k] == rows[j];
      assert ids[k] == rows[j].id;
    }
  }

  lemma {:induction false} PickedWithin<T>(rows: seq<T>, p: T -> bool, n: nat)
    ensures |FirstN(rows, p, n)| <= |rows|
    decreases |rows|
  {
    if rows != [] && n != 0 {
      PickedWithin(rows[1..], p, if p(rows[0]) then n - 1 else n);
    }
  }

  /** Order ids of the seller's own orders. */
  function OwnedBy(om: map<string, Order>, userId: string): string -> bool
  {
    (id: string) => id in om && om[id].sellerId == Some(userId)
  }

  /** Order ids of the seller's own orders among the requested ones, or
      among all of them when none is requested. */
  function Printable(om: map<string, Order>, userId: string, ids: seq<string>): string -> bool
  {
    (id: string) => id in om && om[id].sellerId == Some(userId) && (ids == [] || id in ids)
  }

  /** One pipeline row per order id, in order. */
  function RowsOf(om: map<string, Order>, ids: seq<string>): (rows: seq<PipelineRow>)
    requires forall k | 0 <= k < |ids| :: ids[k] in om
    ensures |rows| == |ids| && forall k | 0 <= k < |ids| :: rows[k] == RowOf(ids[k], om[ids[k]])
  {
    seq(|ids|, k requires 0 <= k < |ids| => RowOf(ids[k], om[ids[k]]))
  }

  /** The pipeline part of the seller overview. */
  datatype Overview = Overview(latestOrders: seq<PipelineRow>, readyForLabels: seq<string>)

  datatype UpdateResult = UpdateResult(id: string, status: string, order: Order, statusChanged: bool)

  class SellerOrderController {
    const book: OrderBook
    const users: UserDirectory

    constructor (book: OrderBook, users: UserDirectory)
      ensures this.book == book && this.users == users
    {
      this.book := book;
      this.users := users;
    }

    predicate IsSeller(userId: string)
      reads users
    {
      userId in users.users && users.users[userId].role == Role.Seller
    }

    /** The seller's latest orders, as ranked by placing then creation time
        (given, newest first), with their actions, and the ids of those
        ready for labels. */
    function Pipeline(userId: string, ranked: seq<string>): (r: Reply<Overview>)
      reads this, book, users
      ensures !IsSeller(userId) <==> r == Refused(403, SELLER_ONLY)
      ensures r.Ok? ==> |r.body.latestOrders| <= PIPELINE_SIZE
      ensures r.Ok? ==>
                var all := Filter(ranked, OwnedBy(book.orders, userId));
                var rows := r.body.latestOrders;
                && |rows| == (if |all| < PIPELINE_SIZE then |all| else PIPELINE_SIZE)
                && forall k | 0 <= k < |rows| :: rows[k].id == all[k]
      ensures r.Ok? ==> forall k | 0 <= k < |r.body.latestOrders| ::
                var id := r.body.latestOrders[k].id;
                id in book.orders && book.orders[id].sellerId == Some(userId)
                && r.body.latestOrders[k] == RowOf(id, book.orders[id])
      ensures r.Ok? ==> r.body.readyForLabels == ReadyForLabels(r.body.latestOrders)
      ensures r.Ok? ==> forall k | 0 <= k < |r.body.latestOrders| && r.body.latestOrders[k].printLabel ::
                r.body.latestOrders[k].id in r.body.readyForLabels
    {
      if !IsSeller(userId) then Refused(403, SELLER_ONLY)
      else
        var om := book.orders;
        var mine := FirstN(ranked, OwnedBy(om, userId), PIPELINE_SIZE);
        FirstNIsPrefix(ranked, OwnedBy(om, userId), PIPELINE_SIZE);
        var rows := RowsOf(om, mine);
        PipelineLabelsUncapped(rows);
        Ok(Overview(rows, ReadyForLabels(rows)))
    }

    /** The orders to print labels for: the seller's orders among the
        requested ids (all of them when none is requested), newest first,
        at most twenty. */
    function PrintLabels(userId: string, requested: seq<string>, ranked: seq<string>): (r: Reply<seq<string>>)
      reads this, book, users
      ensures !IsSeller(userId) <==> r == Refused(403, SELLER_ONLY)
      ensures r.Ok? ==> |r.body| <= PRINT_LABEL_LIMIT
      ensures r.Ok? ==>
                var all := Filter(ranked, Printable(book.orders, userId, DistinctIds(requested)));
                r.body == if |all| < PRINT_LABEL_LIMIT then all else all[..PRINT_LABEL_LIMIT]
      ensures r.Ok? ==> forall k | 0 <= k < |r.body| ::
                r.body[k] in ranked && r.body[k] in book.orders && book.orders[r.body[k]].sellerId == Some(userId)
                && (DistinctIds(requested) == [] || r.body[k] in requested)
      ensures r.Ok? && |r.body| < PRINT_LABEL_LIMIT ==>
                forall j | 0 <= j < |ranked| && ranked[j] in book.orders && book.orders[ranked[j]].sellerId == Some(userId)
                                              && (DistinctIds(requested) == [] || ranked[j] in DistinctIds(requested)) ::
                  ranked[j] in r.body
    {
      if !IsSeller(userId) then Refused(403, SELLER_ONLY)
      else
        var om := book.orders;
        var ids := DistinctIds(requested);
        FirstNIsPrefix(ranked, Printable(om, userId, ids), PRINT_LABEL_LIMIT);
        Ok(FirstN(ranked, Printable(om, userId, ids), PRINT_LABEL_LIMIT))
    }

    /** Sets the stage a seller chose: its status (ready to ship stays
        processing), the journey stamp and the current stage. The stamp is
        the current time as text. */
    method Update(userId: string, orderId: string, status: Option<string>, stamp: string) returns (r: Reply<UpdateResult>)
      modifies book`orders
      ensures orderId !in old(book.orders) ==> r == Refused(404, NOT_FOUND)
      ensures orderId in old(book.orders) && (!IsSeller(userId) || old(book.orders[orderId].sellerId) != Some(userId)) ==>
                r == Refused(403, NOT_ALLOWED)
      ensures orderId in old(book.orders) && IsSeller(userId) && old(book.orders[orderId].sellerId) == Some(userId)
              && (status.None? || status.value !in SELLER_STATUSES) ==>
                r == Refused(422, INVALID)
      ensures r.Ok? <==> orderId in old(book.orders) && IsSeller(userId) && old(book.orders[orderId].sellerId) == Some(userId)
                         && status.Some? && status.value in SELLER_STATUSES
      ensures r.Refused? ==> book.orders == old(book.orders)
      ensures r.Ok? ==>
                && orderId in old(book.orders) && status.Some? && status.value in SELLER_STATUSES
                && var o := old(book.orders[orderId]);
                   var display := Lower(status.value);
                   var u := Staged(o, display, ToInternal(display).GetOr(o.status), stamp);
                   && book.orders == old(book.orders)[orderId := u]
                   && r.body == UpdateResult(orderId, display, u, u.status != o.status)
    {
      if orderId !in book.orders {
        return Refused(404, NOT_FOUND);
      }
      var order := book.orders[orderId];
      if !IsSeller(userId) || order.sellerId != Some(userId) {
        return Refused(403, NOT_ALLOWED);
      }
      if status.None? || status.value !in SELLER_STATUSES {
        return Refused(422, INVALID);
      }
      var display := Lower(status.value);
      var internal := ToInternal(display).GetOr(order.status);
      var originalStatus := order.status;
      var journey := JourneyOf(order.metadata);
      journey := journey[display := Str(stamp)];
      var metadata := order.metadata["journey" := Obj(journey)];
      metadata := metadata["current_stage" := Str(display)];
      order := order.(status := internal, metadata := metadata);
      book.orders := book.orders[orderId := order];
      r := Ok(UpdateResult(orderId, display, order, order.status != originalStatus));
    }
  }
}
