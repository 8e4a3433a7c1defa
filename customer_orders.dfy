/** The customer's order endpoints: placing an order (its items, line
    totals and coupon usage), reading one's own order, and updating its
    status and payment details, which grants loyalty points when the order
    first reaches paid or processing. */
module CustomerOrders {
  import opened Wrappers
  import opened Text
  import opened Market
  import opened Coupons
  import opened Points

  const NOT_ALLOWED := "You are not allowed to modify this order."
  const MAX_REFERENCE: nat := 255
  /** The length of the random part of a customer's order number. */
  const TOKEN_LENGTH: nat := 10

  datatype ProductImage = ProductImage(url: string, isPrimary: bool)

  /** A row of products with the seller's name and the product's images. */
  datatype Product = Product(id: string, ownerId: string, title: string, sellerName: Option<string>, images: seq<ProductImage>)

  datatype LineRequest = LineRequest(productId: string, quantity: nat, unitPrice: nat)
  datatype Contact = Contact(firstName: string, lastName: string, email: string, phone: string)
  datatype ShippingRequest = ShippingRequest(address: string, city: string, district: string, notes: Option<string>)
  datatype PaymentRequest = PaymentRequest(paymentMethod: string, status: Option<string>, reference: Option<string>)

  /** The validated body of an order placement. */
  datatype StoreRequest = StoreRequest(
    contact: Contact,
    shipping: ShippingRequest,
    billing: Option<map<string, Value>>,
    payment: PaymentRequest,
    subtotal: nat,
    discount: nat,
    shippingTotal: nat,
    tax: nat,
    total: nat,
    coupon: Option<string>,
    notes: Option<string>,
    deliveryDate: Option<int>,
    deliveryTime: Option<string>,
    items: seq<LineRequest>)

  function OptText(s: Option<string>): Value
  {
    if s.Some? then Str(s.value) else Null
  }

  /** The url of the first primary image, else of the first image. */
  function ImageOf(images: seq<ProductImage>): (r: Option<string>)
    ensures r.None? <==> images == []
    ensures (exists k :: 0 <= k < |images| && images[k].isPrimary) ==>
              exists k :: 0 <= k < |images| && images[k].isPrimary && r == Some(images[k].url)
    ensures (forall k | 0 <= k < |images| :: !images[k].isPrimary) && images != [] ==> r == Some(images[0].url)
  {
    var primary := FirstWhere(images, (i: ProductImage) => i.isPrimary);
    if primary.Some? then Some(images[primary.value].url)
    else if images == [] then None
    else Some(images[0].url)
  }

  /** The product of a line, looked up among the table's rows. */
  function ProductOf(products: seq<Product>, id: string): (r: Option<Product>)
    ensures r.Some? ==> r.value in products && r.value.id == id
    ensures r.None? ==> forall k | 0 <= k < |products| :: products[k].id != id
  {
    var k := FirstWhere(products, (p: Product) => p.id == id);
    if k.Some? then Some(products[k.value]) else None
  }

  /** The snapshot kept on an item; null fields where the product is gone. */
  function Snapshot(p: Option<Product>): (s: map<string, Value>)
    ensures s.Keys == {"name", "title", "vendor", "image"}
    ensures p.Some? ==> s["name"] == Str(p.value.title) && s["title"] == Str(p.value.title)
    ensures p.None? ==> forall k | k in s :: s[k] == Null
  {
    if p.None? then map["name" := Null, "title" := Null, "vendor" := Null, "image" := Null]
    else
      var q := p.value;
      map["name" := Str(q.title), "title" := Str(q.title), "vendor" := OptText(q.sellerName), "image" := OptText(ImageOf(q.images))]
  }

  /** The item row created for one requested line. */
  function LineFor(orderId: string, line: LineRequest, products: seq<Product>): (it: OrderItem)
    ensures it.orderId == orderId && it.productId == line.productId
    ensures it.quantity == Some(line.quantity) && it.unitPrice == Some(line.unitPrice)
    ensures it.lineTotal == line.quantity * line.unitPrice
  {
    OrderItem(orderId, line.productId, Some(line.quantity), Some(line.unitPrice), line.quantity * line.unitPrice,
              Snapshot(ProductOf(products, line.productId)))
  }

  /** The seller of an order: the owner of the first product row that some
      line names, or none when no line names a known product. */
  function SellerOf(products: seq<Product>, lines: seq<LineRequest>): (r: Option<string>)
    ensures r.Some? <==> exists k, j :: 0 <= k < |products| && 0 <= j < |lines| && products[k].id == lines[j].productId
    ensures r.Some? ==> exists k, j :: 0 <= k < |products| && 0 <= j < |lines| && products[k].id == lines[j].productId
                                       && r.value == products[k].ownerId
  {
    var ids := set j | 0 <= j < |lines| :: lines[j].productId;
    var k := FirstWhere(products, (p: Product) => p.id in ids);
    if k.Some? then Some(products[k.value].ownerId) else None
  }

  function ShippingAddressOf(c: Contact, s: ShippingRequest): map<string, Value>
  {
    map["name" := Str(Trim(c.firstName + " " + c.lastName)), "email" := Str(c.email), "phone" := Str(c.phone),
        "address" := Str(s.address), "city" := Str(s.city), "district" := Str(s.district), "notes" := OptText(s.notes)]
  }

  /** The order's metadata: coupon, payment method, payment status (pending
      when not sent), reference and notes. The request's own `metadata` key
      has no validation rule, so the validated data never carries it and the
      merge adds nothing. */
  function MetadataOf(req: StoreRequest): (m: Metadata)
    ensures m.Keys == {"coupon", "payment_method", "payment_status", "payment_reference", "notes"}
    ensures m["payment_status"] == Str(req.payment.status.GetOr("pending"))
    ensures m["payment_method"] == Str(req.payment.paymentMethod)
    ensures m["coupon"] == OptText(req.coupon) && m["payment_reference"] == OptText(req.payment.reference)
    ensures m["notes"] == OptText(req.notes)
  {
    map["coupon" := OptText(req.coupon), "payment_method" := Str(req.payment.paymentMethod),
        "payment_status" := Str(req.payment.status.GetOr("pending")),
        "payment_reference" := OptText(req.payment.reference), "notes" := OptText(req.notes)]
  }

  predicate AtMost(s: Option<string>, n: nat) { s.None? || |s.value| <= n }

  /** The start of the day holding `t`: what `today` means to a date rule. */
  function StartOfDay(t: int): (d: int)
    ensures d <= t < d + DAY && d % DAY == 0
  {
    t - t % DAY
  }

  /** `[0-5][0-9]`: the minutes of a clock time. */
  predicate Minutes(m: string)
  {
    |m| == 2 && '0' <= m[0] <= '5' && IsDigit(m[1])
  }

  /** `([0-1]?[0-9]|2[0-3]):[0-5][0-9]` on the whole text. */
  predicate ClockTime(s: string)
  {
    || (|s| == 4 && IsDigit(s[0]) && s[1] == ':' && Minutes(s[2..]))
    || (|s| == 5 && s[2] == ':' && Minutes(s[3..])
        && (('0' <= s[0] <= '1' && IsDigit(s[1])) || (s[0] == '2' && '0' <= s[1] <= '3')))
  }

  /** The `regex:/^([0-1]?[0-9]|2[0-3]):[0-5][0-9]$/` rule. Without the `D`
      modifier, PHP's `$` also matches before one final newline. */
  predicate DeliveryTimeRule(s: string)
  {
    ClockTime(s) || (|s| > 0 && s[|s| - 1] == '\n' && ClockTime(s[..|s| - 1]))
  }

  /** Clock times the rule accepts and refuses. */
  lemma DeliveryTimeExamples()
    ensures DeliveryTimeRule("9:05") && DeliveryTimeRule("09:05") && DeliveryTimeRule("23:59")
    ensures DeliveryTimeRule("12:30\n")
    ensures !DeliveryTimeRule("25:00") && !DeliveryTimeRule("24:00") && !DeliveryTimeRule("12:60")
    ensures !DeliveryTimeRule("123:00") && !DeliveryTimeRule("12:30\n\n")
  {
    assert "9:05"[2..] == "05" && "09:05"[3..] == "05" && "23:59"[3..] == "59";
    assert "12:30\n"[..5] == "12:30" && "12:30"[3..] == "30";
    assert "12:60"[3..] == "60";
    assert "12:30\n\n"[..6] == "12:30\n";
  }

  /** A `nullable|string|max:n` rule on one key of an optional object. */
  predicate TextAtMost(m: Option<map<string, Value>>, key: string, n: nat)
  {
    m.None? || key !in m.value || m.value[key].Null? || (m.value[key].Str? && |m.value[key].s| <= n)
  }

  /** The rules of an order placement that the model can state: required
      texts present and within their lengths, the optional billing texts
      within theirs, the enumerated payment method and status, a delivery
      date no earlier than today and a delivery time of day, at least one
      line, every line naming a stored product with a quantity of at least
      one. */
  predicate StoreValid(req: StoreRequest, products: seq<Product>, now: int)
  {
    && Filled(req.contact.firstName) && |req.contact.firstName| <= 120
    && Filled(req.contact.lastName) && |req.contact.lastName| <= 120
    && Filled(req.contact.email) && |req.contact.email| <= 255
    && Filled(req.contact.phone) && |req.contact.phone| <= 30
    && Filled(req.shipping.address) && |req.shipping.address| <= 500
    && Filled(req.shipping.city) && |req.shipping.city| <= 120
    && Filled(req.shipping.district) && |req.shipping.district| <= 120
    && AtMost(req.shipping.notes, 500)
    && TextAtMost(req.billing, "address", 500) && TextAtMost(req.billing, "city", 120)
    && TextAtMost(req.billing, "district", 120)
    && req.payment.paymentMethod in {"khalti", "esewa", "card", "cod"}
    && (req.payment.status.None? || req.payment.status.value in {"pending", "paid", "failed"})
    && AtMost(req.payment.reference, MAX_REFERENCE)
    && AtMost(req.coupon, 120) && AtMost(req.notes, 500)
    && (req.deliveryDate.None? || req.deliveryDate.value >= StartOfDay(now))
    && (req.deliveryTime.None? || DeliveryTimeRule(req.deliveryTime.value))
    && |req.items| >= 1
    && forall j | 0 <= j < |req.items| ::
         req.items[j].quantity >= 1 && exists k :: 0 <= k < |products| && products[k].id == req.items[j].productId
  }

  /** The order row a placement creates: pending, not yet payout eligible,
      with the sent totals. */
  function NewOrder(userId: string, req: StoreRequest, products: seq<Product>, token: string, now: int): (o: Order)
    requires |token| == TOKEN_LENGTH
    ensures |o.orderNumber| == 4 + TOKEN_LENGTH
    ensures o.userId == userId && o.status == Pending && !o.payoutEligible
    ensures o.sellerId == SellerOf(products, req.items)
    ensures o.orderNumber == "ORD-" + Upper(token)
    ensures o.subtotal == req.subtotal && o.discountTotal == req.discount && o.shippingTotal == req.shippingTotal
            && o.taxTotal == req.tax && o.grandTotal == req.total
    ensures o.placedAt == Some(now)
  {
    Order(userId, SellerOf(products, req.items), "ORD-" + Upper(token), Pending,
          req.subtotal, req.tax, req.shippingTotal, req.discount, req.total,
          Some(ShippingAddressOf(req.contact, req.shipping)), req.billing, MetadataOf(req),
          Some(now), req.deliveryDate, req.deliveryTime, false, None, None)
  }

  /** The items a placement creates, one per requested line, in order. */
  function LinesFor(orderId: string, lines: seq<LineRequest>, products: seq<Product>): (rows: seq<OrderItem>)
    ensures |rows| == |lines|
    ensures forall k | 0 <= k < |lines| :: rows[k] == LineFor(orderId, lines[k], products)
  {
    seq(|lines|, k requires 0 <= k < |lines| => LineFor(orderId, lines[k], products))
  }

  /** The loop creating one item per requested line. */
  method CreateLines(orderId: string, lines: seq<LineRequest>, products: seq<Product>) returns (rows: seq<OrderItem>)
    ensures rows == LinesFor(orderId, lines, products)
  {
    rows := [];
    for i := 0 to |lines|
      invariant |rows| == i
      invariant forall k | 0 <= k < i :: rows[k] == LineFor(orderId, lines[k], products)
    {
      rows := rows + [LineFor(orderId, lines[i], products)];
    }
  }

  /** The coupons table after one use of the coupon at position `c`. */
  function CountedUse(cs: seq<Coupon>, c: Option<nat>): (r: seq<Coupon>)
    ensures |r| == |cs|
    ensures forall j | 0 <= j < |cs| :: r[j] == if c == Some(j) then cs[j].(usageCount := cs[j].usageCount + 1) else cs[j]
  {
    if c.Some? && c.value < |cs| then cs[c.value := cs[c.value].(usageCount := cs[c.value].usageCount + 1)] else cs
  }

  /** The usages table after recording the use of the coupon at `c`, if any. */
  function UsagesAfter(us: seq<CouponUsage>, c: Option<nat>, userId: string, orderId: string): (r: seq<CouponUsage>)
    ensures c.None? ==> r == us
    ensures c.Some? ==> r == us + [CouponUsage(userId, c.value, Some(orderId))]
  {
    if c.Some? then us + [CouponUsage(userId, c.value, Some(orderId))] else us
  }

  /** A coupon code counts when it is not empty in PHP's sense. */
  predicate CouponSent(coupon: Option<string>) { coupon.Some? && Truthy(coupon.value) }

  /** The validated body of an order update; an absent field is None. */
  datatype UpdateRequest = UpdateRequest(status: Option<OrderStatus>, paymentStatus: Option<string>, paymentReference: Option<string>)

  /** The request rules: a customer cannot set paid, and payment status and
      reference are from the allowed values. */
  predicate UpdateValid(req: UpdateRequest)
  {
    && (req.status.None? || req.status.value != Paid)
    && (req.paymentStatus.None? || req.paymentStatus.value in {"pending", "paid", "failed", "refunded"})
    && (req.paymentReference.None? || |req.paymentReference.value| <= MAX_REFERENCE)
  }

  /** The order after an update: the status when sent, and payment status
      and reference written into the metadata when sent, other keys kept. */
  function Updated(o: Order, req: UpdateRequest): (u: Order)
    ensures u.status == req.status.GetOr(o.status)
    ensures forall k | k in o.metadata && k != "payment_status" && k != "payment_reference" :: k in u.metadata && u.metadata[k] == o.metadata[k]
    ensures req.paymentStatus.Some? ==> "payment_status" in u.metadata && u.metadata["payment_status"] == Str(req.paymentStatus.value)
    ensures req.paymentReference.Some? ==> "payment_reference" in u.metadata && u.metadata["payment_reference"] == Str(req.paymentReference.value)
    ensures req.paymentStatus.None? && req.paymentReference.None? ==> u.metadata == o.metadata
    ensures u == o.(status := u.status, metadata := u.metadata)
  {
    var m := o.metadata;
    var m := if req.paymentStatus.Some? then m["payment_status" := Str(req.paymentStatus.value)] else m;
    var m := if req.paymentReference.Some? then m["payment_reference" := Str(req.paymentReference.value)] else m;
    o.(status := req.status.GetOr(o.status), metadata := m)
  }

  /** The rules never let a customer set paid: an order a customer's
      update moves into a paying status goes to processing. */
  lemma CustomerCannotPay(o: Order, req: UpdateRequest)
    requires UpdateValid(req) && o.status != Paid
    ensures Updated(o, req).status != Paid
    ensures PayingStatus(Updated(o, req).status) ==> Updated(o, req).status == Processing
  {
  }

  predicate PayingStatus(s: OrderStatus) { s == Paid || s == Processing }

  /** The earn entry an order grants, when it grants one: on the first move
      into paid or processing, once per order, for a positive total. */
  function OrderPoints(es: seq<PointEntry>, orderId: string, before: OrderStatus, o: Order, now: int): (r: Option<PointEntry>)
    ensures r.Some? <==> (PayingStatus(o.status) && !PayingStatus(before)
                          && !HasEarn(es, o.userId, orderId) && PointsFor(o.grandTotal) > 0)
    ensures r.Some? ==> && r.value.userId == o.userId && r.value.kind == Earn && r.value.orderId == Some(orderId)
                        && r.value.points == PointsFor(o.grandTotal)
                        && r.value.expiresAt == Some(AddMonths(now, EXPIRY_MONTHS))
                        && Admissible(es, r.value) && Unexpired(r.value, now)
  {
    if PayingStatus(o.status) && !PayingStatus(before) && !HasEarn(es, o.userId, orderId) && o.grandTotal > 0 then
      var points := PointsFor(o.grandTotal);
      if points > 0 then
        Some(PointEntry(o.userId, Earn, points, "Earned from order " + o.orderNumber, Some(orderId), None,
                        map["amount_npr" := Num(o.grandTotal)], Some(AddMonths(now, EXPIRY_MONTHS)), now))
      else None
    else None
  }

  /** An order grants points at most once, whatever updates follow. */
  lemma PointsOncePerOrder(es: seq<PointEntry>, orderId: string, before: OrderStatus, o: Order, now: int,
                           before2: OrderStatus, o2: Order, now2: int)
    requires OrderPoints(es, orderId, before, o, now).Some?
    requires o2.userId == o.userId
    ensures OrderPoints(es + [OrderPoints(es, orderId, before, o, now).value], orderId, before2, o2, now2).None?
  {
    var e := OrderPoints(es, orderId, before, o, now).value;
    assert (es + [e])[|es|] == e;
  }

  datatype UpdateResult = UpdateResult(order: Order, statusChanged: bool)

  class CustomerOrderController {
    const book: OrderBook
    const coupons: CouponBook
    const ledger: PointsLedger
    /** The products table, in the order its rows are read. */
    const products: seq<Product>

    constructor (book: OrderBook, coupons: CouponBook, ledger: PointsLedger, products: seq<Product>)
      ensures this.book == book && this.coupons == coupons && this.ledger == ledger && this.products == products
    {
      this.book := book;
      this.coupons := coupons;
      this.ledger := ledger;
      this.products := products;
    }

    /** The coupon a placement names: the one whose code is the sent code
        in upper case, when a code is sent. */
    function CouponOf(coupon: Option<string>): (r: Option<nat>)
      reads coupons
      requires coupons.Valid()
      ensures r.Some? ==> CouponSent(coupon) && r.value < |coupons.coupons| && coupons.coupons[r.value].code == Upper(coupon.value)
      ensures r.None? ==> !CouponSent(coupon) || forall j | 0 <= j < |coupons.coupons| :: coupons.coupons[j].code != Upper(coupon.value)
    {
      if CouponSent(coupon) then coupons.ByCode(Upper(coupon.value)) else None
    }

    /** Counts one use of the named coupon, when there is one. */
    method UseCoupon(userId: string, coupon: Option<string>, orderId: string)
      requires coupons.Valid()
      modifies coupons
      ensures coupons.Valid()
      ensures coupons.coupons == CountedUse(old(coupons.coupons), old(CouponOf(coupon)))
      ensures coupons.usages == UsagesAfter(old(coupons.usages), old(CouponOf(coupon)), userId, orderId)
    {
      var c := CouponOf(coupon);
      if c.Some? {
        coupons.RecordUsage(c.value, userId, orderId);
      }
    }

    /** Places an order for the caller: the order row, one item per line,
        and, when the coupon code names a coupon, one usage of it. A request
        breaking the rules is refused and changes nothing; so is an order
        whose id or number is already stored, which the unique indexes
        reject and the transaction rolls back. The new id and the random
        part of the order number are given. */
    method Store(userId: string, req: StoreRequest, orderId: string, token: string, now: int) returns (r: Reply<Order>)
      requires coupons.Valid() && |token| == TOKEN_LENGTH
      modifies book, coupons
      ensures coupons.Valid()
      ensures !StoreValid(req, products, now) <==> r == Refused(422, INVALID)
      ensures StoreValid(req, products, now) && (orderId in old(book.orders) || NumberUsed(old(book.orders), "ORD-" + Upper(token)))
              ==> r == Refused(500, SERVER_ERROR)
      ensures r.Ok? <==> StoreValid(req, products, now) && orderId !in old(book.orders)
                         && !NumberUsed(old(book.orders), "ORD-" + Upper(token))
      ensures r.Refused? ==> unchanged(book, coupons)
      ensures r.Ok? ==>
                && r.body == NewOrder(userId, req, products, token, now)
                && book.orders == old(book.orders)[orderId := r.body]
                && book.items == old(book.items) + LinesFor(orderId, req.items, products)
                && coupons.coupons == CountedUse(old(coupons.coupons), old(CouponOf(req.coupon)))
                && coupons.usages == UsagesAfter(old(coupons.usages), old(CouponOf(req.coupon)), userId, orderId)
      ensures NumbersUnique(old(book.orders)) ==> NumbersUnique(book.orders)
    {
      if !StoreValid(req, products, now) {
        return Refused(422, INVALID);
      }
      if orderId in book.orders || NumberUsed(book.orders, "ORD-" + Upper(token)) {
        return Refused(500, SERVER_ERROR);
      }
      var o := Insert(userId, req, orderId, token, now);
      r := Ok(o);
    }

    /** The writes of a placement whose order id and number are unused. */
    method Insert(userId: string, req: StoreRequest, orderId: string, token: string, now: int) returns (o: Order)
      requires coupons.Valid() && |token| == TOKEN_LENGTH
      requires orderId !in book.orders && !NumberUsed(book.orders, "ORD-" + Upper(token))
      modifies book, coupons
      ensures coupons.Valid()
      ensures o == NewOrder(userId, req, products, token, now)
      ensures book.orders == old(book.orders)[orderId := o]
      ensures book.items == old(book.items) + LinesFor(orderId, req.items, products)
      ensures coupons.coupons == CountedUse(old(coupons.coupons), old(CouponOf(req.coupon)))
      ensures coupons.usages == UsagesAfter(old(coupons.usages), old(CouponOf(req.coupon)), userId, orderId)
      ensures NumbersUnique(old(book.orders)) ==> NumbersUnique(book.orders)
    {
      o := NewOrder(userId, req, products, token, now);
      if NumbersUnique(book.orders) {
        StoreKeepsNumbersUnique(book.orders, orderId, o);
      }
      var rows := CreateLines(orderId, req.items, products);
      book.Place(orderId, o, rows);
      UseCoupon(userId, req.coupon, orderId);
    }

    /** The caller's own order. */
    function Show(userId: string, orderId: string): (r: Reply<Order>)
      reads book
      ensures orderId !in book.orders ==> r == Refused(404, NOT_FOUND)
      ensures orderId in book.orders && book.orders[orderId].userId != userId ==> r == Refused(403, NOT_ALLOWED)
      ensures r.Ok? <==> orderId in book.orders && book.orders[orderId].userId == userId
      ensures r.Ok? ==> r.body == book.orders[orderId]
    {
      if orderId !in book.orders then Refused(404, NOT_FOUND)
      else if book.orders[orderId].userId != userId then Refused(403, NOT_ALLOWED)
      else Ok(book.orders[orderId])
    }

    /** Updates the caller's order and grants its points on the first move
        into paid or processing. */
    method Update(userId: string, orderId: string, req: UpdateRequest, now: int) returns (r: Reply<UpdateResult>)
      requires ledger.Valid()
      modifies book`orders, ledger`entries
      ensures ledger.Valid()
      ensures orderId !in old(book.orders) ==> r == Refused(404, NOT_FOUND)
      ensures orderId in old(book.orders) && !UpdateValid(req) ==> r == Refused(422, INVALID)
      ensures orderId in old(book.orders) && UpdateValid(req) && old(book.orders[orderId].userId) != userId ==>
                r == Refused(403, NOT_ALLOWED)
      ensures r.Refused? ==> book.orders == old(book.orders) && ledger.entries == old(ledger.entries)
      ensures r.Ok? <==> orderId in old(book.orders) && UpdateValid(req) && old(book.orders[orderId].userId) == userId
      ensures r.Ok? ==>
                var o0 := old(book.orders[orderId]);
                var o := Updated(o0, req);
                var grant := OrderPoints(old(ledger.entries), orderId, o0.status, o, now);
                && book.orders == old(book.orders)[orderId := o]
                && r.body == UpdateResult(o, o.status != o0.status)
                && ledger.entries == old(ledger.entries) + (if grant.Some? then [grant.value] else [])
    {
      if orderId !in book.orders {
        return Refused(404, NOT_FOUND);
      }
      if !UpdateValid(req) {
        return Refused(422, INVALID);
      }
      var order := book.orders[orderId];
      if order.userId != userId {
        return Refused(403, NOT_ALLOWED);
      }
      var originalStatus := order.status;
      var metadata := order.metadata;
      if req.status.Some? {
        order := order.(status := req.status.value);
      }
      if req.paymentStatus.Some? {
        metadata := metadata["payment_status" := Str(req.paymentStatus.value)];
      }
      if req.paymentReference.Some? {
        metadata := metadata["payment_reference" := Str(req.paymentReference.value)];
      }
      order := order.(metadata := metadata);
      book.orders := book.orders[orderId := order];
      var grant := OrderPoints(ledger.entries, orderId, originalStatus, order, now);
      if grant.Some? {
        ledger.Append(grant.value);
      }
      r := Ok(UpdateResult(order, order.status != originalStatus));
    }
  }
}
