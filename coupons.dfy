/** Coupons: the window in which a coupon is active, the per-user usage
    limit, the checkout estimate of a coupon's discount, and the coupons
    and coupon_usages tables that order placement writes to. */
module Coupons {
  import opened Wrappers
  import opened Text
  import opened Market

  datatype CouponType = Percentage | FixedAmount | FreeShipping
  datatype CouponStatus = Draft | Scheduled | Active | Expired | Archived

  datatype Coupon = Coupon(
    code: string,
    title: string,
    kind: CouponType,
    value: nat,
    minOrderAmount: nat,
    maxDiscountAmount: Option<nat>,
    usageLimit: Option<nat>,
    usageLimitPerUser: Option<nat>,
    usageCount: nat,
    status: CouponStatus,
    startsAt: Option<int>,
    endsAt: Option<int>)

  /** A row of coupon_usages; couponId is the coupon's position. */
  datatype CouponUsage = CouponUsage(userId: string, couponId: nat, orderId: Option<string>)

  /** The active scope: status active, started (inclusive), not ended
      (inclusive), and below its usage limit when it has one. */
  predicate IsActive(c: Coupon, now: int)
  {
    && c.status == Active
    && (c.startsAt.None? || c.startsAt.value <= now)
    && (c.endsAt.None? || c.endsAt.value >= now)
    && (c.usageLimit.None? || c.usageCount < c.usageLimit.value)
  }

  /** Both ends of the window belong to it, and a coupon whose limit is
      reached, or is zero, is never active. */
  lemma ActiveWindow(c: Coupon, now: int)
    requires c.status == Active
    ensures c.usageLimit.None? && c.startsAt == Some(now) && c.endsAt.None? ==> IsActive(c, now)
    ensures c.usageLimit.None? && c.endsAt == Some(now) && c.startsAt.None? ==> IsActive(c, now)
    ensures c.usageLimit.Some? && c.usageCount >= c.usageLimit.value ==> !IsActive(c, now)
    ensures c.usageLimit == Some(0) ==> !IsActive(c, now)
    ensures c.startsAt.Some? && now < c.startsAt.value ==> !IsActive(c, now)
    ensures c.endsAt.Some? && c.endsAt.value < now ==> !IsActive(c, now)
  {
  }

  /** The number of times a user has used a coupon. */
  function UsageCount(us: seq<CouponUsage>, userId: string, couponId: nat): nat
  {
    if us == [] then 0
    else UsageCount(us[..|us| - 1], userId, couponId)
         + (if us[|us| - 1].userId == userId && us[|us| - 1].couponId == couponId then 1 else 0)
  }

  lemma UsageCountAppend(us: seq<CouponUsage>, u: CouponUsage, userId: string, couponId: nat)
    ensures UsageCount(us + [u], userId, couponId)
            == UsageCount(us, userId, couponId) + (if u.userId == userId && u.couponId == couponId then 1 else 0)
  {
    assert (us + [u])[..|us|] == us;
  }

  /** A user may still use a coupon without a per-user limit, or below it. */
  predicate WithinUserLimit(c: Coupon, used: nat)
  {
    c.usageLimitPerUser.None? || used < c.usageLimitPerUser.value
  }

  /** `r` is x / 100 rounded to the nearest integer, halves away from zero,
      as PHP's round() does. */
  predicate RoundsTo(x: int, r: int)
  {
    && (x >= 0 ==> 100 * r <= x + 50 < 100 * r + 100)
    && (x < 0 ==> 100 * -r <= -x + 50 < 100 * -r + 100)
  }

  /** At most one integer is the rounding of x / 100. */
  lemma RoundsToUnique(x: int, r: int, q: int)
    requires RoundsTo(x, r) && RoundsTo(x, q)
    ensures r == q
  {
  }

  /** round() of a PHP float, halves away from zero, of x / 100. */
  function RoundHundredth(x: int): (r: int)
    ensures RoundsTo(x, r)
    ensures x >= 0 ==> r >= 0
    ensures x < 0 ==> r <= 0
  {
    if x >= 0 then (x + 50) / 100 else -((-x + 50) / 100)
  }

  /** The checkout estimate. */
  datatype Summary = Summary(eligible: bool, messages: seq<string>, estimatedDiscount: int)

  const RUPEE := "\U{0930}\U{0941}"
  const FREE_SHIPPING_MESSAGE := "Shipping will be free at checkout."

  function MinimumMessage(amount: nat): string
  {
    "Requires minimum order of " + RUPEE + " " + GroupThousands(amount)
  }

  function DiscountMessage(amount: nat): string
  {
    "Estimated discount: " + RUPEE + " " + GroupThousands(amount)
  }

  /** The discount before it is clamped to the order value. */
  function RawDiscount(c: Coupon, orderValue: int): (d: int)
    ensures c.kind == FixedAmount ==> d == c.value
    ensures c.kind == FreeShipping ==> d == 0
    ensures c.kind == Percentage && orderValue >= 0 ==> 0 <= d
    ensures c.kind == Percentage && c.maxDiscountAmount.Some? && c.maxDiscountAmount.value > 0 ==>
              d <= c.maxDiscountAmount.value
    ensures c.kind == Percentage && (c.maxDiscountAmount.None? || c.maxDiscountAmount.value == 0) ==>
              RoundsTo(orderValue * c.value, d)
    ensures c.kind == Percentage && c.maxDiscountAmount.Some? && c.maxDiscountAmount.value > 0 ==>
              forall r | RoundsTo(orderValue * c.value, r) ::
                d == if c.maxDiscountAmount.value < r then c.maxDiscountAmount.value else r
  {
    match c.kind
    case Percentage =>
      var d := RoundHundredth(orderValue * c.value);
      if c.maxDiscountAmount.Some? && c.maxDiscountAmount.value != 0 && c.maxDiscountAmount.value < d
      then c.maxDiscountAmount.value else d
    case FixedAmount => c.value
    case FreeShipping => 0
  }

  /** The estimate for an order total (None when the request carried no
      numeric total): ineligible below a positive minimum, otherwise the
      discount clamped to the order value. */
  function BuildSummary(c: Coupon, orderTotal: Option<int>): (s: Summary)
    ensures !s.eligible <==> c.minOrderAmount > 0 && (orderTotal.None? || orderTotal.value < c.minOrderAmount)
    ensures !s.eligible ==> s.estimatedDiscount == 0 && s.messages == [MinimumMessage(c.minOrderAmount)]
    ensures orderTotal.None? ==> s.estimatedDiscount == 0
    ensures s.eligible && orderTotal.Some? ==>
              && s.estimatedDiscount <= orderTotal.value
              && (orderTotal.value >= 0 ==> s.estimatedDiscount >= 0)
              && s.estimatedDiscount == (var raw := RawDiscount(c, orderTotal.value);
                                         if raw > orderTotal.value then orderTotal.value else raw)
              && |s.messages| == (if c.kind == FreeShipping then 1 else 0) + (if s.estimatedDiscount > 0 then 1 else 0)
              && (c.kind == FreeShipping ==> s.messages[0] == FREE_SHIPPING_MESSAGE)
              && (s.estimatedDiscount > 0 ==> s.messages[|s.messages| - 1] == DiscountMessage(s.estimatedDiscount))
  {
    if c.minOrderAmount > 0 && (orderTotal.None? || orderTotal.value < c.minOrderAmount) then
      Summary(false, [MinimumMessage(c.minOrderAmount)], 0)
    else if orderTotal.None? then
      Summary(true, [], 0)
    else
      var orderValue := orderTotal.value;
      var raw := RawDiscount(c, orderValue);
      var discount := if raw > orderValue then orderValue else raw;
      var shipping := if c.kind == FreeShipping then [FREE_SHIPPING_MESSAGE] else [];
      var estimate := if discount > 0 then [DiscountMessage(discount)] else [];
      Summary(true, shipping + estimate, discount)
  }

  /** For a non-negative order that meets the minimum, the estimate is
      between zero and the order value, a capped percentage coupon gives at
      most its cap, and a fixed coupon gives its value or the whole order. */
  lemma DiscountWithinOrder(c: Coupon, order: nat)
    requires !(c.minOrderAmount > 0 && order < c.minOrderAmount)
    ensures 0 <= BuildSummary(c, Some(order)).estimatedDiscount <= order
    ensures c.kind == Percentage && c.maxDiscountAmount.Some? && c.maxDiscountAmount.value > 0 ==>
              BuildSummary(c, Some(order)).estimatedDiscount <= c.maxDiscountAmount.value
    ensures c.kind == FixedAmount ==>
              BuildSummary(c, Some(order)).estimatedDiscount == if c.value < order then c.value else order
  {
  }

  /** The coupons and coupon_usages tables; a row's id is its position. */
  class CouponBook {
    var coupons: seq<Coupon>
    var usages: seq<CouponUsage>

    /** Codes are unique and every usage names a coupon. */
    ghost predicate Valid()
      reads this
    {
      && (forall i, j | 0 <= i < j < |coupons| :: coupons[i].code != coupons[j].code)
      && (forall k | 0 <= k < |usages| :: usages[k].couponId < |coupons|)
    }

    constructor (coupons: seq<Coupon>)
      requires forall i, j | 0 <= i < j < |coupons| :: coupons[i].code != coupons[j].code
      ensures Valid() && this.coupons == coupons && usages == []
    {
      this.coupons := coupons;
      usages := [];
    }

    /** The coupon stored under a code, if any. */
    function ByCode(code: string): (r: Option<nat>)
      reads this
      requires Valid()
      ensures r.Some? ==> r.value < |coupons| && coupons[r.value].code == code
      ensures r.None? ==> forall j | 0 <= j < |coupons| :: coupons[j].code != code
    {
      FirstWhere(coupons, (c: Coupon) => c.code == code)
    }

    /** Records that a user used a coupon on an order and counts it. */
    method RecordUsage(couponId: nat, userId: string, orderId: string)
      requires Valid() && couponId < |coupons|
      modifies this
      ensures Valid()
      ensures usages == old(usages) + [CouponUsage(userId, couponId, Some(orderId))]
      ensures coupons == old(coupons)[couponId := old(coupons[couponId]).(usageCount := old(coupons[couponId].usageCount) + 1)]
      ensures UsageCount(usages, userId, couponId) == old(UsageCount(usages, userId, couponId)) + 1
    {
      var u := CouponUsage(userId, couponId, Some(orderId));
      UsageCountAppend(usages, u, userId, couponId);
      var c := coupons[couponId].(usageCount := coupons[couponId].usageCount + 1);
      var cs := coupons[couponId := c];
      assert forall i | 0 <= i < |cs| :: cs[i].code == coupons[i].code;
      var us := usages + [u];
      assert forall k | 0 <= k < |us| :: us[k].couponId < |cs|;
      usages := us;
      coupons := cs;
    }
  }

  /** One coupon as listed or validated, with the caller's usage count. */
  datatype Listed = Listed(couponId: nat, coupon: Coupon, userUsageCount: nat)
  datatype Validated = Validated(listed: Listed, summary: Summary)

  class CouponController {
    const book: CouponBook

    constructor (book: CouponBook)
      ensures this.book == book
    {
      this.book := book;
    }

    /** Active coupons, optionally of one type, without those the caller
        has used up. */
    function Index(userId: Option<string>, kind: Option<CouponType>, now: int): (r: seq<Listed>)
      reads book
      ensures forall k | 0 <= k < |r| ::
                && r[k].couponId < |book.coupons| && r[k].coupon == book.coupons[r[k].couponId]
                && IsActive(r[k].coupon, now)
                && (kind.None? || r[k].coupon.kind == kind.value)
                && (userId.Some? ==> WithinUserLimit(r[k].coupon, UsageCount(book.usages, userId.value, r[k].couponId)))
      ensures forall j | 0 <= j < |book.coupons| ::
                (&& IsActive(book.coupons[j], now)
                 && (kind.None? || book.coupons[j].kind == kind.value)
                 && (userId.Some? ==> WithinUserLimit(book.coupons[j], UsageCount(book.usages, userId.value, j))))
                ==> exists k :: 0 <= k < |r| && r[k].couponId == j
    {
      ListFrom(book.coupons, book.usages, userId, kind, now, 0)
    }

    /** Checks a code for the caller and estimates its discount. */
    function ValidateCode(userId: Option<string>, code: string, orderTotal: Option<int>, now: int): (r: Reply<Validated>)
      reads book
      requires book.Valid()
      ensures !Truthy(code) ==> r == Refused(422, "Coupon code is required.")
      ensures Truthy(code) ==>
                (r == Refused(404, "Coupon is invalid or expired.") <==>
                   forall j | 0 <= j < |book.coupons| :: !(book.coupons[j].code == Upper(code) && IsActive(book.coupons[j], now)))
      ensures r == Refused(403, "You have reached the usage limit for this coupon.") ==> userId.Some?
      ensures Truthy(code) ==>
                forall j | 0 <= j < |book.coupons| && book.coupons[j].code == Upper(code) && IsActive(book.coupons[j], now) ::
                  && ((userId.None? || WithinUserLimit(book.coupons[j], UsageCount(book.usages, userId.value, j)))
                      ==> r.Ok? && r.body.listed.couponId == j)
                  && ((userId.Some? && !WithinUserLimit(book.coupons[j], UsageCount(book.usages, userId.value, j)))
                      ==> r == Refused(403, "You have reached the usage limit for this coupon."))
      ensures r.Ok? ==>
                var id := r.body.listed.couponId;
                && id < |book.coupons| && book.coupons[id].code == Upper(code) && IsActive(book.coupons[id], now)
                && (userId.Some? ==> WithinUserLimit(book.coupons[id], UsageCount(book.usages, userId.value, id)))
                && r.body.summary == BuildSummary(book.coupons[id], orderTotal)
    {
      if !Truthy(code) then Refused(422, "Coupon code is required.")
      else
        var found := FirstWhere(book.coupons, (c: Coupon) => c.code == Upper(code) && IsActive(c, now));
        if found.None? then Refused(404, "Coupon is invalid or expired.")
        else
          var id := found.value;
          var c := book.coupons[id];
          var used := if userId.Some? then UsageCount(book.usages, userId.value, id) else 0;
          if userId.Some? && !WithinUserLimit(c, used) then Refused(403, "You have reached the usage limit for this coupon.")
          else Ok(Validated(Listed(id, c, used), BuildSummary(c, orderTotal)))
    }
  }

  /** The listing from position `from` on. */
  function ListFrom(cs: seq<Coupon>, us: seq<CouponUsage>, userId: Option<string>, kind: Option<CouponType>, now: int, start: nat)
    : (r: seq<Listed>)
    requires start <= |cs|
    ensures forall k | 0 <= k < |r| ::
              && start <= r[k].couponId < |cs| && r[k].coupon == cs[r[k].couponId]
              && IsActive(r[k].coupon, now)
              && (kind.None? || r[k].coupon.kind == kind.value)
              && (userId.Some? ==> WithinUserLimit(r[k].coupon, UsageCount(us, userId.value, r[k].couponId)))
    ensures forall j | start <= j < |cs| ::
              (&& IsActive(cs[j], now)
               && (kind.None? || cs[j].kind == kind.value)
               && (userId.Some? ==> WithinUserLimit(cs[j], UsageCount(us, userId.value, j))))
              ==> exists k :: 0 <= k < |r| && r[k].couponId == j
    decreases |cs| - start
  {
    if start == |cs| then []
    else
      var rest := ListFrom(cs, us, userId, kind, now, start + 1);
      var c := cs[start];
      var used := if userId.Some? then UsageCount(us, userId.value, start) else 0;
      if IsActive(c, now) && (kind.None? || c.kind == kind.value) && (userId.None? || WithinUserLimit(c, used))
      then
        var r := [Listed(start, c, used)] + rest;
        assert forall k | 0 <= k < |rest| :: r[k + 1] == rest[k];
        assert forall k | 0 <= k < |r| :: k == 0 || r[k] == rest[k - 1];
        forall k | 0 <= k < |rest|
          ensures exists i :: 0 <= i < |r| && r[i].couponId == rest[k].couponId
        {
          assert r[k + 1] == rest[k];
        }
        assert r[0].couponId == start;
        r
      else rest
  }
}
