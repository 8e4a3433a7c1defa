/** The loyalty-points ledger: an append-only table of typed entries per
    user (earn, redeem, expire, adjust, referral, review), the balance and
    lifetime figures computed from it, and the endpoints that append to it:
    redeem, earn, adjust, the expiry check, referral and review bonuses. */
module Points {
  import opened Wrappers
  import opened Text
  import opened Market

  const EXPIRY_MONTHS: nat := 12
  /** One point per NPR 100. */
  const NPR_PER_POINT: nat := 100
  const REDEEM_UNIT: nat := 100
  const REFERRER_POINTS: nat := 500
  const REFERRED_POINTS: nat := 200
  const REVIEW_POINTS: nat := 50
  const MAX_TEXT: nat := 255


  datatype PointKind = Earn | Redeem | Expire | Adjust | Referral | Review

  /** A row of user_points; its id is its position in the table. */
  datatype PointEntry = PointEntry(
    userId: string,
    kind: PointKind,
    points: int,
    description: string,
    orderId: Option<string>,
    adminNote: Option<string>,
    metadata: Metadata,
    expiresAt: Option<int>,
    createdAt: int)

  /** A row of referrals. */
  datatype ReferralRow = ReferralRow(
    referrerId: string,
    referredId: string,
    code: string,
    pointsAwarded: bool,
    awardedAt: Option<int>)

  /** Earn, referral and review entries add points. */
  predicate IsCredit(k: PointKind) { k == Earn || k == Referral || k == Review }

  /** An entry without an expiry, or whose expiry is still ahead. */
  predicate Unexpired(e: PointEntry, now: int) { e.expiresAt.None? || e.expiresAt.value > now }

  /** The filters the ledger queries sum over. */
  datatype Selector =
    | LiveCredits(user: string, now: int)       // credits not yet expired
    | AllCredits(user: string)                  // credits, expired or not
    | OfKind(user: string, kind: PointKind)     // every entry of one type
    | SpentAfter(user: string, after: int)      // redeem or expire entries created after an instant
    | ExpiredAfter(user: string, after: int)    // expire entries created after an instant
    | ExpiredEarns(user: string, now: int)      // earn entries whose expiry has come

  predicate Counts(sel: Selector, e: PointEntry)
  {
    match sel
    case LiveCredits(u, now) => e.userId == u && IsCredit(e.kind) && Unexpired(e, now)
    case AllCredits(u) => e.userId == u && IsCredit(e.kind)
    case OfKind(u, kind) => e.userId == u && e.kind == kind
    case SpentAfter(u, t) => e.userId == u && (e.kind == Redeem || e.kind == Expire) && e.createdAt > t
    case ExpiredAfter(u, t) => e.userId == u && e.kind == Expire && e.createdAt > t
    case ExpiredEarns(u, now) => e.userId == u && e.kind == Earn && e.expiresAt.Some? && e.expiresAt.value <= now
  }

  /** SUM(points) over the entries a selector keeps. */
  function Total(es: seq<PointEntry>, sel: Selector): int
  {
    if es == [] then 0
    else Total(es[..|es| - 1], sel) + (if Counts(sel, es[|es| - 1]) then es[|es| - 1].points else 0)
  }

  lemma TotalAppend(es: seq<PointEntry>, e: PointEntry, sel: Selector)
    ensures Total(es + [e], sel) == Total(es, sel) + Share(sel, e)
  {
    assert (es + [e])[..|es|] == es;
  }

  /** A sum of entries that are never negative is never negative. */
  lemma {:induction false} TotalNonNegative(es: seq<PointEntry>, sel: Selector)
    requires forall k | 0 <= k < |es| :: Counts(sel, es[k]) ==> es[k].points >= 0
    ensures Total(es, sel) >= 0
  {
    if es != [] {
      TotalNonNegative(es[..|es| - 1], sel);
    }
  }

  /** Unexpired credits, minus redemptions and expiries, plus adjustments. */
  function Net(es: seq<PointEntry>, u: string, now: int): int
  {
    Total(es, LiveCredits(u, now)) - Total(es, OfKind(u, Redeem)) - Total(es, OfKind(u, Expire)) + Total(es, OfKind(u, Adjust))
  }

  /** The balance a user can spend: the net figure, floored at zero. */
  function CurrentPoints(es: seq<PointEntry>, u: string, now: int): (r: nat)
    ensures r >= Net(es, u, now)
    ensures r > 0 ==> r == Net(es, u, now)
  {
    if Net(es, u, now) > 0 then Net(es, u, now) else 0
  }

  /** Every credit ever received, expired or not. */
  function Lifetime(es: seq<PointEntry>, u: string): int
  {
    Total(es, AllCredits(u))
  }

  /** What one entry contributes to a sum. */
  function Share(sel: Selector, e: PointEntry): int
  {
    if Counts(sel, e) then e.points else 0
  }

  /** How one more entry moves a user's net figure. */
  function Delta(e: PointEntry, u: string, now: int): int
  {
    Share(LiveCredits(u, now), e) - Share(OfKind(u, Redeem), e) - Share(OfKind(u, Expire), e) + Share(OfKind(u, Adjust), e)
  }

  lemma NetAppend(es: seq<PointEntry>, e: PointEntry, u: string, now: int)
    ensures Net(es + [e], u, now) == Net(es, u, now) + Delta(e, u, now)
  {
    TotalAppend(es, e, LiveCredits(u, now));
    TotalAppend(es, e, OfKind(u, Redeem));
    TotalAppend(es, e, OfKind(u, Expire));
    TotalAppend(es, e, OfKind(u, Adjust));
  }

  /** An entry of one user leaves every other user's balance alone. */
  lemma OtherUsersUnaffected(es: seq<PointEntry>, e: PointEntry, u: string, now: int)
    requires e.userId != u
    ensures CurrentPoints(es + [e], u, now) == CurrentPoints(es, u, now)
    ensures Lifetime(es + [e], u) == Lifetime(es, u)
  {
    NetAppend(es, e, u, now);
    TotalAppend(es, e, AllCredits(u));
  }

  /** Redeeming at most the current balance lowers it by exactly the amount. */
  lemma RedeemDeducts(es: seq<PointEntry>, e: PointEntry, now: int)
    requires e.kind == Redeem && 0 < e.points <= CurrentPoints(es, e.userId, now)
    ensures CurrentPoints(es + [e], e.userId, now) == CurrentPoints(es, e.userId, now) - e.points
  {
    NetAppend(es, e, e.userId, now);
  }

  /** A credit that has not expired raises the balance by its points, unless
      earlier adjustments had pushed the net figure below zero; it never
      lowers the balance, and it always adds to the lifetime total. */
  lemma CreditAdds(es: seq<PointEntry>, e: PointEntry, now: int)
    requires IsCredit(e.kind) && e.points >= 0 && Unexpired(e, now)
    ensures CurrentPoints(es + [e], e.userId, now) >= CurrentPoints(es, e.userId, now)
    ensures Net(es, e.userId, now) >= 0 ==>
              CurrentPoints(es + [e], e.userId, now) == CurrentPoints(es, e.userId, now) + e.points
    ensures Lifetime(es + [e], e.userId) == Lifetime(es, e.userId) + e.points
  {
    NetAppend(es, e, e.userId, now);
    TotalAppend(es, e, AllCredits(e.userId));
  }

  /** An adjustment moves the net figure by its signed amount. */
  lemma AdjustMoves(es: seq<PointEntry>, e: PointEntry, now: int)
    requires e.kind == Adjust
    ensures CurrentPoints(es + [e], e.userId, now) == if Net(es, e.userId, now) + e.points > 0 then Net(es, e.userId, now) + e.points else 0
  {
    NetAppend(es, e, e.userId, now);
  }

  /** Unexpired credits are part of the lifetime total: the lifetime figure
      is at least what is still live. */
  lemma {:induction false} LifetimeCoversLive(es: seq<PointEntry>, u: string, now: int)
    requires forall k | 0 <= k < |es| :: IsCredit(es[k].kind) ==> es[k].points >= 0
    ensures Total(es, LiveCredits(u, now)) <= Lifetime(es, u)
  {
    if es != [] {
      LifetimeCoversLive(es[..|es| - 1], u, now);
    }
  }

  /** With no new entries, the passing of time can only lower a balance. */
  lemma {:induction false} LiveCreditsShrink(es: seq<PointEntry>, u: string, t1: int, t2: int)
    requires t1 <= t2
    requires forall k | 0 <= k < |es| :: IsCredit(es[k].kind) ==> es[k].points >= 0
    ensures Total(es, LiveCredits(u, t2)) <= Total(es, LiveCredits(u, t1))
  {
    if es != [] {
      LiveCreditsShrink(es[..|es| - 1], u, t1, t2);
    }
  }

  lemma BalanceFallsOverTime(es: seq<PointEntry>, u: string, t1: int, t2: int)
    requires t1 <= t2
    requires forall k | 0 <= k < |es| :: IsCredit(es[k].kind) ==> es[k].points >= 0
    ensures CurrentPoints(es, u, t2) <= CurrentPoints(es, u, t1)
  {
    LiveCreditsShrink(es, u, t1, t2);
  }

  // ---------------------------------------------------------------------
  // The expiry check
  // ---------------------------------------------------------------------

  /** What is left of an earn entry: its points minus every later
      redemption or expiry, minus every later expiry once more (expiries
      are subtracted twice, as the controller computes it). */
  function Remaining(es: seq<PointEntry>, k: nat): int
    requires k < |es|
  {
    var e := es[k];
    e.points - Total(es, SpentAfter(e.userId, e.createdAt)) - Total(es, ExpiredAfter(e.userId, e.createdAt))
  }

  /** The sum of the positive remainders of a user's expired earn entries
      among the first n rows. */
  function ExpiredUpTo(es: seq<PointEntry>, u: string, now: int, n: nat): (r: nat)
    requires n <= |es|
  {
    if n == 0 then 0
    else
      var k := n - 1;
      ExpiredUpTo(es, u, now, k) + (if Counts(ExpiredEarns(u, now), es[k]) && Remaining(es, k) > 0 then Remaining(es, k) else 0)
  }

  /** Later redemptions and expiries never add to a remainder, so the
      amount expired is at most the points the expired entries granted. */
  lemma {:induction false} ExpiredBounded(es: seq<PointEntry>, u: string, now: int, n: nat)
    requires n <= |es|
    requires forall k | 0 <= k < |es| :: es[k].kind != Adjust ==> es[k].points >= 0
    ensures ExpiredUpTo(es, u, now, n) <= Total(es[..n], ExpiredEarns(u, now))
  {
    if n > 0 {
      var k := n - 1;
      ExpiredBounded(es, u, now, k);
      assert es[..n][..k] == es[..k];
      if Counts(ExpiredEarns(u, now), es[k]) {
        TotalNonNegative(es, SpentAfter(u, es[k].createdAt));
        TotalNonNegative(es, ExpiredAfter(u, es[k].createdAt));
      }
    }
  }

  /** The loop over the user's expired earn entries, summing the positive
      remainders. */
  method SumExpired(es: seq<PointEntry>, u: string, now: int) returns (total: nat)
    ensures total == ExpiredUpTo(es, u, now, |es|)
  {
    total := 0;
    var i := 0;
    while i < |es|
      invariant i <= |es|
      invariant total == ExpiredUpTo(es, u, now, i)
    {
      if Counts(ExpiredEarns(u, now), es[i]) {
        var spent := Total(es, SpentAfter(u, es[i].createdAt));
        var alreadyExpired := Total(es, ExpiredAfter(u, es[i].createdAt));
        var remaining := es[i].points - spent - alreadyExpired;
        if remaining > 0 {
          total := total + remaining;
        }
      }
      i := i + 1;
    }
  }

  // ---------------------------------------------------------------------
  // Consistency of the ledger
  // ---------------------------------------------------------------------

  /** The review an entry was granted for, read from its metadata. */
  function ReviewOf(e: PointEntry): (r: Option<string>)
    ensures r.Some? <==> "review_id" in e.metadata && e.metadata["review_id"].Str?
  {
    if "review_id" in e.metadata && e.metadata["review_id"].Str? then Some(e.metadata["review_id"].s) else None
  }

  predicate HasEarn(es: seq<PointEntry>, u: string, orderId: string)
  {
    exists k :: 0 <= k < |es| && es[k].kind == Earn && es[k].userId == u && es[k].orderId == Some(orderId)
  }

  predicate HasReview(es: seq<PointEntry>, u: string, reviewId: string)
  {
    exists k :: 0 <= k < |es| && es[k].kind == Review && es[k].userId == u && ReviewOf(es[k]) == Some(reviewId)
  }

  predicate HasReferral(rs: seq<ReferralRow>, referredId: string)
  {
    exists k :: 0 <= k < |rs| && rs[k].referredId == referredId
  }

  /** Two entries that would both grant points for one order, or for one review. */
  predicate Duplicates(a: PointEntry, b: PointEntry)
  {
    && a.userId == b.userId && a.kind == b.kind
    && ((a.kind == Earn && a.orderId.Some? && a.orderId == b.orderId)
        || (a.kind == Review && ReviewOf(a).Some? && ReviewOf(a) == ReviewOf(b)))
  }

  /** Only adjustments may be negative; no order and no review grants
      points twice to a user; a user is referred at most once. */
  ghost predicate LedgerOk(es: seq<PointEntry>, rs: seq<ReferralRow>)
  {
    && (forall k | 0 <= k < |es| :: es[k].kind != Adjust ==> es[k].points >= 0)
    && (forall i, j | 0 <= i < j < |es| :: !Duplicates(es[i], es[j]))
    && (forall i, j | 0 <= i < j < |rs| :: rs[i].referredId != rs[j].referredId)
  }

  /** What the controllers check before appending an entry. */
  predicate Admissible(es: seq<PointEntry>, e: PointEntry)
  {
    && (e.kind != Adjust ==> e.points >= 0)
    && (e.kind == Earn && e.orderId.Some? ==> !HasEarn(es, e.userId, e.orderId.value))
    && (e.kind == Review && ReviewOf(e).Some? ==> !HasReview(es, e.userId, ReviewOf(e).value))
  }

  lemma AppendKeepsLedger(es: seq<PointEntry>, rs: seq<ReferralRow>, e: PointEntry)
    requires LedgerOk(es, rs) && Admissible(es, e)
    ensures LedgerOk(es + [e], rs)
  {
    var es' := es + [e];
    forall i, j | 0 <= i < j < |es'|
      ensures !Duplicates(es'[i], es'[j])
    {
      if j == |es| {
        assert es'[i] == es[i];
        if e.kind == Earn && e.orderId.Some? {
          assert !(es[i].kind == Earn && es[i].userId == e.userId && es[i].orderId == Some(e.orderId.value));
        }
        if e.kind == Review && ReviewOf(e).Some? {
          assert !(es[i].kind == Review && es[i].userId == e.userId && ReviewOf(es[i]) == Some(ReviewOf(e).value));
        }
      }
    }
  }

  // ---------------------------------------------------------------------
  // The tables and the endpoints
  // ---------------------------------------------------------------------

  /** The referral bonuses: 500 points to the referrer, then 200 to the
      user who was referred, both expiring in twelve months. */
  function ReferralBonuses(referrerId: string, referredId: string, referredName: string, referralId: nat, now: int)
    : (r: seq<PointEntry>)
    ensures |r| == 2
    ensures r[0].userId == referrerId && r[0].kind == Referral && r[0].points == REFERRER_POINTS as int
    ensures r[1].userId == referredId && r[1].kind == Referral && r[1].points == REFERRED_POINTS as int
    ensures forall k | 0 <= k < 2 :: r[k].expiresAt == Some(AddMonths(now, EXPIRY_MONTHS)) && r[k].createdAt == now
  {
    var expiresAt := Some(AddMonths(now, EXPIRY_MONTHS));
    [PointEntry(referrerId, Referral, REFERRER_POINTS, "Referral bonus for referring " + referredName, None, None,
                map["referred_user_id" := Str(referredId), "referral_id" := Num(referralId)], expiresAt, now),
     PointEntry(referredId, Referral, REFERRED_POINTS, "Welcome bonus for using referral code", None, None,
                map["referrer_id" := Str(referrerId), "referral_id" := Num(referralId)], expiresAt, now)]
  }

  /** A referral code is accepted when it is non-empty and some user holds
      it, it is not the caller's own, the caller has not been referred, and
      no referral names the caller yet. */
  predicate ReferralAccepted(users: map<string, User>, userId: string, code: Option<string>, rs: seq<ReferralRow>)
    requires userId in users
  {
    && code.Some? && code.value != ""
    && (exists id :: id in users && users[id].referralCode == code)
    && users[userId].referralCode != code
    && !(users[userId].referredBy.Some? && Truthy(users[userId].referredBy.value))
    && !HasReferral(rs, userId)
  }

  /** The user_points and referrals tables. */
  class PointsLedger {
    var entries: seq<PointEntry>
    var referrals: seq<ReferralRow>

    ghost predicate Valid()
      reads this
    {
      LedgerOk(entries, referrals)
    }

    constructor ()
      ensures Valid() && entries == [] && referrals == []
    {
      entries := [];
      referrals := [];
    }

    method Append(e: PointEntry)
      requires Valid() && Admissible(entries, e)
      modifies this`entries
      ensures Valid()
      ensures entries == old(entries) + [e]
    {
      AppendKeepsLedger(entries, referrals, e);
      entries := entries + [e];
    }

    method AddReferral(row: ReferralRow) returns (id: nat)
      requires Valid() && !HasReferral(referrals, row.referredId)
      modifies this`referrals
      ensures Valid()
      ensures id == old(|referrals|) && referrals == old(referrals) + [row]
    {
      id := |referrals|;
      referrals := referrals + [row];
      forall i | 0 <= i < id
        ensures referrals[i].referredId != row.referredId
      {
        assert referrals[i] == old(referrals)[i];
      }
    }

    method MarkAwarded(id: nat, now: int)
      requires Valid() && id < |referrals|
      modifies this`referrals
      ensures Valid()
      ensures referrals == old(referrals)[id := old(referrals)[id].(pointsAwarded := true, awardedAt := Some(now))]
    {
      referrals := referrals[id := referrals[id].(pointsAwarded := true, awardedAt := Some(now))];
    }

    /** The two referral entries, the referrer's first. */
    method AwardReferral(referrerId: string, referredId: string, referredName: string, referralId: nat, now: int)
      requires Valid() && referrerId != referredId
      modifies this`entries
      ensures Valid()
      ensures entries == old(entries) + ReferralBonuses(referrerId, referredId, referredName, referralId, now)
      ensures CurrentPoints(entries, referredId, now) >= old(CurrentPoints(entries, referredId, now))
    {
      var bonuses := ReferralBonuses(referrerId, referredId, referredName, referralId, now);
      OtherUsersUnaffected(entries, bonuses[0], referredId, now);
      Append(bonuses[0]);
      CreditAdds(entries, bonuses[1], now);
      Append(bonuses[1]);
    }
  }

  /** A `nullable|string|max:255` field. */
  predicate OptionalText(s: Option<string>) { s.None? || |s.value| <= MAX_TEXT }

  /** A `required|string|max:255` field: present, not blank, short enough. */
  predicate RequiredText(s: Option<string>) { s.Some? && Trim(s.value) != "" && |s.value| <= MAX_TEXT }

  /** The largest multiple of 100 not above the requested points. */
  function Normalize(points: nat): (n: nat)
    ensures n % REDEEM_UNIT == 0 && n <= points < n + REDEEM_UNIT
  {
    (points / REDEEM_UNIT) * REDEEM_UNIT
  }

  /** floor(amount * 0.01): one point for each whole NPR 100. */
  function PointsFor(amountNpr: nat): (p: nat)
    ensures p * NPR_PER_POINT <= amountNpr < (p + 1) * NPR_PER_POINT
  {
    amountNpr / NPR_PER_POINT
  }

  /** floor(amount * 0.01) for an amount that may carry a fraction, as the
      earn endpoint receives it: one point for each whole NPR 100. */
  function EarnedPoints(amountNpr: real): (p: int)
    ensures (p * NPR_PER_POINT) as real <= amountNpr < ((p + 1) * NPR_PER_POINT) as real
  {
    var q := amountNpr / NPR_PER_POINT as real;
    assert q.Floor as real <= q < q.Floor as real + 1.0;
    q.Floor
  }

  /** On a whole amount the fractional rule and the integer rule agree. */
  lemma EarnedPointsWhole(amountNpr: nat)
    ensures EarnedPoints(amountNpr as real) == PointsFor(amountNpr)
  {
    var p, q := EarnedPoints(amountNpr as real), PointsFor(amountNpr);
    assert p * NPR_PER_POINT <= amountNpr < (p + 1) * NPR_PER_POINT;
  }

  datatype Summary = Summary(currentPoints: nat, lifetimePoints: int, transactions: seq<nat>)
  datatype Awarded = Awarded(entry: PointEntry, currentPoints: nat)
  datatype Expired = Expired(expiredPoints: nat, currentPoints: nat)
  datatype ReferralAwarded = ReferralAwarded(pointsEarned: nat, currentPoints: nat)

  class PointsController {
    const ledger: PointsLedger
    const users: UserDirectory
    const orders: OrderBook

    constructor (ledger: PointsLedger, users: UserDirectory, orders: OrderBook)
      ensures this.ledger == ledger && this.users == users && this.orders == orders
    {
      this.ledger := ledger;
      this.users := users;
      this.orders := orders;
    }

    /** The caller's balance, lifetime total and entries, newest first. */
    function Index(userId: string, now: int): (r: Summary)
      reads ledger
      requires LedgerOk(ledger.entries, ledger.referrals)
      ensures r.currentPoints == CurrentPoints(ledger.entries, userId, now)
      ensures r.lifetimePoints == Lifetime(ledger.entries, userId)
      ensures r.lifetimePoints >= 0
      ensures r.lifetimePoints >= Total(ledger.entries, LiveCredits(userId, now))
      ensures forall k, l | 0 <= k < l < |r.transactions| :: r.transactions[k] > r.transactions[l]
      ensures forall k | 0 <= k < |r.transactions| :: r.transactions[k] < |ledger.entries| && ledger.entries[r.transactions[k]].userId == userId
      ensures forall j | 0 <= j < |ledger.entries| && ledger.entries[j].userId == userId :: j in r.transactions
    {
      var es := ledger.entries;
      LifetimeCoversLive(es, userId, now);
      TotalNonNegative(es, AllCredits(userId));
      Summary(CurrentPoints(es, userId, now), Lifetime(es, userId),
              NewestFirst(es, (e: PointEntry) => e.userId == userId))
    }

    /** Spends points in whole hundreds. */
    method RedeemPoints(userId: string, points: int, description: Option<string>, now: int) returns (r: Reply<Awarded>)
      requires ledger.Valid()
      modifies ledger`entries
      ensures ledger.Valid()
      ensures r.Ok? <==> && points >= REDEEM_UNIT && OptionalText(description)
                         && Normalize(points) <= old(CurrentPoints(ledger.entries, userId, now))
      ensures r.Refused? ==> r.code == 422 && ledger.entries == old(ledger.entries)
      ensures r.Ok? ==>
                && ledger.entries == old(ledger.entries) + [r.body.entry]
                && r.body.entry.userId == userId && r.body.entry.kind == Redeem
                && r.body.entry.points == Normalize(points)
                && r.body.entry.description == description.GetOr("Redeemed " + NatToString(Normalize(points)) + " points")
                && r.body.currentPoints == old(CurrentPoints(ledger.entries, userId, now)) - Normalize(points)
    {
      if points < REDEEM_UNIT as int || !OptionalText(description) {
        return Refused(422, INVALID);
      }
      var normalized := Normalize(points);
      var current := CurrentPoints(ledger.entries, userId, now);
      if normalized > current {
        return Refused(422, "Not enough points available");
      }
      var e := PointEntry(userId, Redeem, normalized,
                          description.GetOr("Redeemed " + NatToString(normalized) + " points"),
                          None, None, map[], None, now);
      RedeemDeducts(ledger.entries, e, now);
      ledger.Append(e);
      r := Ok(Awarded(e, CurrentPoints(ledger.entries, userId, now)));
    }

    /** Grants points for an order once per user and order. */
    method EarnForOrder(userId: string, orderId: string, amountNpr: real, description: Option<string>, now: int)
      returns (r: Reply<Awarded>)
      requires ledger.Valid()
      modifies ledger`entries
      ensures ledger.Valid()
      ensures r.Ok? <==> && orderId in orders.orders && amountNpr >= 0.0 && OptionalText(description)
                         && !old(HasEarn(ledger.entries, userId, orderId)) && EarnedPoints(amountNpr) > 0
      ensures r.Refused? ==> r.code == 422 && ledger.entries == old(ledger.entries)
      ensures r.Ok? ==>
                && ledger.entries == old(ledger.entries) + [r.body.entry]
                && r.body.entry == PointEntry(userId, Earn, EarnedPoints(amountNpr),
                                              description.GetOr("Earned from order " + orderId), Some(orderId), None,
                                              map["amount_npr" := Dec(amountNpr)], Some(AddMonths(now, EXPIRY_MONTHS)), now)
                && r.body.currentPoints == CurrentPoints(ledger.entries, userId, now)
                && r.body.currentPoints >= old(CurrentPoints(ledger.entries, userId, now))
    {
      if orderId !in orders.orders || amountNpr < 0.0 || !OptionalText(description) {
        return Refused(422, INVALID);
      }
      if HasEarn(ledger.entries, userId, orderId) {
        return Refused(422, "Points already earned for this order");
      }
      var points := EarnedPoints(amountNpr);
      if points <= 0 {
        return Refused(422, "No points to earn for this amount");
      }
      var e := PointEntry(userId, Earn, points, description.GetOr("Earned from order " + orderId), Some(orderId), None,
                          map["amount_npr" := Dec(amountNpr)], Some(AddMonths(now, EXPIRY_MONTHS)), now);
      CreditAdds(ledger.entries, e, now);
      ledger.Append(e);
      r := Ok(Awarded(e, CurrentPoints(ledger.entries, userId, now)));
    }

    /** Adds a signed correction to the caller's points. */
    method AdjustPoints(userId: string, points: int, description: Option<string>, adminNote: Option<string>, now: int)
      returns (r: Reply<Awarded>)
      requires ledger.Valid()
      modifies ledger`entries
      ensures ledger.Valid()
      ensures r.Ok? <==> RequiredText(description) && OptionalText(adminNote)
      ensures r.Refused? ==> r.code == 422 && ledger.entries == old(ledger.entries)
      ensures r.Ok? ==>
                && ledger.entries == old(ledger.entries) + [r.body.entry]
                && r.body.entry == PointEntry(userId, Adjust, points, description.value, None, adminNote, map[], None, now)
                && var net := old(Net(ledger.entries, userId, now)) + points;
                   r.body.currentPoints == if net > 0 then net else 0
    {
      if !RequiredText(description) || !OptionalText(adminNote) {
        return Refused(422, INVALID);
      }
      var e := PointEntry(userId, Adjust, points, description.value, None, adminNote, map[], None, now);
      AdjustMoves(ledger.entries, e, now);
      ledger.Append(e);
      r := Ok(Awarded(e, CurrentPoints(ledger.entries, userId, now)));
    }

    /** Writes one expire entry for what is left of the caller's expired
        earn entries, when anything is left. */
    method RunExpiryCheck(userId: string, now: int) returns (r: Expired)
      requires ledger.Valid()
      modifies ledger`entries
      ensures ledger.Valid()
      ensures r.expiredPoints == old(ExpiredUpTo(ledger.entries, userId, now, |ledger.entries|))
      ensures r.expiredPoints <= old(Total(ledger.entries, ExpiredEarns(userId, now)))
      ensures r.expiredPoints == 0 ==> ledger.entries == old(ledger.entries)
      ensures r.expiredPoints > 0 ==>
                ledger.entries == old(ledger.entries) +
                  [PointEntry(userId, Expire, r.expiredPoints, "Expired points (" + NatToString(r.expiredPoints) + ")",
                              None, None, map[], None, now)]
      ensures r.currentPoints == CurrentPoints(ledger.entries, userId, now)
    {
      var es := ledger.entries;
      var total := SumExpired(es, userId, now);
      ExpiredBounded(es, userId, now, |es|);
      assert es[..|es|] == es;
      if total > 0 {
        var e := PointEntry(userId, Expire, total, "Expired points (" + NatToString(total) + ")", None, None, map[], None, now);
        ledger.Append(e);
      }
      r := Expired(total, CurrentPoints(ledger.entries, userId, now));
    }

    /** Awards the referral bonuses: 500 points to the owner of the code
        and 200 to the caller, who becomes referred by them. */
    method EarnReferralPoints(userId: string, code: Option<string>, now: int)
      returns (r: Reply<ReferralAwarded>, ghost referrerId: string)
      requires userId in users.users
      requires ledger.Valid()
      modifies ledger, users
      ensures ledger.Valid()
      ensures r.Ok? <==> ReferralAccepted(old(users.users), userId, code, old(ledger.referrals))
      ensures r.Refused? ==> && r.code == 422
                             && ledger.entries == old(ledger.entries) && ledger.referrals == old(ledger.referrals)
                             && users.users == old(users.users)
      ensures r.Ok? ==>
                && referrerId in old(users.users) && old(users.users)[referrerId].referralCode == code
                && referrerId != userId
                && users.users == old(users.users)[userId := old(users.users)[userId].(referredBy := Some(referrerId))]
                && ledger.referrals == old(ledger.referrals) + [ReferralRow(referrerId, userId, code.value, true, Some(now))]
                && ledger.entries == old(ledger.entries) +
                     ReferralBonuses(referrerId, userId, old(users.users)[userId].name, old(|ledger.referrals|), now)
                && r.body.pointsEarned == REFERRED_POINTS
                && r.body.currentPoints == CurrentPoints(ledger.entries, userId, now)
                && r.body.currentPoints >= old(CurrentPoints(ledger.entries, userId, now))
    {
      referrerId := userId;
      if code.None? || code.value == "" || !(exists id :: id in users.users && users.users[id].referralCode == code) {
        return Refused(422, INVALID), referrerId;
      }
      var user := users.users[userId];
      if user.referralCode == code {
        return Refused(422, "You cannot use your own referral code"), referrerId;
      }
      if user.referredBy.Some? && Truthy(user.referredBy.value) {
        return Refused(422, "You have already used a referral code"), referrerId;
      }
      var referrer :| referrer in users.users && users.users[referrer].referralCode == code;
      referrerId := referrer;
      if HasReferral(ledger.referrals, userId) {
        return Refused(422, "Referral already processed"), referrerId;
      }
      var referralId := ledger.AddReferral(ReferralRow(referrer, userId, code.value, false, None));
      users.users := users.users[userId := user.(referredBy := Some(referrer))];
      ledger.AwardReferral(referrer, userId, user.name, referralId, now);
      ledger.MarkAwarded(referralId, now);
      r := Ok(ReferralAwarded(REFERRED_POINTS, CurrentPoints(ledger.entries, userId, now)));
    }

    /** Grants 50 points for a review, once per user and review. The
        reviews and products tables are given as the ids they hold. */
    method EarnReviewPoints(userId: string, reviewId: string, productId: string,
                            reviews: set<string>, products: set<string>, now: int) returns (r: Reply<Awarded>)
      requires ledger.Valid()
      modifies ledger`entries
      ensures ledger.Valid()
      ensures r.Ok? <==> reviewId in reviews && productId in products && !old(HasReview(ledger.entries, userId, reviewId))
      ensures r.Refused? ==> r.code == 422 && ledger.entries == old(ledger.entries)
      ensures r.Ok? ==>
                && ledger.entries == old(ledger.entries) + [r.body.entry]
                && r.body.entry == PointEntry(userId, Review, REVIEW_POINTS, "Points for product review", None, None,
                                              map["review_id" := Str(reviewId), "product_id" := Str(productId)],
                                              Some(AddMonths(now, EXPIRY_MONTHS)), now)
                && r.body.currentPoints == CurrentPoints(ledger.entries, userId, now)
                && r.body.currentPoints >= old(CurrentPoints(ledger.entries, userId, now))
    {
      if reviewId !in reviews || productId !in products {
        return Refused(422, INVALID);
      }
      if HasReview(ledger.entries, userId, reviewId) {
        return Refused(422, "Points already earned for this review");
      }
      var e := PointEntry(userId, Review, REVIEW_POINTS, "Points for product review", None, None,
                          map["review_id" := Str(reviewId), "product_id" := Str(productId)],
                          Some(AddMonths(now, EXPIRY_MONTHS)), now);
      assert ReviewOf(e) == Some(reviewId);
      CreditAdds(ledger.entries, e, now);
      ledger.Append(e);
      r := Ok(Awarded(e, CurrentPoints(ledger.entries, userId, now)));
    }
  }
}
