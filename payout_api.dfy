/** The seller-facing payout endpoints: the balance (created as a zeroed row
    on first sight), the payout history and earnings lists, newest first,
    and the update of a seller's payout method, details and threshold.
    Every endpoint refuses a user whose role is not seller. */
module PayoutApi {
  import opened Wrappers
  import opened Market
  import opened Payout

  /** The lowest threshold a seller may choose: 100 NPR in paisa. */
  const MIN_THRESHOLD: nat := 10000

  const UNAUTHORIZED := "Unauthorized"
  const UPDATED := "Payout information updated. Please wait for verification."

  /** One line of the earnings list; the order number is absent when the
      order row is gone. */
  datatype EarningLine = EarningLine(
    id: nat,
    orderId: string,
    orderNumber: Option<string>,
    amount: nat,
    platformFee: nat,
    netAmount: int,
    status: EarningStatus,
    eligibleAt: int,
    paidAt: Option<int>)

  function LineOf(es: seq<Earning>, k: nat, orders: map<string, Order>): (l: EarningLine)
    requires k < |es|
    ensures l.id == k && l.orderId == es[k].orderId
    ensures l.orderNumber.Some? <==> es[k].orderId in orders
    ensures l.orderNumber.Some? ==> l.orderNumber.value == orders[es[k].orderId].orderNumber
    ensures l.amount == es[k].amount && l.platformFee == es[k].platformFee && l.netAmount == es[k].netAmount
  {
    var e := es[k];
    EarningLine(k, e.orderId,
                if e.orderId in orders then Some(orders[e.orderId].orderNumber) else None,
                e.amount, e.platformFee, e.netAmount, e.status, e.eligibleAt, e.paidAt)
  }

  /** A seller's earnings lines, newest first: exactly the seller's
      earnings, each with its order's number. */
  function EarningLines(es: seq<Earning>, om: map<string, Order>, userId: string): (r: seq<EarningLine>)
    ensures forall k | 0 <= k < |r| ::
              r[k].id < |es| && es[r[k].id].sellerId == userId && r[k] == LineOf(es, r[k].id, om)
    ensures forall j | 0 <= j < |es| && es[j].sellerId == userId :: exists k :: 0 <= k < |r| && r[k].id == j
    ensures forall k, l | 0 <= k < l < |r| :: r[k].id > r[l].id
  {
    var ids := NewestFirst(es, (e: Earning) => e.sellerId == userId);
    var lines := seq(|ids|, k requires 0 <= k < |ids| => LineOf(es, ids[k], om));
    assert forall j | 0 <= j < |es| && es[j].sellerId == userId ::
      exists k :: 0 <= k < |lines| && lines[k].id == j by {
      forall j | 0 <= j < |es| && es[j].sellerId == userId
        ensures exists k :: 0 <= k < |lines| && lines[k].id == j
      {
        var k :| 0 <= k < |ids| && ids[k] == j;
        assert lines[k].id == j;
      }
    }
    lines
  }

  /** What `payout_method`, `payout_details` and `payout_threshold` carry in
      the request; an absent field is None. */
  datatype PayoutInfoRequest = PayoutInfoRequest(payoutMethod: Option<string>, payoutDetails: Option<Details>, threshold: Option<int>)

  /** The validation rules: the method is bank or wallet, the details are a
      non-empty array, and a threshold, when sent, is at least 10000. */
  predicate PayoutInfoValid(req: PayoutInfoRequest)
  {
    && req.payoutMethod.Some? && (req.payoutMethod.value == "bank" || req.payoutMethod.value == "wallet")
    && req.payoutDetails.Some? && |req.payoutDetails.value| > 0
    && (req.threshold.None? || req.threshold.value >= MIN_THRESHOLD)
  }

  /** The user after a valid update: method and details replaced,
      verification revoked, threshold replaced only when sent. */
  function WithPayoutInfo(u: User, req: PayoutInfoRequest): (v: User)
    requires PayoutInfoValid(req)
    ensures v.payoutMethod == req.payoutMethod && v.payoutDetails == req.payoutDetails
    ensures !v.payoutVerified
    ensures req.threshold.Some? ==> v.payoutThreshold == req.threshold.value
    ensures req.threshold.None? ==> v.payoutThreshold == u.payoutThreshold
    ensures v.name == u.name && v.role == u.role && v.referralCode == u.referralCode && v.referredBy == u.referredBy
  {
    u.(payoutMethod := req.payoutMethod,
       payoutDetails := req.payoutDetails,
       payoutVerified := false,
       payoutThreshold := if req.threshold.Some? then req.threshold.value as nat else u.payoutThreshold)
  }

  /** The reply body of a successful update. */
  datatype PayoutInfo = PayoutInfo(message: string, payoutMethod: string, verified: bool)

  /** Inserting the zeroed row `firstOrCreate` makes for a seller that has
      none keeps the ledger consistent: it reads as the same balance. */
  lemma FirstOrCreateKeepsLedger(balances: map<string, Balance>, es: seq<Earning>, batches: seq<Batch>,
                                 items: seq<BatchItem>, txs: seq<Transaction>, s: string)
    requires LedgerOk(balances, es, batches, items, txs)
    ensures LedgerOk(balances[s := BalanceOf(balances, s)], es, batches, items, txs)
  {
    var b' := balances[s := BalanceOf(balances, s)];
    forall t
      ensures BalanceOk(BalanceOf(b', t), es, items, t)
    {
      assert BalanceOf(b', t) == BalanceOf(balances, t);
      assert BalanceOk(BalanceOf(balances, t), es, items, t);
    }
  }

  class PayoutController {
    const service: PayoutService

    constructor (service: PayoutService)
      ensures this.service == service
    {
      this.service := service;
    }

    predicate IsSeller(userId: string)
      reads service.users
    {
      userId in service.users.users && service.users.users[userId].role == Role.Seller
    }

    /** The caller's balance; a seller without a row gets a zeroed one,
        which is stored. */
    method Balance(userId: string) returns (r: Reply<Balance>)
      requires service.Valid()
      modifies service`balances
      ensures service.Valid()
      ensures !IsSeller(userId) ==> r == Refused(403, UNAUTHORIZED) && service.balances == old(service.balances)
      ensures IsSeller(userId) ==>
                && r == Ok(BalanceOf(old(service.balances), userId))
                && service.balances == old(service.balances)[userId := BalanceOf(old(service.balances), userId)]
      ensures IsSeller(userId) && userId !in old(service.balances) ==> r == Ok(ZERO_BALANCE)
      ensures userId in service.balances || service.balances == old(service.balances)
    {
      if !IsSeller(userId) {
        return Refused(403, UNAUTHORIZED);
      }
      FirstOrCreateKeepsLedger(service.balances, service.earnings, service.batches, service.items,
                               service.transactions, userId);
      var b := BalanceOf(service.balances, userId);
      service.balances := service.balances[userId := b];
      r := Ok(b);
    }

    /** The seller's payout items, newest first. */
    function History(userId: string): (r: Reply<seq<nat>>)
      reads service, service.users
      ensures !IsSeller(userId) <==> r == Refused(403, UNAUTHORIZED)
      ensures r.Ok? ==> forall k | 0 <= k < |r.body| :: r.body[k] < |service.items| && service.items[r.body[k]].sellerId == userId
      ensures r.Ok? ==> forall j | 0 <= j < |service.items| && service.items[j].sellerId == userId :: j in r.body
      ensures r.Ok? ==> forall k, l | 0 <= k < l < |r.body| :: r.body[k] > r.body[l]
    {
      if !IsSeller(userId) then Refused(403, UNAUTHORIZED)
      else Ok(NewestFirst(service.items, (it: BatchItem) => it.sellerId == userId))
    }

    /** The seller's earnings, newest first, each with its order's number. */
    function Earnings(userId: string): (r: Reply<seq<EarningLine>>)
      reads service, service.users, service.orders
      ensures !IsSeller(userId) <==> r == Refused(403, UNAUTHORIZED)
      ensures r.Ok? ==> r.body == EarningLines(service.earnings, service.orders.orders, userId)
    {
      if !IsSeller(userId) then Refused(403, UNAUTHORIZED)
      else Ok(EarningLines(service.earnings, service.orders.orders, userId))
    }

    /** Replaces the caller's payout method and details, revokes their
        verification and, when sent, replaces their threshold. */
    method UpdatePayoutInfo(userId: string, req: PayoutInfoRequest) returns (r: Reply<PayoutInfo>)
      modifies service.users
      ensures !old(IsSeller(userId)) ==> r == Refused(403, UNAUTHORIZED) && service.users.users == old(service.users.users)
      ensures old(IsSeller(userId)) && !PayoutInfoValid(req) ==>
                r == Refused(422, INVALID) && service.users.users == old(service.users.users)
      ensures old(IsSeller(userId)) && PayoutInfoValid(req) ==>
                && service.users.users == old(service.users.users)[userId := WithPayoutInfo(old(service.users.users[userId]), req)]
                && r == Ok(PayoutInfo(UPDATED, req.payoutMethod.value, false))
      ensures r.Ok? ==> forall t :: !service.Qualifies(userId, t)
      ensures r.Ok? ==> forall b: Option<Balance> ::
                ManualPrecheck(Lookup(service.users.users, userId), b) == Some(NotAllowed("Seller payout information not verified"))
    {
      if !IsSeller(userId) {
        return Refused(403, UNAUTHORIZED);
      }
      if !PayoutInfoValid(req) {
        return Refused(422, INVALID);
      }
      var u := service.users.users[userId];
      u := u.(payoutMethod := req.payoutMethod);
      u := u.(payoutDetails := req.payoutDetails);
      u := u.(payoutVerified := false);
      if req.threshold.Some? {
        u := u.(payoutThreshold := req.threshold.value as nat);
      }
      service.users.users := service.users.users[userId := u];
      r := Ok(PayoutInfo(UPDATED, req.payoutMethod.value, false));
    }
  }
}
