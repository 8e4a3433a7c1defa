/** The seller payout settlement engine: completed orders become payout
    eligible once their return window has passed, each yields one seller
    earning net of the platform fee, the net is credited to the seller's
    balance, and weekly or manual runs pay balances out through a payout
    adapter in batches of one item per seller. */
module Payout {
  import opened Wrappers
  import opened Text
  import opened Market

  const PLATFORM_FEE_PERCENTAGE: nat := 5
  const RETURN_WINDOW_DAYS: nat := 7
  const DEFAULT_THRESHOLD: nat := 100000

  // ---------------------------------------------------------------------
  // Rows of the payout tables. Amounts are integers in minor currency units.
  // ---------------------------------------------------------------------

  datatype EarningStatus = Pending | Eligible | PayoutPending | Paid | Cancelled
  datatype BatchStatus = Pending | Processing | Completed | Failed | PartiallyFailed
  datatype ItemStatus = Pending | Processing | Completed | Failed
  datatype TransactionStatus = Initiated | Processing | Completed | Failed | Reversed

  datatype Balance = Balance(
    available: int,
    pending: int,
    totalEarned: int,
    totalPaidOut: int,
    lastPayoutAt: Option<int>)

  /** The row `firstOrCreate` inserts for a seller that has none. */
  const ZERO_BALANCE: Balance := Balance(0, 0, 0, 0, None)

  datatype Earning = Earning(
    sellerId: string,
    orderId: string,
    amount: nat,
    platformFee: nat,
    netAmount: int,
    status: EarningStatus,
    eligibleAt: int,
    paidAt: Option<int>,
    batchItem: Option<nat>)

  datatype Batch = Batch(
    batchNumber: string,
    status: BatchStatus,
    totalAmount: int,
    sellerCount: nat,
    successfulCount: nat,
    failedCount: nat,
    processedAt: Option<int>,
    notes: Option<string>)

  datatype BatchItem = BatchItem(
    batchId: nat,
    sellerId: string,
    amount: int,
    status: ItemStatus,
    payoutMethod: Option<string>,
    payoutDetails: Option<Details>,
    transactionId: Option<string>,
    errorMessage: Option<string>,
    processedAt: Option<int>)

  datatype Transaction = Transaction(
    itemId: nat,
    sellerId: string,
    amount: int,
    transactionId: Option<string>,
    status: TransactionStatus,
    payoutMethod: Option<string>,
    payoutDetails: Option<Details>,
    errorMessage: Option<string>,
    initiatedAt: int,
    completedAt: Option<int>)

  // ---------------------------------------------------------------------
  // Payout adapters
  // ---------------------------------------------------------------------

  datatype PayoutMethod = Bank | Wallet

  function MethodName(m: PayoutMethod): string
  {
    match m
    case Bank => "bank"
    case Wallet => "wallet"
  }

  /** What an adapter's `processPayout` produced: the array it returned, or
      the message of the exception it threw. */
  datatype AdapterResult = AdapterResult(success: bool, transactionId: Option<string>, error: Option<string>)
  datatype AdapterCall = Returned(result: AdapterResult) | Threw(message: string)

  /** The external payout provider, seen only through its outcome for a
      method, seller, amount and details. */
  type Adapter = (PayoutMethod, string, int, Details) -> AdapterCall

  /** The adapter for a method name; any other name is an invalid argument. */
  function GetAdapter(name: string): (r: Result<PayoutMethod, string>)
    ensures r.Success? <==> name == "bank" || name == "wallet"
    ensures r.Success? ==> MethodName(r.value) == name
    ensures r.Failure? ==> r.error == "Unknown payout method: " + name
  {
    if name == "bank" then Success(Bank)
    else if name == "wallet" then Success(Wallet)
    else Failure("Unknown payout method: " + name)
  }

  /** The exception message a payout attempt ends with, or None when the
      adapter reported success. A failure without an error text reads
      "Payout failed". */
  function FailureOf(call: AdapterCall): (r: Option<string>)
    ensures r.None? <==> call.Returned? && call.result.success
    ensures call.Threw? ==> r == Some(call.message)
    ensures call.Returned? && !call.result.success && call.result.error.None? ==> r == Some("Payout failed")
  {
    match call
    case Threw(message) => Some(message)
    case Returned(result) =>
      if result.success then None else Some(result.error.GetOr("Payout failed"))
  }

  // ---------------------------------------------------------------------
  // Fee arithmetic
  // ---------------------------------------------------------------------

  /** round(gross * 5 / 100) with halves rounded up: the fee is the integer
      nearest to 5% of the gross amount, and never more than the gross. */
  function PlatformFee(gross: nat): (fee: nat)
    ensures fee <= gross
    ensures 100 * fee <= PLATFORM_FEE_PERCENTAGE * gross + 50
    ensures PLATFORM_FEE_PERCENTAGE * gross < 100 * fee + 50
  {
    (PLATFORM_FEE_PERCENTAGE * gross + 50) / 100
  }

  /** The earning row written for an order that has just become eligible. */
  function NewEarning(o: Order, orderId: string, now: int): (e: Earning)
    requires o.sellerId.Some?
    ensures e.platformFee + e.netAmount == e.amount == o.grandTotal
    ensures 0 <= e.netAmount <= e.amount
    ensures e.status == EarningStatus.Eligible && e.batchItem.None? && e.paidAt.None?
    ensures e.sellerId == o.sellerId.value && e.orderId == orderId && e.eligibleAt == now
  {
    var fee := PlatformFee(o.grandTotal);
    Earning(o.sellerId.value, orderId, o.grandTotal, fee, o.grandTotal - fee,
            EarningStatus.Eligible, now, None, None)
  }

  /** A balance after `updateSellerBalance` adds the two increases. */
  function Credit(b: Balance, availableIncrease: int, pendingIncrease: int): Balance
  {
    b.(available := b.available + availableIncrease,
       pending := b.pending + pendingIncrease,
       totalEarned := b.totalEarned + availableIncrease + pendingIncrease)
  }

  /** A balance after a successful payout of `amount`. */
  function Debit(b: Balance, amount: int, now: int): Balance
  {
    b.(available := b.available - amount,
       totalPaidOut := b.totalPaidOut + amount,
       lastPayoutAt := Some(now))
  }

  function BalanceOf(balances: map<string, Balance>, sellerId: string): Balance
  {
    if sellerId in balances then balances[sellerId] else ZERO_BALANCE
  }

  // ---------------------------------------------------------------------
  // Eligibility of orders
  // ---------------------------------------------------------------------

  /** The rows the daily scan fetches: completed, not yet eligible, delivered,
      with a seller, and a return window that is unset or not after now. */
  predicate Scanned(o: Order, now: int)
  {
    && o.status == OrderStatus.Completed
    && !o.payoutEligible
    && o.deliveryDate.Some?
    && o.sellerId.Some?
    && (o.returnWindowEndsAt.None? || o.returnWindowEndsAt.value <= now)
  }

  /** The stored end of the return window, or delivery plus seven days. */
  function WindowEnd(o: Order): (t: int)
    requires o.deliveryDate.Some?
    ensures o.returnWindowEndsAt.None? ==> t == AddDays(o.deliveryDate.value, RETURN_WINDOW_DAYS)
    ensures o.returnWindowEndsAt.Some? ==> t == o.returnWindowEndsAt.value
  {
    if o.returnWindowEndsAt.Some? then o.returnWindowEndsAt.value
    else AddDays(o.deliveryDate.value, RETURN_WINDOW_DAYS)
  }

  /** A scanned order is promoted only when its window end is strictly in the past. */
  predicate Promoted(o: Order, now: int)
  {
    Scanned(o, now) && WindowEnd(o) < now
  }

  /** An order as the scan leaves it: promoted orders are saved eligible with
      their window end; every other order is left as it was. */
  function AfterScan(o: Order, now: int): (o': Order)
    ensures Promoted(o, now) ==> o'.payoutEligible && o'.payoutEligibleAt == Some(now)
    ensures Promoted(o, now) ==> o'.returnWindowEndsAt == Some(WindowEnd(o)) && o'.returnWindowEndsAt.value < now
    ensures Promoted(o, now) ==> o' == o.(payoutEligible := o'.payoutEligible, payoutEligibleAt := o'.payoutEligibleAt,
                                            returnWindowEndsAt := o'.returnWindowEndsAt)
    ensures !Promoted(o, now) ==> o' == o
  {
    if Promoted(o, now) then
      o.(returnWindowEndsAt := Some(WindowEnd(o)), payoutEligible := true, payoutEligibleAt := Some(now))
    else o
  }

  function PromotedIds(orders: map<string, Order>, now: int): set<string>
  {
    set id | id in orders && Promoted(orders[id], now)
  }

  lemma ScanNeverRepeats(o: Order, now: int, later: int)
    ensures Promoted(o, now) ==> !Scanned(AfterScan(o, now), later)
  {
  }

  // ---------------------------------------------------------------------
  // Aggregates over the tables (each row's contribution, newest last)
  // ---------------------------------------------------------------------

  /** Net amounts credited to a seller. */
  function Earned(es: seq<Earning>, sellerId: string): int
  {
    if es == [] then 0
    else Earned(es[..|es| - 1], sellerId) + (if es[|es| - 1].sellerId == sellerId then es[|es| - 1].netAmount else 0)
  }

  predicate Unsettled(e: Earning)
  {
    e.status == EarningStatus.Eligible && e.batchItem.None?
  }

  /** Net amounts of a seller's earnings that no payout has settled yet. */
  function Outstanding(es: seq<Earning>, sellerId: string): int
  {
    if es == [] then 0
    else Outstanding(es[..|es| - 1], sellerId)
         + (if es[|es| - 1].sellerId == sellerId && Unsettled(es[|es| - 1]) then es[|es| - 1].netAmount else 0)
  }

  /** Amounts of a seller's completed batch items. */
  function PaidOut(items: seq<BatchItem>, sellerId: string): int
  {
    if items == [] then 0
    else PaidOut(items[..|items| - 1], sellerId)
         + (if items[|items| - 1].sellerId == sellerId && items[|items| - 1].status == ItemStatus.Completed
            then items[|items| - 1].amount else 0)
  }

  /** Number of earnings written for an order. */
  function CountFor(es: seq<Earning>, orderId: string): nat
  {
    if es == [] then 0
    else CountFor(es[..|es| - 1], orderId) + (if es[|es| - 1].orderId == orderId then 1 else 0)
  }

  function SumAmounts(items: seq<BatchItem>): int
  {
    if items == [] then 0 else SumAmounts(items[..|items| - 1]) + items[|items| - 1].amount
  }

  /** Number of completed items at positions lo..hi. */
  function CompletedBetween(items: seq<BatchItem>, lo: nat, hi: nat): nat
    requires lo <= hi <= |items|
    decreases hi - lo
  {
    if hi == lo then 0
    else CompletedBetween(items, lo, hi - 1) + (if items[hi - 1].status == ItemStatus.Completed then 1 else 0)
  }

  lemma {:induction false} CompletedBetweenFrame(a: seq<BatchItem>, b: seq<BatchItem>, lo: nat, hi: nat)
    requires lo <= hi <= |a| && hi <= |b|
    requires forall k :: lo <= k < hi ==> a[k].status == b[k].status
    ensures CompletedBetween(a, lo, hi) == CompletedBetween(b, lo, hi)
    decreases hi - lo
  {
    if hi > lo {
      CompletedBetweenFrame(a, b, lo, hi - 1);
    }
  }

  /** Counting one more position after only that position changed. */
  lemma CompletedStep(before: seq<BatchItem>, after: seq<BatchItem>, lo: nat, j: nat)
    requires lo <= j < |before| == |after|
    requires forall k :: 0 <= k < |after| && k != j ==> after[k] == before[k]
    ensures CompletedBetween(after, lo, j + 1)
            == CompletedBetween(before, lo, j) + (if after[j].status == ItemStatus.Completed then 1 else 0)
  {
    CompletedBetweenFrame(after, before, lo, j);
  }

  /** The bulk update that marks a seller's eligible, unlinked earnings paid
      and links them to the batch item. */
  function Settle(e: Earning, sellerId: string, item: nat, now: int): Earning
  {
    if e.sellerId == sellerId && Unsettled(e) then
      e.(status := EarningStatus.Paid, paidAt := Some(now), batchItem := Some(item))
    else e
  }

  function SettleAll(es: seq<Earning>, sellerId: string, item: nat, now: int): (r: seq<Earning>)
    ensures |r| == |es|
    ensures forall k :: 0 <= k < |es| ==> r[k] == Settle(es[k], sellerId, item, now)
  {
    if es == [] then [] else SettleAll(es[..|es| - 1], sellerId, item, now) + [Settle(es[|es| - 1], sellerId, item, now)]
  }

  /** What a completed batch item contributes to its seller's payouts. */
  function PaidShare(it: BatchItem, sellerId: string): int
  {
    if it.sellerId == sellerId && it.status == ItemStatus.Completed then it.amount else 0
  }

  lemma {:induction false} EarnedAppend(a: seq<Earning>, b: seq<Earning>, sellerId: string)
    ensures Earned(a + b, sellerId) == Earned(a, sellerId) + Earned(b, sellerId)
  {
    if b != [] {
      assert (a + b)[..|a + b| - 1] == a + b[..|b| - 1];
      EarnedAppend(a, b[..|b| - 1], sellerId);
    } else {
      assert a + b == a;
    }
  }

  /** A balance row kept in step with a ledger that only grew: its total
      earned grew by exactly what the new rows earned. */
  lemma GrowthEarned(b0: Balance, b1: Balance, e0: seq<Earning>, es: seq<Earning>, items: seq<BatchItem>, sellerId: string)
    requires BalanceOk(b0, e0, items, sellerId) && BalanceOk(b1, es, items, sellerId)
    requires |e0| <= |es| && es[..|e0|] == e0
    ensures b1.totalEarned == b0.totalEarned + Earned(es[|e0|..], sellerId)
  {
    assert es == e0 + es[|e0|..];
    EarnedAppend(e0, es[|e0|..], sellerId);
  }

  lemma {:induction false} SettleKeepsEarned(es: seq<Earning>, sellerId: string, item: nat, now: int, other: string)
    ensures Earned(SettleAll(es, sellerId, item, now), other) == Earned(es, other)
  {
    if es != [] {
      var r := SettleAll(es, sellerId, item, now);
      assert r[..|r| - 1] == SettleAll(es[..|es| - 1], sellerId, item, now);
      SettleKeepsEarned(es[..|es| - 1], sellerId, item, now, other);
    }
  }

  /** Settling a seller's earnings leaves nothing of theirs outstanding and
      every other seller's outstanding amount as it was. */
  lemma {:induction false} SettleClearsOutstanding(es: seq<Earning>, sellerId: string, item: nat, now: int, other: string)
    ensures Outstanding(SettleAll(es, sellerId, item, now), other) == if other == sellerId then 0 else Outstanding(es, other)
  {
    if es != [] {
      var r := SettleAll(es, sellerId, item, now);
      assert r[..|r| - 1] == SettleAll(es[..|es| - 1], sellerId, item, now);
      SettleClearsOutstanding(es[..|es| - 1], sellerId, item, now, other);
    }
  }

  lemma {:induction false} SettleKeepsCounts(es: seq<Earning>, sellerId: string, item: nat, now: int, orderId: string)
    ensures CountFor(SettleAll(es, sellerId, item, now), orderId) == CountFor(es, orderId)
  {
    if es != [] {
      var r := SettleAll(es, sellerId, item, now);
      assert r[..|r| - 1] == SettleAll(es[..|es| - 1], sellerId, item, now);
      SettleKeepsCounts(es[..|es| - 1], sellerId, item, now, orderId);
    }
  }

  /** Replacing one batch item changes a seller's payouts by the difference
      of the two rows' contributions. */
  lemma {:induction false} PaidOutUpdate(items: seq<BatchItem>, i: nat, x: BatchItem, sellerId: string)
    requires i < |items|
    ensures PaidOut(items[i := x], sellerId) == PaidOut(items, sellerId) - PaidShare(items[i], sellerId) + PaidShare(x, sellerId)
  {
    var n := |items|;
    var u := items[i := x];
    if i == n - 1 {
      assert u[..n - 1] == items[..n - 1];
    } else {
      assert u[..n - 1] == items[..n - 1][i := x];
      PaidOutUpdate(items[..n - 1], i, x, sellerId);
    }
  }

  /** When every earning's net is non-negative, a seller's outstanding amount
      is between zero and everything credited to them. */
  lemma {:induction false} OutstandingBounds(es: seq<Earning>, sellerId: string)
    requires forall k :: 0 <= k < |es| ==> es[k].netAmount >= 0
    ensures 0 <= Outstanding(es, sellerId) <= Earned(es, sellerId)
  {
    if es != [] {
      OutstandingBounds(es[..|es| - 1], sellerId);
    }
  }

  // ---------------------------------------------------------------------
  // Consistency of the ledger
  // ---------------------------------------------------------------------

  /** Fee and net as computed at crediting time, and the earning is either
      still unsettled or paid through a completed item of the same seller. */
  ghost predicate EarningOk(e: Earning, items: seq<BatchItem>)
  {
    && e.platformFee == PlatformFee(e.amount)
    && e.netAmount == e.amount - e.platformFee
    && (|| Unsettled(e)
        || (&& e.status == EarningStatus.Paid
            && e.batchItem.Some?
            && e.batchItem.value < |items|
            && items[e.batchItem.value].status == ItemStatus.Completed
            && items[e.batchItem.value].sellerId == e.sellerId))
  }

  /** A seller's balance agrees with the rows: everything earned was
      credited, what is available is exactly what no payout has settled,
      and what was paid out is the sum of completed items. */
  ghost predicate BalanceOk(b: Balance, es: seq<Earning>, items: seq<BatchItem>, sellerId: string)
  {
    && b.totalEarned == Earned(es, sellerId)
    && b.available == Outstanding(es, sellerId)
    && b.totalPaidOut == PaidOut(items, sellerId)
    && b.pending == 0
    && b.available + b.totalPaidOut == b.totalEarned
  }

  ghost predicate LedgerOk(balances: map<string, Balance>, es: seq<Earning>, batches: seq<Batch>,
                           items: seq<BatchItem>, txs: seq<Transaction>)
  {
    && (forall k :: 0 <= k < |es| ==> EarningOk(es[k], items))
    && (forall s :: BalanceOk(BalanceOf(balances, s), es, items, s))
    && (forall j :: 0 <= j < |items| ==> items[j].batchId < |batches|)
    && (forall t :: 0 <= t < |txs| ==> txs[t].itemId < |items|)
  }

  /** Each order has at most one earning, and an order has one exactly when
      it is marked payout eligible. */
  ghost predicate OrdersCredited(orders: map<string, Order>, es: seq<Earning>)
  {
    && (forall id :: CountFor(es, id) <= 1)
    && (forall id :: id in orders ==> CountFor(es, id) == if orders[id].payoutEligible then 1 else 0)
  }

  /** Promoting an order and writing its one earning keeps every order's
      earning count in step with its eligibility flag. */
  lemma PromotionKeepsCredit(orders: map<string, Order>, es: seq<Earning>, id: string, o: Order, e: Earning)
    requires OrdersCredited(orders, es)
    requires id in orders && !orders[id].payoutEligible
    requires o.payoutEligible && e.orderId == id
    ensures OrdersCredited(orders[id := o], es + [e])
  {
    var es' := es + [e];
    var orders' := orders[id := o];
    forall x
      ensures CountFor(es', x) <= 1
    {
      CountForAppend(es, e, x);
    }
    forall x | x in orders'
      ensures CountFor(es', x) == if orders'[x].payoutEligible then 1 else 0
    {
      CountForAppend(es, e, x);
    }
  }

  lemma CountForAppend(es: seq<Earning>, e: Earning, x: string)
    ensures CountFor(es + [e], x) == CountFor(es, x) + (if e.orderId == x then 1 else 0)
  {
    assert (es + [e])[..|es|] == es;
  }

  function CompletedItem(it: BatchItem, transactionId: Option<string>, now: int): BatchItem
  {
    it.(status := ItemStatus.Completed, transactionId := transactionId, processedAt := Some(now))
  }

  function FailedItem(it: BatchItem, message: string): BatchItem
  {
    it.(status := ItemStatus.Failed, errorMessage := Some(message))
  }

  /** Crediting a fresh earning keeps the ledger consistent. */
  lemma CreditKeepsLedger(balances: map<string, Balance>, es: seq<Earning>, batches: seq<Batch>,
                          items: seq<BatchItem>, txs: seq<Transaction>, e: Earning)
    requires LedgerOk(balances, es, batches, items, txs)
    requires Unsettled(e) && e.platformFee == PlatformFee(e.amount) && e.netAmount == e.amount - e.platformFee
    ensures LedgerOk(balances[e.sellerId := Credit(BalanceOf(balances, e.sellerId), e.netAmount, 0)],
                     es + [e], batches, items, txs)
  {
    var b' := balances[e.sellerId := Credit(BalanceOf(balances, e.sellerId), e.netAmount, 0)];
    var es' := es + [e];
    assert es'[..|es'| - 1] == es;
    forall s
      ensures BalanceOk(BalanceOf(b', s), es', items, s)
    {
      assert BalanceOk(BalanceOf(balances, s), es, items, s);
    }
  }

  /** A successful payout of a seller's whole available balance settles the
      seller's outstanding earnings and keeps the ledger consistent. */
  lemma SettlementKeepsLedger(balances: map<string, Balance>, es: seq<Earning>, batches: seq<Batch>,
                              items: seq<BatchItem>, txs: seq<Transaction>, i: nat,
                              transactionId: Option<string>, tx: Transaction, now: int)
    requires LedgerOk(balances, es, batches, items, txs)
    requires i < |items| && items[i].status == ItemStatus.Pending
    requires items[i].sellerId in balances && items[i].amount == balances[items[i].sellerId].available
    requires tx.itemId == i
    ensures var s := items[i].sellerId;
            LedgerOk(balances[s := Debit(balances[s], items[i].amount, now)],
                     SettleAll(es, s, i, now), batches,
                     items[i := CompletedItem(items[i], transactionId, now)], txs + [tx])
  {
    var s := items[i].sellerId;
    var b' := balances[s := Debit(balances[s], items[i].amount, now)];
    var es' := SettleAll(es, s, i, now);
    var items' := items[i := CompletedItem(items[i], transactionId, now)];
    forall k | 0 <= k < |es'|
      ensures EarningOk(es'[k], items')
    {
      SettledEarningOk(es[k], items, i, transactionId, now);
    }
    forall t
      ensures BalanceOk(BalanceOf(b', t), es', items', t)
    {
      SettledBalanceOk(balances, es, items, i, transactionId, now, t);
    }
  }

  lemma SettledEarningOk(e: Earning, items: seq<BatchItem>, i: nat, transactionId: Option<string>, now: int)
    requires EarningOk(e, items)
    requires i < |items| && items[i].status == ItemStatus.Pending
    ensures EarningOk(Settle(e, items[i].sellerId, i, now), items[i := CompletedItem(items[i], transactionId, now)])
  {
  }

  lemma SettledBalanceOk(balances: map<string, Balance>, es: seq<Earning>, items: seq<BatchItem>, i: nat,
                         transactionId: Option<string>, now: int, t: string)
    requires BalanceOk(BalanceOf(balances, t), es, items, t)
    requires i < |items| && items[i].status == ItemStatus.Pending
    requires items[i].sellerId in balances && items[i].amount == balances[items[i].sellerId].available
    requires BalanceOk(BalanceOf(balances, items[i].sellerId), es, items, items[i].sellerId)
    ensures var s := items[i].sellerId;
            BalanceOk(BalanceOf(balances[s := Debit(balances[s], items[i].amount, now)], t),
                      SettleAll(es, s, i, now), items[i := CompletedItem(items[i], transactionId, now)], t)
  {
    var s := items[i].sellerId;
    var items' := items[i := CompletedItem(items[i], transactionId, now)];
    SettleKeepsEarned(es, s, i, now, t);
    SettleClearsOutstanding(es, s, i, now, t);
    PaidOutUpdate(items, i, items'[i], t);
  }

  /** A failed payout marks the item failed and changes no money. */
  lemma FailureKeepsLedger(balances: map<string, Balance>, es: seq<Earning>, batches: seq<Batch>,
                           items: seq<BatchItem>, txs: seq<Transaction>, i: nat, message: string, tx: Transaction)
    requires LedgerOk(balances, es, batches, items, txs)
    requires i < |items| && items[i].status == ItemStatus.Pending
    requires tx.itemId == i
    ensures LedgerOk(balances, es, batches, items[i := FailedItem(items[i], message)], txs + [tx])
  {
    var items' := items[i := FailedItem(items[i], message)];
    forall k | 0 <= k < |es|
      ensures EarningOk(es[k], items')
    {
      assert EarningOk(es[k], items);
    }
    forall t
      ensures BalanceOk(BalanceOf(balances, t), es, items', t)
    {
      assert BalanceOk(BalanceOf(balances, t), es, items, t);
      PaidOutUpdate(items, i, items'[i], t);
    }
  }

  /** Opening a batch keeps the ledger consistent. */
  lemma NewBatchKeepsLedger(balances: map<string, Balance>, es: seq<Earning>, batches: seq<Batch>,
                            items: seq<BatchItem>, txs: seq<Transaction>, b: Batch)
    requires LedgerOk(balances, es, batches, items, txs)
    ensures LedgerOk(balances, es, batches + [b], items, txs)
  {
  }

  lemma BatchUpdateKeepsLedger(balances: map<string, Balance>, es: seq<Earning>, batches: seq<Batch>,
                               items: seq<BatchItem>, txs: seq<Transaction>, k: nat, b: Batch)
    requires LedgerOk(balances, es, batches, items, txs) && k < |batches|
    ensures LedgerOk(balances, es, batches[k := b], items, txs)
  {
  }

  /** Adding pending items to open batches moves no money. */
  lemma {:induction false} NewItemsKeepLedger(balances: map<string, Balance>, es: seq<Earning>, batches: seq<Batch>,
                                              items: seq<BatchItem>, txs: seq<Transaction>, added: seq<BatchItem>)
    requires LedgerOk(balances, es, batches, items, txs)
    requires forall k :: 0 <= k < |added| ==> added[k].batchId < |batches| && added[k].status == ItemStatus.Pending
    ensures LedgerOk(balances, es, batches, items + added, txs)
    decreases |added|
  {
    if added != [] {
      NewItemKeepsLedger(balances, es, batches, items, txs, added[0]);
      NewItemsKeepLedger(balances, es, batches, items + [added[0]], txs, added[1..]);
      assert items + added == items + [added[0]] + added[1..];
    } else {
      assert items + added == items;
    }
  }

  /** Adding a pending item to an open batch moves no money. */
  lemma NewItemKeepsLedger(balances: map<string, Balance>, es: seq<Earning>, batches: seq<Batch>,
                           items: seq<BatchItem>, txs: seq<Transaction>, it: BatchItem)
    requires LedgerOk(balances, es, batches, items, txs)
    requires it.batchId < |batches| && it.status == ItemStatus.Pending
    ensures LedgerOk(balances, es, batches, items + [it], txs)
  {
    var items' := items + [it];
    assert items'[..|items'| - 1] == items;
    forall k | 0 <= k < |es|
      ensures EarningOk(es[k], items')
    {
      assert EarningOk(es[k], items);
    }
    forall s
      ensures BalanceOk(BalanceOf(balances, s), es, items', s)
    {
      assert BalanceOk(BalanceOf(balances, s), es, items, s);
    }
  }

  /** Every balance row is non-negative and a seller is never paid out more
      than was credited to them. */
  lemma BalanceNeverNegative(balances: map<string, Balance>, es: seq<Earning>, batches: seq<Batch>,
                             items: seq<BatchItem>, txs: seq<Transaction>, sellerId: string)
    requires LedgerOk(balances, es, batches, items, txs)
    ensures 0 <= BalanceOf(balances, sellerId).available
    ensures 0 <= BalanceOf(balances, sellerId).totalPaidOut <= BalanceOf(balances, sellerId).totalEarned
  {
    assert BalanceOk(BalanceOf(balances, sellerId), es, items, sellerId);
    forall k | 0 <= k < |es|
      ensures es[k].netAmount >= 0
    {
      assert EarningOk(es[k], items);
    }
    OutstandingBounds(es, sellerId);
  }

  lemma {:induction false} SameAmountsSameSum(a: seq<BatchItem>, b: seq<BatchItem>)
    requires |a| == |b| && forall k :: 0 <= k < |a| ==> a[k].amount == b[k].amount
    ensures SumAmounts(a) == SumAmounts(b)
  {
    if a != [] {
      SameAmountsSameSum(a[..|a| - 1], b[..|b| - 1]);
    }
  }

  /** Paying items keeps the total of their amounts. */
  lemma SameRowsSameSum(before: seq<BatchItem>, after: seq<BatchItem>, first: nat)
    requires first <= |before| == |after|
    requires forall j :: first <= j < |after| ==> SameRow(after[j], before[j])
    ensures SumAmounts(after[first..]) == SumAmounts(before[first..])
  {
    var a, b := before[first..], after[first..];
    forall k | 0 <= k < |a|
      ensures a[k].amount == b[k].amount
    {
      assert SameRow(after[first + k], before[first + k]);
    }
    SameAmountsSameSum(a, b);
  }

  /** The status a processed batch ends in. */
  function FinalStatus(successful: nat, failed: nat): (st: BatchStatus)
    ensures st == BatchStatus.Completed <==> failed == 0
    ensures st == BatchStatus.Failed <==> failed > 0 && successful == 0
    ensures st == BatchStatus.PartiallyFailed <==> failed > 0 && successful > 0
  {
    if failed == 0 then BatchStatus.Completed
    else if successful == 0 then BatchStatus.Failed
    else BatchStatus.PartiallyFailed
  }

  /** How one attempt at paying an item ends: the seller's method names no
      adapter, or the adapter succeeded with a transaction id, or it failed
      with a message. */
  datatype Attempt = UnknownMethod(message: string) | Succeeded(transactionId: Option<string>) | FailedWith(message: string)

  function AttemptOf(u: User, it: BatchItem, adapter: Adapter): (a: Attempt)
    requires u.payoutMethod.Some?
    ensures a.UnknownMethod? <==> GetAdapter(u.payoutMethod.value).Failure?
    ensures a.UnknownMethod? ==> a.message == "Unknown payout method: " + u.payoutMethod.value
  {
    match GetAdapter(u.payoutMethod.value)
    case Failure(message) => UnknownMethod(message)
    case Success(m) =>
      var call := adapter(m, it.sellerId, it.amount, u.payoutDetails.GetOr(map[]));
      match FailureOf(call)
      case None => Succeeded(call.result.transactionId)
      case Some(message) => FailedWith(message)
  }

  /** The four tables the processing of an item writes. */
  datatype Books = Books(items: seq<BatchItem>, transactions: seq<Transaction>,
                         balances: map<string, Balance>, earnings: seq<Earning>)

  /** The transaction row a finished attempt records. */
  function CompletedTransaction(i: nat, it: BatchItem, u: User, transactionId: Option<string>, now: int): Transaction
  {
    Transaction(i, it.sellerId, it.amount, transactionId, TransactionStatus.Completed,
                u.payoutMethod, u.payoutDetails, None, now, Some(now))
  }

  function FailedTransaction(i: nat, it: BatchItem, u: User, message: string, now: int): Transaction
  {
    Transaction(i, it.sellerId, it.amount, None, TransactionStatus.Failed,
                u.payoutMethod, u.payoutDetails, Some(message), now, None)
  }

  /** Whether item i can be handed to `processPayoutItem`: it exists, and
      its seller has a user row with a payout method and a balance row. */
  predicate Attemptable(bk: Books, i: nat, users: map<string, User>)
  {
    && i < |bk.items|
    && bk.items[i].sellerId in users && users[bk.items[i].sellerId].payoutMethod.Some?
    && bk.items[i].sellerId in bk.balances
  }

  /** The tables after `processPayoutItem` on item i. An unknown method
      writes nothing. A success completes the item, records a completed
      transaction, debits the amount and settles the seller's earnings. A
      failure marks the item failed and records a failed transaction; no
      money moves. */
  function PayItem(bk: Books, i: nat, users: map<string, User>, adapter: Adapter, now: int): (r: Books)
    ensures |r.items| == |bk.items|
  {
    if !Attemptable(bk, i, users) then bk
    else
      var it := bk.items[i];
      var u := users[it.sellerId];
      match AttemptOf(u, it, adapter)
      case UnknownMethod(_) => bk
      case Succeeded(transactionId) =>
        Books(bk.items[i := CompletedItem(it, transactionId, now)],
              bk.transactions + [CompletedTransaction(i, it, u, transactionId, now)],
              bk.balances[it.sellerId := Debit(bk.balances[it.sellerId], it.amount, now)],
              SettleAll(bk.earnings, it.sellerId, i, now))
      case FailedWith(message) =>
        Books(bk.items[i := FailedItem(it, message)],
              bk.transactions + [FailedTransaction(i, it, u, message, now)],
              bk.balances, bk.earnings)
  }

  /** The tables after the processing loop has handled the items at
      positions lo..hi, in order. */
  function PaidThrough(bk: Books, lo: nat, hi: nat, users: map<string, User>, adapter: Adapter, now: int): (r: Books)
    ensures |r.items| == |bk.items|
    decreases hi
  {
    if hi <= lo then bk else PayItem(PaidThrough(bk, lo, hi - 1, users, adapter, now), hi - 1, users, adapter, now)
  }

  /** One attempt changes only item i, keeping its seller, amount and batch,
      and only the balance of that item's seller. */
  lemma PayItemFrame(bk: Books, i: nat, users: map<string, User>, adapter: Adapter, now: int)
    ensures var r := PayItem(bk, i, users, adapter, now);
            && (forall k :: 0 <= k < |bk.items| && k != i ==> r.items[k] == bk.items[k])
            && (i < |bk.items| ==> SameRow(r.items[i], bk.items[i]))
            && (forall s :: (i >= |bk.items| || s != bk.items[i].sellerId) ==> BalanceOf(r.balances, s) == BalanceOf(bk.balances, s))
  {
  }

  /** The loop over lo..hi changes only those items, keeping each one's
      seller, amount and batch. */
  lemma {:induction false} PaidThroughFrame(bk: Books, lo: nat, hi: nat, users: map<string, User>, adapter: Adapter, now: int)
    ensures var r := PaidThrough(bk, lo, hi, users, adapter, now);
            && (forall k :: 0 <= k < |bk.items| && (k < lo || k >= hi) ==> r.items[k] == bk.items[k])
            && (forall k :: 0 <= k < |bk.items| ==> SameRow(r.items[k], bk.items[k]))
    decreases hi
  {
    if hi > lo {
      var mid := PaidThrough(bk, lo, hi - 1, users, adapter, now);
      PaidThroughFrame(bk, lo, hi - 1, users, adapter, now);
      PayItemFrame(mid, hi - 1, users, adapter, now);
    }
  }

  /** A seller with no item among positions lo..hi keeps their balance. */
  lemma {:induction false} PaidThroughOthers(bk: Books, lo: nat, hi: nat, users: map<string, User>, adapter: Adapter,
                                             now: int, s: string)
    requires hi <= |bk.items|
    requires forall k :: lo <= k < hi ==> bk.items[k].sellerId != s
    ensures BalanceOf(PaidThrough(bk, lo, hi, users, adapter, now).balances, s) == BalanceOf(bk.balances, s)
    decreases hi
  {
    if hi > lo {
      var mid := PaidThrough(bk, lo, hi - 1, users, adapter, now);
      PaidThroughOthers(bk, lo, hi - 1, users, adapter, now, s);
      PaidThroughFrame(bk, lo, hi - 1, users, adapter, now);
      PayItemFrame(mid, hi - 1, users, adapter, now);
    }
  }

  /** With one item per seller, the seller of a pending item at position j
      is debited its amount exactly when that item ends completed, and
      keeps their balance otherwise. */
  lemma {:induction false} PaidThroughSeller(bk: Books, lo: nat, hi: nat, users: map<string, User>, adapter: Adapter,
                                             now: int, j: nat)
    requires lo <= j < hi <= |bk.items| && DistinctSellers(bk.items, lo)
    requires bk.items[j].status == ItemStatus.Pending
    ensures var r := PaidThrough(bk, lo, hi, users, adapter, now);
            var s := bk.items[j].sellerId;
            BalanceOf(r.balances, s)
            == if r.items[j].status == ItemStatus.Completed then Debit(BalanceOf(bk.balances, s), bk.items[j].amount, now)
               else BalanceOf(bk.balances, s)
    decreases hi
  {
    var s := bk.items[j].sellerId;
    var mid := PaidThrough(bk, lo, hi - 1, users, adapter, now);
    PaidThroughFrame(bk, lo, hi - 1, users, adapter, now);
    PayItemFrame(mid, hi - 1, users, adapter, now);
    if j == hi - 1 {
      PaidThroughOthers(bk, lo, hi - 1, users, adapter, now, s);
      assert mid.items[j] == bk.items[j];
      PayItemSeller(mid, j, users, adapter, now);
    } else {
      PaidThroughSeller(bk, lo, hi - 1, users, adapter, now, j);
      assert mid.items[hi - 1].sellerId == bk.items[hi - 1].sellerId != s;
    }
  }

  /** Paying a pending item debits its seller by its amount exactly when
      the item completes. */
  lemma PayItemSeller(bk: Books, i: nat, users: map<string, User>, adapter: Adapter, now: int)
    requires i < |bk.items| && bk.items[i].status == ItemStatus.Pending
    ensures var r := PayItem(bk, i, users, adapter, now);
            var s := bk.items[i].sellerId;
            BalanceOf(r.balances, s)
            == if r.items[i].status == ItemStatus.Completed then Debit(BalanceOf(bk.balances, s), bk.items[i].amount, now)
               else BalanceOf(bk.balances, s)
  {
  }

  /** From position `first` on, each item's seller holds, in `after`, the
      balance they held in `before` debited by the item's amount when the
      item completed, and unchanged otherwise. */
  predicate PaidDebits(items: seq<BatchItem>, first: nat, after: map<string, Balance>, before: map<string, Balance>, now: int)
  {
    forall j :: first <= j < |items| ==>
      BalanceOf(after, items[j].sellerId)
      == if items[j].status == ItemStatus.Completed
         then Debit(BalanceOf(before, items[j].sellerId), items[j].amount, now)
         else BalanceOf(before, items[j].sellerId)
  }

  /** Paying pending items with one item per seller: each item's seller is
      debited its amount exactly when the item completed, and every seller
      without an item keeps their balance. */
  lemma PaidBalances(bk: Books, first: nat, users: map<string, User>, adapter: Adapter, now: int)
    requires first <= |bk.items| && DistinctSellers(bk.items, first) && Payable(bk.items, first, users, bk.balances)
    ensures var r := PaidThrough(bk, first, |bk.items|, users, adapter, now);
            && PaidDebits(r.items, first, r.balances, bk.balances, now)
            && (forall s :: (forall k :: first <= k < |bk.items| ==> bk.items[k].sellerId != s)
                  ==> BalanceOf(r.balances, s) == BalanceOf(bk.balances, s))
  {
    var r := PaidThrough(bk, first, |bk.items|, users, adapter, now);
    PaidThroughFrame(bk, first, |bk.items|, users, adapter, now);
    forall j | first <= j < |bk.items|
      ensures BalanceOf(r.balances, r.items[j].sellerId)
              == if r.items[j].status == ItemStatus.Completed
                 then Debit(BalanceOf(bk.balances, r.items[j].sellerId), r.items[j].amount, now)
                 else BalanceOf(bk.balances, r.items[j].sellerId)
    {
      PaidThroughSeller(bk, first, |bk.items|, users, adapter, now, j);
    }
    forall s | forall k :: first <= k < |bk.items| ==> bk.items[k].sellerId != s
      ensures BalanceOf(r.balances, s) == BalanceOf(bk.balances, s)
    {
      PaidThroughOthers(bk, first, |bk.items|, users, adapter, now, s);
    }
  }

  datatype WeeklyOutcome = NoSellers | Ran(batchId: nat, successful: nat, failed: nat)

  datatype ManualError = SellerNotFound | NotAllowed(message: string) | PayoutFailed(message: string)
  datatype ManualReceipt = ManualReceipt(batchId: nat, transactionId: Option<string>)

  function Lookup<K, V>(m: map<K, V>, k: K): (r: Option<V>)
    ensures r.Some? <==> k in m
    ensures r.Some? ==> r.value == m[k]
  {
    if k in m then Some(m[k]) else None
  }

  const MANUAL_NOTES := "Manual payout triggered by admin"

  /** The checks a manual payout makes before writing anything. */
  function ManualPrecheck(u: Option<User>, b: Option<Balance>): (r: Option<ManualError>)
    ensures r.None? <==> && u.Some? && u.value.role == Role.Seller && u.value.payoutVerified
                         && u.value.payoutMethod.Some? && Truthy(u.value.payoutMethod.value)
                         && b.Some? && b.value.available > 0
    ensures (u.None? || u.value.role != Role.Seller) ==> r == Some(SellerNotFound)
  {
    if u.None? || u.value.role != Role.Seller then Some(SellerNotFound)
    else if !u.value.payoutVerified || u.value.payoutMethod.None? || !Truthy(u.value.payoutMethod.value) then
      Some(NotAllowed("Seller payout information not verified"))
    else if b.None? || b.value.available <= 0 then Some(NotAllowed("No available balance for payout"))
    else None
  }

  function ScannedIds(orders: map<string, Order>, now: int): set<string>
  {
    set id | id in orders && Scanned(orders[id], now)
  }

  /** The orders table part way through the scan, once the orders in
      `done` have been visited. */
  function ScanState(orders: map<string, Order>, done: set<string>, now: int): map<string, Order>
  {
    map id | id in orders :: if id in done then AfterScan(orders[id], now) else orders[id]
  }

  function PromotedAmong(orders: map<string, Order>, done: set<string>, now: int): set<string>
  {
    set id | id in done && id in orders && Promoted(orders[id], now)
  }

  lemma ScanStateStep(orders: map<string, Order>, done: set<string>, id: string, now: int)
    requires id in orders && id !in done
    ensures ScanState(orders, done, now)[id := AfterScan(orders[id], now)] == ScanState(orders, done + {id}, now)
  {
  }

  lemma PromotedStep(orders: map<string, Order>, done: set<string>, id: string, now: int)
    requires id in orders && id !in done
    ensures Promoted(orders[id], now) ==>
              (id !in PromotedAmong(orders, done, now)
               && PromotedAmong(orders, done + {id}, now) == PromotedAmong(orders, done, now) + {id})
    ensures !Promoted(orders[id], now) ==> PromotedAmong(orders, done + {id}, now) == PromotedAmong(orders, done, now)
  {
  }

  lemma ScanComplete(orders: map<string, Order>, now: int)
    ensures ScanState(orders, ScannedIds(orders, now), now) == map id | id in orders :: AfterScan(orders[id], now)
    ensures PromotedAmong(orders, ScannedIds(orders, now), now) == PromotedIds(orders, now)
  {
  }

  /** The earnings a scan has written so far: one per promoted order, in
      the form `createSellerEarning` gives them. */
  ghost predicate CreditedFrom(es: seq<Earning>, orders: map<string, Order>, ids: set<string>, now: int)
  {
    forall k :: 0 <= k < |es| ==>
      && es[k].orderId in ids && es[k].orderId in orders && orders[es[k].orderId].sellerId.Some?
      && es[k] == NewEarning(orders[es[k].orderId], es[k].orderId, now)
  }

  lemma CreditedAppend(es: seq<Earning>, orders: map<string, Order>, ids: set<string>, id: string, now: int)
    requires CreditedFrom(es, orders, ids, now)
    requires id in orders && orders[id].sellerId.Some?
    ensures CreditedFrom(es + [NewEarning(orders[id], id, now)], orders, ids + {id}, now)
  {
  }

  lemma SettlementKeepsCredit(orders: map<string, Order>, es: seq<Earning>, sellerId: string, item: nat, now: int)
    requires OrdersCredited(orders, es)
    ensures OrdersCredited(orders, SettleAll(es, sellerId, item, now))
  {
    forall id
      ensures CountFor(SettleAll(es, sellerId, item, now), id) == CountFor(es, id)
    {
      SettleKeepsCounts(es, sellerId, item, now, id);
    }
  }

  /** Seller, amount and batch of an item: what processing never changes. */
  predicate SameRow(a: BatchItem, b: BatchItem)
  {
    a.sellerId == b.sellerId && a.amount == b.amount && a.batchId == b.batchId
  }

  /** The item the weekly run writes for a selected seller. */
  function NewItem(batchId: nat, sellerId: string, u: User, b: Balance): BatchItem
  {
    BatchItem(batchId, sellerId, b.available, ItemStatus.Pending, u.payoutMethod, u.payoutDetails, None, None, None)
  }

  /** No seller has two items from position `from` on. */
  predicate DistinctSellers(items: seq<BatchItem>, from: nat)
  {
    forall j, k :: from <= j < k < |items| ==> items[j].sellerId != items[k].sellerId
  }

  /** The items of a weekly batch from position `first` on: exactly one
      per selected seller, each for the seller's available balance. */
  ghost predicate WeeklyItems(items: seq<BatchItem>, first: nat, batchId: nat, sellers: set<string>,
                              balances: map<string, Balance>)
  {
    && first + |sellers| == |items|
    && DistinctSellers(items, first)
    && (forall j :: first <= j < |items| ==>
          && items[j].batchId == batchId && items[j].sellerId in sellers && items[j].sellerId in balances
          && items[j].amount == balances[items[j].sellerId].available)
    && (forall s :: s in sellers ==> exists j :: first <= j < |items| && items[j].sellerId == s)
  }

  /** Paying items changes neither their seller, amount nor batch. */
  lemma WeeklyItemsKept(before: seq<BatchItem>, after: seq<BatchItem>, first: nat, batchId: nat,
                        sellers: set<string>, balances: map<string, Balance>)
    requires WeeklyItems(before, first, batchId, sellers, balances)
    requires |after| == |before| && forall j :: first <= j < |after| ==> SameRow(after[j], before[j])
    ensures WeeklyItems(after, first, batchId, sellers, balances)
  {
    forall s | s in sellers
      ensures exists j :: first <= j < |after| && after[j].sellerId == s
    {
      var j :| first <= j < |before| && before[j].sellerId == s;
      assert after[j].sellerId == s;
    }
  }

  /** No seller occurs twice in the list. */
  predicate NoRepeats(order: seq<string>)
  {
    forall j, k :: 0 <= j < k < |order| ==> order[j] != order[k]
  }

  /** Lists a set of sellers, each once. The order is left open: the source
      takes whatever order the database returns. */
  method ListSellers(sellers: set<string>) returns (order: seq<string>)
    ensures NoRepeats(order) && |order| == |sellers|
    ensures forall s :: s in order <==> s in sellers
  {
    var todo := sellers;
    order := [];
    while todo != {}
      invariant todo <= sellers
      invariant NoRepeats(order) && |order| + |todo| == |sellers|
      invariant forall s :: s in order <==> s in sellers && s !in todo
      decreases |todo|
    {
      var s :| s in todo;
      order := order + [s];
      todo := todo - {s};
    }
  }

  /** The items the weekly run writes for the sellers of `order`, in that
      order: each pending, for the seller's whole available balance, with
      the seller's payout method and details. */
  function ItemsFor(batchId: nat, order: seq<string>, users: map<string, User>, balances: map<string, Balance>)
    : (r: seq<BatchItem>)
    requires forall s :: s in order ==> s in users && s in balances
    ensures |r| == |order|
    ensures forall j :: 0 <= j < |r| ==> r[j] == NewItem(batchId, order[j], users[order[j]], balances[order[j]])
  {
    if order == [] then []
    else
      var s := order[|order| - 1];
      ItemsFor(batchId, order[..|order| - 1], users, balances) + [NewItem(batchId, s, users[s], balances[s])]
  }

  /** The first loop of the weekly run: one item per listed seller, and the
      total of their amounts. */
  method CollectItems(batchId: nat, order: seq<string>, users: map<string, User>, balances: map<string, Balance>)
    returns (added: seq<BatchItem>, total: int)
    requires forall s :: s in order ==> s in users && s in balances
    ensures added == ItemsFor(batchId, order, users, balances)
    ensures total == SumAmounts(added)
  {
    added, total := [], 0;
    var i := 0;
    while i < |order|
      invariant i <= |order| && |added| == i
      invariant forall j :: 0 <= j < i ==> added[j] == NewItem(batchId, order[j], users[order[j]], balances[order[j]])
      invariant total == SumAmounts(added)
    {
      var s := order[i];
      var it := NewItem(batchId, s, users[s], balances[s]);
      assert (added + [it])[..|added|] == added;
      added, total := added + [it], total + it.amount;
      i := i + 1;
    }
  }

  /** Rows from position `first` on that the processing loop may pay: still
      pending, for a seller with a payout method and a balance row whose
      available amount they carry. */
  predicate Payable(items: seq<BatchItem>, first: nat, users: map<string, User>, balances: map<string, Balance>)
  {
    forall j :: first <= j < |items| ==>
      && items[j].status == ItemStatus.Pending
      && items[j].sellerId in users && users[items[j].sellerId].payoutMethod.Some?
      && items[j].sellerId in balances && items[j].amount == balances[items[j].sellerId].available
  }

  /** Items written for a listing of sellers with a payout method can all
      be paid, and name each seller once. */
  lemma ListedItemsPayable(prefix: seq<BatchItem>, batchId: nat, order: seq<string>,
                           users: map<string, User>, balances: map<string, Balance>)
    requires NoRepeats(order)
    requires forall s :: s in order ==> s in users && s in balances && users[s].payoutMethod.Some?
    ensures Payable(prefix + ItemsFor(batchId, order, users, balances), |prefix|, users, balances)
    ensures DistinctSellers(prefix + ItemsFor(batchId, order, users, balances), |prefix|)
  {
    var added := ItemsFor(batchId, order, users, balances);
    var items := prefix + added;
    forall j | |prefix| <= j < |items|
      ensures items[j] == added[j - |prefix|]
    {
    }
  }

  /** Items written for a listing of the selected sellers are the weekly
      items, wherever they land in the table. */
  lemma ListedItemsAreWeekly(prefix: seq<BatchItem>, batchId: nat, order: seq<string>, sellers: set<string>,
                             users: map<string, User>, balances: map<string, Balance>)
    requires NoRepeats(order) && |order| == |sellers| && forall s :: s in order <==> s in sellers
    requires forall s :: s in sellers ==> s in users && s in balances
    ensures WeeklyItems(prefix + ItemsFor(batchId, order, users, balances), |prefix|, batchId, sellers, balances)
  {
    var added := ItemsFor(batchId, order, users, balances);
    var items := prefix + added;
    forall j | |prefix| <= j < |items|
      ensures items[j] == added[j - |prefix|]
    {
    }
    forall s | s in sellers
      ensures exists j :: |prefix| <= j < |items| && items[j].sellerId == s
    {
      var k :| 0 <= k < |order| && order[k] == s;
      assert items[|prefix| + k].sellerId == s;
    }
  }

  class PayoutService {
    /** The orders and users tables, shared with the controllers. */
    const orders: OrderBook
    const users: UserDirectory
    /** seller_balances, keyed by seller. */
    var balances: map<string, Balance>
    /** seller_earnings, payout_batches, payout_batch_items and
        payout_transactions; a row's id is its position. */
    var earnings: seq<Earning>
    var batches: seq<Batch>
    var items: seq<BatchItem>
    var transactions: seq<Transaction>

    ghost predicate Valid()
      reads this, orders
    {
      LedgerOk(balances, earnings, batches, items, transactions) && OrdersCredited(orders.orders, earnings)
    }

    constructor (orders: OrderBook, users: UserDirectory)
      requires forall id :: id in orders.orders ==> !orders.orders[id].payoutEligible
      ensures Valid()
      ensures this.orders == orders && this.users == users
      ensures balances == map[] && earnings == [] && batches == [] && items == [] && transactions == []
    {
      this.orders := orders;
      this.users := users;
      balances := map[];
      earnings := [];
      batches := [];
      items := [];
      transactions := [];
    }

    /** Sellers the weekly run pays: verified sellers with a payout method
        and a balance row holding at least the threshold. */
    predicate Qualifies(sellerId: string, threshold: int)
      reads this, users
    {
      && sellerId in users.users
      && users.users[sellerId].role == Role.Seller
      && users.users[sellerId].payoutVerified
      && users.users[sellerId].payoutMethod.Some?
      && sellerId in balances
      && balances[sellerId].available >= threshold
    }

    function SelectedSellers(threshold: int): (r: set<string>)
      reads this, users
      ensures forall s :: s in r <==> Qualifies(s, threshold)
    {
      set s | s in users.users && Qualifies(s, threshold)
    }

    /** Adds the increases to the seller's balance row, creating a zeroed
        row first when there is none. */
    method UpdateSellerBalance(sellerId: string, availableIncrease: int, pendingIncrease: int)
      modifies this`balances
      ensures balances == old(balances)[sellerId := Credit(BalanceOf(old(balances), sellerId), availableIncrease, pendingIncrease)]
    {
      var b := if sellerId in balances then balances[sellerId] else ZERO_BALANCE;
      b := Credit(b, availableIncrease, pendingIncrease);
      balances := balances[sellerId := b];
    }

    /** Writes the earning of an order that just became eligible and
        credits its net to the seller's available balance. */
    method CreateSellerEarning(o: Order, orderId: string, now: int) returns (e: Earning)
      requires o.sellerId.Some?
      requires LedgerOk(balances, earnings, batches, items, transactions)
      modifies this`earnings, this`balances
      ensures LedgerOk(balances, earnings, batches, items, transactions)
      ensures e == NewEarning(o, orderId, now)
      ensures earnings == old(earnings) + [e]
      ensures balances == old(balances)[e.sellerId := Credit(BalanceOf(old(balances), e.sellerId), e.netAmount, 0)]
    {
      e := NewEarning(o, orderId, now);
      CreditKeepsLedger(balances, earnings, batches, items, transactions, e);
      earnings := earnings + [e];
      UpdateSellerBalance(e.sellerId, e.netAmount, 0);
    }

    /** One scanned order: computes the window end, and when it is past
        saves the order as eligible and credits its earning. */
    method PromoteOrder(id: string, now: int) returns (promoted: bool)
      requires Valid()
      requires id in orders.orders && Scanned(orders.orders[id], now)
      modifies this`earnings, this`balances, orders`orders
      ensures Valid()
      ensures promoted == Promoted(old(orders.orders[id]), now)
      ensures orders.orders == old(orders.orders)[id := AfterScan(old(orders.orders[id]), now)]
      ensures promoted ==> earnings == old(earnings) + [NewEarning(old(orders.orders[id]), id, now)]
      ensures !promoted ==> earnings == old(earnings) && balances == old(balances)
    {
      var o := orders.orders[id];
      var windowEnd := WindowEnd(o);
      promoted := windowEnd < now;
      if promoted {
        o := o.(returnWindowEndsAt := Some(windowEnd), payoutEligible := true, payoutEligibleAt := Some(now));
        PromotionKeepsCredit(orders.orders, earnings, id, o, NewEarning(o, id, now));
        orders.orders := orders.orders[id := o];
        var e := CreateSellerEarning(o, id, now);
      }
    }

    /** What the daily scan has done once the orders in `done` were visited,
        starting from the orders `m0` and the earnings `e0`. */
    ghost predicate ScanProgress(m0: map<string, Order>, e0: seq<Earning>, added: seq<Earning>, done: set<string>, now: int)
      reads this, orders
    {
      && Valid()
      && orders.orders == ScanState(m0, done, now)
      && earnings == e0 + added
      && |added| == |PromotedAmong(m0, done, now)|
      && CreditedFrom(added, m0, PromotedAmong(m0, done, now), now)
    }

    /** One step of the daily scan, visiting the order `id`. */
    method ScanNext(id: string, now: int, ghost m0: map<string, Order>, ghost e0: seq<Earning>,
                    ghost done: set<string>, ghost added: seq<Earning>, count: nat)
      returns (count': nat, ghost added': seq<Earning>)
      requires id in ScannedIds(m0, now) && id !in done
      requires ScanProgress(m0, e0, added, done, now) && count == |added|
      modifies this`earnings, this`balances, orders`orders
      ensures ScanProgress(m0, e0, added', done + {id}, now) && count' == |added'|
    {
      ScanStateStep(m0, done, id, now);
      PromotedStep(m0, done, id, now);
      var promoted := PromoteOrder(id, now);
      count', added' := count, added;
      if promoted {
        CreditedAppend(added, m0, PromotedAmong(m0, done, now), id, now);
        count', added' := count + 1, added + [NewEarning(m0[id], id, now)];
      }
    }

    /** Visits the scanned orders in `todo`, each once, in any order. */
    method ScanRest(todo: set<string>, now: int, ghost m0: map<string, Order>, ghost e0: seq<Earning>,
                    ghost done: set<string>, ghost added: seq<Earning>, count: nat)
      returns (total: nat, ghost all: seq<Earning>)
      requires todo !! done && todo + done == ScannedIds(m0, now)
      requires ScanProgress(m0, e0, added, done, now) && count == |added|
      modifies this`earnings, this`balances, orders`orders
      ensures ScanProgress(m0, e0, all, ScannedIds(m0, now), now) && total == |all|
      decreases |todo|
    {
      if todo == {} {
        total, all := count, added;
      } else {
        var id :| id in todo;
        var next, added' := ScanNext(id, now, m0, e0, done, added, count);
        assert (todo - {id}) + (done + {id}) == todo + done;
        total, all := ScanRest(todo - {id}, now, m0, e0, done + {id}, added', next);
      }
    }

    /** The daily scan: every scanned order whose return window has passed
        becomes eligible and is credited once; returns how many were. */
    method MarkOrdersEligible(now: int) returns (count: nat)
      requires Valid()
      modifies this`earnings, this`balances, orders`orders
      ensures Valid()
      ensures orders.orders == map id | id in old(orders.orders) :: AfterScan(old(orders.orders)[id], now)
      ensures count == |PromotedIds(old(orders.orders), now)|
      ensures |earnings| == old(|earnings|) + count && earnings[..old(|earnings|)] == old(earnings)
      ensures CreditedFrom(earnings[old(|earnings|)..], old(orders.orders), PromotedIds(old(orders.orders), now), now)
      ensures forall s :: BalanceOf(balances, s).totalEarned
                          == BalanceOf(old(balances), s).totalEarned + Earned(earnings[old(|earnings|)..], s)
    {
      ghost var m0 := orders.orders;
      ghost var e0 := earnings;
      assert ScanState(m0, {}, now) == m0;
      assert earnings == e0 + [];
      ghost var added;
      count, added := ScanRest(ScannedIds(orders.orders, now), now, m0, e0, {}, [], 0);
      assert earnings[..|e0|] == e0 && earnings[|e0|..] == added;
      ScanComplete(m0, now);
      forall s
        ensures BalanceOf(balances, s).totalEarned == BalanceOf(old(balances), s).totalEarned + Earned(earnings[|e0|..], s)
      {
        GrowthEarned(BalanceOf(old(balances), s), BalanceOf(balances, s), e0, earnings, items, s);
      }
    }

    /** Pays one batch item through the adapter of the seller's payout
        method. An unknown method fails before anything is written. On
        success a completed transaction is recorded, the item completes with
        the adapter's transaction id, the amount moves from available to paid
        out and the seller's unsettled earnings are marked paid through this
        item. On failure the item is marked failed with the message and a
        failed transaction without an id is recorded; no money moves. The
        result is the message of the exception the source rethrows. */
    method ProcessPayoutItem(i: nat, adapter: Adapter, now: int) returns (failure: Option<string>)
      requires Valid()
      requires i < |items| && items[i].status == ItemStatus.Pending
      requires items[i].sellerId in users.users && users.users[items[i].sellerId].payoutMethod.Some?
      requires items[i].sellerId in balances && items[i].amount == balances[items[i].sellerId].available
      modifies this`items, this`transactions, this`balances, this`earnings
      ensures Valid()
      ensures |items| == old(|items|) && balances.Keys == old(balances.Keys)
      ensures failure.None? <==> items[i].status == ItemStatus.Completed
      ensures SameRow(items[i], old(items[i]))
      ensures forall k :: 0 <= k < |items| && k != i ==> items[k] == old(items[k])
      ensures forall s :: s != old(items[i].sellerId) ==> BalanceOf(balances, s) == BalanceOf(old(balances), s)
      ensures Books(items, transactions, balances, earnings)
              == PayItem(old(Books(items, transactions, balances, earnings)), i, users.users, adapter, now)
      ensures var it := old(items[i]);
              var u := users.users[it.sellerId];
              match AttemptOf(u, it, adapter)
              case UnknownMethod(message) =>
                && failure == Some(message)
                && items == old(items) && transactions == old(transactions)
                && balances == old(balances) && earnings == old(earnings)
              case Succeeded(transactionId) =>
                && failure.None?
                && items == old(items)[i := CompletedItem(it, transactionId, now)]
                && transactions == old(transactions) + [CompletedTransaction(i, it, u, transactionId, now)]
                && balances == old(balances)[it.sellerId := Debit(old(balances)[it.sellerId], it.amount, now)]
                && earnings == SettleAll(old(earnings), it.sellerId, i, now)
              case FailedWith(message) =>
                && failure == Some(message)
                && items == old(items)[i := FailedItem(it, message)]
                && transactions == old(transactions) + [FailedTransaction(i, it, u, message, now)]
                && balances == old(balances) && earnings == old(earnings)
    {
      var it := items[i];
      var u := users.users[it.sellerId];
      var adapterFor := GetAdapter(u.payoutMethod.value);
      if adapterFor.Failure? {
        return Some(adapterFor.error);
      }
      ghost var items0 := items;
      items := items[i := it.(status := ItemStatus.Processing)];
      var call := adapter(adapterFor.value, it.sellerId, it.amount, u.payoutDetails.GetOr(map[]));
      failure := FailureOf(call);
      if failure.None? {
        var transactionId := call.result.transactionId;
        var tx := CompletedTransaction(i, it, u, transactionId, now);
        var items' := items[i := CompletedItem(it, transactionId, now)];
        assert items' == items0[i := CompletedItem(it, transactionId, now)];
        var balances' := balances[it.sellerId := Debit(balances[it.sellerId], it.amount, now)];
        var earnings' := SettleAll(earnings, it.sellerId, i, now);
        SettlementKeepsLedger(balances, earnings, batches, items0, transactions, i, transactionId, tx, now);
        SettlementKeepsCredit(orders.orders, earnings, it.sellerId, i, now);
        transactions, items, balances, earnings := transactions + [tx], items', balances', earnings';
      } else {
        var message := failure.value;
        var tx := FailedTransaction(i, it, u, message, now);
        FailureKeepsLedger(balances, earnings, batches, items0, transactions, i, message, tx);
        assert items[i := FailedItem(it, message)] == items0[i := FailedItem(it, message)];
        items, transactions := items[i := FailedItem(it, message)], transactions + [tx];
      }
    }

    /** An item the processing loop may pay: still pending, for a seller with
        a payout method and a balance row whose available amount it carries. */
    /** Every item from `j` on is ready to pay. */
    predicate ReadyFrom(j: nat)
      reads this, users
    {
      forall k :: j <= k < |items| ==> ReadyToPay(k)
    }

    predicate ReadyToPay(j: nat)
      reads this, users
    {
      && j < |items|
      && items[j].status == ItemStatus.Pending
      && items[j].sellerId in users.users && users.users[items[j].sellerId].payoutMethod.Some?
      && items[j].sellerId in balances && items[j].amount == balances[items[j].sellerId].available
    }

    /** Appends pending items to existing batches. */
    method AddItems(added: seq<BatchItem>)
      requires Valid()
      requires forall k :: 0 <= k < |added| ==> added[k].batchId < |batches| && added[k].status == ItemStatus.Pending
      modifies this`items
      ensures Valid()
      ensures items == old(items) + added
    {
      NewItemsKeepLedger(balances, earnings, batches, items, transactions, added);
      items := items + added;
    }

    /** The first loop of the weekly run: one pending item per selected
        seller for the seller's whole available balance, and their total. */
    method AddBatchItems(batchId: nat, order: seq<string>) returns (total: int)
      requires Valid()
      requires batchId < |batches|
      requires forall s :: s in order ==> s in users.users && s in balances
      modifies this`items
      ensures Valid()
      ensures items == old(items) + ItemsFor(batchId, order, users.users, balances)
      ensures total == SumAmounts(ItemsFor(batchId, order, users.users, balances))
    {
      var added;
      added, total := CollectItems(batchId, order, users.users, balances);
      AddItems(added);
    }

    /** One step of the processing loop: pays item j and leaves the items
        after it ready to pay. */
    method PayNext(j: nat, first: nat, adapter: Adapter, now: int) returns (completed: bool)
      requires Valid()
      requires first <= j < |items| && DistinctSellers(items, first)
      requires ReadyFrom(j)
      modifies this`items, this`transactions, this`balances, this`earnings
      ensures Valid()
      ensures |items| == old(|items|) && DistinctSellers(items, first)
      ensures forall k :: 0 <= k < |items| && k != j ==> items[k] == old(items[k])
      ensures SameRow(items[j], old(items[j]))
      ensures completed <==> items[j].status == ItemStatus.Completed
      ensures ReadyFrom(j + 1)
      ensures Books(items, transactions, balances, earnings)
              == PayItem(old(Books(items, transactions, balances, earnings)), j, users.users, adapter, now)
    {
      ghost var before := items;
      assert ReadyToPay(j);
      var failure := ProcessPayoutItem(j, adapter, now);
      completed := failure.None?;
      forall k | j < k < |items|
        ensures ReadyToPay(k)
      {
        assert old(ReadyToPay(k));
        assert before[k].sellerId != before[j].sellerId;
      }
    }

    /** The second loop of the weekly run: pays every item from `first` on,
        counting successes and failures. */
    method PayBatchItems(first: nat, adapter: Adapter, now: int) returns (successful: nat, failed: nat)
      requires Valid()
      requires first <= |items|
      requires DistinctSellers(items, first)
      requires ReadyFrom(first)
      modifies this`items, this`transactions, this`balances, this`earnings
      ensures Valid()
      ensures |items| == old(|items|) && items[..first] == old(items[..first])
      ensures forall j :: first <= j < |items| ==> SameRow(items[j], old(items[j]))
      ensures successful + failed == |items| - first
      ensures first <= |items| && successful == CompletedBetween(items, first, |items|)
      ensures Books(items, transactions, balances, earnings)
              == PaidThrough(old(Books(items, transactions, balances, earnings)), first, |items|, users.users, adapter, now)
    {
      ghost var books0 := Books(items, transactions, balances, earnings);
      successful, failed := 0, 0;
      var j: nat := first;
      while j < |items|
        invariant Valid()
        invariant first <= j <= |items| == old(|items|)
        invariant ReadyFrom(j)
        invariant DistinctSellers(items, first)
        invariant successful + failed == j - first
        invariant successful == CompletedBetween(items, first, j)
        invariant Books(items, transactions, balances, earnings) == PaidThrough(books0, first, j, users.users, adapter, now)
      {
        ghost var before := items;
        ghost var paid := Books(items, transactions, balances, earnings);
        var completed := PayNext(j, first, adapter, now);
        assert PaidThrough(books0, first, j + 1, users.users, adapter, now) == PayItem(paid, j, users.users, adapter, now);
        CompletedStep(before, items, first, j);
        successful, failed := successful + (if completed then 1 else 0), failed + (if completed then 0 else 1);
        j := j + 1;
      }
      PaidThroughFrame(books0, first, |items|, users.users, adapter, now);
      assert items[..first] == old(items[..first]);
    }
  
    /** The second loop of the weekly run followed by the closing update of
        its batch: counts and final status, stamped with `now`. */
    method RunBatch(batchId: nat, first: nat, adapter: Adapter, now: int) returns (successful: nat, failed: nat)
      requires Valid()
      requires batchId < |batches| && first <= |items|
      requires DistinctSellers(items, first)
      requires Payable(items, first, users.users, balances)
      modifies this`batches, this`items, this`transactions, this`balances, this`earnings
      ensures Valid()
      ensures |items| == old(|items|) && items[..first] == old(items[..first])
      ensures forall j :: first <= j < |items| ==> SameRow(items[j], old(items[j]))
      ensures successful + failed == |items| - first
      ensures first <= |items| && successful == CompletedBetween(items, first, |items|)
      ensures Books(items, transactions, balances, earnings)
              == PaidThrough(old(Books(items, transactions, balances, earnings)), first, |items|, users.users, adapter, now)
      ensures batches == old(batches)[batchId := old(batches[batchId]).(status := FinalStatus(successful, failed),
                successfulCount := successful, failedCount := failed, processedAt := Some(now))]
      ensures PaidDebits(items, first, balances, old(balances), now)
      ensures forall s :: (forall k :: first <= k < |items| ==> old(items[k]).sellerId != s)
                ==> BalanceOf(balances, s) == BalanceOf(old(balances), s)
    {
      assert ReadyFrom(first);
      PaidBalances(Books(items, transactions, balances, earnings), first, users.users, adapter, now);
      successful, failed := PayBatchItems(first, adapter, now);
      UpdateBatch(batchId, batches[batchId].(status := FinalStatus(successful, failed), successfulCount := successful,
                                             failedCount := failed, processedAt := Some(now)));
    }

    /** Appends a batch row; returns its id. */
    method AddBatch(b: Batch) returns (batchId: nat)
      requires Valid()
      modifies this`batches
      ensures Valid()
      ensures batchId == old(|batches|) && batches == old(batches) + [b]
    {
      NewBatchKeepsLedger(balances, earnings, batches, items, transactions, b);
      batchId := |batches|;
      batches := batches + [b];
    }

    /** Overwrites the batch row `batchId`. */
    method UpdateBatch(batchId: nat, b: Batch)
      requires Valid() && batchId < |batches|
      modifies this`batches
      ensures Valid()
      ensures batches == old(batches)[batchId := b]
    {
      BatchUpdateKeepsLedger(balances, earnings, batches, items, transactions, batchId, b);
      batches := batches[batchId := b];
    }

    /** The first part of the weekly run: opens the batch, writes one
        pending item per seller, and records the batch's total and seller
        count as it starts processing. */
    method OpenWeeklyBatch(batchNumber: string, order: seq<string>) returns (batchId: nat)
      requires Valid()
      requires forall s :: s in order ==> s in users.users && s in balances
      modifies this`batches, this`items
      ensures Valid()
      ensures items == old(items) + ItemsFor(batchId, order, users.users, balances)
      ensures batchId == old(|batches|)
      ensures batches == old(batches) + [Batch(batchNumber, BatchStatus.Processing,
                                               SumAmounts(ItemsFor(batchId, order, users.users, balances)),
                                               |order|, 0, 0, None, None)]
    {
      batchId := AddBatch(Batch(batchNumber, BatchStatus.Pending, 0, 0, 0, 0, None, None));
      var total := AddBatchItems(batchId, order);
      UpdateBatch(batchId, batches[batchId].(totalAmount := total, sellerCount := |order|,
                                             status := BatchStatus.Processing));
    }

    /** The weekly run after its sellers are chosen: one batch for the
        sellers, listed once each in `order`, one pending item per seller
        for their whole available balance, every item paid in turn, and the
        batch closed with its total, seller count, counts and final status.
        A seller whose item completed is debited that amount; every other
        seller keeps their balance. */
    method PaySellers(sellers: set<string>, batchNumber: string, adapter: Adapter, now: int)
      returns (batchId: nat, successful: nat, failed: nat, ghost order: seq<string>)
      requires Valid()
      requires forall s :: s in sellers ==> s in users.users && users.users[s].payoutMethod.Some? && s in balances
      modifies this`batches, this`items, this`transactions, this`balances, this`earnings
      ensures Valid()
      ensures batchId == old(|batches|) && |batches| == old(|batches|) + 1 && batches[..batchId] == old(batches)
      ensures NoRepeats(order) && (forall s :: s in order <==> s in sellers)
      ensures forall s :: s in order ==> s in users.users && s in old(balances)
      ensures Books(items, transactions, balances, earnings)
              == PaidThrough(Books(old(items) + ItemsFor(batchId, order, users.users, old(balances)),
                                   old(transactions), old(balances), old(earnings)),
                             old(|items|), |items|, users.users, adapter, now)
      ensures WeeklyItems(items, old(|items|), batchId, sellers, old(balances))
      ensures successful == CompletedBetween(items, old(|items|), |items|)
      ensures successful + failed == |sellers|
      ensures batches[batchId] == Batch(batchNumber, FinalStatus(successful, failed), SumAmounts(items[old(|items|)..]),
                                        |sellers|, successful, failed, Some(now), None)
      ensures PaidDebits(items, old(|items|), balances, old(balances), now)
      ensures forall s :: s !in sellers ==> BalanceOf(balances, s) == BalanceOf(old(balances), s)
    {
      ghost var items0, balances0, transactions0, earnings0 := items, balances, transactions, earnings;
      var listed := ListSellers(sellers);
      order := listed;
      var first := |items|;
      batchId := OpenWeeklyBatch(batchNumber, listed);
      ghost var written := items;
      ListedItemsAreWeekly(items0, batchId, order, sellers, users.users, balances);
      ListedItemsPayable(items0, batchId, order, users.users, balances);
      assert written[first..] == ItemsFor(batchId, order, users.users, balances);
      assert forall k :: first <= k < |written| ==> written[k].sellerId in sellers;
      successful, failed := RunBatch(batchId, first, adapter, now);
      WeeklyItemsKept(written, items, first, batchId, sellers, balances0);
      assert items[..first] == written[..first] == items0;
      SameRowsSameSum(written, items, first);
    }

    /** The weekly run, with the threshold defaulting to DEFAULT_THRESHOLD:
        with no qualifying seller nothing is written; otherwise the
        qualifying sellers are paid as PaySellers states, in a batch
        numbered from the date stamp and a random token. */
    method ProcessWeeklyPayout(threshold: Option<int>, dateStamp: string, token: string, adapter: Adapter, now: int)
      returns (outcome: WeeklyOutcome, ghost order: seq<string>)
      requires Valid()
      modifies this`batches, this`items, this`transactions, this`balances, this`earnings
      ensures Valid()
      ensures var selected := old(SelectedSellers(threshold.GetOr(DEFAULT_THRESHOLD)));
              outcome.NoSellers? <==> selected == {}
      ensures outcome.NoSellers? ==>
                && batches == old(batches) && items == old(items) && transactions == old(transactions)
                && balances == old(balances) && earnings == old(earnings)
      ensures var selected := old(SelectedSellers(threshold.GetOr(DEFAULT_THRESHOLD)));
              outcome.Ran? ==>
                && outcome.batchId == old(|batches|) && |batches| == old(|batches|) + 1
                && batches[..outcome.batchId] == old(batches)
                && NoRepeats(order) && (forall s :: s in order <==> s in selected)
                && (forall s :: s in order ==> s in users.users && s in old(balances))
                && Books(items, transactions, balances, earnings)
                   == PaidThrough(Books(old(items) + ItemsFor(outcome.batchId, order, users.users, old(balances)),
                                        old(transactions), old(balances), old(earnings)),
                                  old(|items|), |items|, users.users, adapter, now)
                && WeeklyItems(items, old(|items|), outcome.batchId, selected, old(balances))
                && outcome.successful == CompletedBetween(items, old(|items|), |items|)
                && outcome.successful + outcome.failed == |selected|
                && batches[outcome.batchId] == Batch("PAYOUT-" + dateStamp + "-" + Upper(token),
                     FinalStatus(outcome.successful, outcome.failed), SumAmounts(items[old(|items|)..]),
                     |selected|, outcome.successful, outcome.failed, Some(now), None)
      ensures outcome.Ran? ==> PaidDebits(items, old(|items|), balances, old(balances), now)
      ensures forall s :: s !in old(SelectedSellers(threshold.GetOr(DEFAULT_THRESHOLD)))
                ==> BalanceOf(balances, s) == BalanceOf(old(balances), s)
    {
      order := [];
      var sellers := SelectedSellers(threshold.GetOr(DEFAULT_THRESHOLD));
      if sellers == {} {
        return NoSellers, order;
      }
      var batchId, successful, failed;
      batchId, successful, failed, order := PaySellers(sellers, "PAYOUT-" + dateStamp + "-" + Upper(token), adapter, now);
      outcome := Ran(batchId, successful, failed);
    }

    /** The admin's manual payout of one seller's whole available balance.
        A missing seller, an unverified seller and an empty balance are
        refused before anything is written. Otherwise a processing batch
        for that amount and one pending item are written and the item is
        paid; the batch ends completed with one success, or failed with one
        failure and the payout's error. */
    method ProcessManualPayout(sellerId: string, stamp: string, token: string, adapter: Adapter, now: int)
      returns (r: Result<ManualReceipt, ManualError>)
      requires Valid()
      modifies this`batches, this`items, this`transactions, this`balances, this`earnings
      ensures Valid()
      ensures var check := ManualPrecheck(Lookup(users.users, sellerId), Lookup(old(balances), sellerId));
              check.Some? ==>
                && r == Failure(check.value)
                && batches == old(batches) && items == old(items) && transactions == old(transactions)
                && balances == old(balances) && earnings == old(earnings)
      ensures var check := ManualPrecheck(Lookup(users.users, sellerId), Lookup(old(balances), sellerId));
              check.None? ==>
                var amount := old(balances)[sellerId].available;
                var batchId := old(|batches|);
                var number := "MANUAL-" + stamp + "-" + Upper(token);
                && |batches| == batchId + 1 && batches[..batchId] == old(batches)
                && |items| == old(|items|) + 1 && items[..old(|items|)] == old(items)
                && SameRow(items[old(|items|)], NewItem(batchId, sellerId, users.users[sellerId], old(balances)[sellerId]))
                && (r.Success? <==> items[old(|items|)].status == ItemStatus.Completed)
                && (r.Success? ==>
                      && r.value == ManualReceipt(batchId, items[old(|items|)].transactionId)
                      && balances == old(balances)[sellerId := Debit(old(balances)[sellerId], amount, now)]
                      && batches[batchId] == Batch(number, BatchStatus.Completed, amount, 1, 1, 0, Some(now), Some(MANUAL_NOTES)))
                && (r.Failure? ==>
                      && r.error.PayoutFailed?
                      && balances == old(balances)
                      && batches[batchId] == Batch(number, BatchStatus.Failed, amount, 1, 0, 1, Some(now), Some(MANUAL_NOTES)))
      ensures var check := ManualPrecheck(Lookup(users.users, sellerId), Lookup(old(balances), sellerId));
              check.None? ==>
                var u := users.users[sellerId];
                var it := NewItem(old(|batches|), sellerId, u, old(balances)[sellerId]);
                && Books(items, transactions, balances, earnings)
                   == PayItem(Books(old(items) + [it], old(transactions), old(balances), old(earnings)),
                              old(|items|), users.users, adapter, now)
                && match AttemptOf(u, it, adapter)
                   case Succeeded(transactionId) => r == Success(ManualReceipt(old(|batches|), transactionId))
                   case UnknownMethod(message) => r == Failure(PayoutFailed(message))
                   case FailedWith(message) => r == Failure(PayoutFailed(message))
    {
      var u := Lookup(users.users, sellerId);
      var b := Lookup(balances, sellerId);
      var check := ManualPrecheck(u, b);
      if check.Some? {
        return Failure(check.value);
      }
      var amount := b.value.available;
      var opening := Batch("MANUAL-" + stamp + "-" + Upper(token), BatchStatus.Processing, amount, 1, 0, 0, None, Some(MANUAL_NOTES));
      var batchId := AddBatch(opening);
      var i := |items|;
      AddItems([NewItem(batchId, sellerId, u.value, b.value)]);
      var failure := ProcessPayoutItem(i, adapter, now);
      if failure.None? {
        UpdateBatch(batchId, opening.(status := BatchStatus.Completed, successfulCount := 1, processedAt := Some(now)));
        r := Success(ManualReceipt(batchId, items[i].transactionId));
      } else {
        UpdateBatch(batchId, opening.(status := BatchStatus.Failed, failedCount := 1, processedAt := Some(now)));
        r := Failure(PayoutFailed(failure.value));
      }
    }
}
}
