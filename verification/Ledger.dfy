/**
 The payment ledger's history: the backfill splits an order's posted payments into order
 allocations and customer credit with window sums, and later corrections of the order total
 release allocations newest first. Amounts are in cents; the payments of one order are listed
 by (created_at, id).
 */
module Ledger {
  import opened Sums

  datatype Status = Posted | PendingConfirmation | Cancelled | Reversed

  datatype Payment = Payment(id: nat, status: Status, amount: nat, account: Option<nat>)

  datatype Allocation = Allocation(payment: nat, amount: int)

  datatype Movement = Movement(payment: nat, amount: int)

  // ---------- The backfill as the queries compute it ----------

  /** SUM over the preceding rows of the partition, 0 for the first. */
  function CollectedBefore(amounts: seq<nat>, k: nat): int
    requires k <= |amounts|
  {
    Sum(amounts[..k])
  }

  /** LEAST(amount, GREATEST(total - collected_before, 0)) for every payment. */
  function Applied(total: int, amounts: seq<nat>): (r: seq<int>)
    ensures |r| == |amounts|
  {
    seq(|amounts|, k requires 0 <= k < |amounts| => Min(amounts[k], Max(total - CollectedBefore(amounts, k), 0)))
  }

  /** amount - LEAST(amount, GREATEST(total - collected_before, 0)) for every payment. */
  function Excess(total: int, amounts: seq<nat>): (r: seq<int>)
    ensures |r| == |amounts|
  {
    seq(|amounts|, k requires 0 <= k < |amounts| =>
          amounts[k] - Min(amounts[k], Max(total - CollectedBefore(amounts, k), 0)))
  }

  /** The rows a backfill inserts: only the positive amounts. */
  function PositiveRows(amounts: seq<int>, n: nat): seq<Allocation>
    requires n <= |amounts|
  {
    if n == 0 then []
    else if amounts[n - 1] > 0 then PositiveRows(amounts, n - 1) + [Allocation(n - 1, amounts[n - 1])]
    else PositiveRows(amounts, n - 1)
  }

  function RowAmounts(rows: seq<Allocation>): (r: seq<int>)
    ensures |r| == |rows|
  {
    seq(|rows|, i requires 0 <= i < |rows| => rows[i].amount)
  }

  // ---------- The simple reading: fill the order, payment by payment ----------

  /** Each payment takes what is left of the order's capacity. */
  function Greedy(capacity: int, amounts: seq<nat>): (r: seq<int>)
    ensures |r| == |amounts|
    decreases amounts
  {
    if amounts == [] then []
    else var taken := Min(amounts[0], capacity); [taken] + Greedy(capacity - taken, amounts[1..])
  }

  lemma {:induction false} GreedyPrefix(capacity: int, amounts: seq<nat>, k: nat)
    requires capacity >= 0 && k <= |amounts|
    ensures Sum(Greedy(capacity, amounts)[..k]) == Min(capacity, Sum(amounts[..k]))
  {
    if k > 0 {
      var taken := Min(amounts[0], capacity);
      GreedyPrefix(capacity - taken, amounts[1..], k - 1);
      var rest := Greedy(capacity - taken, amounts[1..]);
      assert Greedy(capacity, amounts)[..k] == [taken] + rest[..k - 1];
      SumConcat([taken], rest[..k - 1]);
      assert amounts[..k] == [amounts[0]] + amounts[1..][..k - 1];
      SumConcat([amounts[0]], amounts[1..][..k - 1]);
      assert Sum([taken]) == taken && Sum([amounts[0]]) == amounts[0];
      NatSum(amounts[1..][..k - 1]);
    }
  }

  lemma {:induction false} NatSum(s: seq<nat>)
    ensures Sum(s) >= 0
  {
    SumNonNegative(s);
  }

  /** Sequences with the same prefix sums are the same. */
  lemma {:induction false} PrefixSumsDetermine(a: seq<int>, b: seq<int>)
    requires |a| == |b| && forall k: nat | k <= |a| :: Sum(a[..k]) == Sum(b[..k])
    ensures a == b
  {
    forall k: nat | k < |a| ensures a[k] == b[k] {
      SumStep(a, k);
      SumStep(b, k);
    }
  }

  /** Over the first k payments exactly the smaller of order total and money received is applied. */
  lemma {:induction false} AppliedPrefix(total: int, amounts: seq<nat>, k: nat)
    requires k <= |amounts|
    ensures Sum(Applied(total, amounts)[..k]) == Min(Max(total, 0), Sum(amounts[..k]))
  {
    if k > 0 {
      AppliedPrefix(total, amounts, k - 1);
      SumStep(Applied(total, amounts), k - 1);
      SumStep(amounts, k - 1);
      NatSum(amounts[..k - 1]);
    } else {
      assert amounts[..0] == [];
    }
  }

  /** The window-sum query is the greedy filling of the order in payment order. */
  lemma {:induction false} WindowSumsFillGreedily(total: int, amounts: seq<nat>)
    ensures Applied(total, amounts) == Greedy(Max(total, 0), amounts)
  {
    forall k: nat | k <= |amounts| ensures Sum(Applied(total, amounts)[..k]) == Sum(Greedy(Max(total, 0), amounts)[..k]) {
      AppliedPrefix(total, amounts, k);
      GreedyPrefix(Max(total, 0), amounts, k);
    }
    PrefixSumsDetermine(Applied(total, amounts), Greedy(Max(total, 0), amounts));
  }

  /**
   Every payment is fully accounted for, and at most one of them is divided between order and credit:
   after the first payment with credit nothing more is applied.
   */
  lemma {:induction false} AtMostOnePaymentIsSplit(total: int, amounts: seq<nat>)
    ensures forall i | 0 <= i < |amounts| ::
              && Applied(total, amounts)[i] + Excess(total, amounts)[i] == amounts[i]
              && Applied(total, amounts)[i] >= 0 && Excess(total, amounts)[i] >= 0
    ensures forall i, j | 0 <= i < j < |amounts| && Excess(total, amounts)[i] > 0 ::
              Applied(total, amounts)[j] == 0 && Excess(total, amounts)[j] == amounts[j]
  {
    forall i: nat, j: nat | i < j < |amounts| && Excess(total, amounts)[i] > 0
      ensures Applied(total, amounts)[j] == 0 && Excess(total, amounts)[j] == amounts[j]
    {
      NatSum(amounts[..i]);
      SumStep(amounts, i);
      PrefixGrows(amounts, i + 1, j);
    }
  }

  lemma {:induction false} PrefixGrows(amounts: seq<nat>, i: nat, j: nat)
    requires i <= j <= |amounts|
    ensures Sum(amounts[..i]) <= Sum(amounts[..j])
  {
    if i < j {
      PrefixGrows(amounts, i, j - 1);
      SumStep(amounts, j - 1);
    }
  }

  lemma {:induction false} SplitSums(total: int, amounts: seq<nat>, k: nat)
    requires k <= |amounts|
    ensures Sum(Applied(total, amounts)[..k]) + Sum(Excess(total, amounts)[..k]) == Sum(amounts[..k])
  {
    if k > 0 {
      SplitSums(total, amounts, k - 1);
      SumStep(Applied(total, amounts), k - 1);
      SumStep(Excess(total, amounts), k - 1);
      SumStep(amounts, k - 1);
    }
  }

  /** What the order and the customer receive in total does not depend on the order of the payments. */
  lemma {:induction false} TotalsIgnorePaymentOrder(total: int, amounts: seq<nat>, shuffled: seq<nat>)
    requires multiset(amounts) == multiset(shuffled)
    ensures Sum(Applied(total, amounts)) == Sum(Applied(total, shuffled))
    ensures Sum(Excess(total, amounts)) == Sum(Excess(total, shuffled))
  {
    SumPermuted(amounts, shuffled);
    WholeSplit(total, amounts);
    WholeSplit(total, shuffled);
  }

  lemma {:induction false} WholeSplit(total: int, amounts: seq<nat>)
    ensures Sum(Applied(total, amounts)) == Min(Max(total, 0), Sum(amounts))
    ensures Sum(Excess(total, amounts)) == Sum(amounts) - Min(Max(total, 0), Sum(amounts))
  {
    AppliedPrefix(total, amounts, |amounts|);
    SplitSums(total, amounts, |amounts|);
    SumWhole(Applied(total, amounts));
    SumWhole(Excess(total, amounts));
    SumWhole(amounts);
  }

  // ---------- The audits ----------

  lemma {:induction false} PositiveRowsSum(amounts: seq<int>, n: nat)
    requires n <= |amounts| && forall i | 0 <= i < |amounts| :: amounts[i] >= 0
    ensures Sum(RowAmounts(PositiveRows(amounts, n))) == Sum(amounts[..n])
    ensures forall i | 0 <= i < |PositiveRows(amounts, n)| :: PositiveRows(amounts, n)[i].amount > 0
  {
    if n > 0 {
      PositiveRowsSum(amounts, n - 1);
      SumStep(amounts, n - 1);
      var before, rows := PositiveRows(amounts, n - 1), PositiveRows(amounts, n);
      if amounts[n - 1] > 0 {
        assert RowAmounts(rows) == RowAmounts(before) + [amounts[n - 1]];
        SumConcat(RowAmounts(before), [amounts[n - 1]]);
        assert Sum([amounts[n - 1]]) == amounts[n - 1];
      }
    }
  }

  /** The audit lists an order with allocations whose sum is negative or above the order total. */
  predicate AllocationsExceedTotal(total: int, rows: seq<Allocation>) {
    rows != [] && (Sum(RowAmounts(rows)) < 0 || Sum(RowAmounts(rows)) > total)
  }

  lemma {:induction false} BackfilledAllocationsPassAudit(total: int, amounts: seq<nat>)
    ensures var rows := PositiveRows(Applied(total, amounts), |amounts|);
            !AllocationsExceedTotal(total, rows) && (rows == [] || 0 < Sum(RowAmounts(rows)) <= total)
    ensures forall rows :: AllocationsExceedTotal(total, rows) <==> rows != [] && !(0 <= Sum(RowAmounts(rows)) <= total)
    ensures Sum(RowAmounts(PositiveRows(Applied(total, amounts), |amounts|))) == Min(Max(total, 0), Sum(amounts))
  {
    var applied := Applied(total, amounts);
    PositiveRowsSum(applied, |amounts|);
    AppliedPrefix(total, amounts, |amounts|);
    SumWhole(amounts);
    NatSum(amounts);
    var rows := PositiveRows(applied, |amounts|);
    if rows != [] { PositiveSum(RowAmounts(rows)); }
  }

  /** Whatever the order does not take becomes customer credit, to the cent. */
  lemma {:induction false} BackfilledCreditIsTheRest(total: int, amounts: seq<nat>)
    ensures Sum(RowAmounts(PositiveRows(Applied(total, amounts), |amounts|)))
            + Sum(RowAmounts(PositiveRows(Excess(total, amounts), |amounts|))) == Sum(amounts)
  {
    forall i | 0 <= i < |amounts| ensures Applied(total, amounts)[i] >= 0 && Excess(total, amounts)[i] >= 0 {}
    PositiveRowsSum(Applied(total, amounts), |amounts|);
    PositiveRowsSum(Excess(total, amounts), |amounts|);
    SplitSums(total, amounts, |amounts|);
    SumWhole(amounts);
  }

  /** Inserted rows name payments of the order, in payment order and at most one each. */
  ghost predicate OneRowEach(rows: seq<Allocation>, n: nat) {
    && (forall i | 0 <= i < |rows| :: rows[i].payment < n && rows[i].amount > 0)
    && (forall i, j | 0 <= i < j < |rows| :: rows[i].payment < rows[j].payment)
  }

  lemma AppendFor(rows: seq<Allocation>, row: Allocation, p: int)
    ensures AmountFor(rows + [row], p) == AmountFor(rows, p) + if row.payment == p then row.amount else 0
  {
    assert (rows + [row])[..|rows|] == rows;
  }

  lemma {:induction false} PositiveRowsAreOrdered(amounts: seq<int>, n: nat)
    requires n <= |amounts|
    ensures OneRowEach(PositiveRows(amounts, n), n)
  {
    if n > 0 { PositiveRowsAreOrdered(amounts, n - 1); }
  }

  /** Each payment's row holds its own amount. */
  lemma {:induction false} PositiveRowsPerPayment(amounts: seq<int>, n: nat, p: nat)
    requires n <= |amounts| && forall i | 0 <= i < |amounts| :: amounts[i] >= 0
    ensures AmountFor(PositiveRows(amounts, n), p) == if p < n then amounts[p] else 0
  {
    if n > 0 {
      PositiveRowsPerPayment(amounts, n - 1, p);
      if amounts[n - 1] > 0 { AppendFor(PositiveRows(amounts, n - 1), Allocation(n - 1, amounts[n - 1]), p); }
    }
  }

  /**
   The backfill books every payment on itself: what its allocation rows hold is what the order takes of it,
   what its credit rows hold is the rest, and each list has at most one row a payment.
   */
  lemma {:induction false} BackfillBooksEachPayment(total: int, amounts: seq<nat>, p: nat)
    requires p < |amounts|
    ensures var n := |amounts|;
            var allocations, credit := PositiveRows(Applied(total, amounts), n), PositiveRows(Excess(total, amounts), n);
            && AmountFor(allocations, p) == Applied(total, amounts)[p] && AmountFor(credit, p) == Excess(total, amounts)[p]
            && AmountFor(allocations, p) + AmountFor(credit, p) == amounts[p]
            && OneRowEach(allocations, n) && OneRowEach(credit, n)
  {
    forall i | 0 <= i < |amounts| ensures Applied(total, amounts)[i] >= 0 && Excess(total, amounts)[i] >= 0 {}
    PositiveRowsAreOrdered(Applied(total, amounts), |amounts|);
    PositiveRowsAreOrdered(Excess(total, amounts), |amounts|);
    PositiveRowsPerPayment(Applied(total, amounts), |amounts|, p);
    PositiveRowsPerPayment(Excess(total, amounts), |amounts|, p);
  }

  lemma {:induction false} PositiveSum(s: seq<int>)
    requires s != [] && forall i | 0 <= i < |s| :: s[i] > 0
    ensures Sum(s) > 0
  {
    SumNonNegative(s[..|s| - 1]);
  }

  predicate HasReceiver(p: Payment, accounts: set<nat>) { p.account.Some? && p.account.value in accounts }

  /** One income movement for every posted payment whose receiving account exists. */
  function BackfillMovements(payments: seq<Payment>, accounts: set<nat>): seq<Movement> {
    if payments == [] then []
    else
      var n := |payments| - 1;
      var earlier := BackfillMovements(payments[..n], accounts);
      if payments[n].status.Posted? && HasReceiver(payments[n], accounts)
      then earlier + [Movement(payments[n].id, payments[n].amount)] else earlier
  }

  function NetAmount(movements: seq<Movement>, id: nat): int {
    if movements == [] then 0
    else
      var n := |movements| - 1;
      NetAmount(movements[..n], id) + if movements[n].payment == id then movements[n].amount else 0
  }

  /** The audit's comparison of a payment with its movements. */
  predicate LedgerMismatch(p: Payment, movements: seq<Movement>) {
    if p.status.Posted? then NetAmount(movements, p.id) != p.amount else NetAmount(movements, p.id) != 0
  }

  ghost predicate DistinctIds(payments: seq<Payment>) {
    forall i, j | 0 <= i < j < |payments| :: payments[i].id != payments[j].id
  }

  lemma NetSnoc(movements: seq<Movement>, m: Movement, id: nat)
    ensures NetAmount(movements + [m], id) == NetAmount(movements, id) + if m.payment == id then m.amount else 0
  {
  }

  lemma {:induction false} NoMovementOf(payments: seq<Payment>, accounts: set<nat>, id: nat)
    requires forall i | 0 <= i < |payments| :: payments[i].id != id
    ensures NetAmount(BackfillMovements(payments, accounts), id) == 0
  {
    if payments != [] {
      var n := |payments| - 1;
      NoMovementOf(payments[..n], accounts, id);
      NetSnoc(BackfillMovements(payments[..n], accounts), Movement(payments[n].id, payments[n].amount), id);
    }
  }

  lemma {:induction false} MovementOf(payments: seq<Payment>, accounts: set<nat>, i: nat)
    requires DistinctIds(payments) && i < |payments|
    ensures NetAmount(BackfillMovements(payments, accounts), payments[i].id)
         == if payments[i].status == Posted && payments[i].account.Some? && payments[i].account.value in accounts
            then payments[i].amount else 0
  {
    var n := |payments| - 1;
    if i < n {
      MovementOf(payments[..n], accounts, i);
    } else {
      NoMovementOf(payments[..n], accounts, payments[n].id);
    }
    NetSnoc(BackfillMovements(payments[..n], accounts), Movement(payments[n].id, payments[n].amount), payments[i].id);
  }

  /** After the movement backfill the ledger audit lists exactly the posted payments without an existing receiver. */
  lemma {:induction false} LedgerAuditListsUnreceived(payments: seq<Payment>, accounts: set<nat>, p: Payment)
    requires DistinctIds(payments) && p in payments && p.amount > 0
    ensures LedgerMismatch(p, BackfillMovements(payments, accounts))
       <==> p.status == Posted && (p.account.None? || p.account.value !in accounts)
    ensures forall ms :: LedgerMismatch(p, ms) <==> NetAmount(ms, p.id) != if p.status == Posted then p.amount else 0
  {
    var i :| 0 <= i < |payments| && payments[i] == p;
    MovementOf(payments, accounts, i);
  }

  // ---------- Correcting an order total ----------

  /** What each payment gives back, newest first, until the excess is gone. */
  function Released(applied: seq<int>, excess: int): (r: seq<int>)
    ensures |r| == |applied|
  {
    if applied == [] then []
    else
      var n := |applied| - 1;
      var r := Min(Max(applied[n], 0), excess);
      Released(applied[..n], excess - r) + [r]
  }

  function Kept(applied: seq<int>, correctedTotal: int): (r: seq<int>)
    ensures |r| == |applied|
  {
    var released := Released(applied, Max(Sum(applied) - correctedTotal, 0));
    seq(|applied|, k requires 0 <= k < |applied| => applied[k] - released[k])
  }

  /** Apart from its last payment, an order keeps what it would keep without that payment. */
  lemma {:induction false} KeptFront(applied: seq<int>, target: int)
    requires applied != [] && forall i | 0 <= i < |applied| :: applied[i] >= 0
    ensures var n := |applied| - 1;
            && Kept(applied, target)[..n] == Kept(applied[..n], target)
            && Kept(applied, target)[n] == applied[n] - Min(applied[n], Max(Sum(applied) - target, 0))
  {
    var n := |applied| - 1;
    var excess := Max(Sum(applied) - target, 0);
    var r := Min(applied[n], excess);
    SumNonNegative(applied[..n]);
    assert Released(applied, excess) == Released(applied[..n], excess - r) + [r];
    if excess == 0 { NothingReleased(applied[..n]); }
    assert Max(Sum(applied[..n]) - target, 0) == excess - r;
  }

  /** The corrected total caps every prefix: what stays applied is the oldest money. */
  lemma {:induction false} KeptPrefix(applied: seq<int>, target: int, k: nat)
    requires forall i | 0 <= i < |applied| :: applied[i] >= 0
    requires target >= 0 && k <= |applied|
    ensures Sum(Kept(applied, target)[..k]) == Min(target, Sum(applied[..k]))
    decreases |applied|
  {
    if applied == [] {
    } else {
      var n := |applied| - 1;
      var front := applied[..n];
      KeptFront(applied, target);
      if k <= n {
        KeptPrefix(front, target, k);
        assert Kept(applied, target)[..k] == Kept(front, target)[..k];
        assert applied[..k] == front[..k];
      } else {
        KeptPrefix(front, target, n);
        SumStep(Kept(applied, target), n);
        assert front[..n] == front && applied[..k] == applied;
        assert Kept(front, target)[..n] == Kept(front, target);
        SumNonNegative(front);
        CapArithmetic(Sum(front), applied[n], target);
      }
    }
  }

  lemma CapArithmetic(front: int, last: int, target: int)
    requires front >= 0 && last >= 0 && target >= 0
    ensures Min(target, front) + last - Min(last, Max(front + last - target, 0)) == Min(target, front + last)
  {
  }

  lemma {:induction false} NothingReleased(applied: seq<int>)
    ensures forall k | 0 <= k < |applied| :: Released(applied, 0)[k] == Min(Max(applied[k], 0), 0)
  {
    if applied != [] { NothingReleased(applied[..|applied| - 1]); }
  }

  /**
   Releasing newest first from a backfilled order leaves exactly the allocation a backfill at the
   smaller total would have made.
   */
  lemma {:induction false} ReleaseEqualsBackfillAtLowerTotal(total: int, amounts: seq<nat>, correctedTotal: int)
    requires total >= 0 && correctedTotal >= 0
    ensures Kept(Applied(total, amounts), correctedTotal) == Applied(Min(total, correctedTotal), amounts)
  {
    var applied, lower := Applied(total, amounts), Applied(Min(total, correctedTotal), amounts);
    forall k: nat | k <= |amounts| ensures Sum(Kept(applied, correctedTotal)[..k]) == Sum(lower[..k]) {
      KeptPrefix(applied, correctedTotal, k);
      AppliedPrefix(total, amounts, k);
      AppliedPrefix(Min(total, correctedTotal), amounts, k);
      NatSum(amounts[..k]);
    }
    PrefixSumsDetermine(Kept(applied, correctedTotal), lower);
  }

  function AfterCorrections(applied: seq<int>, totals: seq<nat>): seq<int> {
    if totals == [] then applied else Kept(AfterCorrections(applied, totals[..|totals| - 1]), totals[|totals| - 1])
  }

  function Smallest(total: nat, totals: seq<nat>): nat {
    if totals == [] then total else Min(Smallest(total, totals[..|totals| - 1]), totals[|totals| - 1])
  }

  /** Over any history of corrections the allocation is the backfill at the smallest total the order ever had. */
  lemma {:induction false} CorrectionsFollowTheSmallestTotal(total: nat, amounts: seq<nat>, totals: seq<nat>)
    ensures AfterCorrections(Applied(total, amounts), totals) == Applied(Smallest(total, totals), amounts)
    ensures Sum(AfterCorrections(Applied(total, amounts), totals)) <= if totals == [] then total else totals[|totals| - 1]
  {
    if totals != [] {
      var n := |totals| - 1;
      CorrectionsFollowTheSmallestTotal(total, amounts, totals[..n]);
      ReleaseEqualsBackfillAtLowerTotal(Smallest(total, totals[..n]), amounts, totals[n]);
    }
    WholeSplit(Smallest(total, totals), amounts);
  }

  /** Net allocations below zero count as nothing applied. */
  function Clipped(net: seq<int>): (r: seq<int>)
    ensures |r| == |net|
  {
    seq(|net|, k requires 0 <= k < |net| => Max(net[k], 0))
  }

  /** The computation in the source: newest payment first, stopping once the excess is used up. */
  method CalculateReleasedAllocations(net: seq<int>, correctedTotal: nat)
    returns (appliedCents: int, creditCents: int, allocations: seq<Allocation>)
    ensures appliedCents == Sum(Clipped(net)) && forall k | 0 <= k < |net| :: Clipped(net)[k] == if net[k] < 0 then 0 else net[k]
    ensures creditCents == Max(appliedCents - correctedTotal, 0) == Sum(RowAmounts(allocations))
    ensures Descending(allocations, 0, |net|)
    ensures forall k | 0 <= k < |net| ::
              Clipped(net)[k] - Kept(Clipped(net), correctedTotal)[k] == AmountFor(allocations, k)
  {
    var applied := Clipped(net);
    appliedCents := 0;
    for i := 0 to |net|
      invariant appliedCents == Sum(applied[..i])
    {
      SumStep(applied, i);
      appliedCents := appliedCents + applied[i];
    }
    SumWhole(applied);
    SumNonNegative(applied);
    creditCents := Max(appliedCents - correctedTotal, 0);
    allocations := ReleaseNewestFirst(applied, creditCents);
  }

  method ReleaseNewestFirst(applied: seq<int>, credit: int) returns (allocations: seq<Allocation>)
    requires 0 <= credit <= Sum(applied) && forall i | 0 <= i < |applied| :: applied[i] >= 0
    ensures Sum(RowAmounts(allocations)) == credit
    ensures Descending(allocations, 0, |applied|)
    ensures Tallied(Released(applied, credit), allocations, 0)
  {
    allocations := [];
    var excess := credit;
    var k := |applied|;
    ReleasingStart(applied, credit);
    while k > 0 && excess > 0
      invariant 0 <= excess && 0 <= k <= |applied| && Releasing(applied, credit, k, excess, allocations)
    {
      ghost var rows := allocations;
      var amount := Min(applied[k - 1], excess);
      if amount > 0 { allocations := allocations + [Allocation(k - 1, amount)]; }
      ReleasingStep(applied, credit, k, excess, rows);
      excess := excess - amount;
      k := k - 1;
    }
    ReleasingDone(applied, credit, k, excess, allocations);
  }

  ghost predicate Tallied(released: seq<int>, rows: seq<Allocation>, k: nat) {
    forall j | k <= j < |released| :: released[j] == AmountFor(rows, j)
  }

  /** The payments from k on are done; the rest still has to give excess. */
  ghost predicate Releasing(applied: seq<int>, credit: int, k: nat, excess: int, rows: seq<Allocation>) {
    && k <= |applied| && excess <= Sum(applied[..k])
    && Released(applied, credit)[..k] == Released(applied[..k], excess)
    && Tallied(Released(applied, credit), rows, k)
    && excess + Sum(RowAmounts(rows)) == credit
    && Descending(rows, k, |applied|)
  }

  lemma ReleasingStart(applied: seq<int>, credit: int)
    requires credit <= Sum(applied)
    ensures Releasing(applied, credit, |applied|, credit, [])
  {
    assert applied[..|applied|] == applied;
    assert Released(applied, credit)[..|applied|] == Released(applied, credit);
  }

  lemma TallyOne(released: seq<int>, rows: seq<Allocation>, k: nat, amount: int)
    requires 0 < k <= |released| && Tallied(released, rows, k) && Descending(rows, k, |released|)
    requires released[k - 1] == amount >= 0
    ensures var rows' := if amount > 0 then rows + [Allocation(k - 1, amount)] else rows;
            && Tallied(released, rows', k - 1) && Descending(rows', k - 1, |released|)
            && Sum(RowAmounts(rows')) == Sum(RowAmounts(rows)) + amount
  {
    NoAmountFor(rows, k - 1);
    AppendRow(rows, Allocation(k - 1, amount));
  }

  lemma LastOfPrefix(r: seq<int>, k: nat, g: seq<int>, a: int)
    requires 0 < k <= |r| && r[..k] == g + [a]
    ensures r[..k - 1] == g && r[k - 1] == a
  {
  }

  lemma ReleasingStep(applied: seq<int>, credit: int, k: nat, excess: int, rows: seq<Allocation>)
    requires 0 < k && 0 < excess && Releasing(applied, credit, k, excess, rows)
    requires forall i | 0 <= i < |applied| :: applied[i] >= 0
    ensures var amount := Min(applied[k - 1], excess);
            var rows' := if amount > 0 then rows + [Allocation(k - 1, amount)] else rows;
            Releasing(applied, credit, k - 1, excess - amount, rows')
  {
    var amount := Min(applied[k - 1], excess);
    var released := Released(applied, credit);
    SumStep(applied, k - 1);
    SumNonNegative(applied[..k - 1]);
    ReleasedStep(applied, k, excess);
    LastOfPrefix(released, k, Released(applied[..k - 1], excess - amount), amount);
    TallyOne(released, rows, k, amount);
  }

  lemma ReleasingDone(applied: seq<int>, credit: int, k: nat, excess: int, rows: seq<Allocation>)
    requires Releasing(applied, credit, k, excess, rows) && (k == 0 || excess == 0) && excess >= 0
    requires forall i | 0 <= i < |applied| :: applied[i] >= 0
    ensures Releasing(applied, credit, k, 0, rows) && Tallied(Released(applied, credit), rows, 0)
    ensures Descending(rows, 0, |applied|)
  {
    assert k == 0 ==> applied[..k] == [];
    NothingReleased(applied[..k]);
    var released := Released(applied, credit);
    forall j | 0 <= j < k ensures released[j] == AmountFor(rows, j) {
      assert released[j] == released[..k][j];
      NoAmountFor(rows, j);
    }
  }

  /** Positive rows for payments in [low, high), newest payment first. */
  ghost predicate Descending(rows: seq<Allocation>, low: nat, high: nat) {
    && (forall i | 0 <= i < |rows| :: low <= rows[i].payment < high && rows[i].amount > 0)
    && (forall i, j | 0 <= i < j < |rows| :: rows[i].payment > rows[j].payment)
  }

  lemma ReleasedStep(applied: seq<int>, k: nat, excess: int)
    requires 0 < k <= |applied| && applied[k - 1] >= 0
    ensures Released(applied[..k], excess)
         == Released(applied[..k - 1], excess - Min(applied[k - 1], excess)) + [Min(applied[k - 1], excess)]
  {
    assert applied[..k][..k - 1] == applied[..k - 1];
  }

  lemma AppendRow(rows: seq<Allocation>, row: Allocation)
    ensures Sum(RowAmounts(rows + [row])) == Sum(RowAmounts(rows)) + row.amount
    ensures forall p :: AmountFor(rows + [row], p) == AmountFor(rows, p) + if row.payment == p then row.amount else 0
  {
    forall p ensures AmountFor(rows + [row], p) == AmountFor(rows, p) + if row.payment == p then row.amount else 0 {
      AppendFor(rows, row, p);
    }
    assert RowAmounts(rows + [row])[..|rows|] == RowAmounts(rows);
  }

  /** What a list of allocation rows holds for one payment. */
  function AmountFor(rows: seq<Allocation>, payment: int): int {
    if rows == [] then 0
    else AmountFor(rows[..|rows| - 1], payment) + if rows[|rows| - 1].payment == payment then rows[|rows| - 1].amount else 0
  }

  lemma {:induction false} NoAmountFor(rows: seq<Allocation>, payment: int)
    requires forall i | 0 <= i < |rows| :: rows[i].payment != payment
    ensures AmountFor(rows, payment) == 0
  {
    if rows != [] { NoAmountFor(rows[..|rows| - 1], payment); }
  }
}
