/**
 Accounts payable: one migration clamps each balance to its approved payments, the next inserts an
 allocation for every approved payment. The two must tell the same story, and the audits must accept it.
 */
module Payables {
  import opened Sums

  type Id = nat

  datatype PaymentStatus = Approved | Posted | OtherStatus(name: string)
  datatype PayableStatus = Paid | Partial | Pending | Cancelled | Overdue

  /** Amounts are in cents. A document is known by its position in the table. */
  datatype Document = Document(payable: Option<Id>, amount: int, status: PaymentStatus)

  datatype Payable = Payable(total: int, paid: int, pending: int, status: PayableStatus, manualReview: bool)

  datatype Allocation = Allocation(document: nat, payable: Id, amount: int)

  // ---------- Sums over the tables ----------

  predicate Counts(d: Document, id: Id) { d.status == Approved && d.payable == Some(id) }

  /** SUM(amount) of the approved documents of a payable. */
  function TotalPaid(docs: seq<Document>, id: Id): int {
    if docs == [] then 0
    else TotalPaid(docs[..|docs| - 1], id) + if Counts(docs[|docs| - 1], id) then docs[|docs| - 1].amount else 0
  }

  predicate HasApproved(docs: seq<Document>, id: Id) { exists d | d in docs :: Counts(d, id) }

  function Allocated(allocations: seq<Allocation>, id: Id): int {
    if allocations == [] then 0
    else
      var last := allocations[|allocations| - 1];
      Allocated(allocations[..|allocations| - 1], id) + if last.payable == id then last.amount else 0
  }

  function AllocatedFrom(allocations: seq<Allocation>, document: nat): int {
    if allocations == [] then 0
    else
      var last := allocations[|allocations| - 1];
      AllocatedFrom(allocations[..|allocations| - 1], document) + if last.document == document then last.amount else 0
  }

  // ---------- First migration: balances ----------

  function Reconciled(p: Payable, totalPaid: int): Payable {
    var applied := Min(p.total, Max(0, totalPaid));
    p.(paid := applied, pending := Max(0, p.total - applied),
       status := if totalPaid >= p.total then Paid else if totalPaid > 0 then Partial else Pending,
       manualReview := totalPaid > p.total)
  }

  /** The audit of inconsistent balances. */
  predicate AuditInconsistent(p: Payable) {
    p.paid < 0 || p.pending < 0 || p.paid > p.total || p.pending > p.total || p.paid + p.pending != p.total
  }

  /**
   Every reconciled balance adds up, and the audit lists one exactly when its total is negative. What is paid is
   the amount nearest to the summed payments between nothing and the total; status and flag compare the two.
   */
  lemma ReconciledBalances(p: Payable, totalPaid: int)
    ensures var r := Reconciled(p, totalPaid);
            && r.paid + r.pending == r.total == p.total
            && (AuditInconsistent(r) <==> p.total < 0)
            && (0 <= totalPaid <= p.total ==> r.paid == totalPaid)
            && (totalPaid < 0 <= p.total ==> r.paid == 0)
            && (totalPaid > p.total || p.total < 0 ==> r.paid == p.total)
            && (r.status == Paid <==> totalPaid >= p.total)
            && (r.status == Partial <==> 0 < totalPaid < p.total)
            && (r.status == Pending <==> totalPaid <= 0 && totalPaid < p.total)
            && (r.manualReview <==> totalPaid > p.total)
  {}

  // ---------- Second migration: allocations ----------

  predicate Present(allocations: seq<Allocation>, document: nat, payable: Id) {
    exists a | a in allocations :: a.document == document && a.payable == payable
  }

  predicate Inserts(docs: seq<Document>, existing: seq<Allocation>, i: nat)
    requires i < |docs|
  {
    docs[i].status == Approved && docs[i].payable.Some? && !Present(existing, i, docs[i].payable.value)
  }

  /** The INSERT ... SELECT over the first documents, against the table as it was. */
  function Inserted(docs: seq<Document>, existing: seq<Allocation>, n: nat): seq<Allocation>
    requires n <= |docs|
  {
    if n == 0 then []
    else
      var before := Inserted(docs, existing, n - 1);
      if Inserts(docs, existing, n - 1)
      then before + [Allocation(n - 1, docs[n - 1].payable.value, docs[n - 1].amount)] else before
  }

  /** The table has no allocation of the approved, linked document yet. */
  predicate Missing(docs: seq<Document>, existing: seq<Allocation>, i: nat) {
    && i < |docs| && docs[i].status == Approved && docs[i].payable != None
    && forall a | a in existing :: !(a.document == i && Some(a.payable) == docs[i].payable)
  }

  /** The row is that of a missing allocation of one of the first n documents. */
  ghost predicate AllocatesOne(docs: seq<Document>, existing: seq<Allocation>, row: Allocation, n: nat) {
    && row.document < n && Missing(docs, existing, row.document)
    && docs[row.document] == Document(Some(row.payable), row.amount, Approved)
  }

  /** The row of a missing allocation is there. */
  ghost predicate AllocatedIn(docs: seq<Document>, existing: seq<Allocation>, rows: seq<Allocation>, i: nat) {
    Missing(docs, existing, i) ==> docs[i].payable.Some? && Allocation(i, docs[i].payable.value, docs[i].amount) in rows
  }

  /** One row for each missing allocation, in table order. */
  ghost predicate AllocatesMissing(docs: seq<Document>, existing: seq<Allocation>, rows: seq<Allocation>, n: nat) {
    && (forall k | 0 <= k < |rows| :: AllocatesOne(docs, existing, rows[k], n))
    && (forall j, k | 0 <= j < k < |rows| :: rows[j].document < rows[k].document)
    && (forall i: nat | i < n :: AllocatedIn(docs, existing, rows, i))
  }

  lemma {:induction false} InsertedAllocatesMissing(docs: seq<Document>, existing: seq<Allocation>, n: nat)
    requires n <= |docs|
    ensures AllocatesMissing(docs, existing, Inserted(docs, existing, n), n)
  {
    if n > 0 {
      InsertedAllocatesMissing(docs, existing, n - 1);
      var before, rows := Inserted(docs, existing, n - 1), Inserted(docs, existing, n);
      forall i: nat | i < n ensures AllocatedIn(docs, existing, rows, i) {
        if i < n - 1 { assert AllocatedIn(docs, existing, before, i); }
      }
      forall k | 0 <= k < |rows| ensures AllocatesOne(docs, existing, rows[k], n) {
        if k < |before| { assert AllocatesOne(docs, existing, before[k], n - 1); }
      }
    }
  }

  lemma OneMoreAllocation(allocations: seq<Allocation>, a: Allocation, id: Id, document: nat)
    ensures Allocated(allocations + [a], id) == Allocated(allocations, id) + if a.payable == id then a.amount else 0
    ensures AllocatedFrom(allocations + [a], document)
         == AllocatedFrom(allocations, document) + if a.document == document then a.amount else 0
  {
  }

  lemma {:induction false} InsertedCovers(docs: seq<Document>, n: nat, id: Id)
    requires n <= |docs|
    ensures Allocated(Inserted(docs, [], n), id) == TotalPaid(docs[..n], id)
  {
    if n > 0 {
      InsertedCovers(docs, n - 1, id);
      var d := docs[n - 1];
      assert docs[..n][..n - 1] == docs[..n - 1];
      assert TotalPaid(docs[..n], id) == TotalPaid(docs[..n - 1], id) + if Counts(d, id) then d.amount else 0;
      if Inserts(docs, [], n - 1) {
        OneMoreAllocation(Inserted(docs, [], n - 1), Allocation(n - 1, d.payable.value, d.amount), id, 0);
      }
    }
  }

  lemma {:induction false} AllocatedFromDocument(docs: seq<Document>, n: nat, i: nat)
    requires n <= |docs|
    ensures AllocatedFrom(Inserted(docs, [], n), i) == if i < n && Inserts(docs, [], i) then docs[i].amount else 0
  {
    if n > 0 {
      AllocatedFromDocument(docs, n - 1, i);
      if Inserts(docs, [], n - 1) {
        OneMoreAllocation(Inserted(docs, [], n - 1), Allocation(n - 1, docs[n - 1].payable.value, docs[n - 1].amount), 0, i);
      }
    }
  }

  lemma {:induction false} PositiveTotal(docs: seq<Document>, id: Id)
    requires forall d | d in docs && Counts(d, id) :: d.amount > 0
    ensures TotalPaid(docs, id) >= 0
    ensures HasApproved(docs, id) <==> TotalPaid(docs, id) > 0
  {
    if docs != [] {
      var init, last := docs[..|docs| - 1], docs[|docs| - 1];
      assert docs == init + [last];
      PositiveTotal(init, id);
      if Counts(last, id) { assert last in docs; }
    }
  }

  /** CHECK (amount > 0) on every inserted row. */
  ghost predicate AllPositive(docs: seq<Document>) {
    forall d | d in docs && d.status == Approved && d.payable.Some? :: d.amount > 0
  }

  /**
   The balances of the first migration are those of the allocations the second one inserts: paid is the
   allocated amount up to the total, the status says how far it goes, and the review flag is set exactly
   when the allocations exceed the total.
   */
  lemma {:induction false} BalancesMatchAllocations(docs: seq<Document>, p: Payable, id: Id)
    requires AllPositive(docs) && HasApproved(docs, id)
    ensures var r, granted := Reconciled(p, TotalPaid(docs, id)), Allocated(Inserted(docs, [], |docs|), id);
            && granted > 0
            && r.paid == Min(p.total, granted)
            && r.status == (if granted >= p.total then Paid else Partial)
            && (r.manualReview <==> granted > p.total)
  {
    InsertedCovers(docs, |docs|, id);
    assert docs[..|docs|] == docs;
    PositiveTotal(docs, id);
  }

  /** The audit of posted payments whose allocations do not add up to their amount. */
  predicate AuditAllocationTotal(docs: seq<Document>, allocations: seq<Allocation>, i: nat)
    requires i < |docs|
  {
    docs[i].status in {Posted, Approved} && AllocatedFrom(allocations, i) != docs[i].amount
  }

  function Post(d: Document): Document { if d.status == Approved then d.(status := Posted) else d }

  ghost function PostAll(docs: seq<Document>): seq<Document> { seq(|docs|, i requires 0 <= i < |docs| => Post(docs[i])) }

  /** An approved document is posted and otherwise unchanged; any other one is left alone. */
  predicate PostedIfApproved(before: Document, after: Document) {
    if before.status == Approved then after == Document(before.payable, before.amount, Posted) else after == before
  }

  /** Of the payments just posted, the audit lists exactly those without a payable. */
  lemma {:induction false} AuditListsUnlinked(docs: seq<Document>, i: nat)
    requires i < |docs| && docs[i].status == Approved && docs[i].amount != 0
    ensures AuditAllocationTotal(PostAll(docs), Inserted(docs, [], |docs|), i) <==> docs[i].payable.None?
  {
    AllocatedFromDocument(docs, |docs|, i);
  }

  class AccountsPayable {
    var docs: seq<Document>
    var payables: map<Id, Payable>
    var allocations: seq<Allocation>

    constructor (docs: seq<Document>, payables: map<Id, Payable>)
      ensures this.docs == docs && this.payables == payables && allocations == []
    {
      this.docs, this.payables, allocations := docs, payables, [];
    }

    /** UPDATE ... FROM payment_totals: only payables with an approved document have a total to join. */
    method ReconcileBalances()
      modifies this`payables
      ensures payables.Keys == old(payables).Keys
      ensures forall id | id in payables && (exists d | d in docs :: d.status == Approved && d.payable == Some(id)) ::
                payables[id] == Reconciled(old(payables)[id], TotalPaid(docs, id))
      ensures forall id | id in payables && (forall d | d in docs :: !(d.status == Approved && d.payable == Some(id))) ::
                payables[id] == old(payables)[id]
    {
      var todo := payables.Keys;
      while todo != {}
        invariant todo <= payables.Keys == old(payables).Keys
        invariant forall id | id in todo :: payables[id] == old(payables)[id]
        invariant forall id | id in payables && id !in todo ::
          payables[id] == if HasApproved(docs, id) then Reconciled(old(payables)[id], TotalPaid(docs, id)) else old(payables)[id]
        decreases todo
      {
        var id :| id in todo;
        if HasApproved(docs, id) { payables := payables[id := Reconciled(payables[id], TotalPaid(docs, id))]; }
        todo := todo - {id};
      }
    }

    /** Insert the allocations, then post; a non-positive amount violates the table's check and undoes it all. */
    method CreateAllocations() returns (ok: bool)
      modifies this`docs, this`allocations
      ensures ok <==> forall i: nat | Missing(old(docs), old(allocations), i) :: i < |old(docs)| && old(docs)[i].amount > 0
      ensures old(allocations) == [] ==> (ok <==> AllPositive(old(docs)))
      ensures ok ==> docs == PostAll(old(docs)) && |docs| == |old(docs)|
      ensures ok ==> forall i | 0 <= i < |docs| :: PostedIfApproved(old(docs)[i], docs[i])
      ensures ok ==> allocations == old(allocations) + Inserted(old(docs), old(allocations), |docs|)
      ensures ok ==> AllocatesMissing(old(docs), old(allocations), Inserted(old(docs), old(allocations), |docs|), |docs|)
      ensures !ok ==> docs == old(docs) && allocations == old(allocations)
    {
      var existing := allocations;
      InsertedAllocatesMissing(docs, existing, |docs|);
      for i := 0 to |docs|
        invariant docs == old(docs)
        invariant allocations == existing + Inserted(docs, existing, i)
        invariant forall k | 0 <= k < i && Inserts(docs, existing, k) :: docs[k].amount > 0
      {
        if Inserts(docs, existing, i) {
          if docs[i].amount <= 0 {
            allocations := existing;
            assert docs[i] in docs;
            return false;
          }
          allocations := allocations + [Allocation(i, docs[i].payable.value, docs[i].amount)];
        }
      }
      if existing == [] {
        forall d | d in docs && d.status == Approved && d.payable.Some? ensures d.amount > 0 {
          var k :| 0 <= k < |docs| && docs[k] == d;
          assert Inserts(docs, existing, k);
        }
      }
      for i := 0 to |docs|
        invariant |docs| == |old(docs)| && allocations == existing + Inserted(old(docs), existing, |docs|)
        invariant forall k | 0 <= k < |docs| :: docs[k] == if k < i then Post(old(docs)[k]) else old(docs)[k]
      {
        docs := docs[i := Post(docs[i])];
      }
      ok := true;
    }
  }
}
