/** Exactly which payment and refund writes the reservation triggers accept, and what an accepted write leaves. */
module OperationAcceptance {
  import opened Sums
  import opened OperationReferences

  /** No number, or nothing left of it after normalising. */
  predicate Blank(norm: string -> string, number: Option<string>) { number.None? || norm(number.value) == "" }

  predicate Carries(norm: string -> string, number: Option<string>, n: string) { number.Some? && norm(number.value) == n }

  predicate Open(p: Payment) { p.status == PendingConfirmation || p.status == Posted }

  /** The corrected payment exists, nobody else corrects it, and no other open payment carries the open row's number. */
  ghost predicate Fits(norm: string -> string, payments: map<PaymentId, Payment>, p: PaymentId, row: Payment) {
    && (row.correctedFrom.Some? ==>
          && (row.correctedFrom.value == p || row.correctedFrom.value in payments)
          && forall q | q in payments && q != p :: payments[q].correctedFrom != row.correctedFrom)
    && (Open(row) && !Blank(norm, row.operationNumber) ==>
          forall q | q in payments && q != p && Open(payments[q]) ::
            !Carries(norm, payments[q].operationNumber, norm(row.operationNumber.value)))
  }

  lemma FittingIsConsistent(norm: string -> string, payments: map<PaymentId, Payment>, p: PaymentId, row: Payment)
    requires Consistent(norm, payments) && Fits(norm, payments, p, row)
    ensures Consistent(norm, payments[p := row])
  {
  }

  lemma ConsistentFits(norm: string -> string, payments: map<PaymentId, Payment>, p: PaymentId, row: Payment)
    requires Consistent(norm, payments[p := row])
    ensures Fits(norm, payments, p, row)
  {
    var later := payments[p := row];
    assert p in later && later[p] == row;
    forall q | q in payments && q != p
      ensures row.correctedFrom.Some? ==> payments[q].correctedFrom != row.correctedFrom
      ensures Open(row) && !Blank(norm, row.operationNumber) && Open(payments[q]) ==>
                !Carries(norm, payments[q].operationNumber, norm(row.operationNumber.value))
    {
      assert q in later && later[q] == payments[q];
    }
  }

  lemma FitsIs(norm: string -> string, payments: map<PaymentId, Payment>, p: PaymentId, row: Payment)
    requires Consistent(norm, payments)
    ensures Consistent(norm, payments[p := row]) <==> Fits(norm, payments, p, row)
  {
    if Fits(norm, payments, p, row) { FittingIsConsistent(norm, payments, p, row); }
    if Consistent(norm, payments[p := row]) { ConsistentFits(norm, payments, p, row); }
  }

  /** Whose reservation a payment may use: nobody's, its own, or that of the reversed payment it corrects. */
  ghost predicate MayReserve(s: State, p: PaymentId, row: Payment, n: string) {
    || n !in s.references || s.references[n] == Income(p)
    || (exists q :: q in s.payments && s.references[n] == Income(q) && s.payments[q].status == Reversed
                    && row.correctedFrom == Some(q))
  }

  /** The tables after a payment write that reserves its number, if it has one. */
  ghost predicate PaymentStored(norm: string -> string, s: State, s': State, p: PaymentId, row: Payment, reserves: bool) {
    && s'.payments == s.payments[p := row] && s'.refunds == s.refunds
    && s'.references == if reserves && !Blank(norm, row.operationNumber)
                        then s.references[norm(row.operationNumber.value) := Income(p)] else s.references
  }

  ghost predicate RefundStored(norm: string -> string, s: State, s': State, r: RefundId, number: Option<string>) {
    && s'.payments == s.payments && s'.refunds == s.refunds[r := number]
    && s'.references == if Blank(norm, number) then s.references else s.references[norm(number.value) := Refund(r)]
  }

  lemma RegistrationIs(norm: string -> string, s: State, p: PaymentId, row: Payment)
    ensures var a := RegisterPayment(norm, StorePayment(s, p, row), p);
            && (a.Some? <==> Blank(norm, row.operationNumber) || MayReserve(s, p, row, norm(row.operationNumber.value)))
            && (a.Some? ==> PaymentStored(norm, s, a.value, p, row, true))
  {
  }

  /**
   From conflict-free tables, over any run: a new payment is accepted exactly when its row fits the table and its
   number is blank, free, or held by the reversed payment it corrects; the number is then reserved for it.
   */
  lemma {:induction false} PaymentInsertAccepted(norm: string -> string, s: State, writes: seq<Write>, p: PaymentId, row: Payment)
    requires ConflictFree(norm, s)
    ensures var t := Run(norm, s, writes);
            var a := Attempt(norm, t, InsertPayment(p, row));
            && (a.Some? <==> p !in t.payments && Fits(norm, t.payments, p, row)
                             && (Blank(norm, row.operationNumber) || MayReserve(t, p, row, norm(row.operationNumber.value))))
            && (a.Some? ==> PaymentStored(norm, t, a.value, p, row, true))
  {
    ReachableIsConsistent(norm, s, writes);
    FitsIs(norm, Run(norm, s, writes).payments, p, row);
    RegistrationIs(norm, Run(norm, s, writes), p, row);
  }

  /** An update that leaves number and correction alone is not checked against the reservations; any other one is. */
  lemma {:induction false} PaymentUpdateAccepted(norm: string -> string, s: State, writes: seq<Write>, p: PaymentId, row: Payment)
    requires ConflictFree(norm, s)
    ensures var t := Run(norm, s, writes);
            var a := Attempt(norm, t, UpdatePayment(p, row));
            && (a.Some? <==> p in t.payments && Fits(norm, t.payments, p, row)
                             && (SameReference(t.payments[p], row) || Blank(norm, row.operationNumber)
                                 || MayReserve(t, p, row, norm(row.operationNumber.value))))
            && (a.Some? ==> PaymentStored(norm, t, a.value, p, row, !SameReference(t.payments[p], row)))
  {
    ReachableIsConsistent(norm, s, writes);
    FitsIs(norm, Run(norm, s, writes).payments, p, row);
    RegistrationIs(norm, Run(norm, s, writes), p, row);
  }

  predicate SameReference(before: Payment, after: Payment) {
    after.operationNumber == before.operationNumber && after.correctedFrom == before.correctedFrom
  }

  lemma ReachableIsConsistent(norm: string -> string, s: State, writes: seq<Write>)
    requires ConflictFree(norm, s)
    ensures Consistent(norm, Run(norm, s, writes).payments)
  {
    ConflictFreeIsInv(norm, s);
    RunKeeps(norm, s, writes);
  }

  lemma ReachableRefund(norm: string -> string, s: State, writes: seq<Write>, r: RefundId, n: string)
    requires ConflictFree(norm, s)
    ensures var t := Run(norm, s, writes);
            && (n in t.references && t.references[n] == Refund(r) ==> r in t.refunds)
            && (r in t.refunds && !Blank(norm, t.refunds[r]) ==>
                  norm(t.refunds[r].value) in t.references && t.references[norm(t.refunds[r].value)] == Refund(r))
  {
    ConflictFreeIsInv(norm, s);
    RunKeeps(norm, s, writes);
    var t := Run(norm, s, writes);
    assert n in t.references ==> ReferenceOk(t, n);
    assert r in t.refunds ==> RefundOk(norm, t, r);
  }

  /** A new refund is accepted exactly when its number is blank or nobody ever reserved it. */
  lemma {:induction false} RefundInsertAccepted(norm: string -> string, s: State, writes: seq<Write>, r: RefundId, number: Option<string>)
    requires ConflictFree(norm, s)
    ensures var t := Run(norm, s, writes);
            var a := Attempt(norm, t, InsertRefund(r, number));
            && (a.Some? <==> r !in t.refunds && (Blank(norm, number) || norm(number.value) !in t.references))
            && (a.Some? ==> RefundStored(norm, t, a.value, r, number))
  {
    if number.Some? { ReachableRefund(norm, s, writes, r, norm(number.value)); }
  }

  /** A changed refund may also use a number it reserved itself, earlier ones included. */
  lemma {:induction false} RefundUpdateAccepted(norm: string -> string, s: State, writes: seq<Write>, r: RefundId, number: Option<string>)
    requires ConflictFree(norm, s)
    ensures var t := Run(norm, s, writes);
            var a := Attempt(norm, t, UpdateRefund(r, number));
            && (a.Some? <==> r in t.refunds && (Blank(norm, number) || norm(number.value) !in t.references
                                                || t.references[norm(number.value)] == Refund(r)))
            && (a.Some? ==> RefundStored(norm, t, a.value, r, number))
  {
    if number.Some? { ReachableRefund(norm, s, writes, r, norm(number.value)); }
    var t := Run(norm, s, writes);
    if r in t.refunds && t.refunds[r] == number { assert t.refunds[r := number] == t.refunds; }
  }

  /** Nothing that owns a reservation can be deleted, nor a payment that another one corrects. */
  lemma {:induction false} DeleteAccepted(norm: string -> string, s: State, writes: seq<Write>, id: nat)
    requires ConflictFree(norm, s)
    ensures var t := Run(norm, s, writes);
            var a := Attempt(norm, t, DeletePayment(id));
            && (a.Some? <==> (forall n | n in t.references :: t.references[n] != Income(id))
                             && (forall q | q in t.payments && q != id :: t.payments[q].correctedFrom != Some(id)))
            && (a.Some? ==> a.value == t.(payments := t.payments - {id}))
    ensures var t := Run(norm, s, writes);
            var a := Attempt(norm, t, DeleteRefund(id));
            && (a.Some? <==> forall n | n in t.references :: t.references[n] != Refund(id))
            && (a.Some? ==> a.value == t.(refunds := t.refunds - {id}))
  {
    ReachableIsConsistent(norm, s, writes);
    var payments := Run(norm, s, writes).payments;
    var later := payments - {id};
    assert forall q | q in later :: q in payments && q != id && later[q] == payments[q];
    assert forall q | q in payments && q != id :: q in later;
  }

  /** In every reachable state each payment is corrected at most once, and open payments carry different numbers. */
  lemma {:induction false} ReachableTables(norm: string -> string, s: State, writes: seq<Write>, p: PaymentId, q: PaymentId)
    requires ConflictFree(norm, s)
    requires p in Run(norm, s, writes).payments && q in Run(norm, s, writes).payments && p != q
    ensures var t := Run(norm, s, writes).payments;
            && (t[p].correctedFrom.Some? ==> t[p].correctedFrom.value in t && t[q].correctedFrom != t[p].correctedFrom)
            && (Open(t[p]) && Open(t[q]) && !Blank(norm, t[p].operationNumber) ==>
                  !Carries(norm, t[q].operationNumber, norm(t[p].operationNumber.value)))
  {
    ReachableIsConsistent(norm, s, writes);
  }
}
