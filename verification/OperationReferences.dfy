/**
 Reservation of operation numbers: the triggers behind payment and refund writes keep one
 reservation per normalised number. A write is accepted or rejected as a whole.
 */
module OperationReferences {
  import opened Sums

  type PaymentId = nat
  type RefundId = nat

  datatype Status = PendingConfirmation | Posted | Cancelled | Reversed

  datatype Payment = Payment(operationNumber: Option<string>, correctedFrom: Option<PaymentId>, status: Status)

  datatype Owner = Income(payment: PaymentId) | Refund(refund: RefundId)

  /** owners and edges are bookkeeping: every payment that ever held a number, and every correction ever written. */
  datatype State = State(payments: map<PaymentId, Payment>, refunds: map<RefundId, Option<string>>,
                         references: map<string, Owner>, owners: map<string, seq<PaymentId>>,
                         edges: set<(PaymentId, PaymentId)>)

  datatype Write =
    | InsertPayment(p: PaymentId, row: Payment)
    | UpdatePayment(p: PaymentId, row: Payment)
    | DeletePayment(p: PaymentId)
    | InsertRefund(r: RefundId, number: Option<string>)
    | UpdateRefund(r: RefundId, number: Option<string>)
    | DeleteRefund(r: RefundId)

  /** NULLIF(lower(btrim(number)), ''), for whatever lower(btrim()) does. */
  function Normal(norm: string -> string, number: Option<string>): Option<string> {
    if number.None? || norm(number.value) == "" then None else Some(norm(number.value))
  }

  predicate Active(p: Payment) { p.status.PendingConfirmation? || p.status.Posted? }

  /** Unique indexes and foreign keys of sale_payments. */
  predicate Consistent(norm: string -> string, payments: map<PaymentId, Payment>) {
    && (forall p | p in payments && payments[p].correctedFrom.Some? :: payments[p].correctedFrom.value in payments)
    && (forall p, q | p in payments && q in payments && p != q ::
          payments[p].correctedFrom.Some? ==> payments[p].correctedFrom != payments[q].correctedFrom)
    && (forall p, q | p in payments && q in payments && p != q && Active(payments[p]) && Active(payments[q]) ::
          Normal(norm, payments[p].operationNumber).Some? ==>
            Normal(norm, payments[p].operationNumber) != Normal(norm, payments[q].operationNumber))
  }

  /** The payment trigger body, with the new row already visible. None is the raised exception. */
  function RegisterPayment(norm: string -> string, s: State, p: PaymentId): Option<State>
    requires p in s.payments
  {
    var row := s.payments[p];
    var n := Normal(norm, row.operationNumber);
    if n.None? then Some(s)
    else if n.value !in s.references then
      Some(s.(references := s.references[n.value := Income(p)], owners := s.owners[n.value := [p]]))
    else match s.references[n.value]
      case Refund(_) => None
      case Income(q) =>
        if q == p then Some(s)
        else if row.correctedFrom == Some(q) && q in s.payments && s.payments[q].status.Reversed? then
          Some(s.(references := s.references[n.value := Income(p)],
                  owners := s.owners[n.value := (if n.value in s.owners then s.owners[n.value] else [q]) + [p]]))
        else None
  }

  /** The refund trigger body. */
  function RegisterRefund(norm: string -> string, s: State, r: RefundId): Option<State>
    requires r in s.refunds
  {
    var n := Normal(norm, s.refunds[r]);
    if n.None? then Some(s)
    else if n.value !in s.references then Some(s.(references := s.references[n.value := Refund(r)]))
    else if s.references[n.value] == Refund(r) then Some(s)
    else None
  }

  function StorePayment(s: State, p: PaymentId, row: Payment): State {
    s.(payments := s.payments[p := row],
       edges := if row.correctedFrom.Some? then s.edges + {(p, row.correctedFrom.value)} else s.edges)
  }

  /** The state after an accepted write, None when a constraint or trigger rejects it. */
  function Attempt(norm: string -> string, s: State, w: Write): Option<State> {
    match w
    case InsertPayment(p, row) =>
      var stored := StorePayment(s, p, row);
      if p in s.payments || !Consistent(norm, stored.payments) then None else RegisterPayment(norm, stored, p)
    case UpdatePayment(p, row) =>
      var stored := StorePayment(s, p, row);
      if p !in s.payments || !Consistent(norm, stored.payments) then None
      else if row.operationNumber == s.payments[p].operationNumber && row.correctedFrom == s.payments[p].correctedFrom
      then Some(stored)
      else RegisterPayment(norm, stored, p)
    case DeletePayment(p) =>
      if (exists n | n in s.references :: s.references[n] == Income(p)) || !Consistent(norm, s.payments - {p}) then None
      else Some(s.(payments := s.payments - {p}))
    case InsertRefund(r, number) =>
      if r in s.refunds then None else RegisterRefund(norm, s.(refunds := s.refunds[r := number]), r)
    case UpdateRefund(r, number) =>
      if r !in s.refunds then None
      else if s.refunds[r] == number then Some(s)
      else RegisterRefund(norm, s.(refunds := s.refunds[r := number]), r)
    case DeleteRefund(r) =>
      if exists n | n in s.references :: s.references[n] == Refund(r) then None
      else Some(s.(refunds := s.refunds - {r}))
  }

  function Next(norm: string -> string, s: State, w: Write): State {
    var a := Attempt(norm, s, w);
    if a.Some? then a.value else s
  }

  function Run(norm: string -> string, s: State, writes: seq<Write>): State {
    if writes == [] then s else Next(norm, Run(norm, s, writes[..|writes| - 1]), writes[|writes| - 1])
  }

  // ---------- The invariant ----------

  /** Consecutive owners are linked by a correction the later one declared. */
  ghost predicate Chained(owners: seq<PaymentId>, edges: set<(PaymentId, PaymentId)>) {
    owners != [] && forall i | 0 <= i < |owners| - 1 :: (owners[i + 1], owners[i]) in edges
  }

  ghost predicate ReferenceOk(s: State, n: string)
    requires n in s.references
  {
    match s.references[n]
    case Income(p) =>
      n in s.owners && Chained(s.owners[n], s.edges) && s.owners[n][|s.owners[n]| - 1] == p && p in s.payments
    case Refund(r) => r in s.refunds
  }

  /** Whoever carries a number holds its reservation or held it before. */
  ghost predicate PaymentOk(norm: string -> string, s: State, p: PaymentId)
    requires p in s.payments
  {
    var n := Normal(norm, s.payments[p].operationNumber);
    n.Some? ==> n.value in s.references && s.references[n.value].Income? && n.value in s.owners && p in s.owners[n.value]
  }

  ghost predicate RefundOk(norm: string -> string, s: State, r: RefundId)
    requires r in s.refunds
  {
    var n := Normal(norm, s.refunds[r]);
    n.Some? ==> n.value in s.references && s.references[n.value] == Refund(r)
  }

  ghost predicate Reserved(norm: string -> string, s: State) {
    && (forall n | n in s.references :: ReferenceOk(s, n))
    && (forall p | p in s.payments :: PaymentOk(norm, s, p))
    && (forall r | r in s.refunds :: RefundOk(norm, s, r))
  }

  ghost predicate Inv(norm: string -> string, s: State) { Consistent(norm, s.payments) && Reserved(norm, s) }

  /** Conflict-free tables: every number belongs to the one payment or refund that carries it. */
  ghost predicate ConflictFree(norm: string -> string, s: State) {
    && Consistent(norm, s.payments)
    && (forall n | n in s.references ::
          match s.references[n]
          case Income(p) => p in s.payments && n in s.owners && s.owners[n] == [p]
          case Refund(r) => r in s.refunds)
    && (forall p | p in s.payments ::
          var n := Normal(norm, s.payments[p].operationNumber);
          n.Some? ==> n.value in s.references && s.references[n.value] == Income(p))
    && (forall r | r in s.refunds :: RefundOk(norm, s, r))
  }

  /** How one write can change the reservations: additions, and hand-overs along a correction of a reversed payment. */
  ghost predicate HandedOver(s: State, s': State, n: string)
    requires n in s.references && n in s'.references
  {
    || s'.references[n] == s.references[n]
    || (s.references[n].Income? && s'.references[n].Income?
        && var q, p := s.references[n].payment, s'.references[n].payment;
        && q in s'.payments && s'.payments[q].status.Reversed?
        && p in s'.payments && s'.payments[p].correctedFrom == Some(q))
  }

  ghost predicate Preserves(s: State, s': State) {
    && s.edges <= s'.edges
    && forall n | n in s.references :: n in s'.references && HandedOver(s, s', n)
                                    && (n in s.owners ==> n in s'.owners && s.owners[n] <= s'.owners[n])
  }

  // ---------- Writes keep the invariant ----------

  lemma ChainExtends(owners: seq<PaymentId>, edges: set<(PaymentId, PaymentId)>, p: PaymentId)
    requires Chained(owners, edges) && (p, owners[|owners| - 1]) in edges
    ensures Chained(owners + [p], edges)
  {
  }

  /** Storing a payment row alone: its number aside, everything stays reserved. */
  lemma StoreKeeps(norm: string -> string, s: State, p: PaymentId, row: Payment)
    requires Reserved(norm, s)
    ensures var t := StorePayment(s, p, row);
            && Preserves(s, t)
            && (forall n | n in t.references :: ReferenceOk(t, n))
            && (forall q | q in t.payments && q != p :: PaymentOk(norm, t, q))
            && (forall r | r in t.refunds :: RefundOk(norm, t, r))
            && (p in s.payments && row.operationNumber == s.payments[p].operationNumber ==> PaymentOk(norm, t, p))
  {
  }

  lemma RegistrationKeepsReferences(norm: string -> string, t: State, p: PaymentId)
    requires p in t.payments && RegisterPayment(norm, t, p).Some?
    requires t.payments[p].correctedFrom.Some? ==> (p, t.payments[p].correctedFrom.value) in t.edges
    requires forall n | n in t.references :: ReferenceOk(t, n)
    ensures forall n | n in RegisterPayment(norm, t, p).value.references :: ReferenceOk(RegisterPayment(norm, t, p).value, n)
    ensures Preserves(t, RegisterPayment(norm, t, p).value)
  {
    var s' := RegisterPayment(norm, t, p).value;
    var n := Normal(norm, t.payments[p].operationNumber);
    if n.Some? && n.value in t.references {
      assert ReferenceOk(t, n.value);
      if s' != t { ChainExtends(t.owners[n.value], t.edges, p); }
    }
    forall m | m in s'.references ensures ReferenceOk(s', m) {
      if m in t.references { assert ReferenceOk(t, m); }
    }
  }

  lemma RegistrationKeepsNumbers(norm: string -> string, t: State, p: PaymentId)
    requires p in t.payments && RegisterPayment(norm, t, p).Some?
    requires forall n | n in t.references :: ReferenceOk(t, n)
    requires forall q | q in t.payments && q != p :: PaymentOk(norm, t, q)
    requires forall r | r in t.refunds :: RefundOk(norm, t, r)
    ensures var s' := RegisterPayment(norm, t, p).value;
            && (forall q | q in s'.payments :: PaymentOk(norm, s', q))
            && (forall r | r in s'.refunds :: RefundOk(norm, s', r))
  {
    var s' := RegisterPayment(norm, t, p).value;
    var n := Normal(norm, t.payments[p].operationNumber);
    if n.Some? && n.value in t.references { assert ReferenceOk(t, n.value); }
    forall q | q in s'.payments ensures PaymentOk(norm, s', q) {
      if q != p { assert PaymentOk(norm, t, q); }
    }
    forall r | r in s'.refunds ensures RefundOk(norm, s', r) { assert RefundOk(norm, t, r); }
  }

  /** The trigger either finds the number its own, reserves a free one, or takes it over along the correction. */
  lemma RegistrationKeeps(norm: string -> string, t: State, p: PaymentId)
    requires p in t.payments && RegisterPayment(norm, t, p).Some?
    requires t.payments[p].correctedFrom.Some? ==> (p, t.payments[p].correctedFrom.value) in t.edges
    requires forall n | n in t.references :: ReferenceOk(t, n)
    requires forall q | q in t.payments && q != p :: PaymentOk(norm, t, q)
    requires forall r | r in t.refunds :: RefundOk(norm, t, r)
    ensures Reserved(norm, RegisterPayment(norm, t, p).value) && Preserves(t, RegisterPayment(norm, t, p).value)
  {
    RegistrationKeepsReferences(norm, t, p);
    RegistrationKeepsNumbers(norm, t, p);
  }

  lemma PaymentWriteKeeps(norm: string -> string, s: State, p: PaymentId, row: Payment)
    requires Reserved(norm, s) && RegisterPayment(norm, StorePayment(s, p, row), p).Some?
    ensures var s' := RegisterPayment(norm, StorePayment(s, p, row), p).value; Reserved(norm, s') && Preserves(s, s')
  {
    var t := StorePayment(s, p, row);
    StoreKeeps(norm, s, p, row);
    RegistrationKeeps(norm, t, p);
  }

  lemma RefundWriteKeeps(norm: string -> string, s: State, r: RefundId, number: Option<string>)
    requires Reserved(norm, s) && RegisterRefund(norm, s.(refunds := s.refunds[r := number]), r).Some?
    ensures var s' := RegisterRefund(norm, s.(refunds := s.refunds[r := number]), r).value; Reserved(norm, s') && Preserves(s, s')
  {
  }

  lemma DeleteKeeps(norm: string -> string, s: State, w: Write)
    requires Reserved(norm, s) && (w.DeletePayment? || w.DeleteRefund?) && Attempt(norm, s, w).Some?
    ensures Reserved(norm, Attempt(norm, s, w).value) && Preserves(s, Attempt(norm, s, w).value)
  {
  }

  lemma AttemptKeepsReserved(norm: string -> string, s: State, w: Write)
    requires Reserved(norm, s) && Attempt(norm, s, w).Some?
    ensures Reserved(norm, Attempt(norm, s, w).value) && Preserves(s, Attempt(norm, s, w).value)
  {
    match w {
      case InsertPayment(p, row) => PaymentWriteKeeps(norm, s, p, row);
      case UpdatePayment(p, row) =>
        StoreKeeps(norm, s, p, row);
        if Attempt(norm, s, w) != Some(StorePayment(s, p, row)) { PaymentWriteKeeps(norm, s, p, row); }
        else if row.operationNumber != s.payments[p].operationNumber { PaymentWriteKeeps(norm, s, p, row); }
        else if row.correctedFrom != s.payments[p].correctedFrom { PaymentWriteKeeps(norm, s, p, row); }
      case InsertRefund(r, number) => RefundWriteKeeps(norm, s, r, number);
      case UpdateRefund(r, number) => if s.refunds[r] != number { RefundWriteKeeps(norm, s, r, number); }
      case _ => DeleteKeeps(norm, s, w);
    }
  }

  lemma AttemptKeepsConsistent(norm: string -> string, s: State, w: Write)
    requires Consistent(norm, s.payments) && Attempt(norm, s, w).Some?
    ensures Consistent(norm, Attempt(norm, s, w).value.payments)
  {
  }

  lemma NextKeeps(norm: string -> string, s: State, w: Write)
    requires Inv(norm, s)
    ensures Inv(norm, Next(norm, s, w)) && Preserves(s, Next(norm, s, w))
  {
    if Attempt(norm, s, w).Some? {
      AttemptKeepsReserved(norm, s, w);
      AttemptKeepsConsistent(norm, s, w);
    }
  }

  lemma {:induction false} RunKeeps(norm: string -> string, s: State, writes: seq<Write>)
    requires Inv(norm, s)
    ensures Inv(norm, Run(norm, s, writes))
  {
    if writes != [] {
      RunKeeps(norm, s, writes[..|writes| - 1]);
      NextKeeps(norm, Run(norm, s, writes[..|writes| - 1]), writes[|writes| - 1]);
    }
  }

  lemma ConflictFreeIsInv(norm: string -> string, s: State)
    requires ConflictFree(norm, s)
    ensures Inv(norm, s)
  {
  }

  // ---------- Main results ----------

  /** A reserved number is never released, and never moves between income and refund; a refund keeps it for good. */
  lemma {:induction false} ReservationsAreForever(norm: string -> string, s: State, writes: seq<Write>, more: seq<Write>, n: string)
    requires ConflictFree(norm, s) && n in Run(norm, s, writes).references
    ensures n in Run(norm, s, writes + more).references
    ensures var before, after := Run(norm, s, writes).references[n], Run(norm, s, writes + more).references[n];
            before.Income? <==> after.Income?
    ensures Run(norm, s, writes).references[n].Refund? ==>
              Run(norm, s, writes + more).references[n] == Run(norm, s, writes).references[n]
  {
    if more == [] {
      assert writes + more == writes;
    } else {
      var k := |more| - 1;
      assert (writes + more)[..|writes + more| - 1] == writes + more[..k];
      ReservationsAreForever(norm, s, writes, more[..k], n);
      ConflictFreeIsInv(norm, s);
      RunKeeps(norm, s, writes + more[..k]);
      NextKeeps(norm, Run(norm, s, writes + more[..k]), more[k]);
    }
  }

  /** Ownership only moves from a reversed payment to the one that names it as corrected, and each owner is remembered. */
  lemma {:induction false} OwnershipMovesAlongCorrections(norm: string -> string, s: State, writes: seq<Write>, w: Write, n: string)
    requires ConflictFree(norm, s) && n in Run(norm, s, writes).references && Run(norm, s, writes).references[n].Income?
    ensures var before, after := Run(norm, s, writes), Run(norm, s, writes + [w]);
            && n in after.references && after.references[n].Income? && n in before.owners && n in after.owners
            && before.owners[n] <= after.owners[n]
            && (after.references[n] != before.references[n] ==>
                  && before.references[n].payment in after.payments
                  && after.payments[before.references[n].payment].status.Reversed?
                  && after.references[n].payment in after.payments
                  && after.payments[after.references[n].payment].correctedFrom == Some(before.references[n].payment))
  {
    assert (writes + [w])[..|writes|] == writes;
    ConflictFreeIsInv(norm, s);
    RunKeeps(norm, s, writes);
    assert ReferenceOk(Run(norm, s, writes), n);
    NextKeeps(norm, Run(norm, s, writes), w);
  }

  /**
   In every reachable state the payments that ever owned a number form one chain of written
   corrections ending at the present owner; every payment that carries the number is in that
   chain, and no refund carries it.
   */
  lemma {:induction false} OwnersFormACorrectionChain(norm: string -> string, s: State, writes: seq<Write>, n: string)
    requires ConflictFree(norm, s) && n in Run(norm, s, writes).references && Run(norm, s, writes).references[n].Income?
    ensures var t := Run(norm, s, writes);
            && n in t.owners && Chained(t.owners[n], t.edges)
            && t.owners[n][|t.owners[n]| - 1] == t.references[n].payment
            && (forall p | p in t.payments && Normal(norm, t.payments[p].operationNumber) == Some(n) :: p in t.owners[n])
            && (forall r | r in t.refunds :: Normal(norm, t.refunds[r]) != Some(n))
  {
    ConflictFreeIsInv(norm, s);
    RunKeeps(norm, s, writes);
    var t := Run(norm, s, writes);
    assert ReferenceOk(t, n);
    forall p | p in t.payments && Normal(norm, t.payments[p].operationNumber) == Some(n) ensures p in t.owners[n] {
      assert PaymentOk(norm, t, p);
    }
    forall r | r in t.refunds ensures Normal(norm, t.refunds[r]) != Some(n) { assert RefundOk(norm, t, r); }
  }

  // ---------- The chain in the correction column ----------

  /** The later of two consecutive owners still names the earlier one as the payment it corrects. */
  ghost predicate LinkStored(payments: map<PaymentId, Payment>, owners: seq<PaymentId>, i: nat)
    requires i + 1 < |owners|
  {
    owners[i + 1] in payments && payments[owners[i + 1]].correctedFrom == Some(owners[i])
  }

  ghost predicate LinksStored(payments: map<PaymentId, Payment>, owners: seq<PaymentId>) {
    forall i: nat | i + 1 < |owners| :: LinkStored(payments, owners, i)
  }

  predicate IncomeOwned(s: State, n: string) { n in s.references && s.references[n].Income? }

  /** The chain of owners can be read off the correction column. */
  ghost predicate Shown(s: State, n: string) {
    IncomeOwned(s, n) ==> n in s.owners && LinksStored(s.payments, s.owners[n])
  }

  /** No owner takes the number over from itself. */
  ghost predicate NoEcho(s: State, n: string) {
    IncomeOwned(s, n) ==> n in s.owners && forall i: nat | i + 1 < |s.owners[n]| :: s.owners[n][i] != s.owners[n][i + 1]
  }

  /** The row leaves the correction along which the payment took the number over at position i as it is. */
  ghost predicate KeepsLink(owners: seq<PaymentId>, p: PaymentId, row: Payment, i: nat)
    requires i + 1 < |owners|
  {
    owners[i + 1] == p ==> row.correctedFrom == Some(owners[i])
  }

  /** An accepted write gives an owner that took the number over another correction than the one it took it along. */
  ghost predicate Redirects(norm: string -> string, s: State, w: Write, n: string) {
    && IncomeOwned(s, n) && n in s.owners && Attempt(norm, s, w).Some? && (w.InsertPayment? || w.UpdatePayment?)
    && exists i: nat | i + 1 < |s.owners[n]| :: !KeepsLink(s.owners[n], w.p, w.row, i)
  }

  /** How an accepted payment write changes the owners of a number: not at all, or by the payment along its correction. */
  lemma OwnersAfterPayment(norm: string -> string, s: State, p: PaymentId, row: Payment, n: string)
    requires Inv(norm, s) && RegisterPayment(norm, StorePayment(s, p, row), p).Some?
    ensures var t := RegisterPayment(norm, StorePayment(s, p, row), p).value;
            && t.payments == s.payments[p := row]
            && (IncomeOwned(s, n) ==> IncomeOwned(t, n) && n in s.owners && s.owners[n] != [] && n in t.owners)
            && (IncomeOwned(s, n) && t.owners[n] != s.owners[n] ==>
                  && t.owners[n] == s.owners[n] + [p] && row.correctedFrom == Some(s.owners[n][|s.owners[n]| - 1])
                  && s.owners[n][|s.owners[n]| - 1] != p)
            && (!IncomeOwned(s, n) && IncomeOwned(t, n) ==> n in t.owners && t.owners[n] == [p])
  {
    if n in s.references { assert ReferenceOk(s, n); }
  }

  lemma LinksAfterPayment(payments: map<PaymentId, Payment>, p: PaymentId, row: Payment, owners: seq<PaymentId>, later: seq<PaymentId>)
    requires LinksStored(payments, owners) && owners != []
    requires later == owners || (later == owners + [p] && row.correctedFrom == Some(owners[|owners| - 1]))
    ensures LinksStored(payments[p := row], later) <==> forall i: nat | i + 1 < |owners| :: KeepsLink(owners, p, row, i)
  {
    var after := payments[p := row];
    if LinksStored(after, later) {
      forall i: nat | i + 1 < |owners| ensures KeepsLink(owners, p, row, i) {
        assert LinkStored(payments, owners, i) && LinkStored(after, later, i);
      }
    }
    if forall i: nat | i + 1 < |owners| :: KeepsLink(owners, p, row, i) {
      forall i: nat | i + 1 < |later| ensures LinkStored(after, later, i) {
        assert i + 1 < |owners| ==> LinkStored(payments, owners, i) && KeepsLink(owners, p, row, i);
      }
    }
  }

  lemma DeleteSpares(norm: string -> string, s: State, p: PaymentId, q: PaymentId, n: string)
    requires Attempt(norm, s, DeletePayment(p)).Some?
    ensures n in s.references ==> s.references[n] != Income(p)
    ensures q in s.payments && q != p ==> s.payments[q].correctedFrom != Some(p)
  {
    if q in s.payments && q != p { assert q in s.payments - {p}; }
  }

  /** A payment that links a stored chain cannot be deleted: its successor refers to it, or it is the owner. */
  lemma LinkingOwnerStays(norm: string -> string, s: State, p: PaymentId, n: string, i: nat)
    requires IncomeOwned(s, n) && ReferenceOk(s, n) && LinksStored(s.payments, s.owners[n]) && NoEcho(s, n)
    requires i + 1 < |s.owners[n]| && Attempt(norm, s, DeletePayment(p)).Some?
    ensures s.owners[n][i + 1] != p
  {
    var owners := s.owners[n];
    assert i + 2 < |owners| ==> LinkStored(s.payments, owners, i + 1) && owners[i + 1] != owners[i + 2];
    DeleteSpares(norm, s, p, if i + 2 < |owners| then owners[i + 2] else p, n);
  }

  lemma LinksAfterDelete(norm: string -> string, s: State, p: PaymentId, n: string)
    requires IncomeOwned(s, n) && ReferenceOk(s, n) && LinksStored(s.payments, s.owners[n]) && NoEcho(s, n)
    requires Attempt(norm, s, DeletePayment(p)).Some?
    ensures LinksStored(s.payments - {p}, s.owners[n])
  {
    forall i: nat | i + 1 < |s.owners[n]| ensures LinkStored(s.payments - {p}, s.owners[n], i) {
      assert LinkStored(s.payments, s.owners[n], i);
      LinkingOwnerStays(norm, s, p, n, i);
    }
  }

  lemma NoEchoAfterPayment(norm: string -> string, s: State, p: PaymentId, row: Payment, n: string)
    requires Inv(norm, s) && NoEcho(s, n) && RegisterPayment(norm, StorePayment(s, p, row), p).Some?
    ensures NoEcho(RegisterPayment(norm, StorePayment(s, p, row), p).value, n)
  {
    OwnersAfterPayment(norm, s, p, row, n);
  }

  lemma ShownAfterPayment(norm: string -> string, s: State, w: Write, n: string)
    requires Inv(norm, s) && Shown(s, n) && (w.InsertPayment? || w.UpdatePayment?)
    requires RegisterPayment(norm, StorePayment(s, w.p, w.row), w.p).Some?
    requires Attempt(norm, s, w) == RegisterPayment(norm, StorePayment(s, w.p, w.row), w.p)
    ensures Shown(Attempt(norm, s, w).value, n) <==> !Redirects(norm, s, w, n)
  {
    var t := Attempt(norm, s, w).value;
    OwnersAfterPayment(norm, s, w.p, w.row, n);
    if IncomeOwned(s, n) {
      LinksAfterPayment(s.payments, w.p, w.row, s.owners[n], t.owners[n]);
      assert Shown(t, n) <==> LinksStored(s.payments[w.p := w.row], t.owners[n]);
    }
  }

  /** An accepted write keeps the chain in the correction column exactly when it does not redirect an owner. */
  lemma ShownAfterWrite(norm: string -> string, s: State, w: Write, n: string)
    requires Inv(norm, s) && Shown(s, n) && NoEcho(s, n)
    ensures NoEcho(Next(norm, s, w), n)
    ensures Shown(Next(norm, s, w), n) <==> !Redirects(norm, s, w, n)
  {
    if n in s.references { assert ReferenceOk(s, n); }
    if Attempt(norm, s, w).Some? {
      if w.DeletePayment? {
        if IncomeOwned(s, n) { LinksAfterDelete(norm, s, w.p, n); }
      } else if w.InsertPayment? || w.UpdatePayment? {
        if Attempt(norm, s, w) == RegisterPayment(norm, StorePayment(s, w.p, w.row), w.p) {
          NoEchoAfterPayment(norm, s, w.p, w.row, n);
          ShownAfterPayment(norm, s, w, n);
        } else if IncomeOwned(s, n) {
          assert Attempt(norm, s, w) == Some(StorePayment(s, w.p, w.row));
          LinksAfterPayment(s.payments, w.p, w.row, s.owners[n], s.owners[n]);
        }
      }
    }
  }

  ghost predicate ShownAt(norm: string -> string, s: State, writes: seq<Write>, k: nat, n: string)
    requires k <= |writes|
  {
    Shown(Run(norm, s, writes[..k]), n)
  }

  ghost predicate RedirectsAt(norm: string -> string, s: State, writes: seq<Write>, k: nat, n: string)
    requires k < |writes|
  {
    Redirects(norm, Run(norm, s, writes[..k]), writes[k], n)
  }

  ghost predicate ShownThroughout(norm: string -> string, s: State, writes: seq<Write>, n: string) {
    forall k: nat | k <= |writes| :: ShownAt(norm, s, writes, k, n)
  }

  ghost predicate NeverRedirected(norm: string -> string, s: State, writes: seq<Write>, n: string) {
    forall k: nat | k < |writes| :: !RedirectsAt(norm, s, writes, k, n)
  }

  lemma ShownThroughoutSnoc(norm: string -> string, s: State, writes: seq<Write>, n: string)
    requires writes != []
    ensures ShownThroughout(norm, s, writes, n)
       <==> ShownThroughout(norm, s, writes[..|writes| - 1], n) && Shown(Run(norm, s, writes), n)
  {
    var front := writes[..|writes| - 1];
    assert writes[..|writes|] == writes;
    assert ShownAt(norm, s, writes, |writes|, n) <==> Shown(Run(norm, s, writes), n);
    forall k: nat | k < |writes| ensures ShownAt(norm, s, front, k, n) <==> ShownAt(norm, s, writes, k, n) {
      assert front[..k] == writes[..k];
    }
  }

  lemma NeverRedirectedSnoc(norm: string -> string, s: State, writes: seq<Write>, n: string)
    requires writes != []
    ensures NeverRedirected(norm, s, writes, n) <==> (
              && NeverRedirected(norm, s, writes[..|writes| - 1], n)
              && !Redirects(norm, Run(norm, s, writes[..|writes| - 1]), writes[|writes| - 1], n))
  {
    var m := |writes| - 1;
    assert RedirectsAt(norm, s, writes, m, n) <==> Redirects(norm, Run(norm, s, writes[..m]), writes[m], n);
    forall k: nat | k < m ensures RedirectsAt(norm, s, writes[..m], k, n) <==> RedirectsAt(norm, s, writes, k, n) {
      assert writes[..m][..k] == writes[..k];
    }
  }

  /**
   Over any run from conflict-free tables, the chain of owners can be read off the correction column
   throughout if and only if no accepted write gives an owner another correction than the one it took the
   number over along. Deletes and all other writes are harmless.
   */
  lemma {:induction false} ChainIsStored(norm: string -> string, s: State, writes: seq<Write>, n: string)
    requires ConflictFree(norm, s)
    ensures ShownThroughout(norm, s, writes, n) <==> NeverRedirected(norm, s, writes, n)
    ensures ShownThroughout(norm, s, writes, n) ==> Shown(Run(norm, s, writes), n) && NoEcho(Run(norm, s, writes), n)
  {
    ConflictFreeIsInv(norm, s);
    if writes == [] {
      ChainStartsStored(norm, s, n);
    } else {
      var front := writes[..|writes| - 1];
      ChainIsStored(norm, s, front, n);
      RunKeeps(norm, s, front);
      ShownThroughoutSnoc(norm, s, writes, n);
      NeverRedirectedSnoc(norm, s, writes, n);
      if ShownThroughout(norm, s, front, n) {
        ShownAfterWrite(norm, Run(norm, s, front), writes[|writes| - 1], n);
      }
    }
  }

  lemma ChainStartsStored(norm: string -> string, s: State, n: string)
    requires ConflictFree(norm, s)
    ensures Shown(s, n) && NoEcho(s, n) && ShownThroughout(norm, s, [], n)
  {
    forall k: nat | k <= 0 ensures ShownAt(norm, s, [], k, n) {}
  }

  /** Payment 0 is posted and reversed, payment 1 corrects it and takes its number, then forgets what it corrects. */
  function Forgetting(number: string): seq<Write> {
    [InsertPayment(0, Payment(Some(number), None, Posted)),
     UpdatePayment(0, Payment(Some(number), None, Reversed)),
     InsertPayment(1, Payment(Some(number), Some(0), Posted)),
     UpdatePayment(1, Payment(Some(number), None, Posted))]
  }

  const NO_TABLES := State(map[], map[], map[], map[], {})

  function OneOwner(number: string, n: string, status: Status): State {
    State(map[0 := Payment(Some(number), None, status)], map[], map[n := Income(0)], map[n := [0]], {})
  }

  function TwoOwners(number: string, n: string, correction: Option<PaymentId>): State {
    State(map[0 := Payment(Some(number), None, Reversed), 1 := Payment(Some(number), correction, Posted)],
          map[], map[n := Income(1)], map[n := [0, 1]], {(1, 0)})
  }

  lemma ForgettingInserts(norm: string -> string, number: string)
    requires norm(number) != ""
    ensures Next(norm, NO_TABLES, Forgetting(number)[0]) == OneOwner(number, norm(number), Posted)
  {
    var stored := StorePayment(NO_TABLES, 0, Forgetting(number)[0].row);
    assert stored.payments == OneOwner(number, norm(number), Posted).payments && Consistent(norm, stored.payments);
  }

  lemma ForgettingReverses(norm: string -> string, number: string)
    requires norm(number) != ""
    ensures Next(norm, OneOwner(number, norm(number), Posted), Forgetting(number)[1]) == OneOwner(number, norm(number), Reversed)
  {
    var stored := StorePayment(OneOwner(number, norm(number), Posted), 0, Forgetting(number)[1].row);
    assert stored.payments == OneOwner(number, norm(number), Reversed).payments && Consistent(norm, stored.payments);
  }

  lemma TwoOwnersConsistent(norm: string -> string, number: string, n: string, correction: Option<PaymentId>)
    requires correction.Some? ==> correction.value == 0
    ensures Consistent(norm, TwoOwners(number, n, correction).payments)
  {
  }

  lemma ForgettingCorrects(norm: string -> string, number: string)
    requires norm(number) != ""
    ensures Next(norm, OneOwner(number, norm(number), Reversed), Forgetting(number)[2]) == TwoOwners(number, norm(number), Some(0))
  {
    var n := norm(number);
    var stored := StorePayment(OneOwner(number, n, Reversed), 1, Forgetting(number)[2].row);
    assert stored.payments == TwoOwners(number, n, Some(0)).payments;
    TwoOwnersConsistent(norm, number, n, Some(0));
    assert [0] + [1] == [0, 1];
    assert RegisterPayment(norm, stored, 1).value.owners == TwoOwners(number, n, Some(0)).owners;
  }

  lemma ForgettingDrops(norm: string -> string, number: string)
    requires norm(number) != ""
    ensures Next(norm, TwoOwners(number, norm(number), Some(0)), Forgetting(number)[3]) == TwoOwners(number, norm(number), None)
  {
    var stored := StorePayment(TwoOwners(number, norm(number), Some(0)), 1, Forgetting(number)[3].row);
    assert stored == TwoOwners(number, norm(number), None);
    TwoOwnersConsistent(norm, number, norm(number), None);
  }

  lemma RunOfFour(norm: string -> string, s: State, a: Write, b: Write, c: Write, d: Write)
    ensures Run(norm, s, [a, b, c, d]) == Next(norm, Next(norm, Next(norm, Next(norm, s, a), b), c), d)
  {
    assert [a, b, c, d][..3] == [a, b, c] && [a, b, c][..2] == [a, b] && [a, b][..1] == [a] && [a][..0] == [];
    assert Run(norm, s, [a]) == Next(norm, s, a);
    assert Run(norm, s, [a, b]) == Next(norm, Run(norm, s, [a]), b);
    assert Run(norm, s, [a, b, c]) == Next(norm, Run(norm, s, [a, b]), c);
  }

  /** The run that breaks the chain: the owners are payments 0 and 1, and the column no longer links them. */
  lemma {:induction false} OwnerMayDropItsCorrection(norm: string -> string, number: string)
    requires norm(number) != ""
    ensures ConflictFree(norm, NO_TABLES)
    ensures var n, t := norm(number), Run(norm, NO_TABLES, Forgetting(number));
            && IncomeOwned(t, n) && t.references[n] == Income(1) && n in t.owners && t.owners[n] == [0, 1]
            && 1 in t.payments && t.payments[1].correctedFrom.None? && !Shown(t, n)
  {
    var w, n := Forgetting(number), norm(number);
    RunOfFour(norm, NO_TABLES, w[0], w[1], w[2], w[3]);
    ForgettingInserts(norm, number);
    ForgettingReverses(norm, number);
    ForgettingCorrects(norm, number);
    ForgettingDrops(norm, number);
    assert w == [w[0], w[1], w[2], w[3]];
    var t := TwoOwners(number, n, None);
    assert Run(norm, NO_TABLES, w) == t;
    assert !LinkStored(t.payments, t.owners[n], 0);
  }

  // ---------- The earlier trigger ----------

  /** The previous payment trigger first deleted the payment's own reservations when its number changed. */
  function EarlierUpdate(norm: string -> string, s: State, p: PaymentId, row: Payment): Option<State>
    requires p in s.payments
  {
    var stored := StorePayment(s, p, row);
    var freed := stored.(references := map n | n in s.references
                           && !(row.operationNumber != s.payments[p].operationNumber && s.references[n] == Income(p)) :: s.references[n]);
    RegisterPayment(norm, freed, p)
  }

  /** Under the earlier trigger an accepted update loses a reservation exactly when it gives the payment another number. */
  lemma EarlierUpdateReleases(norm: string -> string, s: State, p: PaymentId, row: Payment, n: string)
    requires Inv(norm, s) && p in s.payments && n in s.references && s.references[n] == Income(p)
    requires EarlierUpdate(norm, s, p, row).Some?
    ensures n !in EarlierUpdate(norm, s, p, row).value.references
       <==> row.operationNumber != s.payments[p].operationNumber && Normal(norm, row.operationNumber) != Some(n)
  {
  }
}
