/**
 Giving every sale order its company: the migration's conflict check, assignment and unresolved
 check against the audit queries that were written separately.
 */
module CompanyScope {
  import opened Sums

  type Id = nat

  datatype Order = Order(createdBy: Option<Id>, company: Option<Id>)

  /** A payment row as far as ownership is concerned: its order and its receiving account. */
  datatype Payment = Payment(order: Id, account: Option<Id>)

  datatype Tables = Tables(users: map<Id, Option<Id>>, payments: set<Payment>, accounts: map<Id, Option<Id>>,
                           companies: map<Id, bool>)

  datatype Result = Done | Conflicts(count: nat) | Unresolved(count: nat)

  // ---------- Evidence ----------

  /** Companies of the accounts that received the order's payments. */
  function AccountCompanies(t: Tables, order: Id): set<Id> {
    set p | p in t.payments && p.order == order && p.account.Some? && p.account.value in t.accounts
            && t.accounts[p.account.value].Some? :: t.accounts[p.account.value].value
  }

  function CreatorCompany(t: Tables, o: Order): Option<Id> {
    if o.createdBy.Some? && o.createdBy.value in t.users then t.users[o.createdBy.value] else None
  }

  function Creators(t: Tables, o: Order): set<Id> {
    if CreatorCompany(t, o).Some? then {CreatorCompany(t, o).value} else {}
  }

  /** The audit's union of creator and account companies. */
  function Evidence(t: Tables, id: Id, o: Order): set<Id> { Creators(t, o) + AccountCompanies(t, id) }

  /** Audit query: more than one distinct company. */
  predicate AuditConflict(t: Tables, id: Id, o: Order) { |Evidence(t, id, o)| > 1 }

  /** Audit query: no company of either kind. */
  predicate AuditWithoutEvidence(t: Tables, id: Id, o: Order) {
    CreatorCompany(t, o).None? && AccountCompanies(t, id) == {}
  }

  // ---------- The migration's queries ----------

  /** HAVING more than one account company, or exactly one that differs from a known creator company. */
  predicate MigrationConflict(t: Tables, id: Id, o: Order) {
    && o.company.None?
    && (|AccountCompanies(t, id)| > 1
        || (|AccountCompanies(t, id)| == 1 && CreatorCompany(t, o).Some?
            && exists m | m in AccountCompanies(t, id) :: m != CreatorCompany(t, o).value))
  }

  /** The payment_company rows of an order: companies no other account contradicts. */
  function PaymentCompanies(t: Tables, id: Id): set<Id> {
    set c | c in AccountCompanies(t, id) && forall other | other in AccountCompanies(t, id) :: other == c
  }

  function ActiveCompanies(t: Tables): set<Id> { set c | c in t.companies && t.companies[c] }

  lemma {:induction false} Singleton(s: set<Id>)
    requires |s| == 1
    ensures forall x, y | x in s && y in s :: x == y
  {
    forall x, y | x in s && y in s ensures x == y {
      CardinalityMonotone({x, y}, s);
    }
  }

  lemma {:induction false} CardinalityMonotone(a: set<Id>, b: set<Id>)
    requires a <= b
    ensures |a| <= |b|
  {
    assert b == a + (b - a);
    assert |b| == |a| + |b - a|;
  }

  function The(s: set<Id>): (c: Id)
    requires |s| == 1
    ensures c in s
  {
    Singleton(s);
    var c :| c in s;
    c
  }

  /** COALESCE(payment company, creator company, the one active company). */
  function Assigned(t: Tables, id: Id, o: Order): Option<Id> {
    if |PaymentCompanies(t, id)| == 1 then Some(The(PaymentCompanies(t, id)))
    else if CreatorCompany(t, o).Some? then CreatorCompany(t, o)
    else if |ActiveCompanies(t)| == 1 then Some(The(ActiveCompanies(t)))
    else None
  }

  // ---------- Agreement of the two formulations ----------

  lemma {:induction false} TwoElements(s: set<Id>)
    ensures |s| > 1 <==> exists x, y :: x in s && y in s && x != y
  {
    if |s| > 1 {
      var x :| x in s;
      assert |s - {x}| == |s| - 1;
      var y :| y in s - {x};
      assert y in s && x != y;
    } else if exists x, y :: x in s && y in s && x != y {
      var x, y :| x in s && y in s && x != y;
      CardinalityMonotone({x, y}, s);
    }
  }

  /** On an order without a company the migration rejects exactly what the audit calls conflicting. */
  lemma {:induction false} ConflictChecksAgree(t: Tables, id: Id, o: Order)
    requires o.company.None?
    ensures MigrationConflict(t, id, o) <==> AuditConflict(t, id, o)
  {
    var accounts, all := AccountCompanies(t, id), Evidence(t, id, o);
    TwoElements(accounts);
    TwoElements(all);
    if |accounts| == 1 {
      Singleton(accounts);
      var m :| m in accounts;
      if CreatorCompany(t, o).Some? && m != CreatorCompany(t, o).value {
        assert m in all && CreatorCompany(t, o).value in all;
      }
    }
    if |accounts| > 1 {
      var x, y :| x in accounts && y in accounts && x != y;
      assert x in all && y in all;
    }
  }

  /** The payment-company subquery never yields two rows, and yields the only account company when there is one. */
  lemma {:induction false} PaymentCompanyIsSingleValued(t: Tables, id: Id)
    ensures |PaymentCompanies(t, id)| <= 1
    ensures |AccountCompanies(t, id)| == 1 ==> PaymentCompanies(t, id) == AccountCompanies(t, id)
    ensures |AccountCompanies(t, id)| != 1 ==> PaymentCompanies(t, id) == {}
  {
    var accounts := AccountCompanies(t, id);
    TwoElements(PaymentCompanies(t, id));
    if |accounts| == 1 {
      Singleton(accounts);
    }
    forall c | c in PaymentCompanies(t, id) ensures accounts == {c} {}
  }

  /** Without a conflict the assigned company is the whole evidence; without evidence it is the only active company. */
  lemma {:induction false} AssignmentFollowsEvidence(t: Tables, id: Id, o: Order)
    requires !AuditConflict(t, id, o)
    ensures forall c | c in Evidence(t, id, o) :: Assigned(t, id, o) == Some(c)
    ensures Assigned(t, id, o).None? <==> AuditWithoutEvidence(t, id, o) && |ActiveCompanies(t)| != 1
    ensures AuditWithoutEvidence(t, id, o) && Assigned(t, id, o).Some? ==> Assigned(t, id, o).value in ActiveCompanies(t)
  {
    PaymentCompanyIsSingleValued(t, id);
    TwoElements(Evidence(t, id, o));
    var accounts := AccountCompanies(t, id);
    CardinalityMonotone(accounts, Evidence(t, id, o));
    if accounts != {} {
      var c :| c in accounts;
      CardinalityMonotone({c}, accounts);
      assert |accounts| == 1;
    }
  }

  // ---------- The migration ----------

  function ConflictingOrders(t: Tables, orders: map<Id, Order>): set<Id> {
    set id | id in orders && MigrationConflict(t, id, orders[id])
  }

  function AssignAll(t: Tables, orders: map<Id, Order>): map<Id, Order> {
    map id | id in orders ::
      if orders[id].company.None? then orders[id].(company := Assigned(t, id, orders[id])) else orders[id]
  }

  function WithoutCompany(orders: map<Id, Order>): set<Id> { set id | id in orders && orders[id].company.None? }

  /** What the audits list among the orders that had no company. */
  ghost function AuditedConflicts(t: Tables, orders: map<Id, Order>): set<Id> {
    set id | id in orders && orders[id].company.None? && AuditConflict(t, id, orders[id])
  }

  ghost function AuditedWithoutEvidence(t: Tables, orders: map<Id, Order>): set<Id> {
    set id | id in orders && orders[id].company.None? && AuditWithoutEvidence(t, id, orders[id])
  }

  /** The company an order may end with: all of its evidence, or the only active company when it has none. */
  ghost predicate Justified(t: Tables, id: Id, o: Order, company: Id) {
    && (forall c | c in Evidence(t, id, o) :: company == c)
    && (AuditWithoutEvidence(t, id, o) ==> ActiveCompanies(t) == {company})
  }

  lemma {:induction false} ConflictSetsAgree(t: Tables, orders: map<Id, Order>)
    ensures ConflictingOrders(t, orders) == AuditedConflicts(t, orders)
  {
    forall id | id in orders && orders[id].company.None?
      ensures id in ConflictingOrders(t, orders) <==> id in AuditedConflicts(t, orders)
    {
      ConflictChecksAgree(t, id, orders[id]);
    }
  }

  /** After the assignment exactly the orders without evidence lack a company, unless one company is active. */
  lemma {:induction false} AssignmentLeavesTheUnresolved(t: Tables, orders: map<Id, Order>)
    requires AuditedConflicts(t, orders) == {}
    ensures WithoutCompany(AssignAll(t, orders)) ==
            if |ActiveCompanies(t)| != 1 then AuditedWithoutEvidence(t, orders) else {}
    ensures forall id | id in orders && orders[id].company.None? && AssignAll(t, orders)[id].company.Some? ::
              Justified(t, id, orders[id], AssignAll(t, orders)[id].company.value)
  {
    var after := AssignAll(t, orders);
    forall id | id in orders && orders[id].company.None?
      ensures after[id].company.None? <==> AuditWithoutEvidence(t, id, orders[id]) && |ActiveCompanies(t)| != 1
      ensures after[id].company.Some? ==> Justified(t, id, orders[id], after[id].company.value)
    {
      assert id !in AuditedConflicts(t, orders);
      AssignmentFollowsEvidence(t, id, orders[id]);
      if |ActiveCompanies(t)| == 1 { Singleton(ActiveCompanies(t)); }
    }
  }

  // ---------- The outcome read off the tables ----------

  /** The creator belongs to the company, or an account that received one of the order's payments does. */
  ghost predicate IsEvidence(t: Tables, id: Id, o: Order, c: Id) {
    || (o.createdBy.Some? && o.createdBy.value in t.users && t.users[o.createdBy.value] == Some(c))
    || exists p | p in t.payments ::
         p.order == id && p.account.Some? && p.account.value in t.accounts && t.accounts[p.account.value] == Some(c)
  }

  /** An order without a company whose evidence names two companies. */
  ghost predicate Crossed(t: Tables, id: Id, o: Order) {
    o.company == None && exists c, d :: c != d && IsEvidence(t, id, o, c) && IsEvidence(t, id, o, d)
  }

  /** An order without a company or any evidence for one. */
  ghost predicate Bare(t: Tables, id: Id, o: Order) { o.company == None && forall c :: !IsEvidence(t, id, o, c) }

  ghost predicate OnlyActive(t: Tables, c: Id) {
    c in t.companies && t.companies[c] && forall d | d in t.companies && t.companies[d] :: d == c
  }

  lemma EvidenceIs(t: Tables, id: Id, o: Order)
    ensures forall c :: c in Evidence(t, id, o) <==> IsEvidence(t, id, o, c)
    ensures AuditConflict(t, id, o) <==> exists c, d :: c != d && IsEvidence(t, id, o, c) && IsEvidence(t, id, o, d)
    ensures AuditWithoutEvidence(t, id, o) <==> forall c :: !IsEvidence(t, id, o, c)
  {
    forall c ensures c in Evidence(t, id, o) <==> IsEvidence(t, id, o, c) {}
    TwoElements(Evidence(t, id, o));
    assert Evidence(t, id, o) == {} <==> Creators(t, o) == {} && AccountCompanies(t, id) == {};
    assert CreatorCompany(t, o).Some? ==> CreatorCompany(t, o).value in Creators(t, o);
  }

  lemma OnlyActiveIs(t: Tables)
    ensures |ActiveCompanies(t)| == 1 <==> exists c: Id :: OnlyActive(t, c)
    ensures forall c: Id :: ActiveCompanies(t) == {c} <==> OnlyActive(t, c)
  {
    forall c: Id | OnlyActive(t, c) ensures ActiveCompanies(t) == {c} {}
    forall c: Id | ActiveCompanies(t) == {c} ensures OnlyActive(t, c) {
      assert c in ActiveCompanies(t);
      forall d | d in t.companies && t.companies[d] ensures d == c { assert d in ActiveCompanies(t); }
    }
    if |ActiveCompanies(t)| == 1 {
      Singleton(ActiveCompanies(t));
      assert ActiveCompanies(t) == {The(ActiveCompanies(t))};
    }
  }

  lemma AuditSetsAre(t: Tables, orders: map<Id, Order>)
    ensures AuditedConflicts(t, orders) == set id | id in orders && Crossed(t, id, orders[id])
    ensures AuditedWithoutEvidence(t, orders) == set id | id in orders && Bare(t, id, orders[id])
  {
    forall id | id in orders
      ensures id in AuditedConflicts(t, orders) <==> Crossed(t, id, orders[id])
      ensures id in AuditedWithoutEvidence(t, orders) <==> Bare(t, id, orders[id])
    {
      EvidenceIs(t, id, orders[id]);
    }
  }

  /** The company is some evidence for the order, or there is none and it is the only active one. */
  ghost predicate Owns(t: Tables, id: Id, o: Order, company: Id) {
    IsEvidence(t, id, o, company) || ((forall c :: !IsEvidence(t, id, o, c)) && OnlyActive(t, company))
  }

  lemma JustifiedOwns(t: Tables, id: Id, o: Order, company: Id)
    requires Justified(t, id, o, company)
    ensures Owns(t, id, o, company)
  {
    EvidenceIs(t, id, o);
    OnlyActiveIs(t);
  }

  class AddSaleOrderCompanyScope {
    const t: Tables
    var orders: map<Id, Order>

    constructor (t: Tables, orders: map<Id, Order>)
      ensures this.t == t && this.orders == orders
    {
      this.t, this.orders := t, orders;
    }

    /** Check, assign, check again; an error rolls the assignment back. */
    method Up() returns (r: Result)
      modifies this
      ensures var crossed := set id | id in old(orders) && Crossed(t, id, old(orders)[id]);
              var bare := set id | id in old(orders) && Bare(t, id, old(orders)[id]);
              r == if crossed != {} then Conflicts(|crossed|)
                   else if bare != {} && !(exists c: Id :: OnlyActive(t, c)) then Unresolved(|bare|)
                   else Done
      ensures !r.Done? ==> orders == old(orders)
      ensures r.Done? ==> orders.Keys == old(orders).Keys
      ensures r.Done? ==> forall id | id in orders ::
                && orders[id].company.Some? && orders[id].createdBy == old(orders)[id].createdBy
                && (old(orders)[id].company.Some? ==> orders[id] == old(orders)[id])
                && (old(orders)[id].company.None? ==> Owns(t, id, old(orders)[id], orders[id].company.value))
    {
      ConflictSetsAgree(t, orders);
      AuditSetsAre(t, orders);
      OnlyActiveIs(t);
      var conflicts := ConflictingOrders(t, orders);
      if conflicts != {} { return Conflicts(|conflicts|); }
      AssignmentLeavesTheUnresolved(t, orders);
      var before := orders;
      orders := AssignAll(t, orders);
      var unresolved := WithoutCompany(orders);
      if unresolved != {} {
        orders := before;
        return Unresolved(|unresolved|);
      }
      assert forall id | id in orders :: id !in WithoutCompany(orders);
      forall id | id in orders && before[id].company.None? ensures Owns(t, id, before[id], orders[id].company.value) {
        JustifiedOwns(t, id, before[id], orders[id].company.value);
      }
      r := Done;
    }
  }
}
