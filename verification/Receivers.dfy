/**
 Reconciling the receiving account and method of sale payments from a mapping file: validate every
 mapping, then apply all of them or none, against the audit queries that check the same tables.
 */
module Receivers {
  import opened Sums

  type Uuid = string

  /** A JSON item; None stands for a missing field or one that is not a string. */
  datatype Item = Item(salePaymentId: Option<string>, accountId: Option<string>, methodId: Option<string>)

  datatype Mapping = Mapping(salePaymentId: Uuid, accountId: Uuid, methodId: Uuid)

  datatype Parsed = Mappings(mappings: seq<Mapping>) | Empty | InvalidRow(row: nat) | Duplicated

  datatype Status = Posted | OtherStatus(name: string)
  datatype Usage = Inflow | Both | OtherUsage(name: string)
  datatype Kind = CashBox | BankAccount | CreditCard | DigitalWallet | OtherKind(name: string)
  datatype Code = Cash | BankTransfer | BankDeposit | Card | Wallet | Check | OtherCode(name: string)

  datatype Payment = Payment(status: Status, currency: string, accountId: Option<Uuid>, methodId: Option<Uuid>, amount: int)
  datatype Account = Account(name: string, kind: Kind, active: bool, usage: Usage, currency: string)
  datatype Method = Method(name: string, code: Code, active: bool)

  /** Tables keyed by uuid in the database's canonical lower-case form. */
  datatype Catalog = Catalog(accounts: map<Uuid, Account>, methods: map<Uuid, Method>)
  type Payments = map<Uuid, Payment>

  datatype Error =
    | NotPosted(payment: Uuid) | NoAccount(account: Uuid) | InactiveAccount(account: Uuid) | NotInflow(account: Uuid)
    | OtherCurrency(account: Uuid) | NoMethod(id: Uuid) | InactiveMethod(id: Uuid) | Incompatible(account: Uuid)
    | MissingPayments(found: nat)

  datatype Outcome = BadFile(parsed: Parsed) | Rejected(errors: seq<Error>) | Simulated | Applied

  // ---------- Identifiers ----------

  function Lower(c: char): char { if 'A' <= c <= 'F' then (c as int + 32) as char else c }

  /** The database compares uuids, not their spelling. */
  function Canon(s: string): (r: Uuid)
    ensures |r| == |s|
  {
    seq(|s|, i requires 0 <= i < |s| => Lower(s[i]))
  }

  predicate IsHex(c: char) { '0' <= c <= '9' || 'a' <= c <= 'f' || 'A' <= c <= 'F' }

  predicate IsUuid(s: string) {
    && |s| == 36
    && '1' <= s[14] <= '5'
    && s[19] in "89abAB"
    && forall i | 0 <= i < 36 :: if i in {8, 13, 18, 23} then s[i] == '-' else IsHex(s[i])
  }

  // ---------- What an identifier looks like ----------

  predicate HexDigits(s: string, n: nat) { |s| == n && forall c | c in s :: c in "0123456789abcdefABCDEF" }

  ghost predicate Joined(s: string, a: string, b: string, c: string, d: string, e: string) {
    s == a + "-" + b + "-" + c + "-" + d + "-" + e
  }

  /** 8, 4, 4, 4 and 12 digits; the third group begins with a version of 1 to 5, the fourth with 8, 9, a or b. */
  predicate Groups(a: string, b: string, c: string, d: string, e: string) {
    && HexDigits(a, 8) && HexDigits(b, 4) && HexDigits(c, 4) && HexDigits(d, 4) && HexDigits(e, 12)
    && c[0] in "12345" && d[0] in "89abAB"
  }

  ghost predicate WellFormed(s: string) { exists a, b, c, d, e :: Joined(s, a, b, c, d, e) && Groups(a, b, c, d, e) }

  lemma HexSlice(s: string, from: nat, to: nat)
    requires from <= to <= |s| && forall i | from <= i < to :: IsHex(s[i])
    ensures HexDigits(s[from..to], to - from)
  {
  }

  lemma JoinedParts(s: string)
    requires |s| == 36 && s[8] == '-' && s[13] == '-' && s[18] == '-' && s[23] == '-'
    ensures Joined(s, s[..8], s[9..13], s[14..18], s[19..23], s[24..])
  {
    assert s[..8] + "-" == s[..9];
    assert s[..9] + s[9..13] + "-" == s[..14];
    assert s[..14] + s[14..18] + "-" == s[..19];
    assert s[..19] + s[19..23] + "-" == s[..24];
  }

  lemma UuidHasGroups(s: string)
    requires IsUuid(s)
    ensures |s| == 36 && Groups(s[..8], s[9..13], s[14..18], s[19..23], s[24..])
  {
    HexSlice(s, 0, 8); HexSlice(s, 9, 13); HexSlice(s, 14, 18); HexSlice(s, 19, 23); HexSlice(s, 24, 36);
    assert s[14..18][0] == s[14] && s[19..23][0] == s[19];
    assert s[..8] == s[0..8] && s[24..] == s[24..36];
  }

  /** A uuid of versions 1 to 5 in any spelling. */
  lemma {:induction false} UuidIsWellFormed(s: string)
    ensures IsUuid(s) <==> WellFormed(s)
  {
    if IsUuid(s) {
      UuidHasGroups(s);
      JoinedParts(s);
    } else if WellFormed(s) {
      var a, b, c, d, e :| Joined(s, a, b, c, d, e) && Groups(a, b, c, d, e);
      WellFormedIsUuid(s, a, b, c, d, e);
    }
  }

  lemma HexChar(s: string, i: nat, n: nat)
    requires HexDigits(s, n) && i < n
    ensures IsHex(s[i])
  {
    assert s[i] in s;
  }

  lemma WellFormedIsUuid(s: string, a: string, b: string, c: string, d: string, e: string)
    requires Joined(s, a, b, c, d, e) && Groups(a, b, c, d, e)
    ensures IsUuid(s)
  {
    forall i | 0 <= i < 36 ensures if i in {8, 13, 18, 23} then s[i] == '-' else IsHex(s[i]) {
      if i < 8 { HexChar(a, i, 8); assert s[i] == a[i]; }
      else if 8 < i < 13 { HexChar(b, i - 9, 4); assert s[i] == b[i - 9]; }
      else if 13 < i < 18 { HexChar(c, i - 14, 4); assert s[i] == c[i - 14]; }
      else if 18 < i < 23 { HexChar(d, i - 19, 4); assert s[i] == d[i - 19]; }
      else if 23 < i { HexChar(e, i - 24, 12); assert s[i] == e[i - 24]; }
    }
    assert s[14] == c[0] && s[19] == d[0];
  }

  /** The same digit, whatever its case. */
  predicate SameDigit(x: char, y: char) {
    || x == y
    || (x in "abcdef" && y in "ABCDEF" && x as int == y as int + 32)
    || (y in "abcdef" && x in "ABCDEF" && y as int == x as int + 32)
  }

  lemma LowerIgnoresCase(x: char, y: char)
    requires (x == '-' || IsHex(x)) && (y == '-' || IsHex(y))
    ensures Lower(x) == Lower(y) <==> SameDigit(x, y)
    ensures Lower(x) !in "ABCDEF" && SameDigit(Lower(x), x)
  {
  }

  lemma UuidChar(s: string, i: nat)
    requires IsUuid(s) && i < 36
    ensures |s| == 36 && (s[i] == '-' || IsHex(s[i]))
  {
  }

  ghost predicate SameDigits(s: string, t: string) { |s| == |t| && forall i | 0 <= i < |s| :: SameDigit(s[i], t[i]) }

  ghost predicate LowerCase(s: string) { forall c | c in s :: c !in "ABCDEF" }

  lemma CanonOfUuids(s: string, t: string)
    requires IsUuid(s) && IsUuid(t)
    ensures Canon(s) == Canon(t) <==> SameDigits(s, t)
    ensures LowerCase(Canon(s)) && SameDigits(Canon(s), s)
  {
    forall i: nat | i < 36
      ensures Canon(s)[i] == Canon(t)[i] <==> SameDigit(s[i], t[i])
      ensures Canon(s)[i] !in "ABCDEF" && SameDigit(Canon(s)[i], s[i])
    {
      UuidChar(s, i);
      UuidChar(t, i);
      LowerIgnoresCase(s[i], t[i]);
    }
    if SameDigits(s, t) {
      forall i: nat | i < 36 ensures Canon(s)[i] == Canon(t)[i] { assert SameDigit(s[i], t[i]); }
    } else {
      var i :| 0 <= i < |s| && !SameDigit(s[i], t[i]);
      assert Canon(s)[i] != Canon(t)[i];
    }
  }

  /** Two identifiers are one uuid exactly when they differ in case at most; the database's form is lower case. */
  lemma {:induction false} CanonIgnoresCase(s: string, t: string)
    requires WellFormed(s) && WellFormed(t)
    ensures Canon(s) == Canon(t) <==> SameDigits(s, t)
    ensures LowerCase(Canon(s)) && SameDigits(Canon(s), s)
  {
    assert IsUuid(s) by { UuidIsWellFormed(s); }
    assert IsUuid(t) by { UuidIsWellFormed(t); }
    CanonOfUuids(s, t);
  }

  predicate ValidItem(item: Item) {
    && item.salePaymentId.Some? && IsUuid(item.salePaymentId.value)
    && item.accountId.Some? && IsUuid(item.accountId.value)
    && item.methodId.Some? && IsUuid(item.methodId.value)
  }

  function ToMapping(item: Item): Mapping
    requires ValidItem(item)
  {
    Mapping(item.salePaymentId.value, item.accountId.value, item.methodId.value)
  }

  // ---------- Validation ----------

  /** The script's table; an unlisted code allows every kind. */
  function AllowedKinds(code: Code): Option<set<Kind>> {
    match code
    case Cash => Some({CashBox})
    case BankTransfer => Some({BankAccount})
    case BankDeposit => Some({BankAccount, CashBox})
    case Card => Some({CreditCard})
    case Wallet => Some({DigitalWallet})
    case Check => Some({BankAccount})
    case OtherCode(_) => None
  }

  /** The account a LEFT JOIN finds; an account with an empty name is reported as missing. */
  function Named(c: Catalog, id: Uuid): Option<Account> {
    if Canon(id) in c.accounts && c.accounts[Canon(id)].name != "" then Some(c.accounts[Canon(id)]) else None
  }

  function NamedMethod(c: Catalog, id: Uuid): Option<Method> {
    if Canon(id) in c.methods && c.methods[Canon(id)].name != "" then Some(c.methods[Canon(id)]) else None
  }

  function If(condition: bool, e: Error): seq<Error> { if condition then [e] else [] }

  function MethodErrors(c: Catalog, a: Account, m: Mapping): seq<Error> {
    match NamedMethod(c, m.methodId)
    case None => [NoMethod(m.methodId)]
    case Some(way) =>
      If(!way.active, InactiveMethod(m.methodId)) +
      If(AllowedKinds(way.code).Some? && a.kind !in AllowedKinds(way.code).value, Incompatible(m.accountId))
  }

  /** What the loop reports for one row. */
  function RowErrors(c: Catalog, p: Payment, m: Mapping): seq<Error> {
    If(p.status != Posted, NotPosted(m.salePaymentId)) +
    match Named(c, m.accountId)
    case None => [NoAccount(m.accountId)]
    case Some(a) =>
      If(!a.active, InactiveAccount(m.accountId)) + If(a.usage.OtherUsage?, NotInflow(m.accountId)) +
      If(a.currency != p.currency, OtherCurrency(m.accountId)) + MethodErrors(c, a, m)
  }

  /** The mapping passes validation on its own. */
  predicate Accepted(c: Catalog, payments: Payments, m: Mapping) {
    Canon(m.salePaymentId) in payments && RowErrors(c, payments[Canon(m.salePaymentId)], m) == []
  }

  // ---------- The audit's queries ----------

  predicate AuditInvalidReceiver(c: Catalog, p: Payment) {
    && p.status == Posted
    && (p.accountId.None? || p.accountId.value !in c.accounts
        || !c.accounts[p.accountId.value].active
        || (c.accounts[p.accountId.value].usage != Inflow && c.accounts[p.accountId.value].usage != Both)
        || c.accounts[p.accountId.value].currency != p.currency)
  }

  predicate AuditWithoutValidMethod(c: Catalog, p: Payment) {
    p.status == Posted
    && (p.methodId.None? || p.methodId.value !in c.methods || !c.methods[p.methodId.value].active)
  }

  predicate AuditIncompatible(c: Catalog, p: Payment) {
    && p.status == Posted
    && p.methodId.Some? && p.methodId.value in c.methods && p.accountId.Some? && p.accountId.value in c.accounts
    && var code, kind := c.methods[p.methodId.value].code, c.accounts[p.accountId.value].kind;
       || (code == Cash && kind != CashBox)
       || ((code == BankTransfer || code == Check) && kind != BankAccount)
       || (code == BankDeposit && kind != BankAccount && kind != CashBox)
       || (code == Card && kind != CreditCard)
       || (code == Wallet && kind != DigitalWallet)
  }

  predicate Listed(c: Catalog, p: Payment) {
    AuditInvalidReceiver(c, p) || AuditWithoutValidMethod(c, p) || AuditIncompatible(c, p)
  }

  function Redirected(p: Payment, m: Mapping): Payment {
    p.(accountId := Some(Canon(m.accountId)), methodId := Some(Canon(m.methodId)))
  }

  /** The names the script insists on and the audits do not look at. */
  predicate TargetsNamed(c: Catalog, m: Mapping) {
    && (Canon(m.accountId) in c.accounts ==> c.accounts[Canon(m.accountId)].name != "")
    && (Canon(m.methodId) in c.methods ==> c.methods[Canon(m.methodId)].name != "")
  }

  /**
   A payment passes validation exactly when it is posted, its targets have names where they exist, and, once
   redirected, no audit would list it. The audits list posted payments only.
   */
  lemma {:induction false} ValidationMatchesAudits(c: Catalog, p: Payment, m: Mapping)
    ensures RowErrors(c, p, m) == [] <==> p.status == Posted && TargetsNamed(c, m) && !Listed(c, Redirected(p, m))
    ensures Listed(c, p) ==> p.status == Posted
  {
  }

  /** Validation is stricter than the audits, by the names alone. */
  lemma {:induction false} AcceptedIsNotListed(c: Catalog, p: Payment, m: Mapping)
    requires RowErrors(c, p, m) == []
    ensures p.status == Posted && !Listed(c, Redirected(p, m)) && TargetsNamed(c, m)
  {
  }

  predicate AccountFound(c: Catalog, m: Mapping) {
    Canon(m.accountId) in c.accounts && c.accounts[Canon(m.accountId)].name != ""
  }

  predicate MethodFound(c: Catalog, m: Mapping) {
    Canon(m.methodId) in c.methods && c.methods[Canon(m.methodId)].name != ""
  }

  /** What each error says about the mapping; nothing is said about a missing account or method but that. */
  predicate Caused(c: Catalog, p: Payment, m: Mapping, e: Error) {
    match e
    case NotPosted(payment) => payment == m.salePaymentId && p.status != Posted
    case NoAccount(account) => account == m.accountId && !AccountFound(c, m)
    case InactiveAccount(account) => account == m.accountId && AccountFound(c, m) && !c.accounts[Canon(m.accountId)].active
    case NotInflow(account) =>
      account == m.accountId && AccountFound(c, m) && c.accounts[Canon(m.accountId)].usage !in {Inflow, Both}
    case OtherCurrency(account) =>
      account == m.accountId && AccountFound(c, m) && c.accounts[Canon(m.accountId)].currency != p.currency
    case NoMethod(id) => id == m.methodId && AccountFound(c, m) && !MethodFound(c, m)
    case InactiveMethod(id) =>
      id == m.methodId && AccountFound(c, m) && MethodFound(c, m) && !c.methods[Canon(m.methodId)].active
    case Incompatible(account) =>
      && account == m.accountId && AccountFound(c, m) && MethodFound(c, m)
      && AuditIncompatible(c, Redirected(p.(status := Posted), m))
    case MissingPayments(_) => false
  }

  lemma MethodErrorsNameTheirCause(c: Catalog, p: Payment, m: Mapping, e: Error)
    requires AccountFound(c, m)
    ensures e in MethodErrors(c, c.accounts[Canon(m.accountId)], m)
       <==> (e.NoMethod? || e.InactiveMethod? || e.Incompatible?) && Caused(c, p, m, e)
  {
  }

  /** Each error is reported exactly when its cause is there. */
  lemma {:induction false} ErrorsNameTheirCause(c: Catalog, p: Payment, m: Mapping, e: Error)
    ensures e in RowErrors(c, p, m) <==> Caused(c, p, m, e)
  {
    if AccountFound(c, m) { MethodErrorsNameTheirCause(c, p, m, e); }
  }

  // ---------- Applying ----------

  /** One UPDATE; an unknown id touches no row. */
  function Update(payments: Payments, m: Mapping): Payments {
    var id := Canon(m.salePaymentId);
    if id in payments then payments[id := Redirected(payments[id], m)] else payments
  }

  function ApplyAll(payments: Payments, ms: seq<Mapping>): Payments {
    if ms == [] then payments else Update(ApplyAll(payments, ms[..|ms| - 1]), ms[|ms| - 1])
  }

  predicate Maps(m: Mapping, id: Uuid) { Canon(m.salePaymentId) == id }

  predicate SameTargets(a: Mapping, b: Mapping) {
    Canon(a.accountId) == Canon(b.accountId) && Canon(a.methodId) == Canon(b.methodId)
  }

  /** What a mapped payment becomes: redirected by one of the mappings of its id. */
  ghost predicate RedirectedBySome(before: Payment, after: Payment, ms: seq<Mapping>, id: Uuid) {
    exists m | m in ms :: Maps(m, id) && after == Redirected(before, m)
  }

  ghost predicate Mapped(ms: seq<Mapping>, id: Uuid) { exists m | m in ms :: Maps(m, id) }

  /** Mapped payments change their account and method only; the others keep every field. */
  lemma {:induction false} ApplyAllIs(payments: Payments, ms: seq<Mapping>, id: Uuid)
    requires id in payments
    ensures ApplyAll(payments, ms).Keys == payments.Keys
    ensures if Mapped(ms, id) then RedirectedBySome(payments[id], ApplyAll(payments, ms)[id], ms, id)
            else ApplyAll(payments, ms)[id] == payments[id]
  {
    if ms != [] {
      var init, last := ms[..|ms| - 1], ms[|ms| - 1];
      ApplyAllIs(payments, init, id);
      assert ms == init + [last];
      assert forall m :: m in ms <==> m in init || m == last;
      if Maps(last, id) {
        assert last in ms;
        assert ApplyAll(payments, ms)[id] == Redirected(ApplyAll(payments, init)[id], last);
        assert ApplyAll(payments, ms)[id] == Redirected(payments[id], last);
      } else {
        assert Mapped(ms, id) <==> Mapped(init, id);
      }
    }
  }

  /** After a batch in which every mapping was accepted, no audit lists a mapped payment. */
  lemma {:induction false} AppliedPaymentsPassAudits(c: Catalog, payments: Payments, ms: seq<Mapping>)
    requires forall m | m in ms :: Accepted(c, payments, m)
    ensures forall m | m in ms ::
              var id := Canon(m.salePaymentId);
              id in ApplyAll(payments, ms) && ApplyAll(payments, ms)[id].status == Posted
              && !Listed(c, ApplyAll(payments, ms)[id])
  {
    forall m | m in ms
      ensures var id := Canon(m.salePaymentId);
              id in ApplyAll(payments, ms) && ApplyAll(payments, ms)[id].status == Posted
              && !Listed(c, ApplyAll(payments, ms)[id])
    {
      var id := Canon(m.salePaymentId);
      ApplyAllIs(payments, ms, id);
      assert Maps(m, id);
      var decisive :| decisive in ms && Maps(decisive, id)
                      && ApplyAll(payments, ms)[id] == Redirected(payments[id], decisive);
      AcceptedIsNotListed(c, payments[id], decisive);
    }
  }

  // ---------- Order ----------

  /** Mappings of the same payment, however its id is spelled, agree on their targets. */
  ghost predicate Consistent(ms: seq<Mapping>) {
    forall a, b | a in ms && b in ms && Canon(a.salePaymentId) == Canon(b.salePaymentId) :: SameTargets(a, b)
  }

  lemma {:induction false} ConsistentIsOrderFree(payments: Payments, a: seq<Mapping>, b: seq<Mapping>)
    requires Consistent(a) && multiset(a) == multiset(b)
    ensures ApplyAll(payments, a) == ApplyAll(payments, b)
  {
    assert forall m :: m in a <==> m in multiset(a);
    assert forall m :: m in b <==> m in multiset(b);
    forall id | id in payments
      ensures id in ApplyAll(payments, a) && id in ApplyAll(payments, b)
      ensures ApplyAll(payments, a)[id] == ApplyAll(payments, b)[id]
    {
      ApplyAllIs(payments, a, id);
      ApplyAllIs(payments, b, id);
    }
    SameKeys(payments, a);
    SameKeys(payments, b);
  }

  lemma {:induction false} SameKeys(payments: Payments, ms: seq<Mapping>)
    ensures ApplyAll(payments, ms).Keys == payments.Keys
  {
    if ms != [] { SameKeys(payments, ms[..|ms| - 1]); }
  }

  function LastMoved(ms: seq<Mapping>, i: nat): (r: seq<Mapping>)
    requires i < |ms|
    ensures multiset(r) == multiset(ms)
  {
    assert ms == ms[..i] + [ms[i]] + ms[i + 1..];
    ms[..i] + ms[i + 1..] + [ms[i]]
  }

  /** Moved to the end, a mapping decides its payment. */
  lemma {:induction false} LastDecides(payments: Payments, ms: seq<Mapping>, i: nat)
    requires i < |ms| && Canon(ms[i].salePaymentId) in payments
    ensures var id := Canon(ms[i].salePaymentId);
            && id in ApplyAll(payments, LastMoved(ms, i))
            && ApplyAll(payments, LastMoved(ms, i))[id] == Redirected(payments[id], ms[i])
  {
    var moved, id := LastMoved(ms, i), Canon(ms[i].salePaymentId);
    ApplyAllIs(payments, moved[..|moved| - 1], id);
  }

  ghost predicate OrderFree(payments: Payments, ms: seq<Mapping>) {
    forall other | multiset(other) == multiset(ms) :: ApplyAll(payments, other) == ApplyAll(payments, ms)
  }

  /** The order of the file does not matter exactly when mappings of one payment agree. */
  lemma {:induction false} OrderFreeIffConsistent(payments: Payments, ms: seq<Mapping>)
    requires forall m | m in ms :: Canon(m.salePaymentId) in payments
    ensures OrderFree(payments, ms) <==> Consistent(ms)
  {
    if Consistent(ms) {
      forall other | multiset(other) == multiset(ms) ensures ApplyAll(payments, other) == ApplyAll(payments, ms) {
        ConsistentIsOrderFree(payments, ms, other);
      }
    }
    if OrderFree(payments, ms) {
      forall a, b | a in ms && b in ms && Canon(a.salePaymentId) == Canon(b.salePaymentId) ensures SameTargets(a, b) {
        var i :| 0 <= i < |ms| && ms[i] == a;
        var j :| 0 <= j < |ms| && ms[j] == b;
        LastDecides(payments, ms, i);
        LastDecides(payments, ms, j);
        assert ApplyAll(payments, LastMoved(ms, i)) == ApplyAll(payments, LastMoved(ms, j));
      }
    }
  }

  // ---------- The file ----------

  function FirstInvalid(items: seq<Item>): (r: nat)
    ensures r <= |items|
    ensures forall k | 0 <= k < r :: ValidItem(items[k])
    ensures r < |items| ==> !ValidItem(items[r])
  {
    if items == [] || !ValidItem(items[0]) then 0 else 1 + FirstInvalid(items[1..])
  }

  /** The duplicate check compares spellings. */
  predicate DistinctSpellings(ms: seq<Mapping>) {
    forall i, j | 0 <= i < j < |ms| :: ms[i].salePaymentId != ms[j].salePaymentId
  }

  function Parse(items: seq<Item>): Parsed {
    if items == [] then Empty
    else if FirstInvalid(items) < |items| then InvalidRow(FirstInvalid(items) + 1)
    else
      var ms := seq(|items|, i requires 0 <= i < |items| => ToMapping(items[i]));
      if DistinctSpellings(ms) then Mappings(ms) else Duplicated
  }

  ghost predicate GoodItem(item: Item) {
    item.salePaymentId.Some? && WellFormed(item.salePaymentId.value) && item.accountId.Some? && WellFormed(item.accountId.value)
    && item.methodId.Some? && WellFormed(item.methodId.value)
  }

  ghost predicate AllGood(items: seq<Item>) { forall i | 0 <= i < |items| :: GoodItem(items[i]) }

  ghost predicate NoRepeats(items: seq<Item>) {
    forall i, j | 0 <= i < j < |items| :: items[i].salePaymentId != items[j].salePaymentId
  }

  lemma ValidIsGood(item: Item)
    ensures ValidItem(item) <==> GoodItem(item)
  {
    if item.salePaymentId.Some? { UuidIsWellFormed(item.salePaymentId.value); }
    if item.accountId.Some? { UuidIsWellFormed(item.accountId.value); }
    if item.methodId.Some? { UuidIsWellFormed(item.methodId.value); }
  }

  lemma FirstInvalidIsFirstBad(items: seq<Item>)
    ensures FirstInvalid(items) == |items| <==> AllGood(items)
    ensures FirstInvalid(items) < |items| ==> !GoodItem(items[FirstInvalid(items)]) && AllGood(items[..FirstInvalid(items)])
  {
    var n := FirstInvalid(items);
    forall i | 0 <= i < n ensures GoodItem(items[i]) { ValidIsGood(items[i]); }
    if n < |items| { ValidIsGood(items[n]); }
  }

  /** The fields of the items, in their order. */
  ghost predicate Carries(ms: seq<Mapping>, items: seq<Item>) {
    |ms| == |items| && forall i | 0 <= i < |ms| ::
      items[i] == Item(Some(ms[i].salePaymentId), Some(ms[i].accountId), Some(ms[i].methodId))
  }

  /**
   A file is parsed exactly when it is not empty, every item has three well-formed identifiers, and no payment
   is spelled the same twice; the first bad item is named by its row.
   */
  lemma {:induction false} ParseAccepts(items: seq<Item>)
    ensures Parse(items).Mappings? <==> items != [] && AllGood(items) && NoRepeats(items)
    ensures Parse(items).Mappings? ==> Carries(Parse(items).mappings, items)
    ensures Parse(items).Empty? <==> items == []
    ensures Parse(items).InvalidRow? <==> !AllGood(items)
    ensures Parse(items).InvalidRow? ==>
              var row := Parse(items).row; 1 <= row <= |items| && !GoodItem(items[row - 1]) && AllGood(items[..row - 1])
  {
    FirstInvalidIsFirstBad(items);
    if items != [] && FirstInvalid(items) == |items| {
      var ms := seq(|items|, i requires 0 <= i < |items| => ToMapping(items[i]));
      DistinctIsNoRepeats(items, ms);
    }
  }

  lemma DistinctIsNoRepeats(items: seq<Item>, ms: seq<Mapping>)
    requires Carries(ms, items)
    ensures DistinctSpellings(ms) <==> NoRepeats(items)
  {
    if DistinctSpellings(ms) {
      forall i, j | 0 <= i < j < |items| ensures items[i].salePaymentId != items[j].salePaymentId {
        assert ms[i].salePaymentId != ms[j].salePaymentId;
      }
    }
    if NoRepeats(items) {
      forall i, j | 0 <= i < j < |ms| ensures ms[i].salePaymentId != ms[j].salePaymentId {
        assert items[i].salePaymentId != items[j].salePaymentId;
      }
    }
  }

  /** A parsed file is order free whenever no id is spelled in two ways. */
  lemma {:induction false} ParsedFileIsConsistent(items: seq<Item>)
    requires Parse(items).Mappings?
    requires forall a, b | a in Parse(items).mappings && b in Parse(items).mappings
                           && Canon(a.salePaymentId) == Canon(b.salePaymentId) :: a.salePaymentId == b.salePaymentId
    ensures Consistent(Parse(items).mappings)
  {
    var ms := Parse(items).mappings;
    forall a, b | a in ms && b in ms && Canon(a.salePaymentId) == Canon(b.salePaymentId) ensures a == b {
      var i :| 0 <= i < |ms| && ms[i] == a;
      var j :| 0 <= j < |ms| && ms[j] == b;
      assert i == j;
    }
  }

  function SpelledTwice(u: Uuid, v: Uuid, account: Uuid, other: Uuid, way: Uuid): seq<Item> {
    [Item(Some(u), Some(account), Some(way)), Item(Some(v), Some(other), Some(way))]
  }

  /** Two spellings of one id, sent to different accounts, pass the duplicate check. */
  lemma {:induction false} SpellingsSlipThrough(u: Uuid, v: Uuid, account: Uuid, other: Uuid, way: Uuid)
    requires IsUuid(u) && IsUuid(v) && u != v && Canon(u) == Canon(v)
    requires IsUuid(account) && IsUuid(other) && Canon(account) != Canon(other) && IsUuid(way)
    ensures var ms := [Mapping(u, account, way), Mapping(v, other, way)];
            Parse(SpelledTwice(u, v, account, other, way)) == Mappings(ms) && !Consistent(ms)
  {
    var items := SpelledTwice(u, v, account, other, way);
    assert ValidItem(items[0]) && ValidItem(items[1]);
    var ms := Parse(items).mappings;
    assert ms == [Mapping(u, account, way), Mapping(v, other, way)];
    assert ms[0] in ms && ms[1] in ms;
  }

  /** The uuid with the given digit wherever any digit is allowed. */
  function Uniform(digit: char): Uuid {
    seq(36, i requires 0 <= i < 36 =>
      if i in {8, 13, 18, 23} then '-' else if i == 14 then '1' else if i == 19 then '8' else digit)
  }

  ghost predicate AllAccepted(c: Catalog, payments: Payments, ms: seq<Mapping>) {
    forall m | m in ms :: Accepted(c, payments, m)
  }

  /** One posted payment, and two accounts and a method that suit it. */
  function Suiting(account: Uuid, other: Uuid, way: Uuid): Catalog {
    Catalog(map[account := Account("Till", CashBox, true, Inflow, "PEN"), other := Account("Bank", BankAccount, true, Both, "PEN")],
            map[way := Method("Deposit", BankDeposit, true)])
  }

  function OnePayment(id: Uuid): Payments { map[id := Payment(Posted, "PEN", None, None, 100)] }

  lemma SuitingAccepts(u: Uuid, m: Mapping, account: Uuid, other: Uuid, way: Uuid)
    requires Canon(m.salePaymentId) == u && Canon(m.methodId) == way
    requires Canon(m.accountId) in {account, other}
    ensures Accepted(Suiting(account, other, way), OnePayment(u), m)
  {
    assert NamedMethod(Suiting(account, other, way), m.methodId) == Some(Method("Deposit", BankDeposit, true));
  }

  lemma PairAccepted(c: Catalog, payments: Payments, a: Mapping, b: Mapping)
    requires Accepted(c, payments, a) && Accepted(c, payments, b)
    ensures AllAccepted(c, payments, [a, b]) && forall m | m in [a, b] :: Canon(m.salePaymentId) in payments
  {
  }

  /** Such a file is accepted, and its order decides the result. */
  lemma {:induction false} SpellingsDecide(u: Uuid, v: Uuid, account: Uuid, other: Uuid, way: Uuid)
    requires IsUuid(u) && IsUuid(v) && u != v && u == Canon(u) == Canon(v)
    requires IsUuid(account) && IsUuid(other) && IsUuid(way) && account != other
    requires account == Canon(account) && other == Canon(other) && way == Canon(way)
    ensures var c, payments, parsed := Suiting(account, other, way), OnePayment(u), Parse(SpelledTwice(u, v, account, other, way));
            parsed.Mappings? && AllAccepted(c, payments, parsed.mappings) && !OrderFree(payments, parsed.mappings)
  {
    SpellingsSlipThrough(u, v, account, other, way);
    var a, b := Mapping(u, account, way), Mapping(v, other, way);
    SuitingAccepts(u, a, account, other, way);
    SuitingAccepts(u, b, account, other, way);
    PairAccepted(Suiting(account, other, way), OnePayment(u), a, b);
    OrderFreeIffConsistent(OnePayment(u), [a, b]);
  }

  lemma UniformForms()
    ensures Canon(Uniform('a')) == Canon(Uniform('A')) == Uniform('a') && Uniform('a') != Uniform('A')
    ensures Canon(Uniform('b')) == Uniform('b') && Canon(Uniform('c')) == Uniform('c') && Canon(Uniform('d')) == Uniform('d')
    ensures Uniform('b') != Uniform('c')
    ensures IsUuid(Uniform('a')) && IsUuid(Uniform('A')) && IsUuid(Uniform('b')) && IsUuid(Uniform('c')) && IsUuid(Uniform('d'))
  {
    assert Uniform('a')[0] != Uniform('A')[0] && Uniform('b')[0] != Uniform('c')[0];
  }

  /** A file with lower- and upper-case spellings of one id is parsed and accepted, and its order decides the result. */
  lemma {:induction false} CaseVariantsSlipThrough()
    ensures var c, payments := Suiting(Uniform('b'), Uniform('c'), Uniform('d')), OnePayment(Uniform('a'));
            var parsed := Parse(SpelledTwice(Uniform('a'), Uniform('A'), Uniform('b'), Uniform('c'), Uniform('d')));
            parsed.Mappings? && AllAccepted(c, payments, parsed.mappings) && !OrderFree(payments, parsed.mappings)
  {
    UniformForms();
    SpellingsDecide(Uniform('a'), Uniform('A'), Uniform('b'), Uniform('c'), Uniform('d'));
  }

  // ---------- The batch ----------

  function Found(payments: Payments, ms: seq<Mapping>): (r: nat)
    ensures r <= |ms|
    ensures r == |ms| <==> forall m | m in ms :: Canon(m.salePaymentId) in payments
  {
    if ms == [] then 0
    else
      assert ms == ms[..|ms| - 1] + [ms[|ms| - 1]];
      Found(payments, ms[..|ms| - 1]) + if Canon(ms[|ms| - 1].salePaymentId) in payments then 1 else 0
  }

  /** Every mapping of a payment that exists is accepted. */
  ghost predicate KnownAccepted(c: Catalog, payments: Payments, ms: seq<Mapping>) {
    forall m | m in ms && Canon(m.salePaymentId) in payments :: Accepted(c, payments, m)
  }

  /** Some mapping of a known payment causes the error. */
  ghost predicate CausedBySome(c: Catalog, payments: Payments, ms: seq<Mapping>, e: Error) {
    exists m | m in ms :: Canon(m.salePaymentId) in payments && Caused(c, payments[Canon(m.salePaymentId)], m, e)
  }

  /** Every cause is reported, and how many mappings found their payment if not all did. */
  ghost predicate Reported(c: Catalog, payments: Payments, ms: seq<Mapping>, e: Error) {
    CausedBySome(c, payments, ms, e) || (Found(payments, ms) < |ms| && e == MissingPayments(Found(payments, ms)))
  }

  lemma OneMoreCause(c: Catalog, payments: Payments, ms: seq<Mapping>, i: nat, e: Error)
    requires i < |ms|
    ensures CausedBySome(c, payments, ms[..i + 1], e)
       <==> CausedBySome(c, payments, ms[..i], e)
            || (Canon(ms[i].salePaymentId) in payments && e in RowErrors(c, payments[Canon(ms[i].salePaymentId)], ms[i]))
  {
    assert ms[..i + 1] == ms[..i] + [ms[i]];
    if Canon(ms[i].salePaymentId) in payments { ErrorsNameTheirCause(c, payments[Canon(ms[i].salePaymentId)], ms[i], e); }
  }

  lemma OneMoreKnown(c: Catalog, payments: Payments, ms: seq<Mapping>, i: nat)
    requires i < |ms|
    ensures KnownAccepted(c, payments, ms[..i + 1])
       <==> KnownAccepted(c, payments, ms[..i]) && (Canon(ms[i].salePaymentId) in payments ==> Accepted(c, payments, ms[i]))
    ensures Found(payments, ms[..i + 1]) == Found(payments, ms[..i]) + if Canon(ms[i].salePaymentId) in payments then 1 else 0
  {
    assert ms[..i + 1] == ms[..i] + [ms[i]];
    assert ms[..i + 1][..i] == ms[..i];
  }

  class SalePayments {
    const c: Catalog
    var payments: Payments

    constructor (c: Catalog, payments: Payments)
      ensures this.c == c && this.payments == payments
    {
      this.c, this.payments := c, payments;
    }

    /** The joined rows and everything wrong with them; an unknown payment only lowers the row count. */
    method Validate(ms: seq<Mapping>) returns (errors: seq<Error>)
      ensures errors == [] <==> AllAccepted(c, payments, ms)
      ensures forall e :: e in errors <==> Reported(c, payments, ms, e)
    {
      errors := [];
      var rows := 0;
      for i := 0 to |ms|
        invariant rows == Found(payments, ms[..i])
        invariant errors == [] <==> KnownAccepted(c, payments, ms[..i])
        invariant forall e :: e in errors <==> CausedBySome(c, payments, ms[..i], e)
      {
        OneMoreKnown(c, payments, ms, i);
        forall e { OneMoreCause(c, payments, ms, i, e); }
        if Canon(ms[i].salePaymentId) in payments {
          rows := rows + 1;
          errors := errors + RowErrors(c, payments[Canon(ms[i].salePaymentId)], ms[i]);
        }
      }
      assert ms[..|ms|] == ms;
      if rows != |ms| { errors := errors + [MissingPayments(rows)]; }
    }

    /** All mapped payments change, or none: a bad file, an error or a simulation leaves the table as it was. */
    method Reconcile(items: seq<Item>, apply: bool) returns (r: Outcome)
      modifies this
      ensures r.BadFile? <==> items == [] || !AllGood(items) || !NoRepeats(items)
      ensures r.BadFile? ==> r.parsed == Parse(items)
      ensures r.Rejected? <==> Parse(items).Mappings? && !AllAccepted(c, old(payments), Parse(items).mappings)
      ensures r.Rejected? ==> Parse(items).Mappings? && forall e :: e in r.errors <==> Reported(c, old(payments), Parse(items).mappings, e)
      ensures r.Simulated? || r.Applied? ==> (r.Applied? <==> apply)
      ensures r.Applied? ==> Parse(items).Mappings? && payments == ApplyAll(old(payments), Parse(items).mappings)
      ensures !r.Applied? ==> payments == old(payments)
    {
      var parsed := Parse(items);
      assert parsed.Mappings? <==> items != [] && AllGood(items) && NoRepeats(items) by { ParseAccepts(items); }
      if !parsed.Mappings? { return BadFile(parsed); }
      var ms := parsed.mappings;
      var errors := Validate(ms);
      if errors != [] { return Rejected(errors); }
      if !apply { return Simulated; }
      Apply(ms);
      r := Applied;
    }

    /** The updates, in the order of the file. */
    method Apply(ms: seq<Mapping>)
      modifies this
      ensures payments == ApplyAll(old(payments), ms)
    {
      for i := 0 to |ms|
        invariant payments == ApplyAll(old(payments), ms[..i])
      {
        assert ms[..i + 1][..i] == ms[..i];
        payments := Update(payments, ms[i]);
      }
      assert ms[..|ms|] == ms;
    }
  }
}
