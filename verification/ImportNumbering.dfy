/**
 Correlatives of the 'PE' series: each import transaction takes a transaction-scoped
 advisory lock, reads the greatest committed correlative, inserts the next one and
 commits or aborts. Any number of transactions interleave.
 */
module ImportNumbering {
  import opened Sums

  type Tx = nat

  datatype Phase = Begun | Locked | Numbered(next: int) | Inserted(number: int)

  /** rows: committed correlatives in commit order; holder: owner of the advisory lock. */
  datatype State = State(rows: seq<int>, holder: Option<Tx>, open: map<Tx, Phase>)

  datatype Step =
    | Begin(tx: Tx) | Lock(tx: Tx) | ReadLast(tx: Tx) | Insert(tx: Tx) | Commit(tx: Tx) | Abort(tx: Tx)

  /** The greatest correlative, or 0 when the series is empty. */
  function Last(rows: seq<int>): int {
    if rows == [] then 0
    else if |rows| == 1 then rows[0]
    else Max(Last(rows[..|rows| - 1]), rows[|rows| - 1])
  }

  function Close(s: State, tx: Tx): State {
    s.(open := s.open - {tx}, holder := if s.holder == Some(tx) then None else s.holder)
  }

  /** One atomic step; a step whose guard fails (a blocked lock, a closed transaction) does nothing. */
  function Next(s: State, step: Step): State {
    match step
    case Begin(t) => if t in s.open then s else s.(open := s.open[t := Begun])
    case Lock(t) =>
      if t in s.open && s.open[t].Begun? && s.holder == None
      then s.(holder := Some(t), open := s.open[t := Locked]) else s
    case ReadLast(t) =>
      if t in s.open && s.open[t].Locked? then s.(open := s.open[t := Numbered(Last(s.rows) + 1)]) else s
    case Insert(t) =>
      if t in s.open && s.open[t].Numbered? then s.(open := s.open[t := Inserted(s.open[t].next)]) else s
    case Commit(t) =>
      if t !in s.open then s
      else if s.open[t].Inserted? then Close(s, t).(rows := s.rows + [s.open[t].number])
      else Close(s, t)
    case Abort(t) => if t in s.open then Close(s, t) else s
  }

  function Run(s: State, steps: seq<Step>): State {
    if steps == [] then s else Next(Run(s, steps[..|steps| - 1]), steps[|steps| - 1])
  }

  lemma {:induction false} RunConcat(s: State, a: seq<Step>, b: seq<Step>)
    ensures Run(s, a + b) == Run(Run(s, a), b)
  {
    if b == [] {
      assert a + b == a;
    } else {
      assert (a + b)[..|a + b| - 1] == a + b[..|b| - 1];
      RunConcat(s, a, b[..|b| - 1]);
    }
  }

  lemma RunOne(s: State, steps: seq<Step>, step: Step)
    ensures Run(s, steps + [step]) == Next(Run(s, steps), step)
  {
  }

  /** The numbers that continue a series: Last(base) + 1, Last(base) + 2, ... */
  function Following(base: seq<int>, k: nat): (r: seq<int>)
    ensures |r| == k
  {
    seq(k, i => Last(base) + 1 + i)
  }

  /** The greatest number of the series, 0 for an empty one. */
  ghost predicate Greatest(rows: seq<int>, g: int) {
    if rows == [] then g == 0 else g in rows && forall n | n in rows :: n <= g
  }

  lemma {:induction false} LastIsGreatest(rows: seq<int>)
    ensures Greatest(rows, Last(rows))
    ensures forall n | n in rows :: n <= Last(rows)
  {
    if |rows| > 1 {
      LastIsGreatest(rows[..|rows| - 1]);
      assert rows == rows[..|rows| - 1] + [rows[|rows| - 1]];
    }
  }

  /** One more than the greatest number of the series, 1 for an empty one. */
  ghost predicate Follows(rows: seq<int>, next: int) {
    if rows == [] then next == 1 else next - 1 in rows && forall n | n in rows :: n < next
  }

  lemma LastThenNext(rows: seq<int>, next: int)
    requires next == Last(rows) + 1
    ensures Follows(rows, next)
  {
    LastIsGreatest(rows);
  }

  lemma {:induction false} LastOfFollowing(base: seq<int>, k: nat)
    ensures Last(base + Following(base, k)) == Last(base) + k
  {
    if k == 0 {
      assert base + Following(base, k) == base;
    } else {
      LastOfFollowing(base, k - 1);
      var all := base + Following(base, k);
      assert all[..|all| - 1] == base + Following(base, k - 1);
    }
  }

  ghost predicate Continues(base: seq<int>, rows: seq<int>) {
    |rows| >= |base| && rows == base + Following(base, |rows| - |base|)
  }

  /** The lock holder is the one transaction past Begun, and a number it has read is still the next one. */
  ghost predicate Locking(s: State) {
    && (s.holder.Some? ==> s.holder.value in s.open && !s.open[s.holder.value].Begun?)
    && (forall t | t in s.open && !s.open[t].Begun? :: s.holder == Some(t))
    && (forall t | t in s.open :: s.open[t].Numbered? ==> s.open[t].next == Last(s.rows) + 1)
    && (forall t | t in s.open :: s.open[t].Inserted? ==> s.open[t].number == Last(s.rows) + 1)
  }

  ghost predicate Inv(base: seq<int>, s: State) { Continues(base, s.rows) && Locking(s) }

  lemma OneMoreContinues(base: seq<int>, rows: seq<int>)
    requires Continues(base, rows)
    ensures Continues(base, rows + [Last(rows) + 1])
  {
    var k := |rows| - |base|;
    LastOfFollowing(base, k);
    assert base + Following(base, k + 1) == rows + [Last(base) + 1 + k];
  }

  lemma NextKeepsLocking(s: State, step: Step)
    requires Locking(s)
    ensures Locking(Next(s, step))
  {
  }

  lemma NextKeepsInv(base: seq<int>, s: State, step: Step)
    requires Inv(base, s)
    ensures Inv(base, Next(s, step)) && s.rows <= Next(s, step).rows
  {
    NextKeepsLocking(s, step);
    GrowsOnlyByCommit(s, step);
    OneMoreContinues(base, s.rows);
  }

  /** The series grows by the commit of a transaction that has inserted, by its number, and by nothing else. */
  lemma GrowsOnlyByCommit(s: State, step: Step)
    ensures Next(s, step).rows
         == s.rows + if step.Commit? && step.tx in s.open && s.open[step.tx].Inserted? then [s.open[step.tx].number] else []
  {
  }

  /** The lock is taken only when free and by a transaction that has just begun, and freed only when its holder ends. */
  lemma LockPassesOn(s: State, step: Step)
    ensures Next(s, step).holder
         == if step.Lock? && s.holder == None && step.tx in s.open && s.open[step.tx].Begun? then Some(step.tx)
            else if (step.Commit? || step.Abort?) && step.tx in s.open && s.holder == Some(step.tx) then None
            else s.holder
    ensures Next(s, step).open.Keys
         == if step.Begin? then s.open.Keys + {step.tx}
            else if step.Commit? || step.Abort? then s.open.Keys - {step.tx} else s.open.Keys
  {
  }

  /** Over every run, the committed series is the old one followed by the next consecutive numbers, in commit order. */
  lemma {:induction false} CommittedNumbersAreConsecutive(s: State, steps: seq<Step>)
    requires s.open == map[] && s.holder == None
    ensures Inv(s.rows, Run(s, steps))
    ensures var rows := Run(s, steps).rows;
            && s.rows <= rows
            && (forall i | |s.rows| <= i < |rows| :: rows[i] == Last(s.rows) + 1 + (i - |s.rows|))
    ensures Greatest(s.rows, Last(s.rows)) && (s.rows == [] ==> forall i | 0 <= i < |Run(s, steps).rows| :: Run(s, steps).rows[i] == i + 1)
  {
    LastIsGreatest(s.rows);
    if steps == [] {
      assert s.rows == s.rows + Following(s.rows, 0);
    } else {
      CommittedNumbersAreConsecutive(s, steps[..|steps| - 1]);
      NextKeepsInv(s.rows, Run(s, steps[..|steps| - 1]), steps[|steps| - 1]);
    }
  }

  /** No committed number is ever given twice, nor a number the series had before. */
  lemma {:induction false} CommittedNumbersAreDistinct(s: State, steps: seq<Step>, i: nat, j: nat)
    requires s.open == map[] && s.holder == None
    requires i < j < |Run(s, steps).rows| && |s.rows| <= j
    ensures Run(s, steps).rows[i] < Run(s, steps).rows[j]
  {
    CommittedNumbersAreConsecutive(s, steps);
    LastIsGreatest(s.rows);
    if i < |s.rows| { assert Run(s, steps).rows[i] in s.rows; }
  }

  // ---------- The import loop ----------

  /** What the preview and the later writes of one row's transaction decide. */
  datatype RowPlan = Invalid | FailsBeforeNumbering | FailsAfterInsert | Succeeds

  datatype Imported = Imported(rowNumber: nat, correlative: int)

  ghost predicate Increasing(rows: seq<Imported>) {
    forall i, j | 0 <= i < j < |rows| ::
      rows[i].rowNumber < rows[j].rowNumber && rows[i].correlative < rows[j].correlative
  }

  // ---------- What other importers do meanwhile ----------

  /** Steps of other importers around the own ones, and how a transaction that is waited for ends. */
  datatype Meanwhile = Meanwhile(beforeLock: seq<Step>, holderCommits: bool, beforeRead: seq<Step>,
                                 beforeInsert: seq<Step>, beforeEnd: seq<Step>)

  ghost predicate AllOthers(steps: seq<Step>, me: Tx) { forall i | 0 <= i < |steps| :: steps[i].tx != me }

  ghost predicate Foreign(m: Meanwhile, me: Tx) {
    AllOthers(m.beforeLock, me) && AllOthers(m.beforeRead, me) && AllOthers(m.beforeInsert, me) && AllOthers(m.beforeEnd, me)
  }

  /** The advisory lock is waited for until its holder's transaction ends. */
  function Wait(s: State, holderCommits: bool): seq<Step> {
    if s.holder.None? then [] else if holderCommits then [Commit(s.holder.value)] else [Abort(s.holder.value)]
  }

  /** Once its holder's transaction has ended, committed or aborted, the lock is free. */
  lemma EndingFreesLock(s: State, holderCommits: bool, me: Tx)
    requires s.holder.Some? ==> s.holder.value in s.open && s.holder.value != me
    ensures Run(s, Wait(s, holderCommits)).holder == None && AllOthers(Wait(s, holderCommits), me)
  {
    var steps := Wait(s, holderCommits);
    if steps != [] { RunOne(s, [], steps[0]); assert [] + [steps[0]] == steps; }
  }

  lemma WaitFreesLock(base: seq<int>, s: State, holderCommits: bool, me: Tx)
    requires Inv(base, s) && me in s.open && s.open[me].Begun?
    ensures Run(s, Wait(s, holderCommits)).holder == None && AllOthers(Wait(s, holderCommits), me)
  {
    EndingFreesLock(s, holderCommits, me);
  }

  /** The transaction is open in the given phase, and holds the lock once past Begun. */
  predicate Mine(s: State, me: Tx, phase: Phase) {
    me in s.open && s.open[me] == phase && (!phase.Begun? ==> s.holder == Some(me))
  }

  /** Each own step moves this transaction one phase on. */
  lemma OwnSteps(s: State, me: Tx)
    ensures me !in s.open ==> Mine(Next(s, Begin(me)), me, Begun)
    ensures Mine(s, me, Begun) && s.holder == None ==> Mine(Next(s, Lock(me)), me, Locked)
    ensures Mine(s, me, Locked) ==> Mine(Next(s, ReadLast(me)), me, Numbered(Last(s.rows) + 1))
    ensures forall n :: Mine(s, me, Numbered(n)) ==> Mine(Next(s, Insert(me)), me, Inserted(n))
    ensures forall n :: Mine(s, me, Inserted(n)) ==> Next(s, Commit(me)).rows == s.rows + [n]
    ensures me in s.open ==> me !in Next(s, Commit(me)).open && me !in Next(s, Abort(me)).open
  {
  }

  class OrdersImport {
    var db: State

    constructor (db: State)
      ensures this.db == db
    {
      this.db := db;
    }

    /** One own step, then whatever other importers do before the next one. */
    method Do(ghost start: State, step: Step, others: seq<Step>, ghost phase: Phase, ghost trace: seq<Step>)
      returns (ghost longer: seq<Step>)
      requires start.open == map[] && start.holder == None && db == Run(start, trace)
      requires AllOthers(others, step.tx) && Mine(Next(db, step), step.tx, phase)
      modifies this
      ensures trace <= longer && db == Run(start, longer) && old(db).rows <= db.rows
      ensures Mine(db, step.tx, phase) && db == Run(Next(old(db), step), others)
    {
      longer := trace + [step] + others;
      RunOne(start, trace, step);
      OthersLeaveMine(start, trace + [step], others, step.tx);
      Grown(start, trace, longer);
      db := Run(Next(db, step), others);
    }

    /** COMMIT or ROLLBACK. */
    method End(ghost start: State, step: Step, ghost trace: seq<Step>) returns (ghost longer: seq<Step>)
      requires start.open == map[] && start.holder == None && db == Run(start, trace)
      modifies this
      ensures trace <= longer && db == Run(start, longer) == Next(old(db), step) && old(db).rows <= db.rows
    {
      longer := trace + [step];
      RunOne(start, trace, step);
      Grown(start, trace, longer);
      db := Next(db, step);
    }

    /** BEGIN and everything up to the moment the lock is free: whoever holds it is waited for. */
    method BeginRow(ghost start: State, me: Tx, m: Meanwhile, ghost trace: seq<Step>) returns (ghost longer: seq<Step>)
      requires start.open == map[] && start.holder == None && db == Run(start, trace)
      requires me !in db.open && Foreign(m, me)
      modifies this
      ensures trace <= longer && db == Run(start, longer) && old(db).rows <= db.rows
      ensures Mine(db, me, Begun) && db.holder == None
    {
      OwnSteps(db, me);
      longer := Do(start, Begin(me), m.beforeLock, Begun, trace);
      CommittedNumbersAreConsecutive(start, longer);
      WaitFreesLock(start.rows, db, m.holderCommits, me);
      var steps := Wait(db, m.holderCommits);
      OthersLeaveMine(start, longer, steps, me);
      Grown(start, longer, longer + steps);
      longer := longer + steps;
      db := Run(db, steps);
    }

    /** Lock, then read the greatest committed correlative. */
    method ReserveNextSaleOrderCorrelative(ghost start: State, me: Tx, m: Meanwhile, ghost trace: seq<Step>)
      returns (next: int, ghost longer: seq<Step>)
      requires start.open == map[] && start.holder == None && db == Run(start, trace)
      requires Mine(db, me, Begun) && db.holder == None && Foreign(m, me)
      modifies this
      ensures trace <= longer && db == Run(start, longer) && old(db).rows <= db.rows
      ensures Mine(db, me, Numbered(next)) && Follows(db.rows, next)
    {
      OwnSteps(db, me);
      longer := Do(start, Lock(me), m.beforeRead, Locked, trace);
      OwnSteps(db, me);
      next := Last(db.rows) + 1;
      longer := Do(start, ReadLast(me), m.beforeInsert, Numbered(next), longer);
      assert next == Last(db.rows) + 1 by { CommittedNumbersAreConsecutive(start, longer); }
      LastThenNext(db.rows, next);
    }

    /**
     One row in one transaction: begin, wait for the lock, read, insert, then commit or abort. Whatever
     other importers do, the row is imported exactly when nothing in its own transaction fails.
     */
    method ImportRow(ghost start: State, plan: RowPlan, me: Tx, m: Meanwhile, ghost trace: seq<Step>)
      returns (number: Option<int>, ghost longer: seq<Step>)
      requires start.open == map[] && start.holder == None && db == Run(start, trace)
      requires !plan.Invalid? && me !in db.open && Foreign(m, me)
      modifies this
      ensures db == Run(start, longer) && trace <= longer && me !in db.open && old(db).rows <= db.rows
      ensures number.Some? <==> plan.Succeeds?
      ensures number.Some? ==> |db.rows| > |old(db).rows| && db.rows[|db.rows| - 1] == number.value
    {
      number := None;
      longer := BeginRow(start, me, m, trace);
      if !plan.FailsBeforeNumbering? {
        var next;
        next, longer := ReserveNextSaleOrderCorrelative(start, me, m, longer);
        OwnSteps(db, me);
        longer := Do(start, Insert(me), m.beforeEnd, Inserted(next), longer);
        if plan.Succeeds? { number := Some(next); }
      }
      OwnSteps(db, me);
      longer := End(start, if plan.Succeeds? then Commit(me) else Abort(me), longer);
    }

    /** The row loop: invalid rows and failed transactions become errors, the others imported rows. */
    method CreateClientsFromPreview(plans: seq<RowPlan>, me: Tx, others: seq<Meanwhile>)
      returns (created: seq<Imported>, errors: seq<nat>, ghost trace: seq<Step>)
      requires db.open == map[] && db.holder == None
      requires |others| == |plans| && forall r | 0 <= r < |others| :: Foreign(others[r], me)
      modifies this
      ensures db == Run(old(db), trace) && Inv(old(db).rows, db)
      ensures Accounted(plans, created, errors, |plans|, db.rows[|old(db).rows|..])
      ensures OnlyFailuresAreErrors(plans, errors, |plans|)
    {
      ghost var start := db;
      created, errors, trace := [], [], [];
      for r := 0 to |plans|
        invariant db == Run(start, trace) && start.rows <= db.rows && me !in db.open
        invariant Accounted(plans, created, errors, r, db.rows[|start.rows|..])
        invariant OnlyFailuresAreErrors(plans, errors, r)
      {
        OneMoreOutcome(plans, errors, r);
        ghost var before := db.rows;
        var number := None;
        if !plans[r].Invalid? { number, trace := ImportRow(start, plans[r], me, others[r], trace); }
        RowOutcome(start, trace, before, plans, created, errors, r, number);
        if number.Some? {
          created := created + [Imported(r, number.value)];
        } else {
          errors := errors + [r];
        }
      }
      CommittedNumbersAreConsecutive(start, trace);
    }
  }

  ghost predicate OnlyFailuresAreErrors(plans: seq<RowPlan>, errors: seq<nat>, n: nat)
    requires n <= |plans|
  {
    forall r: nat | r < n :: r in errors <==> !plans[r].Succeeds?
  }

  lemma OneMoreOutcome(plans: seq<RowPlan>, errors: seq<nat>, n: nat)
    requires n < |plans| && OnlyFailuresAreErrors(plans, errors, n) && forall r | r in errors :: r < n
    ensures OnlyFailuresAreErrors(plans, if plans[n].Succeeds? then errors else errors + [n], n + 1)
  {
  }

  ghost predicate Covers(created: seq<Imported>, r: nat) { exists i :: 0 <= i < |created| && created[i].rowNumber == r }

  /**
   The first n rows of the file each ended as an error or as an imported row, never both; the imported
   rows carry increasing numbers among those committed since the start.
   */
  ghost predicate Accounted(plans: seq<RowPlan>, created: seq<Imported>, errors: seq<nat>, n: nat, numbers: seq<int>) {
    && n <= |plans| && |created| + |errors| == n && Increasing(created)
    && (forall r: nat | r < n :: r in errors || Covers(created, r))
    && (forall r | r in errors :: r < n)
    && (forall i | 0 <= i < |created| ::
          && created[i].rowNumber < n && plans[created[i].rowNumber].Succeeds? && created[i].rowNumber !in errors
          && created[i].correlative in numbers)
  }

  lemma AccountError(plans: seq<RowPlan>, created: seq<Imported>, errors: seq<nat>, n: nat, numbers: seq<int>, more: seq<int>)
    requires Accounted(plans, created, errors, n, numbers) && n < |plans| && numbers <= more
    ensures Accounted(plans, created, errors + [n], n + 1, more)
  {
  }

  lemma AccountRow(plans: seq<RowPlan>, created: seq<Imported>, errors: seq<nat>, n: nat, number: int, numbers: seq<int>, more: seq<int>)
    requires Accounted(plans, created, errors, n, numbers) && n < |plans| && plans[n].Succeeds?
    requires numbers <= more && number in more && forall x | x in numbers :: x < number
    ensures Accounted(plans, created + [Imported(n, number)], errors, n + 1, more)
  {
    var later := created + [Imported(n, number)];
    forall r: nat | r < n + 1 ensures r in errors || Covers(later, r) {
      if r == n {
        assert later[|created|].rowNumber == n;
      } else if r !in errors {
        var i :| 0 <= i < |created| && created[i].rowNumber == r;
        assert later[i].rowNumber == r;
      }
    }
  }

  /** One more row: imported under the newest number, or an error. */
  lemma RowOutcome(start: State, trace: seq<Step>, before: seq<int>, plans: seq<RowPlan>, created: seq<Imported>,
                   errors: seq<nat>, n: nat, number: Option<int>)
    requires start.open == map[] && start.holder == None && start.rows <= before <= Run(start, trace).rows
    requires Accounted(plans, created, errors, n, before[|start.rows|..]) && n < |plans|
    requires var rows := Run(start, trace).rows;
             number.Some? ==> plans[n].Succeeds? && |rows| > |before| && rows[|rows| - 1] == number.value
    ensures var numbers := Run(start, trace).rows[|start.rows|..];
            if number.Some? then Accounted(plans, created + [Imported(n, number.value)], errors, n + 1, numbers)
            else Accounted(plans, created, errors + [n], n + 1, numbers)
  {
    var rows := Run(start, trace).rows;
    TailGrows(before, rows, |start.rows|);
    if number.Some? {
      NewestIsGreatest(start, trace, before);
      AccountRow(plans, created, errors, n, number.value, before[|start.rows|..], rows[|start.rows|..]);
    } else {
      AccountError(plans, created, errors, n, before[|start.rows|..], rows[|start.rows|..]);
    }
  }

  lemma TailGrows(a: seq<int>, b: seq<int>, n: nat)
    requires a <= b && n <= |a|
    ensures a[n..] <= b[n..]
    ensures |b| > |a| ==> b[|b| - 1] in b[n..]
  {
  }

  /** Steps of other transactions leave this transaction's phase, and its hold on the lock, alone. */
  lemma {:induction false} OthersLeaveMine(start: State, trace: seq<Step>, others: seq<Step>, me: Tx)
    requires start.open == map[] && start.holder == None
    requires forall i | 0 <= i < |others| :: others[i].tx != me
    ensures Run(start, trace + others) == Run(Run(start, trace), others)
    ensures me in Run(start, trace).open ==>
              && me in Run(start, trace + others).open
              && Run(start, trace + others).open[me] == Run(start, trace).open[me]
              && (Run(start, trace).holder == Some(me) ==> Run(start, trace + others).holder == Some(me))
  {
    RunConcat(start, trace, others);
    if others == [] {
      assert trace + others == trace;
    } else {
      var n := |others| - 1;
      OthersLeaveMine(start, trace, others[..n], me);
    }
  }

  lemma StepGrows(s: State, step: Step)
    ensures s.rows <= Next(s, step).rows
  {
  }

  lemma {:induction false} Grown(start: State, trace: seq<Step>, longer: seq<Step>)
    requires trace <= longer
    ensures Run(start, trace).rows <= Run(start, longer).rows
  {
    if |longer| > |trace| {
      var n := |longer| - 1;
      Grown(start, trace, longer[..n]);
      StepGrows(Run(start, longer[..n]), longer[n]);
    } else {
      assert longer == trace;
    }
  }

  /** A number committed by now is greater than every number committed before it. */
  lemma {:induction false} NewestIsGreatest(start: State, trace: seq<Step>, before: seq<int>)
    requires start.open == map[] && start.holder == None
    requires var rows := Run(start, trace).rows; |start.rows| <= |before| < |rows| && before <= rows
    ensures var rows := Run(start, trace).rows;
            forall x | x in before[|start.rows|..] :: x < rows[|rows| - 1]
  {
    var rows := Run(start, trace).rows;
    var tail := before[|start.rows|..];
    forall x | x in tail ensures x < rows[|rows| - 1] {
      var t :| 0 <= t < |tail| && tail[t] == x;
      CommittedNumbersAreDistinct(start, trace, t + |start.rows|, |rows| - 1);
    }
  }
}
