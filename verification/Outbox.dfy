/**
 The financial outbox: publishers take due rows under row locks that skip locked ones, emit, and
 write the outcome in one transaction that may still roll back; emissions are never undone.
 Failures back off exponentially and end in a dead letter, which an operator can retry.
 Times are in seconds; now() inside a transaction is the time it began.
 */
module Outbox {
  import opened Sums

  type EventId = nat
  type TxId = nat

  const MAX_ATTEMPTS := 10
  const BATCH_LIMIT := 100
  const DELAY_CAP := 3600

  /** firstFailure is bookkeeping of the model: when the current round of attempts first failed. */
  datatype Row = Row(occurredAt: int, publishedAt: Option<int>, deadLetteredAt: Option<int>, attempts: nat,
                     manualRetries: nat, nextAttemptAt: int, firstFailure: Option<int>)

  datatype Emission = Emission(event: EventId, tx: TxId)
  datatype Publication = Publication(event: EventId, tx: TxId)

  /** An open publisher transaction: its locked batch, how far it got, and its uncommitted rows. */
  datatype Tx = Tx(startedAt: int, batch: seq<EventId>, done: nat, writes: map<EventId, Row>)

  /** emissions survive rollback; published logs what committed transactions marked. */
  datatype State = State(now: int, rows: map<EventId, Row>, open: map<TxId, Tx>, used: set<TxId>,
                         emissions: seq<Emission>, published: seq<Publication>)

  datatype Step =
    | Arrive(event: EventId)
    | Begin(tx: TxId, batch: seq<EventId>)
    | Publish(tx: TxId)
    | Fail(tx: TxId, emitted: bool)
    | Commit(tx: TxId)
    | Rollback(tx: TxId)
    | Retry(event: EventId)
    | Tick(seconds: nat)

  predicate Live(r: Row) { r.publishedAt.None? && r.deadLetteredAt.None? }

  predicate Due(r: Row, now: int) { Live(r) && r.nextAttemptAt <= now }

  function Power2(n: nat): nat { if n == 0 then 1 else 2 * Power2(n - 1) }

  /** LEAST(3600, 5 * power(2, LEAST(attempts, 10))). */
  function Delay(attempts: nat): nat { Min(DELAY_CAP, 5 * Power2(Min(attempts, 10))) }

  function PublishedRow(r: Row, at: int): Row {
    r.(publishedAt := Some(at), attempts := r.attempts + 1)
  }

  function FailedRow(r: Row, at: int): Row {
    r.(attempts := r.attempts + 1, nextAttemptAt := at + Delay(r.attempts),
       deadLetteredAt := if r.attempts + 1 >= MAX_ATTEMPTS * (r.manualRetries + 1) then Some(at) else None,
       firstFailure := if r.firstFailure.None? then Some(at) else r.firstFailure)
  }

  function RetriedRow(r: Row, at: int): Row {
    r.(deadLetteredAt := None, nextAttemptAt := at, manualRetries := r.manualRetries + 1, firstFailure := None)
  }

  predicate Locked(s: State, e: EventId) { exists t | t in s.open :: e in s.open[t].batch }

  predicate CanBegin(s: State, tx: TxId, batch: seq<EventId>) {
    && tx !in s.used && |batch| <= BATCH_LIMIT
    && (forall i | 0 <= i < |batch| :: batch[i] in s.rows && Due(s.rows[batch[i]], s.now) && !Locked(s, batch[i]))
    && (forall i, j | 0 <= i < j < |batch| :: batch[i] != batch[j])
  }

  predicate Working(s: State, tx: TxId) {
    tx in s.open && s.open[tx].done < |s.open[tx].batch| && s.open[tx].batch[s.open[tx].done] in s.rows
  }

  function Current(s: State, tx: TxId): EventId
    requires Working(s, tx)
  {
    s.open[tx].batch[s.open[tx].done]
  }

  function Write(s: State, tx: TxId, r: Row): State
    requires Working(s, tx)
  {
    s.(open := s.open[tx := s.open[tx].(done := s.open[tx].done + 1, writes := s.open[tx].writes[Current(s, tx) := r])])
  }

  /** Which of the first n events of a batch the transaction marked published. */
  function Marked(writes: map<EventId, Row>, batch: seq<EventId>, n: nat, tx: TxId): seq<Publication>
    requires n <= |batch|
  {
    if n == 0 then []
    else
      var e := batch[n - 1];
      Marked(writes, batch, n - 1, tx)
      + if e in writes && writes[e].publishedAt.Some? then [Publication(e, tx)] else []
  }

  /** One atomic step; a step whose guard fails does nothing. Only a transaction that processed its batch commits. */
  function Next(s: State, step: Step): State {
    match step
    case Arrive(e) =>
      if e in s.rows then s else s.(rows := s.rows[e := Row(s.now, None, None, 0, 0, s.now, None)])
    case Begin(t, batch) =>
      if CanBegin(s, t, batch) then s.(open := s.open[t := Tx(s.now, batch, 0, map[])], used := s.used + {t}) else s
    case Publish(t) =>
      if Working(s, t) then
        var e := Current(s, t);
        Write(s, t, PublishedRow(s.rows[e], s.open[t].startedAt)).(emissions := s.emissions + [Emission(e, t)])
      else s
    case Fail(t, emitted) =>
      if Working(s, t) then
        var e := Current(s, t);
        Write(s, t, FailedRow(s.rows[e], s.open[t].startedAt)).(
          emissions := s.emissions + if emitted then [Emission(e, t)] else [])
      else s
    case Commit(t) =>
      if t in s.open && s.open[t].done == |s.open[t].batch| then
        var x := s.open[t];
        s.(rows := s.rows + x.writes, open := s.open - {t},
           published := s.published + Marked(x.writes, x.batch, |x.batch|, t))
      else s
    case Rollback(t) => s.(open := s.open - {t})
    case Retry(e) =>
      if e in s.rows && s.rows[e].publishedAt.None? && s.rows[e].deadLetteredAt.Some?
      then s.(rows := s.rows[e := RetriedRow(s.rows[e], s.now)]) else s
    case Tick(d) => s.(now := s.now + d)
  }

  function Run(s: State, steps: seq<Step>): State {
    if steps == [] then s else Next(Run(s, steps[..|steps| - 1]), steps[|steps| - 1])
  }

  function Empty(now: int): State { State(now, map[], map[], {}, [], []) }
}

/** What every reachable outbox state satisfies. */
module OutboxSafety {
  import opened Sums
  import opened Outbox

  // ---------- Delays ----------

  /** The waits imposed between k consecutive failures that start at the given attempt count. */
  function Gaps(base: nat, k: nat): nat { if k == 0 then 0 else Gaps(base, k - 1) + Delay(base + k - 1) }

  lemma {:induction false} PowerGrows(n: nat, k: nat)
    requires n <= k
    ensures 1 <= Power2(n) <= Power2(k)
  {
    if n < k { PowerGrows(n, k - 1); } else if n > 0 { PowerGrows(n - 1, n - 1); }
  }

  /** Delays never decrease with the attempts, and stay between 5 seconds and an hour. */
  lemma {:induction false} DelaysGrowToTheCap(a: nat, b: nat)
    requires a <= b
    ensures 5 <= Delay(a) <= Delay(b) <= 3600
    ensures a >= 10 ==> Delay(a) == 3600
  {
    PowerGrows(Min(a, 10), Min(b, 10));
    PowerGrows(0, Min(a, 10));
    if a >= 10 { assert Power2(10) == 1024; }
  }

  /** A full round of ten failures spans 2555 seconds the first time and nine hours every later time. */
  lemma {:induction false} RoundLength(m: nat)
    ensures Gaps(MAX_ATTEMPTS * m, MAX_ATTEMPTS - 1) == if m == 0 then 2555 else 32400
  {
    if m == 0 {
      SmallDelays();
      assert Gaps(0, 3) == 35;
      assert Gaps(0, 6) == 315;
      assert Gaps(0, 9) == 2555;
    } else {
      CappedGaps(MAX_ATTEMPTS * m, MAX_ATTEMPTS - 1);
    }
  }

  lemma SmallDelays()
    ensures Delay(0) == 5 && Delay(1) == 10 && Delay(2) == 20 && Delay(3) == 40 && Delay(4) == 80
    ensures Delay(5) == 160 && Delay(6) == 320 && Delay(7) == 640 && Delay(8) == 1280
  {
    assert Power2(2) == 4;
    assert Power2(4) == 16;
    assert Power2(6) == 64;
    assert Power2(8) == 256;
  }

  lemma {:induction false} CappedGaps(base: nat, k: nat)
    requires base >= 10
    ensures Gaps(base, k) == DELAY_CAP * k
  {
    if k > 0 {
      CappedGaps(base, k - 1);
      DelaysGrowToTheCap(base + k - 1, base + k - 1);
    }
  }

  // ---------- Rows ----------

  /** Attempts stay within the budget of the rounds so far, and failures are spaced by the delays. */
  predicate RowOk(r: Row) {
    && MAX_ATTEMPTS * r.manualRetries <= r.attempts <= MAX_ATTEMPTS * (r.manualRetries + 1)
    && (r.publishedAt.Some? ==> r.deadLetteredAt.None?)
    && (r.publishedAt.None? ==>
          && (r.deadLetteredAt.Some? <==> r.attempts == MAX_ATTEMPTS * (r.manualRetries + 1))
          && (r.firstFailure.None? <==> r.attempts == MAX_ATTEMPTS * r.manualRetries)
          && (r.firstFailure.Some? ==>
                r.nextAttemptAt >= r.firstFailure.value + Gaps(MAX_ATTEMPTS * r.manualRetries, r.attempts - MAX_ATTEMPTS * r.manualRetries))
          && (r.deadLetteredAt.Some? ==>
                && r.firstFailure.Some?
                && r.deadLetteredAt.value >= r.firstFailure.value + Gaps(MAX_ATTEMPTS * r.manualRetries, MAX_ATTEMPTS - 1)))
  }

  lemma OutcomesKeepRow(r: Row, at: int)
    requires RowOk(r) && Due(r, at)
    ensures RowOk(PublishedRow(r, at)) && RowOk(FailedRow(r, at))
  {
  }

  lemma RetryKeepsRow(r: Row, at: int)
    requires RowOk(r) && r.publishedAt.None? && r.deadLetteredAt.Some?
    ensures RowOk(RetriedRow(r, at))
  {
  }

  // ---------- The invariant ----------

  ghost predicate Emitted(emissions: seq<Emission>, e: EventId, t: TxId) { Emission(e, t) in emissions }

  /** A processed event of a batch was published, with its emission, or failed. */
  ghost predicate WriteOk(rows: map<EventId, Row>, emissions: seq<Emission>, t: TxId, x: Tx, i: nat)
    requires i < |x.batch|
  {
    var e := x.batch[i];
    e in x.writes && e in rows &&
    (x.writes[e] == FailedRow(rows[e], x.startedAt)
     || (x.writes[e] == PublishedRow(rows[e], x.startedAt) && Emitted(emissions, e, t)))
  }

  ghost predicate TxOk(rows: map<EventId, Row>, emissions: seq<Emission>, now: int, t: TxId, x: Tx) {
    && x.startedAt <= now && x.done <= |x.batch| <= BATCH_LIMIT
    && (forall i | 0 <= i < |x.batch| :: x.batch[i] in rows && Due(rows[x.batch[i]], x.startedAt))
    && (forall i, j | 0 <= i < j < |x.batch| :: x.batch[i] != x.batch[j])
    && (forall i: nat | i < x.done :: WriteOk(rows, emissions, t, x, i))
    && (forall e | e in x.writes :: e in x.batch[..x.done])
  }

  ghost predicate TxsOk(rows: map<EventId, Row>, emissions: seq<Emission>, now: int, open: map<TxId, Tx>, used: set<TxId>) {
    && (forall t | t in open :: t in used && TxOk(rows, emissions, now, t, open[t]))
    && (forall t, u, e | t in open && u in open && e in open[t].batch && e in open[u].batch :: t == u)
  }

  ghost predicate PublishedBy(published: seq<Publication>, e: EventId) {
    exists i :: 0 <= i < |published| && published[i].event == e
  }

  /** Published rows and the publication log agree; each publication's transaction emitted the event and is closed. */
  ghost predicate LogOk(rows: map<EventId, Row>, emissions: seq<Emission>, open: map<TxId, Tx>, used: set<TxId>, published: seq<Publication>) {
    && (forall p | p in published ::
          p.event in rows && rows[p.event].publishedAt.Some? && Emitted(emissions, p.event, p.tx)
          && p.tx in used && p.tx !in open)
    && (forall e | e in rows && rows[e].publishedAt.Some? :: PublishedBy(published, e))
    && (forall i, j | 0 <= i < j < |published| :: published[i].event != published[j].event)
  }

  ghost predicate Inv(s: State) {
    && (forall e | e in s.rows :: RowOk(s.rows[e]))
    && TxsOk(s.rows, s.emissions, s.now, s.open, s.used)
    && LogOk(s.rows, s.emissions, s.open, s.used, s.published)
  }

  // ---------- Steps keep the invariant ----------

  lemma TxAfter(rows: map<EventId, Row>, emissions: seq<Emission>, now: int, t: TxId, x: Tx,
                rows': map<EventId, Row>, emissions': seq<Emission>, now': int)
    requires TxOk(rows, emissions, now, t, x) && now <= now' && emissions <= emissions'
    requires forall i | 0 <= i < |x.batch| :: x.batch[i] in rows' && rows'[x.batch[i]] == rows[x.batch[i]]
    ensures TxOk(rows', emissions', now', t, x)
  {
    forall i: nat | i < x.done ensures WriteOk(rows', emissions', t, x, i) {
      assert WriteOk(rows, emissions, t, x, i);
    }
  }

  lemma ProcessKeepsTx(s: State, t: TxId, r: Row, emissions': seq<Emission>)
    requires Working(s, t) && TxOk(s.rows, s.emissions, s.now, t, s.open[t]) && s.emissions <= emissions'
    requires var e := Current(s, t);
             r == FailedRow(s.rows[e], s.open[t].startedAt)
             || (r == PublishedRow(s.rows[e], s.open[t].startedAt) && Emitted(emissions', e, t))
    ensures TxOk(s.rows, emissions', s.now, t, Write(s, t, r).open[t])
  {
    var x, x' := s.open[t], Write(s, t, r).open[t];
    var e := Current(s, t);
    forall i: nat | i < x'.done ensures WriteOk(s.rows, emissions', t, x', i) {
      if i < x.done {
        assert WriteOk(s.rows, s.emissions, t, x, i);
        assert x.batch[i] != e;
      }
    }
    assert x.batch[..x'.done] == x.batch[..x.done] + [e];
  }

  lemma ProcessKeeps(s: State, t: TxId, r: Row, emissions': seq<Emission>)
    requires Inv(s) && Working(s, t) && s.emissions <= emissions'
    requires var e := Current(s, t);
             r == FailedRow(s.rows[e], s.open[t].startedAt)
             || (r == PublishedRow(s.rows[e], s.open[t].startedAt) && Emitted(emissions', e, t))
    ensures Inv(Write(s, t, r).(emissions := emissions'))
  {
    var s' := Write(s, t, r).(emissions := emissions');
    forall u | u in s'.open ensures TxOk(s.rows, emissions', s.now, u, s'.open[u]) {
      if u == t {
        ProcessKeepsTx(s, t, r, emissions');
      } else {
        TxAfter(s.rows, s.emissions, s.now, u, s.open[u], s.rows, emissions', s.now);
      }
    }
  }

  lemma {:induction false} MarkedIs(writes: map<EventId, Row>, batch: seq<EventId>, n: nat, t: TxId)
    requires n <= |batch| && forall i, j | 0 <= i < j < |batch| :: batch[i] != batch[j]
    ensures var m := Marked(writes, batch, n, t);
            && (forall p | p in m :: p.tx == t && p.event in writes && writes[p.event].publishedAt.Some? && p.event in batch[..n])
            && (forall i | 0 <= i < n && batch[i] in writes && writes[batch[i]].publishedAt.Some? :: PublishedBy(m, batch[i]))
            && (forall i, j | 0 <= i < j < |m| :: m[i].event != m[j].event)
  {
    if n > 0 {
      MarkedIs(writes, batch, n - 1, t);
      var before, m, e := Marked(writes, batch, n - 1, t), Marked(writes, batch, n, t), batch[n - 1];
      assert batch[..n] == batch[..n - 1] + [e];
      assert e !in batch[..n - 1];
      forall i | 0 <= i < n && batch[i] in writes && writes[batch[i]].publishedAt.Some? ensures PublishedBy(m, batch[i]) {
        if i < n - 1 {
          var k :| 0 <= k < |before| && before[k].event == batch[i];
          assert m[k].event == batch[i];
        } else {
          assert m[|before|].event == e;
        }
      }
      forall k | 0 <= k < |before| ensures before[k].event != e {
        assert before[k] in before;
      }
    }
  }

  lemma BeginKeeps(s: State, t: TxId, batch: seq<EventId>)
    requires Inv(s) && CanBegin(s, t, batch)
    ensures Inv(Next(s, Begin(t, batch)))
  {
  }

  lemma RollbackKeeps(s: State, t: TxId)
    requires Inv(s)
    ensures Inv(Next(s, Rollback(t)))
  {
  }

  /** A change of rows outside every open batch. */
  lemma RowChangeKeepsTxs(s: State, rows': map<EventId, Row>, now': int)
    requires TxsOk(s.rows, s.emissions, s.now, s.open, s.used) && s.now <= now'
    requires forall t, i | t in s.open && 0 <= i < |s.open[t].batch| ::
               s.open[t].batch[i] in rows' && (s.open[t].batch[i] in s.rows ==> rows'[s.open[t].batch[i]] == s.rows[s.open[t].batch[i]])
    ensures TxsOk(rows', s.emissions, now', s.open, s.used)
  {
    forall t | t in s.open ensures TxOk(rows', s.emissions, now', t, s.open[t]) {
      TxAfter(s.rows, s.emissions, s.now, t, s.open[t], rows', s.emissions, now');
    }
  }

  lemma ArriveRetryTickKeep(s: State, step: Step)
    requires Inv(s) && (step.Arrive? || step.Retry? || step.Tick?)
    ensures Inv(Next(s, step))
  {
    var s' := Next(s, step);
    if step.Retry? && s'.rows != s.rows { RetryKeepsRow(s.rows[step.event], s.now); }
    forall t, i | t in s.open && 0 <= i < |s.open[t].batch|
      ensures s.open[t].batch[i] in s'.rows
      ensures s.open[t].batch[i] in s.rows ==> s'.rows[s.open[t].batch[i]] == s.rows[s.open[t].batch[i]]
    {
      assert TxOk(s.rows, s.emissions, s.now, t, s.open[t]);
    }
    RowChangeKeepsTxs(s, s'.rows, s'.now);
  }

  /** What a finished transaction writes: outcomes of live rows, all good, and published only with an emission. */
  lemma FinishedWrites(s: State, t: TxId, e: EventId)
    requires Inv(s) && t in s.open && s.open[t].done == |s.open[t].batch| && e in s.open[t].writes
    ensures e in s.rows && Live(s.rows[e]) && e in s.open[t].batch && RowOk(s.open[t].writes[e])
    ensures s.open[t].writes[e].publishedAt.Some? ==> Emitted(s.emissions, e, t)
    ensures s.open[t].writes[e] == FailedRow(s.rows[e], s.open[t].startedAt)
         || s.open[t].writes[e] == PublishedRow(s.rows[e], s.open[t].startedAt)
  {
    var x := s.open[t];
    assert TxOk(s.rows, s.emissions, s.now, t, x);
    assert e in x.batch[..x.done];
    var i: nat :| i < x.done && x.batch[i] == e;
    assert WriteOk(s.rows, s.emissions, t, x, i);
    OutcomesKeepRow(s.rows[e], x.startedAt);
  }

  lemma PublishedByConcat(a: seq<Publication>, b: seq<Publication>, e: EventId)
    requires PublishedBy(a, e) || PublishedBy(b, e)
    ensures PublishedBy(a + b, e)
  {
    if PublishedBy(a, e) {
      var k :| 0 <= k < |a| && a[k].event == e;
      assert (a + b)[k].event == e;
    } else {
      var k :| 0 <= k < |b| && b[k].event == e;
      assert (a + b)[|a| + k].event == e;
    }
  }

  /** Publications of live events, by a transaction that emitted and now closes, extend the log. */
  lemma LogExtended(rows: map<EventId, Row>, rows': map<EventId, Row>, emissions: seq<Emission>, open: map<TxId, Tx>,
                    used: set<TxId>, published: seq<Publication>, m: seq<Publication>, t: TxId)
    requires LogOk(rows, emissions, open, used, published) && t in used
    requires forall e | e in rows && rows[e].publishedAt.Some? :: e in rows' && rows'[e] == rows[e]
    requires forall p | p in m :: p.tx == t && p.event in rows && Live(rows[p.event])
                               && p.event in rows' && rows'[p.event].publishedAt.Some? && Emitted(emissions, p.event, t)
    requires forall e | e in rows' && rows'[e].publishedAt.Some? :: (e in rows && rows[e].publishedAt.Some?) || PublishedBy(m, e)
    requires forall i, j | 0 <= i < j < |m| :: m[i].event != m[j].event
    ensures LogOk(rows', emissions, open - {t}, used, published + m)
  {
    forall e | e in rows' && rows'[e].publishedAt.Some? ensures PublishedBy(published + m, e) {
      PublishedByConcat(published, m, e);
    }
    forall i, j | 0 <= i < |published| && 0 <= j < |m| ensures published[i].event != m[j].event {
      assert published[i] in published && m[j] in m;
    }
  }

  lemma CommitKeepsLog(s: State, t: TxId)
    requires Inv(s) && t in s.open && s.open[t].done == |s.open[t].batch|
    ensures var s' := Next(s, Commit(t)); LogOk(s'.rows, s'.emissions, s'.open, s'.used, s'.published)
  {
    var x, s' := s.open[t], Next(s, Commit(t));
    assert TxOk(s.rows, s.emissions, s.now, t, x);
    var m := Marked(x.writes, x.batch, |x.batch|, t);
    MarkedIs(x.writes, x.batch, |x.batch|, t);
    forall e | e in x.writes
      ensures e in s.rows && Live(s.rows[e])
      ensures x.writes[e].publishedAt.Some? ==> Emitted(s.emissions, e, t) && PublishedBy(m, e)
    {
      FinishedWrites(s, t, e);
      var i :| 0 <= i < |x.batch| && x.batch[i] == e;
    }
    LogExtended(s.rows, s'.rows, s.emissions, s.open, s.used, s.published, m, t);
  }

  lemma CommitKeeps(s: State, t: TxId)
    requires Inv(s) && t in s.open && s.open[t].done == |s.open[t].batch|
    ensures Inv(Next(s, Commit(t)))
  {
    var x, s' := s.open[t], Next(s, Commit(t));
    CommitKeepsLog(s, t);
    forall e | e in s'.rows ensures RowOk(s'.rows[e]) {
      if e in x.writes { FinishedWrites(s, t, e); }
    }
    forall u | u in s'.open ensures TxOk(s'.rows, s'.emissions, s'.now, u, s'.open[u]) {
      var y := s.open[u];
      assert TxOk(s.rows, s.emissions, s.now, u, y);
      forall i | 0 <= i < |y.batch| ensures y.batch[i] !in x.writes {
        if y.batch[i] in x.writes { FinishedWrites(s, t, y.batch[i]); }
      }
      TxAfter(s.rows, s.emissions, s.now, u, y, s'.rows, s'.emissions, s'.now);
    }
  }

  lemma WorkKeeps(s: State, step: Step)
    requires Inv(s) && (step.Publish? || step.Fail?)
    ensures Inv(Next(s, step))
  {
    var t := step.tx;
    if Working(s, t) {
      var e := Current(s, t);
      if step.Publish? {
        var emissions' := s.emissions + [Emission(e, t)];
        ProcessKeeps(s, t, PublishedRow(s.rows[e], s.open[t].startedAt), emissions');
      } else {
        var emissions' := s.emissions + if step.emitted then [Emission(e, t)] else [];
        ProcessKeeps(s, t, FailedRow(s.rows[e], s.open[t].startedAt), emissions');
      }
    }
  }

  lemma NextKeeps(s: State, step: Step)
    requires Inv(s)
    ensures Inv(Next(s, step))
  {
    match step {
      case Begin(t, batch) => if CanBegin(s, t, batch) { BeginKeeps(s, t, batch); }
      case Publish(_) => WorkKeeps(s, step);
      case Fail(_, _) => WorkKeeps(s, step);
      case Commit(t) => if t in s.open && s.open[t].done == |s.open[t].batch| { CommitKeeps(s, t); }
      case Rollback(t) => RollbackKeeps(s, t);
      case _ => ArriveRetryTickKeep(s, step);
    }
  }

  lemma {:induction false} RunKeeps(start: int, steps: seq<Step>)
    ensures Inv(Run(Empty(start), steps))
  {
    if steps != [] {
      RunKeeps(start, steps[..|steps| - 1]);
      NextKeeps(Run(Empty(start), steps[..|steps| - 1]), steps[|steps| - 1]);
    }
  }

  // ---------- Main results ----------

  /**
   A row is marked published exactly when one committed transaction did it; that transaction
   emitted the event, and no other committed transaction marked the same event.
   */
  lemma {:induction false} PublishedOnceByItsEmitter(start: int, steps: seq<Step>, e: EventId)
    requires e in Run(Empty(start), steps).rows
    ensures var s := Run(Empty(start), steps);
            && (s.rows[e].publishedAt.Some? <==> PublishedBy(s.published, e))
            && (forall i | 0 <= i < |s.published| && s.published[i].event == e ::
                  Emission(e, s.published[i].tx) in s.emissions && s.published[i].tx !in s.open)
            && (forall i, j | 0 <= i < |s.published| && 0 <= j < |s.published|
                           && s.published[i].event == e && s.published[j].event == e :: i == j)
  {
    RunKeeps(start, steps);
    var s := Run(Empty(start), steps);
    if PublishedBy(s.published, e) {
      var i :| 0 <= i < |s.published| && s.published[i].event == e;
      assert s.published[i] in s.published;
    }
    forall i | 0 <= i < |s.published| && s.published[i].event == e
      ensures Emission(e, s.published[i].tx) in s.emissions && s.published[i].tx !in s.open
    {
      assert s.published[i] in s.published;
      assert Emitted(s.emissions, e, s.published[i].tx);
    }
  }

  lemma NextKeepsPublished(s: State, step: Step, e: EventId)
    requires Inv(s) && e in s.rows && s.rows[e].publishedAt.Some?
    ensures e in Next(s, step).rows && Next(s, step).rows[e] == s.rows[e]
  {
  }

  lemma {:induction false} RunConcat(s: State, a: seq<Step>, b: seq<Step>)
    ensures Run(s, a + b) == Run(Run(s, a), b)
  {
    if b == [] {
      assert a + b == a;
    } else {
      assert (a + b)[..|a + b| - 1] == a + b[..|b| - 1];
      RunConcat(s, a, b[..|b| - 1]);
    }
  }

  /** Once published, a row never changes again. */
  lemma {:induction false} PublishedIsFinal(start: int, steps: seq<Step>, more: seq<Step>, e: EventId)
    requires var s := Run(Empty(start), steps); e in s.rows && s.rows[e].publishedAt.Some?
    ensures var s := Run(Empty(start), steps + more);
            e in s.rows && s.rows[e] == Run(Empty(start), steps).rows[e]
  {
    if more == [] {
      assert steps + more == steps;
    } else {
      var n := |more| - 1;
      assert (steps + more)[..|steps + more| - 1] == steps + more[..n];
      PublishedIsFinal(start, steps, more[..n], e);
      RunKeeps(start, steps + more[..n]);
      NextKeepsPublished(Run(Empty(start), steps + more[..n]), more[n], e);
    }
  }

  /**
   Retry budget over every run: attempts lie between ten times the manual retries and ten more,
   and an unpublished event is dead-lettered exactly when its rounds are used up.
   */
  lemma {:induction false} RetryBudget(start: int, steps: seq<Step>, e: EventId)
    requires e in Run(Empty(start), steps).rows
    ensures var r := Run(Empty(start), steps).rows[e];
            && 10 * r.manualRetries <= r.attempts <= 10 * (r.manualRetries + 1)
            && (r.publishedAt.None? ==> (r.deadLetteredAt.Some? <==> r.attempts == 10 * (r.manualRetries + 1)))
            && (r.publishedAt.Some? ==> r.deadLetteredAt.None?)
  {
    RunKeeps(start, steps);
    assert RowOk(Run(Empty(start), steps).rows[e]);
  }

  /** An event is given up no sooner than 2555 seconds, in later rounds nine hours, after the round's first failure. */
  lemma {:induction false} DeadLettersAreLate(start: int, steps: seq<Step>, e: EventId)
    requires var s := Run(Empty(start), steps);
             e in s.rows && s.rows[e].publishedAt.None? && s.rows[e].deadLetteredAt.Some?
    ensures var r := Run(Empty(start), steps).rows[e];
            && r.firstFailure.Some?
            && r.deadLetteredAt.value - r.firstFailure.value >= if r.manualRetries == 0 then 2555 else 32400
  {
    RunKeeps(start, steps);
    var r := Run(Empty(start), steps).rows[e];
    assert RowOk(r);
    RoundLength(r.manualRetries);
  }

  /** The row an event has after a step: as old, no earlier in its rounds, and due within an hour. */
  ghost predicate Aged(s: State, s': State, e: EventId)
    requires e in s.rows
  {
    && e in s'.rows && s.now <= s'.now
    && s'.rows[e].occurredAt == s.rows[e].occurredAt
    && s.rows[e].attempts <= s'.rows[e].attempts && s.rows[e].manualRetries <= s'.rows[e].manualRetries
    && (s.rows[e].nextAttemptAt <= s.now + DELAY_CAP ==> s'.rows[e].nextAttemptAt <= s'.now + DELAY_CAP)
  }

  lemma AgedTwice(a: State, b: State, d: State, e: EventId)
    requires e in a.rows && Aged(a, b, e) && Aged(b, d, e)
    ensures Aged(a, d, e)
  {
  }

  lemma StepAges(s: State, step: Step, e: EventId)
    requires Inv(s) && e in s.rows
    ensures Aged(s, Next(s, step), e)
  {
    if step.Commit? && step.tx in s.open && s.open[step.tx].done == |s.open[step.tx].batch| {
      assert TxOk(s.rows, s.emissions, s.now, step.tx, s.open[step.tx]);
      if e in s.open[step.tx].writes {
        FinishedWrites(s, step.tx, e);
        DelaysGrowToTheCap(s.rows[e].attempts, s.rows[e].attempts);
      }
    }
  }

  /** Over every run an event is never removed or redated, and its counters never fall. */
  lemma {:induction false} EventsOnlyAge(start: int, steps: seq<Step>, more: seq<Step>, e: EventId)
    requires e in Run(Empty(start), steps).rows
    ensures Aged(Run(Empty(start), steps), Run(Empty(start), steps + more), e)
  {
    if more == [] {
      assert steps + more == steps;
    } else {
      var n := |more| - 1;
      EventsOnlyAge(start, steps, more[..n], e);
      LastStepAges(start, steps + more[..n], more[n], e);
      assert steps + more == steps + more[..n] + [more[n]];
      AgedTwice(Run(Empty(start), steps), Run(Empty(start), steps + more[..n]), Run(Empty(start), steps + more), e);
    }
  }

  lemma LastStepAges(start: int, steps: seq<Step>, step: Step, e: EventId)
    requires e in Run(Empty(start), steps).rows
    ensures Aged(Run(Empty(start), steps), Run(Empty(start), steps + [step]), e)
  {
    RunKeeps(start, steps);
    RunSnoc(Empty(start), steps, step);
    StepAges(Run(Empty(start), steps), step, e);
  }

  /** No event is ever scheduled more than an hour ahead. */
  lemma {:induction false} NothingWaitsLongerThanAnHour(start: int, steps: seq<Step>, e: EventId)
    requires e in Run(Empty(start), steps).rows
    ensures Run(Empty(start), steps).rows[e].nextAttemptAt <= Run(Empty(start), steps).now + 3600
  {
    var n := |steps| - 1;
    var s := Run(Empty(start), steps[..n]);
    RunKeeps(start, steps[..n]);
    if e in s.rows {
      NothingWaitsLongerThanAnHour(start, steps[..n], e);
      StepAges(s, steps[n], e);
    }
  }

  // ---------- Progress ----------

  /** Attempts a live event has left before it is given up. */
  function Budget(r: Row): int { if Live(r) then MAX_ATTEMPTS * (r.manualRetries + 1) - r.attempts else 0 }

  function BudgetAt(rows: map<EventId, Row>, e: EventId): int { if e in rows then Budget(rows[e]) else 0 }

  /** The budget of all events numbered below n. */
  function TotalBudget(rows: map<EventId, Row>, n: nat): int {
    if n == 0 then 0 else TotalBudget(rows, n - 1) + BudgetAt(rows, n - 1)
  }

  function Below(batch: set<EventId>, n: nat): set<EventId> { set e | e in batch && e < n }

  lemma {:induction false} BudgetFalls(rows: map<EventId, Row>, later: map<EventId, Row>, batch: set<EventId>, n: nat)
    requires forall e: EventId | e < n :: BudgetAt(later, e) + (if e in batch then 1 else 0) <= BudgetAt(rows, e)
    ensures TotalBudget(later, n) + |Below(batch, n)| <= TotalBudget(rows, n)
  {
    if n == 0 {
      assert Below(batch, n) == {};
    } else {
      BudgetFalls(rows, later, batch, n - 1);
      assert Below(batch, n) == Below(batch, n - 1) + if n - 1 in batch then {n - 1} else {};
    }
  }

  lemma OutcomeUsesBudget(r: Row, at: int)
    requires RowOk(r) && Live(r)
    ensures Budget(PublishedRow(r, at)) + 1 <= Budget(r) && Budget(FailedRow(r, at)) + 1 <= Budget(r)
  {
  }

  lemma CommittedBudgetAt(s: State, t: TxId, e: EventId)
    requires Inv(s) && t in s.open && s.open[t].done == |s.open[t].batch|
    ensures BudgetAt(Next(s, Commit(t)).rows, e) + (if e in s.open[t].batch then 1 else 0) <= BudgetAt(s.rows, e)
  {
    var x := s.open[t];
    assert TxOk(s.rows, s.emissions, s.now, t, x);
    if e in x.batch {
      var i: nat :| i < |x.batch| && x.batch[i] == e;
      assert WriteOk(s.rows, s.emissions, t, x, i);
      OutcomeUsesBudget(s.rows[e], x.startedAt);
    } else {
      assert e !in x.writes by { if e in x.writes { FinishedWrites(s, t, e); } }
    }
  }

  lemma CommittedBudgets(s: State, t: TxId)
    requires Inv(s) && t in s.open && s.open[t].done == |s.open[t].batch|
    ensures forall e: EventId ::
              BudgetAt(Next(s, Commit(t)).rows, e) + (if e in Elements(s.open[t].batch) then 1 else 0) <= BudgetAt(s.rows, e)
    ensures |Elements(s.open[t].batch)| == |s.open[t].batch|
    ensures forall e | e in Elements(s.open[t].batch) :: e in s.rows
  {
    assert TxOk(s.rows, s.emissions, s.now, t, s.open[t]);
    forall e: EventId
      ensures BudgetAt(Next(s, Commit(t)).rows, e) + (if e in Elements(s.open[t].batch) then 1 else 0) <= BudgetAt(s.rows, e)
    {
      CommittedBudgetAt(s, t, e);
    }
    DistinctCount(s.open[t].batch);
  }

  lemma CommitFalls(s: State, t: TxId, n: nat)
    requires Inv(s) && t in s.open && s.open[t].done == |s.open[t].batch| && forall e | e in s.rows :: e < n
    ensures TotalBudget(Next(s, Commit(t)).rows, n) + |s.open[t].batch| <= TotalBudget(s.rows, n)
  {
    CommittedBudgets(s, t);
    var batch := Elements(s.open[t].batch);
    BudgetFalls(s.rows, Next(s, Commit(t)).rows, batch, n);
    assert Below(batch, n) == batch;
  }

  /** Every committed transaction uses up at least one attempt of the total budget for each event it processed. */
  lemma {:induction false} CommitUsesBudget(start: int, steps: seq<Step>, t: TxId, n: nat)
    requires var s := Run(Empty(start), steps);
             && t in s.open && s.open[t].done == |s.open[t].batch|
             && forall e | e in s.rows :: e < n
    ensures var s, s' := Run(Empty(start), steps), Run(Empty(start), steps + [Commit(t)]);
            0 <= TotalBudget(s'.rows, n) <= TotalBudget(s.rows, n) - |s.open[t].batch|
  {
    RunKeeps(start, steps);
    RunKeeps(start, steps + [Commit(t)]);
    assert (steps + [Commit(t)])[..|steps|] == steps;
    CommitFalls(Run(Empty(start), steps), t, n);
    NothingLeft(Run(Empty(start), steps + [Commit(t)]).rows, n);
  }

  function Elements(batch: seq<EventId>): set<EventId> { set e | e in batch }

  lemma {:induction false} DistinctCount(batch: seq<EventId>)
    requires forall i, j | 0 <= i < j < |batch| :: batch[i] != batch[j]
    ensures |Elements(batch)| == |batch|
  {
    if batch != [] {
      var n := |batch| - 1;
      DistinctCount(batch[..n]);
      assert batch == batch[..n] + [batch[n]];
      assert batch[n] !in batch[..n];
      assert Elements(batch) == Elements(batch[..n]) + {batch[n]};
    }
  }

  lemma {:induction false} NothingLeft(rows: map<EventId, Row>, n: nat)
    requires forall e | e in rows :: RowOk(rows[e])
    ensures TotalBudget(rows, n) >= 0
    ensures TotalBudget(rows, n) == 0 <==> forall e: nat | e < n && e in rows :: !Live(rows[e])
  {
    if n > 0 { NothingLeft(rows, n - 1); }
  }

  /** In every reachable state the budget is used up exactly when no event waits for publication any more. */
  lemma {:induction false} BudgetIsUsedUp(start: int, steps: seq<Step>, n: nat)
    ensures var rows := Run(Empty(start), steps).rows;
            TotalBudget(rows, n) == 0 <==>
              forall e: nat | e < n && e in rows :: rows[e].publishedAt.Some? || rows[e].deadLetteredAt.Some?
  {
    RunKeeps(start, steps);
    NothingLeft(Run(Empty(start), steps).rows, n);
  }

  /** No other step raises the budget, apart from arrivals and manual retries. */
  lemma OnlyArrivalsAndRetriesAddBudget(s: State, step: Step, n: nat)
    requires Inv(s) && !step.Arrive? && !step.Retry?
    ensures TotalBudget(Next(s, step).rows, n) <= TotalBudget(s.rows, n)
  {
    var s' := Next(s, step);
    if step.Commit? && step.tx in s.open && s.open[step.tx].done == |s.open[step.tx].batch| {
      forall e: EventId ensures BudgetAt(s'.rows, e) <= BudgetAt(s.rows, e) { CommittedBudgetAt(s, step.tx, e); }
      BudgetFalls(s.rows, s'.rows, {}, n);
      assert Below({}, n) == {};
    } else {
      assert s'.rows == s.rows;
    }
  }

  lemma RunSnoc(s: State, steps: seq<Step>, step: Step)
    ensures Run(s, steps + [step]) == Next(Run(s, steps), step)
  {
  }

  lemma BeginAlone(s: State, e: EventId, t: TxId)
    requires e in s.rows && Due(s.rows[e], s.now) && !Locked(s, e) && t !in s.used && t !in s.open
    ensures Next(s, Begin(t, [e])) == s.(open := s.open[t := Tx(s.now, [e], 0, map[])], used := s.used + {t})
  {
    assert CanBegin(s, t, [e]);
  }

  lemma PublishAlone(s: State, e: EventId, t: TxId)
    requires t in s.open && s.open[t] == Tx(s.now, [e], 0, map[]) && e in s.rows
    ensures Next(s, Publish(t))
         == s.(open := s.open[t := Tx(s.now, [e], 1, map[e := PublishedRow(s.rows[e], s.now)])],
               emissions := s.emissions + [Emission(e, t)])
  {
    assert Working(s, t) && Current(s, t) == e;
  }

  /** A transaction that emits one event and then ends, one way or the other. */
  lemma EmitOnce(s: State, e: EventId, t: TxId)
    requires e in s.rows && Due(s.rows[e], s.now) && !Locked(s, e) && t !in s.used && t !in s.open
    ensures Run(s, [Begin(t, [e]), Publish(t)])
         == s.(open := s.open[t := Tx(s.now, [e], 1, map[e := PublishedRow(s.rows[e], s.now)])],
               used := s.used + {t}, emissions := s.emissions + [Emission(e, t)])
  {
    BeginAlone(s, e, t);
    PublishAlone(Next(s, Begin(t, [e])), e, t);
    RunSnoc(s, [], Begin(t, [e]));
    RunSnoc(s, [Begin(t, [e])], Publish(t));
    assert [] + [Begin(t, [e])] == [Begin(t, [e])];
    assert [Begin(t, [e])] + [Publish(t)] == [Begin(t, [e]), Publish(t)];
  }

  lemma EmitAndRollBack(s: State, e: EventId, t: TxId)
    requires e in s.rows && Due(s.rows[e], s.now) && !Locked(s, e) && t !in s.used && t !in s.open
    ensures Run(s, [Begin(t, [e]), Publish(t)] + [Rollback(t)])
         == s.(used := s.used + {t}, emissions := s.emissions + [Emission(e, t)])
  {
    EmitOnce(s, e, t);
    RunSnoc(s, [Begin(t, [e]), Publish(t)], Rollback(t));
    assert s.open[t := Tx(s.now, [e], 1, map[e := PublishedRow(s.rows[e], s.now)])] - {t} == s.open;
  }

  lemma EmitAndCommit(s: State, e: EventId, t: TxId)
    requires e in s.rows && Due(s.rows[e], s.now) && !Locked(s, e) && t !in s.used && t !in s.open
    ensures Run(s, [Begin(t, [e]), Publish(t)] + [Commit(t)]).emissions == s.emissions + [Emission(e, t)]
    ensures Run(s, [Begin(t, [e]), Publish(t)] + [Commit(t)]).published == s.published + [Publication(e, t)]
  {
    EmitOnce(s, e, t);
    var x := Run(s, [Begin(t, [e]), Publish(t)]).open[t];
    assert Marked(x.writes, x.batch, 1, t) == Marked(x.writes, x.batch, 0, t) + [Publication(e, t)];
    RunSnoc(s, [Begin(t, [e]), Publish(t)], Commit(t));
  }

  // ---------- When an event goes out exactly once ----------

  function Times(emissions: seq<Emission>, e: EventId): nat {
    if emissions == [] then 0
    else Times(emissions[..|emissions| - 1], e) + if emissions[|emissions| - 1].event == e then 1 else 0
  }

  predicate MarkedIn(open: map<TxId, Tx>, t: TxId, e: EventId) {
    t in open && e in open[t].writes && open[t].writes[e].publishedAt.Some?
  }

  ghost predicate MarkedOpen(open: map<TxId, Tx>, e: EventId) { exists t :: MarkedIn(open, t, e) }

  predicate IsPublished(rows: map<EventId, Row>, e: EventId) { e in rows && rows[e].publishedAt.Some? }

  /** The event is published, or marked by a transaction that is still open. */
  ghost predicate Settling(s: State, e: EventId) { IsPublished(s.rows, e) || MarkedOpen(s.open, e) }

  /** An emission is wasted when it fails after going out, or when the transaction that marked it rolls back. */
  predicate Wastes(s: State, step: Step, e: EventId) {
    match step
    case Fail(t, emitted) => emitted && Working(s, t) && Current(s, t) == e
    case Rollback(t) => MarkedIn(s.open, t, e)
    case _ => false
  }

  ghost predicate WastesAt(start: int, steps: seq<Step>, k: nat, e: EventId)
    requires k < |steps|
  {
    Wastes(Run(Empty(start), steps[..k]), steps[k], e)
  }

  ghost function Wasted(start: int, steps: seq<Step>, e: EventId): nat {
    if steps == [] then 0
    else Wasted(start, steps[..|steps| - 1], e) + if WastesAt(start, steps, |steps| - 1, e) then 1 else 0
  }

  lemma TimesSnoc(emissions: seq<Emission>, x: Emission, e: EventId)
    ensures Times(emissions + [x], e) == Times(emissions, e) + if x.event == e then 1 else 0
  {
    assert (emissions + [x])[..|emissions|] == emissions;
  }

  /** Only one open transaction can have written a row of the event, and the row is still live outside it. */
  lemma OneWriter(s: State, t: TxId, e: EventId)
    requires Inv(s) && t in s.open && e in s.open[t].batch
    ensures e in s.rows && Live(s.rows[e])
    ensures MarkedOpen(s.open, e) <==> MarkedIn(s.open, t, e)
    ensures Settling(s, e) <==> MarkedIn(s.open, t, e)
  {
    assert TxOk(s.rows, s.emissions, s.now, t, s.open[t]);
    forall u | MarkedIn(s.open, u, e) ensures u == t { WrittenIsInBatch(s, u, e); }
  }

  /** An event that a transaction is about to process has not been marked. */
  lemma CurrentIsUnmarked(s: State, t: TxId)
    requires Inv(s) && Working(s, t)
    ensures !Settling(s, Current(s, t))
  {
    var x := s.open[t];
    assert TxOk(s.rows, s.emissions, s.now, t, x);
    OneWriter(s, t, Current(s, t));
    assert Current(s, t) !in x.batch[..x.done];
  }

  /** The balance of one step: an emission marks the event or is wasted, and nothing else changes either side. */
  ghost predicate Balanced(s: State, s': State, wasted: bool, e: EventId) {
    Times(s'.emissions, e) + (if Settling(s, e) then 1 else 0)
    == Times(s.emissions, e) + (if wasted then 1 else 0) + (if Settling(s', e) then 1 else 0)
  }

  /** Writing a row of another event leaves an event as it was. */
  lemma WriteElsewhere(s: State, t: TxId, r: Row, e: EventId)
    requires Working(s, t) && Current(s, t) != e
    ensures MarkedOpen(Write(s, t, r).open, e) <==> MarkedOpen(s.open, e)
  {
    forall u ensures MarkedIn(Write(s, t, r).open, u, e) <==> MarkedIn(s.open, u, e) {}
  }

  lemma WriteMarks(s: State, t: TxId, r: Row)
    requires Inv(s) && Working(s, t)
    ensures MarkedOpen(Write(s, t, r).open, Current(s, t)) <==> r.publishedAt.Some?
  {
    var e, open := Current(s, t), Write(s, t, r).open;
    CurrentIsUnmarked(s, t);
    forall u | u != t ensures !MarkedIn(open, u, e) { assert !MarkedIn(s.open, u, e); }
    assert MarkedIn(open, t, e) <==> r.publishedAt.Some?;
  }

  lemma WorkBalances(s: State, step: Step, e: EventId)
    requires Inv(s) && (step.Publish? || step.Fail?)
    ensures Balanced(s, Next(s, step), Wastes(s, step, e), e)
  {
    var t := step.tx;
    if Working(s, t) {
      var c := Current(s, t);
      var r := if step.Publish? then PublishedRow(s.rows[c], s.open[t].startedAt) else FailedRow(s.rows[c], s.open[t].startedAt);
      assert Next(s, step).open == Write(s, t, r).open && Next(s, step).rows == s.rows;
      TimesSnoc(s.emissions, Emission(c, t), e);
      assert s.emissions + [] == s.emissions;
      if c == e {
        CurrentIsUnmarked(s, t);
        OneWriter(s, t, e);
        WriteMarks(s, t, r);
      } else {
        WriteElsewhere(s, t, r, e);
      }
    }
  }

  lemma MarkerIsUnique(s: State, t: TxId, u: TxId, e: EventId)
    requires Inv(s) && MarkedIn(s.open, t, e) && MarkedIn(s.open, u, e)
    ensures t == u && e in s.open[t].batch
  {
    WrittenIsInBatch(s, t, e);
    WrittenIsInBatch(s, u, e);
  }

  lemma WrittenIsInBatch(s: State, t: TxId, e: EventId)
    requires Inv(s) && t in s.open && e in s.open[t].writes
    ensures e in s.open[t].batch
  {
    var x := s.open[t];
    assert TxOk(s.rows, s.emissions, s.now, t, x);
    var i :| 0 <= i < x.done && x.batch[..x.done][i] == e;
    assert x.batch[i] == e;
  }

  /** Closing a transaction that did not mark the event leaves it as it was; one that did was the only one. */
  lemma ClosingUnmarks(s: State, t: TxId, e: EventId)
    requires Inv(s) && t in s.open
    ensures MarkedOpen(s.open - {t}, e) <==> MarkedOpen(s.open, e) && !MarkedIn(s.open, t, e)
  {
    if MarkedIn(s.open, t, e) {
      forall u ensures !MarkedIn(s.open - {t}, u, e) {
        if MarkedIn(s.open, u, e) { MarkerIsUnique(s, t, u, e); }
      }
    } else {
      forall u ensures MarkedIn(s.open - {t}, u, e) <==> MarkedIn(s.open, u, e) {}
    }
  }

  lemma RollbackBalances(s: State, t: TxId, e: EventId)
    requires Inv(s)
    ensures Balanced(s, Next(s, Rollback(t)), Wastes(s, Rollback(t), e), e)
  {
    if t in s.open {
      ClosingUnmarks(s, t, e);
      if MarkedIn(s.open, t, e) {
        MarkerIsUnique(s, t, t, e);
        OneWriter(s, t, e);
      }
    } else {
      assert s.open - {t} == s.open;
    }
  }

  lemma CommitBalances(s: State, t: TxId, e: EventId)
    requires Inv(s) && t in s.open && s.open[t].done == |s.open[t].batch|
    ensures Balanced(s, Next(s, Commit(t)), false, e)
  {
    ClosingUnmarks(s, t, e);
    if e in s.open[t].writes { FinishedWrites(s, t, e); OneWriter(s, t, e); }
  }

  lemma QuietBalances(s: State, step: Step, e: EventId)
    requires Inv(s) && (step.Arrive? || step.Begin? || step.Retry? || step.Tick?)
    ensures Balanced(s, Next(s, step), false, e)
  {
    var s' := Next(s, step);
    assert IsPublished(s'.rows, e) <==> IsPublished(s.rows, e);
    forall u ensures MarkedIn(s'.open, u, e) <==> MarkedIn(s.open, u, e) {
      if step.Begin? && step.tx == u && CanBegin(s, u, step.batch) { assert u !in s.open; }
    }
  }

  lemma NextBalances(s: State, step: Step, e: EventId)
    requires Inv(s)
    ensures Balanced(s, Next(s, step), Wastes(s, step, e), e)
  {
    if step.Publish? || step.Fail? {
      WorkBalances(s, step, e);
    } else if step.Rollback? {
      RollbackBalances(s, step.tx, e);
    } else if step.Commit? {
      if step.tx in s.open && s.open[step.tx].done == |s.open[step.tx].batch| { CommitBalances(s, step.tx, e); }
    } else {
      QuietBalances(s, step, e);
    }
  }

  /** Over every run, an event's emissions are the wasted ones and, once it is marked or published, one more. */
  lemma {:induction false} EmissionsAreAccounted(start: int, steps: seq<Step>, e: EventId)
    ensures var s := Run(Empty(start), steps);
            Times(s.emissions, e) == Wasted(start, steps, e) + if Settling(s, e) then 1 else 0
  {
    if steps != [] {
      var n := |steps| - 1;
      EmissionsAreAccounted(start, steps[..n], e);
      RunKeeps(start, steps[..n]);
      NextBalances(Run(Empty(start), steps[..n]), steps[n], e);
    }
  }

  lemma {:induction false} NothingWasted(start: int, steps: seq<Step>, e: EventId)
    ensures Wasted(start, steps, e) == 0
       <==> forall k | 0 <= k < |steps| :: !WastesAt(start, steps, k, e)
  {
    if steps != [] {
      var n := |steps| - 1;
      NothingWasted(start, steps[..n], e);
      forall k | 0 <= k < n ensures WastesAt(start, steps[..n], k, e) <==> WastesAt(start, steps, k, e) {
        assert steps[..n][..k] == steps[..k];
      }
    }
  }

  /**
   A published event went out exactly once if and only if no transaction that had marked it rolled back
   and no attempt at it failed after going out.
   */
  lemma {:induction false} EmittedExactlyOnce(start: int, steps: seq<Step>, e: EventId)
    requires IsPublished(Run(Empty(start), steps).rows, e)
    ensures Times(Run(Empty(start), steps).emissions, e) == 1
       <==> forall k | 0 <= k < |steps| :: !WastesAt(start, steps, k, e)
  {
    EmissionsAreAccounted(start, steps, e);
    NothingWasted(start, steps, e);
  }

  /**
   Delivery is at least once, not exactly once: from any reachable state, a due event can be
   emitted by a transaction that rolls back, and emitted again by the one that publishes it.
   */
  lemma {:induction false} RollbackCanRepeatAnEmission(s: State, e: EventId, t: TxId, u: TxId) returns (steps: seq<Step>)
    requires Inv(s) && e in s.rows && Due(s.rows[e], s.now) && !Locked(s, e)
    requires t !in s.used && u !in s.used && t != u
    ensures Run(s, steps).emissions == s.emissions + [Emission(e, t), Emission(e, u)]
    ensures Run(s, steps).published == s.published + [Publication(e, u)]
  {
    assert t !in s.open && u !in s.open;
    var first, second := [Begin(t, [e]), Publish(t)] + [Rollback(t)], [Begin(u, [e]), Publish(u)] + [Commit(u)];
    EmitAndRollBack(s, e, t);
    EmitAndCommit(s.(used := s.used + {t}, emissions := s.emissions + [Emission(e, t)]), e, u);
    RunConcat(s, first, second);
    steps := first + second;
  }
}
