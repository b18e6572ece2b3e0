/** What each step of the outbox does to the event rows, written out field by field. */
module OutboxEffects {
  import opened Sums
  import opened Outbox
  import opened OutboxSafety

  // ---------- Backing off ----------

  /** Seconds to wait after a failure, by the attempts made before it. */
  function Backoff(attempts: nat): nat {
    if attempts < 10 then [5, 10, 20, 40, 80, 160, 320, 640, 1280, 2560][attempts] else 3600
  }

  lemma {:induction false} DelayIsBackoff(attempts: nat)
    ensures Delay(attempts) == Backoff(attempts)
  {
    SmallDelays();
    assert Power2(8) == 256 && Power2(9) == 512;
    if attempts >= 10 { DelaysGrowToTheCap(attempts, attempts); }
  }

  // ---------- Outcomes ----------

  ghost predicate DeliveredAt(before: Row, after: Row, at: int) {
    && after.publishedAt == Some(at) && after.attempts == before.attempts + 1
    && after.occurredAt == before.occurredAt && after.deadLetteredAt == before.deadLetteredAt
    && after.manualRetries == before.manualRetries && after.nextAttemptAt == before.nextAttemptAt
    && after.firstFailure == before.firstFailure
  }

  /** One attempt more, due again after the back-off, and given up when ten attempts a round are used. */
  ghost predicate RefusedAt(before: Row, after: Row, at: int) {
    && after.publishedAt == before.publishedAt && after.attempts == before.attempts + 1
    && after.nextAttemptAt == at + Backoff(before.attempts)
    && after.deadLetteredAt == (if before.attempts + 1 >= 10 * (before.manualRetries + 1) then Some(at) else None)
    && after.occurredAt == before.occurredAt && after.manualRetries == before.manualRetries
    && after.firstFailure == (if before.firstFailure.None? then Some(at) else before.firstFailure)
  }

  /** Due at once, with one more round of ten attempts. */
  ghost predicate QueuedAgain(before: Row, after: Row, now: int) {
    && after.deadLetteredAt == None && after.nextAttemptAt == now && after.manualRetries == before.manualRetries + 1
    && after.attempts == before.attempts && after.publishedAt == before.publishedAt
    && after.occurredAt == before.occurredAt && after.firstFailure == None
  }

  lemma OutcomesAre(r: Row, at: int)
    ensures DeliveredAt(r, PublishedRow(r, at), at) && RefusedAt(r, FailedRow(r, at), at)
  {
    DelayIsBackoff(r.attempts);
  }

  // ---------- Which step changes which row ----------

  predicate DeadLetter(rows: map<EventId, Row>, e: EventId) {
    e in rows && rows[e].publishedAt.None? && rows[e].deadLetteredAt.Some?
  }

  ghost predicate OthersAlone(rows: map<EventId, Row>, later: map<EventId, Row>, e: EventId) {
    later.Keys == rows.Keys + {e} && forall d | d in rows && d != e :: later[d] == rows[d]
  }

  /** A finished batch: each of its events was delivered or refused when the transaction began, and the rest stays. */
  ghost predicate BatchSettled(rows: map<EventId, Row>, later: map<EventId, Row>, batch: seq<EventId>, at: int,
                               marked: seq<Publication>, t: TxId)
  {
    && later.Keys == rows.Keys
    && (forall e | e in rows && e !in batch :: later[e] == rows[e])
    && (forall e | e in batch :: e in rows && EventSettled(rows[e], later[e], at, Publication(e, t) in marked))
  }

  ghost predicate EventSettled(before: Row, after: Row, at: int, marked: bool) {
    if marked then DeliveredAt(before, after, at) else RefusedAt(before, after, at)
  }

  ghost predicate RowsChange(s: State, s': State, step: Step) {
    match step
    case Arrive(e) =>
      if e in s.rows then s'.rows == s.rows
      else OthersAlone(s.rows, s'.rows, e) && s'.rows[e] == Row(s.now, None, None, 0, 0, s.now, None)
    case Retry(e) =>
      if DeadLetter(s.rows, e) then OthersAlone(s.rows, s'.rows, e) && QueuedAgain(s.rows[e], s'.rows[e], s.now)
      else s'.rows == s.rows
    case Commit(t) =>
      if t in s.open && s.open[t].done == |s.open[t].batch| then
        && s.published <= s'.published
        && BatchSettled(s.rows, s'.rows, s.open[t].batch, s.open[t].startedAt, s'.published[|s.published|..], t)
      else s'.rows == s.rows
    case _ => s'.rows == s.rows
  }

  lemma WrittenSettles(s: State, t: TxId, e: EventId)
    requires Inv(s) && t in s.open && s.open[t].done == |s.open[t].batch| && e in s.open[t].batch
    ensures e in s.rows && e in s.open[t].writes && Live(s.rows[e])
    ensures EventSettled(s.rows[e], s.open[t].writes[e], s.open[t].startedAt, s.open[t].writes[e].publishedAt.Some?)
  {
    var x := s.open[t];
    assert TxOk(s.rows, s.emissions, s.now, t, x);
    var i: nat :| i < |x.batch| && x.batch[i] == e;
    assert WriteOk(s.rows, s.emissions, t, x, i);
    OutcomesAre(s.rows[e], x.startedAt);
  }

  lemma MarkedExactly(writes: map<EventId, Row>, batch: seq<EventId>, t: TxId, e: EventId)
    requires (forall i, j | 0 <= i < j < |batch| :: batch[i] != batch[j]) && e in batch && e in writes
    ensures Publication(e, t) in Marked(writes, batch, |batch|, t) <==> writes[e].publishedAt.Some?
  {
    var m := Marked(writes, batch, |batch|, t);
    MarkedIs(writes, batch, |batch|, t);
    var i :| 0 <= i < |batch| && batch[i] == e;
    if writes[e].publishedAt.Some? {
      assert PublishedBy(m, batch[i]);
      var k :| 0 <= k < |m| && m[k].event == e;
      assert m[k] in m && m[k] == Publication(e, t);
    }
  }

  lemma CommitSettles(s: State, t: TxId)
    requires Inv(s) && t in s.open && s.open[t].done == |s.open[t].batch|
    ensures RowsChange(s, Next(s, Commit(t)), Commit(t))
  {
    var x, s' := s.open[t], Next(s, Commit(t));
    var m := Marked(x.writes, x.batch, |x.batch|, t);
    assert s'.published[|s.published|..] == m;
    assert TxOk(s.rows, s.emissions, s.now, t, x);
    forall e | e in x.batch
      ensures e in s.rows && EventSettled(s.rows[e], s'.rows[e], x.startedAt, Publication(e, t) in m)
    {
      WrittenSettles(s, t, e);
      MarkedExactly(x.writes, x.batch, t, e);
    }
    forall e | e in x.writes ensures e in s.rows && e in x.batch { FinishedWrites(s, t, e); }
  }

  lemma OtherSteps(s: State, step: Step)
    requires step.Commit? ==> !(step.tx in s.open && s.open[step.tx].done == |s.open[step.tx].batch|)
    ensures RowsChange(s, Next(s, step), step)
  {
  }

  /**
   Over every run a row changes only when its event arrives, when a dead letter is queued again, or when a
   transaction whose batch it is in commits: then it was delivered or refused at that transaction's start.
   */
  lemma {:induction false} RowsChangeOnlyByOutcome(start: int, steps: seq<Step>, step: Step)
    ensures RowsChange(Run(Empty(start), steps), Run(Empty(start), steps + [step]), step)
  {
    var s := Run(Empty(start), steps);
    RunSnoc(Empty(start), steps, step);
    if step.Commit? && step.tx in s.open && s.open[step.tx].done == |s.open[step.tx].batch| {
      RunKeeps(start, steps);
      CommitSettles(s, step.tx);
    } else {
      OtherSteps(s, step);
    }
  }

  /**
   The k-th failure of a round makes the event due exactly 5, 10, 20, ... 2560 seconds after the failing
   transaction began, in later rounds an hour after it, and the tenth dead-letters it as of that moment.
   */
  lemma {:induction false} FailuresBackOff(start: int, steps: seq<Step>, t: TxId, e: EventId)
    requires var s := Run(Empty(start), steps);
             t in s.open && s.open[t].done == |s.open[t].batch| && e in s.open[t].batch
    ensures var s, s' := Run(Empty(start), steps), Run(Empty(start), steps + [Commit(t)]);
            && e in s.rows && e in s'.rows && s.rows[e].publishedAt.None? && s.rows[e].deadLetteredAt.None?
            && (s'.rows[e].publishedAt == Some(s.open[t].startedAt)
                || (s'.rows[e].publishedAt.None? && KthFailure(s'.rows[e], s.open[t].startedAt)))
  {
    RowsChangeOnlyByOutcome(start, steps, Commit(t));
    RetryBudgetOf(start, steps, e);
    WrittenSettlesIn(start, steps, t, e);
  }

  ghost predicate KthFailure(r: Row, at: int) {
    var k := r.attempts - 10 * r.manualRetries;
    && 1 <= k <= 10
    && r.nextAttemptAt == at + (if r.manualRetries == 0 then [5, 10, 20, 40, 80, 160, 320, 640, 1280, 2560][k - 1] else 3600)
    && r.deadLetteredAt == if k == 10 then Some(at) else None
  }

  lemma RetryBudgetOf(start: int, steps: seq<Step>, e: EventId)
    ensures var s := Run(Empty(start), steps); e in s.rows ==> RowOk(s.rows[e])
  {
    RunKeeps(start, steps);
  }

  lemma WrittenSettlesIn(start: int, steps: seq<Step>, t: TxId, e: EventId)
    requires var s := Run(Empty(start), steps);
             t in s.open && s.open[t].done == |s.open[t].batch| && e in s.open[t].batch
    ensures var s := Run(Empty(start), steps); e in s.rows && Live(s.rows[e])
  {
    RunKeeps(start, steps);
    WrittenSettles(Run(Empty(start), steps), t, e);
  }

  // ---------- Which batches begin ----------

  /** Unpublished, not given up, due by now, and in no open transaction's batch. */
  ghost predicate Takeable(s: State, e: EventId) {
    && e in s.rows && s.rows[e].publishedAt.None? && s.rows[e].deadLetteredAt.None? && s.rows[e].nextAttemptAt <= s.now
    && forall t | t in s.open :: e !in s.open[t].batch
  }

  /** A transaction begins exactly on at most a hundred distinct events that may be taken, and begins now. */
  lemma BeginIs(s: State, t: TxId, batch: seq<EventId>)
    ensures var s' := Next(s, Begin(t, batch));
            if t !in s.used && |batch| <= 100 && (forall i | 0 <= i < |batch| :: Takeable(s, batch[i]))
               && (forall i, j | 0 <= i < j < |batch| :: batch[i] != batch[j])
            then s'.used == s.used + {t} && s'.open == s.open[t := Tx(s.now, batch, 0, map[])] && s'.rows == s.rows
            else s' == s
  {
    forall e ensures Takeable(s, e) <==> e in s.rows && Due(s.rows[e], s.now) && !Locked(s, e) {}
  }

  /** What goes out: the event at the transaction's position, on a delivery or a failure after going out. Time passes by ticks. */
  lemma EmissionsAre(s: State, step: Step)
    ensures Next(s, step).emissions == s.emissions + Goes(s, step)
    ensures Next(s, step).now == s.now + if step.Tick? then step.seconds else 0
  {
  }

  function Goes(s: State, step: Step): seq<Emission> {
    if (step.Publish? || (step.Fail? && step.emitted)) && step.tx in s.open
       && s.open[step.tx].done < |s.open[step.tx].batch| && s.open[step.tx].batch[s.open[step.tx].done] in s.rows
    then [Emission(s.open[step.tx].batch[s.open[step.tx].done], step.tx)] else []
  }
}
