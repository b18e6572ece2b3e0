/** The publisher service: one cycle is one transaction of the outbox machine over the oldest due, unlocked rows. */
module OutboxPublisher {
  import opened Sums
  import opened Selection
  import opened Outbox
  import opened OutboxSafety
  import opened OutboxEffects

  /** How the emission of one event goes: it succeeds, or throws before or after something went out. */
  datatype Attempt = Delivered | Refused(emitted: bool)

  datatype Cycle = Skipped | Aborted | Published(count: nat)

  datatype RetryResult = Queued | NotFound

  datatype Health = Health(pending: nat, delayed: nat, deadLettered: nat, oldestPendingAt: Option<int>)

  function Age(rows: map<EventId, Row>): map<nat, int> { map e | e in rows :: rows[e].occurredAt }

  function Candidates(s: State): set<EventId> { set e | e in s.rows && Due(s.rows[e], s.now) && !Locked(s, e) }

  function Settled(r: Row, a: Attempt, at: int): Row {
    match a
    case Delivered => PublishedRow(r, at)
    case Refused(_) => FailedRow(r, at)
  }

  /** How many of the first n events were delivered. */
  function DeliveredIn(batch: seq<EventId>, attempts: EventId -> Attempt, n: nat): nat
    requires n <= |batch|
  {
    if n == 0 then 0 else DeliveredIn(batch, attempts, n - 1) + if attempts(batch[n - 1]).Delivered? then 1 else 0
  }

  predicate Emits(a: Attempt) { a.Delivered? || a.emitted }

  /** What has gone out after the first n events, whatever becomes of the transaction. */
  function Sent(t: TxId, batch: seq<EventId>, attempts: EventId -> Attempt, n: nat): seq<Emission>
    requires n <= |batch|
  {
    if n == 0 then []
    else if Emits(attempts(batch[n - 1])) then Sent(t, batch, attempts, n - 1) + [Emission(batch[n - 1], t)]
    else Sent(t, batch, attempts, n - 1)
  }

  /** The database fails while the outcome of the event at some position of the batch is written. */
  predicate Breaks(failsAt: Option<nat>, n: nat) { failsAt.Some? && failsAt.value < n }

  /** The uncommitted rows after the first n events. */
  function Writes(rows: map<EventId, Row>, batch: seq<EventId>, attempts: EventId -> Attempt, at: int, n: nat): map<EventId, Row>
    requires n <= |batch|
  {
    if n == 0 then map[]
    else if batch[n - 1] in rows
      then Writes(rows, batch, attempts, at, n - 1)[batch[n - 1] := Settled(rows[batch[n - 1]], attempts(batch[n - 1]), at)]
    else Writes(rows, batch, attempts, at, n - 1)
  }

  /** The state in which the transaction has processed its first n events. */
  function Processed(s0: State, t: TxId, batch: seq<EventId>, attempts: EventId -> Attempt, n: nat): State
    requires n <= |batch|
  {
    s0.(open := s0.open[t := Tx(s0.now, batch, n, Writes(s0.rows, batch, attempts, s0.now, n))], used := s0.used + {t},
        emissions := s0.emissions + Sent(t, batch, attempts, n))
  }

  function WorkStep(t: TxId, a: Attempt): Step { if a.Delivered? then Publish(t) else Fail(t, a.emitted) }

  lemma WorkProcesses(s0: State, t: TxId, batch: seq<EventId>, attempts: EventId -> Attempt, n: nat)
    requires n < |batch| && batch[n] in s0.rows
    ensures Next(Processed(s0, t, batch, attempts, n), WorkStep(t, attempts(batch[n]))) == Processed(s0, t, batch, attempts, n + 1)
  {
    var s, a, sent := Processed(s0, t, batch, attempts, n), attempts(batch[n]), Sent(t, batch, attempts, n);
    assert Working(s, t) && Current(s, t) == batch[n];
    assert (s0.emissions + sent) + [Emission(batch[n], t)] == s0.emissions + (sent + [Emission(batch[n], t)]);
    assert !Emits(a) ==> s0.emissions + sent + [] == s0.emissions + sent;
  }

  lemma {:induction false} WritesAre(rows: map<EventId, Row>, batch: seq<EventId>, attempts: EventId -> Attempt, at: int, n: nat, e: EventId)
    requires n <= |batch|
    ensures e in Writes(rows, batch, attempts, at, n) <==> e in rows && e in batch[..n]
    ensures e in Writes(rows, batch, attempts, at, n) ==>
              Writes(rows, batch, attempts, at, n)[e] == Settled(rows[e], attempts(e), at)
  {
    if n > 0 {
      WritesAre(rows, batch, attempts, at, n - 1, e);
      assert batch[..n] == batch[..n - 1] + [batch[n - 1]];
    }
  }

  /** Rows after a committed cycle: the batch settled, everything else as before. */
  ghost predicate CycleDone(s0: State, s: State, batch: seq<EventId>, attempts: EventId -> Attempt) {
    && s.rows.Keys == s0.rows.Keys && s.open == s0.open
    && forall e | e in s0.rows ::
         s.rows[e] == if e in batch then Settled(s0.rows[e], attempts(e), s0.now) else s0.rows[e]
  }

  lemma CommitEndsCycle(s0: State, t: TxId, batch: seq<EventId>, attempts: EventId -> Attempt)
    requires t !in s0.open
    ensures CycleDone(s0, Next(Processed(s0, t, batch, attempts, |batch|), Commit(t)), batch, attempts)
  {
    assert batch[..|batch|] == batch;
    assert Processed(s0, t, batch, attempts, |batch|).open - {t} == s0.open;
    forall e ensures e in Writes(s0.rows, batch, attempts, s0.now, |batch|) <==> e in s0.rows && e in batch {
      WritesAre(s0.rows, batch, attempts, s0.now, |batch|, e);
    }
    forall e | e in s0.rows
      ensures e in batch ==> Writes(s0.rows, batch, attempts, s0.now, |batch|)[e] == Settled(s0.rows[e], attempts(e), s0.now)
    {
      WritesAre(s0.rows, batch, attempts, s0.now, |batch|, e);
    }
  }

  /** The steps of a cycle up to its first n events. */
  function CycleSteps(t: TxId, batch: seq<EventId>, attempts: EventId -> Attempt, n: nat): seq<Step>
    requires n <= |batch|
  {
    if n == 0 then [Begin(t, batch)]
    else CycleSteps(t, batch, attempts, n - 1) + [WorkStep(t, attempts(batch[n - 1]))]
  }

  lemma {:induction false} CycleIsRun(s0: State, t: TxId, batch: seq<EventId>, attempts: EventId -> Attempt, n: nat)
    requires OldestFirst(Age(s0.rows), Candidates(s0), BATCH_LIMIT, batch) && t !in s0.used && n <= |batch|
    ensures Run(s0, CycleSteps(t, batch, attempts, n)) == Processed(s0, t, batch, attempts, n)
    ensures Next(s0, Begin(t, batch)) == Processed(s0, t, batch, attempts, 0)
    ensures forall i | 0 <= i < |batch| :: batch[i] in s0.rows
  {
    if n == 0 {
      assert CanBegin(s0, t, batch);
      RunSnoc(s0, [], Begin(t, batch));
      assert [] + [Begin(t, batch)] == [Begin(t, batch)];
    } else {
      CycleIsRun(s0, t, batch, attempts, n - 1);
      WorkProcesses(s0, t, batch, attempts, n - 1);
      RunSnoc(s0, CycleSteps(t, batch, attempts, n - 1), WorkStep(t, attempts(batch[n - 1])));
    }
  }

  /** COMMIT or ROLLBACK. */
  lemma CycleEnds(s0: State, t: TxId, batch: seq<EventId>, attempts: EventId -> Attempt, n: nat)
    requires n <= |batch| && t !in s0.open
    ensures var s := Next(Processed(s0, t, batch, attempts, n), Rollback(t));
            && s.rows == s0.rows && s.published == s0.published && s.open == s0.open
            && s.emissions == s0.emissions + Sent(t, batch, attempts, n)
    ensures n == |batch| ==>
              var s := Next(Processed(s0, t, batch, attempts, n), Commit(t));
              CycleDone(s0, s, batch, attempts) && s.emissions == s0.emissions + Sent(t, batch, attempts, n)
  {
    if n == |batch| { CommitEndsCycle(s0, t, batch, attempts); }
    assert Processed(s0, t, batch, attempts, n).open - {t} == s0.open;
  }

  // ---------- What a cycle takes and leaves ----------

  predicate Earlier(rows: map<EventId, Row>, d: EventId, e: EventId) {
    d in rows && e in rows
    && (rows[d].occurredAt < rows[e].occurredAt || (rows[d].occurredAt == rows[e].occurredAt && d < e))
  }

  /** The events that may be taken, oldest occurrence first, ties by number, and at most a hundred. */
  ghost predicate OldestTakeable(s: State, batch: seq<EventId>) {
    && |batch| <= 100 && (forall i | 0 <= i < |batch| :: Takeable(s, batch[i]))
    && (forall i, j | 0 <= i < j < |batch| :: Earlier(s.rows, batch[i], batch[j]))
    && (forall e | Takeable(s, e) && e !in batch :: |batch| == 100)
    && (forall e, i | Takeable(s, e) && e !in batch && 0 <= i < |batch| :: Earlier(s.rows, batch[i], e))
  }

  lemma OldestAreTaken(s: State, batch: seq<EventId>)
    requires OldestFirst(Age(s.rows), Candidates(s), BATCH_LIMIT, batch)
    ensures OldestTakeable(s, batch)
  {
    forall d, e ensures Older(Age(s.rows), d, e) == Earlier(s.rows, d, e) {}
    forall e ensures e in Candidates(s) <==> Takeable(s, e) {}
  }

  /** Each event of the batch was delivered or refused as its attempt went; every other row is as before. */
  ghost predicate AsAttempted(rows: map<EventId, Row>, later: map<EventId, Row>, batch: seq<EventId>,
                              attempts: EventId -> Attempt, at: int)
  {
    && later.Keys == rows.Keys
    && (forall e | e in rows && e !in batch :: later[e] == rows[e])
    && (forall e | e in rows && e in batch && attempts(e) == Delivered :: DeliveredAt(rows[e], later[e], at))
    && (forall e | e in rows && e in batch && attempts(e) != Delivered :: RefusedAt(rows[e], later[e], at))
  }

  lemma CycleIsAsAttempted(s0: State, s: State, batch: seq<EventId>, attempts: EventId -> Attempt)
    requires CycleDone(s0, s, batch, attempts)
    ensures AsAttempted(s0.rows, s.rows, batch, attempts, s0.now)
  {
    forall e | e in s0.rows { OutcomesAre(s0.rows[e], s0.now); }
  }

  class FinancialOutboxPublisher {
    var running: bool
    var st: State

    constructor (st: State)
      ensures this.st == st && !running
    {
      this.st, this.running := st, false;
    }

    /** The loop over the batch; a failing write, after its emission, ends it. */
    method ProcessBatch(ghost s0: State, t: TxId, batch: seq<EventId>, attempts: EventId -> Attempt, failsAt: Option<nat>)
      returns (published: nat, ok: bool)
      requires st == Processed(s0, t, batch, attempts, 0)
      requires forall i | 0 <= i < |batch| :: batch[i] in s0.rows
      modifies this`st
      ensures ok <==> !Breaks(failsAt, |batch|)
      ensures st == Processed(s0, t, batch, attempts, if ok then |batch| else failsAt.value + 1)
      ensures ok ==> published == DeliveredIn(batch, attempts, |batch|)
    {
      published := 0;
      var n := if Breaks(failsAt, |batch|) then failsAt.value + 1 else |batch|;
      for i := 0 to n
        invariant st == Processed(s0, t, batch, attempts, i)
        invariant published == DeliveredIn(batch, attempts, i)
      {
        WorkProcesses(s0, t, batch, attempts, i);
        var step := WorkStep(t, attempts(batch[i]));
        st := Next(st, step);
        if step.Publish? { published := published + 1; }
      }
      ok := !Breaks(failsAt, |batch|);
    }

    /**
     One cycle. A database error at any event aborts the transaction and leaves every row as it was,
     though what was emitted stays emitted; otherwise exactly the chosen rows change, each to the outcome
     of its emission.
     */
    method RunOnce(t: TxId, attempts: EventId -> Attempt, failsAt: Option<nat>)
      returns (cycle: Cycle, batch: seq<EventId>, ghost trace: seq<Step>)
      requires t !in st.used && t !in st.open
      modifies this
      ensures running == old(running) && st == Run(old(st), trace)
      ensures cycle.Skipped? <==> old(running)
      ensures cycle.Skipped? ==> st == old(st)
      ensures !cycle.Skipped? ==>
                && OldestTakeable(old(st), batch)
                && (cycle.Aborted? <==> Breaks(failsAt, |batch|))
      ensures cycle.Aborted? ==>
                && st.rows == old(st).rows && st.published == old(st).published && st.open == old(st).open
                && st.emissions == old(st).emissions + Sent(t, batch, attempts, failsAt.value + 1)
      ensures cycle.Published? ==>
                && cycle.count == DeliveredIn(batch, attempts, |batch|)
                && AsAttempted(old(st).rows, st.rows, batch, attempts, old(st).now) && st.open == old(st).open
                && st.emissions == old(st).emissions + Sent(t, batch, attempts, |batch|)
    {
      batch, trace := [], [];
      if running { return Skipped, batch, trace; }
      running := true;
      ghost var s0 := st;
      batch := SelectOldest(Age(st.rows), Candidates(st), BATCH_LIMIT);
      ghost var n := if Breaks(failsAt, |batch|) then failsAt.value + 1 else |batch|;
      CycleIsRun(s0, t, batch, attempts, n);
      CycleIsRun(s0, t, batch, attempts, 0);
      st := Next(st, Begin(t, batch));
      var published, ok;
      published, ok := ProcessBatch(s0, t, batch, attempts, failsAt);
      var last := if ok then Commit(t) else Rollback(t);
      CycleEnds(s0, t, batch, attempts, n);
      if ok { CycleIsAsAttempted(s0, Next(st, last), batch, attempts); }
      OldestAreTaken(s0, batch);
      trace := CycleSteps(t, batch, attempts, n) + [last];
      RunSnoc(s0, CycleSteps(t, batch, attempts, n), last);
      st := Next(st, last);
      running := false;
      cycle := if ok then Published(published) else Aborted;
    }

    /** Only an unpublished dead letter can be queued again, with one more round of attempts. */
    method RetryDeadLetter(e: EventId) returns (r: RetryResult)
      modifies this`st
      ensures r == Queued <==> DeadLetter(old(st).rows, e)
      ensures st == Next(old(st), Retry(e)) && (r == NotFound ==> st == old(st))
      ensures r == Queued ==>
                && OthersAlone(old(st).rows, st.rows, e) && QueuedAgain(old(st).rows[e], st.rows[e], old(st).now)
                && st == old(st).(rows := st.rows)
      ensures r == Queued && RowOk(old(st).rows[e]) ==> Budget(st.rows[e]) == 10
    {
      var found := e in st.rows && st.rows[e].publishedAt.None? && st.rows[e].deadLetteredAt.Some?;
      st := Next(st, Retry(e));
      r := if found then Queued else NotFound;
    }

    function GetHealth(): (h: Health)
      reads this
      ensures h.pending == |set e | e in st.rows && Unpublished(st.rows[e], false) && st.rows[e].nextAttemptAt <= st.now|
      ensures h.delayed == |set e | e in st.rows && Unpublished(st.rows[e], false) && st.rows[e].nextAttemptAt > st.now|
      ensures h.deadLettered == |set e | e in st.rows && Unpublished(st.rows[e], true)|
      ensures h.oldestPendingAt.None? <==> forall e | e in st.rows :: !Unpublished(st.rows[e], false)
      ensures h.oldestPendingAt.Some? ==>
                && (exists e :: e in st.rows && Unpublished(st.rows[e], false) && st.rows[e].occurredAt == h.oldestPendingAt.value)
                && (forall e | e in st.rows && Unpublished(st.rows[e], false) :: h.oldestPendingAt.value <= st.rows[e].occurredAt)
    {
      var live := Waiting(st);
      assert Pending(st) == set e | e in st.rows && Unpublished(st.rows[e], false) && st.rows[e].nextAttemptAt <= st.now;
      assert Delayed(st) == set e | e in st.rows && Unpublished(st.rows[e], false) && st.rows[e].nextAttemptAt > st.now;
      assert DeadLetters(st) == set e | e in st.rows && Unpublished(st.rows[e], true);
      assert forall e :: e in live <==> e in st.rows && Unpublished(st.rows[e], false);
      Health(|Pending(st)|, |Delayed(st)|, |DeadLetters(st)|, EarliestOccurrence(st.rows, live))
    }
  }

  /** Not published, and given up or not. */
  predicate Unpublished(r: Row, dead: bool) { r.publishedAt == None && (r.deadLetteredAt != None) == dead }

  function Waiting(s: State): set<EventId> { set e | e in s.rows && Live(s.rows[e]) }

  function Pending(s: State): set<EventId> { set e | e in s.rows && Live(s.rows[e]) && s.rows[e].nextAttemptAt <= s.now }

  function Delayed(s: State): set<EventId> { set e | e in s.rows && Live(s.rows[e]) && s.rows[e].nextAttemptAt > s.now }

  function DeadLetters(s: State): set<EventId> {
    set e | e in s.rows && s.rows[e].publishedAt.None? && s.rows[e].deadLetteredAt.Some?
  }

  function Done(s: State): set<EventId> { set e | e in s.rows && s.rows[e].publishedAt.Some? }

  predicate IsEarliest(rows: map<EventId, Row>, live: set<EventId>, at: int) {
    (exists e | e in live :: e in rows && rows[e].occurredAt == at)
    && forall e | e in live :: e in rows ==> at <= rows[e].occurredAt
  }

  lemma {:induction false} EarliestExists(rows: map<EventId, Row>, live: set<EventId>)
    requires live != {} && live <= rows.Keys
    ensures exists at: int :: IsEarliest(rows, live, at)
  {
    var e :| e in live;
    var rest := live - {e};
    assert live == rest + {e};
    if rest == {} {
      assert IsEarliest(rows, live, rows[e].occurredAt);
    } else {
      EarliestExists(rows, rest);
      var at: int :| IsEarliest(rows, rest, at);
      assert IsEarliest(rows, live, Min(at, rows[e].occurredAt));
    }
  }

  function EarliestOccurrence(rows: map<EventId, Row>, live: set<EventId>): (r: Option<int>)
    requires live <= rows.Keys
    ensures r.None? <==> live == {}
    ensures r.Some? ==> IsEarliest(rows, live, r.value)
  {
    if live == {} then None
    else
      EarliestExists(rows, live);
      var at: int :| IsEarliest(rows, live, at);
      Some(at)
  }

  lemma CountParts(a: set<EventId>, b: set<EventId>, c: set<EventId>, d: set<EventId>, all: set<EventId>)
    requires a + b + c + d == all && a !! b && a !! c && a !! d && b !! c && b !! d && c !! d
    ensures |a| + |b| + |c| + |d| == |all|
  {
  }

  lemma PartsOfRows(s: State)
    requires forall e | e in s.rows && s.rows[e].publishedAt.Some? :: s.rows[e].deadLetteredAt.None?
    ensures |Pending(s)| + |Delayed(s)| + |DeadLetters(s)| + |Done(s)| == |s.rows|
  {
    CountParts(Pending(s), Delayed(s), DeadLetters(s), Done(s), s.rows.Keys);
  }

  /** Health accounts for every event exactly once: pending, delayed and dead-lettered are all that is unpublished. */
  lemma HealthAccountsForEveryEvent(start: int, steps: seq<Step>)
    ensures var s := Run(Empty(start), steps);
            |Pending(s)| + |Delayed(s)| + |DeadLetters(s)| + |Done(s)| == |s.rows|
  {
    RunKeeps(start, steps);
    var s := Run(Empty(start), steps);
    assert forall e | e in s.rows && s.rows[e].publishedAt.Some? :: RowOk(s.rows[e]);
    PartsOfRows(s);
  }
}
