/** The recovery service: its batch loop is one worker of the protocol, interleaved with all the others. */
module EvidenceService {
  import opened Sums
  import opened Selection
  import opened EvidenceRecovery
  import opened EvidenceSafety
  import opened EvidenceResults
  import opened EvidenceEffects
  import opened EvidenceOutcome

  /** What happens around one await: an injected fault, the id a new row would get, and other workers' steps after it. */
  datatype Turn = Turn(fault: bool, newId: AttachmentId, others: seq<Step>)

  datatype Report = Report(claimed: nat, recovered: nat, failed: nat, skipped: bool)

  /** Steps of other workers never name one of our tasks. */
  predicate Foreign(step: Step, first: TaskId) {
    step.Claim? || step.Advance? || step.Error? || step.Crash? ==> step.task < first
  }

  predicate AllForeign(turns: seq<Turn>, first: TaskId) {
    forall k, i | 0 <= k < |turns| && 0 <= i < |turns[k].others| :: Foreign(turns[k].others[i], first)
  }

  ghost predicate OursKept(tasks: map<TaskId, Task>, later: map<TaskId, Task>, first: TaskId) {
    forall t | t >= first :: (t in later <==> t in tasks) && (t in tasks ==> later[t] == tasks[t])
  }

  lemma {:induction false} ForeignStepsLeaveOursAlone(c: Config, s: State, others: seq<Step>, first: TaskId)
    requires forall i | 0 <= i < |others| :: Foreign(others[i], first)
    ensures OursKept(s.tasks, Run(c, s, others).tasks, first)
  {
    if others != [] {
      var n := |others| - 1;
      ForeignStepsLeaveOursAlone(c, s, others[..n], first);
      ForeignStep(c, Run(c, s, others[..n]), others[n], first);
    }
  }

  lemma ForeignStep(c: Config, s: State, step: Step, first: TaskId)
    requires Foreign(step, first)
    ensures OursKept(s.tasks, Next(c, s, step).tasks, first)
  {
    if step.Advance? && step.task in s.tasks {
      assert Next(c, s, step) == AdvanceTask(c, s, step.task, step.newId);
      AdvanceKeepsRows(c, s, step.task, step.newId);
    }
  }

  function Candidates(s: State, locked: set<OpId>): set<OpId> {
    set p | p in s.ops && p !in locked && Recoverable(s.ops[p], s.now)
  }

  /** The claim orders by the time of the last update, then by id. */
  function Age(ops: map<OpId, Operation>): map<nat, int> { map p | p in ops :: ops[p].updatedAt }

  function ClaimSteps(claimed: seq<OpId>, first: TaskId): (r: seq<Step>)
    ensures |r| == |claimed|
  {
    seq(|claimed|, i requires 0 <= i < |claimed| => Claim(claimed[i], first + i))
  }

  ghost predicate Tasked(s: State, s': State, claimed: seq<OpId>, first: TaskId) {
    && (forall t | t in s'.tasks :: t < first + |claimed|)
    && (forall t | t in s'.tasks && t < first :: t in s.tasks)
    && (forall i | 0 <= i < |claimed| :: FreshTask(s, s', claimed[i], first + i))
  }

  ghost predicate FreshTask(s: State, s': State, op: OpId, t: TaskId) {
    op in s.ops && t in s'.tasks && s'.tasks[t] == Task(op, ClaimedRow(s.ops[op], s.now), Claimed)
  }

  /** The claimed rows are leased and counted, a task holds each returned row, and other rows are left alone. */
  ghost predicate ClaimEffect(s: State, s': State, claimed: seq<OpId>, first: TaskId) {
    && s'.now == s.now && s'.ops.Keys == s.ops.Keys && Tasked(s, s', claimed, first)
    && s'.files == s.files && s'.attachments == s.attachments && s'.payments == s.payments
    && (forall p | p in s.ops :: s'.ops[p] == if p in claimed then ClaimedRow(s.ops[p], s.now) else s.ops[p])
  }

  lemma OneMoreClaim(s: State, s1: State, claimed: seq<OpId>, op: OpId, first: TaskId)
    requires ClaimEffect(s, s1, claimed, first) && op in s.ops && op !in claimed && Recoverable(s.ops[op], s.now)
    ensures ClaimEffect(s, ClaimOp(s1, op, first + |claimed|), claimed + [op], first)
  {
  }

  lemma LastClaim(c: Config, s: State, front: seq<OpId>, op: OpId, first: TaskId)
    ensures Run(c, s, ClaimSteps(front + [op], first))
         == ClaimOp(Run(c, s, ClaimSteps(front, first)), op, first + |front|)
  {
    var steps := ClaimSteps(front + [op], first);
    assert steps[..|front|] == ClaimSteps(front, first);
    assert steps[|front|] == Claim(op, first + |front|);
  }

  /** Each claim takes effect: its row is leased and counted, and a task holds the returned row. */
  lemma {:induction false} ClaimsTakeEffect(c: Config, s: State, claimed: seq<OpId>, first: TaskId)
    requires forall t | t in s.tasks :: t < first
    requires forall i | 0 <= i < |claimed| :: claimed[i] in s.ops && Recoverable(s.ops[claimed[i]], s.now)
    requires forall i, j | 0 <= i < j < |claimed| :: claimed[i] != claimed[j]
    ensures ClaimEffect(s, Run(c, s, ClaimSteps(claimed, first)), claimed, first)
  {
    if claimed != [] {
      var n := |claimed| - 1;
      var op, front := claimed[n], claimed[..n];
      assert claimed == front + [op];
      ClaimsTakeEffect(c, s, front, first);
      LastClaim(c, s, front, op, first);
      OneMoreClaim(s, Run(c, s, ClaimSteps(front, first)), front, op, first);
    }
  }

  // ---------- What a claim takes ----------

  /** By the last update, then by number. */
  predicate WaitsLonger(s: State, p: OpId, q: OpId) {
    p in s.ops && q in s.ops
    && (s.ops[p].updatedAt < s.ops[q].updatedAt || (s.ops[p].updatedAt == s.ops[q].updatedAt && p < q))
  }

  predicate FreeToClaim(s: State, locked: set<OpId>, p: OpId) { p in s.ops && p !in locked && Claimable(s.ops[p], s.now) }

  /** The claimable rows that nobody has locked and that wait longest, in that order and up to the limit. */
  ghost predicate LongestWaiting(s: State, locked: set<OpId>, limit: int, claimed: seq<OpId>) {
    && |claimed| <= limit && (forall i | 0 <= i < |claimed| :: FreeToClaim(s, locked, claimed[i]))
    && (forall i, j | 0 <= i < j < |claimed| :: WaitsLonger(s, claimed[i], claimed[j]))
    && (forall p | FreeToClaim(s, locked, p) && p !in claimed :: |claimed| == limit)
    && (forall p, i | FreeToClaim(s, locked, p) && p !in claimed && 0 <= i < |claimed| :: WaitsLonger(s, claimed[i], p))
  }

  lemma OldestWaitLongest(s: State, locked: set<OpId>, limit: nat, claimed: seq<OpId>)
    requires OldestFirst(Age(s.ops), Candidates(s, locked), limit, claimed)
    ensures LongestWaiting(s, locked, limit, claimed)
  {
    forall p, q ensures Older(Age(s.ops), p, q) == WaitsLonger(s, p, q) {}
    forall p ensures p in Candidates(s, locked) <==> FreeToClaim(s, locked, p) {}
  }

  /** Exactly the claimed rows are leased. */
  ghost predicate LeasedRows(s: State, s': State, claimed: seq<OpId>) {
    && s'.ops.Keys == s.ops.Keys
    && (forall p | p in s.ops && p in claimed :: Leased(s.ops[p], s'.ops[p], s.now))
    && (forall p | p in s.ops && p !in claimed :: s'.ops[p] == s.ops[p])
  }

  lemma ClaimedAreLeased(s: State, s': State, claimed: seq<OpId>, first: TaskId)
    requires ClaimEffect(s, s', claimed, first)
    requires forall i | 0 <= i < |claimed| :: claimed[i] in s.ops && Recoverable(s.ops[claimed[i]], s.now)
    ensures LeasedRows(s, s', claimed)
  {
    forall p | p in s.ops && p in claimed ensures Leased(s.ops[p], s'.ops[p], s.now) {
      var i :| 0 <= i < |claimed| && claimed[i] == p;
    }
  }

  // ---------- Who inserted what ----------

  /** The step at position k of the run is the worker's own, and it inserts. */
  ghost predicate InsertsAt(c: Config, s0: State, trace: seq<Step>, k: nat, task: TaskId)
    requires k < |trace|
  {
    trace[k].Advance? && trace[k].task == task && |Run(c, s0, trace[..k + 1]).inserted| > |Run(c, s0, trace[..k]).inserted|
  }

  ghost predicate OwnInserted(c: Config, s0: State, trace: seq<Step>, from: nat, task: TaskId) {
    exists k: nat | from <= k < |trace| :: InsertsAt(c, s0, trace, k, task)
  }

  /** One of the worker's own steps inserts its operation's evidence, with every effect on the tables. */
  ghost predicate OwnRecovered(c: Config, s0: State, trace: seq<Step>, from: nat, task: TaskId) {
    exists k: nat | from <= k < |trace| :: RecoversAt(c, s0, trace, k, task)
  }

  ghost predicate RecoversAt(c: Config, s0: State, trace: seq<Step>, k: nat, task: TaskId)
    requires k < |trace|
  {
    trace[k].Advance? && trace[k].task == task && RecoveryStep(Run(c, s0, trace[..k]), Run(c, s0, trace[..k + 1]), trace[k])
  }

  lemma InsertionIsWhole(c: Config, s0: State, trace: seq<Step>, k: nat, task: TaskId)
    requires k < |trace|
    ensures InsertsAt(c, s0, trace, k, task) <==> RecoversAt(c, s0, trace, k, task)
  {
    assert trace[..k + 1][..k] == trace[..k];
    StepEffects(c, Run(c, s0, trace[..k]), trace[k]);
  }

  lemma OwnInsertionIsWhole(c: Config, s0: State, trace: seq<Step>, from: nat, task: TaskId)
    ensures OwnInserted(c, s0, trace, from, task) <==> OwnRecovered(c, s0, trace, from, task)
  {
    forall k: nat | from <= k < |trace| ensures InsertsAt(c, s0, trace, k, task) <==> RecoversAt(c, s0, trace, k, task) {
      InsertionIsWhole(c, s0, trace, k, task);
    }
  }

  /** From the given position on, no other own task advances. */
  ghost predicate OnlyMine(trace: seq<Step>, from: nat, task: TaskId, first: TaskId) {
    forall k: nat | from <= k < |trace| && trace[k].Advance? :: trace[k].task == task || trace[k].task < first
  }

  lemma InsertedThen(c: Config, s0: State, a: seq<Step>, b: seq<Step>, from: nat, task: TaskId)
    requires a <= b && from <= |a|
    ensures OwnInserted(c, s0, b, from, task) <==> OwnInserted(c, s0, a, from, task) || OwnInserted(c, s0, b, |a|, task)
  {
    forall k: nat | k < |a| ensures InsertsAt(c, s0, a, k, task) <==> InsertsAt(c, s0, b, k, task) {
      assert b[..k] == a[..k] && b[..k + 1] == a[..k + 1];
    }
  }

  lemma OnlyMineThen(a: seq<Step>, b: seq<Step>, from: nat, task: TaskId, first: TaskId)
    requires a <= b && OnlyMine(a, from, task, first) && OnlyMine(b, |a|, task, first)
    ensures OnlyMine(b, from, task, first)
  {
    forall k: nat | from <= k < |b| && b[k].Advance? ensures b[k].task == task || b[k].task < first {
      if k < |a| { assert b[k] == a[k]; }
    }
  }

  lemma NotMine(c: Config, s0: State, trace: seq<Step>, from: nat, task: TaskId, other: TaskId, first: TaskId)
    requires OnlyMine(trace, from, task, first) && other != task && first <= other
    ensures !OwnInserted(c, s0, trace, from, other)
  {
  }

  /** Of one own step and the others' steps after it, only the own one can insert for this worker. */
  lemma AwaitAttribution(c: Config, s0: State, trace: seq<Step>, task: TaskId, step: Step, others: seq<Step>, first: TaskId)
    requires first <= task && (step.Advance? ==> step.task == task)
    requires forall i | 0 <= i < |others| :: Foreign(others[i], first)
    ensures var s := Run(c, s0, trace);
            && OnlyMine(trace + [step] + others, |trace|, task, first)
            && (OwnInserted(c, s0, trace + [step] + others, |trace|, task)
                <==> step.Advance? && |Next(c, s, step).inserted| > |s.inserted|)
  {
    var longer := trace + [step] + others;
    forall k: nat | |trace| < k < |longer| ensures Foreign(longer[k], first) { assert longer[k] == others[k - |trace| - 1]; }
    assert longer[|trace|] == step && longer[..|trace|] == trace && longer[..|trace| + 1] == trace + [step];
    assert (trace + [step])[..|trace|] == trace;
    assert InsertsAt(c, s0, longer, |trace|, task) <==>
      step.Advance? && |Next(c, Run(c, s0, trace), step).inserted| > |Run(c, s0, trace).inserted|;
  }

  /** A reported recovery is one of the worker's own insertions, and no other outcome is. */
  lemma OverIsAttributed(c: Config, s: State, task: TaskId, step: Step)
    requires task in s.tasks && (step.Advance? ==> step.task == task) && (step == Error(task) || step == Crash(task) || step.Advance?)
    requires step == Crash(task) ==> !s.tasks[task].stage.Ready?
    ensures var own := Next(c, s, step);
            step.Advance? && |own.inserted| > |s.inserted|
            <==> task !in own.tasks && EndedAs(s, own, s.tasks[task].stage) == Recovered
  {
    if step.Advance? {
      assert Next(c, s, step) == AdvanceTask(c, s, task, step.newId);
      AdvanceLogs(c, s, task, step.newId);
    }
  }

  // ---------- Undisturbed awaits ----------

  predicate QuietTurn(turn: Turn, known: set<AttachmentId>) { !turn.fault && turn.others == [] && turn.newId !in known }

  predicate QuietTurns(turns: seq<Turn>, known: set<AttachmentId>) {
    forall k | 0 <= k < |turns| :: QuietTurn(turns[k], known)
  }

  function Ids(turns: seq<Turn>): set<AttachmentId> { set k | 0 <= k < |turns| :: turns[k].newId }

  ghost predicate OthersForeseen(c: Config, s: State, s': State, task: TaskId)
    requires task in s.tasks
  {
    forall t | t in s.tasks && s.tasks[t].op != s.tasks[task].op && s.tasks[t].stage.Claimed? ::
      t in s'.tasks && s'.tasks[t] == s.tasks[t] && ForeseenFor(c, s', t) == ForeseenFor(c, s, t)
  }

  /** What undisturbed awaits come to: the foreseen outcome, at most the given new ids, and other claims as foreseen. */
  ghost predicate Quietly(c: Config, s: State, s': State, task: TaskId, over: Option<Outcome>, ids: set<AttachmentId>)
    requires task in s.tasks
  {
    && (over.None? ==> task in s'.tasks && s'.tasks[task].op == s.tasks[task].op
                       && ForeseenFor(c, s', task) == ForeseenFor(c, s, task) && s'.attachments == s.attachments)
    && (over.Some? ==> over.value == ForeseenFor(c, s, task))
    && s'.attachments.Keys <= s.attachments.Keys + ids
    && OthersForeseen(c, s, s', task)
  }

  lemma QuietlyThen(c: Config, s: State, s1: State, s2: State, task: TaskId, over: Option<Outcome>, ids: set<AttachmentId>)
    requires task in s.tasks && Quietly(c, s, s1, task, None, ids) && Quietly(c, s1, s2, task, over, ids)
    ensures Quietly(c, s, s2, task, over, ids)
  {
    forall t | t in s.tasks && s.tasks[t].op != s.tasks[task].op && s.tasks[t].stage.Claimed?
      ensures t in s2.tasks && s2.tasks[t] == s.tasks[t] && ForeseenFor(c, s2, t) == ForeseenFor(c, s, t)
    {
      assert t in s1.tasks && s1.tasks[t] == s.tasks[t];
    }
  }

  lemma AdvanceAddsAtMost(c: Config, s: State, task: TaskId, newId: AttachmentId)
    requires task in s.tasks
    ensures AdvanceTask(c, s, task, newId).attachments.Keys <= s.attachments.Keys + {newId}
  {
    if s.tasks[task].stage.Ready? {
      assert AdvanceTask(c, s, task, newId) == Persist(s, task, s.tasks[task].stage.key, s.tasks[task].stage.size, newId);
    }
  }

  lemma QuietAwait(c: Config, s0: State, s: State, task: TaskId, newId: AttachmentId)
    requires Start(s0) && Inv(c, s0, s) && task in s.tasks && newId !in s.attachments
    ensures var own := AdvanceTask(c, s, task, newId);
            Quietly(c, s, own, task, if task in own.tasks then None else Some(EndedAs(s, own, s.tasks[task].stage)), {newId})
  {
    QuietStep(c, s, task, newId);
    AdvanceAddsAtMost(c, s, task, newId);
    AdvanceKeepsRows(c, s, task, newId);
    forall t | t in s.tasks && s.tasks[t].op != s.tasks[task].op && s.tasks[t].stage.Claimed?
      ensures var own := AdvanceTask(c, s, task, newId);
              t in own.tasks && own.tasks[t] == s.tasks[t] && ForeseenFor(c, own, t) == ForeseenFor(c, s, t)
    {
      OthersStayForeseen(c, s0, s, task, newId, t);
    }
  }

  function OverAfter(s: State, own: State, task: TaskId): Option<Outcome>
    requires task in s.tasks
  {
    if task in own.tasks then None else Some(EndedAs(s, own, s.tasks[task].stage))
  }

  /** From the given position on only this worker's awaits are own ones, and a reported recovery is one of its insertions. */
  ghost predicate Reported(c: Config, s0: State, trace: seq<Step>, from: nat, task: TaskId, first: TaskId, over: Option<Outcome>) {
    OnlyMine(trace, from, task, first) && (OwnInserted(c, s0, trace, from, task) <==> over == Some(Recovered))
  }

  lemma ReportedThen(c: Config, s0: State, a: seq<Step>, b: seq<Step>, from: nat, task: TaskId, first: TaskId, over: Option<Outcome>)
    requires a <= b && from <= |a| && Reported(c, s0, a, from, task, first, None) && Reported(c, s0, b, |a|, task, first, over)
    ensures Reported(c, s0, b, from, task, first, over)
  {
    InsertedThen(c, s0, a, b, from, task);
    OnlyMineThen(a, b, from, task, first);
  }

  lemma AwaitIsReported(c: Config, s0: State, trace: seq<Step>, task: TaskId, first: TaskId, turn: Turn)
    requires task in Run(c, s0, trace).tasks && first <= task
    requires forall i | 0 <= i < |turn.others| :: Foreign(turn.others[i], first)
    ensures var s := Run(c, s0, trace);
            var step := OwnStep(s, task, turn);
            Reported(c, s0, trace + [step] + turn.others, |trace|, task, first, OverAfter(s, Next(c, s, step), task))
  {
    var s := Run(c, s0, trace);
    AwaitAttribution(c, s0, trace, task, OwnStep(s, task, turn), turn.others, first);
    OverIsAttributed(c, s, task, OwnStep(s, task, turn));
  }

  lemma AwaitIsQuiet(c: Config, s0: State, trace: seq<Step>, task: TaskId, turn: Turn)
    requires Start(s0) && task in Run(c, s0, trace).tasks
    ensures var s := Run(c, s0, trace);
            var own := Next(c, s, OwnStep(s, task, turn));
            QuietTurn(turn, s.attachments.Keys) ==>
              Quietly(c, s, Run(c, own, turn.others), task, OverAfter(s, own, task), {turn.newId})
  {
    var s := Run(c, s0, trace);
    if QuietTurn(turn, s.attachments.Keys) {
      assert Inv(c, s0, s) by { RunKeeps(c, s0, trace); }
      var own := AdvanceTask(c, s, task, turn.newId);
      assert Next(c, s, OwnStep(s, task, turn)) == own && Run(c, own, turn.others) == own;
      QuietAwait(c, s0, s, task, turn.newId);
      assert OverAfter(s, own, task) == if task in own.tasks then None else Some(EndedAs(s, own, s.tasks[task].stage));
    }
  }

  lemma QuietlyOneMore(c: Config, s: State, s1: State, s2: State, task: TaskId, over: Option<Outcome>, turns: seq<Turn>, k: nat)
    requires task in s.tasks && k < |turns| && QuietTurns(turns, s.attachments.Keys) && Quietly(c, s, s1, task, None, Ids(turns))
    requires QuietTurn(turns[k], s1.attachments.Keys) ==> Quietly(c, s1, s2, task, over, {turns[k].newId})
    ensures Quietly(c, s, s2, task, over, Ids(turns))
  {
    assert QuietTurn(turns[k], s.attachments.Keys);
    assert {turns[k].newId} <= Ids(turns);
    QuietlyThen(c, s, s1, s2, task, over, Ids(turns));
  }

  // ---------- Undisturbed batches ----------

  /** No turn is disturbed, and no two operations are offered the same new id. */
  ghost predicate QuietBatch(turns: nat -> seq<Turn>, n: nat, known: set<AttachmentId>) {
    && (forall i: nat | i < n :: QuietTurns(turns(i), known))
    && (forall i: nat, j: nat | i < j < n :: Ids(turns(i)) !! Ids(turns(j)))
  }

  ghost function IdsBefore(turns: nat -> seq<Turn>, n: nat): set<AttachmentId> {
    if n == 0 then {} else IdsBefore(turns, n - 1) + Ids(turns(n - 1))
  }

  lemma {:induction false} QuietAfter(turns: nat -> seq<Turn>, n: nat, known: set<AttachmentId>, i: nat, j: nat)
    requires QuietBatch(turns, n, known) && i <= j < n
    ensures QuietTurns(turns(j), known + IdsBefore(turns, i))
  {
    if i > 0 {
      QuietAfter(turns, n, known, i - 1, j);
      assert Ids(turns(i - 1)) !! Ids(turns(j));
      forall k | 0 <= k < |turns(j)| ensures QuietTurn(turns(j)[k], known + IdsBefore(turns, i)) {
        assert QuietTurn(turns(j)[k], known + IdsBefore(turns, i - 1));
        assert turns(j)[k].newId in Ids(turns(j));
      }
    } else {
      assert known + {} == known;
    }
  }

  ghost function ForeseenOrNot(c: Config, s: State, t: TaskId): Outcome {
    if t in s.tasks then ForeseenFor(c, s, t) else Unsuccessful
  }

  /** The outcomes foreseen for the claimed operations, each on its own. */
  ghost function ForeseenAll(c: Config, s: State, first: TaskId, n: nat): seq<Outcome> {
    seq(n, (i: nat) => ForeseenOrNot(c, s, first + i))
  }

  ghost predicate ForeseenAt(c: Config, s: State, first: TaskId, foreseen: seq<Outcome>, j: nat)
    requires j < |foreseen|
  {
    first + j in s.tasks && ForeseenFor(c, s, first + j) == foreseen[j]
  }

  /** The first i operations ended as foreseen at the start, and the rest still stand as foreseen. */
  ghost predicate AsForeseen(c: Config, start: State, s: State, claimed: seq<OpId>, first: TaskId, turns: nat -> seq<Turn>,
                             outcomes: seq<Outcome>, i: nat)
  {
    && i <= |claimed| && outcomes == ForeseenAll(c, start, first, |claimed|)[..i]
    && (forall j: nat | i <= j < |claimed| :: ForeseenAt(c, s, first, ForeseenAll(c, start, first, |claimed|), j))
    && s.attachments.Keys <= start.attachments.Keys + IdsBefore(turns, i)
  }

  ghost predicate Distinct(claimed: seq<OpId>) { forall i, j | 0 <= i < j < |claimed| :: claimed[i] != claimed[j] }

  lemma ForeseenOneMore(c: Config, start: State, s: State, s': State, claimed: seq<OpId>, first: TaskId, turns: nat -> seq<Turn>,
                        outcomes: seq<Outcome>, outcome: Outcome)
    requires var i := |outcomes|;
             && i < |claimed| && Distinct(claimed) && QuietBatch(turns, |claimed|, start.attachments.Keys)
             && AsForeseen(c, start, s, claimed, first, turns, outcomes, i) && Pending(s.tasks, claimed, first, i)
             && first + i in s.tasks
             && (QuietTurns(turns(i), s.attachments.Keys) ==> Quietly(c, s, s', first + i, Some(outcome), Ids(turns(i))))
    ensures AsForeseen(c, start, s', claimed, first, turns, outcomes + [outcome], |outcomes| + 1)
  {
    var i := |outcomes|;
    var all := ForeseenAll(c, start, first, |claimed|);
    QuietAfter(turns, |claimed|, start.attachments.Keys, i, i);
    assert QuietTurns(turns(i), s.attachments.Keys) by {
      forall k | 0 <= k < |turns(i)| ensures QuietTurn(turns(i)[k], s.attachments.Keys) {
        assert QuietTurn(turns(i)[k], start.attachments.Keys + IdsBefore(turns, i));
      }
    }
    assert ForeseenAt(c, s, first, all, i);
    assert all[..i + 1] == all[..i] + [all[i]];
    assert Awaits(s.tasks, first + i, claimed[i]);
    forall j: nat | i + 1 <= j < |claimed| ensures ForeseenAt(c, s', first, all, j) {
      assert ForeseenAt(c, s, first, all, j) && Awaits(s.tasks, first + j, claimed[j]);
    }
  }

  lemma ForeseenAtFirst(c: Config, s: State, claimed: seq<OpId>, first: TaskId, turns: nat -> seq<Turn>)
    requires Pending(s.tasks, claimed, first, 0)
    ensures AsForeseen(c, s, s, claimed, first, turns, [], 0)
  {
    forall j: nat | j < |claimed| ensures ForeseenAt(c, s, first, ForeseenAll(c, s, first, |claimed|), j) {
      assert Awaits(s.tasks, first + j, claimed[j]);
      assert ForeseenAll(c, s, first, |claimed|)[j] == ForeseenOrNot(c, s, first + j);
    }
  }

  // ---------- Whose insertions the batch reports ----------

  /** The j-th outcome is a recovery exactly when the j-th worker inserted; one without an outcome has not. */
  ghost predicate CreditedAt(c: Config, s0: State, trace: seq<Step>, from: nat, first: TaskId, outcomes: seq<Outcome>, j: nat) {
    OwnInserted(c, s0, trace, from, first + j) <==> j < |outcomes| && outcomes[j] == Recovered
  }

  ghost predicate Credited(c: Config, s0: State, trace: seq<Step>, from: nat, first: TaskId, outcomes: seq<Outcome>, n: nat) {
    forall j: nat | j < n :: CreditedAt(c, s0, trace, from, first, outcomes, j)
  }

  lemma CreditAtOneMore(c: Config, s0: State, a: seq<Step>, b: seq<Step>, from: nat, first: TaskId, outcomes: seq<Outcome>,
                        outcome: Outcome, mine: TaskId, j: nat)
    requires a <= b && from <= |a| && mine == first + |outcomes| && CreditedAt(c, s0, a, from, first, outcomes, j)
    requires Reported(c, s0, b, |a|, mine, first, Some(outcome))
    ensures CreditedAt(c, s0, b, from, first, outcomes + [outcome], j)
  {
    InsertedThen(c, s0, a, b, from, first + j);
    if j != |outcomes| { NotMine(c, s0, b, |a|, mine, first + j, first); }
  }

  lemma CreditOneMore(c: Config, s0: State, a: seq<Step>, b: seq<Step>, from: nat, first: TaskId, outcomes: seq<Outcome>, n: nat,
                      outcome: Outcome)
    requires a <= b && from <= |a| && |outcomes| < n && Credited(c, s0, a, from, first, outcomes, n)
    requires Reported(c, s0, b, |a|, first + |outcomes|, first, Some(outcome))
    ensures Credited(c, s0, b, from, first, outcomes + [outcome], n)
  {
    forall j: nat | j < n ensures CreditedAt(c, s0, b, from, first, outcomes + [outcome], j) {
      assert CreditedAt(c, s0, a, from, first, outcomes, j);
      CreditAtOneMore(c, s0, a, b, from, first, outcomes, outcome, first + |outcomes|, j);
    }
  }

  /** The loop over the claimed operations after the first i of them. */
  ghost predicate PartDone(c: Config, s0: State, start: State, trace: seq<Step>, from: nat, claimed: seq<OpId>, first: TaskId,
                           turns: nat -> seq<Turn>, outcomes: seq<Outcome>, i: nat)
  {
    var s := Run(c, s0, trace);
    && Pending(s.tasks, claimed, first, i) && AllJustified(s, claimed, outcomes, i)
    && Credited(c, s0, trace, from, first, outcomes, |claimed|)
    && (QuietBatch(turns, |claimed|, start.attachments.Keys) ==> AsForeseen(c, start, s, claimed, first, turns, outcomes, i))
  }

  lemma NothingDone(c: Config, s0: State, trace: seq<Step>, claimed: seq<OpId>, first: TaskId, turns: nat -> seq<Turn>)
    requires Pending(Run(c, s0, trace).tasks, claimed, first, 0)
    ensures PartDone(c, s0, Run(c, s0, trace), trace, |trace|, claimed, first, turns, [], 0)
  {
    NothingCredited(c, s0, trace, first, |claimed|);
    ForeseenAtFirst(c, Run(c, s0, trace), claimed, first, turns);
  }

  lemma OneMoreDone(c: Config, s0: State, start: State, a: seq<Step>, b: seq<Step>, from: nat, claimed: seq<OpId>, first: TaskId,
                    turns: nat -> seq<Turn>, outcomes: seq<Outcome>, outcome: Outcome)
    requires Start(s0) && a <= b && from <= |a| && |outcomes| < |claimed| && Distinct(claimed)
    requires PartDone(c, s0, start, a, from, claimed, first, turns, outcomes, |outcomes|)
    requires var i, s, s' := |outcomes|, Run(c, s0, a), Run(c, s0, b);
             && first + i in s.tasks && OthersUntouched(s.tasks, s'.tasks, first + i, first)
             && Justified(s', claimed[i], outcome) && Reported(c, s0, b, |a|, first + i, first, Some(outcome))
             && (QuietTurns(turns(i), s.attachments.Keys) ==> Quietly(c, s, s', first + i, Some(outcome), Ids(turns(i))))
    ensures PartDone(c, s0, start, b, from, claimed, first, turns, outcomes + [outcome], |outcomes| + 1)
  {
    var i, s, s' := |outcomes|, Run(c, s0, a), Run(c, s0, b);
    StillPending(s.tasks, s'.tasks, claimed, first, i);
    AllStillJustified(c, s0, a, b, claimed, outcomes, i);
    CreditOneMore(c, s0, a, b, from, first, outcomes, |claimed|, outcome);
    if QuietBatch(turns, |claimed|, start.attachments.Keys) {
      ForeseenOneMore(c, start, s, s', claimed, first, turns, outcomes, outcome);
    }
  }

  lemma NothingCredited(c: Config, s0: State, trace: seq<Step>, first: TaskId, n: nat)
    ensures Credited(c, s0, trace, |trace|, first, [], n)
  {
    forall j: nat | j < n ensures CreditedAt(c, s0, trace, |trace|, first, [], j) {}
  }

  // ---------- What an undisturbed batch recovers ----------

  /** The tables as a freshly claimed operation sees them: its lease is live. */
  function ClaimedView(s: State, o: Operation): View { View(true, Eligible(s, o), PriorEvidence(s, o)) }

  /** The file is in place or can be promoted. */
  predicate FileAvailable(c: Config, s: State, o: Operation) { AlreadyPromoted(c, o, s.files) || Promotable(c, o, s.files) }

  /** The file can be had, the payment is eligible, and nobody has this evidence yet. */
  ghost predicate RecoverableNow(c: Config, s: State, o: Operation) {
    FileAvailable(c, s, o) && PaymentEligible(s, o) && forall a | a in s.attachments :: !EvidenceOf(s.attachments[a], o)
  }

  /** The file can be had, the payment is eligible, and the evidence is there with the same content and place. */
  ghost predicate ReplayableNow(c: Config, s: State, o: Operation) {
    && FileAvailable(c, s, o) && PaymentEligible(s, o)
    && (exists a :: a in s.attachments && EvidenceOf(s.attachments[a], o)
                    && s.attachments[a].contentHash == o.sourceHash && s.attachments[a].storagePath == FinalKey(c, o, s.files))
  }

  ghost predicate Fulfilled(c: Config, s: State, op: OpId, outcome: Outcome) {
    && op in s.ops
    && (outcome == Recovered <==> RecoverableNow(c, s, s.ops[op]))
    && (outcome == Replayed <==> ReplayableNow(c, s, s.ops[op]))
  }

  lemma TheOnlyPrior(s: State, o: Operation, a: AttachmentId)
    requires EvidenceUnique(s.attachments) && a in s.attachments && EvidenceOf(s.attachments[a], o)
    ensures Prior(s, o) == {a}
  {
  }

  lemma PriorIsEvidence(s: State, o: Operation)
    requires EvidenceUnique(s.attachments)
    ensures PriorEvidence(s, o).None? <==> forall a | a in s.attachments :: !EvidenceOf(s.attachments[a], o)
    ensures forall e :: PriorEvidence(s, o) == Some(e) <==>
              exists a :: a in s.attachments && EvidenceOf(s.attachments[a], o)
                          && s.attachments[a].contentHash == e.contentHash && s.attachments[a].storagePath == e.storagePath
  {
    forall a | a in s.attachments && EvidenceOf(s.attachments[a], o) ensures Prior(s, o) == {a} { TheOnlyPrior(s, o, a); }
    if Prior(s, o) != {} { assert EvidenceOf(s.attachments[Least(Prior(s, o))], o); }
  }

  /** What the claimed view says is what the tables and files say. */
  lemma ReadyIs(c: Config, s: State, o: Operation)
    requires EvidenceUnique(s.attachments)
    ensures CanRecover(c, ClaimedView(s, o), o, s.files) <==> RecoverableNow(c, s, o)
    ensures CanReplay(c, ClaimedView(s, o), o, s.files) <==> ReplayableNow(c, s, o)
  {
    PriorIsEvidence(s, o);
  }

  ghost predicate AllFulfilled(c: Config, s: State, claimed: seq<OpId>, outcomes: seq<Outcome>) {
    |outcomes| == |claimed| && forall i | 0 <= i < |claimed| :: Fulfilled(c, s, claimed[i], outcomes[i])
  }

  /** Claiming changes nothing a recovery depends on. */
  lemma ClaimingIsNeutral(c: Config, v: View, o: Operation, now: int, files: map<Key, Bytes>)
    ensures CanRecover(c, v, ClaimedRow(o, now), files) == CanRecover(c, v, o, files)
    ensures CanReplay(c, v, ClaimedRow(o, now), files) == CanReplay(c, v, o, files)
  {
  }

  lemma ClaimedSeesTheSame(s: State, s': State, op: OpId)
    requires op in s.ops && op in s'.ops && s'.ops[op] == ClaimedRow(s.ops[op], s.now) && s'.now == s.now
    requires s'.attachments == s.attachments && s'.payments == s.payments
    ensures ViewOf(s', op, ClaimedRow(s.ops[op], s.now)) == ClaimedView(s, s.ops[op])
  {
    assert Prior(s', ClaimedRow(s.ops[op], s.now)) == Prior(s, s.ops[op]);
  }

  lemma ClaimedIsFulfilled(c: Config, s: State, s': State, op: OpId, t: TaskId)
    requires EvidenceUnique(s.attachments)
    requires op in s.ops && op in s'.ops && s'.ops[op] == ClaimedRow(s.ops[op], s.now) && s'.now == s.now
    requires s'.attachments == s.attachments && s'.payments == s.payments && s'.files == s.files
    requires FreshTask(s, s', op, t)
    ensures Fulfilled(c, s, op, ForeseenOrNot(c, s', t))
  {
    var o := ClaimedRow(s.ops[op], s.now);
    ClaimedSeesTheSame(s, s', op);
    ForeseenIs(c, ClaimedView(s, s.ops[op]), o, s.files);
    ClaimingIsNeutral(c, ClaimedView(s, s.ops[op]), s.ops[op], s.now, s.files);
    ReadyIs(c, s, s.ops[op]);
  }

  lemma ClaimedAreFulfilled(c: Config, s: State, s': State, claimed: seq<OpId>, first: TaskId, outcomes: seq<Outcome>)
    requires ClaimEffect(s, s', claimed, first) && EvidenceUnique(s.attachments)
    requires outcomes == ForeseenAll(c, s', first, |claimed|)
    ensures AllFulfilled(c, s, claimed, outcomes)
  {
    forall i | 0 <= i < |claimed| ensures Fulfilled(c, s, claimed[i], outcomes[i]) {
      assert FreshTask(s, s', claimed[i], first + i);
      ClaimedIsFulfilled(c, s, s', claimed[i], first + i);
    }
  }

  /** Nine turns for every operation, in which other workers never name an own task. */
  ghost predicate Scheduled(turns: nat -> seq<Turn>, first: TaskId) {
    forall i: nat :: |turns(i)| == 9 && AllForeign(turns(i), first)
  }

  /**
   What a batch comes to: every outcome is justified by the tables, a recovery is one of the worker's own
   insertions, and undisturbed each operation is recovered exactly when it can be.
   */
  ghost predicate BatchOutcome(c: Config, s0: State, start: State, trace: seq<Step>, from: nat,
                               claimed: seq<OpId>, first: TaskId, turns: nat -> seq<Turn>, outcomes: seq<Outcome>)
  {
    && AllJustified(Run(c, s0, trace), claimed, outcomes, |claimed|)
    && Credited(c, s0, trace, from, first, outcomes, |claimed|)
    && (QuietBatch(turns, |claimed|, start.attachments.Keys) ==> AllFulfilled(c, start, claimed, outcomes))
  }

  lemma BatchIsDone(c: Config, s0: State, start: State, leased: State, trace: seq<Step>, from: nat,
                    claimed: seq<OpId>, first: TaskId, turns: nat -> seq<Turn>, outcomes: seq<Outcome>)
    requires ClaimEffect(start, leased, claimed, first) && EvidenceUnique(start.attachments)
    requires PartDone(c, s0, leased, trace, from, claimed, first, turns, outcomes, |claimed|)
    ensures BatchOutcome(c, s0, start, trace, from, claimed, first, turns, outcomes)
  {
    if QuietBatch(turns, |claimed|, start.attachments.Keys) {
      var all := ForeseenAll(c, leased, first, |claimed|);
      assert all[..|claimed|] == all;
      ClaimedAreFulfilled(c, start, leased, claimed, first, outcomes);
    }
  }

  class IncomeEvidenceUploadRecovery {
    const c: Config
    var running: bool
    var st: State

    constructor (c: Config, st: State)
      ensures this.c == c && this.st == st && !running
    {
      this.c, this.st, this.running := c, st, false;
    }

    /** The claim statement: select with locked rows skipped, then lease, count and return the rows. */
    method ClaimRecoverableOperations(ghost s0: State, ghost trace: seq<Step>, limit: nat, locked: set<OpId>, first: TaskId)
      returns (claimed: seq<OpId>, ghost longer: seq<Step>)
      requires st == Run(c, s0, trace) && forall t | t in st.tasks :: t < first
      modifies this`st
      ensures trace <= longer && |longer| == |trace| + |claimed| && st == Run(c, s0, longer)
      ensures LongestWaiting(old(st), locked, limit, claimed) && LeasedRows(old(st), st, claimed)
      ensures ClaimEffect(old(st), st, claimed, first)
      ensures Pending(st.tasks, claimed, first, 0) && Distinct(claimed)
    {
      ghost var start := st;
      claimed := SelectOldest(Age(st.ops), Candidates(st, locked), limit);
      longer := trace + ClaimSteps(claimed, first);
      RunConcat(c, s0, trace, ClaimSteps(claimed, first));
      ClaimsTakeEffect(c, st, claimed, first);
      st := Run(c, st, ClaimSteps(claimed, first));
      ClaimedArePending(start, st, locked, limit, claimed, first);
      ClaimedAreLeased(start, st, claimed, first);
      OldestWaitLongest(start, locked, limit, claimed);
    }

    /** One own await followed by whatever the other workers do; over says how that ended, if it did. */
    method Await(ghost s0: State, ghost trace: seq<Step>, task: TaskId, first: TaskId, turn: Turn)
      returns (over: Option<Outcome>, ghost longer: seq<Step>)
      requires Start(s0) && st == Run(c, s0, trace) && task in st.tasks && first <= task
      requires forall i | 0 <= i < |turn.others| :: Foreign(turn.others[i], first)
      modifies this`st
      ensures trace <= longer && st == Run(c, s0, longer)
      ensures OthersUntouched(old(st).tasks, st.tasks, task, first) && Progressed(old(st).tasks, st.tasks, task)
      ensures over.None? <==> task in st.tasks
      ensures over.Some? ==> Justified(st, old(st).tasks[task].op, over.value)
      ensures Reported(c, s0, longer, |trace|, task, first, over)
      ensures QuietTurn(turn, old(st).attachments.Keys) ==> Quietly(c, old(st), st, task, over, {turn.newId})
    {
      var step := OwnStep(st, task, turn);
      var own := Next(c, st, step);
      longer := trace + [step] + turn.others;
      assert (trace + [step])[..|trace|] == trace;
      RunConcat(c, s0, trace + [step], turn.others);
      AwaitEffect(c, st, task, first, step, turn.others);
      ForeignStepsLeaveOursAlone(c, own, turn.others, first);
      over := OverAfter(st, own, task);
      AwaitIsReported(c, s0, trace, task, first, turn);
      AwaitIsQuiet(c, s0, trace, task, turn);
      if over.Some? && st.tasks[task].stage.Ready? {
        OwnPersistIsJustified(c, s0, trace, task, step, turn.others);
      }
      st := Run(c, own, turn.others);
    }

    /**
     All awaits of one claimed operation; nine turns always suffice. It reports a recovery exactly when one
     of its own steps inserted the evidence, and undisturbed it ends as foreseen from the tables and files.
     */
    method RecoverOperation(ghost s0: State, ghost trace: seq<Step>, task: TaskId, first: TaskId, turns: seq<Turn>)
      returns (outcome: Outcome, ghost longer: seq<Step>)
      requires Start(s0) && st == Run(c, s0, trace) && task in st.tasks && first <= task
      requires |turns| == 9 && AllForeign(turns, first)
      modifies this`st
      ensures trace <= longer && st == Run(c, s0, longer)
      ensures OthersUntouched(old(st).tasks, st.tasks, task, first) && task !in st.tasks
      ensures Justified(st, old(st).tasks[task].op, outcome)
      ensures Reported(c, s0, longer, |trace|, task, first, Some(outcome))
      ensures outcome == Recovered <==> OwnRecovered(c, s0, longer, |trace|, task)
      ensures QuietTurns(turns, old(st).attachments.Keys) ==> Quietly(c, old(st), st, task, Some(outcome), Ids(turns))
    {
      longer := trace;
      var k := 0;
      var over := None;
      while over.None?
        invariant trace <= longer && st == Run(c, s0, longer)
        invariant OthersUntouched(old(st).tasks, st.tasks, task, first)
        invariant over.None? <==> task in st.tasks
        invariant 0 <= k <= 9
        invariant task in st.tasks ==>
                    st.tasks[task].op == old(st).tasks[task].op && Remaining(st.tasks[task].stage) <= 9 - k
        invariant over.Some? ==> Justified(st, old(st).tasks[task].op, over.value)
        invariant Reported(c, s0, longer, |trace|, task, first, over)
        invariant QuietTurns(turns, old(st).attachments.Keys) ==> Quietly(c, old(st), st, task, over, Ids(turns))
        decreases 9 - k, over.None?
      {
        ghost var before, earlier := st, longer;
        over, longer := Await(s0, longer, task, first, turns[k]);
        ReportedThen(c, s0, earlier, longer, |trace|, task, first, over);
        if QuietTurns(turns, old(st).attachments.Keys) { QuietlyOneMore(c, old(st), before, st, task, over, turns, k); }
        k := k + 1;
      }
      outcome := over.value;
      OwnInsertionIsWhole(c, s0, longer, |trace|, task);
    }

    /** The loop over the claimed operations, one after the other. */
    method RecoverClaimed(ghost s0: State, ghost trace: seq<Step>, claimed: seq<OpId>, first: TaskId, turns: nat -> seq<Turn>)
      returns (recovered: nat, failed: nat, outcomes: seq<Outcome>, ghost longer: seq<Step>)
      requires Start(s0) && st == Run(c, s0, trace) && Pending(st.tasks, claimed, first, 0) && Distinct(claimed)
      requires Scheduled(turns, first)
      modifies this`st
      ensures trace <= longer && st == Run(c, s0, longer)
      ensures PartDone(c, s0, old(st), longer, |trace|, claimed, first, turns, outcomes, |claimed|)
      ensures recovered == Ended(outcomes, Recovered) && failed == Ended(outcomes, Unsuccessful)
    {
      outcomes, longer := [], trace;
      recovered, failed := 0, 0;
      NothingDone(c, s0, trace, claimed, first, turns);
      for i := 0 to |claimed|
        invariant trace <= longer && st == Run(c, s0, longer) && |outcomes| == i
        invariant recovered == Ended(outcomes, Recovered) && failed == Ended(outcomes, Unsuccessful)
        invariant PartDone(c, s0, old(st), longer, |trace|, claimed, first, turns, outcomes, i)
      {
        ghost var before, earlier := outcomes, longer;
        var outcome;
        assert Awaits(st.tasks, first + i, claimed[i]);
        outcome, longer := RecoverOperation(s0, longer, first + i, first, turns(i));
        OneMoreDone(c, s0, old(st), earlier, longer, |trace|, claimed, first, turns, before, outcome);
        outcomes := outcomes + [outcome];
        EndedOneMore(before, outcome);
        if outcome == Recovered { recovered := recovered + 1; }
        if outcome == Unsuccessful { failed := failed + 1; }
      }
    }

    /**
     Claim, then recover one by one. An undisturbed batch recovers exactly the claimed operations whose
     file can be had, whose payment is eligible and whose evidence is not there yet.
     */
    method RecoverBatch(ghost s0: State, ghost trace: seq<Step>, limit: int, locked: set<OpId>, first: TaskId, turns: nat -> seq<Turn>)
      returns (report: Report, claimed: seq<OpId>, outcomes: seq<Outcome>, ghost begun: nat, ghost longer: seq<Step>)
      requires Start(s0) && st == Run(c, s0, trace) && Scheduled(turns, first) && forall t | t in st.tasks :: t < first
      modifies this`st
      ensures trace <= longer && st == Run(c, s0, longer)
      ensures LongestWaiting(old(st), locked, if limit < 1 then 1 else if limit > 100 then 100 else limit, claimed)
      ensures begun == |trace| + |claimed| && BatchOutcome(c, s0, old(st), longer, begun, claimed, first, turns, outcomes)
      ensures report == Report(|claimed|, Ended(outcomes, Recovered), Ended(outcomes, Unsuccessful), false)
    {
      ghost var start := st;
      claimed, longer := ClaimRecoverableOperations(s0, trace, SafeLimit(limit), locked, first);
      ghost var leased := st;
      begun := |longer|;
      var recovered, failed;
      recovered, failed, outcomes, longer := RecoverClaimed(s0, longer, claimed, first, turns);
      assert EvidenceUnique(start.attachments) by { RunKeeps(c, s0, trace); }
      BatchIsDone(c, s0, start, leased, longer, begun, claimed, first, turns, outcomes);
      report := Report(|claimed|, recovered, failed, false);
    }

    /** The advisory lock and the running flag only decide whether a batch happens at all. */
    method RunOnce(ghost s0: State, ghost trace: seq<Step>, lockFree: bool, locked: set<OpId>, first: TaskId, turns: nat -> seq<Turn>)
      returns (report: Report, claimed: seq<OpId>, outcomes: seq<Outcome>, ghost begun: nat, ghost longer: seq<Step>)
      requires Start(s0) && st == Run(c, s0, trace) && Scheduled(turns, first) && forall t | t in st.tasks :: t < first
      modifies this
      ensures running == old(running) && trace <= longer && st == Run(c, s0, longer)
      ensures report.skipped <==> old(running) || !lockFree
      ensures report.skipped ==> report == Report(0, 0, 0, true) && st == old(st)
      ensures !report.skipped ==>
                && report == Report(|claimed|, Ended(outcomes, Recovered), Ended(outcomes, Unsuccessful), false)
                && LongestWaiting(old(st), locked, 20, claimed)
                && begun == |trace| + |claimed|
                && BatchOutcome(c, s0, old(st), longer, begun, claimed, first, turns, outcomes)
    {
      claimed, outcomes := [], [];
      if running || !lockFree { return Report(0, 0, 0, true), claimed, outcomes, 0, trace; }
      running := true;
      report, claimed, outcomes, begun, longer := RecoverBatch(s0, trace, RECOVERY_BATCH_SIZE, locked, first, turns);
      running := false;
    }
  }

  const RECOVERY_BATCH_SIZE := 20

  /** Between 1 and 100, with 0 read as 1. */
  function SafeLimit(limit: int): nat { Max(1, Min(if limit == 0 then 1 else limit, 100)) }

  function Ended(outcomes: seq<Outcome>, o: Outcome): nat {
    if outcomes == [] then 0
    else Ended(outcomes[..|outcomes| - 1], o) + if outcomes[|outcomes| - 1] == o then 1 else 0
  }

  lemma EndedOneMore(outcomes: seq<Outcome>, outcome: Outcome)
    ensures Ended(outcomes + [outcome], Recovered) == Ended(outcomes, Recovered) + if outcome == Recovered then 1 else 0
    ensures Ended(outcomes + [outcome], Unsuccessful) == Ended(outcomes, Unsuccessful) + if outcome == Unsuccessful then 1 else 0
  {
    assert (outcomes + [outcome])[..|outcomes|] == outcomes;
  }

  /** What an outcome entitles the caller to believe about the operation. */
  ghost predicate Justified(s: State, op: OpId, o: Outcome) {
    match o
    case Recovered => op in s.ops && s.ops[op].status.Completed? && op in Inserters(s.inserted)
    case Replayed => op in s.ops && s.ops[op].status.Completed?
    case Unsuccessful => true
  }

  ghost predicate AllJustified(s: State, claimed: seq<OpId>, outcomes: seq<Outcome>, n: nat) {
    n <= |claimed| && |outcomes| == n && forall i | 0 <= i < n :: Justified(s, claimed[i], outcomes[i])
  }

  /** The operations from position i on still wait. */
  ghost predicate Pending(tasks: map<TaskId, Task>, claimed: seq<OpId>, first: TaskId, i: nat) {
    forall j | i <= j < |claimed| :: Awaits(tasks, first + j, claimed[j])
  }

  ghost predicate Awaits(tasks: map<TaskId, Task>, t: TaskId, op: OpId) {
    t in tasks && tasks[t].op == op && tasks[t].stage.Claimed?
  }

  lemma ClaimedArePending(s: State, s': State, locked: set<OpId>, limit: nat, claimed: seq<OpId>, first: TaskId)
    requires OldestFirst(Age(s.ops), Candidates(s, locked), limit, claimed) && Tasked(s, s', claimed, first)
    ensures Pending(s'.tasks, claimed, first, 0) && Distinct(claimed)
  {
    forall j | 0 <= j < |claimed| ensures Awaits(s'.tasks, first + j, claimed[j]) {
      assert FreshTask(s, s', claimed[j], first + j);
    }
    forall i, j | 0 <= i < j < |claimed| ensures claimed[i] != claimed[j] {
      assert Older(Age(s.ops), claimed[i], claimed[j]);
    }
  }

  lemma StillPending(tasks: map<TaskId, Task>, later: map<TaskId, Task>, claimed: seq<OpId>, first: TaskId, i: nat)
    requires Pending(tasks, claimed, first, i) && OthersUntouched(tasks, later, first + i, first)
    ensures Pending(later, claimed, first, i + 1)
  {
  }

  lemma AllStillJustified(c: Config, s0: State, trace: seq<Step>, longer: seq<Step>, claimed: seq<OpId>,
                          outcomes: seq<Outcome>, n: nat)
    requires Start(s0) && trace <= longer && AllJustified(Run(c, s0, trace), claimed, outcomes, n)
    ensures AllJustified(Run(c, s0, longer), claimed, outcomes, n)
  {
    forall i | 0 <= i < n ensures Justified(Run(c, s0, longer), claimed[i], outcomes[i]) {
      StillJustified(c, s0, trace, longer, claimed[i], outcomes[i]);
    }
  }

  lemma {:induction false} LogGrows(c: Config, s: State, steps: seq<Step>)
    ensures s.inserted <= Run(c, s, steps).inserted
  {
    if steps != [] {
      var s1, step := Run(c, s, steps[..|steps| - 1]), steps[|steps| - 1];
      LogGrows(c, s, steps[..|steps| - 1]);
      if step.Advance? && step.task in s1.tasks {
        assert Next(c, s1, step) == AdvanceTask(c, s1, step.task, step.newId);
        AdvanceLogs(c, s1, step.task, step.newId);
      }
    }
  }

  /** A persist that ends the claim completes the row; it inserts at most once, and only then. */
  lemma PersistLogs(s: State, task: TaskId, key: Key, size: nat, newId: AttachmentId)
    requires task in s.tasks
    ensures var s', op := Persist(s, task, key, size, newId), s.tasks[task].op;
            && (s'.inserted == s.inserted || (s'.inserted == s.inserted + [Insertion(op, newId)] && task !in s'.tasks))
            && (task !in s'.tasks && op in s.ops ==> op in s'.ops && s'.ops[op].status.Completed?)
  {
    var t, s' := s.tasks[task], Persist(s, task, key, size, newId);
    if s' == s || s' == At(s, task, Failing) {
    } else if Prior(s, t.row) == {} {
      assert s' == Close(Complete(InsertEvidence(s, t.op, t.row, key, size, newId), t.op, newId), task);
    } else {
      assert s' == Close(Complete(s, t.op, Least(Prior(s, t.row))), task);
    }
  }

  lemma AdvanceLogs(c: Config, s: State, task: TaskId, newId: AttachmentId)
    requires task in s.tasks
    ensures var s' := AdvanceTask(c, s, task, newId);
            || s'.inserted == s.inserted
            || (s'.inserted == s.inserted + [Insertion(s.tasks[task].op, newId)] && s.tasks[task].stage.Ready?
                && task !in s'.tasks)
    ensures var s' := AdvanceTask(c, s, task, newId);
            s.tasks[task].stage.Ready? && task !in s'.tasks && s.tasks[task].op in s.ops ==>
              s.tasks[task].op in s'.ops && s'.ops[s.tasks[task].op].status.Completed?
  {
    var s' := AdvanceTask(c, s, task, newId);
    var stage := s.tasks[task].stage;
    if Looking(stage) {
      assert s' == At(s, task, Look(c, s.tasks[task].row, stage, s.files));
    } else if stage.Ready? {
      assert s' == Persist(s, task, stage.key, stage.size, newId);
      PersistLogs(s, task, stage.key, stage.size, newId);
    } else if stage.Verified? {
      assert s' == Checkpoint(s, task, stage.key, stage.size);
    } else if stage.Failing? {
      assert s' == Release(s, task);
    } else {
      assert s' == StoreFile(c, s, task, stage.key, stage.bytes);
    }
  }

  lemma StillJustified(c: Config, s0: State, trace: seq<Step>, longer: seq<Step>, op: OpId, o: Outcome)
    requires Start(s0) && trace <= longer && Justified(Run(c, s0, trace), op, o)
    ensures Justified(Run(c, s0, longer), op, o)
  {
    var more := longer[|trace|..];
    assert longer == trace + more;
    HistoryIsPreserved(c, s0, trace, more);
    RunConcat(c, s0, trace, more);
    LogGrows(c, Run(c, s0, trace), more);
    var a, b := Run(c, s0, trace).inserted, Run(c, s0, longer).inserted;
    if op in Inserters(a) {
      var i :| 0 <= i < |a| && Inserters(a)[i] == op;
      assert Inserters(b)[i] == op;
    }
  }

  /** A persist that ended its claim completed the operation, and inserted it if the log grew. */
  lemma OwnPersistCompletes(c: Config, s: State, task: TaskId, newId: AttachmentId)
    requires task in s.tasks && s.tasks[task].stage.Ready? && s.tasks[task].op in s.ops
    requires task !in AdvanceTask(c, s, task, newId).tasks
    ensures var own := AdvanceTask(c, s, task, newId);
            Justified(own, s.tasks[task].op, if |own.inserted| > |s.inserted| then Recovered else Replayed)
  {
    var own := AdvanceTask(c, s, task, newId);
    AdvanceLogs(c, s, task, newId);
    if |own.inserted| > |s.inserted| {
      assert Inserters(own.inserted)[|s.inserted|] == s.tasks[task].op;
    }
  }

  /** Whatever the other workers do next, the outcome of an own persist stays justified. */
  lemma OwnPersistIsJustified(c: Config, s0: State, trace: seq<Step>, task: TaskId, step: Step, others: seq<Step>)
    requires Start(s0) && task in Run(c, s0, trace).tasks && Run(c, s0, trace).tasks[task].stage.Ready?
    requires step.Advance? && step.task == task && task !in Next(c, Run(c, s0, trace), step).tasks
    ensures var s, own := Run(c, s0, trace), Next(c, Run(c, s0, trace), step);
            Justified(Run(c, own, others), s.tasks[task].op, if |own.inserted| > |s.inserted| then Recovered else Replayed)
  {
    var s := Run(c, s0, trace);
    var own := Next(c, s, step);
    assert own == AdvanceTask(c, s, task, step.newId);
    assert s.tasks[task].op in s.ops by {
      RunKeeps(c, s0, trace);
      TaskCommand(c, s0, s, task);
    }
    OwnPersistCompletes(c, s, task, step.newId);
    assert (trace + [step])[..|trace|] == trace;
    RunConcat(c, s0, trace + [step], others);
    StillJustified(c, s0, trace + [step], trace + [step] + others, s.tasks[task].op,
      if |own.inserted| > |s.inserted| then Recovered else Replayed);
  }

  function OwnStep(s: State, task: TaskId, turn: Turn): Step
    requires task in s.tasks
  {
    if !turn.fault && !(s.tasks[task].stage.Ready? && turn.newId in s.attachments) then Advance(task, turn.newId)
    else if s.tasks[task].stage.Failing? then Crash(task)
    else Error(task)
  }

  lemma AwaitEffect(c: Config, s: State, task: TaskId, first: TaskId, step: Step, others: seq<Step>)
    requires task in s.tasks && first <= task && OwnStepAllowed(s, task, step)
    requires forall i | 0 <= i < |others| :: Foreign(others[i], first)
    ensures var later := Run(c, Next(c, s, step), others).tasks;
            OthersUntouched(s.tasks, later, task, first) && Progressed(s.tasks, later, task)
  {
    OwnStepEffect(c, s, task, step);
    ForeignStepsLeaveOursAlone(c, Next(c, s, step), others, first);
    ThenKept(s.tasks, Next(c, s, step).tasks, Run(c, Next(c, s, step), others).tasks, task, first);
  }

  lemma ThenKept(a: map<TaskId, Task>, b: map<TaskId, Task>, d: map<TaskId, Task>, task: TaskId, first: TaskId)
    requires OthersUntouched(a, b, task, 0) && Progressed(a, b, task) && OursKept(b, d, first) && first <= task
    ensures OthersUntouched(a, d, task, first) && Progressed(a, d, task)
  {
  }

  ghost predicate OthersUntouched(tasks: map<TaskId, Task>, later: map<TaskId, Task>, task: TaskId, first: TaskId) {
    forall t | t >= first && t != task :: (t in later <==> t in tasks) && (t in tasks ==> later[t] == tasks[t])
  }

  ghost predicate Progressed(tasks: map<TaskId, Task>, later: map<TaskId, Task>, task: TaskId) {
    task in tasks && task in later ==>
      later[task].op == tasks[task].op && Remaining(later[task].stage) < Remaining(tasks[task].stage)
  }

  predicate OwnStepAllowed(s: State, task: TaskId, step: Step)
    requires task in s.tasks
  {
    || (step == Error(task) && !s.tasks[task].stage.Failing?) || step == Crash(task)
    || (step.Advance? && step.task == task && (s.tasks[task].stage.Ready? ==> step.newId !in s.attachments))
  }

  lemma OwnStepEffect(c: Config, s: State, task: TaskId, step: Step)
    requires task in s.tasks && OwnStepAllowed(s, task, step)
    ensures OthersUntouched(s.tasks, Next(c, s, step).tasks, task, 0)
    ensures Progressed(s.tasks, Next(c, s, step).tasks, task)
  {
    if step.Advance? {
      assert Next(c, s, step) == AdvanceTask(c, s, task, step.newId);
      AdvanceKeepsRows(c, s, task, step.newId);
      AdvanceProgresses(c, s, task, step.newId);
    }
  }

  lemma PersistEndsOrFails(s: State, task: TaskId, key: Key, size: nat, newId: AttachmentId)
    requires task in s.tasks && newId !in s.attachments
    ensures task !in Persist(s, task, key, size, newId).tasks || Persist(s, task, key, size, newId) == At(s, task, Failing)
  {
  }

  lemma AdvanceProgresses(c: Config, s: State, task: TaskId, newId: AttachmentId)
    requires task in s.tasks && (s.tasks[task].stage.Ready? ==> newId !in s.attachments)
    ensures var s' := AdvanceTask(c, s, task, newId);
            task in s'.tasks ==> Remaining(s'.tasks[task].stage) < Remaining(s.tasks[task].stage)
  {
    var s' := AdvanceTask(c, s, task, newId);
    var stage := s.tasks[task].stage;
    if Looking(stage) {
      assert s' == At(s, task, Look(c, s.tasks[task].row, stage, s.files));
    } else if stage.Ready? {
      assert s' == Persist(s, task, stage.key, stage.size, newId);
      PersistEndsOrFails(s, task, stage.key, stage.size, newId);
    } else if stage.Verified? {
      assert s' == Checkpoint(s, task, stage.key, stage.size);
    } else if stage.Failing? {
      assert s' == Release(s, task);
    } else {
      assert s' == StoreFile(c, s, task, stage.key, stage.bytes);
    }
  }
}
