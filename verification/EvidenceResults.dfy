/** The guarantees of evidence recovery over every interleaving of claims, awaits, errors, crashes and delays. */
module EvidenceResults {
  import opened Sums
  import opened EvidenceRecovery
  import opened EvidenceSafety

  lemma {:induction false} RunConcat(c: Config, s: State, a: seq<Step>, b: seq<Step>)
    ensures Run(c, s, a + b) == Run(c, Run(c, s, a), b)
  {
    if b == [] {
      assert a + b == a;
    } else {
      assert (a + b)[..|a + b| - 1] == a + b[..|b| - 1];
      RunConcat(c, s, a, b[..|b| - 1]);
    }
  }

  // ---------- Exactly-once effects ----------

  function Inserters(log: seq<Insertion>): (r: seq<OpId>)
    ensures |r| == |log|
  {
    seq(|log|, i requires 0 <= i < |log| => log[i].op)
  }

  function Audited(log: seq<AuditRow>): (r: seq<OpId>)
    ensures |r| == |log|
  {
    seq(|log|, i requires 0 <= i < |log| => log[i].cause)
  }

  function Announced(log: seq<OutboxRow>): (r: seq<OpId>)
    ensures |r| == |log|
  {
    seq(|log|, i requires 0 <= i < |log| => log[i].cause)
  }

  function Times(s: seq<OpId>, op: OpId): nat {
    if s == [] then 0 else Times(s[..|s| - 1], op) + if s[|s| - 1] == op then 1 else 0
  }

  lemma {:induction false} DistinctAtMostOnce(s: seq<OpId>, op: OpId)
    requires forall i, j | 0 <= i < j < |s| :: s[i] != s[j]
    ensures Times(s, op) <= 1 && (Times(s, op) == 1 <==> op in s)
  {
    if s != [] {
      var n := |s| - 1;
      DistinctAtMostOnce(s[..n], op);
      assert s == s[..n] + [s[n]];
      assert forall i | 0 <= i < n :: s[..n][i] != s[n];
    }
  }

  lemma LogsAgree(c: Config, s0: State, s: State, op: OpId)
    requires LogsOk(c, s0, s.inserted, s.audits, s.outbox, s.attachments, s.files)
    ensures Audited(s.audits) == Announced(s.outbox) == Inserters(s.inserted)
    ensures Times(Inserters(s.inserted), op) <= 1
    ensures forall i | 0 <= i < |s.inserted| ::
              s.outbox[i].attachment == s.inserted[i].attachment && s.inserted[i].attachment in s.attachments
  {
    assert forall i | 0 <= i < |s.inserted| ::
        InsertionOk(c, s0, s.inserted[i], s.audits[i], s.outbox[i], s.attachments, s.files);
    assert Audited(s.audits) == Inserters(s.inserted);
    assert Announced(s.outbox) == Inserters(s.inserted);
    DistinctAtMostOnce(Inserters(s.inserted), op);
  }

  /** Evidence that was there before the start rules the operation out as an inserter. */
  lemma KnownEvidenceIsNotInserted(c: Config, s0: State, s: State, op: OpId, i: nat)
    requires LogsOk(c, s0, s.inserted, s.audits, s.outbox, s.attachments, s.files)
    requires EvidenceUnique(s.attachments) && Superseding(s0.attachments, s.attachments)
    requires op in s0.ops && Prior(s0, s0.ops[op]) != {} && i < |s.inserted|
    ensures s.inserted[i].op != op
  {
  }

  lemma {:induction false} NeverAmong(s: seq<OpId>, op: OpId)
    requires forall i | 0 <= i < |s| :: s[i] != op
    ensures Times(s, op) == 0
  {
    if s != [] { NeverAmong(s[..|s| - 1], op); }
  }

  /**
   Recovery gives each operation, hence each payment, uploader and idempotency key, the same
   number of attachments, audit rows and outbox events: none or one, and none if the evidence
   was already there. The outbox event names the attachment that was inserted.
   */
  lemma {:induction false} EffectsHappenAtMostOnce(c: Config, s0: State, steps: seq<Step>, op: OpId)
    requires Start(s0) && op in s0.ops
    ensures var s := Run(c, s0, steps);
            && Audited(s.audits) == Announced(s.outbox) == Inserters(s.inserted)
            && Times(Inserters(s.inserted), op) <= 1
            && (forall a, b | a in s.attachments && b in s.attachments
                           && SameEvidence(s.attachments[a], s0.ops[op]) && SameEvidence(s.attachments[b], s0.ops[op]) :: a == b)
            && (Prior(s0, s0.ops[op]) != {} ==> Times(Inserters(s.inserted), op) == 0)
            && (forall i | 0 <= i < |s.inserted| ::
                  s.outbox[i].attachment == s.inserted[i].attachment && s.inserted[i].attachment in s.attachments)
  {
    RunKeeps(c, s0, steps);
    var s := Run(c, s0, steps);
    LogsAgree(c, s0, s, op);
    if Prior(s0, s0.ops[op]) != {} {
      forall i: nat | i < |s.inserted| ensures s.inserted[i].op != op {
        KnownEvidenceIsNotInserted(c, s0, s, op, i);
      }
      NeverAmong(Inserters(s.inserted), op);
    }
  }

  /** A payment never gets a second active proof. */
  lemma {:induction false} OneActiveProofPerPayment(c: Config, s0: State, steps: seq<Step>)
    requires Start(s0) && OneActiveProof(s0.attachments)
    ensures OneActiveProof(Run(c, s0, steps).attachments)
  {
    RunKeeps(c, s0, steps);
  }

  ghost predicate SameEffects(s: State, s': State) {
    s'.attachments == s.attachments && s'.audits == s.audits && s'.outbox == s.outbox && s'.inserted == s.inserted
  }

  lemma KnownEvidenceIsLeftAlone(c: Config, s: State, task: TaskId, newId: AttachmentId)
    requires task in s.tasks && Prior(s, s.tasks[task].row) != {}
    ensures SameEffects(s, AdvanceTask(c, s, task, newId))
  {
    var s', stage := AdvanceTask(c, s, task, newId), s.tasks[task].stage;
    if stage.Ready? {
      assert s' == Persist(s, task, stage.key, stage.size, newId);
      assert s' == At(s, task, Failing) || s' == Close(Complete(s, s.tasks[task].op, Least(Prior(s, s.tasks[task].row))), task);
    }
  }

  lemma TaskCommand(c: Config, s0: State, s: State, task: TaskId)
    requires Inv(c, s0, s) && task in s.tasks
    ensures s.tasks[task].op in s0.ops && SameCommand(s0.ops[s.tasks[task].op], s.tasks[task].row)
  {
  }

  /** Once an operation's evidence exists, superseded or not, no step of any of its tasks touches the tables again. */
  lemma {:induction false} ReplayChangesNoAttachment(c: Config, s0: State, steps: seq<Step>, op: OpId, task: TaskId, newId: AttachmentId)
    requires Start(s0) && op in s0.ops
    requires var s := Run(c, s0, steps);
             Prior(s, s0.ops[op]) != {} && task in s.tasks && s.tasks[task].op == op
    ensures SameEffects(Run(c, s0, steps), Run(c, s0, steps + [Advance(task, newId)]))
  {
    var s := Run(c, s0, steps);
    assert (steps + [Advance(task, newId)])[..|steps|] == steps;
    assert Run(c, s0, steps + [Advance(task, newId)]) == AdvanceTask(c, s, task, newId);
    assert Prior(s, s.tasks[task].row) == Prior(s, s0.ops[op]) by {
      RunKeeps(c, s0, steps);
      TaskCommand(c, s0, s, task);
    }
    KnownEvidenceIsLeftAlone(c, s, task, newId);
  }

  // ---------- What a single step can never do ----------

  /** Completed rows keep their status and attachment. */
  ghost predicate Finished(ops: map<OpId, Operation>, later: map<OpId, Operation>) {
    forall p | p in ops && ops[p].status.Completed? ::
      p in later && later[p].status.Completed? && later[p].attachment == ops[p].attachment
  }

  ghost predicate Monotone(s: State, s': State) {
    Kept(s.files, s'.files) && Superseding(s.attachments, s'.attachments) && Finished(s.ops, s'.ops) && s.now <= s'.now
  }

  /** A completed row's attachment is the one prior evidence its tasks can find. */
  ghost predicate CompletedIsPrior(s: State, t: Task) {
    t.op in s.ops && (s.ops[t.op].status.Completed? ==>
      && s.ops[t.op].leaseUntil.None? && s.ops[t.op].attachment.Some? && Prior(s, t.row) == {s.ops[t.op].attachment.value})
  }

  lemma CompletedHasPrior(c: Config, s0: State, s: State, task: TaskId)
    requires Inv(c, s0, s) && task in s.tasks
    ensures CompletedIsPrior(s, s.tasks[task])
  {
  }

  lemma CompleteIsMonotone(s: State, task: TaskId, op: OpId, a: AttachmentId)
    requires op in s.ops && (s.ops[op].status.Completed? ==> s.ops[op].attachment == Some(a))
    ensures Monotone(s, Close(Complete(s, op, a), task))
  {
  }

  lemma InsertIsMonotone(s: State, task: TaskId, op: OpId, o: Operation, key: Key, size: nat, newId: AttachmentId)
    requires op in s.ops && !s.ops[op].status.Completed?
    requires newId !in s.attachments && Prior(s, o) == {} && EvidenceUnique(s.attachments)
    ensures Monotone(s, Close(Complete(InsertEvidence(s, op, o, key, size, newId), op, newId), task))
  {
  }

  lemma PersistIsMonotone(s: State, task: TaskId, key: Key, size: nat, newId: AttachmentId)
    requires task in s.tasks && CompletedIsPrior(s, s.tasks[task]) && EvidenceUnique(s.attachments)
    ensures Monotone(s, Persist(s, task, key, size, newId))
  {
    var t := s.tasks[task];
    var s' := Persist(s, task, key, size, newId);
    if s' == s || s' == At(s, task, Failing) {
    } else if Prior(s, t.row) == {} {
      assert s' == Close(Complete(InsertEvidence(s, t.op, t.row, key, size, newId), t.op, newId), task);
      InsertIsMonotone(s, task, t.op, t.row, key, size, newId);
    } else {
      assert s' == Close(Complete(s, t.op, Least(Prior(s, t.row))), task);
      CompleteIsMonotone(s, task, t.op, Least(Prior(s, t.row)));
    }
  }

  lemma TasksOnlyIsMonotone(s: State, s': State)
    requires s' == s.(tasks := s'.tasks, files := s'.files) && Kept(s.files, s'.files)
    ensures Monotone(s, s')
  {
  }

  lemma RowChangeIsMonotone(s: State, s': State, op: OpId)
    requires op in s.ops && !s.ops[op].status.Completed? && op in s'.ops
    requires s' == s.(tasks := s'.tasks, ops := s.ops[op := s'.ops[op]])
    ensures Monotone(s, s')
  {
  }

  lemma AdvanceIsMonotone(c: Config, s: State, task: TaskId, newId: AttachmentId)
    requires task in s.tasks && CompletedIsPrior(s, s.tasks[task]) && EvidenceUnique(s.attachments)
    requires s.tasks[task].stage.StagedRead? ==> Kept(s.files, AdvanceTask(c, s, task, newId).files)
    ensures Monotone(s, AdvanceTask(c, s, task, newId))
  {
    var s' := AdvanceTask(c, s, task, newId);
    var op := s.tasks[task].op;
    if Looking(s.tasks[task].stage) {
      TasksOnlyIsMonotone(s, s');
    } else {
      match s.tasks[task].stage {
        case Ready(key, size) => PersistIsMonotone(s, task, key, size, newId);
        case StagedRead(key, bytes) => TasksOnlyIsMonotone(s, s');
        case _ => if s'.ops == s.ops { TasksOnlyIsMonotone(s, s'); } else { RowChangeIsMonotone(s, s', op); }
      }
    }
  }

  lemma NextIsMonotone(c: Config, s0: State, s: State, step: Step)
    requires Start(s0) && Inv(c, s0, s)
    ensures Monotone(s, Next(c, s, step))
  {
    if step.Advance? && step.task in s.tasks {
      CompletedHasPrior(c, s0, s, step.task);
      assert Next(c, s, step) == AdvanceTask(c, s, step.task, step.newId);
      if s.tasks[step.task].stage.StagedRead? {
        StoreKeeps(c, s0, s, step.task, s.tasks[step.task].stage.key, s.tasks[step.task].stage.bytes);
      }
      AdvanceIsMonotone(c, s, step.task, step.newId);
    } else {
      OtherStepsAreMonotone(c, s, step);
    }
  }

  lemma OtherStepsAreMonotone(c: Config, s: State, step: Step)
    requires step.Advance? ==> step.task !in s.tasks
    ensures Monotone(s, Next(c, s, step))
  {
    var s' := Next(c, s, step);
    if step.Claim? {
      assert s' == ClaimOp(s, step.op, step.task);
    } else {
      assert s'.files == s.files && s'.attachments == s.attachments && s'.ops == s.ops;
    }
  }

  /**
   Along every run: no file outside staging is lost or altered, no attachment is removed or
   changed except for being superseded, and a completed operation stays completed with the
   same attachment.
   */
  lemma {:induction false} HistoryIsPreserved(c: Config, s0: State, steps: seq<Step>, more: seq<Step>)
    requires Start(s0)
    ensures Monotone(Run(c, s0, steps), Run(c, s0, steps + more))
  {
    if more == [] {
      assert steps + more == steps;
    } else {
      var n := |more| - 1;
      assert (steps + more)[..|steps + more| - 1] == steps + more[..n];
      HistoryIsPreserved(c, s0, steps, more[..n]);
      RunKeeps(c, s0, steps + more[..n]);
      NextIsMonotone(c, s0, Run(c, s0, steps + more[..n]), more[n]);
    }
  }

  // ---------- No file is lost ----------

  /** k can be found again: it is a key the row records or promises, or an attachment of this evidence names it. */
  ghost predicate Findable(s: State, op: OpId, o0: Operation, k: Key)
    requires op in s.ops
  {
    || s.ops[op].stagingKey == Some(k) || Target(s.ops[op]) == Some(k)
    || exists a :: a in s.attachments && SameEvidence(s.attachments[a], o0) && s.attachments[a].storagePath == k
  }

  /** Verified staged bytes stay findable in every reachable state, whatever was interrupted. */
  lemma {:induction false} NoFileIsLost(c: Config, s0: State, steps: seq<Step>, op: OpId) returns (k: Key)
    requires Start(s0) && op in s0.ops && !s0.ops[op].status.Completed?
    requires s0.ops[op].stagingKey.Some? && s0.ops[op].stagingKey.value.area.Staging?
    requires Holds(c, s0.ops[op], s0.files, s0.ops[op].stagingKey.value)
    ensures op in Run(c, s0, steps).ops
    ensures Holds(c, s0.ops[op], Run(c, s0, steps).files, k) && Findable(Run(c, s0, steps), op, s0.ops[op], k)
    ensures (forall x, y :: c.hash(x) == c.hash(y) ==> x == y) ==>
              Run(c, s0, steps).files[k] == s0.files[s0.ops[op].stagingKey.value]
  {
    RunKeeps(c, s0, steps);
    var s := Run(c, s0, steps);
    var o0, o := s0.ops[op], s.ops[op];
    assert RowOk(c, o0, o, s.files, s.attachments);
    assert StagedOrPromoted(c, o0, s0.files, s.files);
    if o.status.Completed? {
      k := s.attachments[o.attachment.value].storagePath;
    } else if Checkpointed(o0, o) && Holds(c, o0, s.files, o.promotedKey.value) {
      k := o.promotedKey.value;
    } else if o0.stagingKey.value in s.files {
      k := o0.stagingKey.value;
    } else {
      k := Target(o0).value;
    }
  }

  /**
   Every attachment recovery inserted describes its operation's file and still points to bytes that pass
   the recorded size and digest; the proofs its outbox event calls replaced are superseded.
   */
  lemma {:induction false} InsertedEvidenceIsVerified(c: Config, s0: State, steps: seq<Step>, i: nat)
    requires Start(s0) && i < |Run(c, s0, steps).inserted|
    ensures var s := Run(c, s0, steps);
            var e := s.inserted[i];
            && e.op in s0.ops && e.attachment in s.attachments && e.attachment !in s0.attachments
            && SameEvidence(s.attachments[e.attachment], s0.ops[e.op])
            && Describes(s.attachments[e.attachment], s0.ops[e.op])
            && Holds(c, s0.ops[e.op], s.files, s.attachments[e.attachment].storagePath)
            && |s.files[s.attachments[e.attachment].storagePath]| == s.attachments[e.attachment].size
            && i < |s.outbox| && s.outbox[i].attachment == e.attachment
            && AllReplaced(s.outbox[i].replaced, s0.ops[e.op].payment, s.attachments)
  {
    RunKeeps(c, s0, steps);
    var s := Run(c, s0, steps);
    assert InsertionOk(c, s0, s.inserted[i], s.audits[i], s.outbox[i], s.attachments, s.files);
  }

  // ---------- Progress is bounded and paced ----------

  ghost predicate AllClaimed(tasks: map<TaskId, Task>) {
    forall t | t in tasks :: tasks[t].row.status.Staged? || tasks[t].row.status.Promoted?
  }

  lemma AdvanceKeepsRows(c: Config, s: State, task: TaskId, newId: AttachmentId)
    requires task in s.tasks
    ensures var s' := AdvanceTask(c, s, task, newId);
            s'.tasks == s.tasks - {task} || s'.tasks == s.tasks
            || (task in s'.tasks && s'.tasks == s.tasks[task := s.tasks[task].(stage := s'.tasks[task].stage)])
  {
    var s' := AdvanceTask(c, s, task, newId);
    var stage := s.tasks[task].stage;
    if Looking(stage) {
      assert s' == At(s, task, Look(c, s.tasks[task].row, stage, s.files));
    } else if stage.Ready? {
      assert s' == Persist(s, task, stage.key, stage.size, newId);
    } else if stage.Verified? {
      assert s' == Checkpoint(s, task, stage.key, stage.size);
    } else if stage.Failing? {
      assert s' == Release(s, task);
    } else {
      assert s' == StoreFile(c, s, task, stage.key, stage.bytes);
    }
  }

  lemma {:induction false} ClaimedRowsAreStagedOrPromoted(c: Config, s0: State, steps: seq<Step>)
    requires Start(s0)
    ensures AllClaimed(Run(c, s0, steps).tasks)
  {
    if steps != [] {
      var s, step := Run(c, s0, steps[..|steps| - 1]), steps[|steps| - 1];
      ClaimedRowsAreStagedOrPromoted(c, s0, steps[..|steps| - 1]);
      if step.Advance? && step.task in s.tasks {
        assert Next(c, s, step) == AdvanceTask(c, s, step.task, step.newId);
        AdvanceKeepsRows(c, s, step.task, step.newId);
      }
    }
  }

  /**
   At most five claims an operation, each at least five minutes after the one before, even when
   a stale worker has released a newer lease. Every claimed row is staged or promoted, never failed.
   */
  lemma {:induction false} ClaimsAreBoundedAndPaced(c: Config, s0: State, steps: seq<Step>, op: OpId)
    requires Start(s0) && op in s0.ops
    ensures var s := Run(c, s0, steps);
            && Claims(s.claims, op) <= Max(0, 5 - s0.ops[op].attempts)
            && (forall i, j | 0 <= i < j < |s.claims| && s.claims[i].op == s.claims[j].op ::
                  s.claims[j].at >= s.claims[i].at + 300)
            && AllClaimed(s.tasks)
  {
    RunKeeps(c, s0, steps);
    ClaimedRowsAreStagedOrPromoted(c, s0, steps);
  }
}
