/** What each step of evidence recovery does to rows, tables and files, written out field by field. */
module EvidenceEffects {
  import opened Sums
  import opened EvidenceRecovery
  import opened EvidenceSafety
  import opened EvidenceResults

  // ---------- Inserting evidence ----------

  predicate ActiveProofOf(a: Attachment, payment: Id) { a.payment == payment && a.kind.PaymentProof? && a.deletedAt.None? }

  /** The payment is pending, belongs to the operation's order, and the order is active. */
  predicate PaymentEligible(s: State, o: Operation) {
    o.payment in s.payments && s.payments[o.payment] == Payment(o.order, true, true)
  }

  predicate EvidenceOf(a: Attachment, o: Operation) {
    a.payment == o.payment && a.uploader == o.uploader && a.idempotencyKey == Some(o.idempotencyKey)
  }

  /** The payment's active proofs, and no other row, get the deletion date; one row is new. */
  ghost predicate SupersedesExactly(before: map<AttachmentId, Attachment>, after: map<AttachmentId, Attachment>,
                                    payment: Id, at: int, newId: AttachmentId)
  {
    && newId !in before && after.Keys == before.Keys + {newId}
    && (forall a | a in before && ActiveProofOf(before[a], payment) :: after[a] == before[a].(deletedAt := Some(at)))
    && (forall a | a in before && !ActiveProofOf(before[a], payment) :: after[a] == before[a])
  }

  /** The event names the new attachment and exactly the proofs it replaces. */
  ghost predicate EventNames(e: OutboxRow, op: OpId, o: Operation, before: map<AttachmentId, Attachment>, newId: AttachmentId) {
    && e.payment == o.payment && e.order == o.order && e.actor == o.uploader && e.attachment == newId && e.cause == op
    && (forall a :: a in e.replaced <==> a in before && ActiveProofOf(before[a], o.payment))
  }

  /** One insertion with all its effects: nobody had this evidence, the payment was eligible, every table gains one row. */
  ghost predicate RecoversWhole(s: State, s': State, op: OpId, o: Operation, key: Key, size: nat, newId: AttachmentId) {
    && PaymentEligible(s, o) && (forall a | a in s.attachments :: !EvidenceOf(s.attachments[a], o))
    && SupersedesExactly(s.attachments, s'.attachments, o.payment, s.now, newId)
    && s'.attachments[newId] == Attachment(o.order, o.payment, PaymentProof, key.filename, o.originalName, o.mimeType, size,
                                           key, o.uploader, Some(o.idempotencyKey), o.sourceHash, None)
    && |s'.outbox| == |s.outbox| + 1 && s'.outbox[..|s.outbox|] == s.outbox
    && EventNames(s'.outbox[|s.outbox|], op, o, s.attachments, newId)
    && s'.audits == s.audits + [AuditRow(o.order, o.uploader, op)]
    && s'.inserted == s.inserted + [Insertion(op, newId)]
    && (op in s.ops ==> op in s'.ops && CompletedWith(s.ops[op], s'.ops[op], newId, s.now))
  }

  /** The row is completed with the attachment, and neither keys nor lease remain. */
  ghost predicate CompletedWith(before: Operation, after: Operation, attachment: AttachmentId, now: int) {
    after == before.(status := Completed, attachment := Some(attachment), stagingKey := None, promotedKey := None,
                     leaseUntil := None, updatedAt := now)
  }

  lemma InsertRecoversWhole(s: State, task: TaskId, op: OpId, o: Operation, key: Key, size: nat, newId: AttachmentId)
    requires Eligible(s, o) && Prior(s, o) == {} && newId !in s.attachments
    ensures RecoversWhole(s, Close(Complete(InsertEvidence(s, op, o, key, size, newId), op, newId), task), op, o, key, size, newId)
  {
    var s' := Close(Complete(InsertEvidence(s, op, o, key, size, newId), op, newId), task);
    assert s'.attachments == Replaced(s.attachments, ActiveProofs(s, o.payment), s.now, newId, NewAttachment(o, key, size));
    forall a | a in s.attachments ensures !EvidenceOf(s.attachments[a], o) { assert a !in Prior(s, o); }
    assert s'.outbox[..|s.outbox|] == s.outbox;
  }

  /** What an advance at Ready may come to, apart from changing nothing but the worker. */
  lemma PersistEffects(s: State, task: TaskId, key: Key, size: nat, newId: AttachmentId)
    requires task in s.tasks
    ensures var s', t := Persist(s, task, key, size, newId), s.tasks[task];
            SameEffects(s, s') || RecoversWhole(s, s', t.op, t.row, key, size, newId)
  {
    var s', t := Persist(s, task, key, size, newId), s.tasks[task];
    if s' == s || s' == At(s, task, Failing) {
    } else if Prior(s, t.row) == {} {
      assert s' == Close(Complete(InsertEvidence(s, t.op, t.row, key, size, newId), t.op, newId), task);
      InsertRecoversWhole(s, task, t.op, t.row, key, size, newId);
    } else {
      assert s' == Close(Complete(s, t.op, Least(Prior(s, t.row))), task);
    }
  }

  /** The worker's step inserts its operation's evidence. */
  ghost predicate RecoveryStep(s: State, s': State, step: Step) {
    && step.Advance? && step.task in s.tasks && s.tasks[step.task].stage.Ready?
    && var t := s.tasks[step.task]; RecoversWhole(s, s', t.op, t.row, t.stage.key, t.stage.size, step.newId)
  }

  lemma StepEffects(c: Config, s: State, step: Step)
    ensures SameEffects(s, Next(c, s, step)) || RecoveryStep(s, Next(c, s, step), step)
  {
    if step.Advance? && step.task in s.tasks {
      var stage := s.tasks[step.task].stage;
      assert Next(c, s, step) == AdvanceTask(c, s, step.task, step.newId);
      if stage.Ready? {
        assert Next(c, s, step) == Persist(s, step.task, stage.key, stage.size, step.newId);
        PersistEffects(s, step.task, stage.key, stage.size, step.newId);
      }
    }
  }

  lemma OneMoreStep(c: Config, s0: State, steps: seq<Step>, step: Step)
    ensures Run(c, s0, steps + [step]) == Next(c, Run(c, s0, steps), step)
  {
    assert (steps + [step])[..|steps|] == steps;
  }

  /** The operation was there at the start, its command is unchanged, and the key holds its verified bytes. */
  ghost predicate KnownAndHeld(c: Config, s0: State, s: State, t: Task, key: Key) {
    t.op in s0.ops && SameCommand(s0.ops[t.op], t.row) && Holds(c, s0.ops[t.op], s.files, key)
  }

  lemma RecoveryIsSound(c: Config, s0: State, s: State, task: TaskId)
    requires Inv(c, s0, s) && task in s.tasks && s.tasks[task].stage.Ready?
    ensures KnownAndHeld(c, s0, s, s.tasks[task], s.tasks[task].stage.key)
  {
    ReadyTask(c, s0, s, task);
    ReadyIsSound(c, s0.ops, s.tasks[task], s.files);
  }

  /**
   The attachment, audit and outbox tables change only at a step that inserts evidence of a pending payment of
   an active order. At that step exactly the payment's active proofs get a deletion date, that step's now, and
   the event names exactly them.
   */
  lemma {:induction false} AttachmentsChangeOnlyByInsertion(c: Config, s0: State, steps: seq<Step>, step: Step)
    requires Start(s0)
    ensures var s, s' := Run(c, s0, steps), Run(c, s0, steps + [step]);
            SameEffects(s, s')
            || (RecoveryStep(s, s', step) && KnownAndHeld(c, s0, s, s.tasks[step.task], s.tasks[step.task].stage.key))
  {
    var s, s' := Run(c, s0, steps), Run(c, s0, steps + [step]);
    assert SameEffects(s, s') || RecoveryStep(s, s', step) by {
      OneMoreStep(c, s0, steps, step);
      StepEffects(c, s, step);
    }
    if RecoveryStep(s, s', step) {
      assert KnownAndHeld(c, s0, s, s.tasks[step.task], s.tasks[step.task].stage.key) by {
        RunKeeps(c, s0, steps);
        RecoveryIsSound(c, s0, s, step.task);
      }
    }
  }

  /** An event of the run names the attachment as replaced. */
  ghost predicate Announces(outbox: seq<OutboxRow>, a: AttachmentId) {
    exists j :: 0 <= j < |outbox| && a in outbox[j].replaced
  }

  lemma AnnouncesOneMore(outbox: seq<OutboxRow>, e: OutboxRow, a: AttachmentId)
    ensures Announces(outbox + [e], a) <==> Announces(outbox, a) || a in e.replaced
  {
    if Announces(outbox, a) {
      var j :| 0 <= j < |outbox| && a in outbox[j].replaced;
      assert a in (outbox + [e])[j].replaced;
    }
    if a in e.replaced { assert a in (outbox + [e])[|outbox|].replaced; }
  }

  /** Deleted before the start, or named by an event; a row that exists only now was not deleted before. */
  ghost predicate DeletionAccounted(s0: State, s: State, a: AttachmentId) {
    && (a in s0.attachments ==> a in s.attachments)
    && (a in s.attachments ==>
          (s.attachments[a].deletedAt.Some?
           <==> (a in s0.attachments && s0.attachments[a].deletedAt.Some?) || Announces(s.outbox, a)))
    && (Announces(s.outbox, a) ==> a in s.attachments)
  }

  lemma InsertionAccounts(s0: State, s: State, s': State, step: Step, a: AttachmentId)
    requires RecoveryStep(s, s', step) && DeletionAccounted(s0, s, a)
    ensures DeletionAccounted(s0, s', a)
  {
    var e := s'.outbox[|s.outbox|];
    assert s'.outbox == s.outbox + [e];
    AnnouncesOneMore(s.outbox, e, a);
  }

  /** Over a whole run, the proofs that were superseded are exactly those the events of the run call replaced. */
  lemma {:induction false} DeletionsAreAnnounced(c: Config, s0: State, steps: seq<Step>, a: AttachmentId)
    requires Start(s0)
    ensures DeletionAccounted(s0, Run(c, s0, steps), a)
  {
    if steps != [] {
      var n := |steps| - 1;
      DeletionsAreAnnounced(c, s0, steps[..n], a);
      StepEffects(c, Run(c, s0, steps[..n]), steps[n]);
      if RecoveryStep(Run(c, s0, steps[..n]), Run(c, s0, steps), steps[n]) {
        InsertionAccounts(s0, Run(c, s0, steps[..n]), Run(c, s0, steps), steps[n], a);
      }
    }
  }

  // ---------- Claims and releases ----------

  /** Staged, promoted or failed with a file on record, under five attempts, quiet for five minutes and not leased. */
  predicate Claimable(o: Operation, now: int) {
    && o.status in {Staged, Promoted, Failed} && !(o.stagingKey.None? && o.promotedKey.None?)
    && o.attempts <= 4 && o.updatedAt + 300 <= now
    && (o.leaseUntil.Some? ==> o.leaseUntil.value <= now)
  }

  /** A failed row resumes where its file is; every claim costs one attempt and leases the row for five minutes. */
  ghost predicate Leased(before: Operation, after: Operation, now: int) {
    && after.leaseUntil == Some(now + 300) && after.attempts == before.attempts + 1 && after.updatedAt == now
    && (before.status != Failed ==> after.status == before.status)
    && (before.status == Failed && before.promotedKey.Some? ==> after.status == Promoted)
    && (before.status == Failed && before.promotedKey.None? ==> after.status == Staged)
    && after == before.(status := after.status, leaseUntil := after.leaseUntil, attempts := after.attempts, updatedAt := after.updatedAt)
  }

  /** The file is at its private key under this name, and the row may be resumed from there. */
  ghost predicate Promotes(before: Operation, after: Operation, key: Key, now: int) {
    after == before.(status := Promoted, stagingKey := None, promotedKey := Some(key), updatedAt := now)
  }

  ghost predicate LeaseDropped(before: Operation, after: Operation, now: int) {
    after == before.(leaseUntil := None, updatedAt := now)
  }

  /** How a worker's own step may change its operation's row, by the stage it stands at; None is no change. */
  ghost predicate OwnRowChange(s: State, s': State, t: Task, stays: bool)
    requires t.op in s.ops && t.op in s'.ops
  {
    var before, after := s.ops[t.op], s'.ops[t.op];
    match t.stage
    case Verified(key, size) =>
      if before.leaseUntil.Some? && before.leaseUntil.value > s.now then Promotes(before, after, key, s.now) else after == before
    case Ready(key, size) =>
      if stays then after == before
      else exists a :: a in s'.attachments && EvidenceOf(s'.attachments[a], t.row)
                       && s'.attachments[a].contentHash == t.row.sourceHash && s'.attachments[a].storagePath == key
                       && CompletedWith(before, after, a, s.now)
    case Failing => if before.status == Completed then after == before else LeaseDropped(before, after, s.now)
    case _ => after == before
  }

  ghost predicate OtherRowsAlone(s: State, s': State, op: OpId) {
    s'.ops.Keys == s.ops.Keys && forall p | p in s.ops && p != op :: s'.ops[p] == s.ops[p]
  }

  lemma PersistRow(s: State, task: TaskId, key: Key, size: nat, newId: AttachmentId)
    requires task in s.tasks && s.tasks[task].stage == Ready(key, size) && s.tasks[task].op in s.ops
    ensures var s', t := Persist(s, task, key, size, newId), s.tasks[task];
            OtherRowsAlone(s, s', t.op) && s'.claims == s.claims && OwnRowChange(s, s', t, task in s'.tasks)
  {
    var s', t := Persist(s, task, key, size, newId), s.tasks[task];
    if s' == s || s' == At(s, task, Failing) {
    } else if Prior(s, t.row) == {} {
      var inserted := InsertEvidence(s, t.op, t.row, key, size, newId);
      assert s' == Close(Complete(inserted, t.op, newId), task);
      assert s'.attachments[newId] == NewAttachment(t.row, key, size);
      assert CompletedWith(s.ops[t.op], s'.ops[t.op], newId, s.now);
    } else {
      var a := Least(Prior(s, t.row));
      assert s' == Close(Complete(s, t.op, a), task);
      assert CompletedWith(s.ops[t.op], s'.ops[t.op], a, s.now);
    }
  }

  lemma AdvanceRow(c: Config, s: State, task: TaskId, newId: AttachmentId)
    requires task in s.tasks && s.tasks[task].op in s.ops
    ensures var s', t := AdvanceTask(c, s, task, newId), s.tasks[task];
            OtherRowsAlone(s, s', t.op) && s'.claims == s.claims && OwnRowChange(s, s', t, task in s'.tasks)
  {
    var s', stage := AdvanceTask(c, s, task, newId), s.tasks[task].stage;
    if Looking(stage) {
      assert s' == At(s, task, Look(c, s.tasks[task].row, stage, s.files));
    } else if stage.Ready? {
      assert s' == Persist(s, task, stage.key, stage.size, newId);
      PersistRow(s, task, stage.key, stage.size, newId);
    } else if stage.Verified? {
      assert s' == Checkpoint(s, task, stage.key, stage.size);
    } else if stage.Failing? {
      assert s' == Release(s, task);
    } else {
      assert s' == StoreFile(c, s, task, stage.key, stage.bytes);
    }
  }

  /** What one step may do to the operation table. */
  ghost predicate RowsChange(s: State, s': State, step: Step) {
    if step.Claim? then
      if step.op in s.ops && step.task !in s.tasks && Claimable(s.ops[step.op], s.now) then
        && OtherRowsAlone(s, s', step.op) && Leased(s.ops[step.op], s'.ops[step.op], s.now)
        && s'.tasks == s.tasks[step.task := Task(step.op, s'.ops[step.op], Claimed)]
        && s'.claims == s.claims + [ClaimRecord(step.op, s.now)]
      else s' == s
    else if step.Advance? && step.task in s.tasks && s.tasks[step.task].op in s.ops then
      && OtherRowsAlone(s, s', s.tasks[step.task].op) && s'.claims == s.claims
      && OwnRowChange(s, s', s.tasks[step.task], step.task in s'.tasks)
    else s'.ops == s.ops && s'.claims == s.claims
  }

  lemma ClaimRows(c: Config, s: State, step: Step)
    requires step.Claim?
    ensures RowsChange(s, Next(c, s, step), step)
  {
    assert Next(c, s, step) == ClaimOp(s, step.op, step.task);
  }

  lemma WorkerRows(c: Config, s: State, step: Step)
    requires !step.Claim? && (step.Advance? && step.task in s.tasks ==> s.tasks[step.task].op in s.ops)
    ensures RowsChange(s, Next(c, s, step), step)
  {
    if step.Advance? && step.task in s.tasks {
      assert Next(c, s, step) == AdvanceTask(c, s, step.task, step.newId);
      AdvanceRow(c, s, step.task, step.newId);
    }
  }

  /**
   Rows change only by a claim of a claimable row, a checkpoint under a live lease, a completion, or a release of
   a row that is not completed, each with exactly these fields.
   */
  lemma {:induction false} RowsChangeOnlyByTheirWorker(c: Config, s0: State, steps: seq<Step>, step: Step)
    requires Start(s0)
    ensures RowsChange(Run(c, s0, steps), Run(c, s0, steps + [step]), step)
  {
    var s := Run(c, s0, steps);
    OneMoreStep(c, s0, steps, step);
    if step.Claim? {
      ClaimRows(c, s, step);
    } else {
      if step.Advance? && step.task in s.tasks {
        assert s.tasks[step.task].op in s.ops by {
          RunKeeps(c, s0, steps);
          TaskCommand(c, s0, s, step.task);
        }
      }
      WorkerRows(c, s, step);
    }
  }

  // ---------- Files ----------

  ghost predicate Renamed(files: map<Key, Bytes>, later: map<Key, Bytes>, from: Key, to: Key) {
    && from in files && later.Keys == files.Keys - {from} + {to} && later[to] == files[from]
    && (forall k | k in files && k != from && k != to :: later[k] == files[k])
  }

  ghost predicate SavedNew(files: map<Key, Bytes>, later: map<Key, Bytes>, to: Key, bytes: Bytes) {
    to !in files && later.Keys == files.Keys + {to} && later[to] == bytes && forall k | k in files :: later[k] == files[k]
  }

  /** The staging file is renamed where the store can move; else its bytes are saved under a private key that is free. */
  ghost predicate Stores(c: Config, s: State, s': State, task: TaskId, o: Operation, key: Key, bytes: Bytes) {
    var saved := Key(Private, ["sale-order-attachments", o.order], key.filename);
    && task in s'.tasks
    && (if c.hasMove && o.stagingKey.Some? && o.stagingKey.value in s.files
        then Renamed(s.files, s'.files, o.stagingKey.value, key) && s'.tasks[task].stage == Stored(key)
        else if saved in s.files then s'.files == s.files && s'.tasks[task].stage == Failing
        else SavedNew(s.files, s'.files, saved, bytes) && s'.tasks[task].stage == Stored(saved))
  }

  lemma StoreFileStores(c: Config, s: State, task: TaskId, key: Key, bytes: Bytes)
    requires task in s.tasks
    ensures Stores(c, s, StoreFile(c, s, task, key, bytes), task, s.tasks[task].row, key, bytes)
  {
  }

  /** Files change only when a worker stores the bytes it has read and checked. */
  lemma {:induction false} FilesChangeOnlyByStoring(c: Config, s: State, step: Step)
    ensures var s' := Next(c, s, step);
            if step.Advance? && step.task in s.tasks && s.tasks[step.task].stage.StagedRead?
            then Stores(c, s, s', step.task, s.tasks[step.task].row, s.tasks[step.task].stage.key, s.tasks[step.task].stage.bytes)
            else s'.files == s.files
  {
    if step.Advance? && step.task in s.tasks {
      var stage := s.tasks[step.task].stage;
      assert Next(c, s, step) == AdvanceTask(c, s, step.task, step.newId);
      if stage.StagedRead? {
        assert Next(c, s, step) == StoreFile(c, s, step.task, stage.key, stage.bytes);
        StoreFileStores(c, s, step.task, stage.key, stage.bytes);
      }
    }
  }

  // ---------- What is outside recovery ----------

  function PaymentAt(payments: map<Id, Payment>, p: Id): Option<Payment> { if p in payments then Some(payments[p]) else None }

  lemma AdvanceLeavesOutside(c: Config, s: State, task: TaskId, newId: AttachmentId)
    requires task in s.tasks
    ensures AdvanceTask(c, s, task, newId).now == s.now && AdvanceTask(c, s, task, newId).payments == s.payments
  {
    var stage := s.tasks[task].stage;
    if stage.Ready? { assert AdvanceTask(c, s, task, newId) == Persist(s, task, stage.key, stage.size, newId); }
  }

  /** The clock moves only by ticks, and a payment changes only by its own step; neither touches a worker. */
  lemma {:induction false} OutsideChangesOnlyBySteps(c: Config, s: State, step: Step)
    ensures var s' := Next(c, s, step);
            && s'.now == s.now + (if step.Tick? then step.seconds else 0)
            && (forall p :: PaymentAt(s'.payments, p)
                         == if step.PaymentChange? && step.payment == p then step.row else PaymentAt(s.payments, p))
            && (step.Tick? || step.PaymentChange? ==> s'.tasks == s.tasks)
            && (step.Error? && step.task in s.tasks ==> s'.tasks == s.tasks[step.task := s.tasks[step.task].(stage := Failing)])
            && (step.Crash? ==> s'.tasks == s.tasks - {step.task})
  {
    if step.Advance? && step.task in s.tasks {
      assert Next(c, s, step) == AdvanceTask(c, s, step.task, step.newId);
      AdvanceLeavesOutside(c, s, step.task, step.newId);
    }
  }
}
