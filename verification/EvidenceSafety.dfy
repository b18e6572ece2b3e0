/** What every reachable state of the evidence-recovery protocol satisfies, for any workers, crashes and delays. */
module EvidenceSafety {
  import opened Sums
  import opened EvidenceRecovery

  // ---------- Where an operation's bytes may live ----------

  predicate SameCommand(a: Operation, b: Operation) {
    && a.payment == b.payment && a.order == b.order && a.uploader == b.uploader
    && a.idempotencyKey == b.idempotencyKey && a.sourceHash == b.sourceHash && a.preparedHash == b.preparedHash
    && a.originalName == b.originalName && a.mimeType == b.mimeType && a.size == b.size
  }

  /** The private keys an operation can promote to: the promised one, and the one an exclusive save produces. */
  function PrivateKeys(o: Operation): set<Key> {
    if Target(o).None? then {}
    else set k | k in {Target(o).value, PrivateKey(o.order, Target(o).value.filename)} && k.area.Private?
  }

  function OwnKeys(o: Operation): set<Key> {
    PrivateKeys(o) + (if o.stagingKey.Some? then {o.stagingKey.value} else {})
  }

  predicate OriginalKeys(o0: Operation, o: Operation) {
    o.stagingKey == o0.stagingKey && o.promotedKey == o0.promotedKey
  }

  predicate Checkpointed(o0: Operation, o: Operation) {
    o.stagingKey.None? && o.promotedKey.Some? && o.promotedKey.value in PrivateKeys(o0)
  }

  /** A file under k that passes the recorded size and digest. */
  predicate Holds(c: Config, o: Operation, files: map<Key, Bytes>, k: Key) {
    k in files && Matches(c, o, files[k])
  }

  // ---------- Start states ----------

  predicate EvidenceUnique(attachments: map<AttachmentId, Attachment>) {
    forall a, b | a in attachments && b in attachments && a != b ::
      && attachments[a].idempotencyKey.Some?
      && attachments[a].payment == attachments[b].payment && attachments[a].uploader == attachments[b].uploader
      ==> attachments[a].idempotencyKey != attachments[b].idempotencyKey
  }

  predicate OneActiveProof(attachments: map<AttachmentId, Attachment>) {
    forall a, b | a in attachments && b in attachments && a != b ::
      && attachments[a].kind.PaymentProof? && attachments[b].kind.PaymentProof?
      && attachments[a].deletedAt.None? && attachments[b].deletedAt.None?
      ==> attachments[a].payment != attachments[b].payment
  }

  /** The unique indexes hold, staging names are unique, and recovery has not started. */
  ghost predicate Start(s: State) {
    && s.tasks == map[] && s.audits == [] && s.outbox == [] && s.inserted == [] && s.claims == []
    && EvidenceUnique(s.attachments)
    && (forall p, q | p in s.ops && q in s.ops && p != q :: OwnKeys(s.ops[p]) !! OwnKeys(s.ops[q]))
    && (forall p, q | p in s.ops && q in s.ops && p != q ::
          s.ops[p].payment == s.ops[q].payment && s.ops[p].uploader == s.ops[q].uploader
          ==> s.ops[p].idempotencyKey != s.ops[q].idempotencyKey)
  }

  // ---------- The invariant ----------

  ghost predicate RowOk(c: Config, o0: Operation, o: Operation, files: map<Key, Bytes>,
                        attachments: map<AttachmentId, Attachment>)
  {
    && SameCommand(o0, o)
    && (o0.status.Completed? ==> o == o0)
    && (!o0.status.Completed? && o.status.Completed? ==>
          && o.leaseUntil.None? && o.stagingKey.None? && o.promotedKey.None?
          && o.attachment.Some? && o.attachment.value in attachments
          && SameEvidence(attachments[o.attachment.value], o0)
          && Holds(c, o0, files, attachments[o.attachment.value].storagePath)
          && attachments[o.attachment.value].storagePath in PrivateKeys(o0))
    && (!o.status.Completed? ==>
          OriginalKeys(o0, o) || (Checkpointed(o0, o) && Holds(c, o0, files, o.promotedKey.value)))
  }

  ghost predicate RowsOk(c: Config, ops0: map<OpId, Operation>, ops: map<OpId, Operation>, files: map<Key, Bytes>,
                         attachments: map<AttachmentId, Attachment>)
  {
    ops.Keys == ops0.Keys && forall p | p in ops0 :: RowOk(c, ops0[p], ops[p], files, attachments)
  }

  /** The promised key is still free for as long as the staging file could be renamed onto it. */
  predicate FreeTarget(c: Config, o: Operation, key: Key, files: map<Key, Bytes>) {
    && RowValid(o) && Target(o) == Some(key)
    && (c.hasMove && o.stagingKey.Some? && o.stagingKey.value in files ==> key !in files)
  }

  ghost predicate StageOk(c: Config, o0: Operation, row: Operation, stage: Stage, files: map<Key, Bytes>) {
    match stage
    case Claimed => true
    case TargetFound(key) => key in PrivateKeys(o0)
    case TargetMissing(key) => FreeTarget(c, row, key, files)
    case StagingFound(key) => FreeTarget(c, row, key, files)
    case StagedRead(key, bytes) =>
      && FreeTarget(c, row, key, files) && row.stagingKey.Some? && Matches(c, o0, bytes)
      && (row.stagingKey.value in files ==> files[row.stagingKey.value] == bytes)
    case Stored(key) => key in PrivateKeys(o0)
    case Verified(key, size) => key in PrivateKeys(o0) && Holds(c, o0, files, key) && size == o0.size
    case Ready(key, size) => key in PrivateKeys(o0) && Holds(c, o0, files, key) && size == o0.size
    case Failing => true
  }

  ghost predicate TaskOk(c: Config, ops0: map<OpId, Operation>, t: Task, files: map<Key, Bytes>) {
    && t.op in ops0 && !ops0[t.op].status.Completed? && !t.row.status.Completed?
    && SameCommand(ops0[t.op], t.row)
    && (OriginalKeys(ops0[t.op], t.row) || Checkpointed(ops0[t.op], t.row))
    && StageOk(c, ops0[t.op], t.row, t.stage, files)
  }

  ghost predicate TasksOk(c: Config, ops0: map<OpId, Operation>, tasks: map<TaskId, Task>, files: map<Key, Bytes>) {
    forall t | t in tasks :: TaskOk(c, ops0, tasks[t], files)
  }

  ghost predicate StagedOrPromoted(c: Config, o: Operation, files0: map<Key, Bytes>, files: map<Key, Bytes>) {
    o.stagingKey.Some? && o.stagingKey.value.area.Staging? && o.stagingKey.value in files0 ==>
      || (o.stagingKey.value in files && files[o.stagingKey.value] == files0[o.stagingKey.value])
      || (Target(o).Some? && Holds(c, o, files, Target(o).value) && Target(o).value.area.Private?)
  }

  /** Staging files never change; one that is gone left its verified bytes at the promised key. */
  ghost predicate FilesOk(c: Config, ops0: map<OpId, Operation>, files0: map<Key, Bytes>, files: map<Key, Bytes>) {
    && (forall k | k in files && k.area.Staging? :: k in files0 && files[k] == files0[k])
    && (forall p | p in ops0 :: StagedOrPromoted(c, ops0[p], files0, files))
  }

  ghost predicate InsertionOk(c: Config, s0: State, e: Insertion, audit: AuditRow, event: OutboxRow,
                              attachments: map<AttachmentId, Attachment>, files: map<Key, Bytes>)
  {
    && e.op in s0.ops && e.attachment in attachments && e.attachment !in s0.attachments
    && var o, a := s0.ops[e.op], attachments[e.attachment];
    && SameEvidence(a, o) && Describes(a, o)
    && a.storagePath in PrivateKeys(o) && Holds(c, o, files, a.storagePath)
    && audit == AuditRow(o.order, o.uploader, e.op)
    && event.cause == e.op && event.attachment == e.attachment && event.payment == o.payment
    && event.order == o.order && event.actor == o.uploader && AllReplaced(event.replaced, o.payment, attachments)
  }

  /** The attachment row carries what the operation recorded about the file, and its name under the private area. */
  predicate Describes(a: Attachment, o: Operation) {
    && a.order == o.order && a.kind.PaymentProof? && a.size == o.size && a.contentHash == o.sourceHash
    && a.originalName == o.originalName && a.mimeType == o.mimeType && a.filename == a.storagePath.filename
  }

  /** Proofs of the payment that are no longer active. */
  ghost predicate AllReplaced(replaced: set<AttachmentId>, payment: Id, attachments: map<AttachmentId, Attachment>) {
    forall r | r in replaced :: r in attachments && attachments[r].payment == payment && attachments[r].kind.PaymentProof?
                             && attachments[r].deletedAt.Some?
  }

  ghost predicate Logged(inserted: seq<Insertion>, a: AttachmentId) {
    exists i :: 0 <= i < |inserted| && inserted[i].attachment == a
  }

  ghost predicate LogsOk(c: Config, s0: State, inserted: seq<Insertion>, audits: seq<AuditRow>, outbox: seq<OutboxRow>,
                         attachments: map<AttachmentId, Attachment>, files: map<Key, Bytes>)
  {
    && |audits| == |outbox| == |inserted|
    && (forall i | 0 <= i < |inserted| :: InsertionOk(c, s0, inserted[i], audits[i], outbox[i], attachments, files))
    && (forall i, j | 0 <= i < j < |inserted| :: inserted[i].op != inserted[j].op)
    && (forall a | a in attachments :: a in s0.attachments || Logged(inserted, a))
  }

  /** Rows are only added or superseded: nothing but the deletion date ever changes, and it is set once. */
  predicate OnlySuperseded(a: Attachment, b: Attachment) {
    b.(deletedAt := None) == a.(deletedAt := None) && (a.deletedAt.Some? ==> b == a)
  }

  predicate Superseding(earlier: map<AttachmentId, Attachment>, later: map<AttachmentId, Attachment>) {
    forall a | a in earlier :: a in later && OnlySuperseded(earlier[a], later[a])
  }

  ghost predicate AttachmentsOk(attachments0: map<AttachmentId, Attachment>, attachments: map<AttachmentId, Attachment>) {
    && EvidenceUnique(attachments)
    && (OneActiveProof(attachments0) ==> OneActiveProof(attachments))
    && Superseding(attachments0, attachments)
  }

  function Claims(claims: seq<ClaimRecord>, op: OpId): nat {
    if claims == [] then 0
    else Claims(claims[..|claims| - 1], op) + if claims[|claims| - 1].op == op then 1 else 0
  }

  ghost predicate AttemptsOk(ops0: map<OpId, Operation>, ops: map<OpId, Operation>, claims: seq<ClaimRecord>, now: int) {
    && (forall p | p in ops0 && p in ops ::
          && ops[p].attempts == ops0[p].attempts + Claims(claims, p)
          && ops[p].attempts <= Max(ops0[p].attempts, MAX_ATTEMPTS))
    && (forall i | 0 <= i < |claims| ::
          claims[i].op in ops && claims[i].at <= now && claims[i].at <= ops[claims[i].op].updatedAt)
    && Paced(claims)
  }

  /** Two claims of one operation are at least the quiet period apart. */
  ghost predicate Paced(claims: seq<ClaimRecord>) {
    forall i, j | 0 <= i < j < |claims| && claims[i].op == claims[j].op :: claims[j].at - claims[i].at >= QUIET_SECONDS
  }

  ghost predicate Inv(c: Config, s0: State, s: State) {
    && RowsOk(c, s0.ops, s.ops, s.files, s.attachments)
    && TasksOk(c, s0.ops, s.tasks, s.files)
    && FilesOk(c, s0.ops, s0.files, s.files)
    && LogsOk(c, s0, s.inserted, s.audits, s.outbox, s.attachments, s.files)
    && AttachmentsOk(s0.attachments, s.attachments)
    && AttemptsOk(s0.ops, s.ops, s.claims, s.now)
  }

  // ---------- Each kind of effect keeps its part ----------

  lemma ClaimsAppend(claims: seq<ClaimRecord>, r: ClaimRecord)
    ensures forall p :: Claims(claims + [r], p) == Claims(claims, p) + if r.op == p then 1 else 0
  {
  }

  lemma AttemptsAfterClaim(ops0: map<OpId, Operation>, ops: map<OpId, Operation>, claims: seq<ClaimRecord>, now: int,
                           op: OpId)
    requires ops.Keys == ops0.Keys && AttemptsOk(ops0, ops, claims, now) && op in ops && Recoverable(ops[op], now)
    ensures AttemptsOk(ops0, ops[op := ClaimedRow(ops[op], now)], claims + [ClaimRecord(op, now)], now)
  {
    ClaimsAppend(claims, ClaimRecord(op, now));
    PacedAppend(claims, ClaimRecord(op, now));
  }

  lemma PacedAppend(claims: seq<ClaimRecord>, r: ClaimRecord)
    requires Paced(claims)
    requires forall i | 0 <= i < |claims| && claims[i].op == r.op :: r.at - claims[i].at >= QUIET_SECONDS
    ensures Paced(claims + [r])
  {
  }

  /** Any other update of a row stamps it with the current time and leaves its attempts alone. */
  lemma AttemptsAfterUpdate(ops0: map<OpId, Operation>, ops: map<OpId, Operation>, claims: seq<ClaimRecord>, now: int,
                            op: OpId, o: Operation)
    requires AttemptsOk(ops0, ops, claims, now) && op in ops && o.attempts == ops[op].attempts && o.updatedAt == now
    ensures AttemptsOk(ops0, ops[op := o], claims, now)
  {
  }

  lemma RowsAfterUpdate(c: Config, ops0: map<OpId, Operation>, ops: map<OpId, Operation>, files: map<Key, Bytes>,
                        attachments: map<AttachmentId, Attachment>, op: OpId, o: Operation)
    requires RowsOk(c, ops0, ops, files, attachments) && op in ops && RowOk(c, ops0[op], o, files, attachments)
    ensures RowsOk(c, ops0, ops[op := o], files, attachments)
  {
  }

  lemma TasksAfterUpdate(c: Config, ops0: map<OpId, Operation>, tasks: map<TaskId, Task>, files: map<Key, Bytes>,
                         task: TaskId, t: Task)
    requires TasksOk(c, ops0, tasks, files) && TaskOk(c, ops0, t, files)
    ensures TasksOk(c, ops0, tasks[task := t], files)
  {
  }

  lemma ClaimKeeps(c: Config, s0: State, s: State, op: OpId, task: TaskId)
    requires Inv(c, s0, s)
    ensures Inv(c, s0, ClaimOp(s, op, task))
  {
    if op in s.ops && task !in s.tasks && Recoverable(s.ops[op], s.now) {
      var row := ClaimedRow(s.ops[op], s.now);
      AttemptsAfterClaim(s0.ops, s.ops, s.claims, s.now, op);
      ClaimedRowOk(c, s0.ops[op], s.ops[op], s.now, s.files, s.attachments);
      RowsAfterUpdate(c, s0.ops, s.ops, s.files, s.attachments, op, row);
      TasksAfterUpdate(c, s0.ops, s.tasks, s.files, task, Task(op, row, Claimed));
    }
  }

  lemma ClaimedRowOk(c: Config, o0: Operation, o: Operation, now: int, files: map<Key, Bytes>,
                     attachments: map<AttachmentId, Attachment>)
    requires RowOk(c, o0, o, files, attachments) && Recoverable(o, now)
    ensures RowOk(c, o0, ClaimedRow(o, now), files, attachments)
    ensures !o0.status.Completed? && !ClaimedRow(o, now).status.Completed? && SameCommand(o0, ClaimedRow(o, now))
    ensures OriginalKeys(o0, ClaimedRow(o, now)) || Checkpointed(o0, ClaimedRow(o, now))
  {
  }

  /** A change of one task's stage alone. */
  lemma StageChangeKeeps(c: Config, s0: State, s: State, task: TaskId, stage: Stage)
    requires Inv(c, s0, s) && task in s.tasks
    requires StageOk(c, s0.ops[s.tasks[task].op], s.tasks[task].row, stage, s.files)
    ensures Inv(c, s0, At(s, task, stage))
  {
  }

  /** Everything outside the staging area is still there, byte for byte. */
  predicate Kept(files: map<Key, Bytes>, later: map<Key, Bytes>) {
    forall k | k in files && !k.area.Staging? :: k in later && later[k] == files[k]
  }

  lemma RowsAfterStore(c: Config, ops0: map<OpId, Operation>, ops: map<OpId, Operation>, files: map<Key, Bytes>,
                       attachments: map<AttachmentId, Attachment>, later: map<Key, Bytes>)
    requires RowsOk(c, ops0, ops, files, attachments) && Kept(files, later)
    ensures RowsOk(c, ops0, ops, later, attachments)
  {
  }

  lemma LogsAfterStore(c: Config, s0: State, inserted: seq<Insertion>, audits: seq<AuditRow>, outbox: seq<OutboxRow>,
                       attachments: map<AttachmentId, Attachment>, files: map<Key, Bytes>, later: map<Key, Bytes>)
    requires LogsOk(c, s0, inserted, audits, outbox, attachments, files) && Kept(files, later)
    ensures LogsOk(c, s0, inserted, audits, outbox, attachments, later)
  {
  }

  lemma TasksAfterStore(c: Config, s0: State, tasks: map<TaskId, Task>, files: map<Key, Bytes>, later: map<Key, Bytes>,
                        op: OpId, key: Key)
    requires Start(s0) && TasksOk(c, s0.ops, tasks, files) && Kept(files, later)
    requires op in s0.ops && key in PrivateKeys(s0.ops[op])
    requires forall k | k in later :: k in files || k == key
    requires forall k | k in later && k.area.Staging? :: k in files && later[k] == files[k]
    requires c.hasMove && s0.ops[op].stagingKey.Some? ==> s0.ops[op].stagingKey.value !in later
    ensures TasksOk(c, s0.ops, tasks, later)
  {
    forall t | t in tasks ensures TaskOk(c, s0.ops, tasks[t], later) {
      var k := tasks[t];
      assert TaskOk(c, s0.ops, k, files);
      if k.stage.TargetMissing? || k.stage.StagingFound? || k.stage.StagedRead? {
        FreeTargetAfterStore(c, s0, k, files, later, op, key);
      }
    }
  }

  /** Only the operation's own store could occupy its promised key, and that one has used up the staging file. */
  lemma FreeTargetAfterStore(c: Config, s0: State, t: Task, files: map<Key, Bytes>, later: map<Key, Bytes>, op: OpId, key: Key)
    requires Start(s0) && op in s0.ops && key in PrivateKeys(s0.ops[op])
    requires t.op in s0.ops && SameCommand(s0.ops[t.op], t.row)
    requires OriginalKeys(s0.ops[t.op], t.row) || Checkpointed(s0.ops[t.op], t.row)
    requires t.stage.TargetMissing? || t.stage.StagingFound? || t.stage.StagedRead?
    requires FreeTarget(c, t.row, t.stage.key, files)
    requires forall k | k in later :: k in files || k == key
    requires c.hasMove && s0.ops[op].stagingKey.Some? ==> s0.ops[op].stagingKey.value !in later
    ensures FreeTarget(c, t.row, t.stage.key, later)
  {
  }

  lemma FilesAfterStore(c: Config, s0: State, files: map<Key, Bytes>, later: map<Key, Bytes>, op: OpId, key: Key)
    requires Start(s0) && FilesOk(c, s0.ops, s0.files, files) && Kept(files, later)
    requires op in s0.ops && key.area.Private?
    requires forall k | k in later && k.area.Staging? :: k in files && later[k] == files[k]
    requires forall k | k in files && k.area.Staging? :: k in later || s0.ops[op].stagingKey == Some(k)
    requires StagedOrPromoted(c, s0.ops[op], s0.files, later)
    ensures FilesOk(c, s0.ops, s0.files, later)
  {
  }

  /** The file part of a store: nothing is overwritten, and a renamed staging file was the verified one. */
  lemma StoreOverwritesNothing(c: Config, o0: Operation, o: Operation, key: Key, bytes: Bytes,
                               files0: map<Key, Bytes>, files: map<Key, Bytes>)
    requires SameCommand(o0, o) && (OriginalKeys(o0, o) || Checkpointed(o0, o))
    requires StageOk(c, o0, o, StagedRead(key, bytes), files)
    requires StagedOrPromoted(c, o0, files0, files)
    requires forall k | k in files && k.area.Staging? :: k in files0 && files[k] == files0[k]
    ensures var (later, stage) := Store(c, o, key, bytes, files);
            && Kept(files, later) && StagedOrPromoted(c, o0, files0, later)
            && (stage.Failing? || (stage.Stored? && stage.key in PrivateKeys(o0)))
            && (stage.Failing? ==> later == files)
            && (stage.Stored? ==> forall k | k in later :: k in files || k == stage.key)
            && (forall k | k in later && k.area.Staging? :: k in files && later[k] == files[k])
            && (forall k | k in files && k.area.Staging? :: k in later || o0.stagingKey == Some(k))
            && (stage.Stored? && c.hasMove ==> o0.stagingKey.value !in later)
  {
  }

  lemma StoredKeeps(c: Config, s0: State, s: State, task: TaskId, later: map<Key, Bytes>, key: Key)
    requires Start(s0) && Inv(c, s0, s) && task in s.tasks && s.tasks[task].op in s0.ops
    requires TaskOk(c, s0.ops, s.tasks[task], s.files) && key in PrivateKeys(s0.ops[s.tasks[task].op])
    requires Kept(s.files, later) && StagedOrPromoted(c, s0.ops[s.tasks[task].op], s0.files, later)
    requires forall k | k in later :: k in s.files || k == key
    requires forall k | k in later && k.area.Staging? :: k in s.files && later[k] == s.files[k]
    requires forall k | k in s.files && k.area.Staging? :: k in later || s0.ops[s.tasks[task].op].stagingKey == Some(k)
    requires c.hasMove && s0.ops[s.tasks[task].op].stagingKey.Some? ==> s0.ops[s.tasks[task].op].stagingKey.value !in later
    ensures Inv(c, s0, At(s.(files := later), task, Stored(key)))
  {
    var t := s.tasks[task];
    RowsAfterStore(c, s0.ops, s.ops, s.files, s.attachments, later);
    LogsAfterStore(c, s0, s.inserted, s.audits, s.outbox, s.attachments, s.files, later);
    TasksAfterStore(c, s0, s.tasks, s.files, later, t.op, key);
    TasksAfterUpdate(c, s0.ops, s.tasks, later, task, t.(stage := Stored(key)));
    FilesAfterStore(c, s0, s.files, later, t.op, key);
  }

  lemma StoreKeeps(c: Config, s0: State, s: State, task: TaskId, key: Key, bytes: Bytes)
    requires Start(s0) && Inv(c, s0, s) && task in s.tasks && s.tasks[task].stage == StagedRead(key, bytes)
    ensures Inv(c, s0, StoreFile(c, s, task, key, bytes))
    ensures Kept(s.files, StoreFile(c, s, task, key, bytes).files)
  {
    var t := s.tasks[task];
    var o0 := s0.ops[t.op];
    assert TaskOk(c, s0.ops, t, s.files);
    assert StagedOrPromoted(c, o0, s0.files, s.files);
    StoreOverwritesNothing(c, o0, t.row, key, bytes, s0.files, s.files);
    var (later, stage) := Store(c, t.row, key, bytes, s.files);
    assert StoreFile(c, s, task, key, bytes) == At(s.(files := later), task, stage);
    if stage.Failing? {
      assert StoreFile(c, s, task, key, bytes) == At(s, task, Failing);
      StageChangeKeeps(c, s0, s, task, Failing);
    } else {
      StoredKeeps(c, s0, s, task, later, stage.key);
    }
  }

  // ---------- Reading, checkpointing and releasing ----------

  /** The purely reading stages only claim what they have just seen. */
  lemma ReadsAreSound(c: Config, o0: Operation, o: Operation, stage: Stage, files: map<Key, Bytes>)
    requires SameCommand(o0, o) && (OriginalKeys(o0, o) || Checkpointed(o0, o)) && StageOk(c, o0, o, stage, files)
    requires Looking(stage)
    ensures StageOk(c, o0, o, Look(c, o, stage, files), files)
  {
  }

  lemma ReadKeeps(c: Config, s0: State, s: State, task: TaskId)
    requires Inv(c, s0, s) && task in s.tasks && Looking(s.tasks[task].stage)
    ensures Inv(c, s0, At(s, task, Look(c, s.tasks[task].row, s.tasks[task].stage, s.files)))
  {
    var t := s.tasks[task];
    assert TaskOk(c, s0.ops, t, s.files);
    ReadsAreSound(c, s0.ops[t.op], t.row, t.stage, s.files);
    StageChangeKeeps(c, s0, s, task, Look(c, t.row, t.stage, s.files));
  }

  /** The checkpointed row records the verified key, and its worker may go on to persist it. */
  lemma CheckpointIsSound(c: Config, s0: State, s: State, task: TaskId, key: Key, size: nat)
    requires Inv(c, s0, s) && task in s.tasks && s.tasks[task].stage == Verified(key, size)
    ensures var t := s.tasks[task];
            && TaskOk(c, s0.ops, t, s.files) && t.op in s.ops && RowOk(c, s0.ops[t.op], s.ops[t.op], s.files, s.attachments)
            && TaskOk(c, s0.ops, t.(stage := Ready(key, size)), s.files)
            && (s.ops[t.op].leaseUntil.Some? ==>
                  RowOk(c, s0.ops[t.op], s.ops[t.op].(status := Promoted, stagingKey := None, promotedKey := Some(key),
                                                      updatedAt := s.now), s.files, s.attachments))
  {
  }

  lemma LiveCheckpointKeeps(c: Config, s0: State, s: State, task: TaskId, key: Key, size: nat, o: Operation)
    requires Inv(c, s0, s) && task in s.tasks && s.tasks[task].op in s0.ops
    requires TaskOk(c, s0.ops, s.tasks[task].(stage := Ready(key, size)), s.files)
    requires RowOk(c, s0.ops[s.tasks[task].op], o, s.files, s.attachments)
    requires o.attempts == s.ops[s.tasks[task].op].attempts && o.updatedAt == s.now
    ensures Inv(c, s0, At(s.(ops := s.ops[s.tasks[task].op := o]), task, Ready(key, size)))
  {
    var t := s.tasks[task];
    AttemptsAfterUpdate(s0.ops, s.ops, s.claims, s.now, t.op, o);
    RowsAfterUpdate(c, s0.ops, s.ops, s.files, s.attachments, t.op, o);
    TasksAfterUpdate(c, s0.ops, s.tasks, s.files, task, t.(stage := Ready(key, size)));
  }

  lemma CheckpointKeeps(c: Config, s0: State, s: State, task: TaskId, key: Key, size: nat)
    requires Inv(c, s0, s) && task in s.tasks && s.tasks[task].stage == Verified(key, size)
    ensures Inv(c, s0, Checkpoint(s, task, key, size))
  {
    var op := s.tasks[task].op;
    CheckpointIsSound(c, s0, s, task, key, size);
    var s' := Checkpoint(s, task, key, size);
    if s.ops[op].leaseUntil.Some? && s.ops[op].leaseUntil.value > s.now {
      var o := s.ops[op].(status := Promoted, stagingKey := None, promotedKey := Some(key), updatedAt := s.now);
      assert s' == At(s.(ops := s.ops[op := o]), task, Ready(key, size));
      LiveCheckpointKeeps(c, s0, s, task, key, size, o);
    } else {
      assert s' == At(s, task, Failing);
      StageChangeKeeps(c, s0, s, task, Failing);
    }
  }

  lemma CloseKeeps(c: Config, s0: State, s: State, task: TaskId)
    requires Inv(c, s0, s)
    ensures Inv(c, s0, Close(s, task))
  {
  }

  lemma ReleaseKeeps(c: Config, s0: State, s: State, task: TaskId)
    requires Inv(c, s0, s) && task in s.tasks
    ensures Inv(c, s0, Release(s, task))
  {
    var t := s.tasks[task];
    assert TaskOk(c, s0.ops, t, s.files);
    CloseKeeps(c, s0, s, task);
    if !s.ops[t.op].status.Completed? {
      var o := s.ops[t.op].(leaseUntil := None, updatedAt := s.now);
      assert RowOk(c, s0.ops[t.op], s.ops[t.op], s.files, s.attachments);
      AttemptsAfterUpdate(s0.ops, s.ops, s.claims, s.now, t.op, o);
      RowsAfterUpdate(c, s0.ops, s.ops, s.files, s.attachments, t.op, o);
    }
  }

  // ---------- Persisting ----------

  lemma CompleteKeeps(c: Config, s0: State, s: State, task: TaskId, op: OpId, a: AttachmentId)
    requires Inv(c, s0, s) && op in s0.ops && !s0.ops[op].status.Completed?
    requires a in s.attachments && SameEvidence(s.attachments[a], s0.ops[op])
    requires s.attachments[a].storagePath in PrivateKeys(s0.ops[op])
    requires Holds(c, s0.ops[op], s.files, s.attachments[a].storagePath)
    ensures Inv(c, s0, Close(Complete(s, op, a), task))
  {
    var o := CompletedRow(s.ops[op], a, s.now);
    assert RowOk(c, s0.ops[op], s.ops[op], s.files, s.attachments);
    AttemptsAfterUpdate(s0.ops, s.ops, s.claims, s.now, op, o);
    RowsAfterUpdate(c, s0.ops, s.ops, s.files, s.attachments, op, o);
  }

  lemma RowsAfterInsert(c: Config, ops0: map<OpId, Operation>, ops: map<OpId, Operation>, files: map<Key, Bytes>,
                        attachments: map<AttachmentId, Attachment>, later: map<AttachmentId, Attachment>)
    requires RowsOk(c, ops0, ops, files, attachments) && Superseding(attachments, later)
    ensures RowsOk(c, ops0, ops, files, later)
  {
  }

  lemma ReplacedSupersedes(attachments: map<AttachmentId, Attachment>, previous: set<AttachmentId>, now: int,
                           newId: AttachmentId, row: Attachment)
    requires newId !in attachments
    requires forall a | a in previous && a in attachments :: attachments[a].deletedAt.None?
    ensures var later := Replaced(attachments, previous, now, newId, row);
            Superseding(attachments, later) && later[newId] == row && later.Keys == attachments.Keys + {newId}
  {
  }

  lemma ReplacedUnique(attachments: map<AttachmentId, Attachment>, previous: set<AttachmentId>, now: int,
                       newId: AttachmentId, row: Attachment)
    requires newId !in attachments && EvidenceUnique(attachments)
    requires forall a | a in attachments && attachments[a].payment == row.payment && attachments[a].uploader == row.uploader ::
               attachments[a].idempotencyKey != row.idempotencyKey
    ensures EvidenceUnique(Replaced(attachments, previous, now, newId, row))
  {
  }

  lemma ReplacedOneActive(attachments: map<AttachmentId, Attachment>, previous: set<AttachmentId>, now: int,
                          newId: AttachmentId, row: Attachment)
    requires newId !in attachments && OneActiveProof(attachments)
    requires forall a | a in attachments && attachments[a].kind.PaymentProof? && attachments[a].deletedAt.None? ::
               attachments[a].payment == row.payment ==> a in previous
    ensures OneActiveProof(Replaced(attachments, previous, now, newId, row))
  {
  }

  lemma ReplacedAreSuperseded(attachments: map<AttachmentId, Attachment>, previous: set<AttachmentId>, now: int,
                              newId: AttachmentId, row: Attachment, payment: Id)
    requires newId !in attachments
    requires forall a | a in previous :: a in attachments && attachments[a].payment == payment && attachments[a].kind.PaymentProof?
    ensures AllReplaced(previous, payment, Replaced(attachments, previous, now, newId, row))
  {
  }

  lemma NoOtherKey(s: State, o: Operation, row: Attachment)
    requires Prior(s, o) == {} && SameEvidence(row, o)
    ensures forall a | a in s.attachments && s.attachments[a].payment == row.payment && s.attachments[a].uploader == row.uploader ::
              s.attachments[a].idempotencyKey != row.idempotencyKey
  {
    forall a | a in s.attachments && s.attachments[a].payment == row.payment && s.attachments[a].uploader == row.uploader
      ensures s.attachments[a].idempotencyKey != row.idempotencyKey
    {
      assert a !in Prior(s, o);
    }
  }

  /** The new proof supersedes every active one and takes an evidence key nobody has. */
  lemma InsertIsSound(s: State, op: OpId, o: Operation, key: Key, size: nat, newId: AttachmentId)
    requires newId !in s.attachments && Prior(s, o) == {} && EvidenceUnique(s.attachments)
    ensures var later := InsertEvidence(s, op, o, key, size, newId).attachments;
            && Superseding(s.attachments, later) && EvidenceUnique(later)
            && later[newId] == NewAttachment(o, key, size)
            && later.Keys == s.attachments.Keys + {newId}
            && (OneActiveProof(s.attachments) ==> OneActiveProof(later))
            && AllReplaced(ActiveProofs(s, o.payment), o.payment, later)
  {
    var previous, row := ActiveProofs(s, o.payment), NewAttachment(o, key, size);
    NoOtherKey(s, o, row);
    ReplacedSupersedes(s.attachments, previous, s.now, newId, row);
    ReplacedUnique(s.attachments, previous, s.now, newId, row);
    ReplacedAreSuperseded(s.attachments, previous, s.now, newId, row, o.payment);
    if OneActiveProof(s.attachments) { ReplacedOneActive(s.attachments, previous, s.now, newId, row); }
    assert InsertEvidence(s, op, o, key, size, newId).attachments == Replaced(s.attachments, previous, s.now, newId, row);
  }

  /** An earlier insertion for this operation would have left a row that Prior finds. */
  lemma EarlierInsertions(c: Config, s0: State, s: State, op: OpId, o: Operation, later: map<AttachmentId, Attachment>, i: nat)
    requires LogsOk(c, s0, s.inserted, s.audits, s.outbox, s.attachments, s.files) && i < |s.inserted|
    requires Superseding(s.attachments, later) && op in s0.ops && SameCommand(s0.ops[op], o) && Prior(s, o) == {}
    ensures InsertionOk(c, s0, s.inserted[i], s.audits[i], s.outbox[i], later, s.files)
    ensures s.inserted[i].op != op
  {
    assert InsertionOk(c, s0, s.inserted[i], s.audits[i], s.outbox[i], s.attachments, s.files);
    var a := s.inserted[i].attachment;
    assert OnlySuperseded(s.attachments[a], later[a]);
    assert a !in Prior(s, o);
  }

  /** The three log entries of a new insertion, judged against the table it is inserted into. */
  lemma NewInsertionOk(c: Config, s0: State, s: State, op: OpId, o: Operation, key: Key, size: nat, newId: AttachmentId,
                       later: map<AttachmentId, Attachment>)
    requires newId !in s0.attachments && newId in later && later[newId] == NewAttachment(o, key, size)
    requires op in s0.ops && SameCommand(s0.ops[op], o) && size == s0.ops[op].size
    requires key in PrivateKeys(s0.ops[op]) && Holds(c, s0.ops[op], s.files, key)
    requires AllReplaced(ActiveProofs(s, o.payment), o.payment, later)
    ensures InsertionOk(c, s0, Insertion(op, newId), AuditRow(o.order, o.uploader, op),
                        OutboxRow(o.payment, o.order, o.uploader, newId, ActiveProofs(s, o.payment), op), later, s.files)
  {
  }

  lemma OneMoreLog(c: Config, s0: State, inserted: seq<Insertion>, audits: seq<AuditRow>, outbox: seq<OutboxRow>,
                   later: map<AttachmentId, Attachment>, files: map<Key, Bytes>, e: Insertion, audit: AuditRow, event: OutboxRow)
    requires |audits| == |outbox| == |inserted| && InsertionOk(c, s0, e, audit, event, later, files)
    requires forall i | 0 <= i < |inserted| :: InsertionOk(c, s0, inserted[i], audits[i], outbox[i], later, files)
    requires forall i | 0 <= i < |inserted| :: inserted[i].op != e.op
    requires forall i, j | 0 <= i < j < |inserted| :: inserted[i].op != inserted[j].op
    requires forall a | a in later :: a in s0.attachments || a == e.attachment || Logged(inserted, a)
    ensures LogsOk(c, s0, inserted + [e], audits + [audit], outbox + [event], later, files)
  {
    forall a | a in later ensures a in s0.attachments || Logged(inserted + [e], a) { LoggedAfter(inserted, e, a); }
  }

  lemma LogsAfterInsert(c: Config, s0: State, s: State, op: OpId, o: Operation, key: Key, size: nat, newId: AttachmentId)
    requires LogsOk(c, s0, s.inserted, s.audits, s.outbox, s.attachments, s.files)
    requires newId !in s.attachments && newId !in s0.attachments && Prior(s, o) == {} && EvidenceUnique(s.attachments)
    requires op in s0.ops && SameCommand(s0.ops[op], o) && size == s0.ops[op].size
    requires key in PrivateKeys(s0.ops[op]) && Holds(c, s0.ops[op], s.files, key)
    ensures var t := InsertEvidence(s, op, o, key, size, newId);
            LogsOk(c, s0, t.inserted, t.audits, t.outbox, t.attachments, s.files)
  {
    var later := InsertEvidence(s, op, o, key, size, newId).attachments;
    InsertIsSound(s, op, o, key, size, newId);
    NewInsertionOk(c, s0, s, op, o, key, size, newId, later);
    forall i: nat | i < |s.inserted|
      ensures InsertionOk(c, s0, s.inserted[i], s.audits[i], s.outbox[i], later, s.files)
      ensures s.inserted[i].op != op
    {
      EarlierInsertions(c, s0, s, op, o, later, i);
    }
    OneMoreLog(c, s0, s.inserted, s.audits, s.outbox, later, s.files, Insertion(op, newId), AuditRow(o.order, o.uploader, op),
      OutboxRow(o.payment, o.order, o.uploader, newId, ActiveProofs(s, o.payment), op));
  }

  lemma LoggedAfter(inserted: seq<Insertion>, e: Insertion, a: AttachmentId)
    ensures Logged(inserted, a) || a == e.attachment ==> Logged(inserted + [e], a)
  {
    if a == e.attachment {
      assert (inserted + [e])[|inserted|].attachment == a;
    } else if Logged(inserted, a) {
      var i :| 0 <= i < |inserted| && inserted[i].attachment == a;
      assert (inserted + [e])[i].attachment == a;
    }
  }

  lemma InsertKeeps(c: Config, s0: State, s: State, op: OpId, o: Operation, key: Key, size: nat, newId: AttachmentId)
    requires Inv(c, s0, s) && op in s0.ops && SameCommand(s0.ops[op], o) && size == s0.ops[op].size
    requires newId !in s.attachments && Prior(s, o) == {}
    requires key in PrivateKeys(s0.ops[op]) && Holds(c, s0.ops[op], s.files, key)
    ensures Inv(c, s0, InsertEvidence(s, op, o, key, size, newId))
  {
    InsertIsSound(s, op, o, key, size, newId);
    LogsAfterInsert(c, s0, s, op, o, key, size, newId);
    RowsAfterInsert(c, s0.ops, s.ops, s.files, s.attachments, InsertEvidence(s, op, o, key, size, newId).attachments);
  }

  /** A worker that is ready to persist names verified bytes of an operation that is still open at the start. */
  lemma ReadyIsSound(c: Config, ops0: map<OpId, Operation>, t: Task, files: map<Key, Bytes>)
    requires TaskOk(c, ops0, t, files) && t.stage.Ready?
    ensures t.op in ops0 && !ops0[t.op].status.Completed? && SameCommand(ops0[t.op], t.row)
    ensures t.stage.key in PrivateKeys(ops0[t.op]) && Holds(c, ops0[t.op], files, t.stage.key)
    ensures t.stage.size == ops0[t.op].size
  {
  }

  lemma ReadyTask(c: Config, s0: State, s: State, task: TaskId)
    requires Inv(c, s0, s) && task in s.tasks
    ensures TaskOk(c, s0.ops, s.tasks[task], s.files)
  {
  }

  /** Persisting evidence that is already there is a completion. */
  lemma ReplayKeeps(c: Config, s0: State, s: State, task: TaskId, a: AttachmentId)
    requires Inv(c, s0, s) && task in s.tasks && s.tasks[task].stage.Ready?
    requires a in Prior(s, s.tasks[task].row) && s.attachments[a].storagePath == s.tasks[task].stage.key
    ensures Inv(c, s0, Close(Complete(s, s.tasks[task].op, a), task))
  {
    ReadyTask(c, s0, s, task);
    ReadyIsSound(c, s0.ops, s.tasks[task], s.files);
    assert SameEvidence(s.attachments[a], s0.ops[s.tasks[task].op]);
    CompleteKeeps(c, s0, s, task, s.tasks[task].op, a);
  }

  lemma InsertAndCompleteKeeps(c: Config, s0: State, s: State, task: TaskId, key: Key, size: nat, newId: AttachmentId)
    requires Inv(c, s0, s) && task in s.tasks && s.tasks[task].stage == Ready(key, size)
    requires newId !in s.attachments && Prior(s, s.tasks[task].row) == {}
    ensures var t := s.tasks[task];
            Inv(c, s0, Close(Complete(InsertEvidence(s, t.op, t.row, key, size, newId), t.op, newId), task))
  {
    var t := s.tasks[task];
    ReadyTask(c, s0, s, task);
    ReadyIsSound(c, s0.ops, t, s.files);
    InsertKeeps(c, s0, s, t.op, t.row, key, size, newId);
    InsertIsSound(s, t.op, t.row, key, size, newId);
    CompleteKeeps(c, s0, InsertEvidence(s, t.op, t.row, key, size, newId), task, t.op, newId);
  }

  lemma PersistKeeps(c: Config, s0: State, s: State, task: TaskId, key: Key, size: nat, newId: AttachmentId)
    requires Inv(c, s0, s) && task in s.tasks && s.tasks[task].stage == Ready(key, size)
    ensures Inv(c, s0, Persist(s, task, key, size, newId))
  {
    var t := s.tasks[task];
    var s' := Persist(s, task, key, size, newId);
    if s' == At(s, task, Failing) {
      StageChangeKeeps(c, s0, s, task, Failing);
    } else if s' == s {
    } else if Prior(s, t.row) != {} {
      assert s' == Close(Complete(s, t.op, Least(Prior(s, t.row))), task);
      ReplayKeeps(c, s0, s, task, Least(Prior(s, t.row)));
    } else {
      assert s' == Close(Complete(InsertEvidence(s, t.op, t.row, key, size, newId), t.op, newId), task);
      InsertAndCompleteKeeps(c, s0, s, task, key, size, newId);
    }
  }

  // ---------- Every step, every run ----------

  lemma AdvanceKeeps(c: Config, s0: State, s: State, task: TaskId, newId: AttachmentId)
    requires Start(s0) && Inv(c, s0, s) && task in s.tasks
    ensures Inv(c, s0, AdvanceTask(c, s, task, newId))
  {
    var s' := AdvanceTask(c, s, task, newId);
    var stage := s.tasks[task].stage;
    if Looking(stage) {
      assert s' == At(s, task, Look(c, s.tasks[task].row, stage, s.files));
      ReadKeeps(c, s0, s, task);
    } else if stage.StagedRead? {
      assert s' == StoreFile(c, s, task, stage.key, stage.bytes);
      StoreKeeps(c, s0, s, task, stage.key, stage.bytes);
    } else if stage.Verified? {
      assert s' == Checkpoint(s, task, stage.key, stage.size);
      CheckpointKeeps(c, s0, s, task, stage.key, stage.size);
    } else if stage.Ready? {
      assert s' == Persist(s, task, stage.key, stage.size, newId);
      PersistKeeps(c, s0, s, task, stage.key, stage.size, newId);
    } else {
      assert s' == Release(s, task);
      ReleaseKeeps(c, s0, s, task);
    }
  }

  lemma QuietKeeps(c: Config, s0: State, s: State, step: Step)
    requires Inv(c, s0, s) && (step.Tick? || step.PaymentChange?)
    ensures Inv(c, s0, Next(c, s, step))
  {
  }

  lemma WorkerStepKeeps(c: Config, s0: State, s: State, step: Step)
    requires Start(s0) && Inv(c, s0, s) && (step.Advance? || step.Error?) && step.task in s.tasks
    ensures Inv(c, s0, Next(c, s, step))
  {
    if step.Advance? {
      assert Next(c, s, step) == AdvanceTask(c, s, step.task, step.newId);
      AdvanceKeeps(c, s0, s, step.task, step.newId);
    } else {
      assert Next(c, s, step) == At(s, step.task, Failing);
      StageChangeKeeps(c, s0, s, step.task, Failing);
    }
  }

  lemma NextKeeps(c: Config, s0: State, s: State, step: Step)
    requires Start(s0) && Inv(c, s0, s)
    ensures Inv(c, s0, Next(c, s, step))
  {
    var s' := Next(c, s, step);
    if step.Claim? {
      assert s' == ClaimOp(s, step.op, step.task);
      ClaimKeeps(c, s0, s, step.op, step.task);
    } else if step.Tick? || step.PaymentChange? {
      QuietKeeps(c, s0, s, step);
    } else if step.Crash? {
      assert s' == Close(s, step.task);
      CloseKeeps(c, s0, s, step.task);
    } else if step.task in s.tasks {
      WorkerStepKeeps(c, s0, s, step);
    } else {
      assert s' == s;
    }
  }

  lemma StartIsInv(c: Config, s0: State)
    requires Start(s0)
    ensures Inv(c, s0, s0)
  {
  }

  lemma {:induction false} RunKeeps(c: Config, s0: State, steps: seq<Step>)
    requires Start(s0)
    ensures Inv(c, s0, Run(c, s0, steps))
  {
    StartIsInv(c, s0);
    if steps != [] {
      RunKeeps(c, s0, steps[..|steps| - 1]);
      NextKeeps(c, s0, Run(c, s0, steps[..|steps| - 1]), steps[|steps| - 1]);
    }
  }
}
