/**
 The crash-recovery protocol for payment-evidence uploads: operation rows with a lease and an
 attempt counter, a file store with a staging and a private area, and the attachment, audit and
 outbox tables. Any number of workers hold tasks; every await of a worker is one atomic step.
 Times are in seconds.
 */
module EvidenceRecovery {
  import opened Sums

  type OpId = nat
  type TaskId = nat
  type AttachmentId = nat
  type Id = string
  type Bytes = seq<bv8>

  const LEASE_SECONDS := 300
  const QUIET_SECONDS := 300
  const MAX_ATTEMPTS := 5
  const MAX_SAFE_INTEGER := 9007199254740991
  const DIRECTORY := "sale-order-attachments"

  // ---------- Files ----------

  datatype Area = Private | Staging | Elsewhere

  /** A normalised storage key: area, directory segments, file name. */
  datatype Key = Key(area: Area, dir: seq<string>, filename: string)

  /** What is fixed about the file store: the digest and whether it offers a move operation. */
  datatype Config = Config(hash: Bytes -> string, hasMove: bool)

  predicate Under(k: Key, area: Area, order: Id) {
    k.area == area && |k.dir| >= 2 && k.dir[..2] == [DIRECTORY, order]
  }

  function PrivateKey(order: Id, filename: string): Key { Key(Private, [DIRECTORY, order], filename) }

  // ---------- Rows ----------

  datatype Status = Preparing | Staged | Promoted | Completed | Failed | Quarantined

  datatype Operation = Operation(
    payment: Id, order: Id, uploader: Id, idempotencyKey: Id,
    sourceHash: string, preparedHash: Option<string>, originalName: string, mimeType: string, size: int,
    status: Status, stagingKey: Option<Key>, promotedKey: Option<Key>, attachment: Option<AttachmentId>,
    leaseUntil: Option<int>, attempts: nat, updatedAt: int)

  datatype Kind = PaymentProof | OtherKind

  datatype Attachment = Attachment(
    order: Id, payment: Id, kind: Kind, filename: string, originalName: string, mimeType: string, size: int,
    storagePath: Key, uploader: Id, idempotencyKey: Option<Id>, contentHash: string, deletedAt: Option<int>)

  /** A payment joined with its order: its status and whether the order is active. */
  datatype Payment = Payment(order: Id, pending: bool, orderActive: bool)

  /** cause is bookkeeping of the model: the operation whose recovery wrote the row. */
  datatype AuditRow = AuditRow(order: Id, executedBy: Id, cause: OpId)
  datatype OutboxRow = OutboxRow(payment: Id, order: Id, actor: Id, attachment: AttachmentId,
                                 replaced: set<AttachmentId>, cause: OpId)

  // ---------- Workers ----------

  /** Where a worker stands with one claimed operation. */
  datatype Stage =
    | Claimed
    | TargetFound(key: Key)
    | TargetMissing(key: Key)
    | StagingFound(key: Key)
    | StagedRead(key: Key, bytes: Bytes)
    | Stored(key: Key)
    | Verified(key: Key, size: nat)
    | Ready(key: Key, size: nat)
    | Failing

  /** A claimed operation with the row as the claim returned it. */
  datatype Task = Task(op: OpId, row: Operation, stage: Stage)

  datatype Insertion = Insertion(op: OpId, attachment: AttachmentId)
  datatype ClaimRecord = ClaimRecord(op: OpId, at: int)

  /** Tables, files and workers; inserted and claims log what recovery did since the start. */
  datatype State = State(
    now: int, ops: map<OpId, Operation>, files: map<Key, Bytes>, attachments: map<AttachmentId, Attachment>,
    audits: seq<AuditRow>, outbox: seq<OutboxRow>, payments: map<Id, Payment>, tasks: map<TaskId, Task>,
    inserted: seq<Insertion>, claims: seq<ClaimRecord>)

  datatype Step =
    | Claim(op: OpId, task: TaskId)
    | Advance(task: TaskId, newId: AttachmentId)
    | Error(task: TaskId)
    | Crash(task: TaskId)
    | Tick(seconds: nat)
    | PaymentChange(payment: Id, row: Option<Payment>)

  // ---------- Claiming ----------

  predicate Recoverable(o: Operation, now: int) {
    && (o.status.Staged? || o.status.Promoted? || o.status.Failed?)
    && (o.stagingKey.Some? || o.promotedKey.Some?)
    && o.attempts < MAX_ATTEMPTS
    && o.updatedAt <= now - QUIET_SECONDS
    && (o.leaseUntil.None? || o.leaseUntil.value <= now)
  }

  function ClaimedRow(o: Operation, now: int): Operation {
    o.(status := if o.status.Failed? && o.promotedKey.Some? then Promoted
                 else if o.status.Failed? && o.stagingKey.Some? then Staged
                 else o.status,
       leaseUntil := Some(now + LEASE_SECONDS), attempts := o.attempts + 1, updatedAt := now)
  }

  function ClaimOp(s: State, op: OpId, task: TaskId): State {
    if op in s.ops && task !in s.tasks && Recoverable(s.ops[op], s.now) then
      var row := ClaimedRow(s.ops[op], s.now);
      s.(ops := s.ops[op := row], tasks := s.tasks[task := Task(op, row, Claimed)],
         claims := s.claims + [ClaimRecord(op, s.now)])
    else s
  }

  // ---------- Promoting the file ----------

  predicate SizeValid(size: int) { 0 < size <= MAX_SAFE_INTEGER }

  /** The checks made before any file is touched. */
  predicate RowValid(o: Operation) {
    && o.preparedHash.Some? && SizeValid(o.size)
    && (o.promotedKey.Some? ==> Under(o.promotedKey.value, Private, o.order))
    && (o.stagingKey.Some? ==> Under(o.stagingKey.value, Staging, o.order))
    && (o.promotedKey.Some? || o.stagingKey.Some?)
  }

  /** The key the row promises: the recorded promoted key, else one derived from the staging file name. */
  function Target(o: Operation): Option<Key> {
    if o.promotedKey.Some? then o.promotedKey
    else if o.stagingKey.Some? then Some(PrivateKey(o.order, o.stagingKey.value.filename))
    else None
  }

  predicate Matches(c: Config, o: Operation, bytes: Bytes) {
    o.preparedHash.Some? && |bytes| == o.size && c.hash(bytes) == o.preparedHash.value
  }

  function At(s: State, task: TaskId, stage: Stage): State
    requires task in s.tasks
  {
    s.(tasks := s.tasks[task := s.tasks[task].(stage := stage)])
  }

  function CheckTarget(o: Operation, files: map<Key, Bytes>): Stage {
    if !RowValid(o) then Failing
    else if Target(o).value in files then TargetFound(Target(o).value)
    else TargetMissing(Target(o).value)
  }

  function ReadTarget(c: Config, o: Operation, key: Key, files: map<Key, Bytes>): Stage {
    if key in files && Matches(c, o, files[key]) then Ready(key, |files[key]|) else Failing
  }

  function CheckStaging(o: Operation, key: Key, files: map<Key, Bytes>): Stage {
    if o.stagingKey.Some? && o.stagingKey.value in files then StagingFound(key) else Failing
  }

  function ReadStaging(c: Config, o: Operation, key: Key, files: map<Key, Bytes>): Stage {
    if o.stagingKey.Some? && o.stagingKey.value in files && Matches(c, o, files[o.stagingKey.value])
    then StagedRead(key, files[o.stagingKey.value])
    else Failing
  }

  /** Move renames over whatever is at the target; without a source, or a move, an exclusive save is tried. */
  function Store(c: Config, o: Operation, key: Key, bytes: Bytes, files: map<Key, Bytes>): (map<Key, Bytes>, Stage) {
    if c.hasMove && o.stagingKey.Some? && o.stagingKey.value in files then
      ((files - {o.stagingKey.value})[key := files[o.stagingKey.value]], Stored(key))
    else
      var saved := PrivateKey(o.order, key.filename);
      if saved in files then (files, Failing) else (files[saved := bytes], Stored(saved))
  }

  function StoreFile(c: Config, s: State, task: TaskId, key: Key, bytes: Bytes): State
    requires task in s.tasks
  {
    var (files, stage) := Store(c, s.tasks[task].row, key, bytes, s.files);
    At(s.(files := files), task, stage)
  }

  function VerifyStored(c: Config, o: Operation, key: Key, files: map<Key, Bytes>): Stage {
    if key in files && Matches(c, o, files[key]) then Verified(key, |files[key]|) else Failing
  }

  /** The checkpoint only asks for a live lease, whoever holds it. */
  function Checkpoint(s: State, task: TaskId, key: Key, size: nat): State
    requires task in s.tasks
  {
    var op := s.tasks[task].op;
    if op in s.ops && s.ops[op].leaseUntil.Some? && s.ops[op].leaseUntil.value > s.now then
      At(s.(ops := s.ops[op := s.ops[op].(status := Promoted, stagingKey := None, promotedKey := Some(key),
                                          updatedAt := s.now)]), task, Ready(key, size))
    else At(s, task, Failing)
  }

  // ---------- Persisting ----------

  predicate SameEvidence(a: Attachment, o: Operation) {
    a.payment == o.payment && a.uploader == o.uploader && a.idempotencyKey == Some(o.idempotencyKey)
  }

  function Prior(s: State, o: Operation): set<AttachmentId> {
    set a | a in s.attachments && SameEvidence(s.attachments[a], o)
  }

  function ActiveProofs(s: State, payment: Id): set<AttachmentId> {
    set a | a in s.attachments && s.attachments[a].payment == payment && s.attachments[a].kind.PaymentProof?
            && s.attachments[a].deletedAt.None?
  }

  function CompletedRow(o: Operation, attachment: AttachmentId, now: int): Operation {
    o.(status := Completed, attachment := Some(attachment), stagingKey := None, promotedKey := None,
       leaseUntil := None, updatedAt := now)
  }

  function Close(s: State, task: TaskId): State { s.(tasks := s.tasks - {task}) }

  function Complete(s: State, op: OpId, attachment: AttachmentId): State {
    if op in s.ops then s.(ops := s.ops[op := CompletedRow(s.ops[op], attachment, s.now)]) else s
  }

  function NewAttachment(o: Operation, key: Key, size: nat): Attachment {
    Attachment(o.order, o.payment, PaymentProof, key.filename, o.originalName, o.mimeType, size, key,
               o.uploader, Some(o.idempotencyKey), o.sourceHash, None)
  }

  /** The given rows are marked deleted and the new one is added. */
  function Replaced(attachments: map<AttachmentId, Attachment>, previous: set<AttachmentId>, now: int,
                    newId: AttachmentId, row: Attachment): map<AttachmentId, Attachment>
  {
    (map a | a in attachments ::
       if a in previous then attachments[a].(deletedAt := Some(now)) else attachments[a])[newId := row]
  }

  /** Supersede the active proofs of the payment and insert the recovered one with its audit and outbox rows. */
  function InsertEvidence(s: State, op: OpId, o: Operation, key: Key, size: nat, newId: AttachmentId): State {
    var previous := ActiveProofs(s, o.payment);
    s.(attachments := Replaced(s.attachments, previous, s.now, newId, NewAttachment(o, key, size)),
       audits := s.audits + [AuditRow(o.order, o.uploader, op)],
       outbox := s.outbox + [OutboxRow(o.payment, o.order, o.uploader, newId, previous, op)],
       inserted := s.inserted + [Insertion(op, newId)])
  }

  predicate Eligible(s: State, o: Operation) {
    && o.payment in s.payments && s.payments[o.payment].order == o.order
    && s.payments[o.payment].pending && s.payments[o.payment].orderActive
  }

  /** One transaction under the payment row lock; prior is the row a LIMIT 1 finds, if any. */
  function Persist(s: State, task: TaskId, key: Key, size: nat, newId: AttachmentId): State
    requires task in s.tasks
  {
    var t := s.tasks[task];
    var o := t.row;
    if !Eligible(s, o) then At(s, task, Failing)
    else if Prior(s, o) != {} then
      var a := Least(Prior(s, o));
      if s.attachments[a].contentHash == o.sourceHash && s.attachments[a].storagePath == key
      then Close(Complete(s, t.op, a), task)
      else At(s, task, Failing)
    else if newId in s.attachments then s
    else Close(Complete(InsertEvidence(s, t.op, o, key, size, newId), t.op, newId), task)
  }

  predicate IsLeast(ids: set<nat>, a: nat) { a in ids && forall b | b in ids :: a <= b }

  lemma {:induction false} LeastExists(ids: set<nat>)
    requires ids != {}
    ensures exists a: nat :: IsLeast(ids, a)
  {
    var x :| x in ids;
    var rest := ids - {x};
    assert ids == rest + {x};
    if rest == {} {
      assert IsLeast(ids, x);
    } else {
      LeastExists(rest);
      var a: nat :| IsLeast(rest, a);
      assert IsLeast(ids, if a <= x then a else x);
    }
  }

  function Least(ids: set<nat>): (a: nat)
    requires ids != {}
    ensures a in ids
  {
    LeastExists(ids);
    var a: nat :| a in ids && IsLeast(ids, a);
    a
  }

  /** Releasing a failed claim; the row is left alone once completed. */
  function Release(s: State, task: TaskId): State
    requires task in s.tasks
  {
    var op := s.tasks[task].op;
    if op in s.ops && !s.ops[op].status.Completed?
    then Close(s.(ops := s.ops[op := s.ops[op].(leaseUntil := None, updatedAt := s.now)]), task)
    else Close(s, task)
  }

  // ---------- Steps and runs ----------

  /** The stages whose await only looks at the file store. */
  predicate Looking(stage: Stage) {
    stage.Claimed? || stage.TargetFound? || stage.TargetMissing? || stage.StagingFound? || stage.Stored?
  }

  function Look(c: Config, o: Operation, stage: Stage, files: map<Key, Bytes>): Stage
    requires Looking(stage)
  {
    match stage
    case Claimed => CheckTarget(o, files)
    case TargetFound(key) => ReadTarget(c, o, key, files)
    case TargetMissing(key) => CheckStaging(o, key, files)
    case StagingFound(key) => ReadStaging(c, o, key, files)
    case Stored(key) => VerifyStored(c, o, key, files)
  }

  function AdvanceTask(c: Config, s: State, task: TaskId, newId: AttachmentId): State
    requires task in s.tasks
  {
    var stage := s.tasks[task].stage;
    if Looking(stage) then At(s, task, Look(c, s.tasks[task].row, stage, s.files))
    else match stage
      case StagedRead(key, bytes) => StoreFile(c, s, task, key, bytes)
      case Verified(key, size) => Checkpoint(s, task, key, size)
      case Ready(key, size) => Persist(s, task, key, size, newId)
      case Failing => Release(s, task)
  }

  /** One atomic step. Error is any failed await; a crashed task simply stops, wherever it stood. */
  function Next(c: Config, s: State, step: Step): State {
    match step
    case Claim(op, task) => ClaimOp(s, op, task)
    case Advance(task, newId) => if task in s.tasks then AdvanceTask(c, s, task, newId) else s
    case Error(task) => if task in s.tasks then At(s, task, Failing) else s
    case Crash(task) => Close(s, task)
    case Tick(d) => s.(now := s.now + d)
    case PaymentChange(p, row) =>
      s.(payments := if row.Some? then s.payments[p := row.value] else s.payments - {p})
  }

  function Run(c: Config, s: State, steps: seq<Step>): State {
    if steps == [] then s else Next(c, Run(c, s, steps[..|steps| - 1]), steps[|steps| - 1])
  }
}
