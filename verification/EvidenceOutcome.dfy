/** How a recovery ends when nobody disturbs it: the outcome foreseen from the rows and the files. */
module EvidenceOutcome {
  import opened Sums
  import opened EvidenceRecovery
  import opened EvidenceSafety
  import opened EvidenceResults

  datatype Outcome = Recovered | Replayed | Unsuccessful

  /** Awaits left before a claimed operation is certainly over. */
  function Remaining(g: Stage): nat {
    match g
    case Claimed => 9
    case TargetMissing(_) => 8
    case StagingFound(_) => 7
    case StagedRead(_, _) => 6
    case Stored(_) => 5
    case Verified(_, _) => 4
    case TargetFound(_) => 4
    case Ready(_, _) => 3
    case Failing => 1
  }

  // ---------- What the tables say ----------

  datatype Evidence = Evidence(contentHash: string, storagePath: Key)

  /** All a recovery takes from the tables: its lease, its payment and the evidence that is already there. */
  datatype View = View(live: bool, eligible: bool, prior: Option<Evidence>)

  predicate LeaseLive(s: State, op: OpId) {
    op in s.ops && s.ops[op].leaseUntil.Some? && s.ops[op].leaseUntil.value > s.now
  }

  function PriorEvidence(s: State, o: Operation): Option<Evidence> {
    if Prior(s, o) == {} then None
    else var a := s.attachments[Least(Prior(s, o))]; Some(Evidence(a.contentHash, a.storagePath))
  }

  function ViewOf(s: State, op: OpId, o: Operation): View {
    View(LeaseLive(s, op), Eligible(s, o), PriorEvidence(s, o))
  }

  function Settled(v: View, o: Operation, key: Key): Outcome {
    if !v.eligible then Unsuccessful
    else if v.prior.None? then Recovered
    else if v.prior.value == Evidence(o.sourceHash, key) then Replayed
    else Unsuccessful
  }

  /** The outcome from a stage on, one await after the other. */
  function Foreseen(c: Config, v: View, o: Operation, stage: Stage, files: map<Key, Bytes>): Outcome
    decreases Remaining(stage)
  {
    if Looking(stage) then Foreseen(c, v, o, Look(c, o, stage, files), files)
    else match stage
      case StagedRead(key, bytes) => var (later, next) := Store(c, o, key, bytes, files); Foreseen(c, v, o, next, later)
      case Verified(key, size) => if v.live then Settled(v, o, key) else Unsuccessful
      case Ready(key, size) => Settled(v, o, key)
      case Failing => Unsuccessful
  }

  function ForeseenFor(c: Config, s: State, task: TaskId): Outcome
    requires task in s.tasks
  {
    var t := s.tasks[task];
    Foreseen(c, ViewOf(s, t.op, t.row), t.row, t.stage, s.files)
  }

  // ---------- When a recovery succeeds ----------

  predicate InOrderDirectory(k: Key, area: Area, order: Id) {
    k.area == area && |k.dir| >= 2 && k.dir[0] == "sale-order-attachments" && k.dir[1] == order
  }

  /** Digest and size are recorded, and so is a file; each recorded key lies in the order's directory of its area. */
  predicate Prepared(o: Operation) {
    && o.preparedHash.Some? && 0 < o.size <= 9007199254740991
    && !(o.promotedKey.None? && o.stagingKey.None?)
    && (o.promotedKey.Some? ==> InOrderDirectory(o.promotedKey.value, Private, o.order))
    && (o.stagingKey.Some? ==> InOrderDirectory(o.stagingKey.value, Staging, o.order))
  }

  /** A file of the recorded size and digest. */
  predicate Intact(c: Config, o: Operation, files: map<Key, Bytes>, k: Key) {
    k in files && |files[k]| == o.size && Some(c.hash(files[k])) == o.preparedHash
  }

  /** The recorded promoted key, else the order's private directory with the name the file has in staging. */
  function Promised(o: Operation): Key
    requires Prepared(o)
  {
    if o.promotedKey.Some? then o.promotedKey.value
    else Key(Private, ["sale-order-attachments", o.order], o.stagingKey.value.filename)
  }

  /** The promised key already holds the recorded bytes. */
  predicate AlreadyPromoted(c: Config, o: Operation, files: map<Key, Bytes>) {
    Prepared(o) && Intact(c, o, files, Promised(o))
  }

  /** Where bytes are saved when the store cannot move a file. */
  function SavedAt(o: Operation): Key
    requires Prepared(o)
  {
    Key(Private, ["sale-order-attachments", o.order], Promised(o).filename)
  }

  /** The promised key is free, the staging file holds the recorded bytes, and they can be stored. */
  predicate Promotable(c: Config, o: Operation, files: map<Key, Bytes>) {
    && Prepared(o) && Promised(o) !in files
    && o.stagingKey.Some? && Intact(c, o, files, o.stagingKey.value)
    && (c.hasMove || SavedAt(o) !in files)
  }

  /** The key under which the bytes end up. */
  function FinalKey(c: Config, o: Operation, files: map<Key, Bytes>): Key
    requires Prepared(o)
  {
    if Promised(o) in files || c.hasMove then Promised(o) else SavedAt(o)
  }

  lemma PreparedIsValid(o: Operation)
    ensures Prepared(o) <==> RowValid(o)
    ensures Prepared(o) ==> Target(o) == Some(Promised(o)) && SavedAt(o) == PrivateKey(o.order, Target(o).value.filename)
  {
    if o.promotedKey.Some? { PlaceIsUnder(o.promotedKey.value, Private, o.order); }
    if o.stagingKey.Some? { PlaceIsUnder(o.stagingKey.value, Staging, o.order); }
  }

  lemma PlaceIsUnder(k: Key, area: Area, order: Id)
    ensures InOrderDirectory(k, area, order) <==> Under(k, area, order)
  {
    if |k.dir| >= 2 { assert k.dir[..2] == [k.dir[0], k.dir[1]]; }
  }

  /** The file can be had: it is already in place, or it can be promoted under a live lease. */
  predicate FileReady(c: Config, v: View, o: Operation, files: map<Key, Bytes>) {
    AlreadyPromoted(c, o, files) || (Promotable(c, o, files) && v.live)
  }

  predicate CanRecover(c: Config, v: View, o: Operation, files: map<Key, Bytes>) {
    FileReady(c, v, o, files) && v.eligible && v.prior.None?
  }

  predicate CanReplay(c: Config, v: View, o: Operation, files: map<Key, Bytes>) {
    FileReady(c, v, o, files) && v.eligible && v.prior == Some(Evidence(o.sourceHash, FinalKey(c, o, files)))
  }

  lemma ForeseenPromoted(c: Config, v: View, o: Operation, files: map<Key, Bytes>)
    requires RowValid(o) && Target(o).value in files
    ensures Foreseen(c, v, o, Claimed, files)
         == if Holds(c, o, files, Target(o).value) then Settled(v, o, Target(o).value) else Unsuccessful
  {
    var key := Target(o).value;
    assert Look(c, o, Claimed, files) == TargetFound(key);
    assert Foreseen(c, v, o, TargetFound(key), files) == Foreseen(c, v, o, ReadTarget(c, o, key, files), files);
  }

  lemma ForeseenStaged(c: Config, v: View, o: Operation, files: map<Key, Bytes>)
    requires RowValid(o) && Target(o).value !in files && o.stagingKey.Some? && Holds(c, o, files, o.stagingKey.value)
    ensures Foreseen(c, v, o, StagedRead(Target(o).value, files[o.stagingKey.value]), files)
         == if Promotable(c, o, files) && v.live then Settled(v, o, FinalKey(c, o, files)) else Unsuccessful
  {
    PreparedIsValid(o);
    var key, bytes := Target(o).value, files[o.stagingKey.value];
    var (later, next) := Store(c, o, key, bytes, files);
    if next.Stored? {
      assert next.key == FinalKey(c, o, files) && later[next.key] == bytes;
      assert Look(c, o, next, later) == Verified(next.key, |bytes|);
      assert Foreseen(c, v, o, next, later) == Foreseen(c, v, o, Verified(next.key, |bytes|), later);
    }
  }

  lemma ForeseenUnpromoted(c: Config, v: View, o: Operation, files: map<Key, Bytes>)
    requires RowValid(o) && Target(o).value !in files
    ensures Foreseen(c, v, o, Claimed, files)
         == if Promotable(c, o, files) && v.live then Settled(v, o, FinalKey(c, o, files)) else Unsuccessful
  {
    PreparedIsValid(o);
    var key := Target(o).value;
    var second := CheckStaging(o, key, files);
    assert Look(c, o, Claimed, files) == TargetMissing(key);
    assert Foreseen(c, v, o, TargetMissing(key), files) == Foreseen(c, v, o, second, files);
    if second.StagingFound? {
      var third := ReadStaging(c, o, key, files);
      assert Foreseen(c, v, o, second, files) == Foreseen(c, v, o, third, files);
      if third.StagedRead? { ForeseenStaged(c, v, o, files); }
    }
  }

  /** An undisturbed claim recovers, or replays, exactly under these conditions. */
  lemma {:induction false} ForeseenIs(c: Config, v: View, o: Operation, files: map<Key, Bytes>)
    ensures Foreseen(c, v, o, Claimed, files) == Recovered <==> CanRecover(c, v, o, files)
    ensures Foreseen(c, v, o, Claimed, files) == Replayed <==> CanReplay(c, v, o, files)
  {
    PreparedIsValid(o);
    if !RowValid(o) {
      assert Look(c, o, Claimed, files) == Failing;
    } else if Target(o).value in files {
      ForeseenPromoted(c, v, o, files);
    } else {
      ForeseenUnpromoted(c, v, o, files);
    }
  }

  // ---------- Undisturbed steps ----------

  function EndedAs(s: State, s': State, stage: Stage): Outcome {
    if !stage.Ready? then Unsuccessful else if |s'.inserted| > |s.inserted| then Recovered else Replayed
  }

  lemma SameView(s: State, s': State, op: OpId, o: Operation)
    requires s'.attachments == s.attachments && s'.payments == s.payments && LeaseLive(s', op) == LeaseLive(s, op)
    ensures ViewOf(s', op, o) == ViewOf(s, op, o)
  {
    assert Prior(s', o) == Prior(s, o);
  }

  lemma LookStaysForeseen(c: Config, s: State, task: TaskId)
    requires task in s.tasks && Looking(s.tasks[task].stage)
    ensures ForeseenFor(c, At(s, task, Look(c, s.tasks[task].row, s.tasks[task].stage, s.files)), task) == ForeseenFor(c, s, task)
  {
    var t := s.tasks[task];
    SameView(s, At(s, task, Look(c, t.row, t.stage, s.files)), t.op, t.row);
  }

  lemma StoreStaysForeseen(c: Config, s: State, task: TaskId, key: Key, bytes: Bytes)
    requires task in s.tasks && s.tasks[task].stage == StagedRead(key, bytes)
    ensures ForeseenFor(c, StoreFile(c, s, task, key, bytes), task) == ForeseenFor(c, s, task)
  {
    var t := s.tasks[task];
    var (later, next) := Store(c, t.row, key, bytes, s.files);
    var s' := StoreFile(c, s, task, key, bytes);
    assert s' == At(s.(files := later), task, next);
    SameView(s, s', t.op, t.row);
    assert Foreseen(c, ViewOf(s, t.op, t.row), t.row, t.stage, s.files) == Foreseen(c, ViewOf(s, t.op, t.row), t.row, next, later);
  }

  lemma CheckpointStaysForeseen(c: Config, s: State, task: TaskId, key: Key, size: nat)
    requires task in s.tasks && s.tasks[task].stage == Verified(key, size)
    ensures ForeseenFor(c, Checkpoint(s, task, key, size), task) == ForeseenFor(c, s, task)
  {
    var t := s.tasks[task];
    SameView(s, Checkpoint(s, task, key, size), t.op, t.row);
  }

  lemma PersistIsForeseen(c: Config, s: State, task: TaskId, key: Key, size: nat, newId: AttachmentId)
    requires task in s.tasks && s.tasks[task].stage == Ready(key, size) && newId !in s.attachments
    ensures var s' := Persist(s, task, key, size, newId);
            if task in s'.tasks then s' == At(s, task, Failing) && ForeseenFor(c, s, task) == Unsuccessful
            else ForeseenFor(c, s, task) == EndedAs(s, s', Ready(key, size))
  {
    var t, s' := s.tasks[task], Persist(s, task, key, size, newId);
    if s' == At(s, task, Failing) {
    } else if Prior(s, t.row) == {} {
      assert s' == Close(Complete(InsertEvidence(s, t.op, t.row, key, size, newId), t.op, newId), task);
    } else {
      assert s' == Close(Complete(s, t.op, Least(Prior(s, t.row))), task);
    }
  }

  /** An undisturbed await either keeps the foreseen outcome or ends with it. */
  lemma {:induction false} QuietStep(c: Config, s: State, task: TaskId, newId: AttachmentId)
    requires task in s.tasks && newId !in s.attachments
    ensures var s' := AdvanceTask(c, s, task, newId);
            if task in s'.tasks then ForeseenFor(c, s', task) == ForeseenFor(c, s, task) && s'.attachments == s.attachments
            else ForeseenFor(c, s, task) == EndedAs(s, s', s.tasks[task].stage)
  {
    var s', stage := AdvanceTask(c, s, task, newId), s.tasks[task].stage;
    if Looking(stage) {
      LookStaysForeseen(c, s, task);
    } else if stage.StagedRead? {
      assert s' == StoreFile(c, s, task, stage.key, stage.bytes);
      StoreStaysForeseen(c, s, task, stage.key, stage.bytes);
    } else if stage.Verified? {
      assert s' == Checkpoint(s, task, stage.key, stage.size);
      CheckpointStaysForeseen(c, s, task, stage.key, stage.size);
    } else if stage.Ready? {
      assert s' == Persist(s, task, stage.key, stage.size, newId);
      PersistIsForeseen(c, s, task, stage.key, stage.size, newId);
    } else {
      assert s' == Release(s, task);
    }
  }

  // ---------- Claims of other operations ----------

  predicate SameAt(files: map<Key, Bytes>, later: map<Key, Bytes>, k: Key) {
    (k in later <==> k in files) && (k in files ==> later[k] == files[k])
  }

  /** A foreseen outcome depends on the files under the operation's own keys alone. */
  lemma SameFilesSameOutcome(c: Config, v: View, o: Operation, files: map<Key, Bytes>, later: map<Key, Bytes>)
    requires RowValid(o) ==>
               && SameAt(files, later, Target(o).value) && SameAt(files, later, PrivateKey(o.order, Target(o).value.filename))
               && (o.stagingKey.Some? ==> SameAt(files, later, o.stagingKey.value))
    ensures Foreseen(c, v, o, Claimed, later) == Foreseen(c, v, o, Claimed, files)
  {
    PreparedIsValid(o);
    ForeseenIs(c, v, o, files);
    ForeseenIs(c, v, o, later);
  }

  lemma KeysAreOwn(o0: Operation, o: Operation)
    requires SameCommand(o0, o) && (OriginalKeys(o0, o) || Checkpointed(o0, o)) && RowValid(o)
    ensures Target(o).value in OwnKeys(o0) && PrivateKey(o.order, Target(o).value.filename) in OwnKeys(o0)
    ensures o.stagingKey.Some? ==> o.stagingKey.value in OwnKeys(o0)
  {
  }

  lemma StoreElsewhere(c: Config, s0: State, s: State, task: TaskId, key: Key, bytes: Bytes, k: Key)
    requires Start(s0) && Inv(c, s0, s) && task in s.tasks && s.tasks[task].stage == StagedRead(key, bytes)
    requires k !in OwnKeys(s0.ops[s.tasks[task].op])
    ensures SameAt(s.files, Store(c, s.tasks[task].row, key, bytes, s.files).0, k)
  {
    var t := s.tasks[task];
    var o0 := s0.ops[t.op];
    assert TaskOk(c, s0.ops, t, s.files);
    assert StagedOrPromoted(c, o0, s0.files, s.files);
    StoreOverwritesNothing(c, o0, t.row, key, bytes, s0.files, s.files);
  }

  /** The files another claimed operation depends on are not touched. */
  lemma StoreKeepsOthers(c: Config, s0: State, s: State, task: TaskId, other: TaskId, key: Key, bytes: Bytes)
    requires Start(s0) && Inv(c, s0, s) && task in s.tasks && s.tasks[task].stage == StagedRead(key, bytes)
    requires other in s.tasks && s.tasks[other].op != s.tasks[task].op && s.tasks[other].stage.Claimed?
    ensures var o, v := s.tasks[other].row, ViewOf(s, s.tasks[other].op, s.tasks[other].row);
            Foreseen(c, v, o, Claimed, Store(c, s.tasks[task].row, key, bytes, s.files).0) == Foreseen(c, v, o, Claimed, s.files)
  {
    var mine, theirs := s.tasks[task], s.tasks[other];
    ReadyTask(c, s0, s, task);
    ReadyTask(c, s0, s, other);
    var o := theirs.row;
    if RowValid(o) {
      KeysAreOwn(s0.ops[theirs.op], o);
      StoreElsewhere(c, s0, s, task, key, bytes, Target(o).value);
      StoreElsewhere(c, s0, s, task, key, bytes, PrivateKey(o.order, Target(o).value.filename));
      if o.stagingKey.Some? { StoreElsewhere(c, s0, s, task, key, bytes, o.stagingKey.value); }
    }
    SameFilesSameOutcome(c, ViewOf(s, theirs.op, o), o, s.files, Store(c, mine.row, key, bytes, s.files).0);
  }

  /** Evidence inserted for one operation is no prior evidence of another. */
  lemma InsertKeepsPrior(s: State, op: OpId, o: Operation, key: Key, size: nat, newId: AttachmentId, other: Operation)
    requires newId !in s.attachments
    requires o.payment == other.payment && o.uploader == other.uploader ==> o.idempotencyKey != other.idempotencyKey
    ensures PriorEvidence(InsertEvidence(s, op, o, key, size, newId), other) == PriorEvidence(s, other)
  {
    assert Prior(InsertEvidence(s, op, o, key, size, newId), other) == Prior(s, other);
  }

  lemma PersistKeepsView(s: State, task: TaskId, key: Key, size: nat, newId: AttachmentId, op: OpId, other: Operation)
    requires task in s.tasks && newId !in s.attachments && s.tasks[task].op != op
    requires var o := s.tasks[task].row;
             o.payment == other.payment && o.uploader == other.uploader ==> o.idempotencyKey != other.idempotencyKey
    ensures ViewOf(Persist(s, task, key, size, newId), op, other) == ViewOf(s, op, other)
    ensures Persist(s, task, key, size, newId).files == s.files
  {
    var t, s' := s.tasks[task], Persist(s, task, key, size, newId);
    if s' == At(s, task, Failing) {
      SameView(s, s', op, other);
    } else if Prior(s, t.row) == {} {
      var inserted := InsertEvidence(s, t.op, t.row, key, size, newId);
      assert s' == Close(Complete(inserted, t.op, newId), task);
      InsertKeepsPrior(s, t.op, t.row, key, size, newId, other);
      assert Prior(s', other) == Prior(inserted, other);
    } else {
      assert s' == Close(Complete(s, t.op, Least(Prior(s, t.row))), task);
      SameView(s, s', op, other);
    }
  }

  lemma EvidenceDiffers(c: Config, s0: State, s: State, task: TaskId, other: TaskId)
    requires Start(s0) && Inv(c, s0, s) && task in s.tasks && other in s.tasks && s.tasks[other].op != s.tasks[task].op
    ensures var o, p := s.tasks[task].row, s.tasks[other].row;
            o.payment == p.payment && o.uploader == p.uploader ==> o.idempotencyKey != p.idempotencyKey
  {
    TaskCommand(c, s0, s, task);
    TaskCommand(c, s0, s, other);
  }

  lemma AdvanceKeepsView(c: Config, s: State, task: TaskId, newId: AttachmentId, op: OpId, other: Operation)
    requires task in s.tasks && newId !in s.attachments && s.tasks[task].op != op
    requires var o := s.tasks[task].row;
             o.payment == other.payment && o.uploader == other.uploader ==> o.idempotencyKey != other.idempotencyKey
    ensures ViewOf(AdvanceTask(c, s, task, newId), op, other) == ViewOf(s, op, other)
  {
    var s', stage := AdvanceTask(c, s, task, newId), s.tasks[task].stage;
    if stage.Ready? {
      assert s' == Persist(s, task, stage.key, stage.size, newId);
      PersistKeepsView(s, task, stage.key, stage.size, newId, op, other);
    } else {
      SameView(s, s', op, other);
    }
  }

  lemma OnlyStoringTouchesFiles(c: Config, s: State, task: TaskId, newId: AttachmentId)
    requires task in s.tasks
    ensures var stage := s.tasks[task].stage;
            AdvanceTask(c, s, task, newId).files
            == if stage.StagedRead? then Store(c, s.tasks[task].row, stage.key, stage.bytes, s.files).0 else s.files
  {
  }

  /** No await of one operation changes what is foreseen for a claim of another that has not begun. */
  lemma {:induction false} OthersStayForeseen(c: Config, s0: State, s: State, task: TaskId, newId: AttachmentId, other: TaskId)
    requires Start(s0) && Inv(c, s0, s) && task in s.tasks && newId !in s.attachments
    requires other in s.tasks && s.tasks[other].op != s.tasks[task].op && s.tasks[other].stage.Claimed?
    ensures var s' := AdvanceTask(c, s, task, newId);
            other in s'.tasks && s'.tasks[other] == s.tasks[other] && ForeseenFor(c, s', other) == ForeseenFor(c, s, other)
  {
    var stage, t := s.tasks[task].stage, s.tasks[other];
    AdvanceKeepsRows(c, s, task, newId);
    EvidenceDiffers(c, s0, s, task, other);
    AdvanceKeepsView(c, s, task, newId, t.op, t.row);
    OnlyStoringTouchesFiles(c, s, task, newId);
    if stage.StagedRead? { StoreKeepsOthers(c, s0, s, task, other, stage.key, stage.bytes); }
  }
}
