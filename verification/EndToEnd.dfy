/** A slave's upload queue joined to the master: nothing queued on the slave is lost on its way to the
    backend, through failed batches, lost replies, abandoned requests and retries. */
module EndToEnd {
  import opened Basics
  import opened BackendQueue
  import opened MasterState
  import opened MasterInvariant
  import opened MasterRefinement
  import opened CrashReplay

  /** A queue entry of the slave. */
  datatype Entry = Entry(source: Source, conditional: bool)

  datatype Joint = Joint(
    master: State,
    host: Host,
    queued: map<Key, Entry>,           // the slave's upload queue directory
    files: map<Source, Bytes>,         // spooled payloads and local objects
    awaiting: map<Key, PutRequest>,    // the batch whose reply the slave is waiting for
    acked: set<Key>,                   // the keys of that batch the master has made durable
    requests: set<PutRequest>,         // sent and not yet taken up, abandoned ones included
    owed: map<Key, Bytes>)             // the latest upload of each key not since deleted or withdrawn

  /** An upload is enqueued in two writes: its payload is spooled, or an older spooled payload of the key is
      removed, and then the entry is written. The sync and maintenance locks keep both away from a
      drain. A reply may be cut short while payloads and entries are removed. */
  datatype JointAction =
    | SpoolPayload(key: Key, bytes: Bytes)
    | DropPayload(key: Key)
    | WriteEntry(key: Key, entry: Entry)
    | AddLocal(name: string, bytes: Bytes)
    | RemoveLocal(name: string)
    | SendBatch(keys: set<Key>)
    | Serve(put: PutRequest)
    | LoseRequest(put: PutRequest)
    | ReceiveReply(payloads: set<Key>, entries: set<Key>)
    | GiveUp
    | MasterStep(step: Action)

  /** A host may write and delete only below its own prefix. */
  predicate Own(j: Joint, k: Key) {
    StartsWith(k, j.host + "/")
  }

  predicate DeleteUnderWay(lock: Lock, k: Key) {
    LockedKey(lock) == Some(k) && (lock.Removing? || (lock.Replaying? && lock.next.ThenDelete?))
  }

  predicate LockCarries(lock: Lock, k: Key, bytes: Bytes) {
    LockedKey(lock) == Some(k) ==>
      && (lock.Putting? ==> lock.req.bytes == bytes)
      && (lock.Replaying? && lock.next.ThenPut? ==> lock.next.put.bytes == bytes)
  }

  /** What the master has in progress on `k`: nothing that contradicts `bytes`. */
  predicate MasterAgrees(s: State, k: Key, bytes: Bytes) {
    && (k in s.disk.intents ==> s.disk.intents[k].bytes == bytes)
    && LockCarries(s.lock, k, bytes)
    && !DeleteUnderWay(s.lock, k)
  }

  /** `bytes` are readable under `k`, and nothing the master has in progress will change that. */
  predicate Settled(s: State, k: Key, bytes: Bytes) {
    View(s, k) == Some(bytes) && MasterAgrees(s, k, bytes)
  }

  /** What decides whether an upload is safe: no abandoned request for its key is out with other bytes. */
  predicate Undisputed(j: Joint, k: Key, bytes: Bytes) {
    forall r :: r in j.requests && r.key == k ==> r.bytes == bytes
  }

  /** The Put the master's next write acknowledges, if it does. */
  function Acknowledges(s: State): Option<PutRequest>
    requires LockedKey(s.lock).Some? ==> Grounded(s.lock, SlotOf(s.disk, LockedKey(s.lock).value))
  {
    if s.lock.Putting? && Decide(s.lock, SlotOf(s.disk, s.lock.req.key), EnvOf(s)).promise.Some? then Some(s.lock.req) else None
  }

  /** The entry of `k` is read from the payload spooled for it. */
  predicate FromSpool(j: Joint, k: Key) {
    k in j.queued && j.queued[k].source == Spool(k)
  }

  predicate OnSlave(j: Joint, k: Key, bytes: Bytes) {
    k in j.queued && Lookup(j.files, j.queued[k].source) == Some(bytes)
  }

  /** The request a drain makes of an entry. */
  function Request(j: Joint, k: Key): PutRequest
    requires k in j.queued && j.queued[k].source in j.files
  {
    PutRequest(j.host, k, j.files[j.queued[k].source], j.queued[k].conditional)
  }

  /** What step `a` makes the latest upload of `k`, if it does: a new payload under an entry that is
      read from the spool counts at once. */
  function Uploaded(j: Joint, a: JointAction, k: Key): Option<Bytes> {
    match a
    case SpoolPayload(key, bytes) => if key == k && FromSpool(j, k) then Some(bytes) else None
    case WriteEntry(key, entry) => if key == k then Lookup(j.files, entry.source) else None
    case _ => None
  }

  ghost predicate CanStep(j: Joint, a: JointAction) {
    match a
    case SpoolPayload(k, bytes) => j.awaiting == map[] && Own(j, k) && Lookup(j.master.config.canon, k) in {None, Some(bytes)}
    case DropPayload(k) => j.awaiting == map[]
    case WriteEntry(k, entry) =>
      && j.awaiting == map[] && Own(j, k) && entry.source in j.files && (entry.source.Spool? ==> entry.source.key == k)
      && ContentAddressed(Lookup(j.master.config.canon, k), PutRequest(j.host, k, j.files[entry.source], entry.conditional))
    case AddLocal(name, bytes) => Local(name) !in j.files
    case RemoveLocal(name) => forall k :: k in j.queued ==> j.queued[k].source != Local(name)
    case SendBatch(keys) => j.awaiting == map[] && forall k :: k in keys ==> k in j.queued && j.queued[k].source in j.files
    case Serve(put) => put in j.requests && Enabled(j.master, BeginPut(put))
    case LoseRequest(put) => true
    case ReceiveReply(payloads, entries) => entries <= payloads <= j.awaiting.Keys <= j.acked
    case GiveUp => true
    case MasterStep(step) => Enabled(j.master, step) && (step.BeginPut? ==> !Own(j, step.put.key))
  }

  function WithoutSpools(files: map<Source, Bytes>, keys: set<Key>): map<Source, Bytes> {
    map p | p in files && !(p.Spool? && p.key in keys) :: files[p]
  }

  ghost function StepJoint(j: Joint, a: JointAction): Joint
    requires CanStep(j, a)
  {
    match a
    case SpoolPayload(k, bytes) =>
      j.(files := j.files[Spool(k) := bytes], owed := if FromSpool(j, k) then j.owed[k := bytes] else j.owed)
    case DropPayload(k) =>
      j.(files := j.files - {Spool(k)}, owed := if FromSpool(j, k) && Spool(k) in j.files then j.owed - {k} else j.owed)
    case WriteEntry(k, entry) => j.(queued := j.queued[k := entry], owed := j.owed[k := j.files[entry.source]])
    case AddLocal(name, bytes) => j.(files := j.files[Local(name) := bytes])
    case RemoveLocal(name) => j.(files := j.files - {Local(name)})
    case SendBatch(keys) =>
      var batch := map k | k in keys :: Request(j, k);
      j.(awaiting := batch, acked := {}, requests := j.requests + batch.Values)
    case Serve(put) => j.(master := Next(j.master, BeginPut(put)), requests := j.requests - {put})
    case LoseRequest(put) => j.(requests := j.requests - {put})
    case ReceiveReply(payloads, entries) =>
      j.(files := WithoutSpools(j.files, payloads), queued := j.queued - entries, awaiting := map[], acked := {})
    case GiveUp => j.(awaiting := map[], acked := {})
    case MasterStep(step) =>
      var acked := if step.Advance? && Acknowledges(j.master).Some?
        then j.acked + (set k | k in j.awaiting && j.awaiting[k] == Acknowledges(j.master).value) else j.acked;
      j.(master := Next(j.master, step), acked := acked,
         owed := if step.BeginDelete? then j.owed - {step.key} else j.owed)
  }

  // ----- the invariant, key by key -----

  /** Only a spooled payload may be missing, and a spool serves one key. */
  predicate ProperEntry(j: Joint, k: Key)
    requires k in j.queued
  {
    var entry := j.queued[k];
    && (if entry.source.Spool? then entry.source.key == k else entry.source in j.files)
    && (entry.conditional ==> k in j.master.config.canon)
    && (entry.source in j.files && k in j.master.config.canon ==> j.files[entry.source] == j.master.config.canon[k])
  }

  ghost predicate WellFormed(j: Joint) {
    && Inv(j.master) && j.acked <= j.awaiting.Keys
    && (forall k :: k in j.queued ==> ProperEntry(j, k))
    && (forall k :: k in j.awaiting ==> j.awaiting[k].key == k)
    && forall r :: r in j.requests ==> ContentAddressed(Lookup(j.master.config.canon, r.key), r)
  }

  /** An owed upload is on the slave or settled on the master, every copy of it on the slave or on the
      way carries its bytes, and an acknowledgement was earned. */
  ghost predicate Kept(j: Joint, k: Key) {
    k in j.owed ==>
      && Own(j, k)
      && Undisputed(j, k, j.owed[k])
      && (k in j.awaiting ==> j.awaiting[k].bytes == j.owed[k])
      && (k in j.queued && j.queued[k].source in j.files ==> OnSlave(j, k, j.owed[k]))
      && (!OnSlave(j, k, j.owed[k]) || k in j.acked ==> Settled(j.master, k, j.owed[k]))
  }

  lemma ConfigIsFixed(s: State, a: Action)
    requires Enabled(s, a)
    ensures Next(s, a).config == s.config
  {
  }

  lemma StepIsWellFormed(j: Joint, a: JointAction)
    requires WellFormed(j) && CanStep(j, a)
    ensures WellFormed(StepJoint(j, a))
  {
    match a {
      case Serve(put) => BeginPutKeeps(j.master, put);
      case MasterStep(step) => StepKeeps(j.master, step); ConfigIsFixed(j.master, step);
      case _ =>
    }
  }

  lemma SlaveKeeps(j: Joint, a: JointAction, k: Key)
    requires WellFormed(j) && Kept(j, k) && CanStep(j, a) && !a.Serve? && !a.MasterStep?
    requires Uploaded(j, a, k).Some? ==> Undisputed(j, k, Uploaded(j, a, k).value)
    ensures Kept(StepJoint(j, a), k)
  {
  }

  lemma ServeKeeps(j: Joint, put: PutRequest, k: Key)
    requires WellFormed(j) && Kept(j, k) && CanStep(j, Serve(put))
    ensures Kept(StepJoint(j, Serve(put)), k)
  {
    OtherView(j.master, BeginPut(put), k);
  }

  // ----- the master's steps -----

  lemma DecisionAgrees(lock: Lock, slot: Slot, env: Env, k: Key, bytes: Bytes)
    requires Grounded(lock, slot) && LockedKey(lock) == Some(k) && LockCarries(lock, k, bytes) && !DeleteUnderWay(lock, k)
    requires slot.intent.Some? ==> slot.intent.value.bytes == bytes
    ensures var d := Decide(lock, slot, env);
            && LockCarries(d.lock, k, bytes) && !DeleteUnderWay(d.lock, k)
            && (WriteSlot(slot, d.write).intent.Some? ==> WriteSlot(slot, d.write).intent.value.bytes == bytes)
  {
  }

  lemma AdvanceAgrees(s: State, k: Key, bytes: Bytes)
    requires Inv(s) && Enabled(s, Advance) && MasterAgrees(s, k, bytes)
    ensures MasterAgrees(AdvanceLock(s), k, bytes)
  {
    var t, key := AdvanceLock(s), LockedKey(s.lock).value;
    AdvanceStaysOnKey(s);
    AdvanceSlot(s, k);
    if k == key { DecisionAgrees(s.lock, SlotOf(s.disk, k), EnvOf(s), k, bytes); }
    assert SlotOf(t.disk, k).intent == Lookup(t.disk.intents, k) && SlotOf(s.disk, k).intent == Lookup(s.disk.intents, k);
  }

  lemma OtherAgrees(s: State, a: Action, k: Key, bytes: Bytes)
    requires Enabled(s, a) && !a.Advance? && !RequestOn(a, k) && MasterAgrees(s, k, bytes)
    ensures MasterAgrees(Next(s, a), k, bytes)
  {
    assert Next(s, a).disk.intents == s.disk.intents;
  }

  /** A key whose carriers agree stays settled through any step of the master. */
  lemma SettledStays(s: State, a: Action, k: Key, bytes: Bytes)
    requires Inv(s) && Enabled(s, a) && !RequestOn(a, k) && Settled(s, k, bytes)
    ensures Settled(Next(s, a), k, bytes)
  {
    StepRefines(s, a, k);
    if a.Advance? { AdvanceAgrees(s, k, bytes); } else { OtherAgrees(s, a, k, bytes); }
  }

  /** An acknowledged Put is settled. */
  lemma AcknowledgedIsSettled(s: State)
    requires Inv(s) && Enabled(s, Advance) && Acknowledges(s).Some?
    ensures AdvanceLock(s).lock.Free? && Settled(AdvanceLock(s), s.lock.req.key, s.lock.req.bytes)
  {
    AdvanceKeeps(s);
    AcknowledgedIsReleased(s);
    PromisedIsSettled(AdvanceLock(s), s.lock.req.key, s.lock.req.bytes);
  }

  lemma AcknowledgedIsReleased(s: State)
    requires Inv(s) && Enabled(s, Advance) && Acknowledges(s).Some?
    ensures var t := AdvanceLock(s);
            && t.lock.Free? && s.lock.req.key !in t.disk.intents
            && Lookup(t.promised, s.lock.req.key) == Some(Present(s.lock.req.bytes))
  {
    assert KeyOk(s, s.lock.req.key);
  }

  lemma PromisedIsSettled(s: State, k: Key, bytes: Bytes)
    requires Inv(s) && s.lock.Free? && Lookup(s.promised, k) == Some(Present(bytes)) && k !in s.disk.intents
    ensures Settled(s, k, bytes)
  {
    assert KeyOk(s, k);
  }

  lemma MasterKeeps(j: Joint, step: Action, k: Key)
    requires WellFormed(j) && Kept(j, k) && CanStep(j, MasterStep(step))
    ensures Kept(StepJoint(j, MasterStep(step)), k)
  {
    var t := StepJoint(j, MasterStep(step));
    if k in t.owed {
      if Settled(j.master, k, j.owed[k]) { SettledStays(j.master, step, k, j.owed[k]); }
      if step.Advance? && Acknowledges(j.master).Some? { AcknowledgedIsSettled(j.master); }
    }
  }

  // ----- whole runs -----

  /** The only step that may lose an upload of `k` is making a disputed one. */
  lemma StepConserves(j: Joint, a: JointAction, k: Key)
    requires WellFormed(j) && Kept(j, k) && CanStep(j, a)
    requires Uploaded(j, a, k).Some? ==> Undisputed(j, k, Uploaded(j, a, k).value)
    ensures WellFormed(StepJoint(j, a)) && Kept(StepJoint(j, a), k)
  {
    StepIsWellFormed(j, a);
    match a {
      case Serve(put) => ServeKeeps(j, put, k);
      case MasterStep(step) => MasterKeeps(j, step, k);
      case _ => SlaveKeeps(j, a, k);
    }
  }

  ghost predicate CanRun(j: Joint, run: seq<JointAction>)
    decreases |run|
  {
    run == [] || (CanStep(j, run[0]) && CanRun(StepJoint(j, run[0]), run[1..]))
  }

  ghost function RunJoint(j: Joint, run: seq<JointAction>): Joint
    requires CanRun(j, run)
    decreases |run|
  {
    if run == [] then j else RunJoint(StepJoint(j, run[0]), run[1..])
  }

  /** A run in which every upload of `k` is undisputed when it is made. */
  ghost predicate Orderly(j: Joint, run: seq<JointAction>, k: Key)
    requires CanRun(j, run)
    decreases |run|
  {
    run == [] || ((Uploaded(j, run[0], k).Some? ==> Undisputed(j, k, Uploaded(j, run[0], k).value))
                  && Orderly(StepJoint(j, run[0]), run[1..], k))
  }

  lemma {:induction false} RunConserves(j: Joint, run: seq<JointAction>, k: Key)
    requires WellFormed(j) && Kept(j, k) && CanRun(j, run) && Orderly(j, run, k)
    ensures WellFormed(RunJoint(j, run)) && Kept(RunJoint(j, run), k)
    decreases |run|
  {
    if run != [] {
      StepConserves(j, run[0], k);
      RunConserves(StepJoint(j, run[0]), run[1..], k);
    }
  }

  /** The master holds `bytes` under `k` with a backup obligation, or the backend does. */
  predicate Secured(s: State, k: Key, bytes: Bytes) {
    || Lookup(s.backend, k) == Some(bytes)
    || (Lookup(s.disk.store, k) == Some(bytes) && (k in s.disk.intents || k in s.disk.queue))
  }

  /** A slave that has queued and sent nothing. */
  predicate Fresh(j: Joint) {
    j.queued == map[] && j.awaiting == map[] && j.acked == {} && j.requests == {} && j.owed == map[]
  }

  /** End-to-end conservation: every upload not since deleted is in the slave's queue with its bytes, or
      readable on the master with a logged or queued backup or a backend copy. */
  lemma UploadsAreConserved(j: Joint, run: seq<JointAction>, k: Key)
    requires Fresh(j) && Inv(j.master)
    requires CanRun(j, run) && Orderly(j, run, k)
    ensures var t := RunJoint(j, run);
            k in t.owed ==>
              || OnSlave(t, k, t.owed[k])
              || (View(t.master, k) == Some(t.owed[k]) && Secured(t.master, k, t.owed[k]))
  {
    RunConserves(j, run, k);
    assert KeyOk(RunJoint(j, run).master, k);
  }
}
