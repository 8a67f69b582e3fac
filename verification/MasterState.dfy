/** The cluster master as a step system. Every durable write, every backend effect and every
    read of the queue directory is one step; a crash or an I/O error may fall between any two. */
module MasterState {
  import opened Basics
  import opened BackendQueue

  datatype PutRequest = PutRequest(host: Host, key: Key, bytes: Bytes, conditional: bool)

  datatype Tombstone = Tombstone(generation: nat, digest: Digest, size: nat, deletedAt: nat, deleteAfter: nat)

  /** The five directories of the master, each keyed by object key. */
  datatype Disk = Disk(
    store: map<Key, Bytes>,
    intents: map<Key, PutRequest>,
    queue: map<Key, QueueItem>,
    receipts: map<Key, Digest>,
    tombs: map<Key, Tombstone>)

  /** The files of one key. */
  datatype Slot = Slot(
    store: Option<Bytes>,
    intent: Option<PutRequest>,
    queue: Option<QueueItem>,
    receipt: Option<Digest>,
    tomb: Option<Tombstone>)

  /** One atomic file replacement or removal. */
  datatype Write =
    | Nothing
    | PutStore(bytes: Bytes)
    | DropStore
    | LogIntent(put: PutRequest)
    | DropIntent
    | PutQueue(item: QueueItem)
    | DropQueue
    | PutReceipt(digest: Digest)
    | DropReceipt
    | PutTomb(tomb: Tombstone)
    | DropTomb

  /** A queue entry handed to an upload thread, outside the durable lock. */
  datatype Flight = Flight(item: QueueItem, payload: Option<Bytes>, effected: bool)

  datatype Worker =
    | Idle
    | Scanning(start: nat, pending: set<Key>, seen: map<Key, QueueItem>)
    | Uploading(start: nat, seen: map<Key, QueueItem>, listed: set<Key>)
    | Deleting(start: nat, seen: map<Key, QueueItem>)

  datatype ReplayStage = ReplayStore | ReplayQueue | ReplayCancel | ReplayRemove

  datatype Continuation = Done | ThenPut(put: PutRequest) | ThenDelete(host: Host)

  datatype PutStage = Admit | StoreWrite | CancelGc | Enqueue | RemoveIntent

  datatype CompleteStage = Retain | Receipt | Dequeue

  datatype CollectStage = Payload | Tomb

  /** Who holds the durable lock, and which durable write comes next. */
  datatype Lock =
    | Free
    | Replaying(key: Key, replay: ReplayStage, next: Continuation)
    | Putting(req: PutRequest, stage: PutStage, wasTombstoned: bool)
    | Removing(host: Host, key: Key)
    | Completing(key: Key, item: QueueItem, complete: CompleteStage)
    | Collecting(key: Key, collect: CollectStage)

  /** What the last acknowledged request on a key promised its client. */
  datatype Promise = Present(bytes: Bytes) | Absent

  /** Fixed for a run: the store quota, the local retention period, and the bytes every
      content-addressed key stands for. */
  datatype Config = Config(limit: Option<nat>, grace: nat, canon: map<Key, Bytes>)

  datatype State = State(
    config: Config,
    disk: Disk,
    backend: map<Key, Bytes>,
    storeBytes: nat,
    lock: Lock,
    flights: map<Key, Flight>,
    worker: Worker,
    promised: map<Key, Promise>,
    clock: nat,
    nextGeneration: nat)

  datatype Action =
    | Tick(ticks: nat)
    | BeginPut(put: PutRequest)
    | BeginDelete(host: Host, key: Key)
    | BeginReplay(key: Key)
    | Advance
    | IoError
    | Crash(bytesOnDisk: nat)
    | Hydrate(key: Key, fetched: Bytes)
    | BeginScan
    | ScanNotice(key: Key)
    | ScanRead(key: Key)
    | EndScan
    | ListBackend(keys: set<Key>)
    | EndUploads
    | EndRound
    | Capture(key: Key)
    | Effect(key: Key)
    | Complete(key: Key)
    | Skip(key: Key)
    | Fail(key: Key, retryAt: nat)
    | Collect(key: Key, generation: nat, now: nat)

  // ----- reading -----

  function SlotOf(disk: Disk, k: Key): Slot {
    Slot(Lookup(disk.store, k), Lookup(disk.intents, k), Lookup(disk.queue, k), Lookup(disk.receipts, k),
         Lookup(disk.tombs, k))
  }

  predicate LogicallyDeleted(slot: Slot) {
    (slot.queue.Some? && slot.queue.value.op.Delete?) || slot.tomb.Some?
  }

  /** What a client reads. */
  function SlotView(slot: Slot, backend: Option<Bytes>): Option<Bytes> {
    if LogicallyDeleted(slot) then None else if slot.store.Some? then slot.store else backend
  }

  /** The value a batch leaves under `k`: the last one written, or the old one. */
  function LastWrite(items: seq<PutRequest>, k: Key, before: Option<Bytes>): Option<Bytes> {
    if items == [] then before
    else
      var n := |items| - 1;
      if items[n].key == k then Some(items[n].bytes) else LastWrite(items[..n], k, before)
  }

  /** A batch that succeeded: each key reads as its last write, every other key as before. */
  ghost predicate BatchApplied(s: State, t: State, items: seq<PutRequest>) {
    forall k :: View(t, k) == LastWrite(items, k, View(s, k))
  }

  function View(s: State, k: Key): Option<Bytes> {
    SlotView(SlotOf(s.disk, k), Lookup(s.backend, k))
  }

  function Len(bytes: Option<Bytes>): nat {
    if bytes.Some? then |bytes.value| else 0
  }

  function Monus(a: nat, b: nat): nat {
    if a < b then 0 else a - b
  }

  /** The limits and counters a write decision may consult. */
  datatype Env = Env(config: Config, storeBytes: nat, clock: nat, nextGeneration: nat)

  function EnvOf(s: State): Env {
    Env(s.config, s.storeBytes, s.clock, s.nextGeneration)
  }

  predicate QuotaAllows(env: Env, oldLen: nat, newLen: nat) {
    newLen <= oldLen || env.config.limit.None? || Monus(env.storeBytes, oldLen) + newLen <= env.config.limit.value
  }

  predicate Changes(slot: Slot, bytes: Bytes) {
    slot.store.None? || DigestOf(slot.store.value) != DigestOf(bytes)
  }

  predicate NeedsBackup(slot: Slot, bytes: Bytes) {
    Changes(slot, bytes) || slot.tomb.Some? || slot.queue.Some? || slot.receipt != Some(DigestOf(bytes))
  }

  function PutOperation(put: PutRequest): Operation {
    Put(DigestOf(put.bytes), |put.bytes|, put.conditional)
  }

  // ----- writing -----

  function WriteSlot(slot: Slot, w: Write): Slot {
    match w
    case Nothing => slot
    case PutStore(bytes) => slot.(store := Some(bytes))
    case DropStore => slot.(store := None)
    case LogIntent(put) => slot.(intent := Some(put))
    case DropIntent => slot.(intent := None)
    case PutQueue(item) => slot.(queue := Some(item))
    case DropQueue => slot.(queue := None)
    case PutReceipt(digest) => slot.(receipt := Some(digest))
    case DropReceipt => slot.(receipt := None)
    case PutTomb(tomb) => slot.(tomb := Some(tomb))
    case DropTomb => slot.(tomb := None)
  }

  function WriteDisk(disk: Disk, k: Key, w: Write): Disk {
    match w
    case Nothing => disk
    case PutStore(bytes) => disk.(store := disk.store[k := bytes])
    case DropStore => disk.(store := disk.store - {k})
    case LogIntent(put) => disk.(intents := disk.intents[k := put])
    case DropIntent => disk.(intents := disk.intents - {k})
    case PutQueue(item) => disk.(queue := disk.queue[k := item])
    case DropQueue => disk.(queue := disk.queue - {k})
    case PutReceipt(digest) => disk.(receipts := disk.receipts[k := digest])
    case DropReceipt => disk.(receipts := disk.receipts - {k})
    case PutTomb(tomb) => disk.(tombs := disk.tombs[k := tomb])
    case DropTomb => disk.(tombs := disk.tombs - {k})
  }

  /** A write changes the files of its own key, as if that key were alone on the disk. */
  lemma WriteIsLocal(disk: Disk, k: Key, w: Write, j: Key)
    ensures SlotOf(WriteDisk(disk, k, w), j) == if j == k then WriteSlot(SlotOf(disk, k), w) else SlotOf(disk, j)
  {
  }

  /** The write together with the in-memory counters that follow it. */
  function Apply(s: State, k: Key, w: Write): State {
    s.(disk := WriteDisk(s.disk, k, w),
       storeBytes := match w
         case PutStore(bytes) => Monus(s.storeBytes, Len(Lookup(s.disk.store, k))) + |bytes|
         case DropStore => Monus(s.storeBytes, Len(Lookup(s.disk.store, k)))
         case _ => s.storeBytes,
       nextGeneration := if w.PutQueue? || w.PutTomb? then s.nextGeneration + 1 else s.nextGeneration)
  }

  /** An entry with the same operation is reused; any other is replaced under a new generation. */
  function QueueWrite(slot: Slot, env: Env, host: Host, k: Key, op: Operation): Write {
    if slot.queue.Some? && slot.queue.value.op == op then Nothing
    else
      var created := if slot.queue.Some? then slot.queue.value.createdAt else env.clock;
      PutQueue(QueueItem(env.nextGeneration, k, host, op, created, env.clock, 0, None))
  }

  // ----- the lock holder's next write -----

  datatype Decision = Decision(write: Write, lock: Lock, promise: Option<Promise>)

  function DecideReplay(lock: Lock, slot: Slot, env: Env): Decision
    requires lock.Replaying? && slot.intent.Some?
  {
    var k, put := lock.key, slot.intent.value;
    match lock.replay
    case ReplayStore =>
      if !Changes(slot, put.bytes) then Decision(Nothing, lock.(replay := ReplayQueue), None)
      else if put.conditional && slot.store.Some? then Decision(Nothing, Free, None)
      else if !QuotaAllows(env, Len(slot.store), |put.bytes|) then Decision(Nothing, Free, None)
      else Decision(PutStore(put.bytes), lock.(replay := ReplayQueue), None)
    case ReplayQueue =>
      Decision(QueueWrite(slot, env, put.host, k, PutOperation(put)), lock.(replay := ReplayCancel), None)
    case ReplayCancel => Decision(DropTomb, lock.(replay := ReplayRemove), None)
    case ReplayRemove =>
      Decision(DropIntent,
               match lock.next
               case Done => Free
               case ThenPut(req) => Putting(req, Admit, false)
               case ThenDelete(host) => Removing(host, k),
               None)
  }

  datatype Admission = Refused | Duplicate | Logged

  /** What a Put meets: an immutable collision or a full store refuses it, an object already backed
      up makes it a duplicate, and anything else is logged before the payload is touched. */
  function AdmissionOf(slot: Slot, env: Env, put: PutRequest): Admission {
    if put.conditional && Changes(slot, put.bytes) && slot.store.Some? then Refused
    else if !NeedsBackup(slot, put.bytes) then Duplicate
    else if !QuotaAllows(env, Len(slot.store), |put.bytes|) then Refused
    else Logged
  }

  function DecidePut(lock: Lock, slot: Slot, env: Env): Decision
    requires lock.Putting?
  {
    var put := lock.req;
    match lock.stage
    case Admit =>
      (match AdmissionOf(slot, env, put)
       case Refused => Decision(Nothing, Free, None)
       case Duplicate => Decision(Nothing, Free, Some(Present(put.bytes)))
       case Logged => Decision(LogIntent(put), Putting(put, StoreWrite, slot.tomb.Some?), None))
    case StoreWrite =>
      if !Changes(slot, put.bytes) then Decision(Nothing, lock.(stage := CancelGc), None)
      else if put.conditional && slot.store.Some? then Decision(Nothing, Free, None)
      else if !QuotaAllows(env, Len(slot.store), |put.bytes|) then Decision(Nothing, Free, None)
      else Decision(PutStore(put.bytes), lock.(stage := CancelGc), None)
    case CancelGc => Decision(if lock.wasTombstoned then DropTomb else Nothing, lock.(stage := Enqueue), None)
    case Enqueue =>
      Decision(QueueWrite(slot, env, put.host, put.key, PutOperation(put)), lock.(stage := RemoveIntent), None)
    case RemoveIntent => Decision(DropIntent, Free, Some(Present(put.bytes)))
  }

  function DecideComplete(lock: Lock, slot: Slot, env: Env): Decision
    requires lock.Completing?
  {
    match lock.complete
    case Retain =>
      var write := if slot.store.None? then DropTomb
        else PutTomb(Tombstone(env.nextGeneration, DigestOf(slot.store.value), |slot.store.value|,
                               env.clock, env.clock + env.config.grace));
      Decision(write, lock.(complete := Receipt), None)
    case Receipt =>
      Decision(if lock.item.op.Put? then PutReceipt(lock.item.op.digest) else DropReceipt,
               lock.(complete := Dequeue), None)
    case Dequeue => Decision(DropQueue, Free, None)
  }

  function DecideCollect(lock: Lock, slot: Slot): Decision
    requires lock.Collecting? && slot.tomb.Some?
  {
    match lock.collect
    case Payload =>
      Decision(if slot.store.Some? && DigestOf(slot.store.value) == slot.tomb.value.digest then DropStore else Nothing,
               lock.(collect := Tomb), None)
    case Tomb => Decision(DropTomb, Free, None)
  }

  function LockedKey(lock: Lock): Option<Key> {
    match lock
    case Free => None
    case Replaying(k, _, _) => Some(k)
    case Putting(req, _, _) => Some(req.key)
    case Removing(_, k) => Some(k)
    case Completing(k, _, _) => Some(k)
    case Collecting(k, _) => Some(k)
  }

  /** The file the lock holder works from is there. */
  predicate Grounded(lock: Lock, slot: Slot) {
    && !lock.Free?
    && (lock.Replaying? ==> slot.intent.Some?)
    && (lock.Collecting? ==> slot.tomb.Some?)
  }

  function Decide(lock: Lock, slot: Slot, env: Env): Decision
    requires Grounded(lock, slot)
  {
    match lock
    case Replaying(_, _, _) => DecideReplay(lock, slot, env)
    case Putting(_, _, _) => DecidePut(lock, slot, env)
    case Removing(host, k) =>
      Decision(QueueWrite(slot, env, host, k, Operation.Delete), Free, Some(Absent))
    case Completing(_, _, _) => DecideComplete(lock, slot, env)
    case Collecting(_, _) => DecideCollect(lock, slot)
  }

  /** Logging an intent withdraws the promise on its key; an acknowledgement renews it. */
  function Promised(promised: map<Key, Promise>, k: Key, d: Decision): map<Key, Promise> {
    if d.promise.Some? then promised[k := d.promise.value]
    else if d.write.LogIntent? then promised - {k}
    else promised
  }

  function AdvanceLock(s: State): State
    requires LockedKey(s.lock).Some? && Grounded(s.lock, SlotOf(s.disk, LockedKey(s.lock).value))
  {
    var k := LockedKey(s.lock).value;
    var d := Decide(s.lock, SlotOf(s.disk, k), EnvOf(s));
    Apply(s, k, d.write).(lock := d.lock, promised := Promised(s.promised, k, d))
  }

  // ----- steps -----

  function Seen(w: Worker): map<Key, QueueItem> {
    if w.Idle? then map[] else w.seen
  }

  /** The generation compared again once the backend call has returned. */
  predicate StillCurrent(s: State, k: Key, item: QueueItem) {
    k in s.disk.queue && s.disk.queue[k].generation == item.generation
  }

  /** The checks an upload thread makes under the lock before it may send. */
  ghost predicate MaySend(s: State, k: Key) {
    && k in Seen(s.worker)
    && StillCurrent(s, k, Seen(s.worker)[k])
    && !BlockedIn(Seen(s.worker), Seen(s.worker)[k])
    && (match Seen(s.worker)[k].op
        case Put(digest, _, _) => s.worker.Uploading? && k in s.disk.store && DigestOf(s.disk.store[k]) == digest
        case Delete => s.worker.Deleting?)
  }

  /** Content addressing: a conditional request, and any request on a key that is ever written
      conditionally, carries the bytes that key stands for. */
  predicate ContentAddressed(canon: Option<Bytes>, put: PutRequest) {
    && (put.conditional ==> canon.Some?)
    && (canon.Some? ==> put.bytes == canon.value)
  }

  /** Bytes fetched from the backend may be cached under a key the store lacks: its Delete is queued and will
      retain whatever is there; or its tombstone names these bytes, or gives way to a logged write of
      them; or the backend still holds them. */
  predicate Harmless(slot: Slot, backend: Option<Bytes>, fetched: Bytes) {
    if slot.queue.Some? then slot.queue.value.op.Delete?
    else if slot.tomb.Some? then
      slot.tomb.value.digest == DigestOf(fetched) || (slot.intent.Some? && slot.intent.value.bytes == fetched)
    else backend == Some(fetched)
  }

  ghost predicate Enabled(s: State, a: Action) {
    match a
    case Tick(_) => true
    case BeginPut(put) => s.lock.Free? && ContentAddressed(Lookup(s.config.canon, put.key), put)
    case BeginDelete(_, _) => s.lock.Free?
    case BeginReplay(k) => s.lock.Free? && k in s.disk.intents
    case Advance => LockedKey(s.lock).Some? && Grounded(s.lock, SlotOf(s.disk, LockedKey(s.lock).value))
    case IoError => true
    case Crash(bytesOnDisk) => bytesOnDisk == TotalBytes(s.disk.store)
    case Hydrate(k, fetched) =>
      && s.lock.Free? && k !in s.disk.store && QuotaAllows(EnvOf(s), 0, |fetched|)
      && Lookup(s.config.canon, k) in {None, Some(fetched)} && Harmless(SlotOf(s.disk, k), Lookup(s.backend, k), fetched)
    case BeginScan => s.worker.Idle? && s.flights == map[]
    case ScanNotice(k) => s.worker.Scanning? && k in s.disk.queue
    case ScanRead(k) => s.worker.Scanning? && k in s.worker.pending
    case EndScan => s.worker.Scanning? && s.worker.pending == {}
    case ListBackend(keys) => s.worker.Uploading? && s.flights == map[] && keys <= s.backend.Keys
    case EndUploads => s.worker.Uploading? && s.flights == map[] && !s.lock.Completing?
    case EndRound => s.flights == map[] && !s.lock.Completing?
    case Capture(k) => s.lock.Free? && k !in s.flights && MaySend(s, k)
    case Effect(k) => k in s.flights && !s.flights[k].effected
    case Complete(k) => s.lock.Free? && k in s.flights && s.flights[k].effected
    case Skip(k) =>
      && s.lock.Free? && s.worker.Uploading? && k !in s.flights
      && k in s.worker.listed && k in s.worker.seen
      && s.worker.seen[k].op.Put? && s.worker.seen[k].op.conditional
      && !BlockedIn(s.worker.seen, s.worker.seen[k])
    case Fail(k, _) => s.lock.Free? && (s.worker.Uploading? || s.worker.Deleting?) && k in s.worker.seen
    case Collect(k, generation, now) =>
      s.lock.Free? && now <= s.clock && k in s.disk.tombs && s.disk.tombs[k].generation == generation
      && s.disk.tombs[k].deleteAfter <= now && k !in s.disk.queue
  }

  /** The object-store call of one flight. */
  function Sent(f: Flight, backend: Option<Bytes>): Option<Bytes> {
    match f.item.op
    case Put(_, _, conditional) => if conditional && backend.Some? then backend else f.payload
    case Delete => None
  }

  function Assign<V>(m: map<Key, V>, k: Key, v: Option<V>): map<Key, V> {
    if v.Some? then m[k := v.value] else m - {k}
  }

  function Deferred(item: QueueItem, retryAt: nat): QueueItem {
    item.(attempts := item.attempts + 1, retryAfter := Some(retryAt))
  }

  ghost function Next(s: State, a: Action): State
    requires Enabled(s, a)
  {
    match a
    case Tick(n) => s.(clock := s.clock + n)
    case BeginPut(put) =>
      s.(lock := if put.key in s.disk.intents then Replaying(put.key, ReplayStore, ThenPut(put))
                 else Putting(put, Admit, false))
    case BeginDelete(host, k) =>
      s.(lock := if k in s.disk.intents then Replaying(k, ReplayStore, ThenDelete(host)) else Removing(host, k))
    case BeginReplay(k) => s.(lock := Replaying(k, ReplayStore, Done))
    case Advance => AdvanceLock(s)
    case IoError => s.(lock := Free)
    case Crash(bytesOnDisk) => s.(lock := Free, flights := map[], worker := Idle, storeBytes := bytesOnDisk)
    case Hydrate(k, fetched) => Apply(s, k, PutStore(fetched))
    case BeginScan => s.(worker := Scanning(s.clock, s.disk.queue.Keys, map[]))
    case ScanNotice(k) => s.(worker := s.worker.(pending := s.worker.pending + {k}))
    case ScanRead(k) =>
      s.(worker := Scanning(s.worker.start, s.worker.pending - {k},
                            if k in s.disk.queue then s.worker.seen[k := s.disk.queue[k]] else s.worker.seen))
    case EndScan => s.(worker := Uploading(s.worker.start, s.worker.seen, {}))
    case ListBackend(keys) => s.(worker := s.worker.(listed := keys))
    case EndUploads => s.(worker := Worker.Deleting(s.worker.start, s.worker.seen))
    case EndRound => s.(worker := Idle)
    case Capture(k) =>
      var item := Seen(s.worker)[k];
      s.(flights := s.flights[k := Flight(item, if item.op.Put? then Some(s.disk.store[k]) else None, false)])
    case Effect(k) =>
      var f := s.flights[k];
      s.(backend := Assign(s.backend, k, Sent(f, Lookup(s.backend, k))), flights := s.flights[k := f.(effected := true)])
    case Complete(k) =>
      var item := s.flights[k].item;
      s.(flights := s.flights - {k},
         lock := if StillCurrent(s, k, item) then Completing(k, item, if item.op.Delete? then Retain else Receipt) else Free)
    case Skip(k) =>
      var item := s.worker.seen[k];
      s.(lock := if StillCurrent(s, k, item) then Completing(k, item, Receipt) else Free)
    case Fail(k, retryAt) =>
      var t := s.(flights := s.flights - {k});
      if StillCurrent(s, k, s.worker.seen[k]) then Apply(t, k, PutQueue(Deferred(s.disk.queue[k], retryAt))) else t
    case Collect(k, _, _) => s.(lock := Collecting(k, Payload))
  }

  ghost predicate Legal(s: State, run: seq<Action>)
    decreases |run|
  {
    run == [] || (Enabled(s, run[0]) && Legal(Next(s, run[0]), run[1..]))
  }

  ghost function After(s: State, run: seq<Action>): State
    requires Legal(s, run)
    decreases |run|
  {
    if run == [] then s else After(Next(s, run[0]), run[1..])
  }

  // ----- building runs -----

  /** `t` can follow `s`. */
  ghost predicate Reaches(s: State, t: State) {
    exists run :: Legal(s, run) && After(s, run) == t
  }

  lemma ReachesItself(s: State)
    ensures Reaches(s, s)
  {
    assert Legal(s, []);
  }

  lemma {:induction false} RunThenStep(s: State, run: seq<Action>, a: Action)
    requires Legal(s, run) && Enabled(After(s, run), a)
    ensures Legal(s, run + [a]) && After(s, run + [a]) == Next(After(s, run), a)
    decreases |run|
  {
    if run == [] {
      assert run + [a] == [a] && [a][1..] == [];
    } else {
      RunThenStep(Next(s, run[0]), run[1..], a);
      assert (run + [a])[1..] == run[1..] + [a];
    }
  }

  lemma ReachesNext(s: State, t: State, a: Action)
    requires Reaches(s, t) && Enabled(t, a)
    ensures Reaches(s, Next(t, a))
  {
    var run :| Legal(s, run) && After(s, run) == t;
    RunThenStep(s, run, a);
  }

  // ----- bytes held by a store -----

  ghost function TotalBytes(m: map<Key, Bytes>): nat
    decreases |m|
  {
    if m == map[] then 0
    else
      var k :| k in m;
      |m[k]| + TotalBytes(m - {k})
  }

  lemma {:induction false} TotalWithout(m: map<Key, Bytes>, k: Key)
    ensures TotalBytes(m) == Len(Lookup(m, k)) + TotalBytes(m - {k})
    decreases |m|
  {
    if k !in m {
      assert m - {k} == m;
    } else {
      var c :| c in m && TotalBytes(m) == |m[c]| + TotalBytes(m - {c});
      if c != k {
        TotalWithout(m - {c}, k);
        TotalWithout(m - {k}, c);
        assert m - {c} - {k} == m - {k} - {c};
      }
    }
  }

  /** The running counter follows the store through any write. */
  lemma BytesFollow(s: State, k: Key, w: Write)
    requires s.storeBytes == TotalBytes(s.disk.store)
    ensures Apply(s, k, w).storeBytes == TotalBytes(Apply(s, k, w).disk.store)
  {
    TotalWithout(s.disk.store, k);
    TotalWithout(Apply(s, k, w).disk.store, k);
    assert w.PutStore? ==> s.disk.store[k := w.bytes] - {k} == s.disk.store - {k};
  }
}
