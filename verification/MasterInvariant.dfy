/** What holds in every reachable state of the master, between any two durable writes. The
    protocol is per key, so the invariant is a predicate on one key's slice of the state. */
module MasterInvariant {
  import opened Basics
  import opened BackendQueue
  import opened MasterState

  /** Everything the state says about one key. */
  datatype Cell = Cell(
    slot: Slot,
    backend: Option<Bytes>,
    flight: Option<Flight>,
    seen: Option<QueueItem>,
    unread: bool,
    listed: bool,
    canon: Option<Bytes>,
    promise: Option<Promise>,
    lock: Lock)

  function CellOf(s: State, k: Key): Cell {
    Cell(SlotOf(s.disk, k), Lookup(s.backend, k), Lookup(s.flights, k), Lookup(Seen(s.worker), k),
         s.worker.Scanning? && k in s.worker.pending, s.worker.Uploading? && k in s.worker.listed,
         Lookup(s.config.canon, k), Lookup(s.promised, k),
         if LockedKey(s.lock) == Some(k) then s.lock else Free)
  }

  // ----- the parts of the invariant -----

  /** No backup obligation is lost: a stored payload is logged, queued, retained for deletion, or
      already in the backend byte for byte. */
  predicate Obliged(c: Cell) {
    c.slot.store.Some? ==> c.slot.intent.Some? || c.slot.queue.Some? || c.slot.tomb.Some? || c.backend == c.slot.store
  }

  /** A queued Put describes the stored bytes, except while a logged write is unfinished. */
  predicate QueueMatches(c: Cell) {
    c.slot.queue.Some? && c.slot.queue.value.op.Put? ==>
      && c.slot.store.Some?
      && (c.slot.intent.None? ==>
            && c.slot.tomb.None?
            && c.slot.queue.value.op.digest == DigestOf(c.slot.store.value)
            && c.slot.queue.value.op.size == |c.slot.store.value|)
      && (c.slot.tomb.Some? ==> c.slot.intent.Some? && c.slot.queue.value.op == PutOperation(c.slot.intent.value))
  }

  /** A tombstone means the backend copy is gone and names the bytes it retains, unless a queued Delete
      will replace it. */
  predicate TombMatches(c: Cell) {
    c.slot.tomb.Some? ==>
      && (c.backend.Some? ==> c.slot.intent.Some? && c.backend.value == c.slot.intent.value.bytes)
      && (c.slot.store.Some? ==>
            || DigestOf(c.slot.store.value) == c.slot.tomb.value.digest
            || (c.slot.intent.Some? && c.slot.store.value == c.slot.intent.value.bytes)
            || (c.slot.queue.Some? && c.slot.queue.value.op.Delete?))
  }

  /** A receipt names the backend's bytes whenever nothing is queued. */
  predicate ReceiptMatches(c: Cell) {
    c.slot.receipt.Some? && c.slot.queue.None? ==> c.backend.Some? && DigestOf(c.backend.value) == c.slot.receipt.value
  }

  /** An acknowledged request is what clients see until the next request on the key is logged. */
  predicate PromiseKept(c: Cell) {
    c.promise.Some? ==>
      && c.slot.intent.None?
      && SlotView(c.slot, c.backend) == (match c.promise.value case Present(bytes) => Some(bytes) case Absent => None)
  }

  predicate SameEntry(a: QueueItem, b: QueueItem) {
    a.generation == b.generation ==> a.op == b.op && a.host == b.host && a.updatedAt == b.updatedAt
  }

  /** Generations and times are fresh, and one generation is one entry. */
  predicate Numbered(c: Cell, k: Key, clock: nat, generations: nat) {
    && (c.slot.queue.Some? ==> c.slot.queue.value.generation < generations && c.slot.queue.value.updatedAt <= clock && c.slot.queue.value.key == k)
    && (c.seen.Some? ==> c.seen.value.generation < generations && c.seen.value.key == k)
    && (c.seen.Some? && c.slot.queue.Some? ==> SameEntry(c.seen.value, c.slot.queue.value))
  }

  /** Keys written conditionally carry one value everywhere. */
  predicate Addressed(c: Cell, k: Key) {
    && (c.slot.intent.Some? ==> c.slot.intent.value.key == k && (c.slot.intent.value.conditional ==> c.canon.Some?))
    && (c.slot.queue.Some? ==> EntryAddressed(c, c.slot.queue.value))
    && (c.seen.Some? ==> EntryAddressed(c, c.seen.value))
    && (c.canon.Some? ==>
          && (c.slot.store.Some? ==> c.slot.store == c.canon)
          && (c.backend.Some? ==> c.backend == c.canon)
          && (c.slot.intent.Some? ==> c.slot.intent.value.bytes == c.canon.value))
  }

  predicate EntryAddressed(c: Cell, item: QueueItem) {
    item.op.Put? ==>
      && (item.op.conditional ==> c.canon.Some?)
      && (c.canon.Some? ==> item.op.digest == DigestOf(c.canon.value))
  }

  /** An entry in flight was unblocked, is still queued in some generation, and once effected has
      left its own mark on the backend. */
  ghost predicate FlightTracked(c: Cell, worker: Worker) {
    c.flight.Some? ==>
      var f := c.flight.value;
      && c.slot.queue.Some?
      && c.seen == Some(f.item)
      && !BlockedIn(Seen(worker), f.item)
      && (f.item.op.Put? ==>
            && worker.Uploading?
            && f.payload.Some? && DigestOf(f.payload.value) == f.item.op.digest
            && (c.canon.Some? ==> f.payload == c.canon)
            && (f.effected ==> c.backend == f.payload)
            && (c.slot.tomb.Some? ==> c.slot.intent.Some? && f.payload.value == c.slot.intent.value.bytes))
      && (f.item.op.Delete? ==> worker.Deleting? && (f.effected ==> c.backend.None?))
  }

  /** Whatever was queued before a scan began is unread, or was read in its present generation. */
  predicate Scanned(c: Cell, worker: Worker) {
    && (!worker.Idle? && c.slot.queue.Some? && c.slot.queue.value.updatedAt < worker.start ==>
          c.unread || (c.seen.Some? && c.seen.value.generation == c.slot.queue.value.generation))
    && (worker.Uploading? || worker.Deleting? ==> !c.unread)
    && (c.listed ==> worker.Uploading? && c.backend.Some?)
  }

  /** What the lock holder has already made durable. */
  predicate Staged(c: Cell, k: Key) {
    match c.lock
    case Free => true
    case Replaying(_, stage, next) =>
      && c.slot.intent.Some?
      && (next.ThenPut? ==> next.put.key == k && ContentAddressed(c.canon, next.put))
      && (!stage.ReplayStore? ==> c.slot.store == Some(c.slot.intent.value.bytes))
      && (stage.ReplayCancel? || stage.ReplayRemove? ==> c.slot.queue.Some? && c.slot.queue.value.op == PutOperation(c.slot.intent.value))
      && (stage.ReplayRemove? ==> c.slot.tomb.None?)
    case Putting(req, stage, wasTombstoned) =>
      && ContentAddressed(c.canon, req)
      && (stage.Admit? ==> c.slot.intent.None?)
      && (!stage.Admit? ==> c.slot.intent == Some(req))
      && (stage.StoreWrite? || stage.CancelGc? ==> wasTombstoned == c.slot.tomb.Some?)
      && (stage.CancelGc? || stage.Enqueue? || stage.RemoveIntent? ==> c.slot.store == Some(req.bytes))
      && (stage.Enqueue? || stage.RemoveIntent? ==> c.slot.tomb.None?)
      && (stage.RemoveIntent? ==> c.slot.queue.Some? && c.slot.queue.value.op == PutOperation(req))
    case Removing(_, _) => c.slot.intent.None?
    case Completing(_, item, stage) =>
      && c.flight.None?
      && c.slot.queue.Some? && c.slot.queue.value.op == item.op
      && (item.op.Put? ==>
            && !stage.Retain?
            && c.backend.Some? && DigestOf(c.backend.value) == item.op.digest
            && (stage.Dequeue? ==> c.slot.receipt == Some(item.op.digest)))
      && (item.op.Delete? ==>
            && c.backend.None?
            && (!stage.Retain? ==> (c.slot.store.Some? <==> c.slot.tomb.Some?))
            && (!stage.Retain? && c.slot.store.Some? ==> DigestOf(c.slot.store.value) == c.slot.tomb.value.digest)
            && (stage.Dequeue? ==> c.slot.receipt.None?))
    case Collecting(_, stage) =>
      && c.slot.tomb.Some? && c.slot.queue.None? && c.flight.None?
      && (stage.Tomb? && c.slot.store.Some? ==> c.slot.intent.Some? && c.slot.store.value == c.slot.intent.value.bytes)
  }

  ghost predicate CellOk(c: Cell, k: Key, worker: Worker, clock: nat, generations: nat) {
    && Obliged(c) && QueueMatches(c) && TombMatches(c) && ReceiptMatches(c) && PromiseKept(c)
    && Numbered(c, k, clock, generations) && Addressed(c, k)
    && FlightTracked(c, worker) && Scanned(c, worker) && Staged(c, k)
  }

  ghost predicate KeyOk(s: State, k: Key) {
    CellOk(CellOf(s, k), k, s.worker, s.clock, s.nextGeneration)
  }

  ghost predicate Inv(s: State) {
    && s.storeBytes == TotalBytes(s.disk.store)
    && (!s.worker.Idle? ==> s.worker.start <= s.clock)
    && forall k :: KeyOk(s, k)
  }

  /** A fresh master in front of a backend that already holds objects. */
  predicate Init(s: State) {
    && s.disk == Disk(map[], map[], map[], map[], map[])
    && s.storeBytes == 0 && s.lock == Free && s.flights == map[] && s.worker == Idle && s.promised == map[]
    && forall k :: k in s.backend && k in s.config.canon ==> s.backend[k] == s.config.canon[k]
  }

  lemma InitInv(s: State)
    requires Init(s)
    ensures Inv(s)
  {
  }

  // ----- keys a step does not touch -----

  lemma Untouched(s: State, t: State, k: Key)
    requires KeyOk(s, k) && CellOf(t, k) == CellOf(s, k) && t.worker == s.worker
    requires s.clock <= t.clock && s.nextGeneration <= t.nextGeneration
    ensures KeyOk(t, k)
  {
  }

  // ----- the lock holder's writes -----

  function Decided(c: Cell, env: Env): Cell
    requires Grounded(c.lock, c.slot)
  {
    var d := Decide(c.lock, c.slot, env);
    c.(slot := WriteSlot(c.slot, d.write), lock := d.lock,
       promise := if d.promise.Some? then d.promise else if d.write.LogIntent? then None else c.promise)
  }

  function Generations(c: Cell, env: Env): nat
    requires Grounded(c.lock, c.slot)
  {
    var w := Decide(c.lock, c.slot, env).write;
    if w.PutQueue? || w.PutTomb? then env.nextGeneration + 1 else env.nextGeneration
  }

  ghost predicate Sound(c: Cell, k: Key, worker: Worker, env: Env) {
    && CellOk(c, k, worker, env.clock, env.nextGeneration)
    && (!worker.Idle? ==> worker.start <= env.clock)
    && LockedKey(c.lock) == Some(k) && Grounded(c.lock, c.slot)
  }

  lemma ReplayStoreKeeps(c: Cell, k: Key, worker: Worker, env: Env)
    requires Sound(c, k, worker, env) && c.lock.Replaying? && c.lock.replay.ReplayStore?
    ensures CellOk(Decided(c, env), k, worker, env.clock, Generations(c, env))
  {
  }

  lemma ReplayQueueKeeps(c: Cell, k: Key, worker: Worker, env: Env)
    requires Sound(c, k, worker, env) && c.lock.Replaying? && c.lock.replay.ReplayQueue?
    ensures CellOk(Decided(c, env), k, worker, env.clock, Generations(c, env))
  {
  }

  lemma ReplayEndKeeps(c: Cell, k: Key, worker: Worker, env: Env)
    requires Sound(c, k, worker, env) && c.lock.Replaying? && (c.lock.replay.ReplayCancel? || c.lock.replay.ReplayRemove?)
    ensures CellOk(Decided(c, env), k, worker, env.clock, Generations(c, env))
  {
  }

  lemma AdmitKeeps(c: Cell, k: Key, worker: Worker, env: Env)
    requires Sound(c, k, worker, env) && c.lock.Putting? && c.lock.stage.Admit?
    ensures CellOk(Decided(c, env), k, worker, env.clock, Generations(c, env))
  {
  }

  lemma StoreWriteKeeps(c: Cell, k: Key, worker: Worker, env: Env)
    requires Sound(c, k, worker, env) && c.lock.Putting? && c.lock.stage.StoreWrite?
    ensures CellOk(Decided(c, env), k, worker, env.clock, Generations(c, env))
  {
  }

  lemma CancelGcKeeps(c: Cell, k: Key, worker: Worker, env: Env)
    requires Sound(c, k, worker, env) && c.lock.Putting? && c.lock.stage.CancelGc?
    ensures CellOk(Decided(c, env), k, worker, env.clock, Generations(c, env))
  {
  }

  lemma EnqueueKeeps(c: Cell, k: Key, worker: Worker, env: Env)
    requires Sound(c, k, worker, env) && c.lock.Putting? && c.lock.stage.Enqueue?
    ensures CellOk(Decided(c, env), k, worker, env.clock, Generations(c, env))
  {
  }

  lemma RemoveIntentKeeps(c: Cell, k: Key, worker: Worker, env: Env)
    requires Sound(c, k, worker, env) && c.lock.Putting? && c.lock.stage.RemoveIntent?
    ensures CellOk(Decided(c, env), k, worker, env.clock, Generations(c, env))
  {
  }

  lemma RemoveKeeps(c: Cell, k: Key, worker: Worker, env: Env)
    requires Sound(c, k, worker, env) && c.lock.Removing?
    ensures CellOk(Decided(c, env), k, worker, env.clock, Generations(c, env))
  {
  }

  lemma RetainKeeps(c: Cell, k: Key, worker: Worker, env: Env)
    requires Sound(c, k, worker, env) && c.lock.Completing? && c.lock.complete.Retain?
    ensures CellOk(Decided(c, env), k, worker, env.clock, Generations(c, env))
  {
  }

  lemma ReceiptKeeps(c: Cell, k: Key, worker: Worker, env: Env)
    requires Sound(c, k, worker, env) && c.lock.Completing? && c.lock.complete.Receipt?
    ensures CellOk(Decided(c, env), k, worker, env.clock, Generations(c, env))
  {
  }

  lemma DequeueKeeps(c: Cell, k: Key, worker: Worker, env: Env)
    requires Sound(c, k, worker, env) && c.lock.Completing? && c.lock.complete.Dequeue?
    ensures CellOk(Decided(c, env), k, worker, env.clock, Generations(c, env))
  {
  }

  lemma CollectKeeps(c: Cell, k: Key, worker: Worker, env: Env)
    requires Sound(c, k, worker, env) && c.lock.Collecting?
    ensures CellOk(Decided(c, env), k, worker, env.clock, Generations(c, env))
  {
  }

  lemma ReplayKeeps(c: Cell, k: Key, worker: Worker, env: Env)
    requires Sound(c, k, worker, env) && c.lock.Replaying?
    ensures CellOk(Decided(c, env), k, worker, env.clock, Generations(c, env))
  {
    match c.lock.replay {
      case ReplayStore => ReplayStoreKeeps(c, k, worker, env);
      case ReplayQueue => ReplayQueueKeeps(c, k, worker, env);
      case ReplayCancel => ReplayEndKeeps(c, k, worker, env);
      case ReplayRemove => ReplayEndKeeps(c, k, worker, env);
    }
  }

  lemma PutKeeps(c: Cell, k: Key, worker: Worker, env: Env)
    requires Sound(c, k, worker, env) && c.lock.Putting?
    ensures CellOk(Decided(c, env), k, worker, env.clock, Generations(c, env))
  {
    match c.lock.stage {
      case Admit => AdmitKeeps(c, k, worker, env);
      case StoreWrite => StoreWriteKeeps(c, k, worker, env);
      case CancelGc => CancelGcKeeps(c, k, worker, env);
      case Enqueue => EnqueueKeeps(c, k, worker, env);
      case RemoveIntent => RemoveIntentKeeps(c, k, worker, env);
    }
  }

  lemma DecisionKeeps(c: Cell, k: Key, worker: Worker, env: Env)
    requires Sound(c, k, worker, env)
    ensures CellOk(Decided(c, env), k, worker, env.clock, Generations(c, env))
    ensures LockedKey(Decided(c, env).lock) in {None, Some(k)}
  {
    match c.lock {
      case Replaying(_, _, _) => ReplayKeeps(c, k, worker, env);
      case Putting(_, _, _) => PutKeeps(c, k, worker, env);
      case Removing(_, _) => RemoveKeeps(c, k, worker, env);
      case Completing(_, _, Retain) => RetainKeeps(c, k, worker, env);
      case Completing(_, _, Receipt) => ReceiptKeeps(c, k, worker, env);
      case Completing(_, _, Dequeue) => DequeueKeeps(c, k, worker, env);
      case Collecting(_, _) => CollectKeeps(c, k, worker, env);
    }
  }

  /** The state-level step is the key-level decision, and nothing else. */
  lemma AdvanceIsLocal(s: State, j: Key)
    requires Enabled(s, Advance)
    requires var k := LockedKey(s.lock);
             LockedKey(Decide(s.lock, SlotOf(s.disk, k.value), EnvOf(s)).lock) in {None, k}
    ensures var k := LockedKey(s.lock).value;
            CellOf(AdvanceLock(s), j) == if j == k then Decided(CellOf(s, k), EnvOf(s)) else CellOf(s, j)
  {
    var k := LockedKey(s.lock).value;
    WriteIsLocal(s.disk, k, Decide(s.lock, SlotOf(s.disk, k), EnvOf(s)).write, j);
  }

  lemma AdvanceStaysOnKey(s: State)
    requires Inv(s) && Enabled(s, Advance)
    ensures LockedKey(AdvanceLock(s).lock) in {None, LockedKey(s.lock)}
  {
    var key := LockedKey(s.lock).value;
    assert KeyOk(s, key);
    DecisionKeeps(CellOf(s, key), key, s.worker, EnvOf(s));
  }

  lemma AdvanceKeeps(s: State)
    requires Inv(s) && Enabled(s, Advance)
    ensures Inv(Next(s, Advance))
  {
    var t, key := AdvanceLock(s), LockedKey(s.lock).value;
    assert KeyOk(s, key);
    DecisionKeeps(CellOf(s, key), key, s.worker, EnvOf(s));
    BytesFollow(s, key, Decide(s.lock, SlotOf(s.disk, key), EnvOf(s)).write);
    forall k ensures KeyOk(t, k) {
      AdvanceIsLocal(s, k);
      if k != key { assert KeyOk(s, k); Untouched(s, t, k); }
    }
  }

  // ----- steps on one key outside the lock holder's sequence -----

  ghost predicate Spares(s: State, t: State, key: Key) {
    && t.worker == s.worker && s.clock == t.clock && s.nextGeneration <= t.nextGeneration
    && forall k :: k != key ==> CellOf(t, k) == CellOf(s, k)
  }

  lemma OneKeyKeeps(s: State, t: State, key: Key)
    requires Inv(s) && Spares(s, t, key) && KeyOk(t, key) && t.storeBytes == TotalBytes(t.disk.store)
    ensures Inv(t)
  {
    forall k ensures KeyOk(t, k) {
      assert KeyOk(s, k);
      if k != key { Untouched(s, t, k); }
    }
  }

  lemma LockedKeeps(c: Cell, lock: Lock, k: Key, worker: Worker, clock: nat, generations: nat)
    requires CellOk(c, k, worker, clock, generations) && Staged(c.(lock := lock), k)
    ensures CellOk(c.(lock := lock), k, worker, clock, generations)
  {
  }

  lemma LockingKeeps(s: State, t: State)
    requires Inv(s) && s.lock.Free? && t == s.(lock := t.lock)
    requires LockedKey(t.lock).Some? ==> Staged(CellOf(t, LockedKey(t.lock).value), LockedKey(t.lock).value)
    ensures Inv(t)
  {
    forall k ensures KeyOk(t, k) {
      assert KeyOk(s, k);
      assert CellOf(t, k) == CellOf(s, k).(lock := CellOf(t, k).lock);
      LockedKeeps(CellOf(s, k), CellOf(t, k).lock, k, s.worker, s.clock, s.nextGeneration);
    }
  }

  lemma BeginPutKeeps(s: State, put: PutRequest)
    requires Inv(s) && Enabled(s, BeginPut(put))
    ensures Inv(Next(s, BeginPut(put)))
  {
    assert KeyOk(s, put.key);
    LockingKeeps(s, Next(s, BeginPut(put)));
  }

  lemma BeginDeleteKeeps(s: State, host: Host, key: Key)
    requires Inv(s) && Enabled(s, BeginDelete(host, key))
    ensures Inv(Next(s, BeginDelete(host, key)))
  {
    assert KeyOk(s, key);
    LockingKeeps(s, Next(s, BeginDelete(host, key)));
  }

  lemma BeginReplayKeeps(s: State, key: Key)
    requires Inv(s) && Enabled(s, BeginReplay(key))
    ensures Inv(Next(s, BeginReplay(key)))
  {
    assert KeyOk(s, key);
    LockingKeeps(s, Next(s, BeginReplay(key)));
  }

  lemma BeginCollectKeeps(s: State, key: Key, generation: nat, now: nat)
    requires Inv(s) && Enabled(s, Collect(key, generation, now))
    ensures Inv(Next(s, Collect(key, generation, now)))
  {
    assert KeyOk(s, key);
    LockingKeeps(s, Next(s, Collect(key, generation, now)));
  }

  lemma HydrateKeeps(s: State, key: Key, fetched: Bytes)
    requires Inv(s) && Enabled(s, Hydrate(key, fetched))
    ensures Inv(Next(s, Hydrate(key, fetched)))
  {
    assert KeyOk(s, key);
    CacheKeeps(CellOf(s, key), fetched, key, s.worker, s.clock, s.nextGeneration);
    var t := Next(s, Hydrate(key, fetched));
    CachedCell(s, key, fetched);
    BytesFollow(s, key, PutStore(fetched));
    forall k | k != key ensures KeyOk(t, k) {
      assert KeyOk(s, k);
      Untouched(s, t, k);
    }
  }

  lemma CachedCell(s: State, key: Key, fetched: Bytes)
    requires Enabled(s, Hydrate(key, fetched))
    ensures forall k :: CellOf(Next(s, Hydrate(key, fetched)), k) ==
              if k == key then CellOf(s, k).(slot := WriteSlot(SlotOf(s.disk, k), PutStore(fetched))) else CellOf(s, k)
  {
  }

  lemma CacheKeeps(c: Cell, fetched: Bytes, k: Key, worker: Worker, clock: nat, generations: nat)
    requires CellOk(c, k, worker, clock, generations) && c.lock.Free? && c.slot.store.None?
    requires c.canon in {None, Some(fetched)} && Harmless(c.slot, c.backend, fetched)
    ensures CellOk(c.(slot := WriteSlot(c.slot, PutStore(fetched))), k, worker, clock, generations)
  {
  }

  lemma FlightKeeps(c: Cell, f: Flight, k: Key, worker: Worker, clock: nat, generations: nat)
    requires CellOk(c, k, worker, clock, generations) && c.flight.None? && c.lock.Free? && !f.effected
    requires c.slot.queue.Some? && c.seen == Some(f.item) && c.slot.queue.value.generation == f.item.generation
    requires !BlockedIn(Seen(worker), f.item)
    requires if f.item.op.Delete? then worker.Deleting?
             else worker.Uploading? && f.payload == c.slot.store && DigestOf(f.payload.value) == f.item.op.digest
    ensures CellOk(c.(flight := Some(f)), k, worker, clock, generations)
  {
  }

  lemma CaptureKeeps(s: State, key: Key)
    requires Inv(s) && Enabled(s, Capture(key))
    ensures Inv(Next(s, Capture(key)))
  {
    var t := Next(s, Capture(key));
    assert KeyOk(s, key);
    assert CellOf(t, key) == CellOf(s, key).(flight := Some(t.flights[key]));
    FlightKeeps(CellOf(s, key), t.flights[key], key, s.worker, s.clock, s.nextGeneration);
    OneKeyKeeps(s, t, key);
  }

  lemma SentKeeps(c: Cell, k: Key, worker: Worker, clock: nat, generations: nat)
    requires CellOk(c, k, worker, clock, generations) && c.flight.Some?
    ensures CellOk(c.(flight := Some(c.flight.value.(effected := true)), backend := Sent(c.flight.value, c.backend)),
                   k, worker, clock, generations)
  {
  }

  lemma EffectKeeps(s: State, key: Key)
    requires Inv(s) && Enabled(s, Effect(key))
    ensures Inv(Next(s, Effect(key)))
  {
    var t, c := Next(s, Effect(key)), CellOf(s, key);
    assert KeyOk(s, key);
    assert CellOf(t, key) == c.(flight := Some(c.flight.value.(effected := true)), backend := Sent(c.flight.value, c.backend));
    SentKeeps(c, key, s.worker, s.clock, s.nextGeneration);
    OneKeyKeeps(s, t, key);
  }

  lemma LandedKeeps(s: State, key: Key)
    requires Inv(s) && s.lock.Free?
    ensures Inv(s.(flights := s.flights - {key}))
  {
    var t := s.(flights := s.flights - {key});
    assert KeyOk(s, key);
    assert CellOf(t, key) == CellOf(s, key).(flight := None);
    OneKeyKeeps(s, t, key);
  }

  lemma CompleteKeeps(s: State, key: Key)
    requires Inv(s) && Enabled(s, Complete(key))
    ensures Inv(Next(s, Complete(key)))
  {
    assert KeyOk(s, key);
    LandedKeeps(s, key);
    LockingKeeps(s.(flights := s.flights - {key}), Next(s, Complete(key)));
  }

  lemma SkipKeeps(s: State, key: Key)
    requires Inv(s) && Enabled(s, Skip(key))
    ensures Inv(Next(s, Skip(key)))
  {
    assert KeyOk(s, key);
    LockingKeeps(s, Next(s, Skip(key)));
  }

  lemma DeferKeeps(c: Cell, k: Key, worker: Worker, clock: nat, generations: nat, retryAt: nat)
    requires CellOk(c, k, worker, clock, generations) && c.lock.Free? && c.slot.queue.Some?
    ensures CellOk(c.(slot := WriteSlot(c.slot, PutQueue(Deferred(c.slot.queue.value, retryAt)))),
                   k, worker, clock, generations + 1)
  {
  }

  lemma FailKeeps(s: State, key: Key, retryAt: nat)
    requires Inv(s) && Enabled(s, Fail(key, retryAt))
    ensures Inv(Next(s, Fail(key, retryAt)))
  {
    LandedKeeps(s, key);
    var t := s.(flights := s.flights - {key});
    if StillCurrent(s, key, s.worker.seen[key]) {
      var u := Apply(t, key, PutQueue(Deferred(s.disk.queue[key], retryAt)));
      assert KeyOk(t, key);
      DeferKeeps(CellOf(t, key), key, t.worker, t.clock, t.nextGeneration, retryAt);
      assert CellOf(u, key) == CellOf(t, key).(slot := WriteSlot(CellOf(t, key).slot, PutQueue(Deferred(s.disk.queue[key], retryAt))));
      OneKeyKeeps(t, u, key);
    }
  }

  // ----- steps on the lock, the clock and the worker only -----

  lemma InterruptKeepsKey(s: State, a: Action, k: Key)
    requires KeyOk(s, k) && Enabled(s, a) && (a.Tick? || a.IoError? || a.Crash?)
    ensures KeyOk(Next(s, a), k)
  {
  }

  lemma InterruptKeeps(s: State, a: Action)
    requires Inv(s) && Enabled(s, a) && (a.Tick? || a.IoError? || a.Crash?)
    ensures Inv(Next(s, a))
  {
    forall k ensures KeyOk(Next(s, a), k) { InterruptKeepsKey(s, a, k); }
  }

  lemma BeginScanKeeps(s: State)
    requires Inv(s) && Enabled(s, BeginScan)
    ensures Inv(Next(s, BeginScan))
  {
    forall k ensures KeyOk(Next(s, BeginScan), k) { assert KeyOk(s, k); }
  }

  /** While the worker scans, only what it has seen of a key changes. */
  lemma LookingKeeps(c: Cell, d: Cell, k: Key, worker: Worker, worker': Worker, clock: nat, generations: nat)
    requires CellOk(c, k, worker, clock, generations) && worker.Scanning? && Scanned(d, worker')
    requires d == c.(seen := d.seen, unread := d.unread, listed := d.listed) && !d.listed && (d.seen == c.seen || d.seen == c.slot.queue)
    ensures CellOk(d, k, worker', clock, generations)
  {
  }

  lemma ScanKeepsKey(s: State, a: Action, k: Key)
    requires KeyOk(s, k) && Enabled(s, a) && (a.ScanNotice? || a.ScanRead? || a.EndScan?)
    ensures KeyOk(Next(s, a), k)
  {
    var t := Next(s, a);
    assert Scanned(CellOf(t, k), t.worker);
    LookingKeeps(CellOf(s, k), CellOf(t, k), k, s.worker, t.worker, s.clock, s.nextGeneration);
  }

  lemma ScanKeeps(s: State, a: Action)
    requires Inv(s) && Enabled(s, a) && (a.ScanNotice? || a.ScanRead? || a.EndScan?)
    ensures Inv(Next(s, a))
  {
    forall k ensures KeyOk(Next(s, a), k) { ScanKeepsKey(s, a, k); }
  }

  lemma RoundKeepsKey(s: State, a: Action, k: Key)
    requires KeyOk(s, k) && Enabled(s, a) && (a.ListBackend? || a.EndUploads? || a.EndRound?)
    ensures KeyOk(Next(s, a), k)
  {
  }

  lemma RoundKeeps(s: State, a: Action)
    requires Inv(s) && Enabled(s, a) && (a.ListBackend? || a.EndUploads? || a.EndRound?)
    ensures Inv(Next(s, a))
  {
    forall k ensures KeyOk(Next(s, a), k) { RoundKeepsKey(s, a, k); }
  }

  /** Every step keeps the invariant. */
  lemma StepKeeps(s: State, a: Action)
    requires Inv(s) && Enabled(s, a)
    ensures Inv(Next(s, a))
  {
    match a {
      case Tick(_) => InterruptKeeps(s, a);
      case IoError => InterruptKeeps(s, a);
      case Crash(_) => InterruptKeeps(s, a);
      case BeginPut(put) => BeginPutKeeps(s, put);
      case BeginDelete(host, k) => BeginDeleteKeeps(s, host, k);
      case BeginReplay(k) => BeginReplayKeeps(s, k);
      case Collect(k, generation, now) => BeginCollectKeeps(s, k, generation, now);
      case Advance => AdvanceKeeps(s);
      case Hydrate(k, fetched) => HydrateKeeps(s, k, fetched);
      case BeginScan => BeginScanKeeps(s);
      case ScanNotice(_) => ScanKeeps(s, a);
      case ScanRead(_) => ScanKeeps(s, a);
      case EndScan => ScanKeeps(s, a);
      case ListBackend(_) => RoundKeeps(s, a);
      case EndUploads => RoundKeeps(s, a);
      case EndRound => RoundKeeps(s, a);
      case Capture(k) => CaptureKeeps(s, k);
      case Effect(k) => EffectKeeps(s, k);
      case Complete(k) => CompleteKeeps(s, k);
      case Skip(k) => SkipKeeps(s, k);
      case Fail(k, retryAt) => FailKeeps(s, k, retryAt);
    }
  }

  /** Hence it holds after every run, with crashes and I/O errors anywhere in it. */
  lemma {:induction false} RunKeeps(s: State, run: seq<Action>)
    requires Inv(s) && Legal(s, run)
    ensures Inv(After(s, run))
    decreases |run|
  {
    if run != [] {
      StepKeeps(s, run[0]);
      RunKeeps(Next(s, run[0]), run[1..]);
    }
  }
}
