/** The master's request handlers as code over its directories. A ghost log records one step of the
    step system per durable write, so a crash after any write leaves a state of that system. */
module MasterServer {
  import opened Basics
  import opened BackendQueue
  import opened MasterState
  import opened MasterInvariant
  import opened MasterRefinement
  import opened CrashReplay
  import Publication

  datatype PutOutcome = Stored(newlyStored: bool) | Rejected

  /** What becomes of a call to the object store: it succeeds, or it fails before or after it took effect. */
  datatype Call = Answered | FailedBefore | FailedAfter

  datatype Attempt = Completed | Superseded | Postponed

  class Server {
    const config: Config
    var store: map<Key, Bytes>
    var intents: map<Key, PutRequest>
    var queue: map<Key, QueueItem>
    var receipts: map<Key, Digest>
    var tombs: map<Key, Tombstone>
    var backend: map<Key, Bytes>
    var storeBytes: nat
    var clock: nat
    var nextGeneration: nat
    ghost var s: State
    ghost const origin: State
    ghost var log: seq<Action>

    ghost predicate Matches(t: State)
      reads this
    {
      && t.config == config && t.disk == Disk(store, intents, queue, receipts, tombs) && t.backend == backend
      && t.storeBytes == storeBytes && t.clock == clock && t.nextGeneration == nextGeneration
    }

    /** The directories are those of a state the logged steps lead to. */
    ghost predicate Valid()
      reads this
    {
      Matches(s) && Inv(s) && Legal(origin, log) && After(origin, log) == s
    }

    /** An empty master. */
    constructor (config: Config, backend: map<Key, Bytes>)
      requires forall k :: k in backend && k in config.canon ==> backend[k] == config.canon[k]
      ensures Valid() && s.lock.Free? && log == [] && s.disk == Disk(map[], map[], map[], map[], map[])
      ensures this.backend == backend && this.config == config
    {
      this.config, this.backend := config, backend;
      store, intents, queue, receipts, tombs := map[], map[], map[], map[], map[];
      storeBytes, clock, nextGeneration := 0, 0, 0;
      ghost var i := State(config, Disk(map[], map[], map[], map[], map[]), backend, 0, Free, map[], Idle, map[], 0, 0);
      s, origin, log := i, i, [];
      InitInv(i);
      new;
    }

    /** The files now are those after step `a`: add it to the log. */
    ghost method Record(a: Action)
      requires Inv(s) && Legal(origin, log) && After(origin, log) == s
      requires Enabled(s, a) && Matches(Next(s, a))
      modifies `s, `log
      ensures Valid() && s == old(Next(s, a)) && log == old(log) + [a]
      ensures OnlyWrites([a]) ==> Continues(old(log), log)
    {
      RunThenStep(origin, log, a);
      StepKeeps(s, a);
      s, log := Next(s, a), log + [a];
    }

    function QuotaOk(oldLen: nat, newLen: nat): bool
      reads this
    {
      newLen <= oldLen || config.limit.None? || Monus(storeBytes, oldLen) + newLen <= config.limit.value
    }

    function LenOf(k: Key): nat
      reads this
    {
      if k in store then |store[k]| else 0
    }

    method StorePut(k: Key, bytes: Bytes)
      modifies `store, `storeBytes
      ensures store == old(store)[k := bytes] && storeBytes == Monus(old(storeBytes), old(LenOf(k))) + |bytes|
    {
      storeBytes := Monus(storeBytes, LenOf(k)) + |bytes|;
      store := store[k := bytes];
    }

    /** Reuse an entry with the same operation, replace any other. */
    method WriteBackendQueueItem(host: Host, k: Key, op: Operation)
      modifies `queue, `nextGeneration
      ensures var w := old(QueueWrite(SlotOf(Disk(store, intents, queue, receipts, tombs), k),
                                      Env(config, storeBytes, clock, nextGeneration), host, k, op));
              && Disk(store, intents, queue, receipts, tombs) == WriteDisk(old(Disk(store, intents, queue, receipts, tombs)), k, w)
              && nextGeneration == old(nextGeneration) + (if w.PutQueue? then 1 else 0)
    {
      if k in queue && queue[k].op == op { return; }
      var created := if k in queue then queue[k].createdAt else clock;
      queue := queue[k := QueueItem(nextGeneration, k, host, op, created, clock, 0, None)];
      nextGeneration := nextGeneration + 1;
    }

    // ----- the durable writes of a Put -----

    ghost function Files(): Disk
      reads this
    {
      Disk(store, intents, queue, receipts, tombs)
    }

    ghost function Counters(): Env
      reads this
    {
      Env(config, storeBytes, clock, nextGeneration)
    }

    method Classify(put: PutRequest) returns (admission: Admission)
      ensures admission == AdmissionOf(SlotOf(Files(), put.key), Counters(), put)
    {
      var k, digest := put.key, DigestOf(put.bytes);
      var changed := k !in store || DigestOf(store[k]) != digest;
      if put.conditional && changed && k in store { return Refused; }
      var needsBackup := changed || k in tombs || k in queue || Lookup(receipts, k) != Some(digest);
      if !needsBackup { return Duplicate; }
      if !QuotaOk(LenOf(k), |put.bytes|) { return Refused; }
      return Logged;
    }

    /** Write the payload unless the store holds it already. */
    method StorePayload(k: Key, put: PutRequest) returns (accepted: bool, wrote: bool)
      modifies `store, `storeBytes
      ensures var slot, env := SlotOf(old(Files()), k), old(Counters());
              && accepted == StoreAccepts(slot, env, put)
              && wrote == (accepted && Changes(slot, put.bytes))
              && store == (if wrote then old(store)[k := put.bytes] else old(store))
              && storeBytes == (if wrote then Monus(old(storeBytes), Len(slot.store)) + |put.bytes| else old(storeBytes))
    {
      accepted, wrote := true, false;
      if k in store && DigestOf(store[k]) == DigestOf(put.bytes) { return; }
      if (put.conditional && k in store) || !QuotaOk(LenOf(k), |put.bytes|) { return false, false; }
      StorePut(k, put.bytes);
      wrote := true;
    }

    /** The lock is held for `put`, whose intent is logged, with durable write `stage` to come. */
    ghost predicate AtStage(put: PutRequest, stage: PutStage)
      reads this
    {
      && Valid() && s.lock.Putting? && s.lock.req == put && s.lock.stage == stage && !stage.Admit?
      && put.key in intents && InProgress(s, put.key, put)
    }

    method WritePayload(put: PutRequest) returns (wrote: bool)
      requires AtStage(put, StoreWrite)
      modifies this
      ensures s == AdvanceLock(old(s))
      ensures AtStage(put, CancelGc) && Elsewhere(old(s), s, put.key) && Continues(old(log), log)
      ensures wrote == old(Changes(SlotOf(Files(), put.key), put.bytes))
    {
      StoreStep(s, put);
      WriteProgresses(s, put.key, put);
      AdvanceElsewhere(s);
      var accepted: bool;
      accepted, wrote := StorePayload(put.key, put);
      Record(Advance);
    }

    method CancelTombstone(put: PutRequest)
      requires AtStage(put, CancelGc)
      modifies this
      ensures s == AdvanceLock(old(s))
      ensures AtStage(put, Enqueue) && Elsewhere(old(s), s, put.key) && Continues(old(log), log)
    {
      CancelStep(s, put);
      WriteProgresses(s, put.key, put);
      AdvanceElsewhere(s);
      assert KeyOk(s, put.key);
      if put.key in tombs { tombs := tombs - {put.key}; }
      Record(Advance);
    }

    method EnqueuePut(put: PutRequest)
      requires AtStage(put, Enqueue)
      modifies this
      ensures s == AdvanceLock(old(s))
      ensures AtStage(put, RemoveIntent) && Elsewhere(old(s), s, put.key) && Continues(old(log), log)
    {
      EnqueueStep(s, put);
      WriteProgresses(s, put.key, put);
      AdvanceElsewhere(s);
      WriteBackendQueueItem(put.host, put.key, PutOperation(put));
      Record(Advance);
    }

    method DropPutIntent(put: PutRequest)
      requires AtStage(put, RemoveIntent)
      modifies this
      ensures s == AdvanceLock(old(s))
      ensures Valid() && s.lock.Free? && Landed(SlotOf(Files(), put.key), put)
      ensures Elsewhere(old(s), s, put.key) && Continues(old(log), log)
      ensures Lookup(s.promised, put.key) == Some(Present(put.bytes))
    {
      WriteProgresses(s, put.key, put);
      AdvanceElsewhere(s);
      intents := intents - {put.key};
      Record(Advance);
    }

    /** The four durable writes that follow a logged intent. */
    method WriteLogged(put: PutRequest) returns (newlyStored: bool)
      requires AtStage(put, StoreWrite)
      modifies this
      ensures Valid() && s.lock.Free? && Landed(SlotOf(Files(), put.key), put)
      ensures Lookup(s.promised, put.key) == Some(Present(put.bytes))
      ensures Continues(old(log), log)
      ensures newlyStored == old(Changes(SlotOf(Files(), put.key), put.bytes))
      ensures Elsewhere(old(s), s, put.key)
    {
      newlyStored := WritePayload(put);
      ghost var log1 := log;
      CancelTombstone(put);
      ghost var log2 := log;
      EnqueuePut(put);
      ghost var log3 := log;
      DropPutIntent(put);
      Continuing(old(log), log1, log2);
      Continuing(old(log), log2, log3);
      Continuing(old(log), log3, log);
    }

    /** Replay the intent of `k`, then go on with whatever asked for it. A refusal keeps the intent. */
    method ReplayIntent(k: Key) returns (ok: bool)
      requires Valid() && s.lock.Replaying? && s.lock.key == k && s.lock.replay.ReplayStore? && k in intents
      modifies this
      ensures s.promised == old(s).promised
      ensures Valid() && Elsewhere(old(s), s, k)
      ensures ok == StoreAccepts(SlotOf(old(Files()), k), old(Counters()), old(intents[k]))
      ensures !ok ==> s.lock.Free? && Files() == old(Files())
      ensures ok ==> Landed(SlotOf(Files(), k), old(intents[k])) && s.lock == Resumed(old(s).lock)
      ensures Continues(old(log), log)
    {
      var put := intents[k];
      ok := ReplayPayload(k, put);
      if ok {
        ghost var log1 := log;
        ReplayRest(k, put);
        Continuing(old(log), log1, log);
      }
    }

    /** The three durable writes of a replay after the payload is stored. */
    method ReplayRest(k: Key, put: PutRequest)
      requires Replays(k, put, ReplayQueue)
      modifies this
      ensures s.promised == old(s).promised && s.lock == Resumed(old(s).lock)
      ensures Valid() && Landed(SlotOf(Files(), k), put) && Elsewhere(old(s), s, k) && Continues(old(log), log)
    {
      ReplayEntry(k, put);
      ghost var log1 := log;
      ReplayTomb(k, put);
      ghost var log2 := log;
      ReplayDone(k, put);
      Continuing(old(log), log1, log2);
      Continuing(old(log), log2, log);
    }

    method ReplayPayload(k: Key, put: PutRequest) returns (ok: bool)
      requires Replays(k, put, ReplayStore)
      modifies this
      ensures s == AdvanceLock(old(s))
      ensures s.promised == old(s).promised
      ensures Valid() && Elsewhere(old(s), s, k) && Continues(old(log), log)
      ensures ok == StoreAccepts(SlotOf(old(Files()), k), old(Counters()), put)
      ensures if ok then Replays(k, put, ReplayQueue) && s.lock.next == old(s).lock.next
              else s.lock.Free? && Files() == old(Files())
    {
      ReplayStoreStep(s);
      AdvanceElsewhere(s);
      var wrote: bool;
      ok, wrote := StorePayload(k, put);
      Record(Advance);
    }

    ghost predicate Replays(k: Key, put: PutRequest, stage: ReplayStage)
      reads this
    {
      && Valid() && s.lock.Replaying? && s.lock.key == k && s.lock.replay == stage
      && k in intents && intents[k] == put
    }

    method ReplayEntry(k: Key, put: PutRequest)
      requires Replays(k, put, ReplayQueue)
      modifies this
      ensures s == AdvanceLock(old(s))
      ensures s.promised == old(s).promised
      ensures Replays(k, put, ReplayCancel) && Elsewhere(old(s), s, k) && Continues(old(log), log) && s.lock.next == old(s).lock.next
    {
      assert KeyOk(s, k);
      AdvanceElsewhere(s);
      WriteBackendQueueItem(put.host, k, PutOperation(put));
      Record(Advance);
    }

    method ReplayTomb(k: Key, put: PutRequest)
      requires Replays(k, put, ReplayCancel)
      modifies this
      ensures s == AdvanceLock(old(s))
      ensures s.promised == old(s).promised
      ensures Replays(k, put, ReplayRemove) && Elsewhere(old(s), s, k) && Continues(old(log), log) && s.lock.next == old(s).lock.next
    {
      AdvanceElsewhere(s);
      tombs := tombs - {k};
      Record(Advance);
    }

    method ReplayDone(k: Key, put: PutRequest)
      requires Replays(k, put, ReplayRemove)
      modifies this
      ensures s == AdvanceLock(old(s))
      ensures s.promised == old(s).promised
      ensures Valid() && Landed(SlotOf(Files(), k), put) && Elsewhere(old(s), s, k) && Continues(old(log), log)
      ensures s.lock == Resumed(old(s).lock)
    {
      assert KeyOk(s, k);
      AdvanceElsewhere(s);
      intents := intents - {k};
      Record(Advance);
    }

    /** Take the lock for `put`, replaying an older intent of its key first. */
    method OpenPut(put: PutRequest) returns (ok: bool)
      requires Valid() && s.lock.Free? && ContentAddressed(Lookup(config.canon, put.key), put)
      modifies this
      ensures s.promised == old(s).promised
      ensures Valid() && Elsewhere(old(s), s, put.key) && Continues(old(log), log)
      ensures if ok then s.lock == Putting(put, Admit, false) else s.lock.Free?
      ensures old(put.key !in intents) ==> ok && Files() == old(Files()) && backend == old(backend)
    {
      ok := true;
      var pending := put.key in intents;
      Record(BeginPut(put));
      ghost var log1 := log;
      if pending { ok := ReplayIntent(put.key); }
      Continuing(old(log), log1, log);
    }

    /** Collision check, duplicate check, quota, and then the intent. */
    method AdmitPut(put: PutRequest) returns (admission: Admission)
      requires Valid() && s.lock == Putting(put, Admit, false)
      modifies this
      ensures s == AdvanceLock(old(s))
      ensures Valid() && Elsewhere(old(s), s, put.key) && Continues(old(log), log)
      ensures admission.Refused? ==> s.lock.Free? && Files() == old(Files()) && s.promised == old(s).promised
      ensures admission.Duplicate? ==>
                s.lock.Free? && Files() == old(Files()) && Lookup(s.promised, put.key) == Some(Present(put.bytes))
      ensures admission.Logged? ==> AtStage(put, StoreWrite)
      ensures admission == AdmissionOf(SlotOf(old(Files()), put.key), old(Counters()), put)
    {
      admission := Classify(put);
      AdmitStep(s, put, admission);
      LoggedIsRecovering(s);
      AdvanceElsewhere(s);
      if admission.Logged? { intents := intents[put.key := put]; }
      Record(Advance);
    }

    /** One Put under the durable lock: recover an older intent, admit, log, store, cancel the
        tombstone, enqueue, and drop the intent. An acknowledgement means the bytes are readable and
        queued, or were backed up already; a refusal means nothing was written. */
    method ProcessPut(put: PutRequest) returns (outcome: PutOutcome)
      requires Valid() && s.lock.Free? && ContentAddressed(Lookup(config.canon, put.key), put)
      modifies this
      ensures Valid() && s.lock.Free? && Elsewhere(old(s), s, put.key) && Continues(old(log), log)
      ensures outcome.Stored? ==>
                View(s, put.key) == Some(put.bytes) && Lookup(s.promised, put.key) == Some(Present(put.bytes))
      ensures outcome.Stored? ==> Landed(SlotOf(Files(), put.key), put) || !NeedsBackup(SlotOf(Files(), put.key), put.bytes)
      ensures outcome.Rejected? ==>
                s.promised == old(s).promised && (old(put.key !in intents) ==> Files() == old(Files()) && backend == old(backend))
    {
      var ready := OpenPut(put);
      if !ready { return Rejected; }
      ghost var log1 := log;
      var admission := AdmitPut(put);
      ghost var log2 := log;
      Continuing(old(log), log1, log2);
      if admission.Refused? { return Rejected; }
      var newlyStored := false;
      if admission.Logged? { newlyStored := WriteLogged(put); }
      Continuing(old(log), log2, log);
      assert KeyOk(s, put.key);
      return Stored(newlyStored);
    }

    /** A batch: items are taken in order up to the first refusal. What was acknowledged is readable,
        the last value winning on a repeated key, and keys outside the batch are untouched. */
    method ProcessPuts(items: seq<PutRequest>) returns (acknowledged: nat)
      requires Valid() && s.lock.Free?
      requires forall i :: 0 <= i < |items| ==> ContentAddressed(Lookup(config.canon, items[i].key), items[i])
      modifies this
      ensures Valid() && s.lock.Free? && acknowledged <= |items| && Continues(old(log), log)
      ensures BatchPromised(old(s), s, items, acknowledged)
      ensures acknowledged == |items| || items[acknowledged].key !in old(intents) ==>
                BatchApplied(old(s), s, items[..acknowledged])
    {
      acknowledged := 0;
      while acknowledged < |items|
        invariant Valid() && s.lock.Free? && acknowledged <= |items| && Continues(old(log), log)
        invariant BatchPromised(old(s), s, items, acknowledged)
        invariant BatchApplied(old(s), s, items[..acknowledged]) && intents.Keys <= old(intents).Keys
      {
        ghost var log1, s1 := log, s;
        var outcome := ProcessPut(items[acknowledged]);
        Continuing(old(log), log1, log);
        OneMoreAcknowledged(old(s), s1, s, items, acknowledged);
        if outcome.Rejected? {
          if items[acknowledged].key !in old(intents) { NothingApplied(old(s), s1, s, items, acknowledged); }
          return;
        }
        OneMoreApplied(old(s), s1, s, items, acknowledged);
        NoNewIntents(s1, s, items[acknowledged].key);
        acknowledged := acknowledged + 1;
      }
      assert items[..|items|] == items;
    }

    /** A Delete: replay an older intent of the key, then enqueue. The payload stays. */
    method DurableDelete(host: Host, k: Key) returns (ok: bool)
      requires Valid() && s.lock.Free?
      modifies this
      ensures Valid() && s.lock.Free? && Elsewhere(old(s), s, k) && Continues(old(log), log)
      ensures ok ==> View(s, k) == None && Lookup(s.promised, k) == Some(Absent)
      ensures ok ==> k in queue && queue[k].op.Delete? && (old(k in store) ==> k in store)
      ensures !ok <==> old(k in intents && QuotaObjects(s, k))
    {
      ok := true;
      var pending := k in intents;
      if pending { ReplayRefusedIff(s, k); }
      Record(BeginDelete(host, k));
      ghost var log1 := log;
      if pending { ok := ReplayIntent(k); }
      Continuing(old(log), log1, log);
      if !ok { return; }
      ghost var log2 := log;
      EnqueueDelete(host, k);
      Continuing(old(log), log2, log);
    }

    method EnqueueDelete(host: Host, k: Key)
      requires Valid() && s.lock == Removing(host, k)
      modifies this
      ensures s == AdvanceLock(old(s))
      ensures Valid() && s.lock.Free? && Elsewhere(old(s), s, k) && Continues(old(log), log)
      ensures View(s, k) == None && Lookup(s.promised, k) == Some(Absent)
      ensures k in queue && queue[k].op.Delete? && store == old(store)
    {
      RemoveStep(s);
      AdvanceElsewhere(s);
      WriteBackendQueueItem(host, k, Operation.Delete);
      Record(Advance);
    }

    /** Startup and worker recovery: replay every logged intent, stopping at a refusal. */
    method RecoverMasterWriteIntents() returns (ok: bool)
      requires Valid() && s.lock.Free?
      modifies this
      ensures Valid() && s.lock.Free? && Continues(old(log), log)
      ensures ok ==> intents == map[] && Recovered(old(Files()), Files(), {})
      ensures !ok ==> exists k :: k in intents && QuotaObjects(s, k)
      ensures exists todo :: Recovered(old(Files()), Files(), todo)
      ensures old(Blocked(s)) ==> !ok && Files() == old(Files())
    {
      var todo := intents.Keys;
      ok := true;
      while todo != {}
        invariant Valid() && s.lock.Free? && Continues(old(log), log)
        invariant todo <= old(intents).Keys && Recovered(old(Files()), Files(), todo)
        invariant old(Blocked(s)) ==> Files() == old(Files()) && todo == intents.Keys != {}
        decreases |todo|
      {
        var k :| k in todo;
        ghost var log1, before := log, s;
        RecoveredHas(old(Files()), Files(), todo, k);
        ok := RecoverOne(k);
        Continuing(old(log), log1, log);
        if !ok {
          StillObjects(before, s, k);
          return;
        }
        RecoveredOne(old(Files()), before, s, todo, k);
        todo := todo - {k};
      }
      RecoveredAll(old(Files()), Files(), todo);
    }

    method RecoverOne(k: Key) returns (ok: bool)
      requires Valid() && s.lock.Free? && k in intents
      modifies this
      ensures Valid() && s.lock.Free? && Elsewhere(old(s), s, k) && Continues(old(log), log)
      ensures if ok then Landed(SlotOf(Files(), k), old(intents[k])) else Files() == old(Files())
      ensures ok <==> !old(QuotaObjects(s, k))
    {
      ReplayRefusedIff(s, k);
      Record(BeginReplay(k));
      ghost var log1 := log;
      ok := ReplayIntent(k);
      Continuing(old(log), log1, log);
    }

    // ----- reading -----

    /** A read with read-through: the answer is the view, and a hydrated copy does not change it. */
    method MasterGetOptional(k: Key) returns (bytes: Option<Bytes>)
      requires Valid() && s.lock.Free?
      modifies this
      ensures Valid() && s.lock.Free? && bytes == old(View(s, k)) && backend == old(backend)
      ensures forall j :: View(s, j) == old(View(s, j))
      ensures Files() == old(Files()) || (k !in old(store) && k in backend && Files() == old(Files()).(store := old(store)[k := backend[k]]))
    {
      if (k in queue && queue[k].op.Delete?) || k in tombs { return None; }
      if k in store { return Some(store[k]); }
      if k !in backend { return None; }
      bytes := Some(backend[k]);
      if QuotaOk(0, |backend[k]|) {
        assert KeyOk(s, k);
        forall j ensures View(Next(s, Hydrate(k, bytes.value)), j) == View(s, j) { OtherView(s, Hydrate(k, bytes.value), j); }
        StorePut(k, backend[k]);
        Record(Hydrate(k, bytes.value));
      }
    }

    // ----- local GC -----

    /** The tombstone is the one the catalog named, has expired, and nothing is queued. */
    predicate DueNow(k: Key, generation: nat, now: nat)
      reads this
    {
      k in tombs && tombs[k].generation == generation && tombs[k].deleteAfter <= now && k !in queue
    }

    /** One due item: checked again under the lock, then payload, then tombstone. */
    method CollectOne(k: Key, generation: nat, now: nat) returns (removed: bool)
      requires Valid() && s.lock.Free? && now <= clock
      modifies this
      ensures Valid() && s.lock.Free? && Elsewhere(old(s), s, k) && clock == old(clock) && backend == old(backend)
      ensures s.worker == old(s.worker) && s.flights == old(s.flights)
      ensures !old(DueNow(k, generation, now)) ==> !removed && Files() == old(Files())
      ensures old(DueNow(k, generation, now)) ==>
                && removed == old(k in store && DigestOf(store[k]) == tombs[k].digest)
                && Files() == old(Files()).(store := if removed then old(store) - {k} else old(store), tombs := old(tombs) - {k})
    {
      if !DueNow(k, generation, now) { return false; }
      Record(Collect(k, generation, now));
      removed := DropPayload(k);
      DropTombstone(k);
    }

    method DropPayload(k: Key) returns (removed: bool)
      requires Valid() && s.lock == Collecting(k, Payload) && k in tombs
      modifies this
      ensures s == AdvanceLock(old(s))
      ensures Valid() && s.lock == Collecting(k, Tomb) && Elsewhere(old(s), s, k)
      ensures removed == old(k in store && DigestOf(store[k]) == tombs[k].digest)
      ensures Files() == old(Files()).(store := if removed then old(store) - {k} else old(store))
      ensures clock == old(clock) && backend == old(backend)
    {
      AdvanceElsewhere(s);
      removed := k in store && DigestOf(store[k]) == tombs[k].digest;
      if removed {
        storeBytes := Monus(storeBytes, |store[k]|);
        store := store - {k};
      }
      Record(Advance);
    }

    method DropTombstone(k: Key)
      requires Valid() && s.lock == Collecting(k, Tomb) && k in tombs
      modifies this
      ensures s == AdvanceLock(old(s))
      ensures Valid() && s.lock.Free? && Elsewhere(old(s), s, k)
      ensures Files() == old(Files()).(tombs := old(tombs) - {k}) && clock == old(clock) && backend == old(backend)
    {
      AdvanceElsewhere(s);
      tombs := tombs - {k};
      Record(Advance);
    }

    /** One item of a pass that began in state `was`: if it could be collected then, its tombstone is gone now. */
    method CollectListed(k: Key, generation: nat, now: nat, ghost was: State) returns (removed: bool)
      requires Valid() && s.lock.Free? && now <= clock && Swept(was, s, now)
      modifies this
      ensures Valid() && s.lock.Free? && Swept(was, s, now) && clock == old(clock)
      ensures s.worker == old(s.worker) && s.flights == old(s.flights) && tombs.Keys <= old(tombs.Keys)
      ensures Collectable(was.disk, k, generation, now) ==> k !in tombs
      ensures |store| + (if removed then 1 else 0) == old(|store|)
    {
      ghost var before := s;
      StillDue(was, s, now, k);
      removed := CollectOne(k, generation, now);
      SweptMore(was, before, s, now, k);
      NoNewTombs(before, s, k);
      assert (old(store) - {k}).Keys == old(store).Keys - {k};
    }

    /** A pass over the due items of the catalog, however stale: what clients read does not change on
        any key without a logged write, and only expired, unqueued tombstones lose their payload. */
    method RunLocalGc(due: seq<(Key, nat)>, now: nat) returns (removed: nat)
      requires Valid() && s.lock.Free? && now <= clock
      modifies this
      ensures Valid() && s.lock.Free? && |store| + removed == old(|store|)
      ensures s.worker == old(s.worker) && s.flights == old(s.flights)
      ensures Swept(old(s), s, now)
      ensures forall i :: 0 <= i < |due| && old(DueNow(due[i].0, due[i].1, now)) ==>
                due[i].0 !in tombs && (due[i].0 !in old(intents) ==> due[i].0 !in store)
      ensures forall k :: k !in old(intents) ==> View(s, k) == old(View(s, k))
    {
      removed := 0;
      for n := 0 to |due|
        invariant Valid() && s.lock.Free? && now <= clock && |store| + removed == old(|store|)
        invariant s.worker == old(s.worker) && s.flights == old(s.flights) && Swept(old(s), s, now)
        invariant forall i :: 0 <= i < n && old(DueNow(due[i].0, due[i].1, now)) ==> due[i].0 !in tombs
      {
        var gone := CollectListed(due[n].0, due[n].1, now, old(s));
        if gone { removed := removed + 1; }
      }
      forall k | k !in old(intents) ensures View(s, k) == old(View(s, k)) { SweepIsInvisible(old(s), s, now, k); }
      forall i | 0 <= i < |due| && old(DueNow(due[i].0, due[i].1, now)) && due[i].0 !in old(intents)
        ensures due[i].0 !in store
      {
        SweptIsGone(old(s), s, now, due[i].0);
      }
    }

    // ----- one upload -----

    /** Send one entry of the round: check it under the lock, call the object store without it, and
        complete it if its generation is still the queued one. An entry whose payload does not match, or
        whose call fails, is put off. */
    method UploadBackendQueueItem(k: Key, item: QueueItem, call: Call, retryAt: nat) returns (r: Attempt)
      requires Valid() && s.lock.Free? && k !in s.flights && Lookup(Seen(s.worker), k) == Some(item)
      requires if item.op.Put? then s.worker.Uploading? else s.worker.Deleting?
      requires !BlockedIn(Seen(s.worker), item)
      modifies this
      ensures Valid() && s.lock.Free? && s.worker == old(s.worker) && s.flights == old(s.flights) && Elsewhere(old(s), s, k)
      ensures store == old(store) && intents == old(intents)
      ensures r.Superseded? <==> !old(k in queue && queue[k].generation == item.generation)
      ensures r.Completed? <==> old(MaySend(s, k)) && call.Answered?
      ensures r.Superseded? ==> Files() == old(Files()) && backend == old(backend)
      ensures r.Postponed? ==> Files() == old(Files()).(queue := old(queue)[k := Deferred(old(queue[k]), retryAt)])
      ensures r.Postponed? && !call.FailedAfter? ==> backend == old(backend)
      ensures r.Completed? ==> Finished(SlotOf(Files(), k), Lookup(backend, k), item)
      ensures r.Completed? && item.op.Put? ==> Lookup(backend, k) == Lookup(store, k)
      ensures r.Completed? && item.op.Put? && k !in intents ==> Publication.ReportsCommitted(s, k)
    {
      if !(k in queue && queue[k].generation == item.generation) { return Superseded; }
      r := SendCurrent(k, item, call, retryAt);
      if r.Completed? && item.op.Put? && k !in intents { FinishedIsReported(s, k, item); }
    }

    /** The entry is still the queued one. */
    method SendCurrent(k: Key, item: QueueItem, call: Call, retryAt: nat) returns (r: Attempt)
      requires Valid() && s.lock.Free? && k !in s.flights && Lookup(Seen(s.worker), k) == Some(item)
      requires if item.op.Put? then s.worker.Uploading? else s.worker.Deleting?
      requires !BlockedIn(Seen(s.worker), item) && k in queue && queue[k].generation == item.generation
      modifies this
      ensures Valid() && s.lock.Free? && s.worker == old(s.worker) && s.flights == old(s.flights) && Elsewhere(old(s), s, k)
      ensures store == old(store) && intents == old(intents) && !r.Superseded?
      ensures r.Completed? <==> (item.op.Put? ==> old(k in store && DigestOf(store[k]) == item.op.digest)) && call.Answered?
      ensures r.Postponed? ==> Files() == old(Files()).(queue := old(queue)[k := Deferred(old(queue[k]), retryAt)])
      ensures r.Postponed? && !call.FailedAfter? ==> backend == old(backend)
      ensures r.Completed? ==> Finished(SlotOf(Files(), k), Lookup(backend, k), item)
      ensures r.Completed? && item.op.Put? ==> Lookup(backend, k) == Lookup(store, k)
    {
      if item.op.Put? && !(k in store && DigestOf(store[k]) == item.op.digest) {
        Postpone(k, item, retryAt);
        return Postponed;
      }
      ghost var idle := s.flights;
      Record(Capture(k));
      r := SendCaptured(k, item, if item.op.Put? then Some(store[k]) else None, call, retryAt);
      assert s.flights == idle;
    }

    /** The call to the object store, and what follows it under the lock. */
    method SendCaptured(k: Key, item: QueueItem, payload: Option<Bytes>, call: Call, retryAt: nat) returns (r: Attempt)
      requires Valid() && s.lock.Free? && Lookup(s.flights, k) == Some(Flight(item, payload, false))
      requires k in queue && queue[k].generation == item.generation
      modifies this
      ensures Valid() && s.lock.Free? && s.worker == old(s.worker) && s.flights == old(s.flights) - {k} && Elsewhere(old(s), s, k)
      ensures store == old(store) && intents == old(intents)
      ensures r == if call.Answered? then Completed else Postponed
      ensures r.Postponed? ==> Files() == old(Files()).(queue := old(queue)[k := Deferred(old(queue[k]), retryAt)])
      ensures r.Postponed? && !call.FailedAfter? ==> backend == old(backend)
      ensures r.Completed? ==> Finished(SlotOf(Files(), k), Lookup(backend, k), item)
    {
      assert KeyOk(s, k);
      if !call.FailedBefore? { SendPayload(k, item, payload); }
      if call.Answered? { CompleteUploaded(k, item); } else { Postpone(k, item, retryAt); }
      r := if call.Answered? then Completed else Postponed;
    }

    /** Count an attempt on the entry and set the time of the next. */
    method Postpone(k: Key, item: QueueItem, retryAt: nat)
      requires Valid() && s.lock.Free? && Lookup(Seen(s.worker), k) == Some(item) && (s.worker.Uploading? || s.worker.Deleting?)
      requires k in queue && queue[k].generation == item.generation
      modifies this
      ensures Valid() && s.lock.Free? && s.worker == old(s.worker) && s.flights == old(s.flights) - {k} && Elsewhere(old(s), s, k)
      ensures Files() == old(Files()).(queue := old(queue)[k := Deferred(old(queue[k]), retryAt)]) && backend == old(backend)
      ensures queue[k].attempts == old(queue[k].attempts) + 1 && queue[k].retryAfter == Some(retryAt)
    {
      queue := queue[k := Deferred(queue[k], retryAt)];
      nextGeneration := nextGeneration + 1;
      Record(Fail(k, retryAt));
    }

    /** The object-store call. */
    method SendPayload(k: Key, item: QueueItem, payload: Option<Bytes>)
      requires Valid() && Lookup(s.flights, k) == Some(Flight(item, payload, false))
      modifies this
      ensures s == Next(old(s), Effect(k))
      ensures Valid() && s.flights == old(s.flights)[k := Flight(item, payload, true)]
      ensures s.lock == old(s.lock) && s.worker == old(s.worker) && s.promised == old(s.promised) && Files() == old(Files())
      ensures Elsewhere(old(s), s, k)
    {
      EffectStep(s, k, item, payload);
      if item.op.Delete? {
        backend := backend - {k};
      } else if payload.Some? && !(item.op.conditional && k in backend) {
        backend := backend[k := payload.value];
      }
      Record(Effect(k));
    }

    method CompleteUploaded(k: Key, item: QueueItem)
      requires Valid() && s.lock.Free? && k in s.flights && s.flights[k].effected && s.flights[k].item == item
      requires k in queue && queue[k].generation == item.generation
      modifies this
      ensures Valid() && s.lock.Free? && s.worker == old(s.worker) && s.flights == old(s.flights) - {k} && Elsewhere(old(s), s, k)
      ensures store == old(store) && intents == old(intents)
      ensures Finished(SlotOf(Files(), k), Lookup(backend, k), item)
    {
      Record(Complete(k));
      if item.op.Delete? { RetainLocal(k, item); }
      WriteReceipt(k, item);
      RemoveQueueFile(k, item);
    }

    ghost predicate Finishing(k: Key, item: QueueItem, stage: CompleteStage)
      reads this
    {
      Valid() && s.lock == Completing(k, item, stage)
    }

    twostate predicate SameRound()
      reads this
    {
      s.worker == old(s.worker) && s.flights == old(s.flights) && store == old(store) && intents == old(intents)
    }

    method RetainLocal(k: Key, item: QueueItem)
      requires Finishing(k, item, Retain)
      modifies this
      ensures s == AdvanceLock(old(s))
      ensures Finishing(k, item, Receipt) && SameRound() && Elsewhere(old(s), s, k)
      ensures k in tombs <==> k in store
      ensures k in store ==>
                && tombs[k].deletedAt == clock && tombs[k].deleteAfter == clock + config.grace
                && tombs[k].digest == DigestOf(store[k]) && tombs[k].size == |store[k]|
    {
      AdvanceElsewhere(s);
      if k in store {
        tombs := tombs[k := Tombstone(nextGeneration, DigestOf(store[k]), |store[k]|, clock, clock + config.grace)];
        nextGeneration := nextGeneration + 1;
      } else {
        tombs := tombs - {k};
      }
      Record(Advance);
    }

    method WriteReceipt(k: Key, item: QueueItem)
      requires Finishing(k, item, Receipt)
      modifies this
      ensures s == AdvanceLock(old(s))
      ensures Finishing(k, item, Dequeue) && SameRound() && Elsewhere(old(s), s, k)
    {
      AdvanceElsewhere(s);
      if item.op.Put? { receipts := receipts[k := item.op.digest]; } else { receipts := receipts - {k}; }
      Record(Advance);
    }

    method RemoveQueueFile(k: Key, item: QueueItem)
      requires Finishing(k, item, Dequeue)
      modifies this
      ensures s == AdvanceLock(old(s))
      ensures Valid() && s.lock.Free? && SameRound() && Elsewhere(old(s), s, k)
      ensures Finished(SlotOf(Files(), k), Lookup(backend, k), item)
    {
      assert KeyOk(s, k);
      AdvanceElsewhere(s);
      queue := queue - {k};
      Record(Advance);
    }
  }

  /** The entry is gone and the backend shows its effect: a receipt that names the backend's bytes, or
      no backend copy, no receipt, and a tombstone for whatever payload is kept. */
  predicate Finished(slot: Slot, backend: Option<Bytes>, item: QueueItem) {
    && slot.queue.None?
    && (item.op.Put? ==> slot.receipt == Some(item.op.digest) && backend.Some? && DigestOf(backend.value) == item.op.digest)
    && (item.op.Delete? ==> backend.None? && slot.receipt.None? && (slot.store.Some? <==> slot.tomb.Some?))
  }

  /** A finished Put of the stored bytes is what a commit query asks for, unless a newer write is logged. */
  lemma FinishedIsReported(s: State, k: Key, item: QueueItem)
    requires Inv(s) && s.lock.Free? && item.op.Put? && k !in s.disk.intents
    requires Finished(SlotOf(s.disk, k), Lookup(s.backend, k), item) && Lookup(s.backend, k) == Lookup(s.disk.store, k)
    ensures k in s.disk.store && Publication.Confirmed(s, k, s.disk.store[k]) && Publication.ReportsCommitted(s, k)
  {
    assert KeyOk(s, k);
    assert SlotOf(s.disk, k).queue == Lookup(s.disk.queue, k) && SlotOf(s.disk, k).receipt == Lookup(s.disk.receipts, k);
    assert SlotOf(s.disk, k).tomb == Lookup(s.disk.tombs, k);
  }

  /** Each key is as it was, or its tombstone had expired and is gone with the payload it named. */
  ghost predicate Swept(s: State, t: State, now: nat) {
    && t.backend == s.backend
    && forall k :: SlotOf(t.disk, k) == SlotOf(s.disk, k) || SweptKey(SlotOf(s.disk, k), SlotOf(t.disk, k), now)
  }

  predicate SweptKey(before: Slot, after: Slot, now: nat) {
    && before.tomb.Some? && before.tomb.value.deleteAfter <= now && before.queue.None?
    && after.tomb.None? && after.queue.None? && after.intent == before.intent
    && (after.store == before.store || (after.store.None? && before.store.Some? && DigestOf(before.store.value) == before.tomb.value.digest))
  }

  /** A tombstone that may be collected now. */
  predicate Collectable(disk: Disk, k: Key, generation: nat, now: nat) {
    k in disk.tombs && disk.tombs[k].generation == generation && disk.tombs[k].deleteAfter <= now && k !in disk.queue
  }

  /** With its tombstone goes the payload, unless a logged write is about to claim it. */
  lemma SweptIsGone(s: State, t: State, now: nat, k: Key)
    requires Inv(s) && Inv(t) && Swept(s, t, now) && k in s.disk.tombs && k !in s.disk.intents && k !in t.disk.tombs
    ensures k !in t.disk.store
  {
    assert KeyOk(s, k) && KeyOk(t, k);
    assert SlotOf(s.disk, k).tomb == Lookup(s.disk.tombs, k) && SlotOf(t.disk, k).tomb == Lookup(t.disk.tombs, k);
    assert SlotOf(t.disk, k).store == Lookup(t.disk.store, k);
  }

  lemma StillDue(s: State, t: State, now: nat, k: Key)
    requires Swept(s, t, now)
    ensures k in t.disk.tombs ==> Lookup(t.disk.tombs, k) == Lookup(s.disk.tombs, k) && Lookup(t.disk.queue, k) == Lookup(s.disk.queue, k)
  {
    assert SlotOf(t.disk, k).queue == Lookup(t.disk.queue, k) && SlotOf(s.disk, k).queue == Lookup(s.disk.queue, k);
    assert SlotOf(s.disk, k).tomb == Lookup(s.disk.tombs, k);
    assert SlotOf(t.disk, k).tomb == Lookup(t.disk.tombs, k);
  }

  lemma NoNewTombs(s: State, t: State, k: Key)
    requires Elsewhere(s, t, k) && (k in t.disk.tombs ==> k in s.disk.tombs)
    ensures t.disk.tombs.Keys <= s.disk.tombs.Keys
  {
    forall j | j in t.disk.tombs ensures j in s.disk.tombs {
      assert SlotOf(t.disk, j).tomb == Lookup(t.disk.tombs, j) && SlotOf(s.disk, j).tomb == Lookup(s.disk.tombs, j);
    }
  }

  /** A sweep leaves queue and intents alone. */
  lemma SweptKeepsQueue(s: State, t: State, now: nat)
    requires Swept(s, t, now)
    ensures t.disk.queue == s.disk.queue && t.disk.intents == s.disk.intents
  {
    forall k ensures Lookup(t.disk.queue, k) == Lookup(s.disk.queue, k) && Lookup(t.disk.intents, k) == Lookup(s.disk.intents, k) {
      assert SlotOf(t.disk, k).queue == Lookup(t.disk.queue, k) && SlotOf(s.disk, k).queue == Lookup(s.disk.queue, k);
      assert SlotOf(t.disk, k).intent == Lookup(t.disk.intents, k) && SlotOf(s.disk, k).intent == Lookup(s.disk.intents, k);
    }
    SameLookups(t.disk.queue, s.disk.queue);
    SameLookups(t.disk.intents, s.disk.intents);
  }

  lemma SweptMore(s: State, t: State, u: State, now: nat, k: Key)
    requires Swept(s, t, now) && u.backend == t.backend && Elsewhere(t, u, k)
    requires SlotOf(u.disk, k) == SlotOf(t.disk, k) || SweptKey(SlotOf(t.disk, k), SlotOf(u.disk, k), now)
    ensures Swept(s, u, now)
  {
  }

  /** A sweep is invisible wherever no write is logged. */
  lemma SweepIsInvisible(s: State, t: State, now: nat, k: Key)
    requires Inv(s) && Inv(t) && Swept(s, t, now) && k !in s.disk.intents && s.lock.Free?
    ensures View(t, k) == View(s, k)
  {
    assert KeyOk(s, k) && KeyOk(t, k);
  }

  /** Requests and their durable writes were appended to the log, and nothing else. */
  predicate Continues(before: seq<Action>, after: seq<Action>) {
    before <= after && OnlyWrites(after[|before|..])
  }

  predicate Names(items: seq<PutRequest>, n: nat, k: Key)
    requires n <= |items|
  {
    exists i :: 0 <= i < n && items[i].key == k
  }

  /** Item `i` is the last of the first `n` on its key. */
  predicate LastOf(items: seq<PutRequest>, n: nat, i: nat)
    requires i < n <= |items|
  {
    forall j :: i < j < n ==> items[j].key != items[i].key
  }

  lemma Continuing(a: seq<Action>, b: seq<Action>, c: seq<Action>)
    requires Continues(a, b) && Continues(b, c)
    ensures Continues(a, c)
  {
    assert forall i :: |a| <= i < |b| ==> c[i] == b[i] && b[i] == b[|a|..][i - |a|];
    assert forall i :: |b| <= i < |c| ==> c[i] == c[|b|..][i - |b|];
  }

  /** Only requests and their durable writes were logged. */
  predicate OnlyWrites(run: seq<Action>) {
    forall i :: 0 <= i < |run| ==> run[i].BeginPut? || run[i].BeginDelete? || run[i].BeginReplay? || run[i].Advance?
  }

  predicate StoreAccepts(slot: Slot, env: Env, put: PutRequest) {
    Changes(slot, put.bytes) ==>
      !(put.conditional && slot.store.Some?) && QuotaAllows(env, Len(slot.store), |put.bytes|)
  }

  function Resumed(lock: Lock): Lock
    requires lock.Replaying?
  {
    match lock.next
    case Done => Free
    case ThenPut(req) => Putting(req, Admit, false)
    case ThenDelete(host) => Removing(host, lock.key)
  }

  lemma ReplayStoreStep(s: State)
    requires s.lock.Replaying? && s.lock.replay.ReplayStore? && s.lock.key in s.disk.intents
    ensures Enabled(s, Advance)
    ensures var k := s.lock.key;
            var put, slot := s.disk.intents[k], SlotOf(s.disk, k);
            AdvanceLock(s) ==
              if !StoreAccepts(slot, EnvOf(s), put) then s.(lock := Free)
              else if Changes(slot, put.bytes) then Apply(s, k, PutStore(put.bytes)).(lock := s.lock.(replay := ReplayQueue))
              else s.(lock := s.lock.(replay := ReplayQueue))
  {
  }

  /** Every other key is as it was. */
  ghost predicate Elsewhere(s: State, t: State, k: Key) {
    && (forall j :: j != k ==> SlotOf(t.disk, j) == SlotOf(s.disk, j) && Lookup(t.promised, j) == Lookup(s.promised, j))
    && (forall j :: j != k ==> Lookup(t.backend, j) == Lookup(s.backend, j))
  }

  /** What the first `n` items promise, the last value of a key winning; no other key moves. */
  ghost predicate BatchPromised(s: State, t: State, items: seq<PutRequest>, n: nat)
    requires n <= |items|
  {
    && (forall i :: 0 <= i < n && LastOf(items, n, i) ==> Lookup(t.promised, items[i].key) == Some(Present(items[i].bytes)))
    && (forall k :: !Names(items, |items|, k) ==> SlotOf(t.disk, k) == SlotOf(s.disk, k))
  }

  lemma OneMoreAcknowledged(s: State, t: State, u: State, items: seq<PutRequest>, n: nat)
    requires n < |items| && BatchPromised(s, t, items, n) && Elsewhere(t, u, items[n].key)
    ensures u.promised == t.promised ==> BatchPromised(s, u, items, n)
    ensures Lookup(u.promised, items[n].key) == Some(Present(items[n].bytes)) ==> BatchPromised(s, u, items, n + 1)
  {
    assert Names(items, |items|, items[n].key);
  }

  lemma OneMoreApplied(s: State, t: State, u: State, items: seq<PutRequest>, n: nat)
    requires n < |items| && BatchApplied(s, t, items[..n])
    requires Elsewhere(t, u, items[n].key) && View(u, items[n].key) == Some(items[n].bytes)
    ensures BatchApplied(s, u, items[..n + 1])
  {
    assert items[..n + 1][..n] == items[..n];
    forall k ensures View(u, k) == LastWrite(items[..n + 1], k, View(s, k)) {
      assert k != items[n].key ==> SlotOf(u.disk, k) == SlotOf(t.disk, k) && Lookup(u.backend, k) == Lookup(t.backend, k);
    }
  }

  lemma NothingApplied(s: State, t: State, u: State, items: seq<PutRequest>, n: nat)
    requires n < |items| && BatchApplied(s, t, items[..n]) && u.disk == t.disk && u.backend == t.backend
    ensures BatchApplied(s, u, items[..n])
  {
    assert forall k :: View(u, k) == View(t, k);
  }

  /** An acknowledged key has no intent left. */
  lemma NoNewIntents(s: State, t: State, k: Key)
    requires Inv(t) && Elsewhere(s, t, k) && k in t.promised
    ensures t.disk.intents.Keys <= s.disk.intents.Keys
  {
    assert KeyOk(t, k);
    forall j | j in t.disk.intents ensures j in s.disk.intents {
      assert SlotOf(t.disk, j).intent.Some? && (j != k ==> SlotOf(t.disk, j) == SlotOf(s.disk, j));
    }
  }

  lemma AdvanceElsewhere(s: State)
    requires Enabled(s, Advance)
    ensures Elsewhere(s, AdvanceLock(s), LockedKey(s.lock).value)
  {
    var t, k := AdvanceLock(s), LockedKey(s.lock).value;
    forall j | j != k ensures SlotOf(t.disk, j) == SlotOf(s.disk, j) && Lookup(t.promised, j) == Lookup(s.promised, j) {
      AdvanceSlot(s, j);
    }
  }

  lemma EffectStep(s: State, k: Key, item: QueueItem, payload: Option<Bytes>)
    requires Inv(s) && Lookup(s.flights, k) == Some(Flight(item, payload, false))
    ensures Enabled(s, Effect(k)) && Elsewhere(s, Next(s, Effect(k)), k)
    ensures Next(s, Effect(k)) ==
              s.(backend := if item.op.Delete? then s.backend - {k}
                            else if payload.Some? && !(item.op.conditional && k in s.backend) then s.backend[k := payload.value]
                            else s.backend,
                 flights := s.flights[k := Flight(item, payload, true)])
  {
    assert KeyOk(s, k);
  }

  lemma RemoveStep(s: State)
    requires s.lock.Removing?
    ensures Enabled(s, Advance)
    ensures AdvanceLock(s) ==
              Apply(s, s.lock.key, QueueWrite(SlotOf(s.disk, s.lock.key), EnvOf(s), s.lock.host, s.lock.key, Operation.Delete))
                .(lock := Free, promised := s.promised[s.lock.key := Absent])
  {
  }

  /** The intents outside `todo` have landed; every other key is as it was. */
  ghost predicate Recovered(before: Disk, now: Disk, todo: set<Key>) {
    forall k :: if k in before.intents && k !in todo then Landed(SlotOf(now, k), before.intents[k])
                else SlotOf(now, k) == SlotOf(before, k)
  }

  /** Writes are logged, and the quota has no room for any of them. */
  ghost predicate Blocked(s: State) {
    s.disk.intents != map[] && forall k :: k in s.disk.intents ==> QuotaObjects(s, k)
  }

  lemma StillObjects(s: State, t: State, k: Key)
    requires Inv(s) && Inv(t) && t.disk == s.disk && t.config == s.config && k in s.disk.intents && QuotaObjects(s, k)
    ensures QuotaObjects(t, k)
  {
  }

  lemma RecoveredHas(before: Disk, now: Disk, todo: set<Key>, k: Key)
    requires Recovered(before, now, todo) && k in todo && todo <= before.intents.Keys
    ensures k in now.intents && now.intents[k] == before.intents[k]
  {
    assert SlotOf(now, k).intent == Lookup(now.intents, k) && SlotOf(before, k).intent == Lookup(before.intents, k);
  }

  lemma RecoveredOne(before: Disk, s: State, t: State, todo: set<Key>, k: Key)
    requires Recovered(before, s.disk, todo) && Elsewhere(s, t, k) && k in before.intents && Landed(SlotOf(t.disk, k), before.intents[k])
    ensures Recovered(before, t.disk, todo - {k})
  {
  }

  lemma RecoveredAll(before: Disk, now: Disk, todo: set<Key>)
    requires Recovered(before, now, todo)
    ensures todo == {} ==> now.intents == map[]
  {
    if todo == {} {
      forall k ensures k !in now.intents {
        assert SlotOf(now, k).intent == Lookup(now.intents, k) && SlotOf(before, k).intent == Lookup(before.intents, k);
      }
    }
  }

  lemma StoreStep(s: State, put: PutRequest)
    requires s.lock.Putting? && s.lock.req == put && s.lock.stage.StoreWrite?
    ensures Enabled(s, Advance)
    ensures var slot := SlotOf(s.disk, put.key);
            AdvanceLock(s) ==
              if !StoreAccepts(slot, EnvOf(s), put) then s.(lock := Free)
              else if Changes(slot, put.bytes) then Apply(s, put.key, PutStore(put.bytes)).(lock := s.lock.(stage := CancelGc))
              else s.(lock := s.lock.(stage := CancelGc))
  {
  }

  lemma CancelStep(s: State, put: PutRequest)
    requires s.lock.Putting? && s.lock.req == put && s.lock.stage.CancelGc?
    ensures Enabled(s, Advance)
    ensures AdvanceLock(s) ==
              (if s.lock.wasTombstoned then Apply(s, put.key, DropTomb) else s).(lock := s.lock.(stage := Enqueue))
  {
  }

  lemma EnqueueStep(s: State, put: PutRequest)
    requires s.lock.Putting? && s.lock.req == put && s.lock.stage.Enqueue?
    ensures Enabled(s, Advance)
    ensures AdvanceLock(s) ==
              Apply(s, put.key, QueueWrite(SlotOf(s.disk, put.key), EnvOf(s), put.host, put.key, PutOperation(put)))
                .(lock := s.lock.(stage := RemoveIntent))
  {
  }

  lemma AdmitStep(s: State, put: PutRequest, admission: Admission)
    requires s.lock == Putting(put, Admit, false) && admission == AdmissionOf(SlotOf(s.disk, put.key), EnvOf(s), put)
    ensures Enabled(s, Advance)
    ensures AdvanceLock(s) ==
              match admission
              case Refused => s.(lock := Free)
              case Duplicate => s.(lock := Free, promised := s.promised[put.key := Present(put.bytes)])
              case Logged => s.(disk := s.disk.(intents := s.disk.intents[put.key := put]), promised := s.promised - {put.key},
                                lock := Putting(put, StoreWrite, put.key in s.disk.tombs))
  {
  }
}
