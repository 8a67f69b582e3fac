/** Where two stronger claims about the code stop being true: reading the queue directory is not
    atomic, and neither is hydration. Each comes with a run that breaks the stronger claim and with
    the exact condition under which it holds. */
module Boundaries {
  import opened Basics
  import opened BackendQueue
  import opened MasterState
  import opened MasterInvariant
  import opened MasterRefinement
  import opened Publication
  import CrashReplay

  // ----- an uninterrupted Put of a new key -----

  predicate Unknown(s: State, k: Key) {
    SlotOf(s.disk, k) == Slot(None, None, None, None, None)
  }

  function NewEntry(s: State, put: PutRequest): QueueItem {
    QueueItem(s.nextGeneration, put.key, put.host, PutOperation(put), s.clock, s.clock, 0, None)
  }

  function AfterNewPut(s: State, put: PutRequest): State {
    s.(disk := s.disk.(store := s.disk.store[put.key := put.bytes], queue := s.disk.queue[put.key := NewEntry(s, put)]),
       storeBytes := s.storeBytes + |put.bytes|,
       nextGeneration := s.nextGeneration + 1,
       promised := s.promised[put.key := Present(put.bytes)])
  }

  /** The five durable writes of a Put of an unknown key, without interruption. */
  lemma NewPutReaches(i: State, s: State, put: PutRequest)
    requires Reaches(i, s) && s.lock.Free? && Unknown(s, put.key) && QuotaAllows(EnvOf(s), 0, |put.bytes|)
    requires ContentAddressed(Lookup(s.config.canon, put.key), put)
    ensures Reaches(i, AfterNewPut(s, put))
  {
    var k := put.key;
    var logged := s.(disk := s.disk.(intents := s.disk.intents[k := put]), promised := s.promised - {k});
    ReachesNext(i, s, BeginPut(put));
    assert Next(s, BeginPut(put)) == s.(lock := Putting(put, Admit, false));
    NewPutLogs(s, put);
    ReachesNext(i, s.(lock := Putting(put, Admit, false)), Advance);
    NewPutWrites(i, s, put, logged);
  }

  lemma NewPutLogs(s: State, put: PutRequest)
    requires s.lock.Free? && Unknown(s, put.key) && QuotaAllows(EnvOf(s), 0, |put.bytes|)
    ensures Enabled(s.(lock := Putting(put, Admit, false)), Advance)
    ensures AdvanceLock(s.(lock := Putting(put, Admit, false))) ==
            s.(disk := s.disk.(intents := s.disk.intents[put.key := put]), promised := s.promised - {put.key},
               lock := Putting(put, StoreWrite, false))
  {
  }

  lemma NewPutWrites(i: State, s: State, put: PutRequest, logged: State)
    requires s.lock.Free? && Unknown(s, put.key) && QuotaAllows(EnvOf(s), 0, |put.bytes|)
    requires logged == s.(disk := s.disk.(intents := s.disk.intents[put.key := put]), promised := s.promised - {put.key})
    requires Reaches(i, logged.(lock := Putting(put, StoreWrite, false)))
    ensures Reaches(i, AfterNewPut(s, put))
  {
    var k := put.key;
    NewPutStores(i, logged, put);
    var stored := logged.(disk := logged.disk.(store := logged.disk.store[k := put.bytes]),
                          storeBytes := s.storeBytes + |put.bytes|);
    NewPutEnqueues(i, stored, put);
    assert s.disk.intents[k := put] - {k} == s.disk.intents;
    assert (s.promised - {k})[k := Present(put.bytes)] == s.promised[k := Present(put.bytes)];
  }

  lemma NewPutStores(i: State, s: State, put: PutRequest)
    requires s.lock.Free? && put.key !in s.disk.store && QuotaAllows(EnvOf(s), 0, |put.bytes|)
    requires Reaches(i, s.(lock := Putting(put, StoreWrite, false)))
    ensures Reaches(i, s.(disk := s.disk.(store := s.disk.store[put.key := put.bytes]),
                          storeBytes := s.storeBytes + |put.bytes|, lock := Putting(put, Enqueue, false)))
  {
    var stored := s.(disk := s.disk.(store := s.disk.store[put.key := put.bytes]), storeBytes := s.storeBytes + |put.bytes|);
    NewPutIsStored(s, put);
    ReachesNext(i, s.(lock := Putting(put, StoreWrite, false)), Advance);
    ReachesNext(i, stored.(lock := Putting(put, CancelGc, false)), Advance);
    assert AdvanceLock(stored.(lock := Putting(put, CancelGc, false))) == stored.(lock := Putting(put, Enqueue, false));
  }

  lemma NewPutIsStored(s: State, put: PutRequest)
    requires s.lock.Free? && put.key !in s.disk.store && QuotaAllows(EnvOf(s), 0, |put.bytes|)
    ensures Enabled(s.(lock := Putting(put, StoreWrite, false)), Advance)
    ensures AdvanceLock(s.(lock := Putting(put, StoreWrite, false))) ==
            s.(disk := s.disk.(store := s.disk.store[put.key := put.bytes]), storeBytes := s.storeBytes + |put.bytes|,
               lock := Putting(put, CancelGc, false))
  {
  }

  lemma NewPutEnqueues(i: State, s: State, put: PutRequest)
    requires s.lock.Free? && put.key !in s.disk.queue && Reaches(i, s.(lock := Putting(put, Enqueue, false)))
    ensures Reaches(i, s.(disk := s.disk.(queue := s.disk.queue[put.key := NewEntry(s, put)],
                                          intents := s.disk.intents - {put.key}),
                          nextGeneration := s.nextGeneration + 1,
                          promised := s.promised[put.key := Present(put.bytes)]))
  {
    var queued := s.(disk := s.disk.(queue := s.disk.queue[put.key := NewEntry(s, put)]),
                     nextGeneration := s.nextGeneration + 1);
    NewPutIsEnqueued(s, put);
    ReachesNext(i, s.(lock := Putting(put, Enqueue, false)), Advance);
    IntentIsDropped(queued, put);
    ReachesNext(i, queued.(lock := Putting(put, RemoveIntent, false)), Advance);
  }

  lemma NewPutIsEnqueued(s: State, put: PutRequest)
    requires s.lock.Free? && put.key !in s.disk.queue
    ensures Enabled(s.(lock := Putting(put, Enqueue, false)), Advance)
    ensures AdvanceLock(s.(lock := Putting(put, Enqueue, false))) ==
            s.(disk := s.disk.(queue := s.disk.queue[put.key := NewEntry(s, put)]), nextGeneration := s.nextGeneration + 1,
               lock := Putting(put, RemoveIntent, false))
  {
  }

  lemma IntentIsDropped(s: State, put: PutRequest)
    requires s.lock.Free?
    ensures Enabled(s.(lock := Putting(put, RemoveIntent, false)), Advance)
    ensures AdvanceLock(s.(lock := Putting(put, RemoveIntent, false))) ==
            s.(disk := s.disk.(intents := s.disk.intents - {put.key}), promised := s.promised[put.key := Present(put.bytes)])
  {
  }

  /** A Put that fails after its intent is logged. */
  lemma CutOffAfterLogging(i: State, put: PutRequest) returns (s: State)
    requires Init(i) && QuotaAllows(EnvOf(i), 0, |put.bytes|)
    requires ContentAddressed(Lookup(i.config.canon, put.key), put)
    ensures Reaches(i, s) && Inv(s)
    ensures s == i.(disk := Disk(map[], map[put.key := put], map[], map[], map[]), promised := s.promised)
  {
    ReachesItself(i);
    ReachesNext(i, i, BeginPut(put));
    NewPutLogs(i, put);
    ReachesNext(i, i.(lock := Putting(put, Admit, false)), Advance);
    var logged := AdvanceLock(i.(lock := Putting(put, Admit, false)));
    ReachesNext(i, logged, IoError);
    s := logged.(lock := Free);
    var run :| Legal(i, run) && After(i, run) == s;
    InitInv(i);
    RunKeeps(i, run);
  }

  // ----- an undisturbed scan -----

  /** The worker has read all of the queue directory but `todo`. */
  function MidScan(s: State, todo: set<Key>): State {
    s.(worker := Scanning(s.clock, todo, s.disk.queue - todo))
  }

  lemma ScanReads(s: State, todo: set<Key>, k: Key)
    requires todo <= s.disk.queue.Keys && k in todo
    ensures Enabled(MidScan(s, todo), ScanRead(k)) && Next(MidScan(s, todo), ScanRead(k)) == MidScan(s, todo - {k})
  {
    assert (s.disk.queue - todo)[k := s.disk.queue[k]] == s.disk.queue - (todo - {k});
  }

  lemma {:induction false} MidScanReaches(i: State, s: State, todo: set<Key>)
    requires todo <= s.disk.queue.Keys && Reaches(i, MidScan(s, todo))
    ensures Reaches(i, MidScan(s, {}))
    decreases |todo|
  {
    if todo != {} {
      var k :| k in todo;
      ScanReads(s, todo, k);
      ReachesNext(i, MidScan(s, todo), ScanRead(k));
      MidScanReaches(i, s, todo - {k});
    }
  }

  /** Undisturbed, a scan sees the queue as it is. */
  lemma ScanReaches(i: State, s: State)
    requires Reaches(i, s) && s.worker.Idle? && s.flights == map[]
    ensures Reaches(i, s.(worker := Uploading(s.clock, s.disk.queue, {})))
  {
    ReachesNext(i, s, BeginScan);
    assert s.disk.queue - s.disk.queue.Keys == map[];
    MidScanReaches(i, s, s.disk.queue.Keys);
    assert s.disk.queue - {} == s.disk.queue;
    ReachesNext(i, MidScan(s, {}), EndScan);
  }

  // ----- a torn scan -----

  /** Room for two new objects on a master that has stored nothing yet. */
  predicate HasRoom(config: Config, a: PutRequest, b: PutRequest) {
    config.limit.None? || |a.bytes| + |b.bytes| <= config.limit.value
  }

  /** Publication order fails for an entry that joined the queue after its scan had begun: content
      and ref enqueued, in that order, while the directory is being read may be seen ref only, and
      then the ref is sent while its content is still queued. Any times of scan and ref will do. */
  lemma TornScanOvertakes(i: State, content: PutRequest, ref: PutRequest, start: nat, at: nat) returns (t: State)
    requires Init(i) && HasRoom(i.config, content, ref) && content.host == ref.host
    requires PublishPriority(content.key) < PublishPriority(ref.key)
    requires ContentAddressed(Lookup(i.config.canon, content.key), content)
    requires ContentAddressed(Lookup(i.config.canon, ref.key), ref)
    requires i.clock <= start <= at
    ensures Reaches(i, t) && Sends(t, ref.key, start, at) && content.key in t.disk.queue
    ensures Obstructs(t.disk.queue[content.key], t.flights[ref.key].item) && t.disk.queue[content.key].updatedAt == start
  {
    ScanBegins(i, start);
    var s1 := i.(clock := start, worker := Scanning(start, {}, map[]));
    NewPutReaches(i, s1, content);
    var s2 := AfterNewPut(s1, content);
    TimePasses(i, s2, at);
    NewPutReaches(i, s2.(clock := at), ref);
    t := TornScanEnds(i, AfterNewPut(s2.(clock := at), ref), ref);
  }

  lemma TimePasses(i: State, s: State, at: nat)
    requires Reaches(i, s) && s.clock <= at
    ensures Reaches(i, s.(clock := at))
  {
    ReachesNext(i, s, Tick(at - s.clock));
  }

  lemma ScanBegins(i: State, start: nat)
    requires Init(i) && i.clock <= start
    ensures Reaches(i, i.(clock := start, worker := Scanning(start, {}, map[])))
  {
    ReachesItself(i);
    TimePasses(i, i, start);
    ReachesNext(i, i.(clock := start), BeginScan);
    assert i.disk.queue.Keys == {};
  }

  /** Whenever `r`, enqueued at time `at`, is being sent in a round whose scan began at `start`, nothing that
      should have gone first is queued. */
  ghost predicate Ordered(i: State, r: Key, start: nat, at: nat) {
    forall t, c :: Reaches(i, t) && Sends(t, r, start, at) && c in t.disk.queue ==> !Obstructs(t.disk.queue[c], t.flights[r].item)
  }

  predicate Sends(t: State, r: Key, start: nat, at: nat) {
    ScanStart(t) == start && r in t.flights && t.flights[r].item.op.Put? && t.flights[r].item.updatedAt == at
  }

  /** Publication order holds over all runs of a fresh master exactly for the refs enqueued before the scan
      that sends them began. */
  lemma OrderedIff(i: State, content: PutRequest, ref: PutRequest, start: nat, at: nat)
    requires Init(i) && HasRoom(i.config, content, ref) && content.host == ref.host
    requires PublishPriority(content.key) < PublishPriority(ref.key)
    requires ContentAddressed(Lookup(i.config.canon, content.key), content)
    requires ContentAddressed(Lookup(i.config.canon, ref.key), ref)
    requires i.clock <= start
    ensures Ordered(i, ref.key, start, at) <==> at < start
  {
    if at < start { EarlyIsOrdered(i, ref.key, start, at); } else { var t := TornScanOvertakes(i, content, ref, start, at); }
  }

  lemma EarlyIsOrdered(i: State, r: Key, start: nat, at: nat)
    requires Init(i) && at < start
    ensures Ordered(i, r, start, at)
  {
    forall t, c | Reaches(i, t) && Sends(t, r, start, at) && c in t.disk.queue
      ensures !Obstructs(t.disk.queue[c], t.flights[r].item)
    {
      var run :| Legal(i, run) && After(i, run) == t;
      InitInv(i);
      RunKeeps(i, run);
      PublicationOrder(t, r, c);
    }
  }

  lemma TornScanEnds(i: State, s: State, ref: PutRequest) returns (t: State)
    requires Reaches(i, s) && s.lock.Free? && s.flights == map[]
    requires s.worker.Scanning? && s.worker.pending == {} && s.worker.seen == map[]
    requires Lookup(s.disk.store, ref.key) == Some(ref.bytes)
    requires ref.key in s.disk.queue && s.disk.queue[ref.key].op == PutOperation(ref)
    ensures Reaches(i, t) && t.disk == s.disk && ScanStart(t) == s.worker.start
    ensures ref.key in t.flights && t.flights[ref.key].item == s.disk.queue[ref.key]
  {
    var k, start, seen := ref.key, s.worker.start, map[ref.key := s.disk.queue[ref.key]];
    ReachesNext(i, s, ScanNotice(k));
    var s1 := s.(worker := Scanning(start, {k}, map[]));
    assert s.worker.pending + {k} == {k};
    assert Next(s, ScanNotice(k)) == s1;
    ReachesNext(i, s1, ScanRead(k));
    var s2 := s.(worker := Scanning(start, {}, seen));
    assert {k} - {k} == {};
    assert Next(s1, ScanRead(k)) == s2;
    ReachesNext(i, s2, EndScan);
    var s3 := s.(worker := Uploading(start, seen, {}));
    assert Next(s2, EndScan) == s3;
    assert !BlockedIn(seen, seen[k]);
    ReachesNext(i, s3, Capture(k));
    t := Next(s3, Capture(k));
  }

  // ----- a split hydration -----

  /** The second half of a read-through: the bytes were fetched earlier, and under the lock only the
      store is looked at again. */
  function LateHydrate(s: State, k: Key, fetched: Bytes): State {
    if k !in s.disk.store && QuotaAllows(EnvOf(s), 0, |fetched|) then Apply(s, k, PutStore(fetched)) else s
  }

  /** The late write keeps the invariant and what is read exactly when it does nothing or is harmless: a
      condition on the queue, the tombstone and the backend at that moment. */
  lemma LateHydrationKeepsIff(s: State, k: Key, fetched: Bytes)
    requires Inv(s) && s.lock.Free? && Lookup(s.config.canon, k) in {None, Some(fetched)}
    ensures var u := LateHydrate(s, k, fetched);
            Inv(u) && View(u, k) == View(s, k) <==>
              || k in s.disk.store
              || !QuotaAllows(EnvOf(s), 0, |fetched|)
              || Harmless(SlotOf(s.disk, k), Lookup(s.backend, k), fetched)
  {
    var u, slot := LateHydrate(s, k, fetched), SlotOf(s.disk, k);
    WriteIsLocal(s.disk, k, PutStore(fetched), k);
    if k !in s.disk.store && QuotaAllows(EnvOf(s), 0, |fetched|) {
      if Harmless(slot, Lookup(s.backend, k), fetched) {
        HydrateKeeps(s, k, fetched);
        OtherView(s, Hydrate(k, fetched), k);
      } else {
        assert KeyOk(s, k);
        if Inv(u) { assert KeyOk(u, k); }
      }
    }
  }

  /** While the backend still holds the bytes and the key is not deleted, the two halves may be taken as one
      step. */
  lemma TimelyHydrationKeeps(s: State, k: Key, fetched: Bytes)
    requires Inv(s) && s.lock.Free? && Lookup(s.backend, k) == Some(fetched) && !LogicallyDeleted(SlotOf(s.disk, k))
    ensures Inv(LateHydrate(s, k, fetched)) && View(LateHydrate(s, k, fetched), k) == View(s, k)
  {
    assert KeyOk(s, k);
    LateHydrationKeepsIff(s, k, fetched);
  }

  /** Whatever the master does in the background, `k` reads as one of `values`. */
  ghost predicate StaysWithin(s: State, k: Key, values: set<Option<Bytes>>) {
    forall run :: Legal(s, run) && Unrequested(run, k) ==> View(After(s, run), k) in values
  }

  /** What `k` may read as until somebody asks about it: what it reads as now, and what a logged write will
      make of it. */
  function Due(s: State, k: Key): set<Option<Bytes>> {
    if k in s.disk.intents then {View(s, k), Some(s.disk.intents[k].bytes)} else {View(s, k)}
  }

  /** The fetched bytes are those of the logged write, and nothing else is known about the key. */
  predicate Anticipates(slot: Slot, fetched: Bytes) {
    slot.queue.None? && slot.tomb.None? && slot.intent.Some? && slot.intent.value.bytes == fetched
  }

  /** Over every later run in which nobody asks about the key: a late write never shows exactly when it does
      nothing, is harmless, or stores what a logged write is about to store. */
  lemma LateHydrationNeverShowsIff(s: State, k: Key, fetched: Bytes)
    requires Inv(s) && s.lock.Free? && Lookup(s.config.canon, k) in {None, Some(fetched)}
    ensures StaysWithin(LateHydrate(s, k, fetched), k, Due(s, k)) <==>
              || k in s.disk.store
              || !QuotaAllows(EnvOf(s), 0, |fetched|)
              || Harmless(SlotOf(s.disk, k), Lookup(s.backend, k), fetched)
              || Anticipates(SlotOf(s.disk, k), fetched)
  {
    var u := LateHydrate(s, k, fetched);
    LateHydrationKeepsIff(s, k, fetched);
    if Inv(u) && View(u, k) == View(s, k) {
      StaysDue(s, u, k);
    } else if Anticipates(SlotOf(s.disk, k), fetched) {
      AnticipationKeeps(s, k, fetched);
      StaysDue(s, u, k);
    } else {
      LateHydrationShows(s, k, fetched);
    }
  }

  lemma StaysDue(s: State, u: State, k: Key)
    requires Inv(u) && u.lock.Free? && u.disk.intents == s.disk.intents && View(u, k) in Due(s, k)
    ensures StaysWithin(u, k, Due(s, k))
  {
    forall run | Legal(u, run) && Unrequested(run, k) ensures View(After(u, run), k) in Due(s, k) {
      if k in u.disk.intents { CrashReplay.PendingViewStays(u, run, k, u.disk.intents[k]); } else { QuietViewStays(u, run, k); }
    }
  }

  lemma AnticipationKeeps(s: State, k: Key, fetched: Bytes)
    requires Inv(s) && s.lock.Free? && Lookup(s.config.canon, k) in {None, Some(fetched)}
    requires k !in s.disk.store && QuotaAllows(EnvOf(s), 0, |fetched|) && Anticipates(SlotOf(s.disk, k), fetched)
    ensures Inv(LateHydrate(s, k, fetched)) && View(LateHydrate(s, k, fetched), k) == Some(fetched)
  {
    var u := LateHydrate(s, k, fetched);
    assert KeyOk(s, k);
    AnticipatedCell(CellOf(s, k), fetched, k, s.worker, s.clock, s.nextGeneration);
    LateCells(s, k, fetched);
    BytesFollow(s, k, PutStore(fetched));
    forall j ensures KeyOk(u, j) {
      if j != k {
        assert KeyOk(s, j);
        Untouched(s, u, j);
      }
    }
  }

  lemma LateCells(s: State, k: Key, fetched: Bytes)
    requires k !in s.disk.store && QuotaAllows(EnvOf(s), 0, |fetched|)
    ensures var u := LateHydrate(s, k, fetched);
            && u == Apply(s, k, PutStore(fetched)) && u.worker == s.worker && u.clock == s.clock && u.nextGeneration == s.nextGeneration
            && (Anticipates(SlotOf(s.disk, k), fetched) ==> View(u, k) == Some(fetched))
            && forall j :: CellOf(u, j) ==
                 if j == k then CellOf(s, j).(slot := WriteSlot(SlotOf(s.disk, j), PutStore(fetched))) else CellOf(s, j)
  {
  }

  lemma AnticipatedCell(c: Cell, fetched: Bytes, k: Key, worker: Worker, clock: nat, generations: nat)
    requires CellOk(c, k, worker, clock, generations) && c.lock.Free? && c.slot.store.None?
    requires c.canon in {None, Some(fetched)} && Anticipates(c.slot, fetched)
    ensures CellOk(c.(slot := WriteSlot(c.slot, PutStore(fetched))), k, worker, clock, generations)
  {
  }

  lemma LateHydrationShows(s: State, k: Key, fetched: Bytes)
    requires Inv(s) && s.lock.Free? && k !in s.disk.store && QuotaAllows(EnvOf(s), 0, |fetched|)
    requires !Harmless(SlotOf(s.disk, k), Lookup(s.backend, k), fetched) && !Anticipates(SlotOf(s.disk, k), fetched)
    ensures !StaysWithin(LateHydrate(s, k, fetched), k, Due(s, k))
  {
    var u := LateHydrate(s, k, fetched);
    assert KeyOk(s, k);
    if k in s.disk.tombs {
      var run := CollectionShows(u, k, fetched);
    } else {
      assert Legal(u, []) && Unrequested([], k) && After(u, []) == u;
    }
  }

  /** Collecting a tombstone that names other bytes brings the cached bytes to light. */
  lemma CollectionShows(u: State, k: Key, fetched: Bytes) returns (run: seq<Action>)
    requires u.lock.Free? && k in u.disk.tombs && k !in u.disk.queue && Lookup(u.disk.store, k) == Some(fetched)
    requires u.disk.tombs[k].digest != DigestOf(fetched)
    ensures Legal(u, run) && Unrequested(run, k) && View(After(u, run), k) == Some(fetched)
  {
    var tomb := u.disk.tombs[k];
    var collect := Collect(k, tomb.generation, u.clock + tomb.deleteAfter);
    var u1 := u.(clock := u.clock + tomb.deleteAfter);
    var u2 := u1.(lock := Collecting(k, Payload));
    var u3 := u1.(lock := Collecting(k, CollectStage.Tomb));
    assert Next(u, Tick(tomb.deleteAfter)) == u1 && Next(u1, collect) == u2;
    assert AdvanceLock(u2) == u3;
    run := [] + [Tick(tomb.deleteAfter)];
    RunThenStep(u, [], Tick(tomb.deleteAfter));
    RunThenStep(u, run, collect);
    run := run + [collect];
    RunThenStep(u, run, Advance);
    run := run + [Advance];
    RunThenStep(u, run, Advance);
    run := run + [Advance];
    TombIsDropped(u3, k);
  }

  lemma TombIsDropped(s: State, k: Key)
    requires s.lock == Collecting(k, CollectStage.Tomb) && k in s.disk.tombs && k !in s.disk.queue && k in s.disk.store
    ensures Enabled(s, Advance) && View(AdvanceLock(s), k) == Some(s.disk.store[k])
  {
  }

  /** Otherwise a deleted object can come back: a read fetches the backend's bytes, the key is
      deleted and that Delete is completed, and the late write stores the bytes again. The key reads
      as present although its Delete was acknowledged, and nothing will ever delete it. */
  lemma LateHydrationResurrects(i: State, k: Key, host: Host, fetched: Bytes) returns (t: State)
    requires Init(i) && i.config.limit.None? && i.backend == map[k := fetched]
    ensures Reaches(i, t) && t.promised == map[k := Absent] && View(t, k) == None
    ensures var u := LateHydrate(t, k, fetched);
            && View(u, k) == Some(fetched)
            && k !in u.disk.intents && k !in u.disk.queue && k !in u.disk.tombs && k !in u.backend
  {
    ReachesItself(i);
    var s := DeleteIsEnqueued(i, i, k, host);
    DeleteIsSent(i, s, s.disk.queue[k]);
    t := DeleteIsCompleted(i, Sending(s, k), k);
  }

  /** Or later: the key is overwritten and deleted, its Delete is completed, local GC removes the payload
      and stops before the tombstone. The late write is hidden at first, and then the tombstone, which
      does not name the cached bytes, is collected. */
  lemma CollectionResurrects(i: State, k: Key, host: Host, fetched: Bytes, other: Bytes) returns (t: State)
    requires Init(i) && i.config.limit.None? && i.backend == map[k := fetched] && k !in i.config.canon && other != fetched
    ensures Reaches(i, t) && t.lock.Free? && t.promised == map[k := Absent] && View(t, k) == None
    ensures var u := LateHydrate(t, k, fetched);
            View(u, k) == None && !StaysWithin(u, k, {None})
  {
    var put := PutRequest(host, k, other, false);
    ReachesItself(i);
    NewPutReaches(i, i, put);
    var s1 := AfterNewPut(i, put);
    assert s1.disk.store == map[k := other];
    var s2 := DeleteIsEnqueued(i, s1, k, host);
    DeleteIsSent(i, s2, s2.disk.queue[k]);
    var s3 := DeleteIsCompleted(i, Sending(s2, k), k);
    t := PayloadIsCollected(i, s3, k);
    var u := LateHydrate(t, k, fetched);
    var run := CollectionShows(u, k, fetched);
  }

  lemma DeleteIsEnqueued(i: State, s: State, k: Key, host: Host) returns (t: State)
    requires Reaches(i, s) && s.lock.Free? && s.disk.queue.Keys <= {k} && s.promised.Keys <= {k} && k !in s.disk.intents
    requires k in s.disk.queue ==> s.disk.queue[k].op.Put?
    ensures Reaches(i, t) && t.disk.queue.Keys == {k} && t.disk.queue[k].op.Delete? && t.disk.queue[k].key == k
    ensures t == s.(disk := s.disk.(queue := t.disk.queue), nextGeneration := s.nextGeneration + 1, promised := map[k := Absent])
  {
    var created := if k in s.disk.queue then s.disk.queue[k].createdAt else s.clock;
    var entry := QueueItem(s.nextGeneration, k, host, Operation.Delete, created, s.clock, 0, None);
    t := s.(disk := s.disk.(queue := map[k := entry]), nextGeneration := s.nextGeneration + 1, promised := map[k := Absent]);
    DeleteEntry(s, k, host, entry);
    DeleteBegins(i, s, k, host);
    ReachesNext(i, s.(lock := Removing(host, k)), Advance);
  }

  lemma DeleteBegins(i: State, s: State, k: Key, host: Host)
    requires Reaches(i, s) && s.lock.Free? && k !in s.disk.intents
    ensures Reaches(i, s.(lock := Removing(host, k)))
  {
    ReachesNext(i, s, BeginDelete(host, k));
  }

  lemma DeleteEntry(s: State, k: Key, host: Host, entry: QueueItem)
    requires s.lock.Free? && s.disk.queue.Keys <= {k} && s.promised.Keys <= {k} && (k in s.disk.queue ==> s.disk.queue[k].op.Put?)
    requires entry == QueueItem(s.nextGeneration, k, host, Operation.Delete,
                                if k in s.disk.queue then s.disk.queue[k].createdAt else s.clock, s.clock, 0, None)
    ensures Enabled(s.(lock := Removing(host, k)), Advance)
    ensures AdvanceLock(s.(lock := Removing(host, k))) ==
            s.(disk := s.disk.(queue := map[k := entry]), nextGeneration := s.nextGeneration + 1, promised := map[k := Absent])
  {
    var r := s.(lock := Removing(host, k));
    assert Decide(r.lock, SlotOf(r.disk, k), EnvOf(r)) == Decision(PutQueue(entry), Free, Some(Absent));
    assert s.disk.queue[k := entry] == map[k := entry] && s.promised[k := Absent] == map[k := Absent];
  }

  /** The Delete of `k` is in flight and has taken effect. */
  function Sending(s: State, k: Key): State
    requires k in s.disk.queue
  {
    var entry := s.disk.queue[k];
    s.(backend := map[], flights := map[k := Flight(entry, None, true)], worker := Worker.Deleting(s.clock, map[k := entry]))
  }

  lemma DeleteIsSent(i: State, s: State, entry: QueueItem)
    requires Reaches(i, s) && s.lock.Free? && s.worker.Idle? && s.flights == map[] && entry.op.Delete?
    requires s.disk.queue == map[entry.key := entry] && s.backend.Keys == {entry.key}
    ensures Reaches(i, s.(backend := map[], flights := map[entry.key := Flight(entry, None, true)],
                          worker := Worker.Deleting(s.clock, map[entry.key := entry])))
  {
    var k, seen := entry.key, map[entry.key := entry];
    LoneEntryIsScanned(i, s, entry);
    var s1 := s.(worker := Worker.Deleting(s.clock, seen));
    assert !BlockedIn(seen, seen[k]);
    ReachesNext(i, s1, Capture(k));
    var s2 := s1.(flights := map[k := Flight(entry, None, false)]);
    assert Next(s1, Capture(k)) == s2;
    ReachesNext(i, s2, Effect(k));
    assert s.backend - {k} == map[];
  }

  lemma LoneEntryIsScanned(i: State, s: State, entry: QueueItem)
    requires Reaches(i, s) && s.lock.Free? && s.worker.Idle? && s.flights == map[]
    requires s.disk.queue == map[entry.key := entry]
    ensures Reaches(i, s.(worker := Worker.Deleting(s.clock, map[entry.key := entry])))
  {
    var k, seen := entry.key, map[entry.key := entry];
    ReachesNext(i, s, BeginScan);
    assert s.disk.queue.Keys == {k} && {k} - {k} == {};
    ReachesNext(i, s.(worker := Scanning(s.clock, {k}, map[])), ScanRead(k));
    ReachesNext(i, s.(worker := Scanning(s.clock, {}, seen)), EndScan);
    ReachesNext(i, s.(worker := Uploading(s.clock, seen, {})), EndUploads);
  }

  lemma DeleteIsCompleted(i: State, s: State, k: Key) returns (t: State)
    requires Reaches(i, s) && s.lock.Free? && s.flights.Keys == {k} && s.flights[k].effected && s.flights[k].item.op.Delete?
    requires s.disk.queue.Keys == {k} && s.disk.queue[k] == s.flights[k].item
    requires s.disk == Disk(s.disk.store, map[], s.disk.queue, map[], map[])
    ensures Reaches(i, t) && t == s.(disk := t.disk, flights := map[], nextGeneration := t.nextGeneration)
    ensures t.disk == Disk(s.disk.store, map[], map[], map[], t.disk.tombs)
    ensures if k in s.disk.store then t.disk.tombs.Keys == {k} && t.disk.tombs[k].digest == DigestOf(s.disk.store[k])
            else t.disk.tombs == map[]
  {
    var item, s1 := s.flights[k].item, s.(flights := map[]);
    ReachesNext(i, s, Complete(k));
    assert Next(s, Complete(k)) == s1.(lock := Completing(k, item, Retain));
    ReachesNext(i, s1.(lock := Completing(k, item, Retain)), Advance);
    var s2 := AdvanceLock(s1.(lock := Completing(k, item, Retain)));
    DeleteIsRetained(s1, k, item);
    DeleteIsDequeued(i, s2.(lock := Free), k, item);
    t := s2.(lock := Free, disk := s2.disk.(queue := map[]));
  }

  lemma DeleteIsRetained(s: State, k: Key, item: QueueItem)
    requires s.lock.Free? && s.disk.tombs == map[]
    ensures Enabled(s.(lock := Completing(k, item, Retain)), Advance)
    ensures var t := AdvanceLock(s.(lock := Completing(k, item, Retain)));
            && t == s.(disk := s.disk.(tombs := t.disk.tombs), nextGeneration := t.nextGeneration, lock := Completing(k, item, Receipt))
            && if k in s.disk.store then t.disk.tombs.Keys == {k} && t.disk.tombs[k].digest == DigestOf(s.disk.store[k])
               else t.disk.tombs == map[]
  {
    assert s.disk.tombs - {k} == map[];
  }

  lemma DeleteIsDequeued(i: State, s: State, k: Key, item: QueueItem)
    requires Reaches(i, s.(lock := Completing(k, item, Receipt))) && s.lock.Free? && item.op.Delete?
    requires s.disk.queue.Keys == {k} && s.disk.receipts == map[]
    ensures Reaches(i, s.(disk := s.disk.(queue := map[])))
  {
    assert s.disk.receipts - {k} == map[] && s.disk.queue - {k} == map[];
    ReachesNext(i, s.(lock := Completing(k, item, Receipt)), Advance);
    assert AdvanceLock(s.(lock := Completing(k, item, Receipt))) == s.(lock := Completing(k, item, Dequeue));
    ReachesNext(i, s.(lock := Completing(k, item, Dequeue)), Advance);
  }

  /** Local GC removes the payload and is cut off before it removes the tombstone. */
  lemma PayloadIsCollected(i: State, s: State, k: Key) returns (t: State)
    requires Reaches(i, s) && s.lock.Free? && s.disk.store.Keys == {k} && s.disk.tombs.Keys == {k} && k !in s.disk.queue
    requires s.disk.tombs[k].digest == DigestOf(s.disk.store[k])
    ensures Reaches(i, t) && t == s.(disk := s.disk.(store := map[]), clock := t.clock, storeBytes := t.storeBytes)
  {
    var tomb := s.disk.tombs[k];
    ReachesNext(i, s, Tick(tomb.deleteAfter));
    var s1 := s.(clock := s.clock + tomb.deleteAfter);
    ReachesNext(i, s1, Collect(k, tomb.generation, s1.clock));
    ReachesNext(i, s1.(lock := Collecting(k, Payload)), Advance);
    var s2 := AdvanceLock(s1.(lock := Collecting(k, Payload)));
    assert s.disk.store - {k} == map[];
    ReachesNext(i, s2, IoError);
    t := s2.(lock := Free);
  }
}
