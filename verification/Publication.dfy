/** The order in which queued objects become visible in the backend, and what a commit report is
    worth. */
module Publication {
  import opened Basics
  import opened BackendQueue
  import opened MasterState
  import opened MasterInvariant
  import opened MasterRefinement

  // ----- order at the moment of sending -----

  /** When the worker began reading the queue directory for the round in progress. */
  function ScanStart(s: State): nat {
    if s.worker.Idle? then 0 else s.worker.start
  }

  /** Whatever should have gone first and is still queued was enqueued after the scan began,
      whatever retry delays, selection caps and concurrent requests did meanwhile. */
  lemma OvertakenOnlyByLateEntries(s: State, r: Key, c: Key)
    requires Inv(s) && r in s.flights && c in s.disk.queue && Obstructs(s.disk.queue[c], s.flights[r].item)
    ensures ScanStart(s) <= s.disk.queue[c].updatedAt
  {
    assert KeyOk(s, r) && KeyOk(s, c);
    if s.disk.queue[c].updatedAt < ScanStart(s) {
      assert Obstructs(s.worker.seen[c], s.flights[r].item);
    }
  }

  /** Publication order: while a Put enqueued before its scan began is being sent, no Put of the
      same host in a lower layer with an earlier or equal time is still queued. */
  lemma PublicationOrder(s: State, r: Key, c: Key)
    requires Inv(s) && r in s.flights && s.flights[r].item.op.Put? && c in s.disk.queue
    requires s.flights[r].item.updatedAt < ScanStart(s)
    ensures !Obstructs(s.disk.queue[c], s.flights[r].item)
  {
    if Obstructs(s.disk.queue[c], s.flights[r].item) { OvertakenOnlyByLateEntries(s, r, c); }
  }

  // ----- content stays put until somebody asks -----

  /** `c` holds `bytes`, was enqueued at time `at` by `host`, and nobody has asked about it since. */
  predicate Enqueued(s: State, c: Key, bytes: Bytes, host: Host, at: nat) {
    && Quiet(s, c)
    && Lookup(s.disk.store, c) == Some(bytes)
    && c !in s.disk.tombs
    && (c in s.disk.queue ==> s.disk.queue[c].op.Put? && s.disk.queue[c].host == host && s.disk.queue[c].updatedAt == at)
  }

  /** `c` holds `bytes` and nothing about it is pending. */
  predicate Committed(s: State, c: Key, bytes: Bytes) {
    Quiet(s, c) && Lookup(s.disk.store, c) == Some(bytes) && c !in s.disk.tombs && c !in s.disk.queue
  }

  lemma CommittedIsInBackend(s: State, c: Key, bytes: Bytes)
    requires Inv(s) && Committed(s, c, bytes)
    ensures Lookup(s.backend, c) == Some(bytes)
  {
    assert KeyOk(s, c);
  }

  lemma DecisionLeavesPayload(lock: Lock, slot: Slot, env: Env)
    requires Grounded(lock, slot) && (lock.Completing? || lock.Collecting?)
    requires slot.store.Some? && slot.tomb.None? && (lock.Completing? ==> lock.item.op.Put? && !lock.complete.Retain?)
    ensures var t := WriteSlot(slot, Decide(lock, slot, env).write);
            t.store == slot.store && t.tomb == slot.tomb && (t.queue.Some? ==> t.queue == slot.queue)
  {
  }

  /** The slot of a key nobody asks about: only its queue entry may go. */
  predicate Drained(s: State, t: State, c: Key) {
    && Lookup(t.disk.store, c) == Lookup(s.disk.store, c)
    && (c in t.disk.tombs <==> c in s.disk.tombs)
    && (c in t.disk.queue ==>
          && c in s.disk.queue
          && t.disk.queue[c].op == s.disk.queue[c].op
          && t.disk.queue[c].host == s.disk.queue[c].host
          && t.disk.queue[c].updatedAt == s.disk.queue[c].updatedAt)
  }

  lemma AdvanceDrains(s: State, c: Key)
    requires Inv(s) && Enabled(s, Advance) && Quiet(s, c)
    requires c in s.disk.store && c !in s.disk.tombs && (c in s.disk.queue ==> s.disk.queue[c].op.Put?)
    ensures Drained(s, AdvanceLock(s), c)
  {
    var t, key := AdvanceLock(s), LockedKey(s.lock).value;
    assert KeyOk(s, key);
    var d := Decide(s.lock, SlotOf(s.disk, key), EnvOf(s));
    WriteIsLocal(s.disk, key, d.write, c);
    if c == key { DecisionLeavesPayload(s.lock, SlotOf(s.disk, key), EnvOf(s)); }
    assert SlotOf(t.disk, c).store == Lookup(t.disk.store, c);
    assert SlotOf(t.disk, c).queue == Lookup(t.disk.queue, c);
    assert SlotOf(t.disk, c).tomb == Lookup(t.disk.tombs, c);
  }

  lemma FailDrains(s: State, k: Key, retryAt: nat, c: Key)
    requires Enabled(s, Fail(k, retryAt))
    ensures Drained(s, Next(s, Fail(k, retryAt)), c)
  {
  }

  lemma OtherDrains(s: State, a: Action, c: Key)
    requires Enabled(s, a) && !a.Advance? && !a.Fail? && c in s.disk.store
    ensures Drained(s, Next(s, a), c)
  {
    assert Next(s, a).disk.queue == s.disk.queue && Next(s, a).disk.tombs == s.disk.tombs;
  }

  lemma StepDrains(s: State, a: Action, c: Key)
    requires Inv(s) && Enabled(s, a) && Quiet(s, c) && !RequestOn(a, c)
    requires c in s.disk.store && c !in s.disk.tombs && (c in s.disk.queue ==> s.disk.queue[c].op.Put?)
    ensures Drained(s, Next(s, a), c) && Quiet(Next(s, a), c)
  {
    QuietStays(s, a, c);
    if a.Advance? { AdvanceDrains(s, c); } else if a.Fail? { FailDrains(s, a.key, a.retryAt, c); } else { OtherDrains(s, a, c); }
  }

  lemma {:induction false} EnqueuedStays(s: State, run: seq<Action>, c: Key, bytes: Bytes, host: Host, at: nat)
    requires Inv(s) && Legal(s, run) && Unrequested(run, c) && Enqueued(s, c, bytes, host, at)
    ensures Enqueued(After(s, run), c, bytes, host, at)
    ensures c !in s.disk.queue ==> c !in After(s, run).disk.queue
    decreases |run|
  {
    if run != [] {
      StepDrains(s, run[0], c);
      StepKeeps(s, run[0]);
      assert forall i :: 0 <= i < |run[1..]| ==> run[1..][i] == run[i + 1];
      EnqueuedStays(Next(s, run[0]), run[1..], c, bytes, host, at);
    }
  }

  /** A ref implies its content: if `c` was enqueued no later than the entry now being sent, in a
      lower layer of the same host, and nobody has asked about `c` since, then `c` is already in
      the backend with its bytes. */
  lemma ContentPrecedesRef(s: State, run: seq<Action>, c: Key, bytes: Bytes, at: nat, r: Key)
    requires Inv(s) && Legal(s, run) && Unrequested(run, c)
    requires var t := After(s, run);
             && r in t.flights && t.flights[r].item.op.Put? && t.flights[r].item.updatedAt < ScanStart(t)
             && Enqueued(s, c, bytes, t.flights[r].item.host, at)
             && at <= t.flights[r].item.updatedAt && PublishPriority(c) < PublishPriority(t.flights[r].item.key)
    ensures Committed(After(s, run), c, bytes)
    ensures Lookup(After(s, run).backend, c) == Some(bytes)
  {
    var t := After(s, run);
    RunKeeps(s, run);
    EnqueuedStays(s, run, c, bytes, t.flights[r].item.host, at);
    if c in t.disk.queue {
      assert KeyOk(t, c);
      PublicationOrder(t, r, c);
    }
    CommittedIsInBackend(t, c, bytes);
  }

  /** And there it stays until a request names it. */
  lemma CommittedStays(s: State, run: seq<Action>, c: Key, bytes: Bytes)
    requires Inv(s) && Legal(s, run) && Unrequested(run, c) && Committed(s, c, bytes)
    ensures Committed(After(s, run), c, bytes) && Lookup(After(s, run).backend, c) == Some(bytes)
  {
    EnqueuedStays(s, run, c, bytes, "", 0);
    RunKeeps(s, run);
    CommittedIsInBackend(After(s, run), c, bytes);
  }

  /** Hence a published ref has its content: from the moment the ref is sent, through any run in which
      nobody asks about `c`, the backend holds `c` with its bytes. */
  lemma RefImpliesContent(s: State, sent: seq<Action>, later: seq<Action>, c: Key, bytes: Bytes, at: nat, r: Key)
    requires Inv(s) && Legal(s, sent) && Legal(After(s, sent), later) && Unrequested(sent, c) && Unrequested(later, c)
    requires var t := After(s, sent);
             && r in t.flights && t.flights[r].item.op.Put? && t.flights[r].item.updatedAt < ScanStart(t)
             && Enqueued(s, c, bytes, t.flights[r].item.host, at)
             && at <= t.flights[r].item.updatedAt && PublishPriority(c) < PublishPriority(t.flights[r].item.key)
    ensures Lookup(After(After(s, sent), later).backend, c) == Some(bytes)
  {
    RunKeeps(s, sent);
    ContentPrecedesRef(s, sent, c, bytes, at, r);
    CommittedStays(After(s, sent), later, c, bytes);
  }

  // ----- commit reports -----

  /** The master's answer to a commit query, read under the durable lock. */
  predicate ReportsCommitted(s: State, k: Key) {
    && s.lock.Free?
    && k !in s.disk.queue && k !in s.disk.intents && !LogicallyDeleted(SlotOf(s.disk, k))
    && k in s.disk.receipts && k in s.disk.store && DigestOf(s.disk.store[k]) == s.disk.receipts[k]
  }

  /** A commit report is true, and stays true until the key is rewritten or deleted. */
  lemma CommitReportIsSound(s: State, run: seq<Action>, k: Key)
    requires Inv(s) && ReportsCommitted(s, k) && Legal(s, run) && Unrequested(run, k)
    ensures Lookup(s.backend, k) == Lookup(s.disk.store, k) == Lookup(After(s, run).backend, k)
    ensures Lookup(After(s, run).disk.store, k) == Lookup(s.disk.store, k)
  {
    CommittedIsInBackend(s, k, s.disk.store[k]);
    CommittedStays(s, run, k, s.disk.store[k]);
  }

  /** `k` is committed and its receipt names the bytes. */
  predicate Confirmed(s: State, k: Key, bytes: Bytes) {
    Committed(s, k, bytes) && Lookup(s.disk.receipts, k) == Some(DigestOf(bytes))
  }

  /** Asked under the lock, the master vouches for what is confirmed. */
  lemma ConfirmedIsReported(s: State, k: Key, bytes: Bytes)
    requires Confirmed(s, k, bytes) && s.lock.Free?
    ensures ReportsCommitted(s, k)
  {
  }

  /** Of a key nobody asks about with no Delete in its past, only the completion of its Put touches the
      receipt, and the entry goes only once the receipt names its bytes. */
  lemma DecisionConfirms(c: Cell, k: Key, worker: Worker, env: Env)
    requires Sound(c, k, worker, env) && c.lock.Completing? && c.lock.item.op.Put? && c.slot.intent.None?
    ensures var t := WriteSlot(c.slot, Decide(c.lock, c.slot, env).write);
            t.store.Some? && (t.queue.None? ==> t.receipt == Some(DigestOf(t.store.value)))
  {
  }

  lemma AdvanceConfirms(s: State, k: Key, bytes: Bytes)
    requires Inv(s) && Enabled(s, Advance) && (Confirmed(s, k, bytes) || Awaited(s, k, bytes))
    ensures k !in AdvanceLock(s).disk.queue ==> Lookup(AdvanceLock(s).disk.receipts, k) == Some(DigestOf(bytes))
  {
    var t, key := AdvanceLock(s), LockedKey(s.lock).value;
    var d := Decide(s.lock, SlotOf(s.disk, key), EnvOf(s));
    assert KeyOk(s, key);
    WriteIsLocal(s.disk, key, d.write, k);
    AdvanceDrains(s, k);
    if key == k { DecisionConfirms(CellOf(s, k), k, s.worker, EnvOf(s)); }
    assert SlotOf(t.disk, k).queue == Lookup(t.disk.queue, k) && SlotOf(t.disk, k).receipt == Lookup(t.disk.receipts, k);
    assert SlotOf(t.disk, k).store == Lookup(t.disk.store, k);
  }

  /** A Put of `bytes` is queued, and nobody has asked about `k` since it was acknowledged. */
  predicate Awaited(s: State, k: Key, bytes: Bytes) {
    && Quiet(s, k) && Lookup(s.disk.store, k) == Some(bytes) && k !in s.disk.tombs
    && k in s.disk.queue && s.disk.queue[k].op.Put?
  }

  lemma FailConfirms(s: State, e: Key, retryAt: nat)
    requires Enabled(s, Fail(e, retryAt))
    ensures var t := Next(s, Fail(e, retryAt));
            t.disk.receipts == s.disk.receipts && t.disk.queue.Keys == s.disk.queue.Keys
  {
  }

  lemma OtherConfirms(s: State, a: Action)
    requires Enabled(s, a) && !a.Advance? && !a.Fail?
    ensures Next(s, a).disk.receipts == s.disk.receipts && Next(s, a).disk.queue == s.disk.queue
  {
  }

  lemma StepConfirms(s: State, a: Action, k: Key, bytes: Bytes)
    requires Inv(s) && Enabled(s, a) && !RequestOn(a, k) && (Confirmed(s, k, bytes) || Awaited(s, k, bytes))
    ensures Confirmed(Next(s, a), k, bytes) || Awaited(Next(s, a), k, bytes)
    ensures Confirmed(s, k, bytes) ==> Confirmed(Next(s, a), k, bytes)
  {
    StepDrains(s, a, k);
    if a.Advance? { AdvanceConfirms(s, k, bytes); } else if a.Fail? { FailConfirms(s, a.key, a.retryAt); } else { OtherConfirms(s, a); }
  }

  lemma {:induction false} RunConfirms(s: State, run: seq<Action>, k: Key, bytes: Bytes)
    requires Inv(s) && Legal(s, run) && Unrequested(run, k) && (Confirmed(s, k, bytes) || Awaited(s, k, bytes))
    ensures var t := After(s, run);
            (Confirmed(t, k, bytes) || Awaited(t, k, bytes)) && (Confirmed(s, k, bytes) ==> Confirmed(t, k, bytes))
    decreases |run|
  {
    if run != [] {
      StepConfirms(s, run[0], k, bytes);
      StepKeeps(s, run[0]);
      assert forall i :: 0 <= i < |run[1..]| ==> run[1..][i] == run[i + 1];
      RunConfirms(Next(s, run[0]), run[1..], k, bytes);
    }
  }

  /** Exactly when the master vouches for a Put it has queued: asked under the lock, at any point of any run
      without another request on the key, as soon as the entry has left the queue and from then on. */
  lemma ReportedIffDrained(s: State, run: seq<Action>, k: Key, bytes: Bytes)
    requires Inv(s) && Legal(s, run) && Unrequested(run, k) && Awaited(s, k, bytes)
    ensures var t := After(s, run);
            ReportsCommitted(t, k) <==> t.lock.Free? && k !in t.disk.queue
  {
    RunConfirms(s, run, k, bytes);
    var t := After(s, run);
    if t.lock.Free? && k !in t.disk.queue { ConfirmedIsReported(t, k, bytes); }
  }

  /** What has been reported, or could have been, is reported at every later query until a request names
      it. */
  lemma ConfirmedStaysReported(s: State, run: seq<Action>, k: Key, bytes: Bytes)
    requires Inv(s) && Legal(s, run) && Unrequested(run, k) && Confirmed(s, k, bytes)
    ensures After(s, run).lock.Free? ==> ReportsCommitted(After(s, run), k)
  {
    RunConfirms(s, run, k, bytes);
  }

  /** A Put is acknowledged without a write exactly when the master, asked just then, would vouch for the very
      bytes it carries. */
  lemma DuplicateIff(s: State)
    requires Inv(s) && s.lock.Putting? && s.lock.stage.Admit?
    ensures var put := s.lock.req;
            AdmissionOf(SlotOf(s.disk, put.key), EnvOf(s), put).Duplicate? <==>
              ReportsCommitted(s.(lock := Free), put.key) && s.disk.store[put.key] == put.bytes
  {
    var slot := SlotOf(s.disk, s.lock.req.key);
    assert KeyOk(s, s.lock.req.key);
  }
}
