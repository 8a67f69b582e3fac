/** What clients observe: the step system refines a plain key-value map in which only client
    requests change a key, and every acknowledged request stays visible. */
module MasterRefinement {
  import opened Basics
  import opened BackendQueue
  import opened MasterState
  import opened MasterInvariant

  /** The step is a durable write of a client request, or of its replay, on `k`. */
  predicate ClientWrite(s: State, a: Action, k: Key) {
    a.Advance? && LockedKey(s.lock) == Some(k) && (s.lock.Putting? || s.lock.Replaying? || s.lock.Removing?)
  }

  predicate RequestOn(a: Action, k: Key) {
    (a.BeginPut? && a.put.key == k) || (a.BeginDelete? && a.key == k)
  }

  // ----- one step -----

  lemma DecisionView(c: Cell, k: Key, worker: Worker, env: Env)
    requires Sound(c, k, worker, env)
    ensures var v, v' := SlotView(c.slot, c.backend), SlotView(Decided(c, env).slot, c.backend);
            if c.lock.Removing? then v' == None
            else v' == v || (c.slot.intent.Some? && v' == Some(c.slot.intent.value.bytes))
  {
    if c.lock.Completing? { assert c.lock.item.op.Delete? || c.slot.store.Some?; }
  }

  lemma AdvanceView(s: State, k: Key)
    requires Inv(s) && Enabled(s, Advance)
    ensures var v, v' := View(s, k), View(Next(s, Advance), k);
            if LockedKey(s.lock) == Some(k) && s.lock.Removing? then v' == None
            else v' == v || (k in s.disk.intents && v' == Some(s.disk.intents[k].bytes))
  {
    var key := LockedKey(s.lock).value;
    assert KeyOk(s, key);
    DecisionKeeps(CellOf(s, key), key, s.worker, EnvOf(s));
    AdvanceIsLocal(s, k);
    assert View(Next(s, Advance), k) == SlotView(CellOf(AdvanceLock(s), k).slot, CellOf(AdvanceLock(s), k).backend);
    if k == key { DecisionView(CellOf(s, k), k, s.worker, EnvOf(s)); }
  }

  lemma EffectView(s: State, e: Key, k: Key)
    requires Inv(s) && Enabled(s, Effect(e))
    ensures View(Next(s, Effect(e)), k) == View(s, k)
  {
    assert KeyOk(s, k);
  }

  lemma FailView(s: State, e: Key, retryAt: nat, k: Key)
    requires Inv(s) && Enabled(s, Fail(e, retryAt))
    ensures View(Next(s, Fail(e, retryAt)), k) == View(s, k)
  {
    assert KeyOk(s, k);
  }

  lemma OtherView(s: State, a: Action, k: Key)
    requires Enabled(s, a) && !a.Advance? && !a.Effect? && !a.Fail?
    ensures View(Next(s, a), k) == View(s, k)
  {
  }

  /** Refinement. A step changes what is read under `k` only by committing a logged Put of `k`, to
      exactly that Put's bytes, or by enqueueing a Delete of `k`. */
  lemma StepRefines(s: State, a: Action, k: Key)
    requires Inv(s) && Enabled(s, a)
    ensures var v, v' := View(s, k), View(Next(s, a), k);
            || v' == v
            || (k in s.disk.intents && v' == Some(s.disk.intents[k].bytes))
            || (ClientWrite(s, a, k) && s.lock.Removing? && v' == None)
  {
    match a {
      case Advance => AdvanceView(s, k);
      case Effect(e) => EffectView(s, e, k);
      case Fail(e, retryAt) => FailView(s, e, retryAt, k);
      case _ => OtherView(s, a, k);
    }
  }

  /** Background work is invisible: uploads, backend deletes, completions, tombstones, retries,
      local GC, hydration, I/O errors and crashes leave every key without a logged write alone. */
  lemma BackgroundIsInvisible(s: State, a: Action, k: Key)
    requires Inv(s) && Enabled(s, a) && !ClientWrite(s, a, k) && k !in s.disk.intents
    ensures View(Next(s, a), k) == View(s, k)
  {
    StepRefines(s, a, k);
  }

  // ----- whole runs -----

  /** No request on `k` is in progress. */
  predicate Quiet(s: State, k: Key) {
    && k !in s.disk.intents
    && !(LockedKey(s.lock) == Some(k) && (s.lock.Putting? || s.lock.Replaying? || s.lock.Removing?))
  }

  lemma DecisionStaysQuiet(lock: Lock, slot: Slot, env: Env)
    requires Grounded(lock, slot) && slot.intent.None? && (lock.Completing? || lock.Collecting?)
    ensures var d := Decide(lock, slot, env);
            !d.write.LogIntent? && (d.lock.Free? || d.lock.Completing? || d.lock.Collecting?)
  {
  }

  lemma AdvanceStaysQuiet(s: State, k: Key)
    requires Inv(s) && Enabled(s, Advance) && Quiet(s, k)
    ensures Quiet(AdvanceLock(s), k)
  {
    var t, key := AdvanceLock(s), LockedKey(s.lock).value;
    var d := Decide(s.lock, SlotOf(s.disk, key), EnvOf(s));
    assert t.disk == WriteDisk(s.disk, key, d.write) && t.lock == d.lock;
    WriteIsLocal(s.disk, key, d.write, k);
    assert SlotOf(t.disk, k).intent == Lookup(t.disk.intents, k) && SlotOf(s.disk, k).intent == Lookup(s.disk.intents, k);
    if k == key { DecisionStaysQuiet(s.lock, SlotOf(s.disk, key), EnvOf(s)); } else { AdvanceStaysOnKey(s); }
  }

  lemma QuietStays(s: State, a: Action, k: Key)
    requires Inv(s) && Enabled(s, a) && Quiet(s, k) && !RequestOn(a, k)
    ensures Quiet(Next(s, a), k)
  {
    if a.Advance? { AdvanceStaysQuiet(s, k); }
  }

  /** Nobody asks about `k`. */
  predicate Unrequested(run: seq<Action>, k: Key) {
    forall i :: 0 <= i < |run| ==> !RequestOn(run[i], k)
  }

  /** A key nobody asks about keeps its value through any run, with crashes anywhere: an
      acknowledged Delete stays absent and an acknowledged Put stays readable. */
  lemma {:induction false} QuietViewStays(s: State, run: seq<Action>, k: Key)
    requires Inv(s) && Legal(s, run) && Quiet(s, k) && Unrequested(run, k)
    ensures View(After(s, run), k) == View(s, k) && Quiet(After(s, run), k)
    decreases |run|
  {
    if run != [] {
      var t := Next(s, run[0]);
      QuietStays(s, run[0], k);
      BackgroundIsInvisible(s, run[0], k);
      StepKeeps(s, run[0]);
      assert forall i :: 0 <= i < |run[1..]| ==> run[1..][i] == run[i + 1];
      QuietViewStays(t, run[1..], k);
    }
  }

  /** In every state reachable from a fresh master, what was last acknowledged on a key is what is
      read there, unless a newer request on it has been logged. */
  lemma AcknowledgedIsVisible(s: State, run: seq<Action>, k: Key)
    requires Init(s) && Legal(s, run)
    ensures var t := After(s, run);
            k in t.promised ==>
              View(t, k) == (match t.promised[k] case Present(bytes) => Some(bytes) case Absent => None)
  {
    InitInv(s);
    RunKeeps(s, run);
    assert KeyOk(After(s, run), k);
  }

  /** In every reachable state each stored payload is logged, queued, retained for deletion, or in
      the backend byte for byte. */
  lemma NoObligationLost(s: State, run: seq<Action>, k: Key)
    requires Init(s) && Legal(s, run)
    ensures var t := After(s, run);
            k in t.disk.store ==>
              || k in t.disk.intents || k in t.disk.queue || k in t.disk.tombs
              || (k in t.backend && t.backend[k] == t.disk.store[k])
  {
    InitInv(s);
    RunKeeps(s, run);
    assert KeyOk(After(s, run), k);
  }

  /** The upload thread's digest check cannot fail on a key without a logged write. */
  lemma DigestNeverChangedBeforeUpload(s: State, run: seq<Action>, k: Key)
    requires Init(s) && Legal(s, run)
    ensures var t := After(s, run);
            k in t.disk.queue && t.disk.queue[k].op.Put? && k !in t.disk.intents ==>
              k in t.disk.store && DigestOf(t.disk.store[k]) == t.disk.queue[k].op.digest
  {
    InitInv(s);
    RunKeeps(s, run);
    assert KeyOk(After(s, run), k);
  }

  // ----- completions -----

  /** The step writes a new queue entry for `k`: a request with another operation than the queued one. */
  ghost predicate Replaces(s: State, a: Action, k: Key)
    requires Enabled(s, a)
  {
    a.Advance? && LockedKey(s.lock) == Some(k) && Decide(s.lock, SlotOf(s.disk, k), EnvOf(s)).write.PutQueue?
  }

  ghost predicate NoneReplaces(s: State, run: seq<Action>, k: Key)
    requires Legal(s, run)
    decreases |run|
  {
    run == [] || (!Replaces(s, run[0], k) && NoneReplaces(Next(s, run[0]), run[1..], k))
  }

  /** The call for `k` does not return during the run. */
  predicate InFlight(run: seq<Action>, k: Key) {
    forall i :: 0 <= i < |run| ==> !run[i].Crash? && !((run[i].Complete? || run[i].Fail?) && run[i].key == k)
  }

  lemma AdvanceWhileInFlight(s: State, k: Key)
    requires Inv(s) && Enabled(s, Advance) && k in s.flights
    ensures var t := AdvanceLock(s);
            && t.flights == s.flights
            && (if Replaces(s, Advance, k) then k in t.disk.queue && t.disk.queue[k].generation > s.flights[k].item.generation
                else Lookup(t.disk.queue, k) == Lookup(s.disk.queue, k))
  {
    var t, key := AdvanceLock(s), LockedKey(s.lock).value;
    var d := Decide(s.lock, SlotOf(s.disk, key), EnvOf(s));
    assert KeyOk(s, k);
    WriteIsLocal(s.disk, key, d.write, k);
    assert SlotOf(t.disk, k).queue == Lookup(t.disk.queue, k) && SlotOf(s.disk, k).queue == Lookup(s.disk.queue, k);
    if key == k { DecisionWhileInFlight(CellOf(s, k), k, s.worker, EnvOf(s)); }
  }

  lemma DecisionWhileInFlight(c: Cell, k: Key, worker: Worker, env: Env)
    requires Sound(c, k, worker, env) && c.flight.Some?
    ensures var w := Decide(c.lock, c.slot, env).write;
            if w.PutQueue? then w.item.generation > c.flight.value.item.generation else WriteSlot(c.slot, w).queue == c.slot.queue
  {
  }

  lemma OtherWhileInFlight(s: State, a: Action, k: Key)
    requires Inv(s) && Enabled(s, a) && k in s.flights && !a.Advance? && InFlight([a], k)
    ensures var t := Next(s, a);
            k in t.flights && t.flights[k].item == s.flights[k].item
            && (k in t.disk.queue <==> k in s.disk.queue)
            && (k in t.disk.queue ==> t.disk.queue[k].generation == s.disk.queue[k].generation)
  {
    assert !(([a][0].Complete? || [a][0].Fail?) && [a][0].key == k) && ![a][0].Crash?;
  }

  /** Whether a completion is taken up, over every run from the sending of an entry to the return of the
      call: exactly when no request has replaced the entry since. Otherwise it changes no file. */
  lemma {:induction false} TakenUpIffNotReplaced(s: State, run: seq<Action>, k: Key)
    requires Inv(s) && k in s.flights && Legal(s, run) && InFlight(run, k)
    ensures var t, item := After(s, run), s.flights[k].item;
            && k in t.flights && t.flights[k].item == item && k in t.disk.queue
            && (StillCurrent(t, k, item) <==> StillCurrent(s, k, item) && NoneReplaces(s, run, k))
            && (Enabled(t, Complete(k)) ==>
                  Next(t, Complete(k)) ==
                  t.(flights := t.flights - {k},
                     lock := if StillCurrent(s, k, item) && NoneReplaces(s, run, k)
                             then Completing(k, item, if item.op.Delete? then Retain else Receipt) else Free))
    decreases |run|
  {
    assert KeyOk(s, k) && SlotOf(s.disk, k).queue == Lookup(s.disk.queue, k);
    if run != [] {
      assert forall i :: 0 <= i < |run[1..]| ==> run[1..][i] == run[i + 1];
      assert InFlight([run[0]], k);
      StepKeeps(s, run[0]);
      if run[0].Advance? { AdvanceWhileInFlight(s, k); } else { OtherWhileInFlight(s, run[0], k); }
      TakenUpIffNotReplaced(Next(s, run[0]), run[1..], k);
    }
  }

  /** The entry a request owes the queue, if its next write is to put it there. */
  function Owed(lock: Lock, slot: Slot): Option<Operation> {
    if lock.Putting? && lock.stage.Enqueue? then Some(PutOperation(lock.req))
    else if lock.Replaying? && lock.replay.ReplayQueue? && slot.intent.Some? then Some(PutOperation(slot.intent.value))
    else if lock.Removing? then Some(Operation.Delete)
    else None
  }

  /** Which writes replace a queue entry: those of a request whose operation is not the queued one. A request
      repeated leaves the entry as it is, so that an upload under way still counts. */
  lemma ReplacesIff(s: State, k: Key)
    requires Inv(s) && Enabled(s, Advance) && LockedKey(s.lock) == Some(k)
    ensures var owed := Owed(s.lock, SlotOf(s.disk, k));
            Replaces(s, Advance, k) <==> owed.Some? && !(k in s.disk.queue && s.disk.queue[k].op == owed.value)
    ensures Replaces(s, Advance, k) ==>
              var item := AdvanceLock(s).disk.queue[k];
              && Some(item.op) == Owed(s.lock, SlotOf(s.disk, k)) && item.updatedAt == s.clock
              && item.attempts == 0 && item.retryAfter.None?
              && (k in s.disk.queue ==> item.generation > s.disk.queue[k].generation)
  {
    assert KeyOk(s, k) && SlotOf(s.disk, k).queue == Lookup(s.disk.queue, k);
  }

  /** `k` is queued in every state of the run. */
  ghost predicate StaysQueued(s: State, run: seq<Action>, k: Key)
    requires Legal(s, run)
    decreases |run|
  {
    k in s.disk.queue && (run == [] || StaysQueued(Next(s, run[0]), run[1..], k))
  }

  lemma DecisionKeepsAge(lock: Lock, slot: Slot, env: Env)
    requires Grounded(lock, slot)
    ensures var queue := WriteSlot(slot, Decide(lock, slot, env).write).queue;
            slot.queue.Some? && queue.Some? ==> queue.value.createdAt == slot.queue.value.createdAt
  {
  }

  lemma AdvanceKeepsAge(s: State, k: Key)
    requires Enabled(s, Advance) && k in s.disk.queue && k in AdvanceLock(s).disk.queue
    ensures AdvanceLock(s).disk.queue[k].createdAt == s.disk.queue[k].createdAt
  {
    var t, key := AdvanceLock(s), LockedKey(s.lock).value;
    DecisionKeepsAge(s.lock, SlotOf(s.disk, key), EnvOf(s));
    WriteIsLocal(s.disk, key, Decide(s.lock, SlotOf(s.disk, key), EnvOf(s)).write, k);
    assert SlotOf(s.disk, k).queue == Lookup(s.disk.queue, k) && SlotOf(t.disk, k).queue == Lookup(t.disk.queue, k);
  }

  lemma OtherKeepsAge(s: State, a: Action, k: Key)
    requires Enabled(s, a) && !a.Advance? && k in s.disk.queue && k in Next(s, a).disk.queue
    ensures Next(s, a).disk.queue[k].createdAt == s.disk.queue[k].createdAt
  {
  }

  /** An entry keeps its age, by which the worker picks, for as long as its key stays queued: through
      replacement by other requests, failed attempts and restarts. */
  lemma {:induction false} AgeIsKept(s: State, run: seq<Action>, k: Key)
    requires Legal(s, run) && StaysQueued(s, run, k)
    ensures k in After(s, run).disk.queue && After(s, run).disk.queue[k].createdAt == s.disk.queue[k].createdAt
    decreases |run|
  {
    if run != [] {
      if run[0].Advance? { AdvanceKeepsAge(s, k); } else { OtherKeepsAge(s, run[0], k); }
      AgeIsKept(Next(s, run[0]), run[1..], k);
    }
  }

  /** A current completion of a Put certifies the stored bytes: they are in the backend, unless a
      newer write has been logged. */
  lemma CurrentCompletionIsEarned(s: State, k: Key)
    requires Inv(s) && Enabled(s, Complete(k)) && StillCurrent(s, k, s.flights[k].item)
    ensures s.flights[k].item.op.Put? && k !in s.disk.intents ==>
              k in s.disk.store && k in s.backend && s.backend[k] == s.disk.store[k]
    ensures s.flights[k].item.op.Delete? ==> k !in s.backend
  {
    assert KeyOk(s, k);
  }

  // ----- local GC -----

  lemma OnlyCollectDrops(lock: Lock, slot: Slot, env: Env)
    requires Grounded(lock, slot) && Decide(lock, slot, env).write.DropStore?
    ensures lock.Collecting? && lock.collect.Payload? && slot.store.Some? && DigestOf(slot.store.value) == slot.tomb.value.digest
  {
  }

  lemma OtherStore(s: State, a: Action)
    requires Enabled(s, a) && !a.Advance? && !a.Hydrate?
    ensures Next(s, a).disk.store == s.disk.store
  {
  }

  lemma RemovalIsCollection(s: State, k: Key)
    requires Enabled(s, Advance) && k in s.disk.store && k !in AdvanceLock(s).disk.store
    ensures s.lock.Collecting? && LockedKey(s.lock) == Some(k)
  {
    var key := LockedKey(s.lock).value;
    var w := Decide(s.lock, SlotOf(s.disk, key), EnvOf(s)).write;
    assert w.DropStore?;
    OnlyCollectDrops(s.lock, SlotOf(s.disk, key), EnvOf(s));
  }

  /** Only local GC removes a payload, and only from a key that clients already read as absent and
      on which no Put is promised. */
  lemma CollectedWasDeleted(s: State, a: Action, k: Key)
    requires Inv(s) && Enabled(s, a) && k in s.disk.store && k !in Next(s, a).disk.store
    ensures a.Advance? && s.lock.Collecting? && LockedKey(s.lock) == Some(k)
    ensures View(s, k) == None && k in s.disk.tombs && k !in s.disk.queue
    ensures k in s.promised ==> s.promised[k] == Absent
  {
    assert a.Advance? by {
      if !a.Advance? && !a.Hydrate? { OtherStore(s, a); }
    }
    RemovalIsCollection(s, k);
    assert KeyOk(s, k);
  }

  // ----- one Put -----

  /** The durable writes of a logged Put move the view once: each write leaves it alone or sets it
      to the new bytes, and the acknowledging write finds it set. */
  lemma PutSwitchesOnce(s: State)
    requires Inv(s) && s.lock.Putting? && !s.lock.stage.Admit?
    ensures Enabled(s, Advance)
    ensures var k, t := s.lock.req.key, Next(s, Advance);
            && View(t, k) in {View(s, k), Some(s.lock.req.bytes)}
            && (s.lock.stage.RemoveIntent? ==> View(s, k) == Some(s.lock.req.bytes) && View(t, k) == View(s, k)
                                               && t.promised[k] == Present(s.lock.req.bytes))
  {
    var k := s.lock.req.key;
    assert KeyOk(s, k);
    AdvanceView(s, k);
  }

  // ----- the quota -----

  /** The store never grows past the limit, and never grows at all while above it. */
  lemma QuotaHolds(s: State, a: Action)
    requires Inv(s) && Enabled(s, a) && s.config.limit.Some?
    ensures var total, total' := TotalBytes(s.disk.store), TotalBytes(Next(s, a).disk.store);
            total' <= total || total' <= s.config.limit.value
  {
    StepKeeps(s, a);
    match a {
      case Advance => QuotaHoldsAdvance(s);
      case Hydrate(k, _) => TotalWithout(s.disk.store, k);
      case _ => OtherStore(s, a);
    }
  }

  /** A write is turned away by the quota exactly when it would make the store grow, past the limit. */
  lemma QuotaRefusesIff(s: State, k: Key, bytes: Bytes)
    requires s.storeBytes == TotalBytes(s.disk.store)
    ensures var total, total' := TotalBytes(s.disk.store), TotalBytes(s.disk.store[k := bytes]);
            !QuotaAllows(EnvOf(s), Len(Lookup(s.disk.store, k)), |bytes|) <==>
              s.config.limit.Some? && total' > total && total' > s.config.limit.value
  {
    var after := s.disk.store[k := bytes];
    TotalWithout(s.disk.store, k);
    TotalWithout(after, k);
    assert after - {k} == s.disk.store - {k};
  }

  /** Which Puts are refused: content addressing rules collisions out, so only the quota refuses, and only a
      Put that would make the store grow past the limit. */
  lemma RefusedIff(s: State)
    requires Inv(s) && s.lock.Putting? && s.lock.stage.Admit?
    ensures var put, total := s.lock.req, TotalBytes(s.disk.store);
            var total' := TotalBytes(s.disk.store[put.key := put.bytes]);
            AdmissionOf(SlotOf(s.disk, put.key), EnvOf(s), put).Refused? <==>
              s.config.limit.Some? && total' > total && total' > s.config.limit.value
  {
    var put := s.lock.req;
    assert KeyOk(s, put.key);
    QuotaRefusesIff(s, put.key, put.bytes);
    if Lookup(s.disk.store, put.key) == Some(put.bytes) { assert s.disk.store[put.key := put.bytes] == s.disk.store; }
  }

  lemma QuotaHoldsAdvance(s: State)
    requires Inv(s) && Enabled(s, Advance) && s.config.limit.Some?
    ensures AdvanceLock(s).storeBytes <= s.storeBytes || AdvanceLock(s).storeBytes <= s.config.limit.value
  {
    var key := LockedKey(s.lock).value;
    DecidedWriteFits(s.lock, SlotOf(s.disk, key), EnvOf(s));
    TotalWithout(s.disk.store, key);
  }

  lemma DecidedWriteFits(lock: Lock, slot: Slot, env: Env)
    requires Grounded(lock, slot)
    ensures var w := Decide(lock, slot, env).write;
            w.PutStore? ==> QuotaAllows(env, Len(slot.store), |w.bytes|)
  {
  }

  /** A Put refused at admission, by the quota or as a collision, leaves the disk untouched. */
  lemma RefusalChangesNothing(s: State)
    requires Enabled(s, Advance) && s.lock.Putting? && s.lock.stage.Admit?
    requires Next(s, Advance).lock.Free?
    ensures Next(s, Advance).disk == s.disk && Next(s, Advance).storeBytes == s.storeBytes
  {
  }
}
