/** When an upload can be lost: exactly when an abandoned request for its key is still out with other
    bytes. And the duplicate that is always harmless. */
module UploadRaces {
  import opened Basics
  import opened BackendQueue
  import opened MasterState
  import opened MasterInvariant
  import opened MasterRefinement
  import opened CrashReplay
  import opened MasterServer
  import opened EndToEnd

  // ----- runs in which nobody uploads or deletes `k` -----

  predicate Leaves(a: JointAction, k: Key) {
    && !((a.SpoolPayload? || a.DropPayload? || a.WriteEntry?) && a.key == k)
    && !(a.MasterStep? && a.step.BeginDelete? && a.step.key == k)
  }

  predicate LeavesAlone(run: seq<JointAction>, k: Key) {
    forall i :: 0 <= i < |run| ==> Leaves(run[i], k)
  }

  /** `t` can follow `j` without a further upload or Delete of `k`. */
  ghost predicate LeadsTo(j: Joint, t: Joint, k: Key) {
    exists run :: CanRun(j, run) && LeavesAlone(run, k) && RunJoint(j, run) == t
  }

  lemma LeadsToItself(j: Joint, k: Key)
    ensures LeadsTo(j, j, k)
  {
    assert CanRun(j, []);
  }

  lemma {:induction false} OneStepMore(j: Joint, run: seq<JointAction>, a: JointAction)
    requires CanRun(j, run) && CanStep(RunJoint(j, run), a)
    ensures CanRun(j, run + [a]) && RunJoint(j, run + [a]) == StepJoint(RunJoint(j, run), a)
    decreases |run|
  {
    if run == [] {
      assert run + [a] == [a] && [a][1..] == [];
    } else {
      OneStepMore(StepJoint(j, run[0]), run[1..], a);
      assert (run + [a])[1..] == run[1..] + [a];
    }
  }

  lemma LeadsToNext(j: Joint, t: Joint, a: JointAction, k: Key)
    requires LeadsTo(j, t, k) && CanStep(t, a) && Leaves(a, k)
    ensures LeadsTo(j, StepJoint(t, a), k)
  {
    var run :| CanRun(j, run) && LeavesAlone(run, k) && RunJoint(j, run) == t;
    OneStepMore(j, run, a);
  }

  // ----- serving one request to its acknowledgement -----

  /** The lock is held to write `put`, perhaps after replaying an older intent. */
  predicate Carries(lock: Lock, put: PutRequest) {
    || (lock.Putting? && lock.req == put)
    || (lock.Replaying? && lock.key == put.key && lock.next == ThenPut(put))
  }

  /** Without a quota nothing refuses it: immutable keys cannot collide. */
  lemma DecisionCarries(c: Cell, k: Key, worker: Worker, env: Env, put: PutRequest)
    requires Sound(c, k, worker, env) && Carries(c.lock, put) && env.config.limit.None?
    ensures var d := Decide(c.lock, c.slot, env);
            Carries(d.lock, put) || (c.lock.Putting? && d.promise.Some?)
  {
  }

  /** All of the slave's side is as it was, and acknowledgements are not lost. */
  ghost predicate SlaveRests(j: Joint, t: Joint) {
    && t.queued == j.queued && t.files == j.files && t.awaiting == j.awaiting && t.requests == j.requests && t.owed == j.owed
    && t.host == j.host && t.master.config == j.master.config && j.acked <= t.acked
  }

  /** The master's next durable write. */
  lemma Advances(i: Joint, j: Joint, k: Key) returns (t: Joint)
    requires LeadsTo(i, j, k) && WellFormed(j) && !j.master.lock.Free?
    ensures Enabled(j.master, Advance) && t.master == AdvanceLock(j.master)
    ensures LeadsTo(i, t, k) && WellFormed(t) && SlaveRests(j, t) && Remaining(t.master.lock) < Remaining(j.master.lock)
    ensures var acknowledged := Acknowledges(j.master);
            acknowledged.Some? && Lookup(j.awaiting, acknowledged.value.key) == acknowledged ==> acknowledged.value.key in t.acked
  {
    LockMoves(j.master);
    LeadsToNext(i, j, MasterStep(Advance), k);
    StepIsWellFormed(j, MasterStep(Advance));
    t := StepJoint(j, MasterStep(Advance));
  }

  /** Whoever holds the lock lets go of it. */
  lemma {:induction false} Settles(i: Joint, j: Joint, k: Key) returns (t: Joint)
    requires LeadsTo(i, j, k) && WellFormed(j)
    ensures LeadsTo(i, t, k) && WellFormed(t) && SlaveRests(j, t) && t.master.lock.Free?
    decreases Remaining(j.master.lock)
  {
    t := j;
    if !j.master.lock.Free? {
      t := Advances(i, j, k);
      t := Settles(i, t, k);
    }
  }

  lemma {:induction false} CarriedIsAcknowledged(i: Joint, j: Joint, put: PutRequest, k: Key) returns (t: Joint)
    requires LeadsTo(i, j, k) && WellFormed(j) && Carries(j.master.lock, put) && j.master.config.limit.None?
    ensures LeadsTo(i, t, k) && WellFormed(t) && SlaveRests(j, t)
    ensures View(t.master, put.key) == Some(put.bytes)
    ensures Lookup(j.awaiting, put.key) == Some(put) ==> put.key in t.acked
    decreases Remaining(j.master.lock)
  {
    var s := j.master;
    assert KeyOk(s, put.key);
    DecisionCarries(CellOf(s, put.key), put.key, s.worker, EnvOf(s), put);
    t := Advances(i, j, k);
    if Acknowledges(s).Some? { AcknowledgedIsSettled(s); } else { t := CarriedIsAcknowledged(i, t, put, k); }
  }

  /** On a master without quota, any request that is out can be served to its acknowledgement. */
  lemma RequestIsAcknowledged(i: Joint, j: Joint, put: PutRequest, k: Key) returns (t: Joint)
    requires LeadsTo(i, j, k) && WellFormed(j) && put in j.requests && j.master.config.limit.None?
    ensures LeadsTo(i, t, k) && WellFormed(t) && SlaveRests(j.(requests := j.requests - {put}), t)
    ensures View(t.master, put.key) == Some(put.bytes)
    ensures Lookup(j.awaiting, put.key) == Some(put) ==> put.key in t.acked
  {
    var j1 := Settles(i, j, k);
    LeadsToNext(i, j1, Serve(put), k);
    StepIsWellFormed(j1, Serve(put));
    t := CarriedIsAcknowledged(i, StepJoint(j1, Serve(put)), put, k);
  }

  // ----- losing an upload -----

  /** The owed upload of `k` is neither on the slave nor readable on the master. */
  predicate Lost(t: Joint, k: Key) {
    k in t.owed && !OnSlave(t, k, t.owed[k]) && View(t.master, k) != Some(t.owed[k])
  }

  /** The slave gives up on whatever it awaits, sends its entry for `k` alone, and it is acknowledged. */
  lemma SentAlone(i: Joint, j: Joint, k: Key) returns (t: Joint)
    requires LeadsTo(i, j, k) && WellFormed(j) && j.master.config.limit.None? && k in j.queued && j.queued[k].source in j.files
    ensures LeadsTo(i, t, k) && WellFormed(t) && t.master.config == j.master.config && t.owed == j.owed
    ensures t.queued == j.queued && t.files == j.files
    ensures t.awaiting.Keys == {k} && t.acked >= {k} && t.requests >= j.requests - {Request(j, k)}
  {
    var j1 := GivenUp(i, j, k);
    var j2 := Sent(i, j1, k);
    t := RequestIsAcknowledged(i, j2, Request(j, k), k);
  }

  lemma GivenUp(i: Joint, j: Joint, k: Key) returns (t: Joint)
    requires LeadsTo(i, j, k) && WellFormed(j)
    ensures LeadsTo(i, t, k) && WellFormed(t) && t == j.(awaiting := map[], acked := {})
  {
    LeadsToNext(i, j, GiveUp, k);
    StepIsWellFormed(j, GiveUp);
    t := StepJoint(j, GiveUp);
  }

  lemma Sent(i: Joint, j: Joint, k: Key) returns (t: Joint)
    requires LeadsTo(i, j, k) && WellFormed(j) && j.awaiting == map[] && k in j.queued && j.queued[k].source in j.files
    ensures LeadsTo(i, t, k) && WellFormed(t) && t.master == j.master && t.owed == j.owed
    ensures t.queued == j.queued && t.files == j.files
    ensures t.awaiting == map[k := Request(j, k)] && t.requests >= j.requests + {Request(j, k)}
  {
    LeadsToNext(i, j, SendBatch({k}), k);
    StepIsWellFormed(j, SendBatch({k}));
    t := StepJoint(j, SendBatch({k}));
    assert t.awaiting[k] == Request(j, k) && t.awaiting[k] in t.awaiting.Values;
  }

  /** An abandoned request, taken up after the newer upload was acknowledged, puts the older bytes back. */
  lemma AbandonedRequestOverwrites(j: Joint, k: Key, older: PutRequest) returns (t: Joint)
    requires WellFormed(j) && j.master.config.limit.None? && k in j.owed && OnSlave(j, k, j.owed[k])
    requires older in j.requests && older.key == k && older.bytes != j.owed[k]
    ensures LeadsTo(j, t, k) && Lost(t, k)
  {
    LeadsToItself(j, k);
    var j1 := SentAlone(j, j, k);
    LeadsToNext(j, j1, ReceiveReply({k}, {k}), k);
    var j2 := StepJoint(j1, ReceiveReply({k}, {k}));
    StepIsWellFormed(j1, ReceiveReply({k}, {k}));
    t := RequestIsAcknowledged(j, j2, older, k);
  }

  /** The upload can be lost although nobody uploads or deletes its key again. */
  ghost predicate CanBeLost(j: Joint, k: Key) {
    exists t :: LeadsTo(j, t, k) && Lost(t, k)
  }

  lemma {:induction false} AloneIsOrderly(j: Joint, run: seq<JointAction>, k: Key)
    requires CanRun(j, run) && LeavesAlone(run, k)
    ensures Orderly(j, run, k)
    decreases |run|
  {
    if run != [] {
      assert forall i :: 0 <= i < |run[1..]| ==> run[1..][i] == run[i + 1];
      assert Leaves(run[0], k);
      AloneIsOrderly(StepJoint(j, run[0]), run[1..], k);
    }
  }

  /** With a quota or without: an undisputed upload is never lost. */
  lemma UndisputedIsSafe(j: Joint, a: JointAction, k: Key)
    requires WellFormed(j) && Kept(j, k) && CanStep(j, a) && Uploaded(j, a, k).Some?
    requires Undisputed(j, k, Uploaded(j, a, k).value)
    ensures !CanBeLost(StepJoint(j, a), k)
  {
    var j1 := StepJoint(j, a);
    StepConserves(j, a, k);
    forall t | LeadsTo(j1, t, k) ensures !Lost(t, k) {
      var run :| CanRun(j1, run) && LeavesAlone(run, k) && RunJoint(j1, run) == t;
      AloneIsOrderly(j1, run, k);
      RunConserves(j1, run, k);
    }
  }

  lemma DisputedCanBeLost(j: Joint, a: JointAction, k: Key)
    requires WellFormed(j) && CanStep(j, a) && Uploaded(j, a, k).Some? && j.master.config.limit.None?
    requires !Undisputed(j, k, Uploaded(j, a, k).value)
    ensures CanBeLost(StepJoint(j, a), k)
  {
    StepIsWellFormed(j, a);
    var older :| older in j.requests && older.key == k && older.bytes != Uploaded(j, a, k).value;
    var t := AbandonedRequestOverwrites(StepJoint(j, a), k, older);
  }

  /** Conservation holds exactly where it should: on a master without quota, an upload can be lost if and
      only if a request for its key with other bytes is out when it is made. */
  lemma SafeIffUndisputed(j: Joint, a: JointAction, k: Key)
    requires WellFormed(j) && Kept(j, k) && CanStep(j, a) && Uploaded(j, a, k).Some? && j.master.config.limit.None?
    ensures CanBeLost(StepJoint(j, a), k) <==> exists r :: r in j.requests && r.key == k && r.bytes != Uploaded(j, a, k).value
  {
    if Undisputed(j, k, Uploaded(j, a, k).value) { UndisputedIsSafe(j, a, k); } else { DisputedCanBeLost(j, a, k); }
  }

  lemma {:induction false} RunsConcatenate(j: Joint, first: seq<JointAction>, second: seq<JointAction>)
    requires CanRun(j, first) && CanRun(RunJoint(j, first), second)
    ensures CanRun(j, first + second) && RunJoint(j, first + second) == RunJoint(RunJoint(j, first), second)
    decreases |first|
  {
    if first == [] {
      assert first + second == second;
    } else {
      RunsConcatenate(StepJoint(j, first[0]), first[1..], second);
      assert (first + second)[1..] == first[1..] + second;
    }
  }

  ghost predicate Runs(j: Joint, run: seq<JointAction>, t: Joint) {
    CanRun(j, run) && RunJoint(j, run) == t && WellFormed(t)
  }

  lemma RunsOn(j: Joint, run: seq<JointAction>, t: Joint, a: JointAction)
    requires Runs(j, run, t) && CanStep(t, a)
    ensures Runs(j, run + [a], StepJoint(t, a))
  {
    OneStepMore(j, run, a);
    StepIsWellFormed(t, a);
  }

  /** A fresh slave uploads `older`. */
  lemma Uploads(j: Joint, k: Key, older: Bytes) returns (run: seq<JointAction>, t: Joint)
    requires Fresh(j) && Inv(j.master) && Own(j, k) && k !in j.master.config.canon
    ensures Runs(j, run, t) && t.awaiting == map[] && t.master == j.master && t.host == j.host
    ensures Lookup(t.queued, k) == Some(Entry(Spool(k), false)) && OnSlave(t, k, older)
  {
    assert Runs(j, [], j);
    RunsOn(j, [], j, SpoolPayload(k, older));
    t := StepJoint(j, SpoolPayload(k, older));
    run := [] + [SpoolPayload(k, older)];
    RunsOn(j, run, t, WriteEntry(k, Entry(Spool(k), false)));
    t := StepJoint(t, WriteEntry(k, Entry(Spool(k), false)));
    run := run + [WriteEntry(k, Entry(Spool(k), false))];
  }

  /** It sends the upload, times out while the request is under way, and uploads `newer`. */
  lemma TimesOut(i: Joint, first: seq<JointAction>, j: Joint, k: Key, newer: Bytes) returns (run: seq<JointAction>, t: Joint)
    requires Runs(i, first, j) && j.awaiting == map[] && FromSpool(j, k) && Spool(k) in j.files
    requires Own(j, k) && k !in j.master.config.canon
    ensures Runs(i, run, t) && t.master == j.master
    ensures Lookup(t.owed, k) == Some(newer) && OnSlave(t, k, newer) && Request(j, k) in t.requests
  {
    RunsOn(i, first, j, SendBatch({k}));
    t := StepJoint(j, SendBatch({k}));
    run := first + [SendBatch({k})];
    assert t.awaiting[k] == Request(j, k) && Request(j, k) in t.awaiting.Values;
    RunsOn(i, run, t, GiveUp);
    t := StepJoint(t, GiveUp);
    run := run + [GiveUp];
    RunsOn(i, run, t, SpoolPayload(k, newer));
    t := StepJoint(t, SpoolPayload(k, newer));
    run := run + [SpoolPayload(k, newer)];
  }

  /** So the loss is real: every fresh slave can run into it, on any key it may overwrite. */
  lemma LossIsReachable(j: Joint, k: Key, older: Bytes, newer: Bytes) returns (run: seq<JointAction>)
    requires Fresh(j) && Inv(j.master) && j.master.config.limit.None? && Own(j, k) && k !in j.master.config.canon && older != newer
    ensures CanRun(j, run) && Lost(RunJoint(j, run), k) && RunJoint(j, run).owed[k] == newer
  {
    var first, j1 := Uploads(j, k, older);
    var second, t := TimesOut(j, first, j1, k, newer);
    var u := AbandonedRequestOverwrites(t, k, Request(j1, k));
    var later :| CanRun(t, later) && LeavesAlone(later, k) && RunJoint(t, later) == u;
    RunsConcatenate(j, second, later);
    OwedStays(t, later, k);
    run := second + later;
  }

  /** A crash between the removal of an acknowledged payload and of its entry leaves an entry that cannot be
      read. */
  lemma EntryIsStranded(j: Joint, k: Key, bytes: Bytes) returns (run: seq<JointAction>)
    requires Fresh(j) && Inv(j.master) && j.master.config.limit.None? && Own(j, k) && k !in j.master.config.canon
    ensures CanRun(j, run) && k in RunJoint(j, run).queued && RunJoint(j, run).queued[k].source !in RunJoint(j, run).files
  {
    var first, t := Uploads(j, k, bytes);
    LeadsToItself(t, k);
    var u := SentAlone(t, t, k);
    LeadsToNext(t, u, ReceiveReply({k}, {}), k);
    var later :| CanRun(t, later) && LeavesAlone(later, k) && RunJoint(t, later) == StepJoint(u, ReceiveReply({k}, {}));
    RunsConcatenate(j, first, later);
    run := first + later;
  }

  lemma {:induction false} OwedStays(j: Joint, run: seq<JointAction>, k: Key)
    requires CanRun(j, run) && LeavesAlone(run, k)
    ensures Lookup(RunJoint(j, run).owed, k) == Lookup(j.owed, k)
    decreases |run|
  {
    if run != [] {
      assert forall i :: 0 <= i < |run[1..]| ==> run[1..][i] == run[i + 1];
      assert Leaves(run[0], k);
      OwedStays(StepJoint(j, run[0]), run[1..], k);
    }
  }

  lemma StaysPutting(s: State)
    requires Enabled(s, Advance) && s.lock.Putting? && s.lock.req.key in AdvanceLock(s).disk.intents
    requires WritingPut(AdvanceLock(s), s.lock.req.key, s.lock.req)
    ensures AdvanceLock(s).lock.Putting?
  {
  }

  // ----- duplicates -----

  /** The object is stored and its backup is done or queued in the same form. */
  predicate AlreadyHeld(slot: Slot, put: PutRequest) {
    && slot.store == Some(put.bytes) && slot.tomb.None?
    && (if slot.queue.Some? then slot.queue.value.op == PutOperation(put) else slot.receipt == Some(DigestOf(put.bytes)))
  }

  lemma DuplicateDecision(lock: Lock, slot: Slot, env: Env, put: PutRequest)
    requires lock.Putting? && lock.req == put && AlreadyHeld(slot, put) && slot.queue.Some?
    requires !lock.stage.Admit? ==> !lock.wasTombstoned
    ensures var d := Decide(lock, slot, env);
            && WriteSlot(slot, d.write).(intent := None) == slot.(intent := None)
            && (d.lock.Putting? ==> d.lock.req == put && !d.lock.wasTombstoned)
            && (d.lock.Free? ==> slot.intent.None? || lock.stage.RemoveIntent?)
  {
  }

  lemma {:induction false} DuplicateSettles(s: State, put: PutRequest)
    requires Inv(s) && s.lock.Putting? && s.lock.req == put && !s.lock.stage.Admit? && !s.lock.wasTombstoned
    requires AlreadyHeld(SlotOf(s.disk, put.key), put) && put.key in s.disk.queue
    requires InProgress(s, put.key, put) && put.key in s.disk.intents
    ensures SlotOf(Settle(s).disk, put.key) == SlotOf(s.disk, put.key).(intent := None)
    ensures Elsewhere(s, Settle(s), put.key)
    decreases Remaining(s.lock)
  {
    var t, k := AdvanceLock(s), put.key;
    WriteProgresses(s, k, put);
    LockMoves(s);
    AdvanceKeeps(s);
    AdvanceElsewhere(s);
    AdvanceSlot(s, k);
    DuplicateDecision(s.lock, SlotOf(s.disk, k), EnvOf(s), put);
    assert SlotOf(t.disk, k).queue == Lookup(t.disk.queue, k) && SlotOf(t.disk, k).intent == Lookup(t.disk.intents, k);
    if k in t.disk.intents {
      StaysPutting(s);
      DuplicateSettles(t, put);
    }
  }

  /** A duplicate of an upload that is held changes no file: the queue entry is reused, generation and
      times included, and the intent comes and goes. */
  lemma DuplicateChangesNothing(s: State, put: PutRequest)
    requires Inv(s) && s.lock == Putting(put, Admit, false) && AlreadyHeld(SlotOf(s.disk, put.key), put)
    ensures forall j :: SlotOf(Settle(s).disk, j) == SlotOf(s.disk, j)
    ensures View(Settle(s), put.key) == Some(put.bytes)
  {
    var t, k, slot := AdvanceLock(s), put.key, SlotOf(s.disk, put.key);
    assert KeyOk(s, k);
    var admission := AdmissionOf(slot, EnvOf(s), put);
    AdmitStep(s, put, admission);
    LoggedIsRecovering(s);
    LockMoves(s);
    AdvanceKeeps(s);
    if admission.Logged? {
      AdvanceElsewhere(s);
      AdvanceSlot(s, k);
      assert SlotOf(t.disk, k) == slot.(intent := Some(put));
      DuplicateSettles(t, put);
    } else {
      assert Settle(s) == Settle(t) == t;
    }
    assert KeyOk(Settle(s), k);
  }
}
