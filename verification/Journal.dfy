/** Compaction of the event journal: it keeps the two newest snapshot finishes, the pending triggers and
    every trigger that is not yet in the remote journal, and it is idempotent. */
module Journal {
  import opened Basics

  datatype Event = Event(kind: string, observedAt: int, syncedAt: Option<int>)

  predicate IsSnapshotFinish(e: Event) {
    e.kind == "snapshot-finish"
  }

  predicate IsPendingTrigger(e: Event) {
    e.kind == "fs-event" || e.kind == "periodic-rescan"
  }

  type Events = map<Key, Event>

  // ----- the two newest finishes -----

  ghost predicate IsMax(s: set<int>, m: int) {
    m in s && forall x :: x in s ==> x <= m
  }

  lemma {:induction false} MaxExists(s: set<int>) returns (m: int)
    requires s != {}
    ensures IsMax(s, m)
    decreases |s|
  {
    assert (forall x :: x !in s) ==> s == {};
    var x :| x in s;
    var others := s - {x};
    if others == {} {
      m := x;
      assert forall y :: y in s ==> y == x || y in others;
    } else {
      m := MaxExists(others);
      if m < x { m := x; }
      assert forall y :: y in s ==> y == x || y in others;
    }
  }

  ghost function Newest(s: set<int>): (r: Option<int>)
    ensures r.None? <==> s == {}
    ensures r.Some? ==> IsMax(s, r.value)
  {
    if s == {} then None
    else
      assert exists m :: IsMax(s, m) by { var m := MaxExists(s); }
      var m :| IsMax(s, m);
      Some(m)
  }

  /** The newest time but one. */
  ghost function SecondNewest(s: set<int>): Option<int> {
    if s == {} then None else Newest(s - {Newest(s).value})
  }

  ghost function Finishes(events: Events): set<int> {
    set k | k in events && IsSnapshotFinish(events[k]) :: events[k].observedAt
  }

  /** Ascending, without repetition. */
  ghost predicate Increasing(times: seq<int>) {
    forall i, j :: 0 <= i < j < |times| ==> times[i] < times[j]
  }

  function InsertTime(times: seq<int>, t: int): seq<int> {
    if times == [] || t < times[0] then [t] + times
    else if t == times[0] then times
    else [times[0]] + InsertTime(times[1..], t)
  }

  lemma {:induction false} InsertTimeSorts(times: seq<int>, t: int)
    requires Increasing(times)
    ensures Increasing(InsertTime(times, t)) && forall x :: x in InsertTime(times, t) <==> x in times || x == t
  {
    if times != [] {
      assert times == [times[0]] + times[1..];
      if t > times[0] {
        InsertTimeSorts(times[1..], t);
        var rest := InsertTime(times[1..], t);
        forall j | 0 <= j < |rest| ensures times[0] < rest[j] { assert rest[j] in rest; }
      }
    }
  }

  /** Sort, drop repetitions, and take the second from the end. */
  method PreviousSnapshotFinish(finishes: seq<int>) returns (r: Option<int>)
    ensures r == SecondNewest(set t | t in finishes)
  {
    var times: seq<int> := [];
    for i := 0 to |finishes|
      invariant Increasing(times) && forall x :: x in times <==> x in finishes[..i]
    {
      InsertTimeSorts(times, finishes[i]);
      assert forall x :: x in finishes[..i + 1] <==> x in finishes[..i] || x == finishes[i];
      times := InsertTime(times, finishes[i]);
    }
    assert finishes[..|finishes|] == finishes;
    SecondFromTheEnd(times, set t | t in finishes);
    r := if |times| >= 2 then Some(times[|times| - 2]) else None;
  }

  lemma SecondFromTheEnd(times: seq<int>, s: set<int>)
    requires Increasing(times) && forall x :: x in times <==> x in s
    ensures SecondNewest(s) == if |times| >= 2 then Some(times[|times| - 2]) else None
  {
    if times == [] {
      assert forall x :: x !in s;
    } else {
      var n := |times| - 1;
      assert times[n] in times;
      assert forall x :: x in s ==> exists i :: 0 <= i <= n && times[i] == x;
      assert Newest(s).value == times[n];
      var rest := s - {times[n]};
      if n > 0 {
        assert times[n - 1] in times && times[n - 1] in rest;
        assert Newest(rest).value == times[n - 1];
      } else {
        assert rest == {};
      }
    }
  }

  /** Removing finishes older than the second newest changes neither. */
  lemma OlderFinishesDoNotMatter(s: set<int>, t: set<int>)
    requires t <= s && forall x :: x in s - t ==> SecondNewest(s).Some? && x < SecondNewest(s).value
    ensures Newest(t) == Newest(s) && SecondNewest(t) == SecondNewest(s)
  {
    if s != {} {
      var m := Newest(s).value;
      assert m !in t ==> m in s - t;
      assert Newest(t) == Newest(s);
      var u, v := s - {m}, t - {m};
      if u != {} {
        var p := Newest(u).value;
        assert p !in v ==> p in s - t;
        assert IsMax(u, p);
        assert forall x :: x in v ==> x in u;
        assert v != {};
        assert IsMax(v, p) && IsMax(v, Newest(v).value);
      } else {
        assert v == {};
      }
    }
  }

  // ----- what may go -----

  /** How strict the compaction is, and what the current snapshot covers, if there is one. */
  datatype Policy = Policy(trustFinish: bool, covered: Option<Event -> bool>)

  predicate Removable(policy: Policy, e: Event, compactBefore: Option<int>, lastFinish: Option<int>) {
    if IsSnapshotFinish(e) || !IsPendingTrigger(e) then
      compactBefore.Some? && e.observedAt < compactBefore.value
    else
      && lastFinish.Some? && e.observedAt < lastFinish.value
      && e.syncedAt.Some?
      && (policy.trustFinish || (policy.covered.Some? && policy.covered.value(e)))
  }

  /** A trigger no finished snapshot has seen. */
  predicate Pending(e: Event, lastFinish: Option<int>) {
    IsPendingTrigger(e) && (lastFinish.None? || e.observedAt > lastFinish.value)
  }

  ghost predicate MayGo(policy: Policy, events: Events, e: Event) {
    Removable(policy, e, SecondNewest(Finishes(events)), Newest(Finishes(events)))
  }

  ghost function Compacted(policy: Policy, events: Events): Events {
    map k | k in events && !MayGo(policy, events, events[k]) :: events[k]
  }

  ghost function Expendable(policy: Policy, events: Events): set<Key> {
    set k | k in events && MayGo(policy, events, events[k])
  }

  // ----- what goes, in terms of the records -----

  /** A snapshot finished after time `t`. */
  ghost predicate FinishedAfter(events: Events, t: int) {
    exists j :: j in events && events[j].kind == "snapshot-finish" && t < events[j].observedAt
  }

  /** Two snapshots finished after time `t`, one after the other. */
  ghost predicate TwoFinishedAfter(events: Events, t: int) {
    exists i, j :: i in events && j in events && events[i].kind == "snapshot-finish" && events[j].kind == "snapshot-finish"
                   && t < events[i].observedAt < events[j].observedAt
  }

  /** A trigger goes once a snapshot has finished after it, the remote journal has it, and the finish is trusted
      or the snapshot covers it; any other record once two snapshots have finished after it. */
  ghost predicate Goes(policy: Policy, events: Events, e: Event) {
    if e.kind == "fs-event" || e.kind == "periodic-rescan" then
      FinishedAfter(events, e.observedAt) && e.syncedAt.Some? && (policy.trustFinish || (policy.covered.Some? && policy.covered.value(e)))
    else
      TwoFinishedAfter(events, e.observedAt)
  }

  lemma BelowNewestIff(s: set<int>, x: int)
    ensures Newest(s).Some? && x < Newest(s).value <==> exists a :: a in s && x < a
  {
  }

  lemma BelowSecondNewestIff(s: set<int>, x: int)
    ensures SecondNewest(s).Some? && x < SecondNewest(s).value <==> exists a, b :: a in s && b in s && x < a < b
  {
    if a, b :| a in s && b in s && x < a < b {
      var m := Newest(s).value;
      assert a != m && a in s - {m};
    }
    if SecondNewest(s).Some? && x < SecondNewest(s).value {
      var m := Newest(s).value;
      var p := Newest(s - {m}).value;
      assert p in s - {m} && m in s && p < m;
    }
  }

  lemma FinishTimesAre(events: Events)
    ensures forall t :: t in Finishes(events) <==> exists j :: j in events && events[j].kind == "snapshot-finish" && events[j].observedAt == t
    ensures forall j :: j in events && events[j].kind == "snapshot-finish" ==> events[j].observedAt in Finishes(events)
  {
  }

  lemma FinishedAfterIff(events: Events, t: int)
    ensures FinishedAfter(events, t) <==> exists a :: a in Finishes(events) && t < a
  {
    FinishTimesAre(events);
    if a :| a in Finishes(events) && t < a {
      var j :| j in events && events[j].kind == "snapshot-finish" && events[j].observedAt == a;
    }
  }

  lemma TwoFinishedAfterIff(events: Events, t: int)
    ensures TwoFinishedAfter(events, t) <==> exists a, b :: a in Finishes(events) && b in Finishes(events) && t < a < b
  {
    FinishTimesAre(events);
    if a, b :| a in Finishes(events) && b in Finishes(events) && t < a < b {
      var i :| i in events && events[i].kind == "snapshot-finish" && events[i].observedAt == a;
      var j :| j in events && events[j].kind == "snapshot-finish" && events[j].observedAt == b;
    }
  }

  /** The cutoffs computed from the finishes decide exactly that. */
  lemma GoesIff(policy: Policy, events: Events, e: Event)
    ensures MayGo(policy, events, e) <==> Goes(policy, events, e)
  {
    BelowNewestIff(Finishes(events), e.observedAt);
    BelowSecondNewestIff(Finishes(events), e.observedAt);
    FinishedAfterIff(events, e.observedAt);
    TwoFinishedAfterIff(events, e.observedAt);
  }

  lemma KeptIff(policy: Policy, events: Events)
    ensures forall k :: k in Compacted(policy, events) <==> k in events && !Goes(policy, events, events[k])
  {
    forall k | k in events ensures k in Compacted(policy, events) <==> !Goes(policy, events, events[k]) {
      GoesIff(policy, events, events[k]);
    }
  }

  /** What is pending, in terms of the records: a trigger later than every finish. */
  ghost predicate Awaits(events: Events, e: Event) {
    && (e.kind == "fs-event" || e.kind == "periodic-rescan")
    && forall j :: j in events && events[j].kind == "snapshot-finish" ==> events[j].observedAt < e.observedAt
  }

  lemma PendingIff(events: Events, e: Event)
    ensures Pending(e, Newest(Finishes(events))) <==> Awaits(events, e)
  {
    FinishTimesAre(events);
    if Newest(Finishes(events)).Some? { assert Newest(Finishes(events)).value in Finishes(events); }
  }

  /** Compaction leaves the last finish and the one before it as they were. */
  lemma FinishesSurvive(policy: Policy, events: Events)
    ensures Newest(Finishes(Compacted(policy, events))) == Newest(Finishes(events))
    ensures SecondNewest(Finishes(Compacted(policy, events))) == SecondNewest(Finishes(events))
  {
    var s, t := Finishes(events), Finishes(Compacted(policy, events));
    forall x | x in s - t ensures SecondNewest(s).Some? && x < SecondNewest(s).value {
      var k :| k in events && IsSnapshotFinish(events[k]) && events[k].observedAt == x;
      assert k !in Compacted(policy, events);
    }
    OlderFinishesDoNotMatter(s, t);
  }

  /** A second compaction has nothing left to remove. */
  lemma CompactionIsIdempotent(policy: Policy, events: Events)
    ensures Expendable(policy, Compacted(policy, events)) == {}
    ensures Compacted(policy, Compacted(policy, events)) == Compacted(policy, events)
  {
    FinishesSurvive(policy, events);
  }

  /** What is pending is pending afterwards, and nothing else is. */
  lemma PendingSurvives(policy: Policy, events: Events, k: Key)
    ensures var kept := Compacted(policy, events);
            k in kept && Pending(kept[k], Newest(Finishes(kept)))
            <==> k in events && Pending(events[k], Newest(Finishes(events)))
  {
    FinishesSurvive(policy, events);
  }

  /** A trigger is lost only after the remote journal has it and a later snapshot has finished. */
  lemma LostTriggersAreSafe(policy: Policy, events: Events, k: Key)
    requires k in events && k !in Compacted(policy, events) && IsPendingTrigger(events[k])
    ensures events[k].syncedAt.Some?
    ensures exists j :: j in Compacted(policy, events) && IsSnapshotFinish(events[j]) && events[k].observedAt < events[j].observedAt
    ensures policy.trustFinish || (policy.covered.Some? && policy.covered.value(events[k]))
  {
    FinishesSurvive(policy, events);
    var kept := Compacted(policy, events);
    var last := Newest(Finishes(kept)).value;
    assert last in Finishes(kept);
    var j :| j in kept && IsSnapshotFinish(kept[j]) && kept[j].observedAt == last;
  }

  /** Records that arrive while the files are being removed make nothing wrong: what may go by the old
      records may go by the new ones. */
  lemma ArrivalsAreHarmless(policy: Policy, events: Events, later: Events, e: Event)
    requires forall k :: k in events ==> k in later && later[k] == events[k]
    requires MayGo(policy, events, e)
    ensures MayGo(policy, later, e)
  {
    var s, t := Finishes(events), Finishes(later);
    assert s <= t;
    NewestGrows(s, t);
  }

  lemma NewestGrows(s: set<int>, t: set<int>)
    requires s <= t
    ensures Newest(s).Some? ==> Newest(t).Some? && Newest(s).value <= Newest(t).value
    ensures SecondNewest(s).Some? ==> SecondNewest(t).Some? && SecondNewest(s).value <= SecondNewest(t).value
  {
    if s != {} {
      var m, n := Newest(s).value, Newest(t).value;
      assert m in t;
      var u := s - {m};
      if u != {} {
        var p, v := Newest(u).value, t - {n};
        assert p in u && p in t && p != m && p <= m <= n;
        assert p in v;
      }
    }
  }

  // ----- the journal -----

  datatype Stats = Stats(total: nat, pending: nat, processed: nat, removable: nat,
                         lastFinish: Option<int>, compactBefore: Option<int>)

  ghost function PendingKeys(events: Events): set<Key> {
    set k | k in events && Pending(events[k], Newest(Finishes(events)))
  }

  ghost function KeysWhere(events: Events, test: Event -> bool): set<Key> {
    set k | k in events && test(events[k])
  }

  lemma OneMore(all: set<Key>, todo: set<Key>, k: Key)
    requires k in todo
    ensures all - (todo - {k}) == if k in all then (all - todo) + {k} else all - todo
    ensures |all - (todo - {k})| == if k in all then |all - todo| + 1 else |all - todo|
  {
    assert all - (todo - {k}) == if k in all then (all - todo) + {k} else all - todo;
  }

  method Count(events: Events, test: Event -> bool) returns (n: nat)
    ensures n == |KeysWhere(events, test)|
  {
    n := 0;
    var todo := events.Keys;
    while todo != {}
      invariant todo <= events.Keys && n == |KeysWhere(events, test) - todo|
      decreases |todo|
    {
      var k :| k in todo;
      OneMore(KeysWhere(events, test), todo, k);
      todo := todo - {k};
      if test(events[k]) { n := n + 1; }
    }
    assert KeysWhere(events, test) - todo == KeysWhere(events, test);
  }

  class EventJournal {
    var events: Events

    constructor ()
      ensures events == map[]
    {
      events := map[];
    }

    /** The observation times of the finishes. */
    method FinishTimes() returns (times: seq<int>)
      ensures (set t | t in times) == Finishes(events)
    {
      times := [];
      var todo := events.Keys;
      while todo != {}
        invariant todo <= events.Keys
        invariant forall t :: t in times ==> t in Finishes(events)
        invariant forall k :: k in events && k !in todo && IsSnapshotFinish(events[k]) ==> events[k].observedAt in times
        decreases |todo|
      {
        var k :| k in todo;
        if IsSnapshotFinish(events[k]) { times := times + [events[k].observedAt]; }
        todo := todo - {k};
      }
      forall t ensures t in times <==> t in Finishes(events) {}
    }

    method NewestOf(times: seq<int>) returns (r: Option<int>)
      ensures r == Newest(set t | t in times)
    {
      r := None;
      for i := 0 to |times|
        invariant r.None? <==> i == 0
        invariant r.Some? ==> r.value in times[..i] && forall j :: 0 <= j < i ==> times[j] <= r.value
      {
        if r.None? || r.value < times[i] { r := Some(times[i]); }
        assert r.value in times[..i + 1];
      }
      assert times[..|times|] == times;
      ghost var s := set t | t in times;
      if r.Some? {
        assert IsMax(s, r.value) && r.value in s;
        assert IsMax(s, Newest(s).value);
      } else {
        assert s == {};
      }
    }

    method Summarize(policy: Policy) returns (stats: Stats)
      ensures stats.total == |events| && stats.processed == |events| - stats.pending
      ensures stats.lastFinish == Newest(Finishes(events)) && stats.compactBefore == SecondNewest(Finishes(events))
      ensures stats.pending == |PendingKeys(events)| && stats.removable == |Expendable(policy, events)|
      ensures stats.pending == |set k | k in events && Awaits(events, events[k])|
    {
      assert PendingKeys(events) == set k | k in events && Awaits(events, events[k]) by {
        forall k | k in events ensures k in PendingKeys(events) <==> Awaits(events, events[k]) { PendingIff(events, events[k]); }
      }
      var times := FinishTimes();
      var last := NewestOf(times);
      var before := PreviousSnapshotFinish(times);
      var pending := Count(events, e => Pending(e, last));
      var removable := Count(events, e => Removable(policy, e, before, last));
      assert KeysWhere(events, e => Pending(e, last)) == PendingKeys(events);
      assert KeysWhere(events, e => Removable(policy, e, before, last)) == Expendable(policy, events);
      NoMoreThan(PendingKeys(events), events.Keys);
      stats := Stats(|events|, pending, |events| - pending, removable, last, before);
    }

    /** Compaction. Short journals are left alone unless forced; a dry run changes nothing and counts
        what a real run removes. */
    method Compact(policy: Policy, force: bool, dryRun: bool, minRecords: nat) returns (stats: Stats, removed: nat)
      modifies this
      ensures stats.removable == |Expendable(policy, old(events))| && stats.pending == |PendingKeys(old(events))|
      ensures removed == if !force && |old(events)| <= minRecords then 0 else |Expendable(policy, old(events))|
      ensures events == if dryRun || (!force && |old(events)| <= minRecords) then old(events) else Compacted(policy, old(events))
      ensures !dryRun && (force || |old(events)| > minRecords) ==>
                forall k :: k in events <==> k in old(events) && !Goes(policy, old(events), old(events)[k])
    {
      KeptIff(policy, events);
      stats := Summarize(policy);
      removed := 0;
      if !force && |events| <= minRecords { return; }
      if stats.lastFinish.None? {
        NothingGoes(policy, events);
        return;
      }
      events, removed := RemoveExpendable(events, policy, stats.compactBefore, stats.lastFinish, dryRun);
    }
  }

  lemma NothingGoes(policy: Policy, events: Events)
    requires Newest(Finishes(events)).None?
    ensures Expendable(policy, events) == {} && Compacted(policy, events) == events
  {
  }

  method RemoveExpendable(events: Events, policy: Policy, before: Option<int>, last: Option<int>, dryRun: bool)
    returns (kept: Events, removed: nat)
    requires before == SecondNewest(Finishes(events)) && last == Newest(Finishes(events))
    ensures removed == |Expendable(policy, events)| && kept == if dryRun then events else Compacted(policy, events)
  {
    assert KeysWhere(events, e => Removable(policy, e, before, last)) == Expendable(policy, events);
    kept, removed := RemoveWhere(events, e => Removable(policy, e, before, last), dryRun);
  }

  /** The removing loop, over the record files it found. */
  method RemoveWhere(events: Events, test: Event -> bool, dryRun: bool) returns (kept: Events, removed: nat)
    ensures removed == |KeysWhere(events, test)|
    ensures if dryRun then kept == events else Without(events, kept, KeysWhere(events, test))
  {
    kept, removed := events, 0;
    var todo := events.Keys;
    while todo != {}
      invariant todo <= events.Keys && removed == |KeysWhere(events, test) - todo|
      invariant if dryRun then kept == events else Without(events, kept, KeysWhere(events, test) - todo)
      decreases |todo|
    {
      var k :| k in todo;
      OneMore(KeysWhere(events, test), todo, k);
      if test(events[k]) {
        if !dryRun {
          WithoutMore(events, kept, KeysWhere(events, test) - todo, k);
          kept := kept - {k};
        }
        removed := removed + 1;
      }
      todo := todo - {k};
    }
    assert KeysWhere(events, test) - todo == KeysWhere(events, test);
  }

  ghost predicate Without(before: Events, now: Events, gone: set<Key>) {
    && (forall k :: k in now <==> k in before && k !in gone)
    && (forall k :: k in now ==> now[k] == before[k])
  }

  lemma WithoutMore(before: Events, now: Events, gone: set<Key>, k: Key)
    requires Without(before, now, gone)
    ensures Without(before, now - {k}, gone + {k})
  {
  }

  lemma NoMoreThan(a: set<Key>, b: set<Key>)
    requires a <= b
    ensures |a| <= |b|
  {
    assert b == a + (b - a);
  }
}
