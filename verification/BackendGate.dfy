/** The gate in front of the backend: bounded concurrency, foreground first, and no lost wakeup. Each
    method is one critical section, so a sequence of calls is an interleaving of threads. */
module BackendGate {

  datatype Priority = Foreground | Background

  datatype Status = Holding | Waiting(priority: Priority, asleep: bool)

  type ThreadId = nat

  ghost function Holders(threads: map<ThreadId, Status>): set<ThreadId> {
    set t | t in threads && threads[t].Holding?
  }

  ghost function ForegroundWaiting(threads: map<ThreadId, Status>): set<ThreadId> {
    set t | t in threads && threads[t].Waiting? && threads[t].priority.Foreground?
  }

  /** A sleeper will be woken: someone holds a permit and will release it, or a foreground caller is
      awake and about to look again. */
  ghost predicate NoLostWakeup(threads: map<ThreadId, Status>) {
    (exists t :: t in threads && threads[t].Waiting? && threads[t].asleep) ==>
      || Holders(threads) != {}
      || exists t :: t in threads && threads[t].Waiting? && threads[t].priority.Foreground? && !threads[t].asleep
  }

  /** Who gets in, in terms of the callers: fewer hold a permit than may, and nobody in the foreground waits
      where the caller is in the background. */
  ghost predicate Admissible(threads: map<ThreadId, Status>, maxConcurrency: nat, priority: Priority) {
    |Holders(threads)| < maxConcurrency && (priority.Background? ==> ForegroundWaiting(threads) == {})
  }

  class Gate {
    const maxConcurrency: nat
    var active: nat
    var foregroundWaiters: nat
    ghost var threads: map<ThreadId, Status>

    /** The counters are exact, the bound holds, no wakeup is lost, and no foreground caller sleeps beside a
        free permit. */
    ghost predicate Valid()
      reads this
    {
      && maxConcurrency > 0
      && active == |Holders(threads)| && active <= maxConcurrency
      && foregroundWaiters == |ForegroundWaiting(threads)|
      && NoLostWakeup(threads)
      && (active < maxConcurrency ==> forall t :: t in ForegroundWaiting(threads) ==> !threads[t].asleep)
    }

    constructor (max: nat)
      ensures Valid() && threads == map[] && maxConcurrency == if max == 0 then 1 else max
    {
      maxConcurrency := if max == 0 then 1 else max;
      active, foregroundWaiters, threads := 0, 0, map[];
      new;
      assert Holders(threads) == {} && ForegroundWaiting(threads) == {};
    }

    /** The wait condition, evaluated with the mutex held. */
    predicate MustWait(priority: Priority)
      reads this
    {
      active >= maxConcurrency || (priority.Background? && foregroundWaiters > 0)
    }

    /** A caller arrives: a foreground caller is counted, then the condition is evaluated. */
    method Enter(t: ThreadId, priority: Priority) returns (acquired: bool)
      requires Valid() && t !in threads
      modifies this
      ensures Valid() && (acquired <==> Admissible(old(threads), maxConcurrency, priority))
      ensures threads == old(threads)[t := if acquired then Holding else Waiting(priority, true)]
    {
      if priority.Foreground? { foregroundWaiters := foregroundWaiters + 1; }
      threads := threads[t := Waiting(priority, false)];
      assert Holders(threads) == Holders(old(threads));
      assert ForegroundWaiting(threads) == ForegroundWaiting(old(threads)) + (if priority.Foreground? then {t} else {});
      ArrivalIsSafe(old(threads), t, priority);
      acquired := LookAgain(t, priority);
      assert threads == old(threads)[t := threads[t]];
    }

    /** A caller that is awake looks at the condition: it takes a permit or goes (back) to sleep. A
        background caller gets in only when no foreground caller waits. */
    method LookAgain(t: ThreadId, priority: Priority) returns (acquired: bool)
      requires Valid() && t in threads && threads[t] == Waiting(priority, false)
      modifies this
      ensures Valid() && (acquired <==> Admissible(old(threads), maxConcurrency, priority))
      ensures threads == old(threads)[t := if acquired then Holding else Waiting(priority, true)]
    {
      ghost var before := threads;
      acquired := !MustWait(priority);
      assert ForegroundWaiting(before) == {} <==> foregroundWaiters == 0;
      if acquired {
        AcquireCounts(before, t, priority);
        if priority.Foreground? { foregroundWaiters := foregroundWaiters - 1; }
        active := active + 1;
        threads := threads[t := Holding];
      } else {
        threads := threads[t := Waiting(priority, true)];
        assert Holders(threads) == Holders(before);
        assert ForegroundWaiting(threads) == ForegroundWaiting(before);
        SleepIsSafe(before, t, priority);
      }
    }

    /** A condition variable may wake a sleeper for no reason. */
    ghost method SpuriousWakeup(t: ThreadId)
      requires Valid() && t in threads && threads[t].Waiting?
      modifies `threads
      ensures Valid() && threads == old(threads)[t := old(threads)[t].(asleep := false)]
    {
      ghost var before := threads;
      threads := threads[t := threads[t].(asleep := false)];
      assert Holders(threads) == Holders(before) && ForegroundWaiting(threads) == ForegroundWaiting(before);
      if exists u :: u in before && before[u].Waiting? && before[u].priority.Foreground? && !before[u].asleep {
        var u :| u in before && before[u].Waiting? && before[u].priority.Foreground? && !before[u].asleep;
        assert threads[u].Waiting? && threads[u].priority.Foreground? && !threads[u].asleep;
      }
    }

    /** A permit is dropped: everyone is woken. */
    method Release(t: ThreadId)
      requires Valid() && t in threads && threads[t].Holding?
      modifies this
      ensures Valid() && active == old(active) - 1 && foregroundWaiters == old(foregroundWaiters)
      ensures threads == (map u | u in old(threads) && u != t :: Awakened(old(threads)[u]))
    {
      ghost var before := threads;
      threads := map u | u in before && u != t :: Awakened(before[u]);
      assert Holders(threads) == Holders(before) - {t};
      assert ForegroundWaiting(threads) == ForegroundWaiting(before);
      assert t in Holders(before);
      active := active - 1;
    }
  }

  ghost function Awakened(s: Status): Status {
    if s.Waiting? then s.(asleep := false) else s
  }

  lemma AcquireCounts(threads: map<ThreadId, Status>, t: ThreadId, priority: Priority)
    requires t in threads && threads[t] == Waiting(priority, false)
    ensures var after := threads[t := Holding];
            && |Holders(after)| == |Holders(threads)| + 1
            && |ForegroundWaiting(threads)| == |ForegroundWaiting(after)| + (if priority.Foreground? then 1 else 0)
            && NoLostWakeup(after)
  {
    var after := threads[t := Holding];
    assert Holders(after) == Holders(threads) + {t} && t !in Holders(threads);
    assert ForegroundWaiting(after) == ForegroundWaiting(threads) - {t};
    assert priority.Foreground? <==> t in ForegroundWaiting(threads);
  }

  lemma ArrivalIsSafe(threads: map<ThreadId, Status>, t: ThreadId, priority: Priority)
    requires NoLostWakeup(threads) && t !in threads
    ensures NoLostWakeup(threads[t := Waiting(priority, false)])
  {
    var after := threads[t := Waiting(priority, false)];
    if x :| x in after && after[x].Waiting? && after[x].asleep {
      assert threads[x] == after[x];
      if Holders(threads) != {} {
        var h :| h in Holders(threads);
        assert h in Holders(after);
      } else {
        var v :| v in threads && threads[v].Waiting? && threads[v].priority.Foreground? && !threads[v].asleep;
        assert after[v] == threads[v];
      }
    }
  }

  lemma SleepIsSafe(threads: map<ThreadId, Status>, t: ThreadId, priority: Priority)
    requires NoLostWakeup(threads) && t in threads && threads[t] == Waiting(priority, false)
    requires Holders(threads) != {} || (priority.Background? && ForegroundWaiting(threads) != {})
    ensures NoLostWakeup(threads[t := Waiting(priority, true)])
  {
    var after := threads[t := Waiting(priority, true)];
    if Holders(threads) != {} {
      var h :| h in Holders(threads);
      assert h in Holders(after);
    } else {
      var u :| u in ForegroundWaiting(threads);
      if threads[u].asleep {
        var v :| v in threads && threads[v].Waiting? && threads[v].priority.Foreground? && !threads[v].asleep;
        assert after[v] == threads[v];
      } else {
        assert after[u] == threads[u];
      }
    }
  }

  ghost predicate AwakeWaiter(g: Gate, t: ThreadId)
    reads g
  {
    t in g.threads && g.threads[t].Waiting? && !g.threads[t].asleep
  }

  /** No deadlock: while a permit is free and somebody is awake, somebody who is awake will be admitted; and
      while no permit is out, somebody is awake. */
  lemma SomeoneProceeds(g: Gate)
    requires g.Valid() && g.active < g.maxConcurrency && (g.active == 0 ==> g.threads != map[])
    requires g.active > 0 ==> exists t :: AwakeWaiter(g, t)
    ensures exists t :: AwakeWaiter(g, t) && Admissible(g.threads, g.maxConcurrency, g.threads[t].priority)
  {
    if ForegroundWaiting(g.threads) != {} {
      var u :| u in ForegroundWaiting(g.threads);
      assert AwakeWaiter(g, u);
    } else {
      var t := SomeoneIsAwake(g);
      assert t !in ForegroundWaiting(g.threads);
    }
  }

  lemma ForegroundIsCounted(threads: map<ThreadId, Status>)
    ensures forall t :: t in threads && threads[t].Waiting? && threads[t].priority.Foreground? ==> t in ForegroundWaiting(threads)
  {
  }

  lemma SomeoneIsAwake(g: Gate) returns (t: ThreadId)
    requires g.Valid() && ForegroundWaiting(g.threads) == {} && (g.active == 0 ==> g.threads != map[])
    requires g.active > 0 ==> exists t :: AwakeWaiter(g, t)
    ensures AwakeWaiter(g, t)
  {
    if g.active > 0 {
      t :| AwakeWaiter(g, t);
    } else {
      assert Holders(g.threads) == {};
      t :| t in g.threads;
      assert t !in Holders(g.threads);
      ForegroundIsCounted(g.threads);
    }
  }

  /** A caller that could be admitted sleeps only in the background, and only while a permit is out whose
      release will wake it. */
  lemma SleeperWillBeWoken(g: Gate, t: ThreadId)
    requires g.Valid() && t in g.threads && g.threads[t].Waiting? && g.threads[t].asleep
    requires Admissible(g.threads, g.maxConcurrency, g.threads[t].priority)
    ensures g.threads[t].priority.Background? && g.active > 0
  {
    ForegroundIsCounted(g.threads);
  }

  /** And that does happen: taking a permit wakes nobody, so that a background caller which stood back for a
      foreground one goes on sleeping beside a free permit. */
  method BackgroundSleepsBesideFreePermit() returns (g: Gate)
    ensures fresh(g) && g.Valid() && g.maxConcurrency == 3 && |Holders(g.threads)| == 2
    ensures 5 in g.threads && g.threads[5] == Waiting(Background, true) && Admissible(g.threads, 3, Background)
  {
    g := TwoReleased();
    assert 4 in ForegroundWaiting(g.threads);
    var acquired := g.Enter(5, Background);
    assert Holders(g.threads) == {3};
    acquired := g.LookAgain(4, Foreground);
    assert g.threads == map[3 := Holding, 4 := Holding, 5 := Waiting(Background, true)];
    assert Holders(g.threads) == {3, 4} && ForegroundWaiting(g.threads) == {};
  }

  /** Two of them are done, and the fourth has been woken. */
  method TwoReleased() returns (g: Gate)
    ensures fresh(g) && g.Valid() && g.maxConcurrency == 3
    ensures g.threads == map[3 := Holding, 4 := Waiting(Foreground, false)]
  {
    g := FullGate();
    g.Release(1);
    assert g.threads == map[2 := Holding, 3 := Holding, 4 := Waiting(Foreground, false)];
    g.Release(2);
  }

  /** Three hold a permit and a fourth, in the foreground, sleeps. */
  method FullGate() returns (g: Gate)
    ensures fresh(g) && g.Valid() && g.maxConcurrency == 3
    ensures g.threads == map[1 := Holding, 2 := Holding, 3 := Holding, 4 := Waiting(Foreground, true)]
  {
    g := new Gate(3);
    assert Holders(g.threads) == {};
    var acquired := g.Enter(1, Foreground);
    assert Holders(g.threads) == {1};
    acquired := g.Enter(2, Foreground);
    assert Holders(g.threads) == {1, 2};
    acquired := g.Enter(3, Foreground);
    assert Holders(g.threads) == {1, 2, 3};
    acquired := g.Enter(4, Foreground);
  }
}
