/** Evicting the slave's local cache: only what the master reports as committed, and what it reports is
    in the backend. */
module Eviction {
  import opened Basics
  import opened MasterState
  import opened MasterInvariant
  import opened MasterRefinement
  import opened Publication

  datatype Candidate = Candidate(key: Key, bytes: nat, metadata: bool)

  function StripSuffix(s: string, suffix: string): string {
    if EndsWith(s, suffix) then s[..|s| - |suffix|] else s
  }

  /** Local object layout to canonical remote layout. */
  function CanonicalRemoteAlias(key: Key): Option<Key> {
    if StartsWith(key, "objects/trees/") then Some("trees/" + key[14..] + ".cbor.zst.enc")
    else if StartsWith(key, "objects/blobs/") then Some("blobs/loose/" + key[14..] + ".blob.enc")
    else if StartsWith(key, "objects/packs/small/") then Some("packs/small/" + key[20..])
    else if StartsWith(key, "objects/packs/normal/") then Some("packs/normal/" + key[21..])
    else if StartsWith(key, "objects/indexes/pack/") then
      Some("indexes/pack-index/" + StripSuffix(key[21..], ".json") + ".cbor.zst.enc")
    else if StartsWith(key, "objects/large/manifests/") then Some("large/manifests/" + key[24..] + ".cbor.zst.enc")
    else if StartsWith(key, "objects/large/chunks/fixed/") then Some("large/chunks/fixed-8m/" + key[27..] + ".chunk.enc")
    else if StartsWith(key, "objects/large/chunks/fastcdc/") then Some("large/chunks/fastcdc/" + key[29..] + ".chunk.enc")
    else None
  }

  function HostRemoteKey(host: Host, key: Key): Key {
    if StartsWith(key, host + "/") then key else host + "/" + key
  }

  /** The names under which the backend may hold a cached object. */
  function RemoteNames(host: Host, key: Key): seq<Key> {
    var alias := CanonicalRemoteAlias(key);
    [HostRemoteKey(host, key)] + (if alias.Some? then [HostRemoteKey(host, alias.value)] else [])
  }

  predicate Ready(host: Host, committed: set<Key>, c: Candidate) {
    exists k :: k in RemoteNames(host, c.key) && k in committed
  }

  /** The most keys one query may name. */
  const MAX_BATCH_OBJECTS: nat := 1024

  /** The master's answer: of the keys asked about, those it can vouch for. A query of too many keys is
      refused. */
  method AnswerBackendCommitted(s: State, keys: seq<Key>) returns (answer: Option<set<Key>>)
    ensures answer.None? <==> |keys| > MAX_BATCH_OBJECTS
    ensures answer.Some? ==> forall k :: k in answer.value <==> k in keys && ReportsCommitted(s, k)
  {
    if |keys| > MAX_BATCH_OBJECTS { return None; }
    var committed := {};
    for n := 0 to |keys|
      invariant forall k :: k in committed <==> k in keys[..n] && ReportsCommitted(s, k)
    {
      assert keys[..n + 1] == keys[..n] + [keys[n]];
      if ReportsCommitted(s, keys[n]) { committed := committed + {keys[n]}; }
    }
    assert keys[..|keys|] == keys;
    return Some(committed);
  }

  /** One of the first `n` keys, `k`, was reported by the master as it was when its batch arrived. */
  ghost predicate Vouched(states: seq<State>, keys: seq<Key>, n: nat, k: Key)
    requires |keys| <= MAX_BATCH_OBJECTS * |states| && n <= |keys|
  {
    exists i :: 0 <= i < n && keys[i] == k && ReportsCommitted(states[i / MAX_BATCH_OBJECTS], k)
  }

  lemma VouchedInBatch(states: seq<State>, keys: seq<Key>, b: nat, n: nat, k: Key)
    requires |keys| <= MAX_BATCH_OBJECTS * |states| && b < |states|
    requires MAX_BATCH_OBJECTS * b <= n <= |keys| && n <= MAX_BATCH_OBJECTS * (b + 1)
    ensures Vouched(states, keys, n, k) <==>
            Vouched(states, keys, MAX_BATCH_OBJECTS * b, k) || (k in keys[MAX_BATCH_OBJECTS * b..n] && ReportsCommitted(states[b], k))
  {
    var m := MAX_BATCH_OBJECTS * b;
    assert forall i :: m <= i < n ==> i / MAX_BATCH_OBJECTS == b;
    if k in keys[m..n] && ReportsCommitted(states[b], k) {
      var j :| 0 <= j < n - m && keys[m..n][j] == k;
      assert keys[m + j] == k;
    }
    if i :| m <= i < n && keys[i] == k { assert keys[m..n][i - m] == k; }
  }

  /** The slave asks in batches, each answered by the master as it is by then; none is refused. */
  method BackendCommittedKeys(states: seq<State>, keys: seq<Key>) returns (committed: set<Key>)
    requires |keys| <= MAX_BATCH_OBJECTS * |states|
    ensures forall k :: k in committed <==> Vouched(states, keys, |keys|, k)
  {
    committed := {};
    var n, b := 0, 0;
    while n < |keys|
      invariant 0 <= n <= |keys| && b <= |states| && (n == |keys| || n == MAX_BATCH_OBJECTS * b)
      invariant forall k :: k in committed <==> Vouched(states, keys, n, k)
      decreases |keys| - n
    {
      var m := if n + MAX_BATCH_OBJECTS < |keys| then n + MAX_BATCH_OBJECTS else |keys|;
      var answer := AnswerBackendCommitted(states[b], keys[n..m]);
      forall k ensures Vouched(states, keys, m, k) <==> k in committed + answer.value {
        VouchedInBatch(states, keys, b, m, k);
      }
      committed := committed + answer.value;
      n, b := m, b + 1;
    }
  }

  function Kept(host: Host, committed: set<Key>, candidates: seq<Candidate>): seq<Candidate> {
    if candidates == [] then []
    else
      var n := |candidates| - 1;
      Kept(host, committed, candidates[..n]) + (if Ready(host, committed, candidates[n]) then [candidates[n]] else [])
  }

  lemma {:induction false} KeptAreReady(host: Host, committed: set<Key>, candidates: seq<Candidate>)
    ensures forall c :: c in Kept(host, committed, candidates) <==> c in candidates && Ready(host, committed, c)
  {
    if candidates != [] {
      var n := |candidates| - 1;
      assert candidates == candidates[..n] + [candidates[n]];
      KeptAreReady(host, committed, candidates[..n]);
    }
  }

  /** The filter keeps exactly the candidates one of whose names is committed, in order, and counts the
      rest as missing. */
  method FilterBackendCommitted(host: Host, candidates: seq<Candidate>, committed: set<Key>)
    returns (plan: seq<Candidate>, remoteMissing: nat)
    ensures plan == Kept(host, committed, candidates) && remoteMissing == |candidates| - |plan|
    ensures forall c :: c in plan <==> c in candidates && Ready(host, committed, c)
  {
    plan, remoteMissing := [], 0;
    for n := 0 to |candidates|
      invariant plan == Kept(host, committed, candidates[..n]) && remoteMissing == n - |plan|
    {
      assert candidates[..n + 1][..n] == candidates[..n];
      if Ready(host, committed, candidates[n]) {
        plan := plan + [candidates[n]];
      } else {
        remoteMissing := remoteMissing + 1;
      }
    }
    assert candidates[..|candidates|] == candidates;
    KeptAreReady(host, committed, candidates);
  }

  /** Removing the planned files removes nothing else; a file already gone is no error. */
  method RemovePayloadCacheCandidates(files: map<Key, nat>, plan: seq<Candidate>) returns (rest: map<Key, nat>, removed: nat)
    ensures forall k :: k in rest <==> k in files && forall c :: c in plan ==> c.key != k
    ensures forall k :: k in rest ==> rest[k] == files[k]
    ensures removed == |files| - |rest|
  {
    rest, removed := files, 0;
    for n := 0 to |plan|
      invariant forall k :: k in rest <==> k in files && forall c :: c in plan[..n] ==> c.key != k
      invariant forall k :: k in rest ==> rest[k] == files[k]
      invariant removed == |files| - |rest|
    {
      assert plan[..n + 1] == plan[..n] + [plan[n]];
      if plan[n].key in rest {
        assert (rest - {plan[n].key}).Keys == rest.Keys - {plan[n].key};
        rest := rest - {plan[n].key};
        removed := removed + 1;
      }
    }
    assert plan[..|plan|] == plan;
  }

  /** Eviction is safe: a file removed through the filter is in the backend under its host key or its
      canonical alias, with the bytes the master held when it answered, and stays there until a request
      names that key. */
  lemma EvictedIsInBackend(s: State, run: seq<Action>, host: Host, committed: set<Key>, c: Candidate) returns (k: Key)
    requires Inv(s) && Legal(s, run) && Ready(host, committed, c)
    requires forall k :: k in committed ==> ReportsCommitted(s, k)
    requires forall k :: k in RemoteNames(host, c.key) ==> Unrequested(run, k)
    ensures k in RemoteNames(host, c.key) && k in s.disk.store
    ensures Lookup(After(s, run).backend, k) == Some(s.disk.store[k])
  {
    k :| k in RemoteNames(host, c.key) && k in committed;
    CommitReportIsSound(s, run, k);
  }

  /** All names of all candidates. */
  method NamesToAsk(host: Host, candidates: seq<Candidate>) returns (keys: seq<Key>)
    ensures |keys| <= 2 * |candidates|
    ensures forall c, k :: c in candidates && k in RemoteNames(host, c.key) ==> k in keys
  {
    keys := [];
    for n := 0 to |candidates|
      invariant |keys| <= 2 * n
      invariant forall i, k :: 0 <= i < n && k in RemoteNames(host, candidates[i].key) ==> k in keys
    {
      keys := keys + RemoteNames(host, candidates[n].key);
    }
  }

  /** The states the master is in when it answers, each reached from `s` by its own run. */
  ghost predicate Answering(s: State, runs: seq<seq<Action>>, states: seq<State>) {
    && |runs| == |states|
    && forall n :: 0 <= n < |states| ==> Legal(s, runs[n]) && After(s, runs[n]) == states[n] && states[n].lock.Free?
  }

  /** Nobody asks about `k` before the master has answered. */
  ghost predicate LeftAlone(runs: seq<seq<Action>>, k: Key) {
    forall n :: 0 <= n < |runs| ==> Unrequested(runs[n], k)
  }

  lemma ConfirmedIsVouched(s: State, runs: seq<seq<Action>>, states: seq<State>, keys: seq<Key>, k: Key)
    requires Inv(s) && Answering(s, runs, states) && |keys| <= MAX_BATCH_OBJECTS * |states|
    requires k in keys && k in s.disk.store && Confirmed(s, k, s.disk.store[k]) && LeftAlone(runs, k)
    ensures Vouched(states, keys, |keys|, k)
  {
    var i :| 0 <= i < |keys| && keys[i] == k;
    var n := i / MAX_BATCH_OBJECTS;
    ConfirmedStaysReported(s, runs[n], k, s.disk.store[k]);
  }

  lemma VouchedIsInBackend(s: State, runs: seq<seq<Action>>, states: seq<State>, keys: seq<Key>, k: Key) returns (n: nat)
    requires Inv(s) && Answering(s, runs, states) && |keys| <= MAX_BATCH_OBJECTS * |states| && Vouched(states, keys, |keys|, k)
    ensures n < |states| && k in states[n].disk.store && Lookup(states[n].backend, k) == Some(states[n].disk.store[k])
  {
    var i :| 0 <= i < |keys| && keys[i] == k && ReportsCommitted(states[i / MAX_BATCH_OBJECTS], k);
    n := i / MAX_BATCH_OBJECTS;
    RunKeeps(s, runs[n]);
    assert Legal(states[n], []) && Unrequested([], k);
    CommitReportIsSound(states[n], [], k);
  }

  /** When the master answers, the object is in the backend under one of its names. */
  ghost predicate BackedUp(states: seq<State>, host: Host, c: Candidate) {
    exists k, n :: && k in RemoteNames(host, c.key) && 0 <= n < |states|
                   && k in states[n].disk.store && Lookup(states[n].backend, k) == Some(states[n].disk.store[k])
  }

  /** The upload of the object under one of its names was complete before the slave asked. */
  ghost predicate Uploaded(s: State, runs: seq<seq<Action>>, host: Host, c: Candidate) {
    exists k :: && k in RemoteNames(host, c.key) && LeftAlone(runs, k)
                && k in s.disk.store && Confirmed(s, k, s.disk.store[k])
  }

  /** Which files a slave may evict, asking a master that goes on working meanwhile: only what is in the
      backend when the master answers, and everything that was uploaded before the slave asked. */
  method PlanEviction(ghost s: State, ghost runs: seq<seq<Action>>, states: seq<State>, host: Host, candidates: seq<Candidate>)
    returns (plan: seq<Candidate>, remoteMissing: nat)
    requires Inv(s) && Answering(s, runs, states) && 2 * |candidates| <= MAX_BATCH_OBJECTS * |states|
    ensures remoteMissing == |candidates| - |plan|
    ensures forall c :: c in plan ==> c in candidates && BackedUp(states, host, c)
    ensures forall c :: c in candidates && Uploaded(s, runs, host, c) ==> c in plan
  {
    var keys := NamesToAsk(host, candidates);
    var committed := BackendCommittedKeys(states, keys);
    plan, remoteMissing := FilterBackendCommitted(host, candidates, committed);
    forall c | c in plan ensures BackedUp(states, host, c) {
      var k :| k in RemoteNames(host, c.key) && k in committed;
      var n := VouchedIsInBackend(s, runs, states, keys, k);
    }
    forall c | c in candidates && Uploaded(s, runs, host, c) ensures c in plan {
      var k :| k in RemoteNames(host, c.key) && LeftAlone(runs, k) && k in s.disk.store && Confirmed(s, k, s.disk.store[k]);
      ConfirmedIsVouched(s, runs, states, keys, k);
    }
  }
}
