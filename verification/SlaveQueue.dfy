/** The slave's side of an upload: batches in publication order, and entries removed only for a batch
    the master has acknowledged. */
module SlaveQueue {
  import opened Basics
  import opened BackendQueue
  import KeyLayers
  import opened KeyOrder
  import opened UploadBatches

  /** The slave's own copy of the layering rule. */
  function UploadPublishPriority(key: Key): nat {
    if StartsWith(key, "refs/") || Contains(key, "/refs/") then 3
    else if EndsWith(key, "/current") || Contains(key, "/refs/current") || EndsWith(key, "/head.cbor.zst.enc") then 3
    else if Contains(key, "/journal/") || StartsWith(key, "journal/") || StartsWith(key, "metadata/")
            || EndsWith(key, "/metadata/export.json.zst") || EndsWith(key, "/metadata/export.json")
            || key == "metadata/export.json"
    then 2
    else 1
  }

  lemma OccursWithin(s: string, whole: string, part: string, i: nat)
    requires OccursAt(s, whole, i) && part <= whole
    ensures OccursAt(s, part, i)
  {
    assert s[i..i + |part|] == s[i..i + |whole|][..|part|];
  }

  /** Slave and master layer every key alike. */
  lemma LayersAgree(key: Key)
    ensures UploadPublishPriority(key) == PublishPriority(key)
  {
    if Contains(key, "/refs/current") {
      var i :| 0 <= i <= |key| && OccursAt(key, "/refs/current", i);
      OccursWithin(key, "/refs/current", "/refs/", i);
    }
  }

  function Layer(entry: Entry): nat {
    UploadPublishPriority(entry.key)
  }

  /** The order of sending: layer, then key. */
  predicate Before(a: Entry, b: Entry) {
    Layer(a) < Layer(b) || (Layer(a) == Layer(b) && Below(a.key, b.key))
  }

  ghost predicate InOrder(items: seq<Entry>) {
    forall i, j :: 0 <= i < j < |items| ==> Before(items[i], items[j])
  }

  ghost predicate Distinct(items: seq<Entry>) {
    forall i, j :: 0 <= i < j < |items| ==> items[i].key != items[j].key
  }

  ghost function Names(items: seq<Entry>): set<Key> {
    set i | 0 <= i < |items| :: items[i].key
  }

  lemma NamesOfSum(a: seq<Entry>, b: seq<Entry>)
    ensures Names(a + b) == Names(a) + Names(b)
  {
    var c := a + b;
    forall k ensures k in Names(c) <==> k in Names(a) || k in Names(b) {
      if k in Names(a) { var i :| 0 <= i < |a| && a[i].key == k; assert c[i].key == k; }
      if k in Names(b) { var i :| 0 <= i < |b| && b[i].key == k; assert c[|a| + i].key == k; }
    }
  }

  /** Every entry of the queue, once. */
  ghost predicate Lists(items: seq<Entry>, entries: map<Key, Entry>) {
    && Distinct(items) && Names(items) == entries.Keys
    && forall i :: 0 <= i < |items| ==> items[i].key in entries && entries[items[i].key] == items[i]
  }

  // ----- the order of sending -----

  function InsertEntry(items: seq<Entry>, item: Entry): seq<Entry> {
    if items == [] || Before(item, items[0]) then [item] + items else [items[0]] + InsertEntry(items[1..], item)
  }

  lemma BeforeIsTransitive(a: Entry, b: Entry, c: Entry)
    requires Before(a, b) && Before(b, c)
    ensures Before(a, c)
  {
    if Below(a.key, b.key) && Below(b.key, c.key) { BelowIsTransitive(a.key, b.key, c.key); }
  }

  lemma {:induction false} InsertEntrySorts(items: seq<Entry>, item: Entry)
    requires InOrder(items) && item.key !in Names(items)
    ensures InOrder(InsertEntry(items, item)) && forall x :: x in InsertEntry(items, item) <==> x == item || x in items
  {
    if items != [] {
      assert items == [items[0]] + items[1..];
      assert items[0].key in Names(items);
      if Before(item, items[0]) {
        forall j | 0 <= j < |items| ensures Before(item, items[j]) {
          if j > 0 { BeforeIsTransitive(item, items[0], items[j]); }
        }
      } else {
        BelowIsTotal(item.key, items[0].key);
        NamesOfSum([items[0]], items[1..]);
        InsertEntrySorts(items[1..], item);
        var rest := InsertEntry(items[1..], item);
        forall j | 0 <= j < |rest| ensures Before(items[0], rest[j]) {
          assert rest[j] in rest;
          if rest[j] != item {
            var i :| 0 <= i < |items[1..]| && items[1..][i] == rest[j];
            assert items[i + 1] == rest[j];
          }
        }
      }
    }
  }

  lemma OrderedIsDistinct(items: seq<Entry>)
    requires InOrder(items)
    ensures Distinct(items)
  {
    forall i, j | 0 <= i < j < |items| ensures items[i].key != items[j].key {
      if items[i].key == items[j].key { BelowIsAsymmetric(items[i].key, items[j].key); }
    }
  }

  /** The entries of `keys`, in order. */
  ghost predicate ListsPart(items: seq<Entry>, entries: map<Key, Entry>, keys: set<Key>) {
    && InOrder(items)
    && forall x :: x in items <==> x.key in keys && x.key in entries && entries[x.key] == x
  }

  lemma ListsMore(items: seq<Entry>, entries: map<Key, Entry>, keys: set<Key>, k: Key)
    requires ListsPart(items, entries, keys) && k in entries && k !in keys && entries[k].key == k
    ensures ListsPart(InsertEntry(items, entries[k]), entries, keys + {k})
  {
    NamesAre(items);
    InsertEntrySorts(items, entries[k]);
  }

  lemma ListsAll(items: seq<Entry>, entries: map<Key, Entry>)
    requires ListsPart(items, entries, entries.Keys) && forall k :: k in entries ==> entries[k].key == k
    ensures Lists(items, entries)
  {
    NamesAre(items);
    OrderedIsDistinct(items);
    assert forall i :: 0 <= i < |items| ==> items[i] in items;
    forall k ensures k in Names(items) <==> k in entries {
      if k in entries { assert entries[k] in items; }
    }
  }

  // ----- reading the sources -----

  /** What a drain reads for its items: the content of the files they name. */
  function Load(items: seq<Entry>, content: map<Source, Bytes>): (uploads: seq<Upload>)
    ensures |uploads| == |items|
  {
    seq(|items|, i requires 0 <= i < |items| =>
      Upload(items[i], if items[i].source in content then content[items[i].source] else []))
  }

  ghost predicate Readable(items: seq<Entry>, content: map<Source, Bytes>) {
    forall i :: 0 <= i < |items| ==> items[i].source in content
  }

  /** How many items can be read before one cannot. */
  function ReadableCount(items: seq<Entry>, content: map<Source, Bytes>): (n: nat)
    ensures n <= |items| && (n < |items| ==> items[n].source !in content)
    ensures forall i :: 0 <= i < n ==> items[i].source in content
  {
    if items == [] || items[0].source !in content then 0 else 1 + ReadableCount(items[1..], content)
  }

  /** The batches a drain would send if none were refused: all of them, or those that are full when it meets
      an item that cannot be read. */
  function Plan(items: seq<Entry>, content: map<Source, Bytes>, maxObjects: nat, maxBytes: nat): seq<Batch> {
    var all, n := Load(items, content), ReadableCount(items, content);
    if n == |items| then Batches(all, maxObjects, maxBytes) else Greedy(all[..n], maxObjects, maxBytes).closed
  }

  function Until(plan: seq<Batch>, failing: nat): seq<Batch> {
    if failing < |plan| then plan[..failing + 1] else plan
  }

  function Expected(items: seq<Entry>, content: map<Source, Bytes>, plan: seq<Batch>, failing: nat): Outcome {
    if failing < |plan| then Refused else if ReadableCount(items, content) == |items| then Drained else SourceMissing
  }

  /** A drain sends what is planned, up to the batch that is refused. */
  predicate Planned(items: seq<Entry>, content: map<Source, Bytes>, batches: seq<Batch>, outcome: Outcome, failing: nat,
                    maxObjects: nat, maxBytes: nat)
  {
    var plan := Plan(items, content, maxObjects, maxBytes);
    batches == Until(plan, failing) && outcome == Expected(items, content, plan, failing)
  }

  lemma MissingIsPlanned(items: seq<Entry>, content: map<Source, Bytes>, n: nat, split: Filling, failing: nat, maxObjects: nat, maxBytes: nat)
    requires n < |items| && Readable(items[..n], content) && items[n].source !in content && |split.closed| <= failing
    requires Greedy(Load(items, content)[..n], maxObjects, maxBytes) == split
    ensures Planned(items, content, split.closed, SourceMissing, failing, maxObjects, maxBytes)
  {
    assert forall i :: 0 <= i < n ==> items[..n][i] == items[i];
    assert ReadableCount(items, content) == n;
  }

  /** Batches that were full after `n + 1` readable items are in the plan. */
  lemma FullIsPlanned(items: seq<Entry>, content: map<Source, Bytes>, n: nat, maxObjects: nat, maxBytes: nat)
    requires n <= |items| && Readable(items[..n], content)
    ensures Greedy(Load(items, content)[..n], maxObjects, maxBytes).closed <= Plan(items, content, maxObjects, maxBytes)
  {
    var all, m := Load(items, content), ReadableCount(items, content);
    assert forall i :: 0 <= i < n ==> items[..n][i] == items[i];
    assert n <= m;
    assert all[..m][..n] == all[..n];
    ClosedStays(all[..m], n, maxObjects, maxBytes);
    if m == |items| { assert all[..m] == all; }
  }

  lemma RefusedIsPlanned(items: seq<Entry>, content: map<Source, Bytes>, n: nat, split: Filling, failing: nat, maxObjects: nat, maxBytes: nat)
    requires n < |items| && Readable(items[..n + 1], content) && |split.closed| == failing
    requires Greedy(Load(items, content)[..n], maxObjects, maxBytes) == split
    requires Overflows(split.open, Load(items, content)[n], maxObjects, maxBytes)
    ensures Planned(items, content, split.closed + [split.open], Refused, failing, maxObjects, maxBytes)
  {
    GreedyMore(Load(items, content), n, maxObjects, maxBytes);
    FullIsPlanned(items, content, n + 1, maxObjects, maxBytes);
    UntilIsPrefix(Plan(items, content, maxObjects, maxBytes), split.closed + [split.open], failing);
  }

  lemma UntilIsPrefix(plan: seq<Batch>, sent: seq<Batch>, failing: nat)
    requires sent <= plan && |sent| == failing + 1
    ensures failing < |plan| && Until(plan, failing) == sent
  {
  }

  lemma LastIsPlanned(items: seq<Entry>, content: map<Source, Bytes>, split: Filling, failing: nat, maxObjects: nat, maxBytes: nat)
    requires Readable(items, content) && |split.closed| <= failing && Greedy(Load(items, content), maxObjects, maxBytes) == split
    ensures Planned(items, content, AllOf(split), if split.open != [] && |split.closed| == failing then Refused else Drained, failing,
                    maxObjects, maxBytes)
  {
    assert ReadableCount(items, content) == |items|;
  }

  lemma DrainedIff(items: seq<Entry>, content: map<Source, Bytes>, batches: seq<Batch>, outcome: Outcome, failing: nat,
                   maxObjects: nat, maxBytes: nat)
    requires Planned(items, content, batches, outcome, failing, maxObjects, maxBytes)
    ensures outcome.Drained? <==> Readable(items, content) && |Batches(Load(items, content), maxObjects, maxBytes)| <= failing
    ensures failing >= |items| ==> (outcome.Drained? <==> Readable(items, content))
  {
    var all := Load(items, content);
    BatchesCover(all, maxObjects, maxBytes);
    NoMoreThanItems(Batches(all, maxObjects, maxBytes), maxObjects, maxBytes);
    if Readable(items, content) { assert ReadableCount(items, content) == |items|; }
    PlanIsShort(items, content, maxObjects, maxBytes);
  }

  lemma PlanIsShort(items: seq<Entry>, content: map<Source, Bytes>, maxObjects: nat, maxBytes: nat)
    ensures |Plan(items, content, maxObjects, maxBytes)| <= |items|
  {
    var all, n := Load(items, content), ReadableCount(items, content);
    BatchesCover(all, maxObjects, maxBytes);
    NoMoreThanItems(Batches(all, maxObjects, maxBytes), maxObjects, maxBytes);
    GreedyCovers(all[..n], maxObjects, maxBytes);
    NoMoreThanItems(Greedy(all[..n], maxObjects, maxBytes).closed, maxObjects, maxBytes);
  }

  /** A spooled payload belongs to one key. */
  ghost predicate Spooled(items: seq<Entry>) {
    forall i :: 0 <= i < |items| && items[i].source.Spool? ==> items[i].source.key == items[i].key
  }

  /** `files` is `content` without the payloads spooled for `gone`. */
  ghost predicate Pruned(content: map<Source, Bytes>, gone: set<Key>, files: map<Source, Bytes>) {
    && (forall p :: p in files <==> p in content && !(p.Spool? && p.key in gone))
    && (forall p :: p in files ==> files[p] == content[p])
  }

  /** What the master's answer to a batch makes of it. */
  datatype Reply = Durable | Failed | Malformed

  /** How a drain ends. */
  datatype Outcome = Drained | Refused | SourceMissing

  function Retried(item: Entry): Entry {
    item.(attempts := item.attempts + 1)
  }

  /** An attempt is counted on the first `n` of the batch. */
  ghost predicate Counted(before: map<Key, Entry>, now: map<Key, Entry>, batch: seq<Entry>, n: nat)
    requires n <= |batch|
  {
    && now.Keys == before.Keys && Names(batch) <= before.Keys
    && (forall k :: k in now && k !in Names(batch[..n]) ==> now[k] == before[k])
    && (forall i :: 0 <= i < n ==> batch[i].key in now && now[batch[i].key] == Retried(batch[i]))
  }

  lemma CountedMore(before: map<Key, Entry>, now: map<Key, Entry>, batch: seq<Entry>, n: nat)
    requires n < |batch| && Distinct(batch) && Counted(before, now, batch, n)
    ensures Counted(before, now[batch[n].key := Retried(batch[n])], batch, n + 1)
  {
    assert batch[n].key in Names(batch);
    OneMoreName(batch, n);
  }

  class UploadQueue {
    var entries: map<Key, Entry>
    var files: map<Source, Bytes>

    ghost predicate Valid()
      reads this
    {
      forall k :: k in entries ==> entries[k].key == k && (entries[k].source.Spool? ==> entries[k].source.key == k)
    }

    /** One batch: durable storage of every object removes its payloads and entries, a failure counts an
        attempt on each, and a reply of the wrong length changes nothing. */
    method SendClusterUploadBatch(batch: seq<Entry>, reply: Reply)
      requires Distinct(batch) && Names(batch) <= entries.Keys
      modifies this
      ensures reply.Durable? ==> entries == old(entries) - Names(batch) && Pruned(old(files), Names(batch), files)
      ensures !reply.Durable? ==> entries.Keys == old(entries).Keys && files == old(files)
      ensures !reply.Durable? ==> forall k :: k in entries && k !in Names(batch) ==> entries[k] == old(entries)[k]
      ensures reply.Failed? ==> forall i :: 0 <= i < |batch| ==> entries[batch[i].key] == Retried(batch[i])
      ensures reply.Malformed? ==> entries == old(entries)
    {
      if reply.Malformed? { return; }
      if reply.Failed? { CountAttempts(batch); } else { RemoveSent(batch); }
    }

    method CountAttempts(batch: seq<Entry>)
      requires Distinct(batch) && Names(batch) <= entries.Keys
      modifies this`entries
      ensures entries.Keys == old(entries).Keys
      ensures forall k :: k in entries && k !in Names(batch) ==> entries[k] == old(entries)[k]
      ensures forall i :: 0 <= i < |batch| ==> entries[batch[i].key] == Retried(batch[i])
    {
      ghost var before := entries;
      for n := 0 to |batch|
        invariant Counted(before, entries, batch, n)
      {
        CountedMore(before, entries, batch, n);
        entries := entries[batch[n].key := Retried(batch[n])];
      }
      assert batch[..|batch|] == batch;
    }

    method RemoveSent(batch: seq<Entry>)
      modifies this
      ensures entries == old(entries) - Names(batch) && Pruned(old(files), Names(batch), files)
    {
      for n := 0 to |batch|
        invariant entries == old(entries) - Names(batch[..n]) && Pruned(old(files), Names(batch[..n]), files)
      {
        OneMoreName(batch, n);
        files := files - {Spool(batch[n].key)};
        entries := entries - {batch[n].key};
      }
      assert batch[..|batch|] == batch;
    }

    /** The queue directory in the order of sending. */
    method UploadQueueItems() returns (items: seq<Entry>)
      requires Valid()
      ensures Lists(items, entries) && InOrder(items)
    {
      items := [];
      var todo := entries.Keys;
      while todo != {}
        invariant todo <= entries.Keys && ListsPart(items, entries, entries.Keys - todo)
        decreases |todo|
      {
        var k :| k in todo;
        ListsMore(items, entries, entries.Keys - todo, k);
        items := InsertEntry(items, entries[k]);
        todo := todo - {k};
        assert entries.Keys - todo == entries.Keys - (todo + {k}) + {k};
      }
      assert entries.Keys - todo == entries.Keys;
      ListsAll(items, entries);
    }

    /** Items `from` on are queued as they were, except that those up to `tried` may count an attempt, and
        only the payloads of the items before are gone. */
    ghost predicate Holds(items: seq<Entry>, content: map<Source, Bytes>, from: nat, tried: nat, reply: Reply)
      reads this
      requires from <= |items|
    {
      && entries.Keys == Names(items[from..]) && Pruned(content, Names(items[..from]), files)
      && forall i :: from <= i < |items| ==>
           && items[i].key in entries
           && entries[items[i].key] == if i < tried && reply.Failed? then Retried(items[i]) else items[i]
    }

    /** Send items `a` to `b` of the order. */
    method SendSlice(items: seq<Entry>, ghost content: map<Source, Bytes>, a: nat, b: nat, reply: Reply)
      requires a <= b <= |items| && Distinct(items) && Holds(items, content, a, a, Durable)
      modifies this
      ensures if reply.Durable? then Holds(items, content, b, b, Durable) else Holds(items, content, a, b, reply)
    {
      SliceIsDistinct(items, a, b);
      Without(items, a, b);
      assert forall i :: a <= i < b ==> items[a..b][i - a] == items[i];
      forall i | b <= i < |items| ensures items[i].key !in Names(items[a..b]) && items[i].key in Names(items[b..]) {
        assert items[b..][i - b] == items[i];
      }
      assert Names(items[..b]) == Names(items[..a]) + Names(items[a..b]) by {
        assert items[..b] == items[..a] + items[a..b];
        NamesOfSum(items[..a], items[a..b]);
      }
      SendClusterUploadBatch(items[a..b], reply);
    }

    /** Items up to `done` are gone in batches that fit; the rest is queued as it was. */
    ghost predicate Sending(items: seq<Entry>, content: map<Source, Bytes>, done: nat, batches: seq<seq<Upload>>,
                            maxObjects: nat, maxBytes: nat)
      reads this
    {
      && done <= |items| && Distinct(items) && Spooled(items) && Holds(items, content, done, done, Durable)
      && Flatten(batches) == Load(items, content)[..done] && AllFit(batches, maxObjects, maxBytes)
    }

    /** Send the batch that ends before item `n`; `ok` when the drain goes on. */
    method Flush(items: seq<Entry>, ghost content: map<Source, Bytes>, done: nat, n: nat, batch: seq<Upload>,
                 batches: seq<seq<Upload>>, ghost maxObjects: nat, ghost maxBytes: nat, failing: nat, reply: Reply)
      returns (ok: bool, sent: seq<seq<Upload>>)
      requires Sending(items, content, done, batches, maxObjects, maxBytes) && done <= n <= |items|
      requires batch == Load(items, content)[done..n] && Fits(batch, maxObjects, maxBytes) && !reply.Durable?
      modifies this
      ensures sent == batches + [batch] && ok == (|batches| != failing)
      ensures Flatten(sent) == Load(items, content)[..n] && AllFit(sent, maxObjects, maxBytes)
      ensures if ok then Sending(items, content, n, sent, maxObjects, maxBytes) else Holds(items, content, done, n, reply)
    {
      FlattenPushed(Load(items, content), batches, done, n);
      ok, sent := |batches| != failing, batches + [batch];
      SendSlice(items, content, done, n, if ok then Durable else reply);
    }

    /** Where a drain ends: everything sent, or stopped at the batch numbered `failing`, or at an item whose
        source cannot be read, with the batch that was being filled not sent. What was sent is what the
        files held when the drain began. */
    ghost predicate Ended(items: seq<Entry>, content: map<Source, Bytes>, done: nat, batches: seq<seq<Upload>>,
                          outcome: Outcome, failing: nat, reply: Reply, maxObjects: nat, maxBytes: nat)
      reads this
    {
      && AllFit(batches, maxObjects, maxBytes) && Flatten(batches) <= Load(items, content) && done <= |items|
      && Holds(items, content, done, |Flatten(batches)|, reply) && Readable(items[..|Flatten(batches)|], content)
      && match outcome
         case Drained => |batches| <= failing && done == |Flatten(batches)| == |items|
         case Refused => |batches| == failing + 1 && done == |Flatten(batches[..failing])| < |Flatten(batches)|
         case SourceMissing => |batches| <= failing && done == |Flatten(batches)| && !Readable(items, content)
    }

    lemma StoppedHere(items: seq<Entry>, content: map<Source, Bytes>, done: nat, n: nat, batches: seq<seq<Upload>>,
                      sent: seq<seq<Upload>>, failing: nat, reply: Reply, maxObjects: nat, maxBytes: nat)
      requires done < n <= |items| && Flatten(batches) == Load(items, content)[..done] && |batches| == failing
      requires sent == batches + [Load(items, content)[done..n]] && Flatten(sent) == Load(items, content)[..n]
      requires AllFit(sent, maxObjects, maxBytes) && Holds(items, content, done, n, reply) && Readable(items[..n], content)
      ensures Ended(items, content, done, sent, Refused, failing, reply, maxObjects, maxBytes)
    {
      assert sent[..failing] == batches;
    }

    lemma AllSent(items: seq<Entry>, content: map<Source, Bytes>, batches: seq<seq<Upload>>, failing: nat, reply: Reply,
                  maxObjects: nat, maxBytes: nat)
      requires Sending(items, content, |items|, batches, maxObjects, maxBytes) && |batches| <= failing
      requires Readable(items, content)
      ensures Ended(items, content, |items|, batches, Drained, failing, reply, maxObjects, maxBytes)
    {
      assert items[..|items|] == items && Load(items, content)[..|items|] == Load(items, content);
    }

    lemma MissingHere(items: seq<Entry>, content: map<Source, Bytes>, done: nat, n: nat, batches: seq<seq<Upload>>, failing: nat,
                      reply: Reply, maxObjects: nat, maxBytes: nat)
      requires Sending(items, content, done, batches, maxObjects, maxBytes) && |batches| <= failing && done <= n < |items|
      requires Readable(items[..n], content) && items[n].source !in files
      ensures Ended(items, content, done, batches, SourceMissing, failing, reply, maxObjects, maxBytes)
    {
      StillThere(items, content, done, n);
      assert items[..done] == items[..n][..done];
    }

    lemma EmptyIffDrained(items: seq<Entry>, content: map<Source, Bytes>, done: nat, batches: seq<seq<Upload>>, outcome: Outcome,
                          failing: nat, reply: Reply, maxObjects: nat, maxBytes: nat)
      requires Ended(items, content, done, batches, outcome, failing, reply, maxObjects, maxBytes)
      ensures entries == map[] <==> outcome.Drained?
    {
      assert items[..|items|] == items;
      if outcome.Drained? {
        assert items[done..] == [] && Names([]) == {} && entries.Keys == {};
      } else {
        assert done < |items| && items[done].key in entries;
      }
    }

    /** Sending takes away no file an item to come is read from. */
    lemma StillThere(items: seq<Entry>, content: map<Source, Bytes>, done: nat, n: nat)
      requires done <= n < |items| && Distinct(items) && Spooled(items) && Pruned(content, Names(items[..done]), files)
      ensures items[n].source in files <==> items[n].source in content
    {
      if items[n].key in Names(items[..done]) {
        var i :| 0 <= i < done && items[..done][i].key == items[n].key;
        assert items[i].key == items[n].key;
      }
    }

    /** However a drain ends, no entry of a layer has left the queue before one of a lower layer. */
    lemma LowerLayersLeaveFirst(before: map<Key, Entry>, items: seq<Entry>, content: map<Source, Bytes>, done: nat,
                                batches: seq<seq<Upload>>, outcome: Outcome, failing: nat, reply: Reply, maxObjects: nat,
                                maxBytes: nat, gone: Key, kept: Key)
      requires Lists(items, before) && InOrder(items)
      requires Ended(items, content, done, batches, outcome, failing, reply, maxObjects, maxBytes)
      requires gone in before && gone !in entries && kept in entries
      ensures PublishPriority(gone) <= PublishPriority(kept)
      ensures !KeyLayers.Precedes(KeyLayers.KindOf(KeyLayers.Split(kept)), KeyLayers.KindOf(KeyLayers.Split(gone)))
    {
      var i :| 0 <= i < |items| && items[i].key == gone;
      var j :| 0 <= j < |items[done..]| && items[done..][j].key == kept;
      assert items[done + j].key == kept && i < done;
      assert Before(items[i], items[done + j]);
      LayersAgree(gone);
      LayersAgree(kept);
      KeyLayers.JoinOfSplit(gone);
      KeyLayers.JoinOfSplit(kept);
      KeyLayers.LayersFollowForm(KeyLayers.Split(kept), KeyLayers.Split(gone));
    }

    /** An entry whose source is missing stops every drain: neither it nor anything ordered after it
        leaves the queue. */
    lemma NothingPassesMissingSource(items: seq<Entry>, content: map<Source, Bytes>, done: nat, batches: seq<seq<Upload>>,
                                     outcome: Outcome, failing: nat, reply: Reply, maxObjects: nat, maxBytes: nat, m: nat, n: nat)
      requires Ended(items, content, done, batches, outcome, failing, reply, maxObjects, maxBytes)
      requires m <= n < |items| && items[m].source !in content
      ensures !outcome.Drained? && items[n].key in entries
    {
      var sent := items[..|Flatten(batches)|];
      assert forall i :: 0 <= i < |sent| ==> sent[i].source in content && sent[i] == items[i];
    }

    /** The state of the sending loop. */
    ghost predicate Progress(items: seq<Entry>, content: map<Source, Bytes>, done: nat, n: nat, batch: seq<Upload>,
                             batchBytes: nat, batches: seq<seq<Upload>>, failing: nat, maxObjects: nat, maxBytes: nat)
      reads this
    {
      && Filled(Load(items, content), done, n, batch, batchBytes, maxObjects, maxBytes) && Readable(items[..n], content)
      && Sending(items, content, done, batches, maxObjects, maxBytes) && |batches| <= failing
    }

    /** Send the filled batch when item `n` does not fit into it. */
    method FlushFull(items: seq<Entry>, ghost content: map<Source, Bytes>, done: nat, n: nat, batch: seq<Upload>,
                     batchBytes: nat, batches: seq<seq<Upload>>, full: bool, failing: nat, reply: Reply,
                     ghost maxObjects: nat, ghost maxBytes: nat)
      returns (ok: bool, done2: nat, batch2: seq<Upload>, batchBytes2: nat, batches2: seq<seq<Upload>>)
      requires Progress(items, content, done, n, batch, batchBytes, batches, failing, maxObjects, maxBytes) && !reply.Durable?
      requires full ==> batch != []
      modifies this
      ensures if ok then Progress(items, content, done2, n, batch2, batchBytes2, batches2, failing, maxObjects, maxBytes)
              else Ended(items, content, done2, batches2, Refused, failing, reply, maxObjects, maxBytes)
      ensures if full then ok ==> batch2 == [] && done2 == n else ok && done2 == done && batch2 == batch && batchBytes2 == batchBytes
      ensures batches2 == if full then batches + [batch] else batches
      ensures full ==> ok == (|batches| != failing)
    {
      ok, done2, batch2, batchBytes2, batches2 := true, done, batch, batchBytes, batches;
      if full {
        ok, batches2 := Flush(items, content, done, n, batch, batches, maxObjects, maxBytes, failing, reply);
        if ok {
          done2, batch2, batchBytes2 := n, [], 0;
        } else {
          StoppedHere(items, content, done, n, batches, batches2, failing, reply, maxObjects, maxBytes);
        }
      }
    }

    lemma Taken(items: seq<Entry>, content: map<Source, Bytes>, done: nat, n: nat, batch: seq<Upload>, batchBytes: nat,
                batches: seq<seq<Upload>>, bytes: Bytes, failing: nat, maxObjects: nat, maxBytes: nat)
      requires Progress(items, content, done, n, batch, batchBytes, batches, failing, maxObjects, maxBytes) && n < |items|
      requires items[n].source in content && content[items[n].source] == bytes
      requires batch == [] || (|batch| < maxObjects && batchBytes + |bytes| <= maxBytes)
      ensures Progress(items, content, done, n + 1, batch + [Upload(items[n], bytes)], batchBytes + |bytes|, batches, failing,
                       maxObjects, maxBytes)
    {
      Pushed(Load(items, content), done, n, batch, batchBytes, maxObjects, maxBytes);
      ReadableMore(items, content, n);
    }

    /** Put item `n` into the batch, or into the next one when it does not fit. */
    method TakeItem(items: seq<Entry>, ghost content: map<Source, Bytes>, done: nat, n: nat, batch: seq<Upload>, batchBytes: nat,
                    batches: seq<seq<Upload>>, bytes: Bytes, failing: nat, reply: Reply, maxObjects: nat, maxBytes: nat)
      returns (ok: bool, done2: nat, batch2: seq<Upload>, batchBytes2: nat, batches2: seq<seq<Upload>>)
      requires Progress(items, content, done, n, batch, batchBytes, batches, failing, maxObjects, maxBytes) && n < |items|
      requires items[n].source in content && content[items[n].source] == bytes && !reply.Durable?
      modifies this
      ensures if ok then Progress(items, content, done2, n + 1, batch2, batchBytes2, batches2, failing, maxObjects, maxBytes)
              else Ended(items, content, done2, batches2, Refused, failing, reply, maxObjects, maxBytes)
      ensures ok ==> Filling(batches2, batch2) == Push(Filling(batches, batch), Upload(items[n], bytes), maxObjects, maxBytes)
      ensures !ok ==> batches2 == batches + [batch] && |batches| == failing && Overflows(batch, Upload(items[n], bytes), maxObjects, maxBytes)
    {
      var full := batch != [] && (|batch| >= maxObjects || batchBytes + |bytes| > maxBytes);
      ok, done2, batch2, batchBytes2, batches2 :=
        FlushFull(items, content, done, n, batch, batchBytes, batches, full, failing, reply, maxObjects, maxBytes);
      if ok {
        Taken(items, content, done2, n, batch2, batchBytes2, batches2, bytes, failing, maxObjects, maxBytes);
        batchBytes2 := batchBytes2 + |bytes|;
        batch2 := batch2 + [Upload(items[n], bytes)];
      }
    }

    /** Send what is left when the items run out. */
    method FlushLast(items: seq<Entry>, ghost content: map<Source, Bytes>, done: nat, batch: seq<Upload>, batchBytes: nat,
                     batches: seq<seq<Upload>>, failing: nat, reply: Reply, ghost maxObjects: nat, ghost maxBytes: nat)
      returns (done2: nat, batches2: seq<seq<Upload>>, outcome: Outcome)
      requires Progress(items, content, done, |items|, batch, batchBytes, batches, failing, maxObjects, maxBytes)
      requires !reply.Durable?
      modifies this
      ensures Ended(items, content, done2, batches2, outcome, failing, reply, maxObjects, maxBytes)
      ensures batches2 == AllOf(Filling(batches, batch)) && outcome == if batch != [] && |batches| == failing then Refused else Drained
    {
      var ok, rest, restBytes;
      ok, done2, rest, restBytes, batches2 :=
        FlushFull(items, content, done, |items|, batch, batchBytes, batches, batch != [], failing, reply, maxObjects, maxBytes);
      outcome := if ok then Drained else Refused;
      if ok {
        assert items[..|items|] == items;
        AllSent(items, content, batches2, failing, reply, maxObjects, maxBytes);
      }
    }

    method ReadSource(items: seq<Entry>, ghost content: map<Source, Bytes>, ghost done: nat, n: nat, ghost batch: seq<Upload>,
                      ghost batchBytes: nat, ghost batches: seq<seq<Upload>>, ghost failing: nat, ghost reply: Reply,
                      ghost maxObjects: nat, ghost maxBytes: nat)
      returns (bytes: Option<Bytes>)
      requires Progress(items, content, done, n, batch, batchBytes, batches, failing, maxObjects, maxBytes) && n < |items|
      ensures if bytes.Some? then items[n].source in content && content[items[n].source] == bytes.value
              else items[n].source !in content && Ended(items, content, done, batches, SourceMissing, failing, reply, maxObjects, maxBytes)
    {
      StillThere(items, content, done, n);
      bytes := Lookup(files, items[n].source);
      if bytes.None? { MissingHere(items, content, done, n, batches, failing, reply, maxObjects, maxBytes); }
    }

    /** What becomes of the batches at item `n`. */
    predicate Next(items: seq<Entry>, content: map<Source, Bytes>, n: nat, split: Filling, split2: Filling, end: Option<Outcome>,
                   failing: nat, maxObjects: nat, maxBytes: nat)
      requires n < |items|
    {
      var item := Load(items, content)[n];
      match end
      case None => items[n].source in content && split2 == Push(split, item, maxObjects, maxBytes)
      case Some(SourceMissing) => items[n].source !in content && split2 == split
      case Some(Refused) =>
        && items[n].source in content && Overflows(split.open, item, maxObjects, maxBytes)
        && split2.closed == split.closed + [split.open] && |split.closed| == failing
      case Some(Drained) => false
    }

    /** Read item `n` and take it, unless the drain ends here. */
    method NextItem(items: seq<Entry>, ghost content: map<Source, Bytes>, done: nat, n: nat, batch: seq<Upload>, batchBytes: nat,
                    batches: seq<seq<Upload>>, failing: nat, reply: Reply, maxObjects: nat, maxBytes: nat)
      returns (end: Option<Outcome>, done2: nat, batch2: seq<Upload>, batchBytes2: nat, batches2: seq<seq<Upload>>)
      requires Progress(items, content, done, n, batch, batchBytes, batches, failing, maxObjects, maxBytes) && n < |items|
      requires !reply.Durable?
      modifies this
      ensures if end.None? then Progress(items, content, done2, n + 1, batch2, batchBytes2, batches2, failing, maxObjects, maxBytes)
              else Ended(items, content, done2, batches2, end.value, failing, reply, maxObjects, maxBytes)
      ensures Next(items, content, n, Filling(batches, batch), Filling(batches2, batch2), end, failing, maxObjects, maxBytes)
    {
      var bytes := ReadSource(items, content, done, n, batch, batchBytes, batches, failing, reply, maxObjects, maxBytes);
      if bytes.None? { return Some(SourceMissing), done, batch, batchBytes, batches; }
      var ok;
      ok, done2, batch2, batchBytes2, batches2 :=
        TakeItem(items, content, done, n, batch, batchBytes, batches, bytes.value, failing, reply, maxObjects, maxBytes);
      end := if ok then None else Some(Refused);
    }

    lemma NextIsPlanned(items: seq<Entry>, content: map<Source, Bytes>, n: nat, split: Filling, split2: Filling, end: Option<Outcome>,
                        failing: nat, maxObjects: nat, maxBytes: nat)
      requires n < |items| && Readable(items[..n], content) && |split.closed| <= failing
      requires Greedy(Load(items, content)[..n], maxObjects, maxBytes) == split
      requires Next(items, content, n, split, split2, end, failing, maxObjects, maxBytes)
      ensures end.None? ==> Greedy(Load(items, content)[..n + 1], maxObjects, maxBytes) == split2
      ensures end.Some? ==> Planned(items, content, split2.closed, end.value, failing, maxObjects, maxBytes)
    {
      if end.None? {
        GreedyMore(Load(items, content), n, maxObjects, maxBytes);
      } else if end.value.SourceMissing? {
        MissingIsPlanned(items, content, n, split, failing, maxObjects, maxBytes);
      } else {
        ReadableMore(items, content, n);
        RefusedIsPlanned(items, content, n, split, failing, maxObjects, maxBytes);
      }
    }

    /** Send `items` in order until a source is missing, or the batch numbered `failing` gets another reply
        than durable storage. */
    method SendAll(items: seq<Entry>, ghost content: map<Source, Bytes>, maxObjects: nat, maxBytes: nat, failing: nat, reply: Reply)
      returns (done: nat, batches: seq<seq<Upload>>, outcome: Outcome)
      requires Progress(items, content, 0, 0, [], 0, [], failing, maxObjects, maxBytes) && !reply.Durable?
      modifies this
      ensures Ended(items, content, done, batches, outcome, failing, reply, maxObjects, maxBytes)
      ensures Planned(items, content, batches, outcome, failing, maxObjects, maxBytes)
    {
      done, batches := 0, [];
      var batch, batchBytes: nat := [], 0;
      for n := 0 to |items|
        invariant Progress(items, content, done, n, batch, batchBytes, batches, failing, maxObjects, maxBytes)
        invariant Greedy(Load(items, content)[..n], maxObjects, maxBytes) == Filling(batches, batch)
      {
        var end;
        ghost var split := Filling(batches, batch);
        end, done, batch, batchBytes, batches :=
          NextItem(items, content, done, n, batch, batchBytes, batches, failing, reply, maxObjects, maxBytes);
        NextIsPlanned(items, content, n, split, Filling(batches, batch), end, failing, maxObjects, maxBytes);
        if end.Some? { return done, batches, end.value; }
      }
      assert items[..|items|] == items && Load(items, content)[..|items|] == Load(items, content);
      LastIsPlanned(items, content, Filling(batches, batch), failing, maxObjects, maxBytes);
      done, batches, outcome := FlushLast(items, content, done, batch, batchBytes, batches, failing, reply, maxObjects, maxBytes);
    }

    /** A drain. What has left the queue is a prefix of the publication order, so no entry is gone while
        one of a lower layer is still here; every batch fits; and the rest is queued as it was, with
        one more attempt on the batch that failed. The batches are the planned ones up to the one that is
        refused. The queue is emptied exactly when every source can be read and the batches are no more
        than the master accepts. */
    method DrainUploadQueueViaMaster(maxObjects: nat, maxBytes: nat, failing: nat, reply: Reply)
      returns (items: seq<Entry>, done: nat, batches: seq<seq<Upload>>, outcome: Outcome)
      requires Valid() && !reply.Durable?
      modifies this
      ensures Lists(items, old(entries)) && InOrder(items)
      ensures Ended(items, old(files), done, batches, outcome, failing, reply, maxObjects, maxBytes)
      ensures Planned(items, old(files), batches, outcome, failing, maxObjects, maxBytes)
      ensures entries == map[] <==>
                Readable(items, old(files)) && |Batches(Load(items, old(files)), maxObjects, maxBytes)| <= failing
      ensures failing >= |items| ==> (entries == map[] <==> Readable(items, old(files)))
    {
      items := UploadQueueItems();
      assert items[0..] == items && items[..0] == [];
      assert Load(items, files)[0..0] == [] == Load(items, files)[..0];
      done, batches, outcome := SendAll(items, files, maxObjects, maxBytes, failing, reply);
      EmptyIffDrained(items, old(files), done, batches, outcome, failing, reply, maxObjects, maxBytes);
      DrainedIff(items, old(files), batches, outcome, failing, maxObjects, maxBytes);
    }
  }

  /** The batch being filled: uploads `done` to `n`. */
  ghost predicate Filled(all: seq<Upload>, done: nat, n: nat, batch: seq<Upload>, batchBytes: nat, maxObjects: nat, maxBytes: nat) {
    && done <= n <= |all| && batch == all[done..n] && batchBytes == Size(batch)
    && (batch != [] ==> Fits(batch, maxObjects, maxBytes))
  }

  lemma Pushed(all: seq<Upload>, done: nat, n: nat, batch: seq<Upload>, batchBytes: nat, maxObjects: nat, maxBytes: nat)
    requires Filled(all, done, n, batch, batchBytes, maxObjects, maxBytes) && n < |all|
    requires batch == [] || (|batch| < maxObjects && batchBytes + |all[n].bytes| <= maxBytes)
    ensures Filled(all, done, n + 1, batch + [all[n]], batchBytes + |all[n].bytes|, maxObjects, maxBytes)
  {
    assert (batch + [all[n]])[..|batch|] == batch;
  }

  lemma ReadableMore(items: seq<Entry>, content: map<Source, Bytes>, n: nat)
    requires n < |items| && Readable(items[..n], content) && items[n].source in content
    ensures Readable(items[..n + 1], content) && Load(items, content)[n] == Upload(items[n], content[items[n].source])
  {
    assert items[..n + 1] == items[..n] + [items[n]];
  }

  lemma OneMoreName(batch: seq<Entry>, n: nat)
    requires n < |batch|
    ensures Names(batch[..n + 1]) == Names(batch[..n]) + {batch[n].key}
  {
    NamesOfSum(batch[..n], [batch[n]]);
    assert batch[..n + 1] == batch[..n] + [batch[n]] && Names([batch[n]]) == {batch[n].key};
  }

  lemma NamesAre(items: seq<Entry>)
    ensures forall k :: k in Names(items) <==> exists x :: x in items && x.key == k
  {
    forall k ensures k in Names(items) <==> exists x :: x in items && x.key == k {
      if x :| x in items && x.key == k { var i :| 0 <= i < |items| && items[i] == x; }
      if k in Names(items) { var i :| 0 <= i < |items| && items[i].key == k; assert items[i] in items; }
    }
  }

  lemma FlattenPushed(all: seq<Upload>, batches: seq<seq<Upload>>, a: nat, b: nat)
    requires a <= b <= |all| && Flatten(batches) == all[..a]
    ensures Flatten(batches + [all[a..b]]) == all[..b]
  {
    FlattenSnoc(batches, all[a..b]);
    PrefixGrows(all, a, b);
  }

  lemma PrefixGrows(all: seq<Upload>, a: nat, b: nat)
    requires a <= b <= |all|
    ensures all[..a] + all[a..b] == all[..b]
  {
  }

  lemma SliceIsDistinct(items: seq<Entry>, a: nat, b: nat)
    requires a <= b <= |items| && Distinct(items)
    ensures Distinct(items[a..b]) && Names(items[a..b]) <= Names(items[a..])
  {
    assert items[a..] == items[a..b] + items[b..];
    NamesOfSum(items[a..b], items[b..]);
  }

  lemma Without(items: seq<Entry>, a: nat, b: nat)
    requires a <= b <= |items| && Distinct(items)
    ensures Names(items[a..]) - Names(items[a..b]) == Names(items[b..])
  {
    assert items[a..] == items[a..b] + items[b..];
    NamesOfSum(items[a..b], items[b..]);
    forall k | k in Names(items[b..]) ensures k !in Names(items[a..b]) {
      var i :| 0 <= i < |items[b..]| && items[b..][i].key == k;
      assert items[b + i].key == k;
    }
  }
}
