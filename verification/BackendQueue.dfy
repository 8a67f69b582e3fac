/** The entries of the backend queue, their publication layers and the dependency index
    that decides which of them may be sent now. */
module BackendQueue {
  import opened Basics

  datatype Operation =
    | Put(digest: Digest, size: nat, conditional: bool)
    | Delete

  datatype QueueItem = QueueItem(
    generation: nat,
    key: Key,
    host: Host,
    op: Operation,
    createdAt: nat,
    updatedAt: nat,
    attempts: nat,
    retryAfter: Option<nat>)

  /** Content is layer 1, journals and metadata layer 2, refs and heads layer 3. */
  function PublishPriority(key: Key): (p: nat)
    ensures 1 <= p <= 3
  {
    if StartsWith(key, "refs/") || Contains(key, "/refs/") || EndsWith(key, "/current")
       || EndsWith(key, "/head.cbor.zst.enc")
    then 3
    else if Contains(key, "/journal/") || StartsWith(key, "journal/") || StartsWith(key, "metadata/")
            || EndsWith(key, "/metadata/export.json.zst") || EndsWith(key, "/metadata/export.json")
            || key == "metadata/export.json"
    then 2
    else 1
  }

  /** What the index is meant to decide: `c` must reach the backend before `item`. */
  predicate Obstructs(c: QueueItem, item: QueueItem) {
    && c.op.Put?
    && c.host == item.host
    && (item.op.Put? ==> PublishPriority(c.key) < PublishPriority(item.key) && c.updatedAt <= item.updatedAt)
  }

  ghost predicate BlockedIn(queued: map<Key, QueueItem>, item: QueueItem) {
    exists k :: k in queued && Obstructs(queued[k], item)
  }

  ghost predicate BlockedAmong(items: seq<QueueItem>, item: QueueItem) {
    exists i :: 0 <= i < |items| && Obstructs(items[i], item)
  }

  /** Earliest `updatedAt` of a queued Put, by host and layer. */
  datatype Dependencies = Dependencies(earliest: map<Host, seq<Option<nat>>>) {

    ghost predicate Valid() {
      forall h :: h in earliest ==> |earliest[h]| == 4
    }

    predicate Blocks(item: QueueItem)
      requires Valid()
    {
      item.host in earliest &&
      (item.op.Delete? ||
       exists p :: 0 <= p < PublishPriority(item.key) && earliest[item.host][p].Some?
                   && earliest[item.host][p].value <= item.updatedAt)
    }

    /** The entry for host `h`, layer `p` is the minimum over the Puts of `items` in that layer. */
    ghost predicate Indexes(items: seq<QueueItem>) {
      && Valid()
      && (forall i :: 0 <= i < |items| && items[i].op.Put? ==> Covers(items[i]))
      && (forall h :: h in earliest ==> exists i :: 0 <= i < |items| && items[i].op.Put? && items[i].host == h)
      && (forall h, p :: h in earliest && 0 <= p < 4 && earliest[h][p].Some? ==> Attained(items, h, p))
    }

    ghost predicate Covers(c: QueueItem)
      requires Valid()
    {
      && c.host in earliest
      && earliest[c.host][PublishPriority(c.key)].Some?
      && earliest[c.host][PublishPriority(c.key)].value <= c.updatedAt
    }

    ghost predicate Attained(items: seq<QueueItem>, h: Host, p: nat)
      requires Valid() && h in earliest && p < 4 && earliest[h][p].Some?
    {
      exists i :: 0 <= i < |items| && items[i].op.Put? && items[i].host == h
                  && PublishPriority(items[i].key) == p && items[i].updatedAt == earliest[h][p].value
    }
  }

  /** The constant-size index answers exactly the question asked of the whole queue. */
  lemma IndexDecidesBlocking(d: Dependencies, items: seq<QueueItem>, item: QueueItem)
    requires d.Indexes(items)
    ensures d.Blocks(item) <==> BlockedAmong(items, item)
  {
    if d.Blocks(item) {
      if item.op.Put? {
        var p :| 0 <= p < PublishPriority(item.key) && d.earliest[item.host][p].Some?
                 && d.earliest[item.host][p].value <= item.updatedAt;
        assert d.Attained(items, item.host, p);
        var i :| 0 <= i < |items| && items[i].op.Put? && items[i].host == item.host
                 && PublishPriority(items[i].key) == p && items[i].updatedAt == d.earliest[item.host][p].value;
        assert Obstructs(items[i], item);
      } else {
        var i :| 0 <= i < |items| && items[i].op.Put? && items[i].host == item.host;
        assert Obstructs(items[i], item);
      }
    }
    if BlockedAmong(items, item) {
      var i :| 0 <= i < |items| && Obstructs(items[i], item);
      assert d.Covers(items[i]);
    }
  }

  /** Insert one Put into the index: the minimum of its host and layer only. */
  function Note(d: Dependencies, c: QueueItem): (r: Dependencies)
    requires d.Valid() && c.op.Put?
    ensures r.Valid()
  {
    var row := if c.host in d.earliest then d.earliest[c.host] else [None, None, None, None];
    var p := PublishPriority(c.key);
    if row[p].None? || c.updatedAt < row[p].value
    then Dependencies(d.earliest[c.host := row[p := Some(c.updatedAt)]])
    else Dependencies(d.earliest[c.host := row])
  }

  lemma NoteCovers(d: Dependencies, c: QueueItem, other: QueueItem)
    requires d.Valid() && c.op.Put?
    requires other == c || d.Covers(other)
    ensures Note(d, c).Covers(other)
  {
  }

  lemma NoteAttained(d: Dependencies, items: seq<QueueItem>, c: QueueItem, h: Host, p: nat)
    requires d.Indexes(items) && c.op.Put? && p < 4
    requires h in Note(d, c).earliest && Note(d, c).earliest[h][p].Some?
    ensures Note(d, c).Attained(items + [c], h, p)
  {
    var more := items + [c];
    if h in d.earliest && Note(d, c).earliest[h][p] == d.earliest[h][p] {
      assert d.Attained(items, h, p);
      var i :| 0 <= i < |items| && items[i].op.Put? && items[i].host == h
               && PublishPriority(items[i].key) == p && items[i].updatedAt == d.earliest[h][p].value;
      assert more[i] == items[i];
    } else {
      assert more[|items|] == c;
    }
  }

  lemma NoteIndexes(d: Dependencies, items: seq<QueueItem>, c: QueueItem)
    requires d.Indexes(items) && c.op.Put?
    ensures Note(d, c).Indexes(items + [c])
  {
    var r, more := Note(d, c), items + [c];
    forall i | 0 <= i < |more| && more[i].op.Put? ensures r.Covers(more[i]) {
      NoteCovers(d, c, more[i]);
    }
    forall h, p | h in r.earliest && 0 <= p < 4 && r.earliest[h][p].Some? ensures r.Attained(more, h, p) {
      NoteAttained(d, items, c, h, p);
    }
    forall h | h in r.earliest ensures exists i :: 0 <= i < |more| && more[i].op.Put? && more[i].host == h {
      if h in d.earliest {
        var i :| 0 <= i < |items| && items[i].op.Put? && items[i].host == h;
        assert more[i] == items[i];
      } else {
        assert more[|items|] == c;
      }
    }
  }

  lemma SkipIndexes(d: Dependencies, items: seq<QueueItem>, c: QueueItem)
    requires d.Indexes(items) && c.op.Delete?
    ensures d.Indexes(items + [c])
  {
    var more := items + [c];
    assert more[|items|] == c;
    assert forall i :: 0 <= i < |items| ==> more[i] == items[i];
    forall h, p | h in d.earliest && 0 <= p < 4 && d.earliest[h][p].Some? ensures d.Attained(more, h, p) {
      assert d.Attained(items, h, p);
      var i :| 0 <= i < |items| && items[i].op.Put? && items[i].host == h
               && PublishPriority(items[i].key) == p && items[i].updatedAt == d.earliest[h][p].value;
      assert more[i] == items[i];
    }
    forall h | h in d.earliest ensures exists i :: 0 <= i < |more| && more[i].op.Put? && more[i].host == h {
      var i :| 0 <= i < |items| && items[i].op.Put? && items[i].host == h;
      assert more[i].host == h;
    }
  }

  /** One pass over the queue builds the index. */
  method BuildDependencies(items: seq<QueueItem>) returns (d: Dependencies)
    ensures d.Indexes(items)
    ensures forall item: QueueItem :: d.Blocks(item) <==> BlockedAmong(items, item)
  {
    d := Dependencies(map[]);
    for n := 0 to |items|
      invariant d.Indexes(items[..n])
    {
      assert items[..n + 1] == items[..n] + [items[n]];
      if items[n].op.Put? {
        NoteIndexes(d, items[..n], items[n]);
        d := Note(d, items[n]);
      } else {
        SkipIndexes(d, items[..n], items[n]);
      }
    }
    assert items[..|items|] == items;
    forall item: QueueItem ensures d.Blocks(item) <==> BlockedAmong(items, item) {
      IndexDecidesBlocking(d, items, item);
    }
  }

  /** Some entry of every non-empty queue may be sent: a Put of the lowest layer, or, when no Put
      is queued, any Delete. */
  lemma SomethingIsUnblocked(items: seq<QueueItem>)
    requires items != []
    ensures exists i :: 0 <= i < |items| && !BlockedAmong(items, items[i])
    ensures (exists i :: 0 <= i < |items| && items[i].op.Put?) ==>
              exists i :: 0 <= i < |items| && items[i].op.Put? && !BlockedAmong(items, items[i])
  {
    if exists i :: 0 <= i < |items| && items[i].op.Put? {
      var m := LowestPut(items);
      assert !BlockedAmong(items, items[m]);
    } else {
      assert !BlockedAmong(items, items[0]);
    }
  }

  lemma {:induction false} LowestPut(items: seq<QueueItem>) returns (m: nat)
    requires exists i :: 0 <= i < |items| && items[i].op.Put?
    ensures m < |items| && items[m].op.Put?
    ensures forall i :: 0 <= i < |items| && items[i].op.Put? ==> PublishPriority(items[m].key) <= PublishPriority(items[i].key)
  {
    var n := |items| - 1;
    var front := items[..n];
    if exists i :: 0 <= i < |front| && front[i].op.Put? {
      m := LowestPut(front);
      assert items[m] == front[m];
      assert forall i :: 0 <= i < n ==> items[i] == front[i];
      if items[n].op.Put? && PublishPriority(items[n].key) < PublishPriority(items[m].key) { m := n; }
    } else {
      assert forall i :: 0 <= i < n ==> items[i] == front[i];
      m := n;
    }
  }
}
