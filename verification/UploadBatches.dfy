/** Cutting a list of uploads into batches: each item joins the batch being filled, or starts the next one when
    it does not fit. No way of cutting the list into batches that fit needs fewer. */
module UploadBatches {
  import opened Basics

  /** A queue entry names the file it is read from: a payload spooled for its key, or a local object. */
  datatype Entry = Entry(key: Key, source: Source, overwrite: bool, attempts: nat)

  /** An entry with the bytes that were read for it. */
  datatype Upload = Upload(entry: Entry, bytes: Bytes)

  type Batch = seq<Upload>

  function Size(items: Batch): nat {
    if items == [] then 0 else Size(items[..|items| - 1]) + |items[|items| - 1].bytes|
  }

  /** Within the negotiated limits, or a single object. */
  predicate Fits(batch: Batch, maxObjects: nat, maxBytes: nat) {
    batch != [] && (|batch| == 1 || (|batch| <= maxObjects && Size(batch) <= maxBytes))
  }

  predicate AllFit(batches: seq<Batch>, maxObjects: nat, maxBytes: nat) {
    forall batch :: batch in batches ==> Fits(batch, maxObjects, maxBytes)
  }

  function Flatten(batches: seq<Batch>): Batch {
    if batches == [] then [] else Flatten(batches[..|batches| - 1]) + batches[|batches| - 1]
  }

  /** The batches that are full, and the one being filled. */
  datatype Filling = Filling(closed: seq<Batch>, open: Batch)

  predicate Overflows(open: Batch, item: Upload, maxObjects: nat, maxBytes: nat) {
    open != [] && (|open| >= maxObjects || Size(open) + |item.bytes| > maxBytes)
  }

  function Push(split: Filling, item: Upload, maxObjects: nat, maxBytes: nat): Filling {
    if Overflows(split.open, item, maxObjects, maxBytes) then Filling(split.closed + [split.open], [item])
    else Filling(split.closed, split.open + [item])
  }

  function Greedy(items: Batch, maxObjects: nat, maxBytes: nat): Filling {
    if items == [] then Filling([], [])
    else Push(Greedy(items[..|items| - 1], maxObjects, maxBytes), items[|items| - 1], maxObjects, maxBytes)
  }

  function AllOf(split: Filling): seq<Batch> {
    if split.open == [] then split.closed else split.closed + [split.open]
  }

  /** The batches a list is sent in. */
  function Batches(items: Batch, maxObjects: nat, maxBytes: nat): seq<Batch> {
    AllOf(Greedy(items, maxObjects, maxBytes))
  }

  lemma FlattenSnoc(batches: seq<Batch>, batch: Batch)
    ensures Flatten(batches + [batch]) == Flatten(batches) + batch
  {
    var longer := batches + [batch];
    assert longer[|longer| - 1] == batch && longer[..|longer| - 1] == batches;
  }

  lemma SizeSnoc(items: Batch, item: Upload)
    ensures Size(items + [item]) == Size(items) + |item.bytes|
  {
    var longer := items + [item];
    assert longer[|longer| - 1] == item && longer[..|longer| - 1] == items;
  }

  lemma GreedySnoc(items: Batch, item: Upload, maxObjects: nat, maxBytes: nat)
    ensures Greedy(items + [item], maxObjects, maxBytes) == Push(Greedy(items, maxObjects, maxBytes), item, maxObjects, maxBytes)
  {
    var longer := items + [item];
    assert longer[|longer| - 1] == item && longer[..|longer| - 1] == items;
  }

  lemma GreedyMore(items: Batch, n: nat, maxObjects: nat, maxBytes: nat)
    requires n < |items|
    ensures Greedy(items[..n + 1], maxObjects, maxBytes) == Push(Greedy(items[..n], maxObjects, maxBytes), items[n], maxObjects, maxBytes)
  {
    assert items[..n + 1] == items[..n] + [items[n]];
    GreedySnoc(items[..n], items[n], maxObjects, maxBytes);
  }

  ghost predicate Splits(split: Filling, items: Batch, maxObjects: nat, maxBytes: nat) {
    && Flatten(split.closed) + split.open == items && AllFit(split.closed, maxObjects, maxBytes)
    && (if items == [] then split == Filling([], []) else Fits(split.open, maxObjects, maxBytes))
  }

  lemma PushSplits(split: Filling, items: Batch, item: Upload, maxObjects: nat, maxBytes: nat)
    requires Splits(split, items, maxObjects, maxBytes)
    ensures Splits(Push(split, item, maxObjects, maxBytes), items + [item], maxObjects, maxBytes)
  {
    FlattenSnoc(split.closed, split.open);
    SizeSnoc(split.open, item);
    if Overflows(split.open, item, maxObjects, maxBytes) {
      assert Flatten(split.closed + [split.open]) + [item] == items + [item];
    } else {
      assert Flatten(split.closed) + (split.open + [item]) == items + [item];
    }
  }

  /** Nothing is lost, added or reordered, and every batch fits. */
  lemma {:induction false} GreedyCovers(items: Batch, maxObjects: nat, maxBytes: nat)
    ensures Splits(Greedy(items, maxObjects, maxBytes), items, maxObjects, maxBytes)
  {
    if items != [] {
      var rest := items[..|items| - 1];
      GreedyCovers(rest, maxObjects, maxBytes);
      PushSplits(Greedy(rest, maxObjects, maxBytes), rest, items[|items| - 1], maxObjects, maxBytes);
      assert items == rest + [items[|items| - 1]];
    }
  }

  lemma BatchesCover(items: Batch, maxObjects: nat, maxBytes: nat)
    ensures Flatten(Batches(items, maxObjects, maxBytes)) == items && AllFit(Batches(items, maxObjects, maxBytes), maxObjects, maxBytes)
  {
    var g := Greedy(items, maxObjects, maxBytes);
    GreedyCovers(items, maxObjects, maxBytes);
    FlattenSnoc(g.closed, g.open);
  }

  /** What is closed for a prefix stays closed. */
  lemma {:induction false} ClosedStays(items: Batch, n: nat, maxObjects: nat, maxBytes: nat)
    requires n <= |items|
    ensures Greedy(items[..n], maxObjects, maxBytes).closed <= Greedy(items, maxObjects, maxBytes).closed
    decreases |items|
  {
    if n < |items| {
      var rest := items[..|items| - 1];
      assert rest[..n] == items[..n];
      ClosedStays(rest, n, maxObjects, maxBytes);
    } else {
      assert items[..n] == items;
    }
  }

  /** Batches that are not empty are no more than the items. */
  lemma {:induction false} NoMoreThanItems(batches: seq<Batch>, maxObjects: nat, maxBytes: nat)
    requires AllFit(batches, maxObjects, maxBytes)
    ensures |batches| <= |Flatten(batches)|
  {
    if batches != [] {
      assert batches[|batches| - 1] in batches;
      NoMoreThanItems(batches[..|batches| - 1], maxObjects, maxBytes);
    }
  }

  lemma {:induction false} SizeOfSum(a: Batch, b: Batch)
    ensures Size(a + b) == Size(a) + Size(b)
  {
    if b == [] {
      assert a + b == a;
    } else {
      SizeOfSum(a, b[..|b| - 1]);
      assert (a + b)[..|a + b| - 1] == a + b[..|b| - 1];
    }
  }

  /** Two tails of one list: the shorter is no larger. */
  lemma ShorterTailIsSmaller(x: Batch, a: Batch, b: Batch, c: Batch, d: Batch)
    requires x == a + b == c + d && |b| <= |d|
    ensures Size(b) <= Size(d)
  {
    var extra := d[..|d| - |b|];
    assert b == x[|x| - |b|..] && d == x[|x| - |d|..];
    assert d == extra + b;
    SizeOfSum(extra, b);
  }

  /** A way of cutting `items` into batches that fit. */
  ghost predicate Cuts(batches: seq<Batch>, items: Batch, maxObjects: nat, maxBytes: nat) {
    Flatten(batches) == items && AllFit(batches, maxObjects, maxBytes)
  }

  /** Take the last item away from the last batch. */
  function Shortened(batches: seq<Batch>): seq<Batch>
    requires batches != [] && batches[|batches| - 1] != []
  {
    var n, last := |batches| - 1, batches[|batches| - 1];
    if |last| == 1 then batches[..n] else batches[..n] + [last[..|last| - 1]]
  }

  lemma ShortenedCuts(batches: seq<Batch>, items: Batch, maxObjects: nat, maxBytes: nat)
    requires Cuts(batches, items, maxObjects, maxBytes) && items != []
    ensures batches != [] && batches[|batches| - 1] != [] && items[|items| - 1] == batches[|batches| - 1][|batches[|batches| - 1]| - 1]
    ensures Cuts(Shortened(batches), items[..|items| - 1], maxObjects, maxBytes)
  {
    var n := |batches| - 1;
    var last := batches[n];
    assert last in batches;
    var less := last[..|last| - 1];
    assert items == Flatten(batches[..n]) + last && last == less + [last[|last| - 1]];
    assert items[..|items| - 1] == Flatten(batches[..n]) + less;
    FlattenSnoc(batches[..n], less);
  }

  /** `own` are no more than `batches`, and if they are as many, the last of `own` is no longer. */
  predicate Ahead(own: seq<Batch>, batches: seq<Batch>) {
    |own| <= |batches| && (0 < |own| == |batches| ==> |own[|own| - 1]| <= |batches[|batches| - 1]|)
  }

  lemma PushStaysAhead(split: Filling, item: Upload, batches: seq<Batch>, maxObjects: nat, maxBytes: nat)
    requires batches != [] && batches[|batches| - 1] != [] && (split.open == [] ==> split.closed == [])
    requires Ahead(AllOf(split), Shortened(batches))
    requires |batches[|batches| - 1]| > 1 && |AllOf(split)| == |batches| ==> !Overflows(split.open, item, maxObjects, maxBytes)
    ensures Ahead(AllOf(Push(split, item, maxObjects, maxBytes)), batches)
  {
    var own, next := AllOf(split), AllOf(Push(split, item, maxObjects, maxBytes));
    if Overflows(split.open, item, maxObjects, maxBytes) {
      assert next == own + [[item]];
    } else {
      assert next == split.closed + [split.open + [item]];
    }
  }

  /** No cut has fewer batches; and a cut with as many has a last batch at least as long. */
  lemma {:induction false} GreedyStaysAhead(batches: seq<Batch>, items: Batch, maxObjects: nat, maxBytes: nat)
    requires Cuts(batches, items, maxObjects, maxBytes)
    ensures Ahead(Batches(items, maxObjects, maxBytes), batches)
    decreases |items|
  {
    if items != [] {
      var rest := items[..|items| - 1];
      var g := Greedy(rest, maxObjects, maxBytes);
      ShortenedCuts(batches, items, maxObjects, maxBytes);
      GreedyStaysAhead(Shortened(batches), rest, maxObjects, maxBytes);
      GreedyCovers(rest, maxObjects, maxBytes);
      if |batches[|batches| - 1]| > 1 && |AllOf(g)| == |batches| {
        SameCountFits(batches, items, maxObjects, maxBytes);
      }
      PushStaysAhead(g, items[|items| - 1], batches, maxObjects, maxBytes);
    }
  }

  lemma SameCountFits(batches: seq<Batch>, items: Batch, maxObjects: nat, maxBytes: nat)
    requires Cuts(batches, items, maxObjects, maxBytes) && items != [] && batches != []
    requires var g, last := Greedy(items[..|items| - 1], maxObjects, maxBytes), batches[|batches| - 1];
             |last| > 1 && |g.open| < |last|
    ensures !Overflows(Greedy(items[..|items| - 1], maxObjects, maxBytes).open, items[|items| - 1], maxObjects, maxBytes)
  {
    var rest, n := items[..|items| - 1], |batches| - 1;
    var g := Greedy(rest, maxObjects, maxBytes);
    assert batches[n] in batches;
    GreedyCovers(rest, maxObjects, maxBytes);
    TailFits(Flatten(g.closed), g.open, Flatten(batches[..n]), batches[n], items, maxObjects, maxBytes);
  }

  /** What is left of a list after its last item is no larger than a longer tail that fits with that item. */
  lemma TailFits(a: Batch, open: Batch, c: Batch, last: Batch, items: Batch, maxObjects: nat, maxBytes: nat)
    requires items == c + last && |last| > 1 && Fits(last, maxObjects, maxBytes)
    requires items[..|items| - 1] == a + open && |open| < |last|
    ensures !Overflows(open, items[|items| - 1], maxObjects, maxBytes)
  {
    var less := last[..|last| - 1];
    DropsLast(items, c, last);
    ShorterTailIsSmaller(items[..|items| - 1], a, open, c, less);
  }

  lemma DropsLast(items: Batch, c: Batch, last: Batch)
    requires items == c + last && last != []
    ensures items[..|items| - 1] == c + last[..|last| - 1] && items[|items| - 1] == last[|last| - 1]
  {
  }

  /** The batches sent are as few as the limits allow. */
  lemma FewestBatches(batches: seq<Batch>, items: Batch, maxObjects: nat, maxBytes: nat)
    requires Cuts(batches, items, maxObjects, maxBytes)
    ensures |Batches(items, maxObjects, maxBytes)| <= |batches|
  {
    GreedyStaysAhead(batches, items, maxObjects, maxBytes);
  }
}
