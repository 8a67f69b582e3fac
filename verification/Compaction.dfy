/** Packing and compaction: every blob moves into exactly one new pack, reads back the payload it had,
    and no blob refers to a pack that was removed. */
module Compaction {
  import opened Basics
  import opened KeyOrder
  import opened PackFormat
  import opened PackWriter

  const SMALL_BLOB_MAX_SIZE: nat := 128 * 1024

  datatype PackConfig = PackConfig(smallTarget: nat, normalTarget: nat)

  // ----- choosing the order -----

  /** One side of a partition, in order. */
  function Filter(list: seq<Blob>, test: Blob -> bool, want: bool): seq<Blob> {
    if list == [] then []
    else (if test(list[0]) == want then [list[0]] else []) + Filter(list[1..], test, want)
  }

  lemma {:induction false} FilterSplits(list: seq<Blob>, test: Blob -> bool)
    ensures multiset(Filter(list, test, true)) + multiset(Filter(list, test, false)) == multiset(list)
  {
    if list != [] {
      FilterSplits(list[1..], test);
      assert list == [list[0]] + list[1..];
    }
  }

  predicate LessOption(a: Option<nat>, b: Option<nat>) {
    b.Some? && (a.None? || a.value < b.value)
  }

  /** The order of the compacting sort: pack, then position, then oid. */
  predicate SortsUpTo(a: Blob, b: Blob) {
    || LessOption(a.pack, b.pack)
    || (a.pack == b.pack && (LessOption(a.offset, b.offset) || (a.offset == b.offset && AtMost(a.oid, b.oid))))
  }

  lemma SortIsTotal(a: Blob, b: Blob)
    ensures SortsUpTo(a, b) || SortsUpTo(b, a)
  {
    BelowIsTotal(a.oid, b.oid);
  }

  lemma SortIsTransitive(a: Blob, b: Blob, c: Blob)
    requires SortsUpTo(a, b) && SortsUpTo(b, c)
    ensures SortsUpTo(a, c)
  {
    if Below(a.oid, b.oid) && Below(b.oid, c.oid) { BelowIsTransitive(a.oid, b.oid, c.oid); }
  }

  ghost predicate Sorted(list: seq<Blob>) {
    forall i, j :: 0 <= i < j < |list| ==> SortsUpTo(list[i], list[j])
  }

  function InsertBlob(list: seq<Blob>, b: Blob): seq<Blob> {
    if list == [] || SortsUpTo(b, list[0]) then [b] + list else [list[0]] + InsertBlob(list[1..], b)
  }

  function SortBlobs(list: seq<Blob>): seq<Blob> {
    if list == [] then [] else InsertBlob(SortBlobs(list[1..]), list[0])
  }

  /** Sorted, blobs of one pack follow each other front to back, and no other pack comes between. */
  lemma ReadsForward(list: seq<Blob>, i: nat, j: nat)
    requires Sorted(list) && i < j < |list| && list[i].pack.Some? && list[i].pack == list[j].pack
    ensures list[i].offset.Some? && list[j].offset.Some? ==> list[i].offset.value <= list[j].offset.value
    ensures forall m :: i <= m <= j ==> list[m].pack == list[i].pack
  {
    forall m | i <= m <= j ensures list[m].pack == list[i].pack {
      assert i < m ==> SortsUpTo(list[i], list[m]);
      assert m < j ==> SortsUpTo(list[m], list[j]);
    }
  }

  lemma {:induction false} InsertBlobSorts(list: seq<Blob>, b: Blob)
    requires Sorted(list)
    ensures Sorted(InsertBlob(list, b)) && multiset(InsertBlob(list, b)) == multiset(list) + multiset{b}
  {
    if list == [] {
    } else if SortsUpTo(b, list[0]) {
      forall j | 0 <= j < |list| ensures SortsUpTo(b, list[j]) {
        if j > 0 { SortIsTransitive(b, list[0], list[j]); }
      }
    } else {
      InsertBlobSorts(list[1..], b);
      SortIsTotal(b, list[0]);
      assert list == [list[0]] + list[1..];
      var rest := InsertBlob(list[1..], b);
      forall j | 0 <= j < |rest| ensures SortsUpTo(list[0], rest[j]) {
        assert rest[j] in multiset(rest);
        assert rest[j] == b || rest[j] in list[1..];
      }
    }
  }

  lemma {:induction false} SortBlobsSorts(list: seq<Blob>)
    ensures Sorted(SortBlobs(list)) && multiset(SortBlobs(list)) == multiset(list)
  {
    if list != [] {
      SortBlobsSorts(list[1..]);
      InsertBlobSorts(SortBlobs(list[1..]), list[0]);
      assert list == [list[0]] + list[1..];
    }
  }

  /** The blobs of one pack are neighbours, so the reader loads each pack once. */
  lemma SortedIsGrouped(list: seq<Blob>, i: nat, j: nat, k: nat)
    requires Sorted(list) && i < j < k < |list| && list[i].pack == list[k].pack
    ensures list[j].pack == list[i].pack
  {
    assert SortsUpTo(list[i], list[j]) && SortsUpTo(list[j], list[k]);
  }

  // ----- every row once -----

  ghost predicate DistinctOids(list: seq<Blob>) {
    forall i, j :: 0 <= i < j < |list| ==> list[i].oid != list[j].oid
  }

  /** `list` has every row once. */
  ghost predicate Covers(list: seq<Blob>, rows: map<Oid, Blob>) {
    && (forall b :: b in list ==> b.oid in rows && rows[b.oid] == b)
    && (forall oid :: oid in rows ==> rows[oid] in list)
    && DistinctOids(list)
  }

  lemma {:induction false} DistinctCountsOnce(list: seq<Blob>, b: Blob)
    requires DistinctOids(list)
    ensures multiset(list)[b] <= 1
  {
    if list != [] {
      DistinctCountsOnce(list[1..], b);
      assert list == [list[0]] + list[1..];
      if list[0] == b { assert b !in list[1..]; }
    }
  }

  lemma RepeatCountsTwice(list: seq<Blob>, i: nat, j: nat)
    requires i < j < |list| && list[i] == list[j]
    ensures multiset(list)[list[i]] >= 2
  {
    assert list == list[..i] + [list[i]] + list[i + 1..];
    assert list[j] == list[i + 1..][j - i - 1];
    assert list[j] in list[i + 1..];
  }

  lemma ReorderedCovers(a: seq<Blob>, b: seq<Blob>, rows: map<Oid, Blob>)
    requires Covers(a, rows) && multiset(a) == multiset(b)
    ensures Covers(b, rows)
  {
    assert forall x :: x in a <==> x in multiset(a);
    assert forall x :: x in b <==> x in multiset(b);
    forall i, j | 0 <= i < j < |b| ensures b[i].oid != b[j].oid {
      assert b[i] in multiset(b) && b[j] in multiset(b);
      if b[i].oid == b[j].oid {
        RepeatCountsTwice(b, i, j);
        DistinctCountsOnce(a, b[i]);
      }
    }
  }

  function IsSmall(b: Blob): bool {
    b.size <= SMALL_BLOB_MAX_SIZE
  }

  /** Small blobs are packed first, then the others. */
  function Tiers(list: seq<Blob>): seq<Blob> {
    Filter(list, IsSmall, true) + Filter(list, IsSmall, false)
  }

  function IsIn(oids: set<Oid>): Blob -> bool {
    (b: Blob) => b.oid in oids
  }

  /** One side of a compaction, in reading order. */
  function Side(list: seq<Blob>, current: set<Oid>, want: bool): seq<Blob> {
    SortBlobs(Filter(list, IsIn(current), want))
  }

  lemma OrderCovers(list: seq<Blob>, current: set<Oid>, rows: map<Oid, Blob>)
    requires Covers(list, rows)
    ensures Covers(Tiers(Side(list, current, true)) + Tiers(Side(list, current, false)), rows)
  {
    FilterSplits(list, IsIn(current));
    SortBlobsSorts(Filter(list, IsIn(current), true));
    SortBlobsSorts(Filter(list, IsIn(current), false));
    FilterSplits(Side(list, current, true), IsSmall);
    FilterSplits(Side(list, current, false), IsSmall);
    ReorderedCovers(list, Tiers(Side(list, current, true)) + Tiers(Side(list, current, false)), rows);
  }

  // ----- moving rows -----

  function Moved(row: Blob, place: Place): Blob {
    row.(pack := Some(place.id), offset := Some(place.entry.offset), len := Some(place.entry.len))
  }

  function MoveOne(rows: map<Oid, Blob>, place: Place): map<Oid, Blob> {
    if place.entry.oid in rows then rows[place.entry.oid := Moved(rows[place.entry.oid], place)] else rows
  }

  function Relocate(rows: map<Oid, Blob>, places: seq<Place>): map<Oid, Blob> {
    if places == [] then rows else MoveOne(Relocate(rows, places[..|places| - 1]), places[|places| - 1])
  }

  ghost predicate DistinctPlaces(places: seq<Place>) {
    forall i, j :: 0 <= i < j < |places| ==> places[i].entry.oid != places[j].entry.oid
  }

  lemma {:induction false} RelocateAt(rows: map<Oid, Blob>, places: seq<Place>, oid: Oid)
    requires DistinctPlaces(places) && oid in rows
    ensures Relocate(rows, places).Keys == rows.Keys
    ensures (forall i :: 0 <= i < |places| ==> places[i].entry.oid != oid) ==> Relocate(rows, places)[oid] == rows[oid]
    ensures forall i :: 0 <= i < |places| && places[i].entry.oid == oid ==> Relocate(rows, places)[oid] == Moved(rows[oid], places[i])
  {
    if places != [] {
      var n := |places| - 1;
      RelocateAt(rows, places[..n], oid);
      assert forall i :: 0 <= i < n ==> places[..n][i] == places[i];
    }
  }

  lemma RelocateSnoc(rows: map<Oid, Blob>, places: seq<Place>, place: Place)
    ensures Relocate(rows, places + [place]) == MoveOne(Relocate(rows, places), place)
  {
    assert (places + [place])[..|places|] == places;
  }

  function Ids(packs: seq<WrittenPack>): set<PackId> {
    if packs == [] then {} else Ids(packs[..|packs| - 1]) + {packs[|packs| - 1].id}
  }

  function AddRows(rows: map<PackId, PackRow>, written: seq<WrittenPack>): map<PackId, PackRow> {
    if written == [] then rows
    else
      var w := written[|written| - 1];
      AddRows(rows, written[..|written| - 1])[w.id := PackRow(|w.entries|, w.size)]
  }

  lemma {:induction false} AddRowsKeys(rows: map<PackId, PackRow>, written: seq<WrittenPack>)
    ensures AddRows(rows, written).Keys == rows.Keys + Ids(written)
  {
    if written != [] { AddRowsKeys(rows, written[..|written| - 1]); }
  }

  lemma {:induction false} IdsAre(written: seq<WrittenPack>, i: nat)
    requires i < |written|
    ensures written[i].id in Ids(written)
  {
    if i < |written| - 1 { IdsAre(written[..|written| - 1], i); }
  }

  /** One transaction: the rows of the new packs, and the new position of each of their blobs. */
  method PersistWrittenPacks(repo: Repository, written: seq<WrittenPack>)
    modifies repo`blobs, repo`packs
    ensures repo.blobs == Relocate(old(repo.blobs), Places(written))
    ensures repo.packs == AddRows(old(repo.packs), written)
  {
    for i := 0 to |written|
      invariant repo.blobs == Relocate(old(repo.blobs), Places(written[..i]))
      invariant repo.packs == AddRows(old(repo.packs), written[..i])
    {
      var w := written[i];
      PersistsMore(old(repo.blobs), old(repo.packs), written, i);
      repo.packs := repo.packs[w.id := PackRow(|w.entries|, w.size)];
      MoveBlobs(repo, w);
    }
    assert written[..|written|] == written;
  }

  lemma PersistsMore(blobs: map<Oid, Blob>, packs: map<PackId, PackRow>, written: seq<WrittenPack>, i: nat)
    requires i < |written|
    ensures var w := written[i];
            && Relocate(blobs, Places(written[..i + 1])) == Relocate(Relocate(blobs, Places(written[..i])), Tagged(w.id, w.entries))
            && AddRows(packs, written[..i + 1]) == AddRows(packs, written[..i])[w.id := PackRow(|w.entries|, w.size)]
  {
    var before, w := written[..i], written[i];
    assert written[..i + 1] == before + [w];
    PlacesSnoc(before, w);
    RelocateConcat(blobs, Places(before), Tagged(w.id, w.entries));
    AddRowsSnoc(packs, before, w);
  }

  lemma AddRowsSnoc(rows: map<PackId, PackRow>, written: seq<WrittenPack>, w: WrittenPack)
    ensures AddRows(rows, written + [w]) == AddRows(rows, written)[w.id := PackRow(|w.entries|, w.size)]
  {
    var longer := written + [w];
    assert longer[..|longer| - 1] == written && longer[|longer| - 1] == w;
  }

  method MoveBlobs(repo: Repository, w: WrittenPack)
    modifies repo`blobs
    ensures repo.blobs == Relocate(old(repo.blobs), Tagged(w.id, w.entries))
  {
    ghost var places := Tagged(w.id, w.entries);
    for j := 0 to |w.entries|
      invariant repo.blobs == Relocate(old(repo.blobs), places[..j])
    {
      RelocateSnoc(old(repo.blobs), places[..j], places[j]);
      assert places[..j + 1] == places[..j] + [places[j]];
      repo.blobs := MoveOne(repo.blobs, Place(w.id, w.entries[j]));
    }
    assert places[..|w.entries|] == places;
  }

  lemma {:induction false} RelocateConcat(rows: map<Oid, Blob>, a: seq<Place>, b: seq<Place>)
    ensures Relocate(rows, a + b) == Relocate(Relocate(rows, a), b)
  {
    if b == [] {
      assert a + b == a;
    } else {
      var n := |b| - 1;
      RelocateConcat(rows, a, b[..n]);
      RelocateSnoc(rows, a + b[..n], b[n]);
      assert a + b == a + b[..n] + [b[n]];
    }
  }

  // ----- writing the tiers -----

  ghost predicate Within(places: seq<Place>, start: PackId, next: PackId) {
    forall i :: 0 <= i < |places| ==> start <= places[i].id < next
  }

  lemma {:induction false} PlacesWithin(packs: seq<WrittenPack>, start: PackId, next: PackId)
    requires forall i :: 0 <= i < |packs| ==> start <= packs[i].id < next
    ensures Within(Places(packs), start, next)
    ensures forall i :: 0 <= i < |Places(packs)| ==> Places(packs)[i].id in Ids(packs)
    ensures forall id :: id in Ids(packs) ==> start <= id < next
  {
    if packs != [] { PlacesWithin(packs[..|packs| - 1], start, next); }
  }

  lemma {:induction false} PlacesConcat(a: seq<WrittenPack>, b: seq<WrittenPack>)
    ensures Places(a + b) == Places(a) + Places(b) && Ids(a + b) == Ids(a) + Ids(b)
    decreases |b|
  {
    if b == [] {
      assert a + b == a;
    } else {
      var n := |b| - 1;
      var last := b[n];
      PlacesConcat(a, b[..n]);
      SnocLast(a, b);
      PlacesSnoc(a + b[..n], last);
      PlacesSnoc(b[..n], last);
      IdsSnoc(a + b[..n], last);
      IdsSnoc(b[..n], last);
      JoinIsAssociative(Places(a), Places(b[..n]), Tagged(last.id, last.entries));
    }
  }

  lemma SnocLast(a: seq<WrittenPack>, b: seq<WrittenPack>)
    requires b != []
    ensures b == b[..|b| - 1] + [b[|b| - 1]] && a + b == (a + b[..|b| - 1]) + [b[|b| - 1]]
  {
  }

  lemma IdsSnoc(packs: seq<WrittenPack>, pack: WrittenPack)
    ensures Ids(packs + [pack]) == Ids(packs) + {pack.id}
  {
    var longer := packs + [pack];
    assert longer[..|longer| - 1] == packs && longer[|longer| - 1] == pack;
  }

  lemma JoinIsAssociative(a: seq<Place>, b: seq<Place>, c: seq<Place>)
    ensures (a + b) + c == a + (b + c)
  {
  }

  /** The packs hold the blobs of `list`, and have ids from `start` up to `next`. */
  ghost predicate Stocked(codec: Codec, home: Home, rows: set<PackId>, list: seq<Blob>, files: map<PackId, Bytes>,
                          packs: seq<WrittenPack>, start: PackId, next: PackId)
  {
    && Placed(codec, home, rows, list, files, Places(packs)) && Within(Places(packs), start, next)
    && (forall id :: id in Ids(packs) ==> start <= id < next)
    && (forall i :: 0 <= i < |Places(packs)| ==> Places(packs)[i].id in Ids(packs))
  }

  lemma HoldsLater(files: map<PackId, Bytes>, later: map<PackId, Bytes>, start: PackId, place: Place, stored: Bytes)
    requires HoldsAt(files, place, stored) && SameBelow(files, later, start) && place.id < start
    ensures HoldsAt(later, place, stored)
  {
    assert Lookup(later, place.id) == Lookup(files, place.id);
  }

  lemma StockedConcat(codec: Codec, home: Home, rows: set<PackId>, list1: seq<Blob>, list2: seq<Blob>,
                      files: map<PackId, Bytes>, later: map<PackId, Bytes>,
                      packs1: seq<WrittenPack>, packs2: seq<WrittenPack>, start: PackId, mid: PackId, next: PackId)
    requires Stocked(codec, home, rows, list1, files, packs1, start, mid) && SameBelow(files, later, mid)
    requires Stocked(codec, home, rows, list2, later, packs2, mid, next) && start <= mid <= next
    ensures Stocked(codec, home, rows, list1 + list2, later, packs1 + packs2, start, next)
  {
    PlacesConcat(packs1, packs2);
    var a, b, list := Places(packs1), Places(packs2), list1 + list2;
    var all := a + b;
    forall i | 0 <= i < |list|
      ensures var payload := CompactRead(codec, home, rows, list[i]);
              all[i].entry.oid == list[i].oid && payload.Ok? && HoldsAt(later, all[i], codec.encode(payload.value))
    {
      if i < |list1| {
        assert list[i] == list1[i];
        HoldsLater(files, later, mid, a[i], codec.encode(CompactRead(codec, home, rows, list1[i]).value));
      } else {
        assert list[i] == list2[i - |list1|];
      }
    }
  }

  ghost predicate Unreadable(codec: Codec, home: Home, rows: set<PackId>, list: seq<Blob>) {
    exists b :: b in list && CompactRead(codec, home, rows, b).Err?
  }

  ghost predicate OldRows(list: seq<Blob>, start: PackId) {
    forall b :: b in list && b.pack.Some? ==> b.pack.value < start
  }

  lemma Rebase(codec: Codec, home: Home, now: Home, start: PackId, rows: set<PackId>, list: seq<Blob>)
    requires Extends(home, now, start) && OldRows(list, start)
    ensures forall i :: 0 <= i < |list| ==> CompactRead(codec, now, rows, list[i]) == CompactRead(codec, home, rows, list[i])
  {
    forall i | 0 <= i < |list| ensures CompactRead(codec, now, rows, list[i]) == CompactRead(codec, home, rows, list[i]) {
      assert list[i] in list;
      ReadIsStable(codec, home, now, start, rows, list[i]);
    }
  }

  lemma ExtendsChain(a: Home, b: Home, c: Home, start: PackId, next: PackId)
    requires Extends(a, b, start) && Extends(b, c, next) && start <= next
    ensures Extends(a, c, start)
  {
    forall id: PackId | id < start ensures Lookup(c.packs, id) == Lookup(a.packs, id) {
      assert Lookup(c.packs, id) == Lookup(b.packs, id);
    }
  }

  /** Each pack file is tiled by its records, and is within the target unless it has a single one. */
  ghost predicate AllSealed(packs: seq<WrittenPack>, files: map<PackId, Bytes>, target: nat) {
    forall i :: 0 <= i < |packs| ==> Sealed(packs[i], files, target)
  }

  /** Every record of the packs belongs to one of `oids`. */
  ghost predicate HoldsOnly(packs: seq<WrittenPack>, oids: set<Oid>) {
    forall j :: 0 <= j < |Places(packs)| ==> Places(packs)[j].entry.oid in oids
  }

  /** Blobs of at most 128 KiB, or the others. */
  ghost function OfTier(rows: map<Oid, Blob>, small: bool): set<Oid> {
    set oid | oid in rows && (rows[oid].size <= 131072 <==> small)
  }

  ghost predicate FromRows(list: seq<Blob>, rows: map<Oid, Blob>) {
    forall b :: b in list ==> b.oid in rows && rows[b.oid] == b
  }

  ghost predicate TiersAt(packs: seq<WrittenPack>, n: nat, files: map<PackId, Bytes>, config: PackConfig, rows: map<Oid, Blob>)
    requires n <= |packs|
  {
    && AllSealed(packs[..n], files, Max(config.smallTarget, 1)) && HoldsOnly(packs[..n], OfTier(rows, true))
    && AllSealed(packs[n..], files, Max(config.normalTarget, 1)) && HoldsOnly(packs[n..], OfTier(rows, false))
  }

  /** Packs of small blobs, then packs of the others, each within the target of its tier. */
  ghost predicate TwoTiers(packs: seq<WrittenPack>, files: map<PackId, Bytes>, config: PackConfig, rows: map<Oid, Blob>) {
    exists n :: 0 <= n <= |packs| && TiersAt(packs, n, files, config, rows)
  }

  lemma NoTiers(files: map<PackId, Bytes>, config: PackConfig, rows: map<Oid, Blob>)
    ensures TwoTiers([], files, config, rows)
  {
    var none: seq<WrittenPack> := [];
    assert none[..0] == none[0..] == [] && Places(none) == [];
    assert TiersAt(none, 0, files, config, rows);
  }

  /** Packs stocked from a list hold only what is on it. */
  lemma StockedHoldsOnly(codec: Codec, home: Home, ids: set<PackId>, list: seq<Blob>, files: map<PackId, Bytes>,
                         packs: seq<WrittenPack>, start: PackId, next: PackId, oids: set<Oid>)
    requires Stocked(codec, home, ids, list, files, packs, start, next) && forall b :: b in list ==> b.oid in oids
    ensures HoldsOnly(packs, oids)
  {
    forall j | 0 <= j < |Places(packs)| ensures Places(packs)[j].entry.oid in oids { assert list[j] in list; }
  }

  lemma TierIsOfTier(list: seq<Blob>, rows: map<Oid, Blob>, small: bool)
    requires FromRows(list, rows)
    ensures forall b :: b in Filter(list, IsSmall, small) ==> b.oid in OfTier(rows, small)
  {
    forall b | b in Filter(list, IsSmall, small) ensures b.oid in OfTier(rows, small) { FilterTells(list, IsSmall, small, b); }
  }

  lemma {:induction false} FilterTells(list: seq<Blob>, test: Blob -> bool, want: bool, b: Blob)
    requires b in Filter(list, test, want)
    ensures b in list && test(b) == want
  {
    if list != [] {
      assert list == [list[0]] + list[1..];
      if b in Filter(list[1..], test, want) { FilterTells(list[1..], test, want, b); }
    }
  }

  lemma TiersConcat(small: seq<WrittenPack>, normal: seq<WrittenPack>, files: map<PackId, Bytes>, later: map<PackId, Bytes>,
                    mid: PackId, config: PackConfig, rows: map<Oid, Blob>)
    requires AllSealed(small, files, Max(config.smallTarget, 1)) && AllSealed(normal, later, Max(config.normalTarget, 1))
    requires HoldsOnly(small, OfTier(rows, true)) && HoldsOnly(normal, OfTier(rows, false))
    requires SameBelow(files, later, mid) && forall id :: id in Ids(small) ==> id < mid
    ensures TwoTiers(small + normal, later, config, rows)
  {
    forall i | 0 <= i < |small| ensures Sealed(small[i], later, Max(config.smallTarget, 1)) {
      IdsAre(small, i);
      assert Lookup(later, small[i].id) == Lookup(files, small[i].id);
    }
    var packs := small + normal;
    assert packs[..|small|] == small && packs[|small|..] == normal;
    assert TiersAt(packs, |small|, later, config, rows);
  }

  /** One tier. Payloads are those of `home`, the state before the first pack was written. */
  method WriteTier(repo: Repository, reader: CompactPayloadReader, ghost home: Home, ghost start: PackId,
                   list: seq<Blob>, limit: nat)
    returns (r: Result<seq<WrittenPack>>)
    requires repo.Valid() && reader.repo == repo && reader.Valid() && reader.Below(repo.next) && start <= repo.next
    requires OldRows(list, start) && Extends(home, repo.CurrentHome(), start)
    modifies repo`packFiles, repo`next, reader
    ensures repo.Valid() && reader.Valid() && reader.Below(repo.next) && old(repo.next) <= repo.next
    ensures Extends(home, repo.CurrentHome(), start) && SameBelow(old(repo.packFiles), repo.packFiles, old(repo.next))
    ensures r.Err? <==> Unreadable(repo.codec, home, reader.rows, list)
    ensures r.Ok? ==> Stocked(repo.codec, home, reader.rows, list, repo.packFiles, r.value, old(repo.next), repo.next)
    ensures r.Ok? ==> AllSealed(r.value, repo.packFiles, Max(limit, 1))
  {
    ghost var now, mid := repo.CurrentHome(), repo.next;
    Rebase(repo.codec, home, now, start, reader.rows, list);
    assert forall i :: 0 <= i < |list| ==> list[i] in list;
    r := repo.WriteBlobPacks(reader, list, limit);
    ExtendsChain(home, now, repo.CurrentHome(), start, mid);
    if r.Ok? { PlacesWithin(r.value, mid, repo.next); }
  }

  /** Both tiers of one list. */
  method WriteTieredBlobPacks(repo: Repository, reader: CompactPayloadReader, ghost home: Home, ghost start: PackId,
                              list: seq<Blob>, config: PackConfig, ghost all: map<Oid, Blob>)
    returns (r: Result<seq<WrittenPack>>)
    requires repo.Valid() && reader.repo == repo && reader.Valid() && reader.Below(repo.next) && start <= repo.next
    requires OldRows(list, start) && Extends(home, repo.CurrentHome(), start)
    requires FromRows(list, all)
    modifies repo`packFiles, repo`next, reader
    ensures repo.Valid() && reader.Valid() && reader.Below(repo.next) && old(repo.next) <= repo.next
    ensures Extends(home, repo.CurrentHome(), start) && SameBelow(old(repo.packFiles), repo.packFiles, old(repo.next))
    ensures r.Err? <==> Unreadable(repo.codec, home, reader.rows, list)
    ensures r.Ok? ==> Stocked(repo.codec, home, reader.rows, Tiers(list), repo.packFiles, r.value, old(repo.next), repo.next)
    ensures r.Ok? ==> TwoTiers(r.value, repo.packFiles, config, all)
  {
    FilterMembers(list, IsSmall);
    var first := WriteTier(repo, reader, home, start, Filter(list, IsSmall, true), config.smallTarget);
    if first.Err? { return Err; }
    ghost var files, mid := repo.packFiles, repo.next;
    var second := WriteTier(repo, reader, home, start, Filter(list, IsSmall, false), config.normalTarget);
    SameBelowChain(old(repo.packFiles), files, repo.packFiles, old(repo.next), mid);
    if second.Err? { return Err; }
    StockedConcat(repo.codec, home, reader.rows, Filter(list, IsSmall, true), Filter(list, IsSmall, false),
                  files, repo.packFiles, first.value, second.value, old(repo.next), mid, repo.next);
    TierIsOfTier(list, all, true);
    TierIsOfTier(list, all, false);
    StockedHoldsOnly(repo.codec, home, reader.rows, Filter(list, IsSmall, true), files, first.value, old(repo.next), mid,
                     OfTier(all, true));
    StockedHoldsOnly(repo.codec, home, reader.rows, Filter(list, IsSmall, false), repo.packFiles, second.value, mid, repo.next,
                     OfTier(all, false));
    TiersConcat(first.value, second.value, files, repo.packFiles, mid, config, all);
    r := Ok(first.value + second.value);
  }

  lemma SameBelowChain(a: map<PackId, Bytes>, b: map<PackId, Bytes>, c: map<PackId, Bytes>, start: PackId, next: PackId)
    requires SameBelow(a, b, start) && SameBelow(b, c, next) && start <= next
    ensures SameBelow(a, c, start)
  {
    forall id: PackId | id < start ensures Lookup(c, id) == Lookup(a, id) {
      assert Lookup(c, id) == Lookup(b, id);
    }
  }

  lemma FilterMembers(list: seq<Blob>, test: Blob -> bool)
    ensures forall b :: b in list <==> b in Filter(list, test, true) || b in Filter(list, test, false)
  {
    FilterSplits(list, test);
    var yes, no := Filter(list, test, true), Filter(list, test, false);
    forall b ensures b in list <==> b in yes || b in no {
      assert b in list <==> b in multiset(list);
      assert b in yes <==> b in multiset(yes);
      assert b in no <==> b in multiset(no);
    }
  }

  // ----- a row after the move -----

  ghost predicate Fits(codec: Codec, payload: Bytes) {
    |codec.encode(payload)| < Power256(LENGTH_WIDTH)
  }

  /** The moved row reads back the payload from the new pack. */
  lemma MovedReadsBack(codec: Codec, home: Home, rows: set<PackId>, row: Blob, place: Place, payload: Bytes)
    requires Lossless(codec) && Fits(codec, payload) && place.id in rows
    requires HoldsAt(home.packs, place, codec.encode(payload))
    ensures ReadBlobPayload(codec, home, rows, Moved(row, place)) == Ok(payload)
  {
    var slice := home.packs[place.id][place.entry.offset..place.entry.offset + place.entry.len];
    RecordReadsBack(slice, codec.encode(payload));
  }

  ghost predicate Listed(list: seq<Blob>, rows: map<Oid, Blob>) {
    DistinctOids(list) && forall b :: b in list ==> b.oid in rows && rows[b.oid] == b
  }

  /** The row is in one of the packs `ids`, is otherwise the same, and reads as it did. */
  ghost predicate RowRepacked(codec: Codec, home: Home, oldRows: set<PackId>, row: Blob,
                              home2: Home, newRows: set<PackId>, row2: Blob, ids: set<PackId>)
  {
    && row2 == row.(pack := row2.pack, offset := row2.offset, len := row2.len)
    && row2.pack.Some? && row2.pack.value in ids
    && CompactRead(codec, home, oldRows, row).Ok?
    && ReadBlobPayload(codec, home2, newRows, row2) == CompactRead(codec, home, oldRows, row)
  }

  /** What packing does to the rows: those in `moved` move, the others are untouched. */
  ghost predicate Repacked(codec: Codec, home: Home, oldRows: set<PackId>, blobs: map<Oid, Blob>,
                           home2: Home, newRows: set<PackId>, blobs2: map<Oid, Blob>, moved: set<Oid>, ids: set<PackId>)
  {
    && blobs2.Keys == blobs.Keys
    && forall oid :: oid in blobs ==>
         if oid in moved then RowRepacked(codec, home, oldRows, blobs[oid], home2, newRows, blobs2[oid], ids)
         else blobs2[oid] == blobs[oid]
  }

  ghost predicate AllFit(codec: Codec, home: Home, rows: set<PackId>, list: seq<Blob>) {
    forall b :: b in list && CompactRead(codec, home, rows, b).Ok? ==> Fits(codec, CompactRead(codec, home, rows, b).value)
  }

  lemma ListedRowMoves(codec: Codec, home: Home, oldRows: set<PackId>, blobs: map<Oid, Blob>, home2: Home,
                       newRows: set<PackId>, list: seq<Blob>, places: seq<Place>, i: nat)
    requires Lossless(codec) && AllFit(codec, home, oldRows, list) && i < |list| && DistinctPlaces(places)
    requires Placed(codec, home, oldRows, list, home2.packs, places) && places[i].id in newRows
    requires list[i].oid in blobs && blobs[list[i].oid] == list[i]
    ensures var moved := Moved(list[i], places[i]);
            Relocate(blobs, places).Keys == blobs.Keys && Relocate(blobs, places)[list[i].oid] == moved
            && RowRepacked(codec, home, oldRows, list[i], home2, newRows, moved, {places[i].id})
  {
    assert list[i] in list;
    RelocateAt(blobs, places, list[i].oid);
    MovedReadsBack(codec, home2, newRows, list[i], places[i], CompactRead(codec, home, oldRows, list[i]).value);
  }

  lemma RelocationRepacks(codec: Codec, home: Home, oldRows: set<PackId>, blobs: map<Oid, Blob>, home2: Home,
                          newRows: set<PackId>, list: seq<Blob>, moved: set<Oid>, packs: seq<WrittenPack>,
                          start: PackId, next: PackId)
    requires Lossless(codec) && AllFit(codec, home, oldRows, list) && Listed(list, blobs) && Ids(packs) <= newRows
    requires forall oid :: oid in blobs ==> blobs[oid].oid == oid && (oid in moved <==> blobs[oid] in list)
    requires Stocked(codec, home, oldRows, list, home2.packs, packs, start, next)
    ensures Repacked(codec, home, oldRows, blobs, home2, newRows, Relocate(blobs, Places(packs)), moved, Ids(packs))
  {
    var places := Places(packs);
    PlacesAreDistinct(codec, home, oldRows, list, home2.packs, places);
    RelocateKeys(blobs, places);
    forall oid | oid in blobs
      ensures if oid in moved
              then RowRepacked(codec, home, oldRows, blobs[oid], home2, newRows, Relocate(blobs, places)[oid], Ids(packs))
              else Relocate(blobs, places)[oid] == blobs[oid]
    {
      if oid in moved {
        var i :| 0 <= i < |list| && list[i] == blobs[oid];
        ListedRowMoves(codec, home, oldRows, blobs, home2, newRows, list, places, i);
      } else {
        UnlistedStays(codec, home, oldRows, blobs, home2.packs, list, places, oid);
      }
    }
  }

  lemma PlacesAreDistinct(codec: Codec, home: Home, rows: set<PackId>, list: seq<Blob>, files: map<PackId, Bytes>, places: seq<Place>)
    requires Placed(codec, home, rows, list, files, places) && DistinctOids(list)
    ensures DistinctPlaces(places)
  {
  }

  lemma UnlistedStays(codec: Codec, home: Home, rows: set<PackId>, blobs: map<Oid, Blob>, files: map<PackId, Bytes>,
                      list: seq<Blob>, places: seq<Place>, oid: Oid)
    requires Placed(codec, home, rows, list, files, places) && Listed(list, blobs) && DistinctPlaces(places)
    requires oid in blobs && blobs[oid] !in list
    ensures Relocate(blobs, places).Keys == blobs.Keys && Relocate(blobs, places)[oid] == blobs[oid]
  {
    RelocateAt(blobs, places, oid);
    forall i | 0 <= i < |places| ensures places[i].entry.oid != oid { assert list[i] in list; }
  }

  lemma {:induction false} RelocateKeys(rows: map<Oid, Blob>, places: seq<Place>)
    ensures Relocate(rows, places).Keys == rows.Keys
  {
    if places != [] { RelocateKeys(rows, places[..|places| - 1]); }
  }

  // ----- the commands -----

  /** All rows, in the order of their oids. */
  method QueryBlobs(repo: Repository) returns (list: seq<Blob>)
    requires repo.Valid()
    ensures Covers(list, repo.blobs)
  {
    var oids := Sort(repo.blobs.Keys);
    forall i | 0 <= i < |oids| ensures oids[i] in repo.blobs { assert oids[i] in Elements(oids); }
    var rows := repo.blobs;
    list := seq(|oids|, i requires 0 <= i < |oids| && oids[i] in rows => rows[oids[i]]);
    forall oid | oid in rows ensures rows[oid] in list {
      assert oid in Elements(oids);
      var i :| 0 <= i < |oids| && oids[i] == oid;
      assert list[i] == rows[oid];
    }
    forall i, j | 0 <= i < j < |list| ensures list[i].oid != list[j].oid { BelowIsAsymmetric(oids[i], oids[j]); }
  }

  ghost predicate SidesAt(packs: seq<WrittenPack>, n: nat, files: map<PackId, Bytes>, config: PackConfig, rows: map<Oid, Blob>,
                          current: set<Oid>)
    requires n <= |packs|
  {
    && TwoTiers(packs[..n], files, config, rows) && HoldsOnly(packs[..n], rows.Keys * current)
    && TwoTiers(packs[n..], files, config, rows) && HoldsOnly(packs[n..], rows.Keys - current)
  }

  /** Both tiers of the current snapshot's blobs, then both tiers of the others. */
  ghost predicate TwoSides(packs: seq<WrittenPack>, files: map<PackId, Bytes>, config: PackConfig, rows: map<Oid, Blob>,
                           current: set<Oid>)
  {
    exists n :: 0 <= n <= |packs| && SidesAt(packs, n, files, config, rows, current)
  }

  lemma SealedLater(packs: seq<WrittenPack>, files: map<PackId, Bytes>, later: map<PackId, Bytes>, mid: PackId, target: nat)
    requires AllSealed(packs, files, target) && SameBelow(files, later, mid) && forall i :: 0 <= i < |packs| ==> packs[i].id < mid
    ensures AllSealed(packs, later, target)
  {
    forall i | 0 <= i < |packs| ensures Sealed(packs[i], later, target) {
      assert Lookup(later, packs[i].id) == Lookup(files, packs[i].id);
    }
  }

  lemma TiersLater(packs: seq<WrittenPack>, files: map<PackId, Bytes>, later: map<PackId, Bytes>, mid: PackId, config: PackConfig,
                   rows: map<Oid, Blob>)
    requires TwoTiers(packs, files, config, rows) && SameBelow(files, later, mid) && forall id :: id in Ids(packs) ==> id < mid
    ensures TwoTiers(packs, later, config, rows)
  {
    forall i | 0 <= i < |packs| ensures packs[i].id < mid { IdsAre(packs, i); }
    var n :| 0 <= n <= |packs| && TiersAt(packs, n, files, config, rows);
    SealedLater(packs[..n], files, later, mid, Max(config.smallTarget, 1));
    SealedLater(packs[n..], files, later, mid, Max(config.normalTarget, 1));
    assert TiersAt(packs, n, later, config, rows);
  }

  lemma SidesConcat(first: seq<WrittenPack>, second: seq<WrittenPack>, files: map<PackId, Bytes>, later: map<PackId, Bytes>,
                    mid: PackId, config: PackConfig, rows: map<Oid, Blob>, current: set<Oid>)
    requires TwoTiers(first, files, config, rows) && TwoTiers(second, later, config, rows)
    requires HoldsOnly(first, rows.Keys * current) && HoldsOnly(second, rows.Keys - current)
    requires SameBelow(files, later, mid) && forall id :: id in Ids(first) ==> id < mid
    ensures TwoSides(first + second, later, config, rows, current)
  {
    TiersLater(first, files, later, mid, config, rows);
    var packs := first + second;
    assert packs[..|first|] == first && packs[|first|..] == second;
    assert SidesAt(packs, |first|, later, config, rows, current);
  }

  /** Both sides of a compaction: what the current snapshot uses, then the history. */
  method WriteSides(repo: Repository, reader: CompactPayloadReader, list: seq<Blob>, current: set<Oid>, config: PackConfig,
                    ghost all: map<Oid, Blob>)
    returns (r: Result<seq<WrittenPack>>)
    requires repo.Valid() && reader.repo == repo && reader.Valid() && reader.Below(repo.next) && OldRows(list, repo.next)
    requires FromRows(list, all)
    modifies repo`packFiles, repo`next, reader
    ensures repo.Valid() && old(repo.next) <= repo.next && Extends(old(repo.CurrentHome()), repo.CurrentHome(), old(repo.next))
    ensures r.Err? <==> Unreadable(repo.codec, old(repo.CurrentHome()), reader.rows, list)
    ensures r.Ok? ==> Stocked(repo.codec, old(repo.CurrentHome()), reader.rows,
                              Tiers(Side(list, current, true)) + Tiers(Side(list, current, false)),
                              repo.packFiles, r.value, old(repo.next), repo.next)
    ensures r.Ok? ==> TwoSides(r.value, repo.packFiles, config, all, current)
  {
    ghost var home, start := repo.CurrentHome(), repo.next;
    SideMembers(list, current);
    var first := WriteTieredBlobPacks(repo, reader, home, start, Side(list, current, true), config, all);
    if first.Err? { return Err; }
    ghost var files, mid := repo.packFiles, repo.next;
    var second := WriteTieredBlobPacks(repo, reader, home, start, Side(list, current, false), config, all);
    if second.Err? { return Err; }
    StockedConcat(repo.codec, home, reader.rows, Tiers(Side(list, current, true)), Tiers(Side(list, current, false)),
                  files, repo.packFiles, first.value, second.value, start, mid, repo.next);
    SideTells(list, current, all);
    StockedHoldsOnly(repo.codec, home, reader.rows, Tiers(Side(list, current, true)), files, first.value, start, mid, all.Keys * current);
    StockedHoldsOnly(repo.codec, home, reader.rows, Tiers(Side(list, current, false)), repo.packFiles, second.value, mid, repo.next,
                     all.Keys - current);
    SidesConcat(first.value, second.value, files, repo.packFiles, mid, config, all, current);
    r := Ok(first.value + second.value);
  }

  /** The first side is the current snapshot's, the second has nothing of it. */
  lemma SideTells(list: seq<Blob>, current: set<Oid>, rows: map<Oid, Blob>)
    requires FromRows(list, rows)
    ensures forall b :: b in Tiers(Side(list, current, true)) ==> b.oid in rows.Keys * current
    ensures forall b :: b in Tiers(Side(list, current, false)) ==> b.oid in rows.Keys - current
  {
    OneSideTells(list, current, true);
    OneSideTells(list, current, false);
  }

  lemma OneSideTells(list: seq<Blob>, current: set<Oid>, want: bool)
    ensures forall b :: b in Tiers(Side(list, current, want)) ==> b in list && (b.oid in current) == want
  {
    var picked := Filter(list, IsIn(current), want);
    SortBlobsSorts(picked);
    FilterMembers(Side(list, current, want), IsSmall);
    forall b | b in Tiers(Side(list, current, want)) ensures b in list && (b.oid in current) == want {
      assert b in Side(list, current, want);
      assert b in multiset(SortBlobs(picked)) && b in multiset(picked);
      FilterTells(list, IsIn(current), want, b);
    }
  }

  lemma SideMembers(list: seq<Blob>, current: set<Oid>)
    ensures forall b :: b in list <==> b in Side(list, current, true) || b in Side(list, current, false)
  {
    FilterMembers(list, IsIn(current));
    var yes, no := Filter(list, IsIn(current), true), Filter(list, IsIn(current), false);
    SortBlobsSorts(yes);
    SortBlobsSorts(no);
    forall b ensures (b in SortBlobs(yes) <==> b in yes) && (b in SortBlobs(no) <==> b in no) {
      assert b in SortBlobs(yes) <==> b in multiset(SortBlobs(yes));
      assert b in SortBlobs(no) <==> b in multiset(SortBlobs(no));
      assert b in yes <==> b in multiset(yes);
      assert b in no <==> b in multiset(no);
    }
  }

  /** Record the new packs and forget the old ones. */
  method Install(repo: Repository, written: seq<WrittenPack>, oldIds: set<PackId>)
    modifies repo`blobs, repo`packs
    ensures repo.blobs == Relocate(old(repo.blobs), Places(written))
    ensures repo.packs.Keys == old(repo.packs.Keys) + Ids(written) - (oldIds - Ids(written))
  {
    PersistWrittenPacks(repo, written);
    AddRowsKeys(old(repo.packs), written);
    repo.packs := repo.packs - (oldIds - Ids(written));
  }

  ghost predicate RowsFit(codec: Codec, home: Home, rows: set<PackId>, blobs: map<Oid, Blob>) {
    forall oid :: oid in blobs ==> AllFit(codec, home, rows, [blobs[oid]])
  }

  ghost predicate RowUnreadable(codec: Codec, home: Home, rows: set<PackId>, blobs: map<Oid, Blob>) {
    exists oid :: oid in blobs && CompactRead(codec, home, rows, blobs[oid]).Err?
  }

  predicate AnyPacked(blobs: map<Oid, Blob>) {
    exists oid :: oid in blobs && blobs[oid].pack.Some?
  }

  /** Compaction rewrites every blob, packed or loose. It fails, changing no row, exactly when some
      blob cannot be read. Otherwise each blob has one entry in one new pack and reads the payload it
      had, and only new packs are left on record. Without a packed blob there is nothing to do. */
  method PackCompact(repo: Repository, current: set<Oid>, config: PackConfig) returns (r: Result<seq<WrittenPack>>)
    requires repo.Valid() && Lossless(repo.codec) && RowsFit(repo.codec, repo.CurrentHome(), repo.packs.Keys, repo.blobs)
    modifies repo
    ensures repo.Valid() && Extends(old(repo.CurrentHome()), repo.CurrentHome(), old(repo.next))
    ensures !AnyPacked(old(repo.blobs)) || r.Err? ==> repo.blobs == old(repo.blobs) && repo.packs == old(repo.packs)
    ensures r.Err? <==> AnyPacked(old(repo.blobs))
                        && RowUnreadable(repo.codec, old(repo.CurrentHome()), old(repo.packs.Keys), old(repo.blobs))
    ensures r.Ok? && AnyPacked(old(repo.blobs)) ==>
              && Compacted(repo.codec, old(repo.CurrentHome()), old(repo.packs.Keys), old(repo.blobs),
                           repo.CurrentHome(), repo.packs.Keys, repo.blobs, r.value)
              && repo.packs.Keys !! old(repo.packs.Keys)
              && TwoSides(r.value, repo.packFiles, config, old(repo.blobs), current)
  {
    if !AnyPacked(repo.blobs) { return Ok([]); }
    var list := QueryBlobs(repo);
    var reader := new CompactPayloadReader(repo);
    r := Rewrite(repo, reader, list, current, config);
  }

  method Rewrite(repo: Repository, reader: CompactPayloadReader, list: seq<Blob>, current: set<Oid>, config: PackConfig)
    returns (r: Result<seq<WrittenPack>>)
    requires repo.Valid() && Lossless(repo.codec) && RowsFit(repo.codec, repo.CurrentHome(), repo.packs.Keys, repo.blobs)
    requires reader.repo == repo && reader.rows == repo.packs.Keys && reader.Valid() && reader.Below(repo.next)
    requires Covers(list, repo.blobs)
    modifies repo, reader
    ensures repo.Valid() && Extends(old(repo.CurrentHome()), repo.CurrentHome(), old(repo.next))
    ensures r.Err? ==> repo.blobs == old(repo.blobs) && repo.packs == old(repo.packs)
    ensures r.Err? <==> RowUnreadable(repo.codec, old(repo.CurrentHome()), old(repo.packs.Keys), old(repo.blobs))
    ensures r.Ok? ==>
              && Compacted(repo.codec, old(repo.CurrentHome()), old(repo.packs.Keys), old(repo.blobs),
                           repo.CurrentHome(), repo.packs.Keys, repo.blobs, r.value)
              && repo.packs.Keys !! old(repo.packs.Keys)
              && TwoSides(r.value, repo.packFiles, config, old(repo.blobs), current)
  {
    var oldIds := repo.packs.Keys;
    ghost var home, start, rows := repo.CurrentHome(), repo.next, repo.blobs;
    CoverReads(repo.codec, home, oldIds, list, rows);
    r := WriteSides(repo, reader, list, current, config, rows);
    if r.Err? { return; }
    Install(repo, r.value, oldIds);
    assert forall id :: id in Ids(r.value) ==> id >= start;
    assert repo.packs.Keys == Ids(r.value);
    CompactionIsRight(repo.codec, home, oldIds, rows, repo.CurrentHome(), list, current, r.value, start, repo.next);
  }

  lemma CoverReads(codec: Codec, home: Home, rows: set<PackId>, list: seq<Blob>, blobs: map<Oid, Blob>)
    requires Covers(list, blobs)
    ensures Unreadable(codec, home, rows, list) <==> RowUnreadable(codec, home, rows, blobs)
  {
  }

  /** Every blob has one entry in one recorded pack, and reads as before. */
  ghost predicate Compacted(codec: Codec, home: Home, oldRows: set<PackId>, blobs: map<Oid, Blob>,
                            home2: Home, newRows: set<PackId>, blobs2: map<Oid, Blob>, written: seq<WrittenPack>)
  {
    && blobs2.Keys == blobs.Keys && newRows == Ids(written)
    && (forall oid :: oid in blobs ==> RowRepacked(codec, home, oldRows, blobs[oid], home2, newRows, blobs2[oid], newRows))
    && DistinctPlaces(Places(written)) && |Places(written)| == |blobs|
  }

  lemma CompactionIsRight(codec: Codec, home: Home, oldRows: set<PackId>, blobs: map<Oid, Blob>, home2: Home,
                          list: seq<Blob>, current: set<Oid>, written: seq<WrittenPack>, start: PackId, next: PackId)
    requires Lossless(codec) && Covers(list, blobs) && forall oid :: oid in blobs ==> blobs[oid].oid == oid
    requires RowsFit(codec, home, oldRows, blobs)
    requires Stocked(codec, home, oldRows, Tiers(Side(list, current, true)) + Tiers(Side(list, current, false)),
                     home2.packs, written, start, next)
    ensures Compacted(codec, home, oldRows, blobs, home2, Ids(written), Relocate(blobs, Places(written)), written)
  {
    var all := Tiers(Side(list, current, true)) + Tiers(Side(list, current, false));
    OrderCovers(list, current, blobs);
    forall b | b in all ensures AllFit(codec, home, oldRows, [blobs[b.oid]]) && b in [blobs[b.oid]] {}
    RelocationRepacks(codec, home, oldRows, blobs, home2, Ids(written), all, blobs.Keys, written, start, next);
    PlacesAreDistinct(codec, home, oldRows, all, home2.packs, Places(written));
    CoverCounts(all, blobs);
  }

  lemma {:induction false} CoverCounts(list: seq<Blob>, rows: map<Oid, Blob>)
    requires Covers(list, rows) && forall oid :: oid in rows ==> rows[oid].oid == oid
    ensures |list| == |rows|
    decreases |list|
  {
    if list == [] {
      assert rows == map[];
    } else {
      var n := |list| - 1;
      CoversLess(list[..n], list[n], rows, list);
      CoverCounts(list[..n], rows - {list[n].oid});
      assert (rows - {list[n].oid}).Keys == rows.Keys - {list[n].oid};
    }
  }

  lemma CoversLess(rest: seq<Blob>, b: Blob, rows: map<Oid, Blob>, list: seq<Blob>)
    requires list != [] && rest == list[..|list| - 1] && b == list[|list| - 1]
    requires Covers(list, rows) && forall oid :: oid in rows ==> rows[oid].oid == oid
    ensures b.oid in rows && Covers(rest, rows - {b.oid})
  {
    var n := |list| - 1;
    assert list[n] in list;
    forall x | x in rest ensures x in list && x.oid != b.oid {
      var i :| 0 <= i < |rest| && rest[i] == x;
      assert list[i] == x && list[i].oid != list[n].oid;
    }
    forall oid | oid in rows && oid != b.oid ensures rows[oid] in rest {
      var i :| 0 <= i < |list| && list[i] == rows[oid];
      assert i < n && rest[i] == list[i];
    }
  }

  predicate IsLoose(b: Blob) {
    b.pack.None?
  }

  function HasObject(objects: map<Key, Bytes>): Blob -> bool {
    (b: Blob) => b.objectKey in objects
  }

  /** The rows a packing run takes: loose, and with their object on disk. */
  function LooseOnDisk(list: seq<Blob>, objects: map<Key, Bytes>): seq<Blob> {
    Filter(Filter(list, IsLoose, true), HasObject(objects), true)
  }

  /** Rows that lost their object and that no snapshot names. */
  function Dropped(blobs: map<Oid, Blob>, objects: map<Key, Bytes>, referenced: set<Oid>): set<Oid> {
    set oid | oid in blobs && blobs[oid].pack.None? && blobs[oid].objectKey !in objects && oid !in referenced
  }

  ghost function Packable(blobs: map<Oid, Blob>, objects: map<Key, Bytes>): set<Oid> {
    set oid | oid in blobs && blobs[oid].pack.None? && blobs[oid].objectKey in objects
  }

  lemma {:induction false} FilterKeeps(list: seq<Blob>, test: Blob -> bool, b: Blob)
    ensures b in Filter(list, test, true) <==> b in list && test(b)
  {
    if list != [] {
      FilterKeeps(list[1..], test, b);
      assert list == [list[0]] + list[1..];
    }
  }

  lemma {:induction false} FilterIsDistinct(list: seq<Blob>, test: Blob -> bool)
    requires DistinctOids(list)
    ensures DistinctOids(Filter(list, test, true))
  {
    if list != [] {
      FilterIsDistinct(list[1..], test);
      var rest := Filter(list[1..], test, true);
      forall j | 0 <= j < |rest| ensures rest[j].oid != list[0].oid { FilterKeeps(list[1..], test, rest[j]); }
    }
  }

  lemma LooseIsListed(list: seq<Blob>, blobs: map<Oid, Blob>, objects: map<Key, Bytes>, dropped: set<Oid>)
    requires Covers(list, blobs) && forall oid :: oid in dropped && oid in blobs ==> blobs[oid].objectKey !in objects
    ensures FromRows(LooseOnDisk(list, objects), blobs)
    ensures var todo := Tiers(LooseOnDisk(list, objects));
            && Listed(todo, blobs - dropped) && (forall b :: b in LooseOnDisk(list, objects) ==> b.pack.None?)
            && forall b :: b in todo <==> b in list && b.pack.None? && b.objectKey in objects
  {
    var loose := Filter(list, IsLoose, true);
    var todo := LooseOnDisk(list, objects);
    FilterIsDistinct(list, IsLoose);
    FilterIsDistinct(loose, HasObject(objects));
    FilterSplits(todo, IsSmall);
    FilterMembers(todo, IsSmall);
    forall b ensures b in todo <==> b in list && b.pack.None? && b.objectKey in objects {
      FilterKeeps(list, IsLoose, b);
      FilterKeeps(loose, HasObject(objects), b);
    }
    ReorderedIsDistinct(todo, Tiers(todo));
  }

  lemma ReorderedIsDistinct(a: seq<Blob>, b: seq<Blob>)
    requires DistinctOids(a) && multiset(a) == multiset(b)
    ensures DistinctOids(b)
  {
    forall i, j | 0 <= i < j < |b| ensures b[i].oid != b[j].oid {
      assert b[i] in multiset(b) && b[j] in multiset(b);
      assert b[i] in a && b[j] in a;
      if b[i] == b[j] {
        RepeatCountsTwice(b, i, j);
        DistinctCountsOnce(a, b[i]);
      }
    }
  }

  /** Packing what is loose: rows without object and reference go, the loose rows on disk move into
      new packs and read as before, every other row and every old pack stays. */
  method PackLooseBlobs(repo: Repository, referenced: set<Oid>, config: PackConfig) returns (r: Result<seq<WrittenPack>>)
    requires repo.Valid() && Lossless(repo.codec) && RowsFit(repo.codec, repo.CurrentHome(), repo.packs.Keys, repo.blobs)
    modifies repo
    ensures repo.Valid() && Extends(old(repo.CurrentHome()), repo.CurrentHome(), old(repo.next))
    ensures old(repo.packs.Keys) <= repo.packs.Keys
    ensures forall oid :: oid in repo.blobs ==> oid in old(repo.blobs)
    ensures forall oid :: oid in old(repo.blobs) ==>
              var row := old(repo.blobs)[oid];
              && (oid in repo.blobs <==> row.pack.Some? || row.objectKey in repo.objects || oid in referenced)
              && (r.Ok? && oid in repo.blobs ==> (repo.blobs[oid] != row <==> row.pack.None? && row.objectKey in repo.objects))
    ensures r.Err? <==> exists oid :: oid in Packable(old(repo.blobs), repo.objects)
                          && CompactRead(repo.codec, old(repo.CurrentHome()), old(repo.packs.Keys), old(repo.blobs)[oid]).Err?
    ensures r.Ok? ==> TwoTiers(r.value, repo.packFiles, config, old(repo.blobs))
    ensures var kept := old(repo.blobs) - Dropped(old(repo.blobs), repo.objects, referenced);
            if r.Ok? then
              Repacked(repo.codec, old(repo.CurrentHome()), old(repo.packs.Keys), kept, repo.CurrentHome(),
                       repo.packs.Keys, repo.blobs, Packable(old(repo.blobs), repo.objects), Ids(r.value))
            else repo.blobs == kept && repo.packs == old(repo.packs)
  {
    var list := QueryBlobs(repo);
    var dropped := Dropped(repo.blobs, repo.objects, referenced);
    LooseIsListed(list, repo.blobs, repo.objects, dropped);
    var reader := new CompactPayloadReader(repo);
    ghost var moved := Packable(repo.blobs, repo.objects);
    repo.blobs := repo.blobs - dropped;
    LooseReads(repo.codec, old(repo.CurrentHome()), repo.packs.Keys, list, old(repo.blobs), repo.objects);
    if LooseOnDisk(list, repo.objects) == [] {
      NoTiers(repo.packFiles, config, old(repo.blobs));
      return Ok([]);
    }
    r := PackListed(repo, reader, LooseOnDisk(list, repo.objects), moved, config, old(repo.blobs));
  }

  lemma LooseReads(codec: Codec, home: Home, rows: set<PackId>, list: seq<Blob>, blobs: map<Oid, Blob>, objects: map<Key, Bytes>)
    requires Covers(list, blobs)
    ensures Unreadable(codec, home, rows, LooseOnDisk(list, objects)) <==>
            exists oid :: oid in Packable(blobs, objects) && CompactRead(codec, home, rows, blobs[oid]).Err?
  {
    var loose := Filter(list, IsLoose, true);
    forall b ensures b in LooseOnDisk(list, objects) <==> b in list && b.pack.None? && b.objectKey in objects {
      FilterKeeps(list, IsLoose, b);
      FilterKeeps(loose, HasObject(objects), b);
    }
    if oid :| oid in Packable(blobs, objects) && CompactRead(codec, home, rows, blobs[oid]).Err? {
      assert blobs[oid] in LooseOnDisk(list, objects);
    }
    if b :| b in LooseOnDisk(list, objects) && CompactRead(codec, home, rows, b).Err? {
      assert b.oid in Packable(blobs, objects);
    }
  }

  method PackListed(repo: Repository, reader: CompactPayloadReader, todo: seq<Blob>, ghost moved: set<Oid>, config: PackConfig,
                    ghost all: map<Oid, Blob>)
    returns (r: Result<seq<WrittenPack>>)
    requires repo.Valid() && Lossless(repo.codec) && RowsFit(repo.codec, repo.CurrentHome(), repo.packs.Keys, repo.blobs)
    requires reader.repo == repo && reader.rows == repo.packs.Keys && reader.Valid() && reader.Below(repo.next)
    requires Listed(Tiers(todo), repo.blobs) && OldRows(todo, repo.next)
    requires forall oid :: oid in repo.blobs ==> (oid in moved <==> repo.blobs[oid] in Tiers(todo))
    requires FromRows(todo, all)
    modifies repo, reader
    ensures repo.Valid() && Extends(old(repo.CurrentHome()), repo.CurrentHome(), old(repo.next))
    ensures old(repo.packs.Keys) <= repo.packs.Keys
    ensures r.Err? <==> Unreadable(repo.codec, old(repo.CurrentHome()), old(repo.packs.Keys), todo)
    ensures r.Ok? ==> TwoTiers(r.value, repo.packFiles, config, all)
    ensures if r.Ok? then
              Repacked(repo.codec, old(repo.CurrentHome()), old(repo.packs.Keys), old(repo.blobs), repo.CurrentHome(),
                       repo.packs.Keys, repo.blobs, moved, Ids(r.value))
            else repo.blobs == old(repo.blobs) && repo.packs == old(repo.packs)
  {
    ghost var home, start, rows, blobs := repo.CurrentHome(), repo.next, repo.packs.Keys, repo.blobs;
    ListedFit(repo.codec, home, rows, Tiers(todo), blobs);
    r := WriteTieredBlobPacks(repo, reader, home, start, todo, config, all);
    if r.Err? { return; }
    InstallListed(repo, home, rows, Tiers(todo), moved, r.value, start);
  }

  method InstallListed(repo: Repository, ghost home: Home, ghost rows: set<PackId>, ghost list: seq<Blob>, ghost moved: set<Oid>,
                       written: seq<WrittenPack>, ghost start: PackId)
    requires repo.Valid() && Lossless(repo.codec) && AllFit(repo.codec, home, rows, list) && Listed(list, repo.blobs)
    requires rows == repo.packs.Keys && forall oid :: oid in repo.blobs ==> (oid in moved <==> repo.blobs[oid] in list)
    requires Stocked(repo.codec, home, rows, list, repo.packFiles, written, start, repo.next)
    modifies repo`blobs, repo`packs
    ensures repo.Valid() && old(repo.packs.Keys) <= repo.packs.Keys
    ensures Repacked(repo.codec, home, rows, old(repo.blobs), repo.CurrentHome(), repo.packs.Keys, repo.blobs, moved, Ids(written))
  {
    ghost var blobs := repo.blobs;
    assert forall oid :: oid in blobs ==> blobs[oid].oid == oid;
    Install(repo, written, {});
    RelocationRepacks(repo.codec, home, rows, blobs, repo.CurrentHome(), repo.packs.Keys, list, moved, written, start, repo.next);
  }

  lemma ListedFit(codec: Codec, home: Home, rows: set<PackId>, list: seq<Blob>, blobs: map<Oid, Blob>)
    requires Listed(list, blobs) && RowsFit(codec, home, rows, blobs)
    ensures AllFit(codec, home, rows, list)
  {
    forall b | b in list ensures AllFit(codec, home, rows, [blobs[b.oid]]) && b in [blobs[b.oid]] {}
  }
}
