/** Writing blobs into packs: records tile each pack, packs stay within the target unless one record
    alone exceeds it, and every entry holds the payload of its blob. */
module PackWriter {
  import opened Basics
  import opened PackFormat

  type Oid = string
  type PackId = nat

  /** Compression and encryption of one object. */
  datatype Codec = Codec(encode: Bytes -> Bytes, decode: Bytes -> Result<Bytes>)

  ghost predicate Lossless(codec: Codec) {
    forall x: Bytes :: codec.decode(codec.encode(x)) == Ok(x)
  }

  datatype Blob = Blob(oid: Oid, size: nat, objectKey: Key, pack: Option<PackId>, offset: Option<nat>, len: Option<nat>)

  /** Files and what the remote can supply. A pack file is named after its id. */
  datatype Home = Home(objects: map<Key, Bytes>, packs: map<PackId, Bytes>,
                       remoteObjects: map<Key, Bytes>, remotePacks: map<PackId, Bytes>)

  datatype PackEntry = PackEntry(oid: Oid, offset: nat, len: nat)
  datatype WrittenPack = WrittenPack(id: PackId, entries: seq<PackEntry>, size: nat)
  datatype OpenPack = OpenPack(id: PackId, entries: seq<PackEntry>, bytes: Bytes, size: nat)

  // ----- reading -----

  function ReadObject(codec: Codec, home: Home, key: Key): Result<Bytes> {
    if key in home.objects then codec.decode(home.objects[key])
    else if key in home.remoteObjects then codec.decode(home.remoteObjects[key])
    else Err
  }

  function ReadSlice(codec: Codec, bytes: Bytes, blob: Blob): Result<Bytes> {
    if blob.offset.None? || blob.len.None? then Err
    else if blob.offset.value + blob.len.value > |bytes| then Err
    else
      var payload := PackEntryPayload(bytes[blob.offset.value..blob.offset.value + blob.len.value]);
      if payload.Err? then Err else codec.decode(payload.value)
  }

  /** The ordinary reader of one blob row. */
  function ReadBlobPayload(codec: Codec, home: Home, rows: set<PackId>, blob: Blob): Result<Bytes> {
    if blob.pack.None? then ReadObject(codec, home, blob.objectKey)
    else
      var id := blob.pack.value;
      if id !in rows || blob.offset.None? || blob.len.None? then Err
      else if id in home.packs then ReadSlice(codec, home.packs[id], blob)
      else if blob.objectKey in home.objects then ReadObject(codec, home, blob.objectKey)
      else if id in home.remotePacks then ReadSlice(codec, home.remotePacks[id], blob)
      else Err
  }

  /** What the compacting reader returns: an unpacked copy stands in for an absent pack before the
      position in the pack is looked at. */
  function CompactRead(codec: Codec, home: Home, rows: set<PackId>, blob: Blob): Result<Bytes> {
    if blob.pack.Some? && blob.pack.value in rows && blob.pack.value !in home.packs && blob.objectKey in home.objects
    then ReadObject(codec, home, blob.objectKey)
    else ReadBlobPayload(codec, home, rows, blob)
  }

  /** The two readers differ only on a row without a position. */
  lemma ReadersAgree(codec: Codec, home: Home, rows: set<PackId>, blob: Blob)
    requires blob.offset.Some? && blob.len.Some?
    ensures CompactRead(codec, home, rows, blob) == ReadBlobPayload(codec, home, rows, blob)
  {
  }

  /** Pack files with new ids are out of sight. */
  ghost predicate Extends(before: Home, now: Home, start: PackId) {
    && now.objects == before.objects && now.remoteObjects == before.remoteObjects && now.remotePacks == before.remotePacks
    && SameBelow(before.packs, now.packs, start)
  }

  ghost predicate SameBelow(before: map<PackId, Bytes>, now: map<PackId, Bytes>, start: PackId) {
    forall id: PackId :: id < start ==> Lookup(now, id) == Lookup(before, id)
  }

  lemma ExtendsMore(before: Home, home: Home, now: Home, start: PackId, id: PackId)
    requires Extends(before, home, start) && start <= id && SameBelow(home.packs, now.packs, id)
    requires now == home.(packs := now.packs)
    ensures Extends(before, now, start)
  {
  }

  lemma ReadIsStable(codec: Codec, before: Home, now: Home, start: PackId, rows: set<PackId>, blob: Blob)
    requires Extends(before, now, start) && (blob.pack.Some? ==> blob.pack.value < start)
    ensures CompactRead(codec, now, rows, blob) == CompactRead(codec, before, rows, blob)
  {
    if blob.pack.Some? { assert Lookup(now.packs, blob.pack.value) == Lookup(before.packs, blob.pack.value); }
  }

  // ----- the shape of a pack -----

  /** The entries cover [0, size) without gap or overlap. */
  ghost predicate Tiles(entries: seq<PackEntry>, size: nat) {
    if entries == [] then size == 0
    else
      var last := entries[|entries| - 1];
      last.len >= LENGTH_WIDTH && last.offset + last.len == size && Tiles(entries[..|entries| - 1], last.offset)
  }

  ghost predicate WithinTarget(count: nat, size: nat, target: nat) {
    count <= 1 || size <= target
  }

  function Append(pack: OpenPack, oid: Oid, stored: Bytes): OpenPack {
    OpenPack(pack.id, pack.entries + [PackEntry(oid, pack.size, LENGTH_WIDTH + |stored|)],
             pack.bytes + Record(stored), pack.size + (LENGTH_WIDTH + |stored|))
  }

  ghost predicate OpenOk(pack: OpenPack, target: nat) {
    pack.size == |pack.bytes| && Tiles(pack.entries, pack.size) && WithinTarget(|pack.entries|, pack.size, target)
  }

  ghost predicate Sealed(pack: WrittenPack, files: map<PackId, Bytes>, target: nat) {
    && pack.entries != [] && Tiles(pack.entries, pack.size) && WithinTarget(|pack.entries|, pack.size, target)
    && pack.id in files && |files[pack.id]| == pack.size
  }

  lemma AppendIsOk(pack: OpenPack, oid: Oid, stored: Bytes, target: nat)
    requires OpenOk(pack, target) && (pack.entries == [] || pack.size + LENGTH_WIDTH + |stored| <= target)
    ensures OpenOk(Append(pack, oid, stored), target)
  {
    assert Append(pack, oid, stored).entries[..|pack.entries|] == pack.entries;
  }

  // ----- where things are -----

  datatype Place = Place(id: PackId, entry: PackEntry)

  function Tagged(id: PackId, entries: seq<PackEntry>): seq<Place> {
    seq(|entries|, i requires 0 <= i < |entries| => Place(id, entries[i]))
  }

  function Places(packs: seq<WrittenPack>): seq<Place> {
    if packs == [] then []
    else
      var last := packs[|packs| - 1];
      Places(packs[..|packs| - 1]) + Tagged(last.id, last.entries)
  }

  lemma PlacesSnoc(packs: seq<WrittenPack>, pack: WrittenPack)
    ensures Places(packs + [pack]) == Places(packs) + Tagged(pack.id, pack.entries)
  {
    assert (packs + [pack])[..|packs|] == packs;
  }

  ghost predicate HoldsAt(files: map<PackId, Bytes>, place: Place, stored: Bytes) {
    && place.id in files && place.entry.offset + place.entry.len <= |files[place.id]|
    && files[place.id][place.entry.offset..place.entry.offset + place.entry.len] == Record(stored)
  }

  /** The places of the blobs, in order, each holding the payload its blob had in `home`. */
  ghost predicate Placed(codec: Codec, home: Home, rows: set<PackId>, blobs: seq<Blob>,
                         files: map<PackId, Bytes>, places: seq<Place>)
  {
    && |places| == |blobs|
    && forall i :: 0 <= i < |blobs| ==>
         var payload := CompactRead(codec, home, rows, blobs[i]);
         places[i].entry.oid == blobs[i].oid && payload.Ok? && HoldsAt(files, places[i], codec.encode(payload.value))
  }

  lemma AppendPlaces(codec: Codec, home: Home, rows: set<PackId>, blobs: seq<Blob>, n: nat,
                     files: map<PackId, Bytes>, before: seq<Place>, pack: OpenPack, payload: Bytes)
    requires n < |blobs| && pack.size == |pack.bytes| && CompactRead(codec, home, rows, blobs[n]) == Ok(payload)
    requires Placed(codec, home, rows, blobs[..n], files[pack.id := pack.bytes], before + Tagged(pack.id, pack.entries))
    ensures var longer := Append(pack, blobs[n].oid, codec.encode(payload));
            Placed(codec, home, rows, blobs[..n + 1], files[pack.id := longer.bytes], before + Tagged(pack.id, longer.entries))
  {
    var stored := codec.encode(payload);
    var longer := Append(pack, blobs[n].oid, stored);
    var places, after := before + Tagged(pack.id, pack.entries), before + Tagged(pack.id, longer.entries);
    assert after == places + [Place(pack.id, PackEntry(blobs[n].oid, pack.size, LENGTH_WIDTH + |stored|))];
    assert longer.bytes[pack.size..pack.size + (LENGTH_WIDTH + |stored|)] == Record(stored);
    forall i | 0 <= i < n
      ensures var was := CompactRead(codec, home, rows, blobs[i]);
              was.Ok? && HoldsAt(files[pack.id := longer.bytes], after[i], codec.encode(was.value)) && after[i].entry.oid == blobs[i].oid
    {
      assert blobs[..n][i] == blobs[i] && after[i] == places[i];
      var was := CompactRead(codec, home, rows, blobs[i]);
      AppendKeeps(files, pack, Record(stored), places[i], codec.encode(was.value));
    }
  }

  lemma AppendKeeps(files: map<PackId, Bytes>, pack: OpenPack, more: Bytes, place: Place, stored: Bytes)
    requires HoldsAt(files[pack.id := pack.bytes], place, stored)
    ensures HoldsAt(files[pack.id := pack.bytes + more], place, stored)
  {
    if place.id == pack.id {
      var i, j := place.entry.offset, place.entry.offset + place.entry.len;
      assert (pack.bytes + more)[i..j] == pack.bytes[i..j];
    }
  }

  /** Packs written so far, and the one being filled: ids ascend, and each pack was closed because the
      next record did not fit. */
  ghost predicate Chained(packs: seq<WrittenPack>, start: PackId, target: nat) {
    && (forall i :: 0 <= i < |packs| ==> start <= packs[i].id && packs[i].entries != [])
    && (forall i, j :: 0 <= i < j < |packs| ==> packs[i].id < packs[j].id)
    && (forall i, j :: 0 <= i && j == i + 1 && j < |packs| ==> packs[i].size + packs[j].entries[0].len > target)
  }

  function Finished(pack: OpenPack): WrittenPack {
    WrittenPack(pack.id, pack.entries, pack.size)
  }

  /** The state of the writing loop. */
  ghost predicate Filling(done: seq<WrittenPack>, pack: OpenPack, files: map<PackId, Bytes>, start: PackId, target: nat) {
    && start <= pack.id && OpenOk(pack, target)
    && (forall i :: 0 <= i < |done| ==> Sealed(done[i], files, target) && done[i].id < pack.id)
    && Chained(done, start, target)
    && (pack.entries != [] ==> Chained(done + [Finished(pack)], start, target))
    && (pack.entries == [] ==> done == [])
  }

  lemma AppendFills(done: seq<WrittenPack>, pack: OpenPack, files: map<PackId, Bytes>, start: PackId, target: nat,
                    oid: Oid, stored: Bytes)
    requires Filling(done, pack, files, start, target)
    requires pack.entries == [] || pack.size + LENGTH_WIDTH + |stored| <= target
    ensures Filling(done, Append(pack, oid, stored), files, start, target)
  {
    AppendIsOk(pack, oid, stored, target);
    var longer := Append(pack, oid, stored);
    var was, now := done + [Finished(pack)], done + [Finished(longer)];
    if pack.entries != [] {
      assert forall i :: 0 <= i < |done| ==> was[i] == now[i];
      assert longer.entries[0] == pack.entries[0] && was[|done|].id == now[|done|].id;
    }
  }

  /** Close the pack because the next record does not fit, and put that record into a new one. */
  lemma SplitFills(done: seq<WrittenPack>, pack: OpenPack, files: map<PackId, Bytes>, start: PackId, target: nat,
                   next: PackId, oid: Oid, stored: Bytes)
    requires Filling(done, pack, files, start, target) && pack.id < next && pack.entries != []
    requires pack.size + LENGTH_WIDTH + |stored| > target
    ensures var files2 := files[pack.id := pack.bytes][next := []];
            Filling(done + [Finished(pack)], Append(OpenPack(next, [], [], 0), oid, stored), files2, start, target)
  {
    var done2, pack2 := done + [Finished(pack)], Append(OpenPack(next, [], [], 0), oid, stored);
    AppendIsOk(OpenPack(next, [], [], 0), oid, stored, target);
    AllStaySealed(done, pack, files, target, next);
    assert pack2.entries == [PackEntry(oid, 0, LENGTH_WIDTH + |stored|)];
    ChainedMore(done, Finished(pack), Finished(pack2), start, target);
  }

  lemma AllStaySealed(done: seq<WrittenPack>, pack: OpenPack, files: map<PackId, Bytes>, target: nat, next: PackId)
    requires OpenOk(pack, target) && pack.entries != [] && pack.id < next
    requires forall i :: 0 <= i < |done| ==> Sealed(done[i], files, target) && done[i].id < pack.id
    ensures var done2 := done + [Finished(pack)];
            forall i :: 0 <= i < |done2| ==> Sealed(done2[i], files[pack.id := pack.bytes][next := []], target) && done2[i].id < next
  {
    var done2, files2 := done + [Finished(pack)], files[pack.id := pack.bytes][next := []];
    forall i | 0 <= i < |done2| ensures Sealed(done2[i], files2, target) && done2[i].id < next {
      if i < |done| { assert done2[i] == done[i]; } else { assert done2[i] == Finished(pack); }
    }
  }

  /** One more pack, with a higher id, whose first record did not fit into the last. */
  lemma ChainedMore(done: seq<WrittenPack>, last: WrittenPack, next: WrittenPack, start: PackId, target: nat)
    requires Chained(done + [last], start, target) && last.id < next.id && next.entries != []
    requires last.size + next.entries[0].len > target
    ensures Chained(done + [last] + [next], start, target)
  {
    var packs := done + [last];
    var all := packs + [next];
    assert packs[|done|] == last && all[|packs|] == next;
    assert forall i :: 0 <= i < |packs| ==> all[i] == packs[i];
    forall i, j | 0 <= i < j < |all| ensures all[i].id < all[j].id {
      if j == |packs| && i < |done| { assert packs[i].id < packs[|done|].id; }
    }
  }

  lemma SealPlaces(codec: Codec, home: Home, rows: set<PackId>, blobs: seq<Blob>, files: map<PackId, Bytes>,
                   done: seq<WrittenPack>, pack: OpenPack, next: PackId)
    requires next !in files && next != pack.id
    requires Placed(codec, home, rows, blobs, files[pack.id := pack.bytes], Places(done) + Tagged(pack.id, pack.entries))
    ensures var files2 := files[pack.id := pack.bytes][next := []];
            Placed(codec, home, rows, blobs, files2, Places(done + [Finished(pack)]) + Tagged(next, []))
  {
    PlacesSnoc(done, Finished(pack));
    var places := Places(done) + Tagged(pack.id, pack.entries);
    assert places + Tagged(next, []) == places;
  }

  lemma SplitPlaces(codec: Codec, home: Home, rows: set<PackId>, list: seq<Blob>, n: nat, files: map<PackId, Bytes>,
                    done: seq<WrittenPack>, pack: OpenPack, next: PackId, payload: Bytes)
    requires n < |list| && CompactRead(codec, home, rows, list[n]) == Ok(payload) && next !in files && pack.id < next
    requires Placed(codec, home, rows, list[..n], files[pack.id := pack.bytes], Places(done) + Tagged(pack.id, pack.entries))
    ensures var pack2 := Append(OpenPack(next, [], [], 0), list[n].oid, codec.encode(payload));
            Placed(codec, home, rows, list[..n + 1], files[pack.id := pack.bytes][next := []][pack2.id := pack2.bytes],
                   Places(done + [Finished(pack)]) + Tagged(pack2.id, pack2.entries))
  {
    var files2 := files[pack.id := pack.bytes][next := []];
    SealPlaces(codec, home, rows, list[..n], files, done, pack, next);
    assert files2 == files2[next := []];
    AppendPlaces(codec, home, rows, list, n, files2, Places(done + [Finished(pack)]), OpenPack(next, [], [], 0), payload);
  }

  ghost predicate Writing(codec: Codec, home: Home, rows: set<PackId>, blobs: seq<Blob>, files: map<PackId, Bytes>,
                          done: seq<WrittenPack>, pack: OpenPack, start: PackId, target: nat)
  {
    && Filling(done, pack, files, start, target)
    && Placed(codec, home, rows, blobs, files[pack.id := pack.bytes], Places(done) + Tagged(pack.id, pack.entries))
  }

  predicate Overflows(pack: OpenPack, stored: Bytes, target: nat) {
    pack.entries != [] && pack.size + (LENGTH_WIDTH + |stored|) > target
  }

  lemma RecordFits(codec: Codec, home: Home, rows: set<PackId>, list: seq<Blob>, n: nat, files: map<PackId, Bytes>,
                   done: seq<WrittenPack>, pack: OpenPack, start: PackId, target: nat, payload: Bytes)
    requires n < |list| && CompactRead(codec, home, rows, list[n]) == Ok(payload)
    requires Writing(codec, home, rows, list[..n], files, done, pack, start, target)
    requires !Overflows(pack, codec.encode(payload), target)
    ensures Writing(codec, home, rows, list[..n + 1], files, done, Append(pack, list[n].oid, codec.encode(payload)), start, target)
  {
    AppendFills(done, pack, files, start, target, list[n].oid, codec.encode(payload));
    AppendPlaces(codec, home, rows, list, n, files, Places(done), pack, payload);
  }

  lemma RecordSplits(codec: Codec, home: Home, rows: set<PackId>, list: seq<Blob>, n: nat, files: map<PackId, Bytes>,
                     done: seq<WrittenPack>, pack: OpenPack, start: PackId, target: nat, next: PackId, payload: Bytes)
    requires n < |list| && CompactRead(codec, home, rows, list[n]) == Ok(payload) && next !in files && pack.id < next
    requires Writing(codec, home, rows, list[..n], files, done, pack, start, target)
    requires Overflows(pack, codec.encode(payload), target)
    ensures Writing(codec, home, rows, list[..n + 1], files[pack.id := pack.bytes][next := []], done + [Finished(pack)],
                    Append(OpenPack(next, [], [], 0), list[n].oid, codec.encode(payload)), start, target)
  {
    SplitFills(done, pack, files, start, target, next, list[n].oid, codec.encode(payload));
    SplitPlaces(codec, home, rows, list, n, files, done, pack, next, payload);
  }

  lemma StartsWriting(codec: Codec, home: Home, rows: set<PackId>, files: map<PackId, Bytes>, start: PackId, target: nat)
    ensures Writing(codec, home, rows, [], files[start := []], [], OpenPack(start, [], [], 0), start, target)
  {
    assert Places([]) + Tagged(start, []) == [];
  }

  /** What a call of the writer delivers. */
  ghost predicate Delivers(codec: Codec, home: Home, rows: set<PackId>, blobs: seq<Blob>, files: map<PackId, Bytes>,
                           packs: seq<WrittenPack>, start: PackId, target: nat)
  {
    && Placed(codec, home, rows, blobs, files, Places(packs)) && Chained(packs, start, target)
    && forall i :: 0 <= i < |packs| ==> Sealed(packs[i], files, target)
  }

  lemma LastPack(codec: Codec, home: Home, rows: set<PackId>, blobs: seq<Blob>, files: map<PackId, Bytes>,
                 done: seq<WrittenPack>, pack: OpenPack, start: PackId, target: nat)
    requires Writing(codec, home, rows, blobs, files, done, pack, start, target)
    ensures pack.entries != [] ==>
              Delivers(codec, home, rows, blobs, files[pack.id := pack.bytes], done + [Finished(pack)], start, target)
    ensures pack.entries == [] ==> Delivers(codec, home, rows, blobs, files, [], start, target) && done == []
  {
    PlacesSnoc(done, Finished(pack));
    if pack.entries == [] {
      assert Places(done) + Tagged(pack.id, pack.entries) == [];
    } else {
      var files2, all := files[pack.id := pack.bytes], done + [Finished(pack)];
      forall i | 0 <= i < |all| ensures Sealed(all[i], files2, target) {
        assert i < |done| ==> Sealed(done[i], files, target) && all[i] == done[i];
      }
    }
  }

  // ----- the repository -----

  datatype PackRow = PackRow(count: nat, size: nat)

  class Repository {
    const codec: Codec
    const objects: map<Key, Bytes>
    const remoteObjects: map<Key, Bytes>
    const remotePacks: map<PackId, Bytes>
    var packFiles: map<PackId, Bytes>
    var blobs: map<Oid, Blob>
    var packs: map<PackId, PackRow>
    var next: PackId

    function CurrentHome(): Home
      reads this
    {
      Home(objects, packFiles, remoteObjects, remotePacks)
    }

    /** Ids are handed out once. */
    ghost predicate Valid()
      reads this
    {
      && (forall id :: id in packFiles ==> id < next)
      && (forall id :: id in packs ==> id < next)
      && (forall oid :: oid in blobs ==> blobs[oid].oid == oid && (blobs[oid].pack.Some? ==> blobs[oid].pack.value < next))
    }

    method NewPack() returns (pack: OpenPack)
      requires Valid()
      modifies `packFiles, `next
      ensures Valid() && pack == OpenPack(old(next), [], [], 0) && next == old(next) + 1
      ensures packFiles == old(packFiles)[old(next) := []]
    {
      pack := OpenPack(next, [], [], 0);
      packFiles := packFiles[next := []];
      next := next + 1;
    }

    method FinishPack(pack: OpenPack) returns (written: WrittenPack)
      requires Valid() && pack.id < next
      modifies `packFiles
      ensures Valid() && written == Finished(pack) && packFiles == old(packFiles)[pack.id := pack.bytes]
    {
      packFiles := packFiles[pack.id := pack.bytes];
      written := WrittenPack(pack.id, pack.entries, pack.size);
    }

    /** Put one record into the open pack, or into a new one when it does not fit. */
    method AddRecord(done: seq<WrittenPack>, pack: OpenPack, oid: Oid, stored: Bytes, target: nat)
      returns (done2: seq<WrittenPack>, pack2: OpenPack)
      requires Valid() && pack.id < next
      modifies `packFiles, `next
      ensures Valid() && pack2.id < next && old(next) <= next
      ensures if Overflows(pack, stored, target)
              then done2 == done + [Finished(pack)] && pack2 == Append(OpenPack(old(next), [], [], 0), oid, stored)
                   && packFiles == old(packFiles)[pack.id := pack.bytes][old(next) := []]
              else done2 == done && pack2 == Append(pack, oid, stored) && packFiles == old(packFiles)
      ensures SameBelow(old(packFiles), packFiles, pack.id)
    {
      done2, pack2 := done, pack;
      if Overflows(pack, stored, target) {
        var written := FinishPack(pack);
        done2 := done + [written];
        pack2 := NewPack();
      }
      pack2 := Append(pack2, oid, stored);
    }

    method PackOne(ghost home: Home, ghost rows: set<PackId>, list: seq<Blob>, n: nat, done: seq<WrittenPack>, pack: OpenPack,
                   ghost start: PackId, target: nat, payload: Bytes)
      returns (done2: seq<WrittenPack>, pack2: OpenPack)
      requires Valid() && n < |list| && pack.id < next && CompactRead(codec, home, rows, list[n]) == Ok(payload)
      requires Writing(codec, home, rows, list[..n], packFiles, done, pack, start, target)
      modifies `packFiles, `next
      ensures Valid() && pack2.id < next && old(next) <= next
      ensures Writing(codec, home, rows, list[..n + 1], packFiles, done2, pack2, start, target)
      ensures SameBelow(old(packFiles), packFiles, pack.id)
    {
      var stored := codec.encode(payload);
      if Overflows(pack, stored, target) {
        RecordSplits(codec, home, rows, list, n, packFiles, done, pack, start, target, next, payload);
      } else {
        RecordFits(codec, home, rows, list, n, packFiles, done, pack, start, target, payload);
      }
      done2, pack2 := AddRecord(done, pack, list[n].oid, stored, target);
    }

    /** The state of the writing loop: the first `n` of `list` are in packs, and all that was there before is
        as it was. */
    ghost predicate Packing(reader: CompactPayloadReader, before: Home, list: seq<Blob>, n: nat, done: seq<WrittenPack>,
                            pack: OpenPack, start: PackId, target: nat)
      requires n <= |list|
      reads this, reader, reader.repo
    {
      && Valid() && reader.repo == this && reader.Valid() && reader.Below(start) && pack.id < next && start <= next
      && Extends(before, CurrentHome(), start)
      && Writing(codec, before, reader.rows, list[..n], packFiles, done, pack, start, target)
    }

    /** Read blob `n` and put it into a pack. */
    method PackNext(reader: CompactPayloadReader, ghost before: Home, list: seq<Blob>, n: nat, done: seq<WrittenPack>, pack: OpenPack,
                    ghost start: PackId, target: nat)
      returns (ok: bool, done2: seq<WrittenPack>, pack2: OpenPack)
      requires n < |list| && Packing(reader, before, list, n, done, pack, start, target)
      requires list[n].pack.Some? ==> list[n].pack.value < start
      modifies `packFiles, `next, reader
      ensures ok <==> CompactRead(codec, before, reader.rows, list[n]).Ok?
      ensures if ok then Packing(reader, before, list, n + 1, done2, pack2, start, target)
              else Packing(reader, before, list, n, done, pack, start, target)
    {
      ReadIsStable(codec, before, CurrentHome(), start, reader.rows, list[n]);
      var payload := reader.ReadBlob(list[n]);
      if payload.Err? { return false, done, pack; }
      ghost var home := CurrentHome();
      done2, pack2 := PackOne(before, reader.rows, list, n, done, pack, start, target, payload.value);
      ExtendsMore(before, home, CurrentHome(), start, pack.id);
      ok := true;
    }

    method FirstPack(reader: CompactPayloadReader, list: seq<Blob>, ghost target: nat) returns (pack: OpenPack)
      requires Valid() && reader.repo == this && reader.Valid() && reader.Below(next)
      modifies `packFiles, `next
      ensures Packing(reader, old(CurrentHome()), list, 0, [], pack, old(next), target)
    {
      ghost var before := CurrentHome();
      StartsWriting(codec, before, reader.rows, packFiles, next, target);
      pack := NewPack();
      ExtendsMore(before, before, CurrentHome(), old(next), old(next));
      assert list[..0] == [];
    }

    /** Write `list` into packs of about `limit` bytes. Fails exactly when a payload cannot be read;
        otherwise every blob, in order, is in a new pack that holds its payload. */
    method WriteBlobPacks(reader: CompactPayloadReader, list: seq<Blob>, limit: nat) returns (r: Result<seq<WrittenPack>>)
      requires Valid() && reader.repo == this && reader.Valid() && reader.Below(next)
      requires forall i :: 0 <= i < |list| && list[i].pack.Some? ==> list[i].pack.value < next
      modifies `packFiles, `next, reader
      ensures Valid() && reader.Valid() && reader.Below(next)
      ensures old(next) <= next && Extends(old(CurrentHome()), CurrentHome(), old(next))
      ensures r.Err? <==> exists i :: 0 <= i < |list| && CompactRead(codec, old(CurrentHome()), reader.rows, list[i]).Err?
      ensures r.Ok? ==>
                Delivers(codec, old(CurrentHome()), reader.rows, list, packFiles, r.value, old(next), Max(limit, 1))
      ensures r.Ok? ==> forall i :: 0 <= i < |r.value| ==> r.value[i].id < next
    {
      ghost var before, start := CurrentHome(), next;
      var target := Max(limit, 1);
      var done: seq<WrittenPack>, ok := [], true;
      var pack := FirstPack(reader, list, target);
      for n := 0 to |list|
        invariant Packing(reader, before, list, n, done, pack, start, target)
      {
        ok, done, pack := PackNext(reader, before, list, n, done, pack, start, target);
        if !ok { return Err; }
      }
      var packs := FinishPacking(reader, before, list, done, pack, start, target);
      r := Ok(packs);
    }

    method FinishPacking(reader: CompactPayloadReader, ghost before: Home, ghost list: seq<Blob>, done: seq<WrittenPack>,
                         pack: OpenPack, ghost start: PackId, ghost target: nat)
      returns (packs: seq<WrittenPack>)
      requires Packing(reader, before, list, |list|, done, pack, start, target)
      modifies `packFiles
      ensures Valid() && reader.Valid() && Extends(before, CurrentHome(), start)
      ensures Delivers(codec, before, reader.rows, list, packFiles, packs, start, target)
      ensures forall i :: 0 <= i < |list| ==> CompactRead(codec, before, reader.rows, list[i]).Ok?
      ensures forall i :: 0 <= i < |packs| ==> packs[i].id < next
    {
      ghost var home := CurrentHome();
      assert list[..|list|] == list;
      packs := FinishLast(before, reader.rows, list, done, pack, start, target);
      ExtendsMore(before, home, CurrentHome(), start, pack.id);
    }

    method FinishLast(ghost home: Home, ghost rows: set<PackId>, ghost list: seq<Blob>, done: seq<WrittenPack>, pack: OpenPack,
                      ghost start: PackId, ghost target: nat)
      returns (packs: seq<WrittenPack>)
      requires Valid() && pack.id < next && Writing(codec, home, rows, list, packFiles, done, pack, start, target)
      modifies `packFiles
      ensures Valid() && Delivers(codec, home, rows, list, packFiles, packs, start, target)
      ensures SameBelow(old(packFiles), packFiles, pack.id)
      ensures forall i :: 0 <= i < |packs| ==> packs[i].id < next
    {
      LastPack(codec, home, rows, list, packFiles, done, pack, start, target);
      packs := done;
      if pack.entries != [] {
        var written := FinishPack(pack);
        packs := done + [written];
      }
    }
  }

  function Max(a: nat, b: nat): nat {
    if a < b then b else a
  }

  /** Reads blobs pack by pack, keeping the last pack file in memory. */
  class CompactPayloadReader {
    const repo: Repository
    const rows: set<PackId>
    var current: Option<PackId>
    var bytes: Bytes

    ghost predicate Valid()
      reads this, repo
    {
      current.Some? ==> Lookup(repo.packFiles, current.value) == Some(bytes)
    }

    ghost predicate Below(id: PackId)
      reads this
    {
      current.Some? ==> current.value < id
    }

    constructor (repo: Repository)
      ensures this.repo == repo && rows == repo.packs.Keys && current.None? && Valid()
    {
      this.repo, rows, current, bytes := repo, repo.packs.Keys, None, [];
    }

    /** The kept pack changes nothing: the result is what a fresh read of the pack would give. */
    method ReadBlob(blob: Blob) returns (r: Result<Bytes>)
      requires Valid()
      modifies this
      ensures Valid() && r == CompactRead(repo.codec, repo.CurrentHome(), rows, blob)
      ensures forall id :: old(Below(id)) && (blob.pack.Some? ==> blob.pack.value < id) ==> Below(id)
    {
      var home := repo.CurrentHome();
      if blob.pack.None? { return ReadObject(repo.codec, home, blob.objectKey); }
      var id := blob.pack.value;
      if id !in rows { return ReadBlobPayload(repo.codec, home, rows, blob); }
      if id !in repo.packFiles {
        if blob.objectKey in repo.objects { return ReadObject(repo.codec, home, blob.objectKey); }
        return ReadBlobPayload(repo.codec, home, rows, blob);
      }
      if current != Some(id) { current, bytes := Some(id), repo.packFiles[id]; }
      r := ReadSlice(repo.codec, bytes, blob);
    }
  }
}
