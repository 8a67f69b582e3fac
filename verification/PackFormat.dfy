/** The records of a pack file: an eight-byte little-endian length, then the stored bytes. */
module PackFormat {
  import opened Basics

  const LENGTH_WIDTH: nat := 8

  function Power256(width: nat): nat {
    if width == 0 then 1 else 256 * Power256(width - 1)
  }

  /** The `width` low-order bytes of `n`, lowest first. */
  function ToLittleEndian(n: nat, width: nat): (r: Bytes)
    ensures |r| == width
  {
    if width == 0 then [] else [(n % 256) as byte] + ToLittleEndian(n / 256, width - 1)
  }

  function FromLittleEndian(bytes: Bytes): nat {
    if bytes == [] then 0 else bytes[0] as nat + 256 * FromLittleEndian(bytes[1..])
  }

  /** A length survives exactly when it fits its field. */
  lemma {:induction false} LengthSurvivesIff(n: nat, width: nat)
    ensures FromLittleEndian(ToLittleEndian(n, width)) == n <==> n < Power256(width)
    decreases width
  {
    if width > 0 { LengthSurvivesIff(n / 256, width - 1); }
  }

  lemma {:induction false} BytesSurvive(bytes: Bytes)
    ensures ToLittleEndian(FromLittleEndian(bytes), |bytes|) == bytes && FromLittleEndian(bytes) < Power256(|bytes|)
  {
    if bytes != [] {
      BytesSurvive(bytes[1..]);
      assert bytes == [bytes[0]] + bytes[1..];
    }
  }

  function Record(stored: Bytes): Bytes {
    ToLittleEndian(|stored|, LENGTH_WIDTH) + stored
  }

  /** A slice of a pack is accepted only if its length field says what the slice holds. */
  function PackEntryPayload(entry: Bytes): Result<Bytes> {
    if |entry| < LENGTH_WIDTH then Err
    else if FromLittleEndian(entry[..LENGTH_WIDTH]) != |entry| - LENGTH_WIDTH then Err
    else Ok(entry[LENGTH_WIDTH..])
  }

  /** Records read back, and nothing but a record does. */
  lemma RecordReadsBack(entry: Bytes, stored: Bytes)
    ensures PackEntryPayload(entry) == Ok(stored) <==> entry == Record(stored) && |stored| < Power256(LENGTH_WIDTH)
  {
    LengthSurvivesIff(|stored|, LENGTH_WIDTH);
    if |entry| >= LENGTH_WIDTH {
      BytesSurvive(entry[..LENGTH_WIDTH]);
      assert entry == entry[..LENGTH_WIDTH] + entry[LENGTH_WIDTH..];
    }
    assert Record(stored)[..LENGTH_WIDTH] == ToLittleEndian(|stored|, LENGTH_WIDTH);
    assert Record(stored)[LENGTH_WIDTH..] == stored;
  }
}
