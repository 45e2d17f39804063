/**
 * IdGenerators.cs: the identifiers of test records.  `NewDbOptimized` lays
 * out a 16-byte UUID whose first eight bytes hold a timestamp in 100-ns
 * ticks since 1582-10-15 (the epoch of section 4.1.4 of RFC 4122), most
 * significant byte first, with the version nibble 0001 in the high half of
 * byte 0 and the variant bits 10 of section 4.1.1 of RFC 4122 in byte 8;
 * the remaining bytes come from a random GUID.  The `long` holding the
 * ticks is read byte by byte as a little-endian host stores it.
 */
module Ids {
  import opened Bytes
  import opened Records

  /** `DateTime` ticks of 1582-10-15 00:00, the Gregorian reform. */
  const GregorianReformTicks: int := 499_163_040_000_000_000
  const TwoTo60: int := 0x1000_0000_0000_0000
  const TwoTo64: int := 0x1_0000_0000_0000_0000

  function Pow256(k: nat): (p: nat)
    ensures p > 0
  {
    if k == 0 then 1 else 256 * Pow256(k - 1)
  }

  /** The `n` low bytes of `u`, least significant first. */
  function LittleEndian(u: nat, n: nat): (bytes: seq<byte>)
    ensures |bytes| == n
  {
    if n == 0 then [] else [(u % 256) as byte] + LittleEndian(u / 256, n - 1)
  }

  /** The eight bytes of a `long` in memory on a little-endian host (two's complement). */
  function LongBytes(v: int): (bytes: seq<byte>)
    ensures |bytes| == 8
  {
    LittleEndian(v % TwoTo64, 8)
  }

  /** The number a byte sequence denotes when read most significant byte first. */
  function BigEndian(bytes: seq<byte>): nat {
    if bytes == [] then 0 else BigEndian(bytes[..|bytes| - 1]) * 256 + bytes[|bytes| - 1] as int
  }

  /**
   * `(b & 0x0F) | 0x10`: keep the low nibble and put the version 1 in the
   * high one, written on the byte's value (`VersionMask` shows the two
   * agree on every 8-bit value).
   */
  function VersionByte(b: byte): (r: byte)
    ensures r as int / 16 == 1
    ensures r as int % 16 == b as int % 16
  {
    (b as int % 16 + 16) as byte
  }

  /**
   * `(b & 0x3F) | 0x80`: keep the low six bits and put the variant bits 10
   * on top (`VariantMask` shows the two agree on every 8-bit value).
   */
  function VariantByte(b: byte): (r: byte)
    ensures r as int / 64 == 2
    ensures r as int % 64 == b as int % 64
  {
    (b as int % 64 + 128) as byte
  }

  lemma VersionMask(x: bv8)
    ensures (x & 0x0F) | 0x10 == x % 16 + 16
  {
  }

  lemma VariantMask(x: bv8)
    ensures (x & 0x3F) | 0x80 == x % 64 + 128
  {
  }

  /** The bytes `NewDbOptimized` produces from a date and the random GUID it draws. */
  function DbOptimizedLayout(date: DateTime, random: Guid): (uuid: Guid)
    ensures uuid[0] as int / 16 == 1
    ensures uuid[0] as int % 16 == LongBytes(date - GregorianReformTicks)[7] as int % 16
    ensures uuid[8] as int / 64 == 2
    ensures uuid[8] as int % 64 == random[8] as int % 64
    ensures uuid[9..] == random[9..]
  {
    var t := LongBytes(date - GregorianReformTicks);
    [VersionByte(t[7]), t[6], t[5], t[4], t[3], t[2], t[1], t[0], VariantByte(random[8])] + random[9..]
  }

  /**
   * `NewDbOptimized`: copy the random GUID into a 16-byte buffer, overwrite
   * bytes 0..7 with the tick bytes in reverse memory order (byte 0 also
   * carrying the version), then mask byte 8 in place.
   */
  method NewDbOptimized(date: DateTime, guid: Guid) returns (uuid: Guid)
    ensures uuid == DbOptimizedLayout(date, guid)
  {
    var result := new byte[16](i requires 0 <= i < 16 => guid[i]);
    var currentTicks := date - GregorianReformTicks;
    var ticks := LongBytes(currentTicks);
    result[0] := VersionByte(ticks[7]);
    result[1] := ticks[6];
    result[2] := ticks[5];
    result[3] := ticks[4];
    result[4] := ticks[3];
    result[5] := ticks[2];
    result[6] := ticks[1];
    result[7] := ticks[0];
    result[8] := VariantByte(result[8]);
    uuid := result[..];
    assert uuid[9..] == guid[9..];
  }

  /** `GenerateGuidNewGuid`: a fresh random GUID, whatever the record's timestamp and payload. */
  function GenerateGuidNewGuid(createdAt: DateTime, value: string, random: Guid): (id: Guid)
    ensures id == random
  {
    random
  }

  /** The `GuidNewGuid` generator value. */
  const GuidNewGuid: IdGenerator := GenerateGuidNewGuid

  lemma MulNonNegative(a: int, b: int)
    requires a >= 0 && b >= 0
    ensures a * b >= 0
  {}

  lemma MulLess(a: int, b: int, m: int)
    requires a < b && m > 0
    ensures a * m + m <= b * m
  {
    MulNonNegative(b - a - 1, m);
    assert (b - a - 1) * m == b * m - a * m - m;
  }

  /** Quotient and remainder are the only ones with a remainder in `[0, m)`. */
  lemma ModUnique(u: int, m: int, k: int, s: int)
    requires m > 0 && u == k * m + s && 0 <= s < m
    ensures u / m == k && u % m == s
  {
    var q, r := u / m, u % m;
    assert u == q * m + r;
    if q < k {
      MulLess(q, k, m);
    } else if q > k {
      MulLess(k, q, m);
    }
  }

  /** Dividing by `a` and then by `b` is dividing by `a * b`; the remainder splits likewise. */
  lemma DivMulMod(u: nat, a: nat, b: nat)
    requires a > 0 && b > 0
    ensures u / a / b == u / (a * b)
    ensures u % (a * b) == (u / a % b) * a + u % a
  {
    var q1, r1 := u / a, u % a;
    var q2, r2 := q1 / b, q1 % b;
    assert u == q1 * a + r1;
    assert q1 == q2 * b + r2;
    assert q1 * a == q2 * (a * b) + r2 * a by {
      assert (q2 * b + r2) * a == q2 * (a * b) + r2 * a;
    }
    MulLess(r2, b, a);
    MulNonNegative(r2, a);
    ModUnique(u, a * b, q2, r2 * a + r1);
  }

  /** Byte `k` of `LittleEndian(u, n)` is digit `k` of `u` in base 256. */
  lemma {:induction false} LittleEndianDigit(u: nat, n: nat, k: nat)
    requires k < n
    ensures LittleEndian(u, n)[k] as int == u / Pow256(k) % 256
  {
    if k > 0 {
      LittleEndianDigit(u / 256, n - 1, k - 1);
      DivMulMod(u, 256, Pow256(k - 1));
    }
  }

  /** Reading the bytes most significant first gives back the value modulo `256^n`. */
  lemma {:induction false} BigEndianOfReversed(u: nat, n: nat)
    ensures BigEndian(Reversed(LittleEndian(u, n))) == u % Pow256(n)
  {
    if n == 0 {
    } else {
      var rest := LittleEndian(u / 256, n - 1);
      var r := Reversed(rest) + [(u % 256) as byte];
      assert Reversed(LittleEndian(u, n)) == r;
      assert r[..|r| - 1] == Reversed(rest);
      BigEndianOfReversed(u / 256, n - 1);
      DivMulMod(u, 256, Pow256(n - 1));
    }
  }

  function Reversed(s: seq<byte>): (r: seq<byte>)
    ensures |r| == |s|
  {
    if s == [] then [] else Reversed(s[1..]) + [s[0]]
  }

  /** A leading byte contributes its value times `256^(number of bytes after it)`. */
  lemma {:induction false} BigEndianCons(b: byte, rest: seq<byte>)
    ensures BigEndian([b] + rest) == b as int * Pow256(|rest|) + BigEndian(rest)
  {
    if rest != [] {
      var s := [b] + rest;
      assert s[..|s| - 1] == [b] + rest[..|rest| - 1];
      BigEndianCons(b, rest[..|rest| - 1]);
    }
  }

  /**
   * For tick offsets in `[0, 2^60)` the first eight bytes, read most
   * significant first, are `2^60 + offset`: the version nibble sits above
   * the 60 timestamp bits.
   */
  lemma ReversedEight(t: seq<byte>)
    requires |t| == 8
    ensures Reversed(t) == [t[7], t[6], t[5], t[4], t[3], t[2], t[1], t[0]]
  {
    assert Reversed(t[7..]) == [t[7]];
    assert Reversed(t[6..]) == [t[7], t[6]] by { assert t[6..][1..] == t[7..]; }
    assert Reversed(t[5..]) == [t[7], t[6], t[5]] by { assert t[5..][1..] == t[6..]; }
    assert Reversed(t[4..]) == [t[7], t[6], t[5], t[4]] by { assert t[4..][1..] == t[5..]; }
    assert Reversed(t[3..]) == [t[7], t[6], t[5], t[4], t[3]] by { assert t[3..][1..] == t[4..]; }
    assert Reversed(t[2..]) == [t[7], t[6], t[5], t[4], t[3], t[2]] by { assert t[2..][1..] == t[3..]; }
    assert Reversed(t[1..]) == [t[7], t[6], t[5], t[4], t[3], t[2], t[1]] by { assert t[1..][1..] == t[2..]; }
    assert t[0..] == t;
  }

  /** Below `2^60` the most significant tick byte is below 16, so masking it loses nothing. */
  lemma TopTickByte(offset: int)
    requires 0 <= offset < TwoTo60
    ensures LongBytes(offset)[7] as int == offset / Pow256(7) < 16
    ensures VersionByte(LongBytes(offset)[7]) as int == LongBytes(offset)[7] as int + 16
    ensures Pow256(7) == 0x100_0000_0000_0000
  {
    assert offset % TwoTo64 == offset;
    LittleEndianDigit(offset, 8, 7);
    var p7 := Pow256(7);
    assert p7 == 0x100_0000_0000_0000;
    var top := offset / p7;
    assert top < 16 by {
      assert offset == top * p7 + offset % p7;
      if top >= 16 {
        MulLess(15, top, p7);
      }
    }
    ModUnique(top, 256, 0, top);
  }

  /** All eight tick bytes, most significant first, read back as the offset. */
  lemma TickBytesBigEndian(offset: int)
    requires 0 <= offset < TwoTo60
    ensures BigEndian(Reversed(LongBytes(offset))) == offset
  {
    assert offset % TwoTo64 == offset;
    BigEndianOfReversed(offset, 8);
    assert Pow256(8) == TwoTo64;
    ModUnique(offset, TwoTo64, 0, offset);
  }

  /**
   * For tick offsets in `[0, 2^60)` the first eight bytes, read most
   * significant first, are `2^60 + offset`: the version nibble sits above
   * the 60 timestamp bits.
   */
  lemma TimestampPrefix(date: DateTime, random: Guid)
    requires 0 <= date - GregorianReformTicks < TwoTo60
    ensures BigEndian(DbOptimizedLayout(date, random)[..8]) == TwoTo60 + (date - GregorianReformTicks)
  {
    var offset := date - GregorianReformTicks;
    var t := LongBytes(offset);
    var rest := Reversed(t)[1..];
    PrefixShape(date, random);
    TopTickByte(offset);
    TickBytesBigEndian(offset);
    BigEndianCons(VersionByte(t[7]), rest);
    BigEndianCons(t[7], rest);
    VersionOnTop(VersionByte(t[7]) as int, t[7] as int, BigEndian(rest), Pow256(|rest|), offset);
  }

  /** The arithmetic of `TimestampPrefix`: adding 16 to the top byte adds `2^60`. */
  lemma VersionOnTop(version: int, top: int, lower: int, p: int, offset: int)
    requires p == 0x100_0000_0000_0000
    requires version == top + 16
    requires top * p + lower == offset
    ensures version * p + lower == TwoTo60 + offset
  {
  }

  /** The timestamp half of the layout: the version byte, then the seven lower tick bytes reversed. */
  lemma PrefixShape(date: DateTime, random: Guid)
    ensures var t := LongBytes(date - GregorianReformTicks);
      && DbOptimizedLayout(date, random)[..8] == [VersionByte(t[7])] + Reversed(t)[1..]
      && Reversed(t) == [t[7]] + Reversed(t)[1..]
  {
    var t := LongBytes(date - GregorianReformTicks);
    ReversedEight(t);
  }

  /** Hence the timestamp prefix orders UUIDs by their records' creation time. */
  lemma PrefixOrdersByDate(d1: DateTime, d2: DateTime, r1: Guid, r2: Guid)
    requires 0 <= d1 - GregorianReformTicks < TwoTo60
    requires 0 <= d2 - GregorianReformTicks < TwoTo60
    ensures d1 < d2 <==> BigEndian(DbOptimizedLayout(d1, r1)[..8]) < BigEndian(DbOptimizedLayout(d2, r2)[..8])
  {
    TimestampPrefix(d1, r1);
    TimestampPrefix(d2, r2);
  }
}
