/**
 * Bytes, GUIDs, and `Convert.ToHexString`, which turns the random payload
 * bytes of a test record into text.
 */
module Bytes {
  import opened Wrappers

  newtype byte = x: int | 0 <= x < 256

  /** The sixteen bytes of a `Guid`/`Uuid`, in memory order. */
  type Guid = s: seq<byte> | |s| == 16 witness seq(16, i => 0)

  /** The characters `Convert.ToHexString` emits: digits and upper-case A-F. */
  predicate IsHexDigit(c: char) {
    '0' <= c <= '9' || 'A' <= c <= 'F'
  }

  function HexDigit(n: int): (c: char)
    requires 0 <= n < 16
    ensures IsHexDigit(c)
    ensures DigitValue(c) == n
  {
    if n < 10 then ('0' as int + n) as char else ('A' as int + n - 10) as char
  }

  function DigitValue(c: char): (n: int)
    requires IsHexDigit(c)
    ensures 0 <= n < 16
  {
    if c <= '9' then c as int - '0' as int else c as int - 'A' as int + 10
  }

  /** `Convert.ToHexString`: two upper-case hex digits per byte, high nibble first. */
  function ToHexString(bytes: seq<byte>): (s: string)
    ensures |s| == 2 * |bytes|
    ensures forall i :: 0 <= i < |s| ==> IsHexDigit(s[i])
  {
    if bytes == [] then ""
    else [HexDigit(bytes[0] as int / 16), HexDigit(bytes[0] as int % 16)] + ToHexString(bytes[1..])
  }

  /** Reads hex text back into bytes; `None` for an odd length or a non-hex character. */
  function ParseHex(s: string): (r: Option<seq<byte>>)
    ensures r.Some? ==> 2 * |r.value| == |s|
  {
    if |s| == 0 then Some([])
    else if |s| == 1 || !IsHexDigit(s[0]) || !IsHexDigit(s[1]) then None
    else
      match ParseHex(s[2..])
      case None => None
      case Some(rest) => Some([(DigitValue(s[0]) * 16 + DigitValue(s[1])) as byte] + rest)
  }

  /** The hex text of a payload encodes its bytes exactly. */
  lemma {:induction false} HexRoundTrip(bytes: seq<byte>)
    ensures ParseHex(ToHexString(bytes)) == Some(bytes)
  {
    if bytes != [] {
      var s := ToHexString(bytes);
      assert s[2..] == ToHexString(bytes[1..]);
      HexRoundTrip(bytes[1..]);
      var hi, lo := bytes[0] as int / 16, bytes[0] as int % 16;
      assert DigitValue(s[0]) == hi && DigitValue(s[1]) == lo;
      assert (hi * 16 + lo) as byte == bytes[0];
      assert bytes == [bytes[0]] + bytes[1..];
    }
  }
}
