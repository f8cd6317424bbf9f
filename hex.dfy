/** Lower-case hexadecimal, as Rust's `{:x}` writes a digest: two digits per byte. */
module Hex {

  type Byte = b: int | 0 <= b < 256

  predicate IsHexDigit(c: char) {
    '0' <= c <= '9' || 'a' <= c <= 'f'
  }

  predicate IsLowerHex(s: string) {
    forall i | 0 <= i < |s| :: IsHexDigit(s[i])
  }

  function HexDigit(d: nat): (c: char)
    requires d < 16
    ensures IsHexDigit(c) && HexDigitValue(c) == d
  {
    if d < 10 then (d + '0' as int) as char else (d - 10 + 'a' as int) as char
  }

  function HexDigitValue(c: char): (d: nat)
    requires IsHexDigit(c)
    ensures d < 16
  {
    if c <= '9' then c as int - '0' as int else c as int - 'a' as int + 10
  }

  /** The `{:x}` rendering of a byte string: high nibble first, zero-padded. */
  function ToHex(bytes: seq<Byte>): (s: string)
    ensures |s| == 2 * |bytes| && IsLowerHex(s)
  {
    if bytes == [] then ""
    else [HexDigit(bytes[0] / 16), HexDigit(bytes[0] % 16)] + ToHex(bytes[1..])
  }

  /** The bytes a lower-case hex string of even length denotes. */
  function FromHex(s: string): seq<Byte>
    requires |s| % 2 == 0 && IsLowerHex(s)
  {
    if s == [] then [] else [16 * HexDigitValue(s[0]) + HexDigitValue(s[1])] + FromHex(s[2..])
  }

  /** Hex encoding loses nothing: decoding gives the bytes back. */
  lemma {:induction false} HexRoundTrip(bytes: seq<Byte>)
    ensures FromHex(ToHex(bytes)) == bytes
  {
    if bytes != [] {
      var s := ToHex(bytes);
      assert s[2..] == ToHex(bytes[1..]);
      HexRoundTrip(bytes[1..]);
    }
  }
}
