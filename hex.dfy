/**
 * Go's `encoding/hex`: `EncodeToString`, and `DecodeString` as its inverse.
 */
module Hex {
  import opened Wrappers
  import opened GoTypes

  /** A digit of `0123456789abcdef`, the only digits `EncodeToString` writes. */
  predicate IsLowerHexDigit(c: Byte) {
    '0' <= c <= '9' || 'a' <= c <= 'f'
  }

  /** A hexadecimal digit in either case, as `DecodeString` and `url.QueryUnescape` accept. */
  predicate IsHexDigit(c: Byte) {
    '0' <= c <= '9' || 'a' <= c <= 'f' || 'A' <= c <= 'F'
  }

  /** Every byte of `s` is a lowercase hexadecimal digit. */
  predicate IsLowerHex(s: GoString) {
    forall i :: 0 <= i < |s| ==> IsLowerHexDigit(s[i])
  }

  /** The value of one hexadecimal digit. */
  function HexValue(c: Byte): (v: int)
    requires IsHexDigit(c)
    ensures 0 <= v < 16
  {
    if c <= '9' then c as int - '0' as int
    else if c <= 'F' then c as int - 'A' as int + 10
    else c as int - 'a' as int + 10
  }

  /** The lowercase digit for a nibble. */
  function LowerHexDigit(v: int): (c: Byte)
    requires 0 <= v < 16
    ensures IsLowerHexDigit(c) && IsHexDigit(c) && HexValue(c) == v
  {
    if v < 10 then ('0' as int + v) as char else ('a' as int + v - 10) as char
  }

  /** The uppercase digit for a nibble (used by `url.QueryEscape`). */
  function UpperHexDigit(v: int): (c: Byte)
    requires 0 <= v < 16
    ensures IsHexDigit(c) && HexValue(c) == v
    ensures !IsLowerHexDigit(c) <==> v >= 10
  {
    if v < 10 then ('0' as int + v) as char else ('A' as int + v - 10) as char
  }

  /** The byte whose high and low nibbles are the given digits. */
  function ByteOf(hi: Byte, lo: Byte): Byte
    requires IsHexDigit(hi) && IsHexDigit(lo)
  {
    (HexValue(hi) * 16 + HexValue(lo)) as char
  }

  /** Splitting a byte into nibbles and joining them again gives the byte back. */
  lemma NibblesOfByte(c: Byte)
    ensures ByteOf(LowerHexDigit(c as int / 16), LowerHexDigit(c as int % 16)) == c
    ensures ByteOf(UpperHexDigit(c as int / 16), UpperHexDigit(c as int % 16)) == c
  {
  }

  /** The nibbles of `ByteOf(hi, lo)` are the values of `hi` and `lo`. */
  lemma NibblesOfDigits(hi: Byte, lo: Byte)
    requires IsHexDigit(hi) && IsHexDigit(lo)
    ensures ByteOf(hi, lo) as int / 16 == HexValue(hi)
    ensures ByteOf(hi, lo) as int % 16 == HexValue(lo)
  {
  }

  /** A lowercase digit is the digit written for its own value. */
  lemma LowerDigitOfValue(c: Byte)
    requires IsLowerHexDigit(c)
    ensures LowerHexDigit(HexValue(c)) == c
  {
  }

  /** `hex.EncodeToString`: two lowercase digits per byte, high nibble first. */
  function EncodeToString(src: seq<Byte>): (r: GoString)
    ensures |r| == 2 * |src|
    ensures IsLowerHex(r)
  {
    if src == [] then []
    else [LowerHexDigit(src[0] as int / 16), LowerHexDigit(src[0] as int % 16)] + EncodeToString(src[1..])
  }

  /**
   * `hex.DecodeString`: `None` when the length is odd or a byte is not a
   * hexadecimal digit (Go's `ErrLength` and `InvalidByteError`); both cases
   * of `a`-`f` are accepted.
   */
  function DecodeString(s: GoString): (r: Option<seq<Byte>>)
    ensures r.Some? ==> |s| == 2 * |r.value|
    decreases |s|
  {
    if |s| == 0 then Some([])
    else if |s| >= 2 && IsHexDigit(s[0]) && IsHexDigit(s[1]) then
      match DecodeString(s[2..])
      case None => None
      case Some(t) => Some([ByteOf(s[0], s[1])] + t)
    else None
  }

  /** Decoding an encoding gives the original bytes back. */
  lemma {:induction false} DecodeEncode(b: seq<Byte>)
    ensures DecodeString(EncodeToString(b)) == Some(b)
  {
    if b != [] {
      var s := EncodeToString(b);
      assert s[2..] == EncodeToString(b[1..]);
      DecodeEncode(b[1..]);
      NibblesOfByte(b[0]);
      assert [b[0]] + b[1..] == b;
    }
  }

  /** A lowercase hexadecimal string that decodes is the encoding of what it decodes to. */
  lemma {:induction false} EncodeDecodeLower(s: GoString)
    requires IsLowerHex(s) && DecodeString(s).Some?
    ensures EncodeToString(DecodeString(s).value) == s
  {
    if s != [] {
      assert IsLowerHex(s[2..]) by {
        forall i | 0 <= i < |s[2..]| ensures IsLowerHexDigit(s[2..][i]) {
          assert s[2..][i] == s[i + 2];
        }
      }
      EncodeDecodeLower(s[2..]);
      var b := DecodeString(s).value;
      assert b[1..] == DecodeString(s[2..]).value;
      assert b[0] == ByteOf(s[0], s[1]);
      NibblesOfDigits(s[0], s[1]);
      LowerDigitOfValue(s[0]);
      LowerDigitOfValue(s[1]);
      assert [s[0], s[1]] + s[2..] == s;
    }
  }

  /** `EncodeToString` is injective: distinct digests have distinct encodings. */
  lemma EncodeInjective(a: seq<Byte>, b: seq<Byte>)
    requires EncodeToString(a) == EncodeToString(b)
    ensures a == b
  {
    DecodeEncode(a);
    DecodeEncode(b);
  }
}
