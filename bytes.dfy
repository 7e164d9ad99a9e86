/**
 * Bytes on the wire: Python's `str.encode()` (UTF-8), the ASCII view of a
 * byte string, and `hashlib`'s `hexdigest()` formatting.
 */
module Bytes {
  import opened Wrappers

  newtype byte = x: int | 0 <= x < 256

  predicate IsContinuation(b: byte) { 0x80 <= b < 0xC0 }

  /** UTF-8 encoding of one Unicode scalar value (section 3 of RFC 3629). */
  function EncodeChar(c: char): (r: seq<byte>)
    ensures 1 <= |r| <= 4
    ensures (c as int < 0x80) == (|r| == 1)
  {
    var k := c as int;
    if k < 0x80 then [k as byte]
    else if k < 0x800 then [(0xC0 + k / 64) as byte, (0x80 + k % 64) as byte]
    else if k < 0x10000 then
      [(0xE0 + k / 4096) as byte, (0x80 + (k / 64) % 64) as byte, (0x80 + k % 64) as byte]
    else
      [(0xF0 + k / 0x40000) as byte, (0x80 + (k / 4096) % 64) as byte,
       (0x80 + (k / 64) % 64) as byte, (0x80 + k % 64) as byte]
  }

  /** Python's `s.encode()`: UTF-8, the default codec. */
  function Encode(s: string): (r: seq<byte>)
    ensures |s| <= |r| <= 4 * |s|
    ensures s == [] <==> r == []
  {
    if s == [] then [] else EncodeChar(s[0]) + Encode(s[1..])
  }

  /**
   * The character a multi-byte sequence stands for, when it is a scalar value
   * that needs that many bytes: an overlong form (`least` is the smallest
   * value of its length) and a surrogate are refused, as by a strict decoder.
   */
  function ScalarOf(k: int, least: int): Option<char>
  {
    if least <= k && (0 <= k < 0xD800 || 0xE000 <= k < 0x110000) then Some(k as char) else None
  }

  /** Reads one UTF-8 sequence at the front of `b`: the character and how many bytes it took. */
  function DecodeChar(b: seq<byte>): (r: Option<(char, nat)>)
    ensures r.Some? ==> 1 <= r.value.1 <= |b|
  {
    if |b| == 0 then None
    else if b[0] < 0x80 then Some((b[0] as int as char, 1))
    else if 0xC0 <= b[0] < 0xE0 && |b| >= 2 && IsContinuation(b[1]) then
      match ScalarOf((b[0] as int - 0xC0) * 64 + (b[1] as int - 0x80), 0x80)
      case Some(c) => Some((c, 2))
      case None => None
    else if 0xE0 <= b[0] < 0xF0 && |b| >= 3 && IsContinuation(b[1]) && IsContinuation(b[2]) then
      match ScalarOf((b[0] as int - 0xE0) * 4096 + (b[1] as int - 0x80) * 64 + (b[2] as int - 0x80), 0x800)
      case Some(c) => Some((c, 3))
      case None => None
    else if 0xF0 <= b[0] < 0xF8 && |b| >= 4 && IsContinuation(b[1]) && IsContinuation(b[2])
            && IsContinuation(b[3]) then
      match ScalarOf((b[0] as int - 0xF0) * 0x40000 + (b[1] as int - 0x80) * 4096
                     + (b[2] as int - 0x80) * 64 + (b[3] as int - 0x80), 0x10000)
      case Some(c) => Some((c, 4))
      case None => None
    else None
  }

  /** A reader's `bytes.decode()`: None where the bytes are not UTF-8 this reader accepts. */
  function Decode(b: seq<byte>): (r: Option<string>)
    ensures r.Some? ==> |r.value| <= |b|
    ensures r.Some? ==> (r.value == [] <==> b == [])
    decreases |b|
  {
    if b == [] then Some([])
    else
      match DecodeChar(b)
      case None => None
      case Some((c, n)) =>
        match Decode(b[n..])
        case None => None
        case Some(rest) => Some([c] + rest)
  }

  lemma DecodeEncodedChar(c: char, rest: seq<byte>)
    ensures DecodeChar(EncodeChar(c) + rest) == Some((c, |EncodeChar(c)|))
  {
    var k := c as int;
    if k < 0x80 {
    } else if k < 0x800 {
      DecodeTwo(k, EncodeChar(c) + rest);
      assert ScalarOf(k, 0x80) == Some(c);
    } else if k < 0x10000 {
      DecodeThree(k, EncodeChar(c) + rest);
      assert ScalarOf(k, 0x800) == Some(c);
    } else {
      DecodeFour(k, EncodeChar(c) + rest);
      assert ScalarOf(k, 0x10000) == Some(c);
    }
  }

  lemma DecodeTwo(k: int, e: seq<byte>)
    requires 0x80 <= k < 0x800 && |e| >= 2
    requires e[0] as int == 0xC0 + k / 64 && e[1] as int == 0x80 + k % 64
    ensures (e[0] as int - 0xC0) * 64 + (e[1] as int - 0x80) == k
  {
  }

  lemma DecodeThree(k: int, e: seq<byte>)
    requires 0x800 <= k < 0x10000 && |e| >= 3
    requires e[0] as int == 0xE0 + k / 4096 && e[1] as int == 0x80 + (k / 64) % 64
    requires e[2] as int == 0x80 + k % 64
    ensures (e[0] as int - 0xE0) * 4096 + (e[1] as int - 0x80) * 64 + (e[2] as int - 0x80) == k
  {
    var q := k / 64;
    assert k == q * 64 + k % 64;
    assert q == (q / 64) * 64 + q % 64;
    assert q / 64 == k / 4096;
  }

  lemma DecodeFour(k: int, e: seq<byte>)
    requires 0x10000 <= k < 0x110000 && |e| >= 4
    requires e[0] as int == 0xF0 + k / 0x40000 && e[1] as int == 0x80 + (k / 4096) % 64
    requires e[2] as int == 0x80 + (k / 64) % 64 && e[3] as int == 0x80 + k % 64
    ensures (e[0] as int - 0xF0) * 0x40000 + (e[1] as int - 0x80) * 4096
            + (e[2] as int - 0x80) * 64 + (e[3] as int - 0x80) == k
  {
    var q := k / 64;
    var p := q / 64;
    assert k == q * 64 + k % 64;
    assert q == p * 64 + q % 64;
    assert p == (p / 64) * 64 + p % 64;
    assert p == k / 4096;
    assert p / 64 == k / 0x40000;
  }

  /** What `encode()` writes, a UTF-8 reader reads back unchanged. */
  lemma {:induction false} DecodeEncode(s: string)
    ensures Decode(Encode(s)) == Some(s)
  {
    if s != [] {
      var e := EncodeChar(s[0]);
      DecodeEncodedChar(s[0], Encode(s[1..]));
      assert (e + Encode(s[1..]))[|e|..] == Encode(s[1..]);
      DecodeEncode(s[1..]);
      assert s == [s[0]] + s[1..];
    }
  }

  /**
   * The reader accepts only the shortest form: whatever it reads at the front
   * of `b` is exactly the UTF-8 encoding of the character it returns.
   */
  lemma DecodeCharCanonical(b: seq<byte>)
    requires DecodeChar(b).Some?
    ensures b[..DecodeChar(b).value.1] == EncodeChar(DecodeChar(b).value.0)
  {
    var (c, n) := DecodeChar(b).value;
    var k := c as int;
    if n == 2 {
      DigitsOfTwo(b[0] as int - 0xC0, b[1] as int - 0x80, k);
    } else if n == 3 {
      DigitsOfThree(b[0] as int - 0xE0, b[1] as int - 0x80, b[2] as int - 0x80, k);
    } else if n == 4 {
      DigitsOfFour(b[0] as int - 0xF0, b[1] as int - 0x80, b[2] as int - 0x80, b[3] as int - 0x80, k);
    }
  }

  lemma DigitsOfTwo(h: int, l: int, k: int)
    requires 0 <= h && 0 <= l < 64 && k == h * 64 + l
    ensures k / 64 == h && k % 64 == l
  {
  }

  lemma DigitsOfThree(h: int, m: int, l: int, k: int)
    requires 0 <= h && 0 <= m < 64 && 0 <= l < 64 && k == h * 4096 + m * 64 + l
    ensures k / 4096 == h && (k / 64) % 64 == m && k % 64 == l
  {
    DigitsOfTwo(h * 64 + m, l, k);
    DigitsOfTwo(h, m, h * 64 + m);
    assert k / 4096 == (k / 64) / 64;
  }

  lemma DigitsOfFour(h: int, u: int, m: int, l: int, k: int)
    requires 0 <= h && 0 <= u < 64 && 0 <= m < 64 && 0 <= l < 64
    requires k == h * 0x40000 + u * 4096 + m * 64 + l
    ensures k / 0x40000 == h && (k / 4096) % 64 == u && (k / 64) % 64 == m && k % 64 == l
  {
    DigitsOfTwo(h * 4096 + u * 64 + m, l, k);
    DigitsOfThree(h, u, m, h * 4096 + u * 64 + m);
    assert k / 4096 == (k / 64) / 64;
    assert k / 0x40000 == ((k / 64) / 64) / 64;
  }

  /** One step of the reader: the first character, then what the rest decodes to. */
  lemma DecodeStep(b: seq<byte>)
    requires b != [] && Decode(b).Some?
    ensures DecodeChar(b).Some?
    ensures var (c, n) := DecodeChar(b).value;
      Decode(b[n..]).Some? && Decode(b).value == [c] + Decode(b[n..]).value
  {
  }

  lemma EncodeCons(c: char, s: string)
    ensures Encode([c] + s) == EncodeChar(c) + Encode(s)
  {
    assert ([c] + s)[1..] == s;
  }

  lemma Reassemble(b: seq<byte>, n: nat, head: seq<byte>, tail: seq<byte>)
    requires n <= |b| && b[..n] == head && b[n..] == tail
    ensures b == head + tail
  {
    assert b == b[..n] + b[n..];
  }

  /** Whatever the reader accepts is exactly what `encode()` writes for the text it returns. */
  lemma {:induction false} EncodeDecode(b: seq<byte>)
    requires Decode(b).Some?
    ensures Encode(Decode(b).value) == b
    decreases |b|
  {
    if b != [] {
      DecodeStep(b);
      var (c, n) := DecodeChar(b).value;
      var rest := Decode(b[n..]).value;
      EncodeDecode(b[n..]);
      DecodeCharCanonical(b);
      EncodeCons(c, rest);
      Reassemble(b, n, EncodeChar(c), Encode(rest));
    }
  }

  /** Overlong forms of NUL, which a strict decoder rejects, are not read. */
  lemma RejectsOverlong()
    ensures Decode([0xC0, 0x80]) == None
    ensures Decode([0xE0, 0x80, 0x80]) == None
    ensures Decode([0xF0, 0x80, 0x80, 0x80]) == None
  {
  }

  predicate IsAscii(s: string) { forall i :: 0 <= i < |s| ==> s[i] as int < 0x80 }

  /** On ASCII text, UTF-8 is one byte per character, equal to its code. */
  lemma {:induction false} EncodeAscii(s: string)
    requires IsAscii(s)
    ensures |Encode(s)| == |s|
    ensures forall i :: 0 <= i < |s| ==> Encode(s)[i] as int == s[i] as int
  {
    if s != [] {
      EncodeAscii(s[1..]);
      assert Encode(s) == [s[0] as int as byte] + Encode(s[1..]);
    }
  }

  const HexDigits := "0123456789abcdef"

  predicate IsLowerHex(c: char) { c in HexDigits }

  function HexByte(b: byte): (r: string)
    ensures |r| == 2 && IsLowerHex(r[0]) && IsLowerHex(r[1])
  {
    [HexDigits[b / 16], HexDigits[b % 16]]
  }

  /** `hexdigest()`: two lower-case hexadecimal digits per byte, high nibble first. */
  function HexDigest(d: seq<byte>): (r: string)
    ensures |r| == 2 * |d|
    ensures forall i :: 0 <= i < |r| ==> IsLowerHex(r[i])
  {
    if d == [] then "" else HexByte(d[0]) + HexDigest(d[1..])
  }

  function NibbleOf(c: char): (v: Option<nat>)
    ensures v.Some? ==> v.value < 16
  {
    if '0' <= c <= '9' then Some(c as int - '0' as int)
    else if 'a' <= c <= 'f' then Some(c as int - 'a' as int + 10)
    else None
  }

  lemma NibbleOfHexDigit(v: nat)
    requires v < 16
    ensures NibbleOf(HexDigits[v]) == Some(v)
  {
    if v < 10 {
      assert HexDigits[v] as int == '0' as int + v;
    } else {
      assert HexDigits[v] as int == 'a' as int + v - 10;
    }
  }

  /** Reads a hex digest back into the bytes it was formatted from. */
  function ParseHex(s: string): Option<seq<byte>>
    decreases |s|
  {
    if |s| < 2 then (if s == [] then Some([]) else None)
    else
      var hi, lo, rest := NibbleOf(s[0]), NibbleOf(s[1]), ParseHex(s[2..]);
      if hi.None? || lo.None? || rest.None? then None
      else Some([(hi.value * 16 + lo.value) as byte] + rest.value)
  }

  lemma ParseHexStep(s: string, hi: nat, lo: nat, tail: seq<byte>)
    requires |s| >= 2 && NibbleOf(s[0]) == Some(hi) && NibbleOf(s[1]) == Some(lo) && ParseHex(s[2..]) == Some(tail)
    ensures ParseHex(s) == Some([(hi * 16 + lo) as byte] + tail)
  {
  }

  lemma ParseHexHead(b: byte, rest: string, tail: seq<byte>)
    requires ParseHex(rest) == Some(tail)
    ensures ParseHex(HexByte(b) + rest) == Some([b] + tail)
  {
    var h := HexByte(b) + rest;
    var hi, lo := b as int / 16, b as int % 16;
    assert h[0] == HexDigits[hi] && h[1] == HexDigits[lo] && h[2..] == rest;
    NibbleOfHexDigit(hi);
    NibbleOfHexDigit(lo);
    ParseHexStep(h, hi, lo, tail);
    assert (hi * 16 + lo) as byte == b;
  }

  lemma {:induction false} ParseHexDigest(d: seq<byte>)
    ensures ParseHex(HexDigest(d)) == Some(d)
  {
    if d != [] {
      ParseHexDigest(d[1..]);
      ParseHexHead(d[0], HexDigest(d[1..]), d[1..]);
      assert d == [d[0]] + d[1..];
    }
  }
}
