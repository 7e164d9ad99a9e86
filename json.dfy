/**
 * Python's `json.dumps` on a flat list of None, integers and strings, with its
 * defaults: item separator ", " and `ensure_ascii=True` (every character
 * outside printable ASCII is written as a \u escape, section 7 of RFC 8259).
 * The reader beside it parses back exactly the form `dumps` writes, so that
 * what a listener recovers from a datagram can be stated.
 */
module Json {
  import opened Wrappers
  import opened Text
  import Bytes

  datatype Value = Null | Int(i: int) | Str(s: string)

  /** The item separator of `json.dumps` when no `separators` argument is given. */
  const ItemSeparator := ", "

  predicate IsPrintable(c: char) { ' ' <= c <= '~' }

  predicate Printable(s: string) { forall i :: 0 <= i < |s| ==> IsPrintable(s[i]) }

  /** Four lower-case hex digits, as in Python's `'\\u{0:04x}'`. */
  function Hex4(n: nat): (r: string)
    requires n < 0x10000
    ensures |r| == 4 && Printable(r)
  {
    var q1 := n / 16;
    var q2 := q1 / 16;
    [Bytes.HexDigits[q2 / 16], Bytes.HexDigits[q2 % 16], Bytes.HexDigits[q1 % 16], Bytes.HexDigits[n % 16]]
  }

  function UnicodeEscape(n: nat): (r: string)
    requires n < 0x10000
    ensures |r| == 6 && Printable(r) && r[0] == '\\'
  {
    "\\u" + Hex4(n)
  }

  /** A character above U+FFFF as the \u escapes of its UTF-16 surrogate pair. */
  function SurrogateEscape(k: int): (r: string)
    requires 0x10000 <= k < 0x110000
    ensures |r| == 12 && Printable(r) && r[0] == '\\'
  {
    var v := k - 0x10000;
    UnicodeEscape(0xD800 + v / 0x400) + UnicodeEscape(0xDC00 + v % 0x400)
  }

  /**
   * How `ensure_ascii` output writes one character: `"` and `\` and the five
   * short control escapes by name, other printable ASCII as itself, anything
   * else below U+10000 as one \u escape and the rest as a UTF-16 surrogate pair.
   */
  function EscapeChar(c: char): (r: string)
    ensures |r| >= 1 && r[0] != '"' && Printable(r)
  {
    var k := c as int;
    if k >= 0x10000 then SurrogateEscape(k)
    else if c == '"' then "\\\""
    else if c == '\\' then "\\\\"
    else if c == '\n' then "\\n"
    else if c == '\r' then "\\r"
    else if c == '\t' then "\\t"
    else if k == 0x08 then "\\b"
    else if k == 0x0C then "\\f"
    else if IsPrintable(c) then [c]
    else UnicodeEscape(k)
  }

  function Escape(s: string): string
  {
    if s == [] then "" else EscapeChar(s[0]) + Escape(s[1..])
  }

  function EncodeValue(v: Value): (r: string)
    ensures |r| >= 1 && r[0] != ']'
  {
    match v
    case Null => "null"
    case Int(i) =>
      var d := IntToDecimal(i);
      assert i >= 0 ==> d == NatToDecimal(i);
      assert i < 0 ==> d[1..] == NatToDecimal(-i);
      d
    case Str(s) => "\"" + Escape(s) + "\""
  }

  function EncodeItems(vs: seq<Value>): string
  {
    if vs == [] then ""
    else if |vs| == 1 then EncodeValue(vs[0])
    else EncodeValue(vs[0]) + ItemSeparator + EncodeItems(vs[1..])
  }

  /** `json.dumps(vs)` for a list. */
  function Dumps(vs: seq<Value>): (r: string)
    ensures |r| >= 2 && r[0] == '[' && r[|r| - 1] == ']'
  {
    "[" + EncodeItems(vs) + "]"
  }

  lemma PrintableConcat(a: string, b: string)
    requires Printable(a) && Printable(b)
    ensures Printable(a + b)
  {
    forall i | 0 <= i < |a + b| ensures IsPrintable((a + b)[i]) {
      if i < |a| {
        assert (a + b)[i] == a[i];
      } else {
        assert (a + b)[i] == b[i - |a|];
      }
    }
  }

  lemma {:induction false} EscapePrintable(s: string)
    ensures Printable(Escape(s))
  {
    if s != [] {
      EscapePrintable(s[1..]);
      PrintableConcat(EscapeChar(s[0]), Escape(s[1..]));
    }
  }

  lemma ValuePrintable(v: Value)
    ensures Printable(EncodeValue(v))
  {
    match v
    case Null =>
    case Int(i) =>
      var d := IntToDecimal(i);
      if i < 0 {
        assert d == "-" + NatToDecimal(-i);
      } else {
        assert d == NatToDecimal(i);
      }
    case Str(t) =>
      EscapePrintable(t);
  }

  lemma {:induction false} ItemsPrintable(vs: seq<Value>)
    ensures Printable(EncodeItems(vs))
  {
    if vs != [] {
      ValuePrintable(vs[0]);
      if |vs| > 1 {
        ItemsPrintable(vs[1..]);
      }
    }
  }

  /** `dumps` output is printable ASCII only, so `.encode()` is one byte per character. */
  lemma DumpsPrintable(vs: seq<Value>)
    ensures Printable(Dumps(vs))
  {
    ItemsPrintable(vs);
  }

  // ---- Reading back what `dumps` writes ----

  function ReadHex4(s: string): Option<nat>
    requires |s| >= 4
  {
    var a, b, c, d := Bytes.NibbleOf(s[0]), Bytes.NibbleOf(s[1]), Bytes.NibbleOf(s[2]), Bytes.NibbleOf(s[3]);
    if a.None? || b.None? || c.None? || d.None? then None
    else Some(a.value * 4096 + b.value * 256 + c.value * 16 + d.value)
  }

  /** A \u escape at the front of `s`: the code unit it names. */
  function ReadUnicodeEscape(s: string): Option<nat>
  {
    if |s| >= 6 && s[0] == '\\' && s[1] == 'u' then ReadHex4(s[2..6]) else None
  }

  /** The character a two-character escape such as \n stands for. */
  function ShortEscape(e: char): Option<char>
  {
    if e == '"' then Some('"')
    else if e == '\\' then Some('\\')
    else if e == '/' then Some('/')
    else if e == 'n' then Some('\n')
    else if e == 'r' then Some('\r')
    else if e == 't' then Some('\t')
    else if e == 'b' then Some(0x08 as char)
    else if e == 'f' then Some(0x0C as char)
    else None
  }

  /** A \u escape, or a surrogate pair of them, at the front of `s`: the character and its length. */
  function ReadCodePoint(s: string): Option<(char, nat)>
  {
    match ReadUnicodeEscape(s)
    case None => None
    case Some(hi) =>
      if 0xD800 <= hi < 0xDC00 then
        match ReadUnicodeEscape(s[6..])
        case Some(lo) =>
          if 0xDC00 <= lo < 0xE000 then Some(((0x10000 + (hi - 0xD800) * 0x400 + (lo - 0xDC00)) as char, 12))
          else None
        case None => None
      else if hi < 0xD800 || 0xE000 <= hi then Some((hi as char, 6))
      else None
  }

  /** One character of a string body (never the closing quote) and how many characters it took. */
  function ReadChar(s: string): (r: Option<(char, nat)>)
    requires |s| >= 1 && s[0] != '"'
    ensures r.Some? ==> 1 <= r.value.1 <= |s|
  {
    if s[0] != '\\' then (if s[0] as int < 0x20 then None else Some((s[0], 1)))
    else if |s| < 2 then None
    else if s[1] == 'u' then ReadCodePoint(s)
    else
      match ShortEscape(s[1])
      case Some(c) => Some((c, 2))
      case None => None
  }

  /** The characters of a string body up to its closing quote, and what follows the quote. */
  function ReadStringBody(s: string): Option<(string, string)>
    decreases |s|
  {
    if s == [] then None
    else if s[0] == '"' then Some(([], s[1..]))
    else
      match ReadChar(s)
      case None => None
      case Some((c, n)) =>
        match ReadStringBody(s[n..])
        case None => None
        case Some((body, rest)) => Some(([c] + body, rest))
  }

  /** The number of decimal digits at the front of `s`. */
  function DigitSpan(s: string): (n: nat)
    ensures n <= |s| && AllDigits(s[..n])
    ensures n < |s| ==> !IsDigit(s[n])
  {
    if s != [] && IsDigit(s[0]) then
      var n := 1 + DigitSpan(s[1..]);
      assert s[..n] == [s[0]] + s[1..][..n - 1];
      n
    else 0
  }

  /** A JSON natural number at the front of `t` (no leading zeros), and what follows it. */
  function ReadNat(t: string): Option<(nat, string)>
  {
    var n := DigitSpan(t);
    if n == 0 || (t[0] == '0' && n > 1) then None else Some((DigitsValue(t[..n]), t[n..]))
  }

  /** A JSON integer at the front of `s`, and what follows it. */
  function ReadInt(s: string): Option<(int, string)>
  {
    if |s| > 0 && s[0] == '-' then
      match ReadNat(s[1..])
      case Some((m, rest)) => Some((-(m as int), rest))
      case None => None
    else
      match ReadNat(s)
      case Some((m, rest)) => Some((m, rest))
      case None => None
  }

  function ReadValue(s: string): Option<(Value, string)>
  {
    if s == [] then None
    else if s[0] == 'n' then (if |s| >= 4 && s[..4] == "null" then Some((Null, s[4..])) else None)
    else if s[0] == '"' then
      match ReadStringBody(s[1..])
      case None => None
      case Some((body, rest)) => Some((Str(body), rest))
    else
      match ReadInt(s)
      case None => None
      case Some((i, rest)) => Some((Int(i), rest))
  }

  /** Items separated by ", " up to the closing bracket, and what follows the bracket. */
  function ReadItems(s: string): Option<(seq<Value>, string)>
    decreases |s|
  {
    match ReadValue(s)
    case None => None
    case Some((v, rest)) =>
      if |rest| >= 1 && rest[0] == ']' then Some(([v], rest[1..]))
      else if |rest| >= 2 && rest[..2] == ItemSeparator && |rest| < |s| then
        match ReadItems(rest[2..])
        case None => None
        case Some((more, tail)) => Some(([v] + more, tail))
      else None
  }

  /** Parses a whole document holding one array. */
  function ReadArray(s: string): Option<seq<Value>>
  {
    if |s| < 2 || s[0] != '[' then None
    else if s[1] == ']' then (if |s| == 2 then Some([]) else None)
    else
      match ReadItems(s[1..])
      case Some((vs, rest)) => if rest == [] then Some(vs) else None
      case None => None
  }

  // ---- Round trip ----

  lemma ReadHex4Of(n: nat)
    requires n < 0x10000
    ensures ReadHex4(Hex4(n)) == Some(n)
  {
    var q1 := n / 16;
    var q2 := q1 / 16;
    var a, b, c, d := q2 / 16, q2 % 16, q1 % 16, n % 16;
    Bytes.NibbleOfHexDigit(a);
    Bytes.NibbleOfHexDigit(b);
    Bytes.NibbleOfHexDigit(c);
    Bytes.NibbleOfHexDigit(d);
    assert n == q1 * 16 + d;
    assert q1 == q2 * 16 + c;
    assert q2 == a * 16 + b;
  }

  lemma ReadUnicodeEscapeOf(n: nat, rest: string)
    requires n < 0x10000
    ensures ReadUnicodeEscape(UnicodeEscape(n) + rest) == Some(n)
  {
    var s := UnicodeEscape(n) + rest;
    assert s[2..6] == Hex4(n);
    ReadHex4Of(n);
  }

  lemma SurrogatePair(k: int)
    requires 0x10000 <= k < 0x110000
    ensures 0xD800 <= 0xD800 + (k - 0x10000) / 0x400 < 0xDC00
    ensures 0xDC00 <= 0xDC00 + (k - 0x10000) % 0x400 < 0xE000
    ensures 0x10000 + ((k - 0x10000) / 0x400) * 0x400 + (k - 0x10000) % 0x400 == k
  {
  }

  predicate HasShortEscape(c: char)
  {
    c == '"' || c == '\\' || c == '\n' || c == '\r' || c == '\t' || c as int == 0x08 || c as int == 0x0C
  }

  lemma ReadShortEscape(c: char, rest: string)
    requires HasShortEscape(c)
    ensures ReadChar(EscapeChar(c) + rest) == Some((c, 2))
  {
    var e := EscapeChar(c);
    assert |e| == 2 && e[0] == '\\';
    assert (e + rest)[1] == e[1];
  }

  lemma ReadBmpEscape(c: char, rest: string)
    requires !HasShortEscape(c) && !IsPrintable(c) && c as int < 0x10000
    ensures ReadChar(EscapeChar(c) + rest) == Some((c, 6))
  {
    var s := EscapeChar(c) + rest;
    ReadUnicodeEscapeOf(c as int, rest);
    assert s[1] == 'u';
    assert ReadCodePoint(s) == Some((c, 6));
  }

  lemma Assoc<T>(a: seq<T>, b: seq<T>, c: seq<T>)
    ensures a + b + c == a + (b + c)
  {
  }

  lemma ReadSurrogateEscape(c: char, rest: string)
    requires c as int >= 0x10000
    ensures ReadChar(EscapeChar(c) + rest) == Some((c, 12))
  {
    var k := c as int;
    var v := k - 0x10000;
    var hi, lo := 0xD800 + v / 0x400, 0xDC00 + v % 0x400;
    SurrogatePair(k);
    assert EscapeChar(c) == UnicodeEscape(hi) + UnicodeEscape(lo);
    Assoc(UnicodeEscape(hi), UnicodeEscape(lo), rest);
    ReadSurrogatePair(hi, lo, rest);
    assert 0x10000 + (hi - 0xD800) * 0x400 + (lo - 0xDC00) == k;
  }

  lemma ReadSurrogatePair(hi: nat, lo: nat, rest: string)
    requires 0xD800 <= hi < 0xDC00 && 0xDC00 <= lo < 0xE000
    ensures ReadChar(UnicodeEscape(hi) + (UnicodeEscape(lo) + rest))
            == Some(((0x10000 + (hi - 0xD800) * 0x400 + (lo - 0xDC00)) as char, 12))
  {
    var s := UnicodeEscape(hi) + (UnicodeEscape(lo) + rest);
    ReadUnicodeEscapeOf(hi, UnicodeEscape(lo) + rest);
    assert s[6..] == UnicodeEscape(lo) + rest;
    ReadUnicodeEscapeOf(lo, rest);
    assert s[0] == '\\' && s[1] == 'u';
  }

  lemma ReadEscapedChar(c: char, rest: string)
    ensures ReadChar(EscapeChar(c) + rest) == Some((c, |EscapeChar(c)|))
  {
    if HasShortEscape(c) {
      ReadShortEscape(c, rest);
    } else if IsPrintable(c) {
    } else if c as int < 0x10000 {
      ReadBmpEscape(c, rest);
    } else {
      ReadSurrogateEscape(c, rest);
    }
  }

  lemma ReadStringBodyStep(s: string, c: char, n: nat, body: string, rest: string)
    requires |s| >= 1 && s[0] != '"' && ReadChar(s) == Some((c, n))
    requires ReadStringBody(s[n..]) == Some((body, rest))
    ensures ReadStringBody(s) == Some(([c] + body, rest))
  {
  }

  lemma {:induction false} ReadEscapedBody(t: string, rest: string)
    ensures ReadStringBody(Escape(t) + "\"" + rest) == Some((t, rest))
  {
    if t == [] {
      assert Escape(t) + "\"" + rest == "\"" + rest;
    } else {
      var e := EscapeChar(t[0]);
      var tail := Escape(t[1..]) + "\"" + rest;
      var s := e + tail;
      assert Escape(t) + "\"" + rest == s;
      ReadEscapedChar(t[0], tail);
      assert s[|e|..] == tail;
      ReadEscapedBody(t[1..], rest);
      ReadStringBodyStep(s, t[0], |e|, t[1..], rest);
      assert t == [t[0]] + t[1..];
    }
  }

  lemma {:induction false} DigitSpanOf(d: string, rest: string)
    requires AllDigits(d)
    requires rest == [] || !IsDigit(rest[0])
    ensures DigitSpan(d + rest) == |d|
    decreases |d|
  {
    if d != [] {
      DigitSpanOf(d[1..], rest);
      assert (d + rest)[1..] == d[1..] + rest;
    }
  }

  /** The digits of a natural number, followed by a non-digit, read back as that number. */
  lemma ReadNatOf(m: nat, rest: string)
    requires rest == [] || !IsDigit(rest[0])
    ensures ReadNat(NatToDecimal(m) + rest) == Some((m, rest))
  {
    var d := NatToDecimal(m);
    var t := d + rest;
    DigitSpanOf(d, rest);
    assert t[..|d|] == d;
    assert t[|d|..] == rest;
    DigitsValueOfDecimal(m);
  }

  lemma ReadNegativeOf(m: nat, rest: string)
    requires rest == [] || !IsDigit(rest[0])
    ensures ReadInt("-" + (NatToDecimal(m) + rest)) == Some((-(m as int), rest))
  {
    var t := NatToDecimal(m) + rest;
    ReadNatOf(m, rest);
    assert ("-" + t)[0] == '-' && ("-" + t)[1..] == t;
  }

  lemma ReadIntOf(i: int, rest: string)
    requires rest == [] || !IsDigit(rest[0])
    ensures ReadInt(IntToDecimal(i) + rest) == Some((i, rest))
  {
    if i < 0 {
      Assoc("-", NatToDecimal(-i), rest);
      ReadNegativeOf(-i, rest);
    } else {
      ReadNatOf(i, rest);
      assert NatToDecimal(i)[0] != '-';
    }
  }

  /** What follows a value in `dumps` output: a separator or the closing bracket. */
  predicate Follows(rest: string)
  {
    |rest| >= 1 && (rest[0] == ']' || rest[0] == ',')
  }

  lemma ReadIntValueOf(i: int, rest: string)
    requires Follows(rest)
    ensures ReadValue(EncodeValue(Int(i)) + rest) == Some((Int(i), rest))
  {
    var d := IntToDecimal(i);
    var s := d + rest;
    assert EncodeValue(Int(i)) == d;
    ReadIntOf(i, rest);
    assert s[0] == d[0];
    assert d[0] == '-' || IsDigit(d[0]) by {
      if i >= 0 {
        assert d == NatToDecimal(i);
      }
    }
  }

  lemma ReadStrValueOf(t: string, rest: string)
    requires Follows(rest)
    ensures ReadValue(EncodeValue(Str(t)) + rest) == Some((Str(t), rest))
  {
    var s := EncodeValue(Str(t)) + rest;
    assert s[0] == '"' && s[1..] == Escape(t) + "\"" + rest;
    ReadEscapedBody(t, rest);
  }

  lemma ReadValueOf(v: Value, rest: string)
    requires Follows(rest)
    ensures ReadValue(EncodeValue(v) + rest) == Some((v, rest))
  {
    match v
    case Null =>
      var s := EncodeValue(v) + rest;
      assert s[..4] == "null" && s[4..] == rest;
    case Int(i) =>
      ReadIntValueOf(i, rest);
    case Str(t) =>
      ReadStrValueOf(t, rest);
  }

  lemma ReadLastItem(s: string, v: Value, rest: string)
    requires ReadValue(s) == Some((v, "]" + rest))
    ensures ReadItems(s) == Some(([v], rest))
  {
    assert ("]" + rest)[1..] == rest;
  }

  lemma ReadNextItem(s: string, v: Value, more: string, vs: seq<Value>, rest: string)
    requires ReadValue(s) == Some((v, ItemSeparator + more))
    requires |ItemSeparator + more| < |s|
    requires ReadItems(more) == Some((vs, rest))
    ensures ReadItems(s) == Some(([v] + vs, rest))
  {
    var tail := ItemSeparator + more;
    assert tail[0] == ',' && tail[..2] == ItemSeparator && tail[2..] == more;
  }

  lemma ReadOneItem(v: Value, rest: string)
    ensures ReadItems(EncodeItems([v]) + "]" + rest) == Some(([v], rest))
  {
    var e := EncodeValue(v);
    ReadValueOf(v, "]" + rest);
    assert EncodeItems([v]) + "]" + rest == e + ("]" + rest);
    ReadLastItem(e + ("]" + rest), v, rest);
  }

  lemma ReadItemsCons(vs: seq<Value>, rest: string)
    requires |vs| >= 2
    requires ReadItems(EncodeItems(vs[1..]) + "]" + rest) == Some((vs[1..], rest))
    ensures ReadItems(EncodeItems(vs) + "]" + rest) == Some((vs, rest))
  {
    var e := EncodeValue(vs[0]);
    var more := EncodeItems(vs[1..]) + "]" + rest;
    var tail := ItemSeparator + more;
    ItemsCons(vs, rest);
    ReadValueOf(vs[0], tail);
    ReadNextItem(e + tail, vs[0], more, vs[1..], rest);
    assert vs == [vs[0]] + vs[1..];
  }

  lemma ItemsCons(vs: seq<Value>, rest: string)
    requires |vs| >= 2
    ensures EncodeItems(vs) + "]" + rest == EncodeValue(vs[0]) + (ItemSeparator + (EncodeItems(vs[1..]) + "]" + rest))
  {
  }

  lemma {:induction false} ReadItemsOf(vs: seq<Value>, rest: string)
    requires |vs| >= 1
    ensures ReadItems(EncodeItems(vs) + "]" + rest) == Some((vs, rest))
    decreases |vs|
  {
    if |vs| == 1 {
      ReadOneItem(vs[0], rest);
      assert vs == [vs[0]];
    } else {
      ReadItemsOf(vs[1..], rest);
      ReadItemsCons(vs, rest);
    }
  }

  /** Parsing what `json.dumps` wrote gives back the same list, element for element. */
  lemma ReadDumps(vs: seq<Value>)
    ensures ReadArray(Dumps(vs)) == Some(vs)
  {
    var s := Dumps(vs);
    if vs == [] {
      assert s == "[]";
    } else {
      assert s[1..] == EncodeItems(vs) + "]" + "";
      ReadItemsOf(vs, "");
      assert s[1] == EncodeValue(vs[0])[0];
    }
  }
}
