/**
 UTF-8, as RFC 3629 section 3 gives it: one to four bytes for a scalar value.  Bytes decode
 to a text exactly when they are its encoding, and equal bytes come from equal text.
 */
module Utf8 {
  import opened Wrappers
  import opened Text

  function EncodeChar(c: char): (bytes: seq<Byte>)
    ensures 1 <= |bytes| <= 4
  {
    var n := c as int;
    if n < 0x80 then [n]
    else if n < 0x800 then [0xC0 + n / 64, 0x80 + n % 64]
    else if n < 0x1_0000 then [0xE0 + n / 4096, 0x80 + n / 64 % 64, 0x80 + n % 64]
    else [0xF0 + n / 262144, 0x80 + n / 4096 % 64, 0x80 + n / 64 % 64, 0x80 + n % 64]
  }

  function Encode(s: string): seq<Byte> {
    if |s| == 0 then [] else EncodeChar(s[0]) + Encode(s[1..])
  }

  // ----- reading back -----

  /** How many bytes the first one announces. */
  function Width(first: Byte): (w: nat)
    ensures 1 <= w <= 4
  {
    if first < 0x80 then 1 else if first < 0xE0 then 2 else if first < 0xF0 then 3 else 4
  }

  /** The number that the bytes of one character spell. */
  function Spelled(bytes: seq<Byte>): int
    requires |bytes| > 0 && |bytes| == Width(bytes[0])
  {
    match |bytes|
    case 1 => Above(bytes, 0, 0)
    case 2 => Above(bytes, 0, 0xC0) * 64 + Above(bytes, 1, 0x80)
    case 3 => Above(bytes, 0, 0xE0) * 4096 + Above(bytes, 1, 0x80) * 64 + Above(bytes, 2, 0x80)
    case _ =>
      Above(bytes, 0, 0xF0) * 262144 + Above(bytes, 1, 0x80) * 4096 + Above(bytes, 2, 0x80) * 64 + Above(bytes, 3, 0x80)
  }

  /** The payload of a byte whose marker bits make up `marker`. */
  function Above(bytes: seq<Byte>, i: nat, marker: int): int
    requires i < |bytes|
  {
    bytes[i] - marker
  }

  /** The bytes of a character announce their own number and spell the character. */
  lemma SpelledIsChar(c: char)
    ensures var bytes := EncodeChar(c);
         |bytes| == Width(bytes[0]) && Spelled(bytes) == c as int
  {
    var n := c as int;
    assert n < 0x11_0000;
    Digits(n);
    Digits(n / 64);
    Digits(n / 4096);
    assert n / 64 / 64 == n / 4096 && n / 4096 / 64 == n / 262144;
  }

  lemma Digits(n: int)
    requires n >= 0
    ensures n == n / 64 * 64 + n % 64 && 0 <= n % 64 < 64
  {
  }

  /** The character spelled by exactly these bytes; overlong forms and surrogates spell none. */
  function DecodeChar(bytes: seq<Byte>): (c: Option<char>)
    ensures c.Some? ==> EncodeChar(c.value) == bytes
  {
    if |bytes| == 0 || |bytes| != Width(bytes[0]) then None
    else
      var n := Spelled(bytes);
      if !(0 <= n < 0xD800 || 0xE000 <= n < 0x11_0000) then None
      else if EncodeChar(n as char) == bytes then Some(n as char) else None
  }

  /** `bytes.decode("utf-8")`. */
  function Decode(bytes: seq<Byte>): Option<string> {
    if |bytes| == 0 then Some("")
    else if Width(bytes[0]) > |bytes| then None
    else
      match DecodeChar(bytes[..Width(bytes[0])])
      case None => None
      case Some(c) =>
        match Decode(bytes[Width(bytes[0])..])
        case None => None
        case Some(rest) => Some([c] + rest)
  }

  lemma DecodeFirst(c: char, rest: seq<Byte>)
    ensures var bytes := EncodeChar(c) + rest; var w := Width(bytes[0]);
      w <= |bytes| && DecodeChar(bytes[..w]) == Some(c) && bytes[w..] == rest
  {
    SpelledIsChar(c);
    var bytes := EncodeChar(c) + rest;
    assert bytes[..|EncodeChar(c)|] == EncodeChar(c);
  }

  lemma {:induction false} EncodedDecodes(s: string)
    ensures Decode(Encode(s)) == Some(s)
  {
    if |s| > 0 {
      DecodeFirst(s[0], Encode(s[1..]));
      EncodedDecodes(s[1..]);
      assert s == [s[0]] + s[1..];
    }
  }

  /** A text that was decoded starts with the character of the first bytes. */
  lemma DecodeSplits(bytes: seq<Byte>) returns (c: char, rest: string)
    requires |bytes| > 0 && Decode(bytes).Some?
    ensures var w := Width(bytes[0]);
      && w <= |bytes| && EncodeChar(c) == bytes[..w]
      && Decode(bytes[w..]) == Some(rest) && Decode(bytes) == Some([c] + rest)
  {
    var w := Width(bytes[0]);
    c, rest := DecodeChar(bytes[..w]).value, Decode(bytes[w..]).value;
  }

  lemma EncodeFront(c: char, rest: string)
    ensures Encode([c] + rest) == EncodeChar(c) + Encode(rest)
  {
    assert ([c] + rest)[1..] == rest;
  }

  lemma {:induction false} DecodedIsEncoding(bytes: seq<Byte>)
    requires Decode(bytes).Some?
    ensures Encode(Decode(bytes).value) == bytes
    decreases |bytes|
  {
    if |bytes| > 0 {
      var c, rest := DecodeSplits(bytes);
      DecodedIsEncoding(bytes[Width(bytes[0])..]);
      EncodeFront(c, rest);
    }
  }

  /** Bytes decode to a text exactly when they are its encoding. */
  lemma DecodeExactly(bytes: seq<Byte>, s: string)
    ensures Decode(bytes) == Some(s) <==> bytes == Encode(s)
  {
    EncodedDecodes(s);
    if Decode(bytes).Some? {
      DecodedIsEncoding(bytes);
    }
  }

  /** Text whose bytes begin the same begins with the same character. */
  lemma FirstChar(a: char, b: char, x: seq<Byte>, y: seq<Byte>)
    requires EncodeChar(a) + x == EncodeChar(b) + y
    ensures a == b && x == y
  {
    SpelledIsChar(a);
    SpelledIsChar(b);
    var all := EncodeChar(a) + x;
    assert all[0] == EncodeChar(a)[0] && all[0] == EncodeChar(b)[0];
    var w := Width(all[0]);
    assert EncodeChar(a) == all[..w] && EncodeChar(b) == all[..w];
    assert x == all[w..] && y == all[w..];
  }

  /** Equal bytes come from equal text. */
  lemma {:induction false} EncodeIsInjective(a: string, b: string)
    requires Encode(a) == Encode(b)
    ensures a == b
  {
    if |a| > 0 && |b| > 0 {
      FirstChar(a[0], b[0], Encode(a[1..]), Encode(b[1..]));
      EncodeIsInjective(a[1..], b[1..]);
      assert a == [a[0]] + a[1..] && b == [b[0]] + b[1..];
    }
  }

  lemma {:induction false} EncodeAppend(a: string, b: string)
    ensures Encode(a + b) == Encode(a) + Encode(b)
  {
    if |a| == 0 {
      assert a + b == b;
    } else {
      EncodeAppend(a[1..], b);
      FirstOfMore(a, b);
      Regroup(EncodeChar(a[0]), Encode(a[1..]), Encode(b));
    }
  }

  lemma FirstOfMore(a: string, b: string)
    requires |a| > 0
    ensures Encode(a + b) == EncodeChar(a[0]) + Encode(a[1..] + b)
  {
    assert (a + b)[1..] == a[1..] + b;
  }

  lemma Regroup(x: seq<Byte>, y: seq<Byte>, z: seq<Byte>)
    ensures x + (y + z) == (x + y) + z
  {
  }

  lemma {:induction false} EncodedLength(s: string)
    ensures |s| <= |Encode(s)| <= 4 * |s|
  {
    if |s| > 0 {
      EncodedLength(s[1..]);
    }
  }
}
