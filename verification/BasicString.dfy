/**
 The two sides of one quoted string: `json.dumps(value, ensure_ascii=False)`, which
 the manifest renderer emits (RFC 8259, section 7), and the TOML v1.0.0 basic string
 (section "String"), which `tomllib` reads back.  The two grammars disagree on exactly
 one character, U+007F: JSON passes it through raw and TOML forbids it.
 */
module BasicString {
  import opened Wrappers

  const DEL: char := '\U{7F}'
  const BACKSPACE: char := '\U{8}'
  const FORM_FEED: char := '\U{C}'

  // ----- json.dumps -----

  function HexDigit(n: nat): (c: char)
    requires n < 16
  {
    if n < 10 then '0' + n as char else 'a' + (n - 10) as char
  }

  function EscapeChar(c: char): (s: string)
    ensures |s| > 0
  {
    if c == '"' then ['\\', '"']
    else if c == '\\' then ['\\', '\\']
    else if c == '\n' then ['\\', 'n']
    else if c == '\r' then ['\\', 'r']
    else if c == '\t' then ['\\', 't']
    else if c == FORM_FEED then ['\\', 'f']
    else if c == BACKSPACE then ['\\', 'b']
    else if c as int < 0x20 then
      ['\\', 'u', '0', '0', HexDigit(c as int / 16), HexDigit(c as int % 16)]
    else [c]
  }

  function Escape(s: string): string {
    if |s| == 0 then "" else EscapeChar(s[0]) + Escape(s[1..])
  }

  /** `_toml_string(value)`. */
  function Quoted(s: string): string {
    ['"'] + Escape(s) + ['"']
  }

  // ----- the TOML reader -----

  function HexValue(c: char): (v: Option<nat>)
    ensures v.Some? ==> v.value < 16
  {
    if '0' <= c <= '9' then Some((c - '0') as nat)
    else if 'a' <= c <= 'f' then Some((c - 'a') as nat + 10)
    else if 'A' <= c <= 'F' then Some((c - 'A') as nat + 10)
    else None
  }

  function HexRun(s: string): Option<nat> {
    if |s| == 0 then Some(0)
    else
      match (HexRun(s[..|s| - 1]), HexValue(s[|s| - 1]))
      case (Some(high), Some(low)) => Some(16 * high + low)
      case _ => None
  }

  predicate IsScalar(n: nat) {
    n < 0xD800 || 0xE000 <= n < 0x11_0000
  }

  /** The escape after a backslash: its character and how much text it used. */
  function ReadEscape(s: string): (r: Option<(char, nat)>)
    ensures r.Some? ==> 0 < r.value.1 <= |s|
  {
    if |s| == 0 then None
    else if s[0] == '"' then Some(('"', 1))
    else if s[0] == '\\' then Some(('\\', 1))
    else if s[0] == 'n' then Some(('\n', 1))
    else if s[0] == 'r' then Some(('\r', 1))
    else if s[0] == 't' then Some(('\t', 1))
    else if s[0] == 'f' then Some((FORM_FEED, 1))
    else if s[0] == 'b' then Some((BACKSPACE, 1))
    else if s[0] == 'u' then ReadCodePoint(s, 4)
    else if s[0] == 'U' then ReadCodePoint(s, 8)
    else None
  }

  function ReadCodePoint(s: string, width: nat): (r: Option<(char, nat)>)
    requires |s| > 0
    ensures r.Some? ==> 0 < r.value.1 <= |s|
  {
    if |s| < width + 1 then None
    else
      match HexRun(s[1..width + 1])
      case Some(n) => if IsScalar(n) then Some((n as char, width + 1)) else None
      case None => None
  }

  /** Control characters other than tab may not appear raw in a basic string. */
  predicate IllegalInBasicString(c: char) {
    (c as int < 0x20 && c != '\t') || c == DEL
  }

  /** Reads up to and including the closing quote; `rest` is what follows it. */
  function ReadBasic(s: string): (r: Option<(string, string)>)
    ensures r.Some? ==> |r.value.1| < |s|
    decreases |s|
  {
    if |s| == 0 then None
    else if s[0] == '"' then Some(("", s[1..]))
    else if s[0] == '\\' then
      match ReadEscape(s[1..])
      case None => None
      case Some((c, used)) => Prepend(c, ReadBasic(s[1 + used..]))
    else if IllegalInBasicString(s[0]) then None
    else Prepend(s[0], ReadBasic(s[1..]))
  }

  function Prepend(c: char, r: Option<(string, string)>): (p: Option<(string, string)>)
    ensures p.Some? == r.Some?
    ensures r.Some? ==> p.value == ([c] + r.value.0, r.value.1)
  {
    match r
    case None => None
    case Some((text, rest)) => Some(([c] + text, rest))
  }

  // ----- the round trip -----

  lemma ReadControlEscape(c: char, rest: string)
    requires c as int < 0x20
    ensures ReadCodePoint(['u', '0', '0', HexDigit(c as int / 16), HexDigit(c as int % 16)] + rest, 4)
         == Some((c, 5))
  {
    var high, low := HexDigit(c as int / 16), HexDigit(c as int % 16);
    var s := ['u', '0', '0', high, low] + rest;
    assert s[1..5] == ['0', '0', high, low];
    assert s[1..5][..3] == ['0', '0', high];
    assert s[1..5][..3][..2] == ['0', '0'];
    assert s[1..5][..3][..2][..1] == ['0'];
    assert HexRun(['0']) == Some(0) by { assert ['0'][..0] == ""; }
    assert HexRun(['0', '0']) == Some(0);
    assert HexRun(['0', '0', high]) == Some(c as int / 16);
  }

  /** One character's escape is undone by the reader, except that a raw U+007F stops it. */
  lemma ReadEscapedChar(c: char, rest: string)
    ensures ReadBasic(EscapeChar(c) + rest)
         == if c == DEL then None else Prepend(c, ReadBasic(rest))
  {
    var e := EscapeChar(c);
    var s := e + rest;
    if e[0] == '\\' {
      var escape := s[1..];
      assert escape == e[1..] + rest;
      if |e| == 2 {
        assert s[2..] == rest;
      } else {
        ReadControlEscape(c, rest);
        assert s[6..] == rest;
      }
    } else {
      assert s[1..] == rest;
    }
  }

  /** Reading what `json.dumps` wrote gives the string back exactly when it holds no U+007F. */
  lemma {:induction false} QuotedRoundTrip(s: string, rest: string)
    ensures ReadBasic(Escape(s) + ['"'] + rest)
         == if DEL in s then None else Some((s, rest))
  {
    if |s| == 0 {
      assert Escape(s) + ['"'] + rest == ['"'] + rest;
    } else {
      var tail := Escape(s[1..]) + ['"'] + rest;
      assert Escape(s) + ['"'] + rest == EscapeChar(s[0]) + tail;
      ReadEscapedChar(s[0], tail);
      QuotedRoundTrip(s[1..], rest);
      assert s == [s[0]] + s[1..];
    }
  }
}
