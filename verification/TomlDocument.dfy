/**
 TOML documents made of `key = value` lines and `[table]` headers: the statements a
 renderer emits, what a list of them means, and a left-to-right reader of the text.
 The reader covers the part of TOML v1.0.0 with bare keys, dotted table headers, basic
 strings, decimal integers and booleans; every other construct is rejected.
 */
module TomlDocument {
  import opened Wrappers
  import opened Text
  import opened BasicString

  datatype Value = Str(text: string) | Int(number: int) | Bool(flag: bool) | Table(entries: Dict)
  type Dict = map<string, Value>

  datatype Statement = Pair(key: string, value: Value) | Header(path: seq<string>)

  predicate BareKeyChar(c: char) {
    IsDigit(c) || 'a' <= c <= 'z' || 'A' <= c <= 'Z' || c == '_' || c == '-'
  }

  predicate BareKey(key: string) {
    |key| > 0 && forall i :: 0 <= i < |key| ==> BareKeyChar(key[i])
  }

  predicate WellFormed(s: Statement) {
    match s
    case Pair(key, value) => BareKey(key) && !value.Table?
    case Header(path) => |path| > 0 && forall i :: 0 <= i < |path| ==> BareKey(path[i])
  }

  // ----- rendering -----

  function IntText(n: int): string {
    if n < 0 then "-" + Decimal(-n) else Decimal(n)
  }

  function ValueText(v: Value): string
    requires !v.Table?
  {
    match v
    case Str(text) => Quoted(text)
    case Int(n) => IntText(n)
    case Bool(b) => if b then "true" else "false"
  }

  function StatementText(s: Statement): string
    requires WellFormed(s)
  {
    match s
    case Pair(key, value) => key + " = " + ValueText(value) + "\n"
    case Header(path) => "\n[" + Join(path, '.') + "]\n"
  }

  function DocumentText(statements: seq<Statement>): string
    requires forall s <- statements :: WellFormed(s)
  {
    if |statements| == 0 then "" else StatementText(statements[0]) + DocumentText(statements[1..])
  }

  // ----- meaning -----

  /** The tables built so far, the headers already used, and the table being filled. */
  datatype Reader = Reader(root: Dict, declared: set<seq<string>>, current: seq<string>)

  const EMPTY_READER := Reader(map[], {}, [])

  /** Stores a new key in the table at `path`; an existing key or a non-table is an error. */
  function PutIn(root: Dict, path: seq<string>, key: string, value: Value): Option<Dict>
    decreases |path|
  {
    if |path| == 0 then
      if key in root then None else Some(root[key := value])
    else if path[0] in root && root[path[0]].Table? then
      match PutIn(root[path[0]].entries, path[1..], key, value)
      case Some(inner) => Some(root[path[0] := Table(inner)])
      case None => None
    else None
  }

  /** Creates the missing tables along `path`. */
  function Declare(root: Dict, path: seq<string>): Option<Dict>
    decreases |path|
  {
    if |path| == 0 then Some(root)
    else if path[0] in root && !root[path[0]].Table? then None
    else
      var below := if path[0] in root then root[path[0]].entries else map[];
      match Declare(below, path[1..])
      case Some(inner) => Some(root[path[0] := Table(inner)])
      case None => None
  }

  function Step(r: Reader, s: Statement): Option<Reader> {
    match s
    case Pair(key, value) =>
      (match PutIn(r.root, r.current, key, value)
       case Some(root) => Some(r.(root := root))
       case None => None)
    case Header(path) =>
      if path in r.declared then None
      else
        match Declare(r.root, path)
        case Some(root) => Some(Reader(root, r.declared + {path}, path))
        case None => None
  }

  function Meaning(r: Reader, statements: seq<Statement>): Option<Reader>
    decreases |statements|
  {
    if |statements| == 0 then Some(r)
    else
      match Step(r, statements[0])
      case Some(next) => Meaning(next, statements[1..])
      case None => None
  }

  lemma {:induction false} MeaningAppend(r: Reader, a: seq<Statement>, b: seq<Statement>)
    ensures Meaning(r, a + b)
         == match Meaning(r, a) case Some(m) => Meaning(m, b) case None => None
    decreases |a|
  {
    if |a| == 0 {
      assert a + b == b;
    } else {
      assert (a + b)[1..] == a[1..] + b;
      match Step(r, a[0])
      case Some(next) => MeaningAppend(next, a[1..], b);
      case None =>
    }
  }

  // ----- reading -----

  predicate IsBlank(c: char) {
    c == ' ' || c == '\t'
  }

  function SkipBlanks(s: string): (rest: string)
    ensures |rest| <= |s|
  {
    if |s| > 0 && IsBlank(s[0]) then SkipBlanks(s[1..]) else s
  }

  /** The longest bare key at the front of `s`, and the text after it. */
  function ReadKey(s: string): (r: (string, string))
    ensures |r.0| + |r.1| == |s|
  {
    if |s| > 0 && BareKeyChar(s[0]) then
      var (key, rest) := ReadKey(s[1..]);
      ([s[0]] + key, rest)
    else ("", s)
  }

  function ReadPath(s: string): (r: Option<(seq<string>, string)>)
    ensures r.Some? ==> |r.value.1| < |s|
    decreases |s|
  {
    var (key, afterKey) := ReadKey(SkipBlanks(s));
    var rest := SkipBlanks(afterKey);
    if |key| == 0 || |rest| == 0 then None
    else if rest[0] == ']' then Some(([key], rest[1..]))
    else if rest[0] == '.' then
      match ReadPath(rest[1..])
      case Some((path, after)) => Some(([key] + path, after))
      case None => None
    else None
  }

  function DigitRun(s: string): (n: nat)
    ensures n <= |s|
    ensures forall i :: 0 <= i < n ==> IsDigit(s[i])
  {
    if |s| > 0 && IsDigit(s[0]) then 1 + DigitRun(s[1..]) else 0
  }

  /** An unsigned decimal integer without leading zeros. */
  function ReadNatural(s: string): (r: Option<(nat, string)>)
    ensures r.Some? ==> |r.value.1| < |s|
  {
    var n := DigitRun(s);
    if n == 0 || (n > 1 && s[0] == '0') then None else Some((DigitsValue(s[..n]), s[n..]))
  }

  function ReadValue(s: string): (r: Option<(Value, string)>)
    ensures r.Some? ==> |r.value.1| < |s|
  {
    if |s| == 0 then None
    else if s[0] == '"' then
      if "\"\"\"" <= s then None
      else
        match ReadBasic(s[1..])
        case Some((text, rest)) => Some((Str(text), rest))
        case None => None
    else if "true" <= s then Some((Bool(true), s[4..]))
    else if "false" <= s then Some((Bool(false), s[5..]))
    else if s[0] == '-' || s[0] == '+' then
      match ReadNatural(s[1..])
      case Some((n, rest)) => Some((Int(if s[0] == '-' then -(n as int) else n), rest))
      case None => None
    else
      match ReadNatural(s)
      case Some((n, rest)) => Some((Int(n), rest))
      case None => None
  }

  /** One statement at the front of `s`, up to but not including its line end. */
  function ReadStatement(s: string): (r: Option<(Statement, string)>)
    ensures r.Some? ==> |r.value.1| < |s|
  {
    if |s| == 0 then None
    else if s[0] == '[' then
      match ReadPath(s[1..])
      case Some((path, rest)) => Some((Header(path), rest))
      case None => None
    else
      var (key, afterKey) := ReadKey(s);
      var equals := SkipBlanks(afterKey);
      if |key| == 0 || |equals| == 0 || equals[0] != '=' then None
      else
        match ReadValue(SkipBlanks(equals[1..]))
        case Some((value, rest)) => Some((Pair(key, value), rest))
        case None => None
  }

  function ReadDocument(s: string, r: Reader): (d: Option<Reader>)
    decreases |s|
  {
    var line := SkipBlanks(s);
    if |line| == 0 then Some(r)
    else if line[0] == '\n' then ReadDocument(line[1..], r)
    else
      match ReadStatement(line)
      case None => None
      case Some((statement, after)) =>
        var rest := SkipBlanks(after);
        if |rest| > 0 && rest[0] != '\n' then None
        else
          match Step(r, statement)
          case None => None
          case Some(next) => if |rest| == 0 then Some(next) else ReadDocument(rest[1..], next)
  }

  /** `tomllib.loads`: the top-level table, or a decode error. */
  function Loads(s: string): Option<Dict> {
    match ReadDocument(s, EMPTY_READER)
    case Some(r) => Some(r.root)
    case None => None
  }

  // ----- the reader undoes the renderer -----

  lemma {:induction false} ReadKeyAt(key: string, rest: string)
    requires forall i :: 0 <= i < |key| ==> BareKeyChar(key[i])
    requires |rest| > 0 ==> !BareKeyChar(rest[0])
    ensures ReadKey(key + rest) == (key, rest)
  {
    if |key| == 0 {
      assert key + rest == rest;
    } else {
      assert (key + rest)[1..] == key[1..] + rest;
      ReadKeyAt(key[1..], rest);
      assert key == [key[0]] + key[1..];
    }
  }

  lemma {:induction false} DigitRunAt(digits: string, rest: string)
    requires forall i :: 0 <= i < |digits| ==> IsDigit(digits[i])
    requires |rest| > 0 ==> !IsDigit(rest[0])
    ensures DigitRun(digits + rest) == |digits|
  {
    if |digits| == 0 {
      assert digits + rest == rest;
    } else {
      assert (digits + rest)[1..] == digits[1..] + rest;
      DigitRunAt(digits[1..], rest);
    }
  }

  lemma ReadDecimal(n: nat, rest: string)
    requires |rest| > 0 ==> !IsDigit(rest[0])
    ensures ReadNatural(Decimal(n) + rest) == Some((n, rest))
  {
    var digits := Decimal(n);
    DigitRunAt(digits, rest);
    DecimalRoundTrip(n);
    assert (digits + rest)[..|digits|] == digits;
    assert (digits + rest)[|digits|..] == rest;
  }

  /** Does the statement carry a string that TOML cannot hold raw? */
  predicate HoldsDel(s: Statement) {
    s.Pair? && s.value.Str? && DEL in s.value.text
  }

  lemma ReadStringAt(text: string, rest: string)
    requires |rest| > 0 && rest[0] == '\n'
    ensures ReadValue(Quoted(text) + rest) == if DEL in text then None else Some((Str(text), rest))
  {
    var s := Quoted(text) + rest;
    var body := Escape(text) + ['"'] + rest;
    assert s[1..] == body;
    QuotedRoundTrip(text, rest);
    if |text| == 0 {
      assert s == ['"', '"'] + rest;
      assert s[2] == rest[0];
    } else {
      assert s[1] == EscapeChar(text[0])[0] != '"';
    }
  }

  lemma ReadIntAt(n: int, rest: string)
    requires |rest| > 0 && rest[0] == '\n'
    ensures ReadValue(IntText(n) + rest) == Some((Int(n), rest))
  {
    if n < 0 {
      ReadDecimal(-n, rest);
      ReadSigned("-" + Decimal(-n) + rest, Decimal(-n) + rest, -n, rest);
    } else {
      ReadDecimal(n, rest);
      ReadUnsigned(Decimal(n) + rest, n, rest);
    }
  }

  lemma ReadUnsigned(s: string, n: nat, rest: string)
    requires |s| > 0 && IsDigit(s[0]) && ReadNatural(s) == Some((n, rest))
    ensures ReadValue(s) == Some((Int(n), rest))
  {
    assert "true"[0] == 't' && "false"[0] == 'f';
  }

  lemma ReadSigned(s: string, digits: string, n: nat, rest: string)
    requires s == "-" + digits && ReadNatural(digits) == Some((n, rest))
    ensures ReadValue(s) == Some((Int(-(n as int)), rest))
  {
    assert s[0] == '-' && s[1..] == digits;
    assert "true"[0] == 't' && "false"[0] == 'f';
  }

  lemma ReadValueAt(v: Value, rest: string)
    requires !v.Table?
    requires |rest| > 0 && rest[0] == '\n'
    ensures ReadValue(ValueText(v) + rest)
         == if v.Str? && DEL in v.text then None else Some((v, rest))
  {
    match v
    case Str(text) => ReadStringAt(text, rest);
    case Int(n) => ReadIntAt(n, rest);
    case Bool(b) =>
      var s := ValueText(v) + rest;
      assert s[|ValueText(v)|..] == rest;
      assert s[0] == if b then 't' else 'f';
  }

  lemma {:induction false} ReadPathAt(path: seq<string>, rest: string)
    requires |path| > 0 && forall i :: 0 <= i < |path| ==> BareKey(path[i])
    ensures ReadPath(Join(path, '.') + [']'] + rest) == Some((path, rest))
  {
    var s := Join(path, '.') + [']'] + rest;
    var key := path[0];
    if |path| == 1 {
      assert s == key + ([']'] + rest);
      ReadKeyAt(key, [']'] + rest);
      assert s[0] == key[0];
      assert ([']'] + rest)[1..] == rest;
      assert path == [key];
    } else {
      var tail := Join(path[1..], '.') + [']'] + rest;
      assert s == key + (['.'] + tail);
      ReadKeyAt(key, ['.'] + tail);
      assert s[0] == key[0];
      assert SkipBlanks(['.'] + tail) == ['.'] + tail;
      assert (['.'] + tail)[1..] == tail;
      ReadPathAt(path[1..], rest);
      assert path == [key] + path[1..];
    }
  }

  /** A statement's text without the blank line a header starts with. */
  function StatementLine(s: Statement): string
    requires WellFormed(s)
  {
    if s.Header? then "[" + Join(s.path, '.') + "]\n" else StatementText(s)
  }

  lemma ReadPairAt(key: string, value: Value, rest: string)
    requires BareKey(key) && !value.Table?
    ensures ReadStatement(key + " = " + ValueText(value) + ['\n'] + rest)
         == if HoldsDel(Pair(key, value)) then None else Some((Pair(key, value), ['\n'] + rest))
  {
    var valueText := ValueText(value) + (['\n'] + rest);
    var s := key + " = " + ValueText(value) + ['\n'] + rest;
    var equals := ['='] + ([' '] + valueText);
    assert s == key + ([' '] + equals);
    ReadKeyAt(key, [' '] + equals);
    assert s[0] == key[0];
    assert ([' '] + equals)[1..] == equals;
    assert SkipBlanks([' '] + equals) == SkipBlanks(equals) == equals;
    assert equals[1..] == [' '] + valueText;
    assert ([' '] + valueText)[1..] == valueText;
    assert SkipBlanks([' '] + valueText) == SkipBlanks(valueText);
    ValueTextStart(value);
    assert valueText[0] == ValueText(value)[0];
    ReadValueAt(value, ['\n'] + rest);
  }

  lemma ValueTextStart(value: Value)
    requires !value.Table?
    ensures |ValueText(value)| > 0 && !IsBlank(ValueText(value)[0])
  {
  }

  lemma ReadStatementAt(s: Statement, rest: string)
    requires WellFormed(s)
    ensures ReadStatement(StatementLine(s) + rest)
         == if HoldsDel(s) then None else Some((s, ['\n'] + rest))
  {
    match s
    case Pair(key, value) =>
      ReadPairAt(key, value, rest);
      assert StatementLine(s) + rest == key + " = " + ValueText(value) + ['\n'] + rest;
    case Header(path) =>
      var after := ['\n'] + rest;
      var inner := Join(path, '.') + [']'] + after;
      assert StatementLine(s) + rest == ['['] + inner;
      assert (StatementLine(s) + rest)[1..] == inner;
      ReadPathAt(path, after);
  }

  /** One rendered statement moves the reader exactly as its meaning says. */
  lemma ReadDocumentStep(s: Statement, rest: string, r: Reader)
    requires WellFormed(s)
    ensures ReadDocument(StatementText(s) + rest, r)
         == if HoldsDel(s) then None
            else match Step(r, s) case Some(next) => ReadDocument(rest, next) case None => None
  {
    var text := StatementLine(s) + rest;
    ReadStatementAt(s, rest);
    LineShape(s, rest);
    ReadLine(s, text, rest, r);
    SkipNewline(text, r);
  }

  lemma LineShape(s: Statement, rest: string)
    requires WellFormed(s)
    ensures var text := StatementLine(s) + rest;
         && |text| > 0 && !IsBlank(text[0]) && text[0] != '\n'
         && StatementText(s) + rest == if s.Header? then ['\n'] + text else text
  {
    assert (StatementLine(s) + rest)[0] == if s.Header? then '[' else s.key[0];
    if s.Header? {
      assert StatementText(s) + rest == ['\n'] + (StatementLine(s) + rest);
    }
  }

  lemma SkipNewline(text: string, r: Reader)
    ensures ReadDocument(['\n'] + text, r) == ReadDocument(text, r)
  {
    var whole := ['\n'] + text;
    assert whole[1..] == text && SkipBlanks(whole) == whole;
  }

  /** A line that reads as `s` and ends where it should. */
  lemma ReadLine(s: Statement, text: string, rest: string, r: Reader)
    requires |text| > 0 && !IsBlank(text[0]) && text[0] != '\n'
    requires ReadStatement(text) == if HoldsDel(s) then None else Some((s, ['\n'] + rest))
    ensures ReadDocument(text, r)
         == if HoldsDel(s) then None
            else match Step(r, s) case Some(next) => ReadDocument(rest, next) case None => None
  {
    var after := ['\n'] + rest;
    assert after[1..] == rest && SkipBlanks(after) == after && SkipBlanks(text) == text;
  }

  /** Reading a rendered document gives its meaning, unless some string holds U+007F. */
  lemma {:induction false} ReadRendered(statements: seq<Statement>, r: Reader)
    requires forall s <- statements :: WellFormed(s)
    ensures ReadDocument(DocumentText(statements), r)
         == if exists s <- statements :: HoldsDel(s) then None else Meaning(r, statements)
    decreases |statements|
  {
    if |statements| > 0 {
      var s, rest := statements[0], statements[1..];
      assert statements == [s] + rest;
      ReadDocumentStep(s, DocumentText(rest), r);
      match Step(r, s)
      case Some(next) => ReadRendered(rest, next);
      case None =>
    }
  }
}
