/**
 The `--env` text of the launch form: one `KEY=VALUE` per line, read strictly, with an
 inverse for every map of variables the guard keeps.
 */
module EnvPairs {
  import opened Wrappers
  import opened Text
  import opened EnvGuard

  datatype EnvError = NoEquals(entry: string) | BadKey(key: string) | Refused(decision: EnvDecision)

  type Pairs = seq<(string, string)>

  // ----- str::lines, str::trim, str::split_once -----

  /** `char::is_whitespace`: the White_Space property. */
  predicate IsWhite(c: char) {
    var n := c as int;
    || 0x09 <= n <= 0x0D || n == 0x20 || n == 0x85 || n == 0xA0 || n == 0x1680
    || 0x2000 <= n <= 0x200A || n == 0x2028 || n == 0x2029 || n == 0x202F || n == 0x205F || n == 0x3000
  }

  function StripCr(line: string): string {
    if |line| > 0 && line[|line| - 1] == '\r' then line[..|line| - 1] else line
  }

  /** A terminated line loses one trailing carriage return; an empty last line is not a line. */
  function LinesOf(parts: seq<string>): seq<string>
    requires |parts| > 0
  {
    if |parts| == 1 then (if parts[0] == "" then [] else parts)
    else [StripCr(parts[0])] + LinesOf(parts[1..])
  }

  function Lines(s: string): seq<string> {
    LinesOf(Split(s, '\n'))
  }

  function TrimStart(s: string): (t: string)
    ensures |t| > 0 ==> !IsWhite(t[0])
    ensures forall c <- t :: c in s
  {
    if |s| > 0 && IsWhite(s[0]) then TrimStart(s[1..]) else s
  }

  function TrimEnd(s: string): (t: string)
    ensures |t| > 0 ==> !IsWhite(t[|t| - 1])
    ensures t <= s
  {
    if |s| > 0 && IsWhite(s[|s| - 1]) then TrimEnd(s[..|s| - 1]) else s
  }

  function Trim(s: string): (t: string)
    ensures |t| > 0 ==> !IsWhite(t[0]) && !IsWhite(t[|t| - 1])
    ensures forall c <- t :: c in s
  {
    TrimEnd(TrimStart(s))
  }

  function IndexOf(s: string, c: char): (i: nat)
    ensures i <= |s| && c !in s[..i] && (i < |s| <==> c in s)
    ensures i < |s| ==> s[i] == c
  {
    if |s| == 0 || s[0] == c then 0
    else
      var rest := IndexOf(s[1..], c);
      assert s[..rest + 1] == [s[0]] + s[1..][..rest];
      rest + 1
  }

  // ----- one line -----

  predicate IsAsciiLetter(c: char) {
    'a' <= c <= 'z' || 'A' <= c <= 'Z'
  }

  /** `[A-Za-z_][A-Za-z0-9_]*`. */
  predicate IsValidEnvKey(key: string) {
    && |key| > 0 && (IsAsciiLetter(key[0]) || key[0] == '_')
    && forall c <- key[1..] :: IsAsciiLetter(c) || IsDigit(c) || c == '_'
  }

  datatype Entry = Blank | Pair(key: string, value: string) | Wrong(error: EnvError)

  function ReadEntry(line: string): Entry {
    var entry := Trim(line);
    var i := IndexOf(entry, '=');
    if entry == "" then Blank
    else if i == |entry| then Wrong(NoEquals(entry))
    else
      var key, value := entry[..i], entry[i + 1..];
      if !IsValidEnvKey(key) then Wrong(BadKey(key))
      else if Decide(key, value) != Keep then Wrong(Refused(Decide(key, value)))
      else Pair(key, value)
  }

  // ----- the whole text -----

  /** What one more line does to the pairs before it. */
  function AddEntry(done: Pairs, e: Entry): Result<Pairs, EnvError> {
    match e
    case Wrong(error) => Failure(error)
    case Blank => Success(done)
    case Pair(key, value) => Success(done + [(key, value)])
  }

  /** The pairs of the entries in order, or the error of the first wrong one. */
  function PairsIn(entries: seq<Entry>): Result<Pairs, EnvError> {
    if |entries| == 0 then Success([])
    else
      match PairsIn(entries[..|entries| - 1])
      case Failure(e) => Failure(e)
      case Success(done) => AddEntry(done, entries[|entries| - 1])
  }

  function EntriesOf(lines: seq<string>): (entries: seq<Entry>)
    ensures |entries| == |lines| && forall i :: 0 <= i < |lines| ==> entries[i] == ReadEntry(lines[i])
  {
    if |lines| == 0 then [] else [ReadEntry(lines[0])] + EntriesOf(lines[1..])
  }

  function PairsOf(lines: seq<string>): Result<Pairs, EnvError> {
    PairsIn(EntriesOf(lines))
  }

  /** The map in which a later pair overrides an earlier one with the same key. */
  function MapOf(pairs: Pairs): map<string, string> {
    if |pairs| == 0 then map[]
    else MapOf(pairs[..|pairs| - 1])[pairs[|pairs| - 1].0 := pairs[|pairs| - 1].1]
  }

  function CollectedFrom(pairs: Result<Pairs, EnvError>): Result<map<string, string>, EnvError> {
    match pairs
    case Failure(e) => Failure(e)
    case Success(ps) => Success(MapOf(ps))
  }

  function Parse(raw: string): Result<map<string, string>, EnvError> {
    CollectedFrom(PairsOf(Lines(raw)))
  }

  function PrintPairs(pairs: Pairs): string {
    if |pairs| == 0 then "" else pairs[0].0 + "=" + pairs[0].1 + "\n" + PrintPairs(pairs[1..])
  }

  /** An error met early is the error of the whole text. */
  lemma {:induction false} FailureStays(entries: seq<Entry>, i: nat)
    requires i <= |entries| && PairsIn(entries[..i]).Failure?
    ensures PairsIn(entries) == PairsIn(entries[..i])
    decreases |entries|
  {
    if i == |entries| {
      assert entries[..i] == entries;
    } else {
      assert entries[..|entries| - 1][..i] == entries[..i];
      FailureStays(entries[..|entries| - 1], i);
    }
  }

  /** What the lines decide without running the loop: the first wrong line, or the last pair per key. */
  lemma {:induction false} LastPairWins(pairs: Pairs, key: string)
    ensures key in MapOf(pairs) <==> exists i :: 0 <= i < |pairs| && pairs[i].0 == key
    ensures key in MapOf(pairs) ==>
      exists i :: 0 <= i < |pairs| && pairs[i] == (key, MapOf(pairs)[key])
                  && forall j :: i < j < |pairs| ==> pairs[j].0 != key
  {
    if |pairs| > 0 {
      var n := |pairs| - 1;
      LastPairWins(pairs[..n], key);
      if pairs[n].0 == key {
        assert pairs[n] == (key, MapOf(pairs)[key]);
      } else if key in MapOf(pairs) {
        var i :| 0 <= i < n && pairs[..n][i] == (key, MapOf(pairs[..n])[key])
          && forall j :: i < j < n ==> pairs[..n][j].0 != key;
        assert pairs[i] == (key, MapOf(pairs)[key]);
        assert forall j :: i < j < n ==> pairs[j] == pairs[..n][j];
      } else {
        assert forall i :: 0 <= i < n ==> pairs[i] == pairs[..n][i];
      }
    }
  }

  lemma MapOfAppend(pairs: Pairs, key: string, value: string)
    ensures MapOf(pairs + [(key, value)]) == MapOf(pairs)[key := value]
  {
    assert (pairs + [(key, value)])[..|pairs|] == pairs;
  }

  lemma NextEntry(entries: seq<Entry>, i: nat, done: Pairs)
    requires i < |entries| && PairsIn(entries[..i]) == Success(done)
    ensures PairsIn(entries[..i + 1]) == AddEntry(done, entries[i])
  {
    assert entries[..i + 1][..i] == entries[..i];
  }

  lemma NextMap(done: Pairs, e: Entry)
    requires !e.Wrong?
    ensures MapOf(AddEntry(done, e).value) == if e.Pair? then MapOf(done)[e.key := e.value] else MapOf(done)
  {
    if e.Pair? {
      MapOfAppend(done, e.key, e.value);
    }
  }

  /** The loop over the lines, given what each of them reads as. */
  method CollectPairs(entries: seq<Entry>) returns (result: Result<map<string, string>, EnvError>)
    ensures result == CollectedFrom(PairsIn(entries))
  {
    var pairs: map<string, string> := map[];
    ghost var done: Pairs := [];
    for i := 0 to |entries|
      invariant PairsIn(entries[..i]) == Success(done) && pairs == MapOf(done)
    {
      NextEntry(entries, i, done);
      match entries[i] {
        case Blank =>
        case Wrong(e) =>
          FailureStays(entries, i + 1);
          return Failure(e);
        case Pair(key, value) =>
          NextMap(done, entries[i]);
          pairs := pairs[key := value];
          done := AddEntry(done, entries[i]).value;
      }
    }
    assert entries[..|entries|] == entries;
    return Success(pairs);
  }

  /** `parse_env_pairs`. */
  method ParseEnvPairs(raw: string) returns (result: Result<map<string, string>, EnvError>)
    ensures result == Parse(raw)
  {
    result := CollectPairs(EntriesOf(Lines(raw)));
  }

  // ----- which pairs survive printing -----

  /** A pair that one printed line can carry. */
  predicate Printable(key: string, value: string) {
    && IsValidEnvKey(key) && Kept(key, value)
    && '\n' !in value && (|value| > 0 ==> !IsWhite(value[|value| - 1]))
  }

  lemma KeyHasNoMarks(key: string)
    requires IsValidEnvKey(key)
    ensures '=' !in key && '\n' !in key && !IsWhite(key[0])
  {
    assert key == [key[0]] + key[1..];
  }

  lemma IndexOfFirst(a: string, c: char, b: string)
    requires c !in a
    ensures IndexOf(a + [c] + b, c) == |a|
  {
    var s, i := a + [c] + b, IndexOf(a + [c] + b, c);
    assert s[|a|] == c && c in s;
    assert forall j :: 0 <= j < |a| ==> a[j] == s[j];
    assert forall j :: 0 <= j < i ==> s[..i][j] == s[j];
  }

  lemma TrimKeeps(line: string)
    requires |line| > 0 && !IsWhite(line[0]) && !IsWhite(line[|line| - 1])
    ensures Trim(line) == line && StripCr(line) == line
  {
  }

  lemma ReadTrimmed(line: string, key: string, value: string)
    requires line == key + ['='] + value && Trim(line) == line && '=' !in key
    requires IsValidEnvKey(key) && Decide(key, value) == Keep
    ensures ReadEntry(line) == Pair(key, value)
  {
    IndexOfFirst(key, '=', value);
    assert line[..|key|] == key && line[|key| + 1..] == value;
  }

  /** A printed line reads back as its pair. */
  lemma ReadPrinted(key: string, value: string, line: string)
    requires Printable(key, value) && line == key + ['='] + value
    ensures StripCr(line) == line && ReadEntry(line) == Pair(key, value) && '\n' !in line
  {
    KeyHasNoMarks(key);
    assert line[0] == key[0];
    assert line[|line| - 1] == if |value| > 0 then value[|value| - 1] else '=';
    TrimKeeps(line);
    ReadTrimmed(line, key, value);
  }

  lemma FirstLine(line: string, rest: string)
    requires '\n' !in line && StripCr(line) == line
    ensures Lines(line + ['\n'] + rest) == [line] + Lines(rest)
  {
    SplitPart(line, rest, '\n');
    assert ([line] + Split(rest, '\n'))[1..] == Split(rest, '\n');
  }

  lemma {:induction false} FirstEntry(key: string, value: string, rest: seq<Entry>)
    requires PairsIn(rest).Success?
    ensures PairsIn([Pair(key, value)] + rest) == Success([(key, value)] + PairsIn(rest).value)
    decreases |rest|
  {
    var whole := [Pair(key, value)] + rest;
    if |rest| == 0 {
      assert whole[..0] == [] && [] + [(key, value)] == [(key, value)] + [];
    } else {
      var front := rest[..|rest| - 1];
      assert whole[..|rest|] == [Pair(key, value)] + front;
      FirstEntry(key, value, front);
      AddBehind((key, value), PairsIn(front).value, rest[|rest| - 1]);
    }
  }

  lemma FirstPair(line: string, rest: seq<string>, key: string, value: string)
    requires ReadEntry(line) == Pair(key, value) && PairsOf(rest).Success?
    ensures PairsOf([line] + rest) == Success([(key, value)] + PairsOf(rest).value)
  {
    EntriesInFront(line, rest);
    FirstEntry(key, value, EntriesOf(rest));
  }

  lemma EntriesInFront(line: string, rest: seq<string>)
    ensures EntriesOf([line] + rest) == [ReadEntry(line)] + EntriesOf(rest)
  {
    assert ([line] + rest)[1..] == rest;
  }

  lemma AddBehind(first: (string, string), done: Pairs, e: Entry)
    requires !e.Wrong?
    ensures AddEntry([first] + done, e) == Success([first] + AddEntry(done, e).value)
  {
    assert e.Pair? ==> ([first] + done) + [(e.key, e.value)] == [first] + (done + [(e.key, e.value)]);
  }

  /** One printed line in front of text that reads back adds its pair in front. */
  lemma PrintedInFront(key: string, value: string, rest: string, pairs: Pairs)
    requires Printable(key, value) && PairsOf(Lines(rest)) == Success(pairs)
    ensures PairsOf(Lines(key + "=" + value + "\n" + rest)) == Success([(key, value)] + pairs)
  {
    var line := key + ['='] + value;
    assert key + "=" + value + "\n" + rest == line + ['\n'] + rest;
    ReadPrinted(key, value, line);
    FirstLine(line, rest);
    FirstPair(line, Lines(rest), key, value);
  }

  lemma {:induction false} LinesOfPrinted(pairs: Pairs)
    requires forall p <- pairs :: Printable(p.0, p.1)
    ensures PairsOf(Lines(PrintPairs(pairs))) == Success(pairs)
  {
    if |pairs| > 0 {
      LinesOfPrinted(pairs[1..]);
      PrintedInFront(pairs[0].0, pairs[0].1, PrintPairs(pairs[1..]), pairs[1..]);
      assert [pairs[0]] + pairs[1..] == pairs;
    }
  }

  // ----- what parsing can produce -----

  lemma {:induction false} LinesHoldNoNewline(parts: seq<string>)
    requires |parts| > 0 && forall i :: 0 <= i < |parts| ==> '\n' !in parts[i]
    ensures forall line <- LinesOf(parts) :: '\n' !in line
  {
    if |parts| > 1 {
      LinesHoldNoNewline(parts[1..]);
    }
  }

  lemma ReadEntryIsPrintable(line: string)
    requires ReadEntry(line).Pair? && '\n' !in line
    ensures Printable(ReadEntry(line).key, ReadEntry(line).value)
  {
    var entry := Trim(line);
    var i := IndexOf(entry, '=');
    assert '\n' !in entry;
    assert forall c <- entry[i + 1..] :: c in entry;
  }

  lemma {:induction false} PairsComeFromEntries(entries: seq<Entry>)
    requires PairsIn(entries).Success?
    ensures forall p <- PairsIn(entries).value :: Pair(p.0, p.1) in entries
  {
    if |entries| > 0 {
      PairsComeFromEntries(entries[..|entries| - 1]);
      assert entries == entries[..|entries| - 1] + [entries[|entries| - 1]];
    }
  }

  lemma PairsArePrintable(lines: seq<string>)
    requires PairsOf(lines).Success? && forall line <- lines :: '\n' !in line
    ensures forall p <- PairsOf(lines).value :: Printable(p.0, p.1)
  {
    PairsComeFromEntries(EntriesOf(lines));
    forall p | p in PairsOf(lines).value
      ensures Printable(p.0, p.1)
    {
      var i :| 0 <= i < |lines| && EntriesOf(lines)[i] == Pair(p.0, p.1);
      assert lines[i] in lines;
      ReadEntryIsPrintable(lines[i]);
    }
  }

  /** Every pair an accepted text yields is printable. */
  lemma ParseIsPrintable(raw: string, key: string)
    requires Parse(raw).Success? && key in Parse(raw).value
    ensures Printable(key, Parse(raw).value[key])
  {
    LinesHoldNoNewline(Split(raw, '\n'));
    var pairs := PairsOf(Lines(raw)).value;
    PairsArePrintable(Lines(raw));
    LastPairWins(pairs, key);
    var i :| 0 <= i < |pairs| && pairs[i] == (key, MapOf(pairs)[key]);
    assert pairs[i] in pairs;
  }

  // ----- the round trips -----

  /** The pairs list each key of `m` once, in any order. */
  predicate Lists(pairs: Pairs, m: map<string, string>) {
    && (forall i, j :: 0 <= i < j < |pairs| ==> pairs[i].0 != pairs[j].0)
    && (forall p <- pairs :: p.0 in m && m[p.0] == p.1)
    && (forall key <- m :: (key, m[key]) in pairs)
  }

  lemma ListedIsMap(pairs: Pairs, m: map<string, string>)
    requires Lists(pairs, m)
    ensures MapOf(pairs) == m
  {
    forall key
      ensures key in MapOf(pairs) <==> key in m
      ensures key in m ==> MapOf(pairs)[key] == m[key]
    {
      LastPairWins(pairs, key);
      if key in m {
        var i :| 0 <= i < |pairs| && pairs[i] == (key, m[key]);
        assert pairs[i].0 == key;
        var j :| 0 <= j < |pairs| && pairs[j] == (key, MapOf(pairs)[key]);
        assert i == j;
      }
    }
  }

  /** With repeated keys allowed: printable pairs survive, and the later pair wins. */
  lemma PrintThenParse(pairs: Pairs)
    requires forall p <- pairs :: Printable(p.0, p.1)
    ensures Parse(PrintPairs(pairs)) == Success(MapOf(pairs))
  {
    LinesOfPrinted(pairs);
  }

  /**
   A map survives being printed, in any order, and parsed exactly when all its keys are
   valid and kept and none of its values holds a newline or ends in white space.
   */
  lemma MapSurvivesExactly(pairs: Pairs, m: map<string, string>)
    requires Lists(pairs, m)
    ensures Parse(PrintPairs(pairs)) == Success(m) <==> forall key <- m :: Printable(key, m[key])
  {
    ListedIsMap(pairs, m);
    if forall key <- m :: Printable(key, m[key]) {
      PrintThenParse(pairs);
    } else if Parse(PrintPairs(pairs)) == Success(m) {
      forall key | key in m
        ensures Printable(key, m[key])
      {
        ParseIsPrintable(PrintPairs(pairs), key);
      }
    }
  }

  /** Whatever text is accepted, its map survives being printed and parsed again. */
  lemma ParsePrintParse(raw: string, pairs: Pairs)
    requires Parse(raw).Success? && Lists(pairs, Parse(raw).value)
    ensures Parse(PrintPairs(pairs)) == Parse(raw)
  {
    var m := Parse(raw).value;
    forall key | key in m
      ensures Printable(key, m[key])
    {
      ParseIsPrintable(raw, key);
    }
    MapSurvivesExactly(pairs, m);
  }

  // ----- blank text -----

  predicate AllWhite(s: string) {
    forall c <- s :: IsWhite(c)
  }

  lemma {:induction false} TrimIsEmpty(s: string)
    ensures Trim(s) == "" <==> AllWhite(s)
  {
    TrimStartKeeps(s);
    TrimEndKeeps(TrimStart(s));
  }

  lemma {:induction false} TrimStartKeeps(s: string)
    ensures TrimStart(s) == "" <==> AllWhite(s)
  {
    if |s| > 0 {
      TrimStartKeeps(s[1..]);
      assert s == [s[0]] + s[1..];
    }
  }

  lemma {:induction false} TrimEndKeeps(s: string)
    ensures TrimEnd(s) == "" <==> AllWhite(s)
  {
    if |s| > 0 {
      TrimEndKeeps(s[..|s| - 1]);
      assert s == s[..|s| - 1] + [s[|s| - 1]];
    }
  }

  /** Accepted text yields the empty map exactly when it is blank. */
  lemma EmptyExactlyWhenBlank(raw: string)
    requires Parse(raw).Success?
    ensures Parse(raw).value == map[] <==> Trim(raw) == ""
  {
    TrimIsEmpty(raw);
    PairsEmptyExactly(Lines(raw));
    BlankParts(Split(raw, '\n'));
    JoinSplit(raw, '\n');
    JoinWhite(Split(raw, '\n'));
    var pairs := PairsOf(Lines(raw)).value;
    if |pairs| > 0 {
      LastPairWins(pairs, pairs[0].0);
      assert pairs[0].0 in MapOf(pairs);
    }
  }

  lemma {:induction false} NoPairsExactly(entries: seq<Entry>)
    requires PairsIn(entries).Success?
    ensures PairsIn(entries).value == [] <==> forall e <- entries :: e.Blank?
  {
    if |entries| > 0 {
      NoPairsExactly(entries[..|entries| - 1]);
      assert entries == entries[..|entries| - 1] + [entries[|entries| - 1]];
    }
  }

  lemma PairsEmptyExactly(lines: seq<string>)
    requires PairsOf(lines).Success?
    ensures PairsOf(lines).value == [] <==> forall line <- lines :: AllWhite(line)
  {
    var entries := EntriesOf(lines);
    NoPairsExactly(entries);
    forall i | 0 <= i < |lines|
      ensures entries[i].Blank? <==> AllWhite(lines[i])
    {
      BlankExactly(lines[i]);
    }
    assert (forall e <- entries :: e.Blank?) <==> (forall i :: 0 <= i < |entries| ==> entries[i].Blank?);
  }

  lemma BlankExactly(line: string)
    ensures ReadEntry(line).Blank? <==> AllWhite(line)
  {
    TrimIsEmpty(line);
  }

  lemma {:induction false} BlankParts(parts: seq<string>)
    requires |parts| > 0
    ensures (forall line <- LinesOf(parts) :: AllWhite(line)) <==> (forall part <- parts :: AllWhite(part))
  {
    if |parts| > 1 {
      BlankParts(parts[1..]);
      assert parts == [parts[0]] + parts[1..];
      StripCrWhite(parts[0]);
    }
  }

  lemma StripCrWhite(line: string)
    ensures AllWhite(StripCr(line)) <==> AllWhite(line)
  {
    if StripCr(line) != line {
      assert line == StripCr(line) + ['\r'];
    }
  }

  lemma AllWhiteOfThree(a: string, b: string, c: string)
    ensures AllWhite(a + b + c) <==> AllWhite(a) && AllWhite(b) && AllWhite(c)
  {
    assert forall x :: x in a + b + c <==> x in a || x in b || x in c;
  }

  lemma {:induction false} JoinWhite(parts: seq<string>)
    requires |parts| > 0
    ensures AllWhite(Join(parts, '\n')) <==> forall part <- parts :: AllWhite(part)
  {
    if |parts| > 1 {
      JoinWhite(parts[1..]);
      assert parts == [parts[0]] + parts[1..];
      AllWhiteOfThree(parts[0], ['\n'], Join(parts[1..], '\n'));
    }
  }
}
