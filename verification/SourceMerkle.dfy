/**
 The byte stream behind `source_merkle`: one record per selected file, in sorted order.
 Equal bytes come from equal records, and the order in which git lists files is lost.
 */
module SourceMerkle {
  import opened Wrappers
  import opened PathOrder
  import opened Text
  import opened Utf8

  /** A selected file and the hexadecimal hash of its content. */
  datatype Record = Record(path: string, hash: string)

  const NUL := '\U{0000}'

  predicate HexHash(hash: string) {
    |hash| == 64 && forall c <- hash :: '0' <= c <= '9' || 'a' <= c <= 'f'
  }

  predicate Streamable(r: Record) {
    NUL !in r.path && HexHash(r.hash)
  }

  function RecordText(r: Record): string {
    r.path + [NUL] + r.hash + "\n"
  }

  function Stream(records: seq<Record>): string {
    if |records| == 0 then "" else RecordText(records[0]) + Stream(records[1..])
  }

  // ----- unique decoding -----

  /** The record at the front of a stream, and the rest of it. */
  function Decode(s: string): Option<(Record, string)> {
    var i := NulIndex(s);
    if i + 66 > |s| || s[i + 65] != '\n' then None
    else Some((Record(s[..i], s[i + 1..i + 65]), s[i + 66..]))
  }

  function NulIndex(s: string): (i: nat)
    ensures i <= |s| && NUL !in s[..i] && (i < |s| ==> s[i] == NUL)
  {
    if |s| == 0 || s[0] == NUL then 0
    else
      var rest := NulIndex(s[1..]);
      assert s[..rest + 1] == [s[0]] + s[1..][..rest];
      rest + 1
  }

  lemma NulIsFirst(path: string, rest: string)
    requires NUL !in path
    ensures NulIndex(path + [NUL] + rest) == |path|
  {
    var s, i := path + [NUL] + rest, NulIndex(path + [NUL] + rest);
    assert s[|path|] == NUL;
    assert forall j :: 0 <= j < |path| ==> s[j] == path[j];
    assert forall j :: 0 <= j < i ==> s[..i][j] == s[j];
  }

  lemma DecodeRecord(r: Record, rest: string)
    requires Streamable(r)
    ensures Decode(RecordText(r) + rest) == Some((r, rest))
  {
    var s := RecordText(r) + rest;
    var i := |r.path|;
    NulIsFirst(r.path, r.hash + "\n" + rest);
    assert s == r.path + [NUL] + (r.hash + "\n" + rest);
    assert s[..i] == r.path && s[i + 1..i + 65] == r.hash && s[i + 65] == '\n' && s[i + 66..] == rest;
  }

  /** Two lists of records with equal streams are equal. */
  lemma {:induction false} StreamIsInjective(a: seq<Record>, b: seq<Record>)
    requires (forall r <- a :: Streamable(r)) && (forall r <- b :: Streamable(r))
    requires Stream(a) == Stream(b)
    ensures a == b
  {
    if |a| > 0 && |b| > 0 {
      DecodeRecord(a[0], Stream(a[1..]));
      DecodeRecord(b[0], Stream(b[1..]));
      StreamIsInjective(a[1..], b[1..]);
      assert a == [a[0]] + a[1..] && b == [b[0]] + b[1..];
    }
  }

  // ----- selection and order -----

  /** The files that count: the two project files and everything below `src/`. */
  predicate Selected(path: string) {
    path == "pyproject.toml" || path == "uv.lock" || "src/" <= path
  }

  predicate AtMost(a: string, b: string) {
    a == b || StrLess(a, b)
  }

  predicate NonDescending(s: seq<string>) {
    forall i, j :: 0 <= i < j < |s| ==> AtMost(s[i], s[j])
  }

  lemma AtMostTransitive(a: string, b: string, c: string)
    requires AtMost(a, b) && AtMost(b, c)
    ensures AtMost(a, c)
  {
    if a != b && b != c {
      StrTransitive(a, b, c);
    }
  }

  lemma AtMostAntisymmetric(a: string, b: string)
    requires AtMost(a, b) && AtMost(b, a)
    ensures a == b
  {
    if a != b {
      StrTransitive(a, b, a);
      StrIrreflexive(a);
    }
  }

  function Insert(sorted: seq<string>, x: string): (r: seq<string>)
    requires NonDescending(sorted)
    ensures NonDescending(r) && multiset(r) == multiset(sorted) + multiset{x}
  {
    if |sorted| == 0 then [x]
    else
      assert sorted == [sorted[0]] + sorted[1..];
      if StrLess(x, sorted[0]) then
        InsertFirst(sorted, x);
        [x] + sorted
      else
        StrTotal(x, sorted[0]);
        var rest := Insert(sorted[1..], x);
        InsertLater(sorted, x, rest);
        [sorted[0]] + rest
  }

  lemma InsertFirst(sorted: seq<string>, x: string)
    requires NonDescending(sorted) && |sorted| > 0 && StrLess(x, sorted[0])
    ensures NonDescending([x] + sorted)
  {
    forall j | 0 <= j < |sorted|
      ensures AtMost(x, sorted[j])
    {
      if j > 0 {
        AtMostTransitive(x, sorted[0], sorted[j]);
      }
    }
  }

  lemma InsertLater(sorted: seq<string>, x: string, rest: seq<string>)
    requires NonDescending(sorted) && |sorted| > 0 && AtMost(sorted[0], x) && NonDescending(rest)
    requires multiset(rest) == multiset(sorted[1..]) + multiset{x}
    ensures NonDescending([sorted[0]] + rest)
  {
    forall j | 0 <= j < |rest|
      ensures AtMost(sorted[0], rest[j])
    {
      assert rest[j] in multiset(rest);
      if rest[j] != x {
        assert rest[j] in multiset(sorted[1..]);
        var k :| 0 <= k < |sorted[1..]| && sorted[1..][k] == rest[j];
        assert sorted[k + 1] == rest[j];
      }
    }
  }

  /** The selected paths, sorted. */
  function SelectSorted(candidates: seq<string>): (selected: seq<string>)
    ensures NonDescending(selected) && multiset(selected) == SelectedBag(candidates)
  {
    if |candidates| == 0 then []
    else
      var last := candidates[|candidates| - 1];
      var before := SelectSorted(candidates[..|candidates| - 1]);
      if Selected(last) then Insert(before, last) else before
  }

  /** How often each selected path is listed. */
  function SelectedBag(candidates: seq<string>): multiset<string> {
    if |candidates| == 0 then multiset{}
    else
      var last := candidates[|candidates| - 1];
      SelectedBag(candidates[..|candidates| - 1]) + (if Selected(last) then multiset{last} else multiset{})
  }

  lemma {:induction false} SelectedBagAt(candidates: seq<string>, p: string)
    ensures SelectedBag(candidates)[p] == if Selected(p) then multiset(candidates)[p] else 0
  {
    if |candidates| > 0 {
      SelectedBagAt(candidates[..|candidates| - 1], p);
      assert candidates == candidates[..|candidates| - 1] + [candidates[|candidates| - 1]];
    }
  }

  /** A sorted list is determined by what it holds. */
  lemma {:induction false} SortedIsUnique(a: seq<string>, b: seq<string>)
    requires NonDescending(a) && NonDescending(b) && multiset(a) == multiset(b)
    ensures a == b
  {
    assert |multiset(a)| == |multiset(b)|;
    if |a| > 0 {
      assert a[0] in multiset(a) && b[0] in multiset(b);
      assert a[0] in multiset(b) && b[0] in multiset(a);
      var i :| 0 <= i < |a| && a[i] == b[0];
      var j :| 0 <= j < |b| && b[j] == a[0];
      AtMostAntisymmetric(a[0], b[0]);
      assert a == [a[0]] + a[1..] && b == [b[0]] + b[1..];
      assert multiset(a[1..]) == multiset(a) - multiset{a[0]} && multiset(b[1..]) == multiset(b) - multiset{b[0]};
      SortedIsUnique(a[1..], b[1..]);
    }
  }

  // ----- the stream of a tree -----

  /** The records of the paths that are files, in the given order. */
  function RecordsOf(paths: seq<string>, files: map<string, string>): seq<Record> {
    if |paths| == 0 then []
    else
      var last := paths[|paths| - 1];
      RecordsOf(paths[..|paths| - 1], files) + (if last in files then [Record(last, files[last])] else [])
  }

  lemma {:induction false} StreamAppend(a: seq<Record>, b: seq<Record>)
    ensures Stream(a + b) == Stream(a) + Stream(b)
  {
    if |a| == 0 {
      assert a + b == b;
    } else {
      assert (a + b)[1..] == a[1..] + b;
      StreamAppend(a[1..], b);
    }
  }

  /** The records of a listing: the selected paths that are files, in sorted order. */
  function SourceRecords(candidates: seq<string>, files: map<string, string>): seq<Record> {
    RecordsOf(SelectSorted(candidates), files)
  }

  /** The digest loop of `source_identity`; `files` maps each regular file to its content hash. */
  method SourceStream(candidates: seq<string>, files: map<string, string>) returns (stream: seq<Byte>)
    ensures stream == Encode(Stream(SourceRecords(candidates, files)))
  {
    var paths := SelectSorted(candidates);
    stream := [];
    for i := 0 to |paths|
      invariant stream == Encode(Stream(RecordsOf(paths[..i], files)))
    {
      RecordsStep(paths, files, i);
      if paths[i] in files {
        var r := Record(paths[i], files[paths[i]]);
        OneMoreRecord(RecordsOf(paths[..i], files), r);
        stream := stream + Encode(r.path) + [0] + Encode(r.hash) + [10];
      }
    }
    assert paths[..|paths|] == paths;
  }

  lemma RecordsStep(paths: seq<string>, files: map<string, string>, i: nat)
    requires i < |paths|
    ensures RecordsOf(paths[..i + 1], files)
         == if paths[i] in files then RecordsOf(paths[..i], files) + [Record(paths[i], files[paths[i]])]
            else RecordsOf(paths[..i], files)
  {
    assert paths[..i + 1][..i] == paths[..i];
    assert RecordsOf(paths[..i], files) + [] == RecordsOf(paths[..i], files);
  }

  /** The four parts of a record's bytes. */
  lemma OneMoreRecord(before: seq<Record>, r: Record)
    ensures Encode(Stream(before + [r])) == Encode(Stream(before)) + Encode(r.path) + [0] + Encode(r.hash) + [10]
  {
    StreamAppend(before, [r]);
    assert Stream([r]) == RecordText(r) + "" == RecordText(r);
    EncodeAppend(Stream(before), RecordText(r));
    RecordBytes(r);
  }

  lemma RecordBytes(r: Record)
    ensures Encode(RecordText(r)) == Encode(r.path) + [0] + Encode(r.hash) + [10]
  {
    EncodeAppend(r.path + [NUL] + r.hash, "\n");
    EncodeAppend(r.path + [NUL], r.hash);
    EncodeAppend(r.path, [NUL]);
    OneChar(NUL);
    OneChar('\n');
  }

  lemma OneChar(c: char)
    ensures Encode([c]) == EncodeChar(c)
  {
    assert [c][1..] == [];
  }

  /** The hashed bytes do not depend on the order in which git lists the candidates. */
  lemma ListingOrderIsLost(a: seq<string>, b: seq<string>, files: map<string, string>)
    requires multiset(a) == multiset(b)
    ensures SourceRecords(a, files) == SourceRecords(b, files)
    ensures Encode(Stream(SourceRecords(a, files))) == Encode(Stream(SourceRecords(b, files)))
  {
    forall p
      ensures SelectedBag(a)[p] == SelectedBag(b)[p]
    {
      SelectedBagAt(a, p);
      SelectedBagAt(b, p);
    }
    SortedIsUnique(SelectSorted(a), SelectSorted(b));
  }

  lemma {:induction false} RecordsAreStreamable(paths: seq<string>, files: map<string, string>)
    requires forall p <- paths :: NUL !in p
    requires forall p <- files :: HexHash(files[p])
    ensures forall r <- RecordsOf(paths, files) :: Streamable(r) && r.path in files && r.hash == files[r.path]
  {
    if |paths| > 0 {
      RecordsAreStreamable(paths[..|paths| - 1], files);
      assert paths[|paths| - 1] in paths;
    }
  }

  lemma {:induction false} RecordOfPath(paths: seq<string>, files: map<string, string>, p: string)
    requires p in paths && p in files
    ensures Record(p, files[p]) in RecordsOf(paths, files)
  {
    if paths[|paths| - 1] != p {
      assert p in paths[..|paths| - 1];
      RecordOfPath(paths[..|paths| - 1], files, p);
    }
  }

  lemma ListedIsSorted(candidates: seq<string>, p: string)
    ensures p in SelectSorted(candidates) <==> Selected(p) && p in candidates
  {
    SelectedBagAt(candidates, p);
    assert p in SelectSorted(candidates) <==> p in multiset(SelectSorted(candidates));
    assert p in candidates <==> p in multiset(candidates);
  }

  /**
   Two trees with the same hashed bytes have the same selected files with the same content
   hashes, whatever git listed and in whatever order: equal bytes hide no difference.
   */
  lemma SameBytesSameFiles(a: seq<string>, fa: map<string, string>, b: seq<string>, fb: map<string, string>, p: string)
    requires (forall q <- a :: NUL !in q) && (forall q <- b :: NUL !in q)
    requires (forall q <- fa :: HexHash(fa[q])) && (forall q <- fb :: HexHash(fb[q]))
    requires Encode(Stream(SourceRecords(a, fa))) == Encode(Stream(SourceRecords(b, fb)))
    requires Selected(p) && p in a && p in fa
    ensures p in fb && fb[p] == fa[p] && p in b
  {
    EncodeIsInjective(Stream(SourceRecords(a, fa)), Stream(SourceRecords(b, fb)));
    ListingIsStreamable(a, fa);
    ListingIsStreamable(b, fb);
    StreamIsInjective(SourceRecords(a, fa), SourceRecords(b, fb));
    ListedIsSorted(a, p);
    RecordOfPath(SelectSorted(a), fa, p);
    PathOfRecord(SelectSorted(b), fb, Record(p, fa[p]));
    ListedIsSorted(b, p);
  }

  lemma ListingIsStreamable(candidates: seq<string>, files: map<string, string>)
    requires (forall q <- candidates :: NUL !in q) && (forall q <- files :: HexHash(files[q]))
    ensures forall r <- SourceRecords(candidates, files) :: Streamable(r)
  {
    forall p | p in SelectSorted(candidates)
      ensures NUL !in p
    {
      ListedIsSorted(candidates, p);
    }
    RecordsAreStreamable(SelectSorted(candidates), files);
  }

  lemma {:induction false} PathOfRecord(paths: seq<string>, files: map<string, string>, r: Record)
    requires r in RecordsOf(paths, files)
    ensures r.path in paths && r.path in files && r.hash == files[r.path]
  {
    if |paths| > 0 && r in RecordsOf(paths[..|paths| - 1], files) {
      PathOfRecord(paths[..|paths| - 1], files, r);
      assert r.path in paths[..|paths| - 1];
    }
  }
}
