/**
 Pure paths as `pathlib` parses them, and absolute paths as lists of component names.
 No file system is consulted here.
 */
module Paths {
  import opened Text

  /** A normalised absolute path: its component names, outermost first. */
  type AbsPath = seq<string>

  /** What `Path(text)` keeps: the anchor and the parts, with `.` and empty parts dropped. */
  datatype PurePath = PurePath(anchor: string, parts: seq<string>)

  /** A component that names a directory entry. */
  predicate Plain(name: string) {
    name != "" && name != "." && name != ".." && '/' !in name
  }

  predicate PlainPath(p: AbsPath) {
    forall name <- p :: Plain(name)
  }

  predicate Kept(part: string) {
    part != "" && part != "."
  }

  function Filter(parts: seq<string>): seq<string> {
    if |parts| == 0 then []
    else (if Kept(parts[0]) then [parts[0]] else []) + Filter(parts[1..])
  }

  function ParsePath(text: string): PurePath {
    var anchor :=
      if |text| == 0 || text[0] != '/' then ""
      else if |text| > 1 && text[1] == '/' && (|text| == 2 || text[2] != '/') then "//"
      else "/";
    PurePath(anchor, Filter(Split(text, '/')))
  }

  /** `str(path)` of an absolute path. */
  function PathText(p: AbsPath): string {
    "/" + Join(p, '/')
  }

  function Absolute(p: AbsPath): PurePath {
    PurePath("/", p)
  }

  function Parent(p: AbsPath): AbsPath {
    if |p| == 0 then [] else p[..|p| - 1]
  }

  /** `os.path.normpath` applied to `base` followed by `parts`. */
  function Normalise(base: AbsPath, parts: seq<string>): AbsPath
    decreases |parts|
  {
    if |parts| == 0 then base
    else if !Kept(parts[0]) then Normalise(base, parts[1..])
    else if parts[0] == ".." then Normalise(Parent(base), parts[1..])
    else Normalise(base + [parts[0]], parts[1..])
  }

  /** `os.path.abspath(path)` in the working directory `cwd`. */
  function Abspath(cwd: AbsPath, p: PurePath): AbsPath {
    Normalise(if p.anchor == "" then cwd else [], p.parts)
  }

  /** `left` is `right` or one of its ancestors. */
  predicate Within(inner: AbsPath, outer: AbsPath) {
    outer <= inner
  }

  predicate Comparable(left: AbsPath, right: AbsPath) {
    left <= right || right <= left
  }

  /** Two ancestors of one path are comparable. */
  lemma AncestorsAreComparable(a: AbsPath, b: AbsPath, p: AbsPath)
    requires a <= p && b <= p
    ensures Comparable(a, b)
  {
    if |a| <= |b| {
      assert a == b[..|a|];
    } else {
      assert b == a[..|b|];
    }
  }

  lemma {:induction false} FilterPlain(p: AbsPath)
    requires PlainPath(p)
    ensures Filter(p) == p
  {
    if |p| > 0 {
      FilterPlain(p[1..]);
      assert Plain(p[0]);
    }
  }

  /** Printing an absolute path and parsing it again gives the same path. */
  lemma ParsePathText(p: AbsPath)
    requires PlainPath(p)
    ensures ParsePath(PathText(p)) == Absolute(p)
  {
    var text := PathText(p);
    SplitPart("", Join(p, '/'), '/');
    assert text == "" + ['/'] + Join(p, '/');
    if |p| == 0 {
      SplitSingle("", '/');
      assert Filter(["", ""]) == [];
    } else {
      assert forall i :: 0 <= i < |p| ==> Plain(p[i]);
      SplitJoin(p, '/');
      assert Split(text, '/') == [""] + p;
      assert ([""] + p)[1..] == p;
      FilterPlain(p);
      assert text[1] == p[0][0];
      assert p[0][0] in p[0];
    }
  }

  lemma {:induction false} NormalisePlain(base: AbsPath, parts: seq<string>)
    requires PlainPath(parts)
    ensures Normalise(base, parts) == base + parts
    decreases |parts|
  {
    if |parts| > 0 {
      assert Plain(parts[0]);
      NormalisePlain(base + [parts[0]], parts[1..]);
    }
  }

  /** Normalising parts that hold no separator leaves only plain names. */
  lemma {:induction false} NormaliseIsPlain(base: AbsPath, parts: seq<string>)
    requires PlainPath(base) && forall part <- parts :: '/' !in part
    ensures PlainPath(Normalise(base, parts))
    decreases |parts|
  {
    if |parts| > 0 {
      if !Kept(parts[0]) {
        NormaliseIsPlain(base, parts[1..]);
      } else if parts[0] == ".." {
        NormaliseIsPlain(Parent(base), parts[1..]);
      } else {
        assert parts[0] in parts;
        NormaliseIsPlain(base + [parts[0]], parts[1..]);
      }
    }
  }

  lemma {:induction false} FilterKeepsParts(parts: seq<string>)
    requires forall part <- parts :: '/' !in part
    ensures forall part <- Filter(parts) :: '/' !in part
  {
    if |parts| > 0 {
      FilterKeepsParts(parts[1..]);
      assert parts[0] in parts;
    }
  }

  lemma AbspathIsPlain(cwd: AbsPath, text: string)
    requires PlainPath(cwd)
    ensures PlainPath(Abspath(cwd, ParsePath(text)))
  {
    FilterKeepsParts(Split(text, '/'));
    NormaliseIsPlain(if ParsePath(text).anchor == "" then cwd else [], ParsePath(text).parts);
  }

  lemma AbspathOfAbsolute(cwd: AbsPath, p: AbsPath)
    requires PlainPath(p)
    ensures Abspath(cwd, Absolute(p)) == p
  {
    NormalisePlain([], p);
  }
}
