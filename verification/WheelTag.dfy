/**
 The wheel's tag: decided from the staged binaries when the wheel is built, and read back
 from the wheel's file name when the release matrix is checked.
 */
module WheelTag {
  import opened Wrappers
  import opened Text

  // ----- the environment -----

  /** `_env_flag`: `normal` stands for `strip().lower()`. */
  function EnvFlag(raw: Option<string>, normal: string -> string): Option<bool> {
    match raw
    case None => None
    case Some(text) => if normal(text) == "" then None else Some(normal(text) in {"1", "true", "yes", "on"})
  }

  /** The three environment variables the hook reads. */
  datatype Environ = Environ(platformWheel: Option<string>, cibuildwheel: Option<string>, autobuild: Option<string>)

  /** Whether a platform wheel is asked for: explicitly, or else by running under cibuildwheel. */
  function Requested(environ: Environ, normal: string -> string): Option<bool> {
    match EnvFlag(environ.platformWheel, normal)
    case Some(flag) => Some(flag)
    case None => if environ.cibuildwheel.Some? && environ.cibuildwheel.value != "" then Some(true) else None
  }

  /** What the attempt to compile the binary does: which files it stages, and whether it is accepted. */
  datatype Build =
    | Unavailable | TimedOut(left: set<string>) | NotStarted
    | Rejected(left: set<string>) | Built(made: set<string>)

  datatype Refusal = PureWithBinary | PlatformWithoutBinary | AnyPlatform

  /** The part after the last hyphen. */
  function AfterLastHyphen(tag: string): string {
    var parts := Split(tag, '-');
    parts[|parts| - 1]
  }

  // ----- the package directory and the build data -----

  class WheelBuild {
    var staged: set<string>
    var purePython: bool
    var tag: Option<string>

    constructor (staged: set<string>, purePython: bool, tag: Option<string>)
      ensures this.staged == staged && this.purePython == purePython && this.tag == tag
    {
      this.staged, this.purePython, this.tag := staged, purePython, tag;
    }

    /** `_discard_new_binaries`: deletes what was not there before, except what cannot be deleted. */
    method DiscardNewBinaries(preexisting: set<string>, stuck: set<string>)
      modifies `staged
      ensures staged == old(staged) - ((old(staged) - preexisting) - stuck)
    {
      var todo := staged;
      while todo != {}
        invariant todo <= old(staged)
        invariant staged == old(staged) - ((old(staged) - todo - preexisting) - stuck)
        decreases todo
      {
        var candidate :| candidate in todo;
        todo := todo - {candidate};
        if candidate !in preexisting && candidate !in stuck {
          staged := staged - {candidate};
        }
      }
    }

    /**
     `autobuild_binary`.  A build that was not accepted leaves the staged files as they were,
     unless some of what it left cannot be deleted.
     */
    method AutobuildBinary(environ: Environ, normal: string -> string, build: Build, stuck: set<string>)
      returns (some: bool)
      modifies `staged
      ensures EnvFlag(environ.autobuild, normal) == Some(false) ==> staged == old(staged)
      ensures EnvFlag(environ.autobuild, normal) != Some(false) && build.Built? ==> staged == old(staged) + build.made
      ensures build.TimedOut? || build.Rejected? ==> staged <= old(staged) + (build.left * stuck)
      ensures build.TimedOut? || build.Rejected? ==> old(staged) <= staged
      ensures !build.Built? && (build.TimedOut? || build.Rejected? ==> build.left * stuck <= old(staged)) ==>
        staged == old(staged)
      ensures some ==> staged != {}
    {
      if EnvFlag(environ.autobuild, normal) == Some(false) {
        return false;
      }
      match build {
        case Unavailable =>
          return false;
        case NotStarted =>
          DiscardNewBinaries(staged, stuck);
          return false;
        case TimedOut(left) =>
          var preexisting := staged;
          staged := staged + left;
          DiscardNewBinaries(preexisting, stuck);
          return false;
        case Rejected(left) =>
          var preexisting := staged;
          staged := staged + left;
          DiscardNewBinaries(preexisting, stuck);
          return false;
        case Built(made) =>
          staged := staged + made;
          return staged != {};
      }
    }

    /**
     `resolve_build_data`.  A normal return for a wheel leaves a `py3-none-<platform>` tag with
     a platform other than `any` exactly when a binary is staged by then.
     */
    method ResolveBuildData(target: string, best: string, environ: Environ, normal: string -> string,
                            build: Build, stuck: set<string>)
      returns (refusal: Option<Refusal>)
      modifies this
      ensures target != "wheel" ==> refusal == None && Unchanged(old(staged), old(purePython), old(tag))
      ensures refusal.Some? || staged == {} ==> tag == old(tag)
      ensures refusal != Some(AnyPlatform) && (refusal.Some? || staged == {}) ==> purePython == old(purePython)
      ensures refusal == Some(AnyPlatform) ==> !purePython
      ensures target == "wheel" && refusal.None? && staged != {} ==>
        && !purePython && Requested(environ, normal) != Some(false)
        && PlatformOf(best) != "" && PlatformOf(best) != "any" && '-' !in PlatformOf(best)
        && tag == Some("py3-none-" + PlatformOf(best))
      ensures target == "wheel" ==>
        refusal == if staged != {} && Requested(environ, normal) == Some(false) then Some(PureWithBinary)
                   else if staged == {} && Requested(environ, normal) == Some(true) then Some(PlatformWithoutBinary)
                   else if staged != {} && PlatformOf(best) in {"", "any"} then Some(AnyPlatform)
                   else None
      ensures target == "wheel" && (old(staged) != {} || Requested(environ, normal) == Some(false)) ==>
        staged == old(staged)
    {
      if target != "wheel" {
        return None;
      }
      var requested := Requested(environ, normal);
      if staged == {} && requested != Some(false) {
        var _ := AutobuildBinary(environ, normal, build, stuck);
      }
      if requested == Some(false) && staged != {} {
        return Some(PureWithBinary);
      }
      if requested == Some(true) && staged == {} {
        return Some(PlatformWithoutBinary);
      }
      if staged == {} {
        return None;
      }
      purePython := false;
      var platform := PlatformOf(best);
      if platform == "" || platform == "any" {
        return Some(AnyPlatform);
      }
      tag := Some("py3-none-" + platform);
      return None;
    }

    predicate Unchanged(staged: set<string>, purePython: bool, tag: Option<string>)
      reads this
    {
      this.staged == staged && this.purePython == purePython && this.tag == tag
    }
  }

  function PlatformOf(best: string): (platform: string)
    ensures '-' !in platform
  {
    AfterLastHyphen(best)
  }

  // ----- reading the tag back from a wheel name -----

  datatype MatrixProblem =
    | NoDirectory | NoWheels | MalformedName(wheel: string)
    | AnyWheels(wheels: seq<string>) | MissingPlatforms(labels: seq<string>) | ManySdists(count: nat)

  predicate EndsWith(s: string, suffix: string) {
    |suffix| <= |s| && s[|s| - |suffix|..] == suffix
  }

  function Stem(wheel: string): string {
    if EndsWith(wheel, ".whl") then wheel[..|wheel| - 4] else wheel
  }

  /** `_platform_tag`: the last of at least five hyphen-separated fields. */
  function PlatformTag(wheel: string): Option<string> {
    var parts := Split(Stem(wheel), '-');
    if |parts| < 5 then None else Some(parts[|parts| - 1])
  }

  /** A wheel file name: name, version, an optional build tag, then the compatibility tag. */
  function WheelName(name: string, version: string, build: Option<string>, tag: string): string {
    name + "-" + version + (match build case None => "" case Some(b) => "-" + b) + "-" + tag + ".whl"
  }

  lemma {:induction false} SplitAppend(a: string, b: string, sep: char)
    ensures var p, q := Split(a, sep), Split(b, sep);
         Split(a + [sep] + b, sep) == p + q
  {
    if |a| == 0 {
      assert a + [sep] + b == [sep] + b;
      assert [""] + Split(b, sep) == Split(a, sep) + Split(b, sep);
    } else {
      var s := a + [sep] + b;
      assert s[1..] == a[1..] + [sep] + b && s[0] == a[0];
      SplitAppend(a[1..], b, sep);
    }
  }

  lemma TagParts(platform: string)
    requires '-' !in platform
    ensures Split("py3-none-" + platform, '-') == ["py3", "none", platform]
  {
    TagText(platform);
    ThreeParts("py3", "none", platform);
  }

  lemma TagText(platform: string)
    ensures "py3-none-" + platform == "py3" + ['-'] + ("none" + ['-'] + platform)
  {
  }

  lemma ThreeParts(a: string, b: string, c: string)
    requires '-' !in a && '-' !in b && '-' !in c
    ensures Split(a + ['-'] + (b + ['-'] + c), '-') == [a, b, c]
  {
    SplitSingle(c, '-');
    SplitPart(b, c, '-');
    SplitPart(a, b + ['-'] + c, '-');
  }

  /** Whatever the distribution name, version and build tag, the platform comes back. */
  lemma PlatformSurvivesTheName(name: string, version: string, build: Option<string>, platform: string)
    requires '-' !in platform
    ensures PlatformTag(WheelName(name, version, build, "py3-none-" + platform)) == Some(platform)
  {
    var tag := "py3-none-" + platform;
    var middle := version + (match build case None => "" case Some(b) => "-" + b);
    var stem := name + "-" + middle + "-" + tag;
    var wheel := WheelName(name, version, build, tag);
    assert wheel == stem + ".whl";
    assert wheel[|wheel| - 4..] == ".whl";
    assert Stem(wheel) == stem;
    SplitAppend(name + "-" + middle, tag, '-');
    SplitAppend(name, middle, '-');
    assert stem == (name + ['-'] + middle) + ['-'] + tag;
    TagParts(platform);
  }

  // ----- patterns -----

  function StarIndex(pattern: string): (i: nat)
    ensures i <= |pattern| && '*' !in pattern[..i] && (i < |pattern| ==> pattern[i] == '*')
    ensures i < |pattern| <==> '*' in pattern
  {
    if |pattern| == 0 || pattern[0] == '*' then 0
    else
      var rest := StarIndex(pattern[1..]);
      assert pattern[..rest + 1] == [pattern[0]] + pattern[1..][..rest];
      rest + 1
  }

  /** `_matches`. */
  predicate Matches(tag: string, pattern: string) {
    var i := StarIndex(pattern);
    if i == |pattern| then tag == pattern
    else
      var prefix, suffix := pattern[..i], pattern[i + 1..];
      prefix <= tag && EndsWith(tag, suffix) && |tag| > |prefix| + |suffix|
  }

  lemma StarIsFirst(prefix: string, suffix: string)
    requires '*' !in prefix
    ensures StarIndex(prefix + "*" + suffix) == |prefix|
  {
    var pattern, i := prefix + "*" + suffix, StarIndex(prefix + "*" + suffix);
    assert pattern[|prefix|] == '*';
    assert forall j :: 0 <= j < |prefix| ==> pattern[j] == prefix[j];
    assert forall j :: 0 <= j < i ==> pattern[..i][j] == pattern[j];
  }

  lemma AroundStar(prefix: string, suffix: string)
    requires '*' !in prefix
    ensures var pattern, i := prefix + "*" + suffix, StarIndex(prefix + "*" + suffix);
      i == |prefix| && pattern[..i] == prefix && pattern[i + 1..] == suffix
  {
    StarIsFirst(prefix, suffix);
  }

  lemma MatchHasGap(tag: string, prefix: string, suffix: string) returns (v: string)
    requires '*' !in prefix && Matches(tag, prefix + "*" + suffix)
    ensures v != "" && tag == prefix + v + suffix
  {
    AroundStar(prefix, suffix);
    v := tag[|prefix|..|tag| - |suffix|];
    assert tag == prefix + v + suffix;
  }

  lemma GapMatches(tag: string, prefix: string, v: string, suffix: string)
    requires '*' !in prefix && v != "" && tag == prefix + v + suffix
    ensures Matches(tag, prefix + "*" + suffix)
  {
    AroundStar(prefix, suffix);
    assert tag[|tag| - |suffix|..] == suffix;
  }

  /** The star stands for any non-empty text, and for nothing else. */
  lemma MatchesExactly(tag: string, prefix: string, suffix: string)
    requires '*' !in prefix
    ensures Matches(tag, prefix + "*" + suffix) <==> exists v :: v != "" && tag == prefix + v + suffix
  {
    if Matches(tag, prefix + "*" + suffix) {
      var v := MatchHasGap(tag, prefix, suffix);
    }
    forall v | v != "" && tag == prefix + v + suffix
      ensures Matches(tag, prefix + "*" + suffix)
    {
      GapMatches(tag, prefix, v, suffix);
    }
  }

  // ----- the matrix -----

  type Expected = seq<(string, seq<string>)>

  predicate Covered(tags: seq<string>, patterns: seq<string>) {
    exists t <- tags, p <- patterns :: Matches(t, p)
  }

  /** What a publishable directory holds: full platform coverage, no `any` wheel, one sdist at most. */
  predicate GoodMatrix(wheels: seq<string>, sdists: nat, expected: Expected) {
    && wheels != [] && sdists <= 1
    && (forall w <- wheels :: PlatformTag(w).Some? && PlatformTag(w) != Some("any"))
    && (forall e <- expected ::
          exists w <- wheels, p <- e.1 :: PlatformTag(w).Some? && Matches(PlatformTag(w).value, p))
  }

  /** `assert_matrix` on the names found in the directory. */
  method AssertMatrix(wheels: seq<string>, sdists: nat, expected: Expected) returns (problems: seq<MatrixProblem>)
    ensures problems == [] <==> GoodMatrix(wheels, sdists, expected)
  {
    if wheels == [] {
      return [NoWheels];
    }
    var tags: seq<string> := [];
    for i := 0 to |wheels|
      invariant |tags| == i && forall k :: 0 <= k < i ==> PlatformTag(wheels[k]) == Some(tags[k])
    {
      var tag := PlatformTag(wheels[i]);
      if tag.None? {
        assert wheels[i] in wheels;
        return [MalformedName(wheels[i])];
      }
      tags := tags + [tag.value];
    }
    problems := [];
    var anyWheels := AnyTagged(wheels, tags);
    if anyWheels != [] {
      problems := problems + [AnyWheels(anyWheels)];
    }
    var missing := MissingLabels(tags, expected);
    if missing != [] {
      problems := problems + [MissingPlatforms(missing)];
    }
    if sdists > 1 {
      problems := problems + [ManySdists(sdists)];
    }
    TagsOfWheels(wheels, tags, expected);
  }

  method AnyTagged(wheels: seq<string>, tags: seq<string>) returns (found: seq<string>)
    requires |wheels| == |tags|
    ensures found == [] <==> "any" !in tags
  {
    found := [];
    for i := 0 to |wheels|
      invariant found == [] <==> "any" !in tags[..i]
    {
      assert tags[..i + 1] == tags[..i] + [tags[i]];
      if tags[i] == "any" {
        found := found + [wheels[i]];
      }
    }
    assert tags[..|tags|] == tags;
  }

  method MissingLabels(tags: seq<string>, expected: Expected) returns (missing: seq<string>)
    ensures missing == [] <==> forall e <- expected :: Covered(tags, e.1)
  {
    missing := [];
    for i := 0 to |expected|
      invariant missing == [] <==> forall e <- expected[..i] :: Covered(tags, e.1)
    {
      assert expected[..i + 1] == expected[..i] + [expected[i]];
      if !Covered(tags, expected[i].1) {
        missing := missing + [expected[i].0];
      }
    }
    assert expected[..|expected|] == expected;
  }

  lemma TagsOfWheels(wheels: seq<string>, tags: seq<string>, expected: Expected)
    requires |tags| == |wheels| && forall k :: 0 <= k < |wheels| ==> PlatformTag(wheels[k]) == Some(tags[k])
    ensures "any" !in tags <==> forall w <- wheels :: PlatformTag(w) != Some("any")
    ensures forall e <- expected ::
      Covered(tags, e.1) <==> (exists w <- wheels, p <- e.1 :: PlatformTag(w).Some? && Matches(PlatformTag(w).value, p))
  {
    forall e | e in expected
      ensures Covered(tags, e.1)
        <==> (exists w <- wheels, p <- e.1 :: PlatformTag(w).Some? && Matches(PlatformTag(w).value, p))
    {
      if Covered(tags, e.1) {
        var t, p :| t in tags && p in e.1 && Matches(t, p);
        var k :| 0 <= k < |tags| && tags[k] == t;
        assert wheels[k] in wheels;
      }
      if w, p :| w in wheels && p in e.1 && PlatformTag(w).Some? && Matches(PlatformTag(w).value, p) {
        var k :| 0 <= k < |wheels| && wheels[k] == w;
        assert tags[k] in tags;
      }
    }
    if "any" in tags {
      var k :| 0 <= k < |tags| && tags[k] == "any";
      assert wheels[k] in wheels;
    }
    forall w | w in wheels
      ensures PlatformTag(w) == Some("any") ==> "any" in tags
    {
      var k :| 0 <= k < |wheels| && wheels[k] == w;
      assert tags[k] in tags;
    }
  }

  /** A wheel named from the tag of an accepted build is never reported as an `any` wheel. */
  lemma TaggedWheelIsNotAny(name: string, version: string, build: Option<string>, best: string)
    requires PlatformOf(best) != "any"
    ensures var wheel := WheelName(name, version, build, "py3-none-" + PlatformOf(best));
         PlatformTag(wheel).Some? && PlatformTag(wheel) != Some("any")
  {
    PlatformSurvivesTheName(name, version, build, PlatformOf(best));
  }
}
