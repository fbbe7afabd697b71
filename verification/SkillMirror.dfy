/**
 `sync` regenerates the package mirror of every shipped skill and `check` reports drift.
 Whenever `sync` returns 0, `check` agrees, a second `sync` changes nothing, and nothing
 outside the mirrors has changed.
 */
module SkillMirror {
  import opened Wrappers
  import opened PathOrder
  import opened SkillTree

  // ----- what a mirror is -----

  /** The file a mirror holds at `p`: a cache file it had, or the source's file. */
  function FileAt(t: Tree, src: Path, dst: Path, p: Path): (file: Option<Entry>)
    requires dst <= p
    ensures file.Some? ==> file.value.Text?
  {
    if CACHE in p then (if p in t && t[p].Text? then Some(t[p]) else None)
    else if Listed(t, src, src + p[|dst|..]) then Some(t[src + p[|dst|..]]) else None
  }

  ghost predicate HoldsFileBelow(t: Tree, src: Path, dst: Path, p: Path) {
    exists q :: p < q && dst <= q && FileAt(t, src, dst, q).Some?
  }

  /**
   Below `dst`, `after` holds exactly the files the mirror of `before` should hold, and
   exactly the folders above one of them.
   */
  ghost predicate MirrorBelow(before: Tree, after: Tree, src: Path, dst: Path) {
    forall p :: dst < p ==>
      match FileAt(before, src, dst, p)
      case Some(e) => p in after && after[p] == e
      case None =>
        && (p in after <==> HoldsFileBelow(before, src, dst, p))
        && (p in after ==> after[p].Folder?)
  }

  /** The mirror's own folder: as it was, or created for the first file. */
  ghost predicate MirrorTop(before: Tree, after: Tree, src: Path, dst: Path) {
    && (dst in after <==> dst in before || RelativeFiles(before, src) != {})
    && (dst in after ==> after[dst] == if dst in before then before[dst] else Folder)
  }

  ghost predicate Mirrored(before: Tree, after: Tree, src: Path, dst: Path) {
    MirrorBelow(before, after, src, dst) && MirrorTop(before, after, src, dst)
  }

  /** The two trees agree at and below `root`. */
  ghost predicate Agree(a: Tree, b: Tree, root: Path) {
    forall p :: root <= p ==> (p in a <==> p in b) && (p in a ==> a[p] == b[p])
  }

  /** The two trees agree everywhere else. */
  ghost predicate AgreeOutside(a: Tree, b: Tree, root: Path) {
    forall p :: !(root <= p) ==> (p in a <==> p in b) && (p in a ==> a[p] == b[p])
  }

  // ----- one skill -----

  /** What makes the copy of one skill fail: a folder where a file belongs, or a file as the mirror itself. */
  predicate Conflict(t: Tree, src: Path, dst: Path) {
    exists rel <- RelativeFiles(t, src) :: IsFolder(t, dst + rel) || (dst in t && t[dst].Text?)
  }

  /** Dropping stale files leaves no file above a file to copy. */
  lemma WayAfterStale(t: Tree, left: Tree, src: Path, dst: Path, rel: Path)
    requires WellFormed(t) && Apart(src, dst) && dst != [] && IsFolder(t, Up(dst))
    requires forall p :: p in left <==> p in t && !StaleAt(t, src, dst, p)
    requires forall p <- left :: left[p] == t[p]
    requires Listed(t, src, src + rel)
    ensures Blocked(left, dst, rel) <==> IsFolder(t, dst + rel) || (dst in t && t[dst].Text?)
  {
    var target := dst + rel;
    assert rel != [] by { assert src + [] == src; }
    assert dst <= Up(target) && Up(target)[..|dst|] == dst;
    forall i | 0 <= i <= |Up(target)|
      ensures var q := Up(target)[..i];
           (q in left && left[q].Text?) <==> (q == dst && dst in t && t[dst].Text?)
    {
      AboveTarget(t, left, src, dst, rel, Up(target)[..i]);
    }
  }

  /** The entry at a proper prefix of a target can be a file only if it is the mirror itself. */
  lemma AboveTarget(t: Tree, left: Tree, src: Path, dst: Path, rel: Path, q: Path)
    requires WellFormed(t) && Apart(src, dst) && dst != [] && IsFolder(t, Up(dst))
    requires forall p :: p in left <==> p in t && !StaleAt(t, src, dst, p)
    requires forall p <- left :: left[p] == t[p]
    requires Listed(t, src, src + rel) && q < dst + rel
    ensures (q in left && left[q].Text?) <==> (q == dst && dst in t && t[dst].Text?)
  {
    if dst < q {
      var r := q[|dst|..];
      assert q == dst + r;
      SamePrefix(dst, r, rel);
      SamePrefix(src, r, rel);
      if q in left && left[q].Text? {
        AboveIsFolder(t, q, |dst|);
        assert q[..|dst|] == dst;
        NoCacheAbove(src, dst, rel, r);
        FilesDoNotNest(t, src, src + r, src + rel);
      }
    } else if q < dst {
      assert q <= dst + rel && dst <= dst + rel;
      if q in t {
        AboveUp(t, dst, q);
      }
    } else {
      assert dst <= dst + rel;
      PrefixesCompare(q, dst, dst + rel);
      assert q == dst;
      assert !StaleAt(t, src, dst, dst);
    }
  }

  lemma AboveUp(t: Tree, dst: Path, q: Path)
    requires WellFormed(t) && dst != [] && IsFolder(t, Up(dst)) && q < dst
    ensures IsFolder(t, q)
  {
    assert q == dst[..|q|] == Up(dst)[..|q|];
    if |q| < |Up(dst)| {
      AboveIsFolder(t, Up(dst), |q|);
    } else {
      assert q == Up(dst);
    }
  }

  lemma NoCacheAbove(src: Path, dst: Path, rel: Path, r: Path)
    requires Apart(src, dst) && CACHE !in src + rel && r <= rel
    ensures CACHE !in dst + r && CACHE !in src + r && CACHE !in dst + rel
  {
    assert forall x <- src :: x in src + rel;
    assert forall x <- rel :: x in src + rel;
    assert forall x <- r :: x in rel;
  }

  lemma SameCache(src: Path, dst: Path, rel: Path)
    requires Apart(src, dst)
    ensures CACHE in src + rel <==> CACHE in dst + rel
  {
    if CACHE !in src + rel {
      NoCacheAbove(src, dst, rel, rel);
    }
    if CACHE !in dst + rel {
      NoCacheAbove(dst, src, rel, rel);
    }
  }

  /** The three stages of one skill, from the tree `t`. */
  ghost predicate Stages(t: Tree, left: Tree, copied: Tree, after: Tree, src: Path, dst: Path) {
    && WellFormed(t) && WellFormed(left) && WellFormed(copied) && Apart(src, dst) && dst != [] && IsFolder(t, Up(dst))
    && (forall p :: p in left <==> p in t && !StaleAt(t, src, dst, p)) && (forall p <- left :: left[p] == t[p])
    && Copied(left, copied, src, dst, RelativeFiles(left, src))
    && (forall p :: p in after <==> p in copied && !(dst < p && copied[p].Folder? && !HasFileBelow(copied, p)))
    && (forall p <- after :: after[p] == copied[p])
  }

  lemma SourceKept(t: Tree, left: Tree, src: Path, dst: Path)
    requires Apart(src, dst)
    requires forall p :: p in left <==> p in t && !StaleAt(t, src, dst, p)
    requires forall p <- left :: left[p] == t[p]
    ensures Agree(t, left, src) && RelativeFiles(left, src) == RelativeFiles(t, src)
  {
    forall p | src <= p
      ensures !StaleAt(t, src, dst, p)
    {
      if dst <= p {
        PrefixesCompare(src, dst, p);
      }
    }
    AgreeOnFiles(t, left, src);
  }

  lemma AgreeOnFiles(a: Tree, b: Tree, root: Path)
    requires Agree(a, b, root)
    ensures forall rel :: Listed(a, root, root + rel) <==> Listed(b, root, root + rel)
    ensures RelativeFiles(a, root) == RelativeFiles(b, root)
  {
    forall rel
      ensures Listed(a, root, root + rel) <==> Listed(b, root, root + rel)
    {
      assert root <= root + rel && root <= root;
    }
  }

  /** After the copies, the files below the mirror are exactly the files it should hold. */
  lemma CopiedFiles(t: Tree, left: Tree, copied: Tree, after: Tree, src: Path, dst: Path, p: Path)
    requires Stages(t, left, copied, after, src, dst) && dst < p
    ensures FileAt(t, src, dst, p)
         == if p in copied && copied[p].Text? then Some(copied[p]) else None
  {
    var rel := p[|dst|..];
    assert p == dst + rel;
    SourceKept(t, left, src, dst);
    SameCache(src, dst, rel);
    assert src <= src + rel;
    assert rel in RelativeFiles(left, src) <==> Listed(t, src, src + rel);
    if rel in RelativeFiles(left, src) {
      assert p <= dst + rel;
      assert copied[p] == left[src + rel] == t[src + rel];
    } else if p in copied && copied[p].Text? {
      assert p in left && p in t;
      AboveIsFolder(t, p, |dst|);
      assert p[..|dst|] == dst;
    }
  }

  lemma FilesBelowAgree(t: Tree, left: Tree, copied: Tree, after: Tree, src: Path, dst: Path, p: Path)
    requires Stages(t, left, copied, after, src, dst) && dst < p
    ensures HoldsFileBelow(t, src, dst, p) <==> HasFileBelow(copied, p)
  {
    if HoldsFileBelow(t, src, dst, p) {
      var q :| p < q && dst <= q && FileAt(t, src, dst, q).Some?;
      PrefixesChainAll(dst, p, q);
      CopiedFiles(t, left, copied, after, src, dst, q);
      assert q in copied && copied[q].Text?;
    }
    if HasFileBelow(copied, p) {
      var q :| q in copied && p < q && copied[q].Text?;
      PrefixesChainAll(dst, p, q);
      CopiedFiles(t, left, copied, after, src, dst, q);
    }
  }

  lemma PrefixesChainAll(a: Path, b: Path, c: Path)
    requires a <= b && b <= c
    ensures a <= c && (a < b || b < c ==> a < c)
  {
    assert a == b[..|a|] == c[..|a|];
  }

  lemma MirroredBelowAt(t: Tree, left: Tree, copied: Tree, after: Tree, src: Path, dst: Path, p: Path)
    requires Stages(t, left, copied, after, src, dst) && dst < p
    ensures match FileAt(t, src, dst, p)
            case Some(e) => p in after && after[p] == e
            case None =>
              && (p in after <==> HoldsFileBelow(t, src, dst, p))
              && (p in after ==> after[p].Folder?)
  {
    CopiedFiles(t, left, copied, after, src, dst, p);
    FilesBelowAgree(t, left, copied, after, src, dst, p);
    FolderAboveFile(copied, p);
    PrunedAt(copied, after, dst, p);
  }

  lemma FolderAboveFile(t: Tree, p: Path)
    requires WellFormed(t)
    ensures HasFileBelow(t, p) ==> IsFolder(t, p)
  {
    if HasFileBelow(t, p) {
      var q :| q in t && p < q && t[q].Text?;
      AboveIsFolder(t, q, |p|);
      assert q[..|p|] == p;
    }
  }

  /** What pruning leaves at one path below the mirror. */
  lemma PrunedAt(copied: Tree, after: Tree, dst: Path, p: Path)
    requires forall q :: q in after <==> q in copied && !(dst < q && copied[q].Folder? && !HasFileBelow(copied, q))
    requires forall q <- after :: after[q] == copied[q]
    requires dst < p && (HasFileBelow(copied, p) ==> IsFolder(copied, p))
    ensures p in copied && copied[p].Text? ==> p in after && after[p] == copied[p]
    ensures !(p in copied && copied[p].Text?) ==>
      (p in after <==> HasFileBelow(copied, p)) && (p in after ==> after[p].Folder?)
  {
  }

  lemma OutsideKept(t: Tree, left: Tree, copied: Tree, after: Tree, src: Path, dst: Path)
    requires Stages(t, left, copied, after, src, dst)
    ensures AgreeOutside(t, after, dst) && MirrorTop(t, after, src, dst)
  {
    SourceKept(t, left, src, dst);
    forall p | !(dst < p)
      ensures p in left <==> p in t
      ensures p in after <==> p in copied
    {
    }
    forall p, rel | rel in RelativeFiles(left, src) && p <= dst + rel && !(dst <= p)
      ensures p in left
    {
      PrefixesCompare(p, dst, dst + rel);
      AboveUp(t, dst, p);
    }
    assert src + [] == src;
    forall rel | rel in RelativeFiles(left, src)
      ensures dst <= dst + rel
    {
    }
  }

  lemma StagesMirror(t: Tree, left: Tree, copied: Tree, after: Tree, src: Path, dst: Path)
    requires Stages(t, left, copied, after, src, dst)
    ensures Mirrored(t, after, src, dst) && AgreeOutside(t, after, dst)
  {
    OutsideKept(t, left, copied, after, src, dst);
    forall p | dst < p
      ensures match FileAt(t, src, dst, p)
              case Some(e) => p in after && after[p] == e
              case None =>
                && (p in after <==> HoldsFileBelow(t, src, dst, p))
                && (p in after ==> after[p].Folder?)
    {
      MirroredBelowAt(t, left, copied, after, src, dst, p);
    }
  }

  /** However far the copying got, only the mirror has changed. */
  lemma PartialKeepsOutside(t: Tree, left: Tree, now: Tree, src: Path, dst: Path, done: set<Path>)
    requires WellFormed(t) && dst != [] && IsFolder(t, Up(dst))
    requires forall p :: p in left <==> p in t && !StaleAt(t, src, dst, p)
    requires forall p <- left :: left[p] == t[p]
    requires Copied(left, now, src, dst, done)
    ensures AgreeOutside(t, now, dst)
  {
    forall p | !(dst <= p)
      ensures p in left <==> p in t
    {
    }
    forall p, rel | rel in done && p <= dst + rel && !(dst <= p)
      ensures p in left
    {
      PrefixesCompare(p, dst, dst + rel);
      AboveUp(t, dst, p);
    }
  }

  /** One skill: remove stale files, copy, prune.  A blocked copy raises and stops there. */
  method SyncOne(t: Tree, src: Path, dst: Path) returns (ok: bool, after: Tree)
    requires WellFormed(t) && Apart(src, dst) && dst != [] && IsFolder(t, Up(dst))
    ensures WellFormed(after) && AgreeOutside(t, after, dst)
    ensures ok <==> !Conflict(t, src, dst)
    ensures ok ==> Mirrored(t, after, src, dst)
  {
    var left := RemoveStale(t, src, dst);
    SourceKept(t, left, src, dst);
    forall rel | rel in RelativeFiles(t, src)
      ensures Blocked(left, dst, rel) <==> IsFolder(t, dst + rel) || (dst in t && t[dst].Text?)
    {
      WayAfterStale(t, left, src, dst, rel);
    }
    ghost var done;
    ok, after, done := CopyAll(left, src, dst);
    if !ok {
      PartialKeepsOutside(t, left, after, src, dst, done);
      return;
    }
    ghost var copied := after;
    after := Prune(after, dst);
    StagesMirror(t, left, copied, after, src, dst);
  }

  // ----- the checker -----

  datatype Problem =
    | MissingSource
    | MissingInPackage(rel: Path)
    | StaleInPackage(rel: Path)
    | ContentDiffers(rel: Path)

  predicate InSync(t: Tree, src: Path, dst: Path) {
    && IsFolder(t, src) && RelativeFiles(t, src) == RelativeFiles(t, dst)
    && forall rel <- RelativeFiles(t, src) :: t[src + rel] == t[dst + rel]
  }

  /** `_diff_skill`: every drift, and nothing else. */
  method DiffSkill(t: Tree, src: Path, dst: Path) returns (problems: seq<Problem>)
    ensures problems == [] <==> InSync(t, src, dst)
    ensures MissingSource in problems <==> !IsFolder(t, src)
    ensures IsFolder(t, src) ==> forall rel ::
      && (MissingInPackage(rel) in problems <==> Listed(t, src, src + rel) && !Listed(t, dst, dst + rel))
      && (StaleInPackage(rel) in problems <==> Listed(t, dst, dst + rel) && !Listed(t, src, src + rel))
      && (ContentDiffers(rel) in problems <==>
            Listed(t, src, src + rel) && Listed(t, dst, dst + rel) && t[src + rel] != t[dst + rel])
  {
    if !IsFolder(t, src) {
      return [MissingSource];
    }
    var sourceFiles, destFiles := RelativeFiles(t, src), RelativeFiles(t, dst);
    var missing := Sorted(sourceFiles - destFiles);
    var stale := Sorted(destFiles - sourceFiles);
    var common := Sorted(sourceFiles * destFiles);
    problems := [];
    for i := 0 to |missing|
      invariant forall p :: p in problems <==> p.MissingInPackage? && p.rel in missing[..i]
    {
      assert missing[..i + 1] == missing[..i] + [missing[i]];
      problems := problems + [MissingInPackage(missing[i])];
    }
    for i := 0 to |stale|
      invariant forall p :: p in problems <==>
        || (p.MissingInPackage? && p.rel in missing)
        || (p.StaleInPackage? && p.rel in stale[..i])
    {
      assert stale[..i + 1] == stale[..i] + [stale[i]];
      problems := problems + [StaleInPackage(stale[i])];
    }
    for i := 0 to |common|
      invariant forall p :: p in problems <==>
        || (p.MissingInPackage? && p.rel in missing)
        || (p.StaleInPackage? && p.rel in stale)
        || (p.ContentDiffers? && p.rel in common[..i] && Differs(t, src, dst, p.rel))
    {
      assert common[..i + 1] == common[..i] + [common[i]];
      assert common[i] in common;
      if t[src + common[i]] != t[dst + common[i]] {
        problems := problems + [ContentDiffers(common[i])];
      }
    }
    NoProblemsExactly(t, src, dst, problems);
  }

  predicate Differs(t: Tree, src: Path, dst: Path, rel: Path) {
    src + rel in t && dst + rel in t && t[src + rel] != t[dst + rel]
  }

  lemma NoProblemsExactly(t: Tree, src: Path, dst: Path, problems: seq<Problem>)
    requires IsFolder(t, src)
    requires forall p :: p in problems <==>
      || (p.MissingInPackage? && p.rel in RelativeFiles(t, src) - RelativeFiles(t, dst))
      || (p.StaleInPackage? && p.rel in RelativeFiles(t, dst) - RelativeFiles(t, src))
      || (p.ContentDiffers? && p.rel in RelativeFiles(t, src) * RelativeFiles(t, dst) && Differs(t, src, dst, p.rel))
    ensures problems == [] <==> InSync(t, src, dst)
  {
    var a, b := RelativeFiles(t, src), RelativeFiles(t, dst);
    if problems == [] {
      forall rel
        ensures rel in a <==> rel in b
        ensures rel in a ==> t[src + rel] == t[dst + rel]
      {
        assert MissingInPackage(rel) !in problems && StaleInPackage(rel) !in problems;
        assert ContentDiffers(rel) !in problems;
      }
    } else {
      assert problems[0] in problems;
    }
  }

  // ----- consequences of being mirrored -----

  lemma MirroredIsInSync(b: Tree, a: Tree, src: Path, dst: Path)
    requires Apart(src, dst) && WellFormed(a) && IsFolder(b, src) && Agree(b, a, src) && Mirrored(b, a, src, dst)
    ensures InSync(a, src, dst)
  {
    AgreeOnFiles(b, a, src);
    forall rel
      ensures Listed(a, dst, dst + rel) <==> Listed(a, src, src + rel)
      ensures Listed(a, src, src + rel) ==> a[dst + rel] == a[src + rel]
    {
      MirroredFileAt(b, a, src, dst, rel);
    }
    assert src <= src;
  }

  lemma MirroredFileAt(b: Tree, a: Tree, src: Path, dst: Path, rel: Path)
    requires Apart(src, dst) && WellFormed(a) && Agree(b, a, src) && Mirrored(b, a, src, dst)
    ensures Listed(a, dst, dst + rel) <==> Listed(b, src, src + rel)
    ensures Listed(b, src, src + rel) ==> a[dst + rel] == b[src + rel] == a[src + rel]
  {
    var p := dst + rel;
    assert p[|dst|..] == rel && src <= src + rel;
    SameCache(src, dst, rel);
    assert rel == [] ==> src + rel == src && p == dst;
    if Listed(b, src, src + rel) {
      assert FileAt(b, src, dst, p) == Some(b[src + rel]);
      AboveIsFolder(a, p, |dst|);
      assert p[..|dst|] == dst;
    } else if dst < p {
      assert CACHE !in p ==> FileAt(b, src, dst, p) == None;
    }
  }

  /** No folder of a mirror is empty, nor holds only empty folders. */
  lemma MirrorHasNoEmptyFolder(b: Tree, a: Tree, src: Path, dst: Path, p: Path)
    requires Mirrored(b, a, src, dst) && dst < p && IsFolder(a, p)
    ensures HasFileBelow(a, p)
  {
    assert FileAt(b, src, dst, p).None?;
    var q :| p < q && dst <= q && FileAt(b, src, dst, q).Some?;
    PrefixesChainAll(dst, p, q);
    assert q in a && a[q].Text?;
  }

  lemma MirroredTwiceFileAt(b: Tree, a: Tree, src: Path, dst: Path, p: Path)
    requires Apart(src, dst) && Agree(b, a, src) && Mirrored(b, a, src, dst) && dst < p
    ensures FileAt(a, src, dst, p) == FileAt(b, src, dst, p)
  {
    AgreeOnFiles(b, a, src);
    assert src <= src + p[|dst|..];
  }

  lemma MirroredTwiceAt(b: Tree, a: Tree, again: Tree, src: Path, dst: Path, p: Path)
    requires Apart(src, dst) && Agree(b, a, src)
    requires Mirrored(b, a, src, dst) && Mirrored(a, again, src, dst) && dst < p
    ensures (p in a <==> p in again) && (p in a ==> a[p] == again[p])
  {
    MirroredTwiceFileAt(b, a, src, dst, p);
    forall q | p < q && dst <= q
      ensures FileAt(a, src, dst, q) == FileAt(b, src, dst, q)
    {
      PrefixesChainAll(dst, p, q);
      MirroredTwiceFileAt(b, a, src, dst, q);
    }
    assert HoldsFileBelow(a, src, dst, p) <==> HoldsFileBelow(b, src, dst, p);
  }

  /** Mirroring a mirrored tree changes nothing. */
  lemma MirroredTwice(b: Tree, a: Tree, again: Tree, src: Path, dst: Path)
    requires Apart(src, dst) && Agree(b, a, src)
    requires Mirrored(b, a, src, dst) && Mirrored(a, again, src, dst)
    ensures Agree(a, again, dst)
  {
    AgreeOnFiles(b, a, src);
    forall p | dst <= p
      ensures (p in a <==> p in again) && (p in a ==> a[p] == again[p])
    {
      if dst < p {
        MirroredTwiceAt(b, a, again, src, dst, p);
      } else {
        assert p == dst;
      }
    }
  }

  lemma MirroredHasNoConflict(b: Tree, a: Tree, src: Path, dst: Path)
    requires Apart(src, dst) && WellFormed(a) && Agree(b, a, src) && Mirrored(b, a, src, dst)
    ensures !Conflict(a, src, dst)
  {
    AgreeOnFiles(b, a, src);
    forall rel | rel in RelativeFiles(a, src)
      ensures !IsFolder(a, dst + rel) && !(dst in a && a[dst].Text?)
    {
      MirroredFileAt(b, a, src, dst, rel);
    }
  }

  // ----- what mirroring one skill depends on -----

  lemma MirroredFrom(b: Tree, b': Tree, a: Tree, src: Path, dst: Path)
    requires Agree(b, b', src) && Agree(b, b', dst) && Mirrored(b, a, src, dst)
    ensures Mirrored(b', a, src, dst)
  {
    AgreeOnFiles(b, b', src);
    forall p | dst <= p
      ensures FileAt(b', src, dst, p) == FileAt(b, src, dst, p)
    {
      assert src <= src + p[|dst|..];
    }
    assert dst <= dst;
    forall p | dst < p
      ensures HoldsFileBelow(b', src, dst, p) <==> HoldsFileBelow(b, src, dst, p)
    {
    }
  }

  lemma MirroredTo(b: Tree, a: Tree, a': Tree, src: Path, dst: Path)
    requires Agree(a, a', dst) && Mirrored(b, a, src, dst)
    ensures Mirrored(b, a', src, dst)
  {
    assert dst <= dst;
  }

  lemma ConflictDependsOn(b: Tree, b': Tree, src: Path, dst: Path)
    requires Agree(b, b', src) && Agree(b, b', dst)
    ensures Conflict(b, src, dst) <==> Conflict(b', src, dst)
  {
    AgreeOnFiles(b, b', src);
    assert dst <= dst;
    forall rel
      ensures IsFolder(b, dst + rel) <==> IsFolder(b', dst + rel)
    {
      assert dst <= dst + rel;
    }
  }
}
