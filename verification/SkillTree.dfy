/**
 A tree of folders and regular files, and the three steps by which a skill folder is
 mirrored: dropping stale files, copying every source file, pruning empty folders.
 */
module SkillTree {
  import opened Wrappers
  import opened PathOrder

  datatype Entry = Folder | Text(bytes: string)

  type Tree = map<Path, Entry>

  const CACHE := "__pycache__"

  function Up(p: Path): Path
    requires p != []
  {
    p[..|p| - 1]
  }

  predicate WellFormed(t: Tree) {
    && [] in t && t[[]].Folder?
    && forall p <- t :: p != [] ==> Up(p) in t && t[Up(p)].Folder?
  }

  predicate IsFolder(t: Tree, p: Path) {
    p in t && t[p].Folder?
  }

  /** Everything above an entry is a folder. */
  lemma {:induction false} AboveIsFolder(t: Tree, p: Path, i: nat)
    requires WellFormed(t) && p in t && i < |p|
    ensures IsFolder(t, p[..i])
    decreases |p|
  {
    if i < |p| - 1 {
      AboveIsFolder(t, Up(p), i);
      assert Up(p)[..i] == p[..i];
    }
  }

  // ----- _relative_files -----

  /** A regular file below `root` that is no bytecode cache. */
  predicate Listed(t: Tree, root: Path, p: Path) {
    IsFolder(t, root) && root < p && p in t && t[p].Text? && CACHE !in p
  }

  function RelativeFiles(t: Tree, root: Path): (files: set<Path>)
    ensures forall rel :: rel in files <==> Listed(t, root, root + rel)
  {
    RelativeIff(t, root);
    set p | p in t && Listed(t, root, p) :: p[|root|..]
  }

  lemma RelativeIff(t: Tree, root: Path)
    ensures forall rel :: rel in (set p | p in t && Listed(t, root, p) :: p[|root|..]) <==> Listed(t, root, root + rel)
  {
    var files := set p | p in t && Listed(t, root, p) :: p[|root|..];
    forall rel
      ensures rel in files <==> Listed(t, root, root + rel)
    {
      assert (root + rel)[|root|..] == rel;
      if rel in files {
        var p :| p in t && Listed(t, root, p) && p[|root|..] == rel;
        assert p == root + rel;
      }
    }
  }

  /** No listed file lies below another. */
  lemma FilesDoNotNest(t: Tree, root: Path, a: Path, b: Path)
    requires WellFormed(t) && Listed(t, root, a) && b in t
    ensures !(a < b)
  {
    if a < b {
      assert b[..|a|] == a;
      AboveIsFolder(t, b, |a|);
    }
  }

  // ----- dropping stale files -----

  /** Removing files keeps the tree well formed. */
  lemma RemoveFiles(t: Tree, gone: set<Path>)
    requires WellFormed(t) && forall p <- gone :: p in t ==> t[p].Text?
    ensures WellFormed(t - gone)
  {
  }

  /** The listed files of the mirror that the source does not have. */
  predicate StaleAt(t: Tree, src: Path, dst: Path, p: Path) {
    Listed(t, dst, p) && !Listed(t, src, src + p[|dst|..])
  }

  /** The places of the relative paths in the mirror. */
  function Placed(dst: Path, names: seq<Path>): set<Path> {
    set rel <- names :: dst + rel
  }

  lemma OneMorePlaced(dst: Path, names: seq<Path>, i: nat)
    requires i < |names|
    ensures Placed(dst, names[..i + 1]) == Placed(dst, names[..i]) + {dst + names[i]}
  {
    assert names[..i + 1] == names[..i] + [names[i]];
  }

  method RemoveStale(t: Tree, src: Path, dst: Path) returns (left: Tree)
    requires WellFormed(t)
    ensures WellFormed(left)
    ensures forall p :: p in left <==> p in t && !StaleAt(t, src, dst, p)
    ensures forall p <- left :: left[p] == t[p]
  {
    var stale := Sorted(RelativeFiles(t, dst) - RelativeFiles(t, src));
    left := t;
    for i := 0 to |stale|
      invariant left == t - Placed(dst, stale[..i])
    {
      OneMorePlaced(dst, stale, i);
      left := left - {dst + stale[i]};
    }
    assert stale[..|stale|] == stale;
    StaleIsPlaced(t, src, dst, stale);
    RemoveFiles(t, Placed(dst, stale));
  }

  lemma StaleIsPlaced(t: Tree, src: Path, dst: Path, stale: seq<Path>)
    requires forall rel :: rel in stale <==> rel in RelativeFiles(t, dst) - RelativeFiles(t, src)
    ensures forall p :: StaleAt(t, src, dst, p) <==> p in Placed(dst, stale)
    ensures forall p <- Placed(dst, stale) :: p in t ==> t[p].Text?
  {
    forall p
      ensures StaleAt(t, src, dst, p) <==> p in Placed(dst, stale)
    {
      if StaleAt(t, src, dst, p) {
        var rel := p[|dst|..];
        assert p == dst + rel;
        assert rel in stale;
      }
      if p in Placed(dst, stale) {
        var rel :| rel in stale && p == dst + rel;
        assert p[|dst|..] == rel;
      }
    }
  }

  // ----- copying -----

  /** `mkdir(parents=True, exist_ok=True)`: fails when a file is in the way. */
  function MakeFolders(t: Tree, p: Path): Option<Tree> {
    if p in t then (if t[p].Folder? then Some(t) else None)
    else if p == [] then None
    else
      match MakeFolders(t, Up(p))
      case None => None
      case Some(made) => Some(made[p := Folder])
  }

  predicate FileOnTheWay(t: Tree, p: Path) {
    exists i :: 0 <= i <= |p| && p[..i] in t && t[p[..i]].Text?
  }

  lemma PresentAbove(t: Tree, p: Path)
    requires WellFormed(t) && p in t
    ensures FileOnTheWay(t, p) <==> t[p].Text?
    ensures forall q | q <= p :: q in t
  {
    assert p[..|p|] == p;
    forall i | 0 <= i < |p|
      ensures IsFolder(t, p[..i])
    {
      AboveIsFolder(t, p, i);
    }
    forall q | q <= p
      ensures q in t
    {
      assert q == p[..|q|];
    }
  }

  lemma {:induction false} MakeFoldersAdds(t: Tree, p: Path)
    requires WellFormed(t)
    ensures MakeFolders(t, p).None? <==> FileOnTheWay(t, p)
    ensures MakeFolders(t, p).Some? ==>
      var made := MakeFolders(t, p).value;
      && WellFormed(made) && (forall q :: q in made <==> q in t || q <= p)
      && (forall q <- made :: made[q] == if q in t then t[q] else Folder)
    decreases |p|
  {
    if p in t {
      PresentAbove(t, p);
    } else if p != [] {
      MakeFoldersAdds(t, Up(p));
      assert p[..|p|] == p;
      assert forall i :: 0 <= i < |p| ==> Up(p)[..i] == p[..i];
      var made := MakeFolders(t, p);
      if made.Some? {
        forall q
          ensures q in made.value <==> q in t || q <= p
        {
          PrefixOfUp(p, q);
        }
      }
    }
  }

  lemma PrefixOfUp(p: Path, q: Path)
    requires p != []
    ensures q <= p <==> q == p || q <= Up(p)
  {
    if q <= p && q != p {
      assert q == p[..|q|] == Up(p)[..|q|];
    }
    if q <= Up(p) {
      assert q == Up(p)[..|q|] == p[..|q|];
    }
  }

  /** The tree after the files in `done` were copied from `src` to `dst`. */
  ghost predicate Copied(start: Tree, now: Tree, src: Path, dst: Path, done: set<Path>) {
    && (forall rel <- done :: Listed(start, src, src + rel))
    && (forall q :: q in now <==> q in start || exists rel <- done :: q <= dst + rel)
    && (forall q <- now :: now[q] ==
          if dst <= q && q[|dst|..] in done && src + q[|dst|..] in start then start[src + q[|dst|..]]
          else if q in start then start[q] else Folder)
  }

  /** What stops the copy of `rel`: a folder in its place or a file above it. */
  predicate Blocked(t: Tree, dst: Path, rel: Path) {
    IsFolder(t, dst + rel) || (rel != [] && FileOnTheWay(t, Up(dst + rel)))
  }

  /** `target.parent.mkdir(...)` and `copyfile`. */
  function CopyOne(t: Tree, src: Path, dst: Path, rel: Path): Option<Tree>
    requires rel != [] && src + rel in t
  {
    match MakeFolders(t, Up(dst + rel))
    case None => None
    case Some(made) =>
      if IsFolder(made, dst + rel) || src + rel !in made then None
      else Some(made[dst + rel := made[src + rel]])
  }

  /** Source and mirror lie apart, and neither path hides a cache part from the other. */
  predicate Apart(src: Path, dst: Path) {
    !(src <= dst) && !(dst <= src) && (CACHE in src <==> CACHE in dst)
  }

  lemma ApartBelow(src: Path, dst: Path, rel: Path)
    requires Apart(src, dst)
    ensures !(dst <= src + rel) && !(src <= dst + rel)
  {
    if dst <= src + rel {
      PrefixesCompare(src, dst, src + rel);
    }
    if src <= dst + rel {
      PrefixesCompare(src, dst, dst + rel);
    }
  }

  lemma PrefixesCompare(a: Path, b: Path, c: Path)
    requires a <= c && b <= c
    ensures a <= b || b <= a
  {
    if |a| <= |b| {
      assert a == c[..|a|] == b[..|a|];
    } else {
      assert b == c[..|b|] == a[..|b|];
    }
  }

  lemma SamePrefix(d: Path, a: Path, b: Path)
    ensures d + a <= d + b <==> a <= b
    ensures d + a == d + b <==> a == b
  {
    assert (d + a)[|d|..] == a && (d + b)[|d|..] == b;
    if |a| <= |b| {
      assert (d + b)[..|d + a|] == d + b[..|a|];
      assert (d + b[..|a|])[|d|..] == b[..|a|];
    }
  }

  /** Which entries there are after one more copy. */
  lemma CopyOneEntries(start: Tree, now: Tree, next: Tree, src: Path, dst: Path, done: set<Path>, rel: Path)
    requires Copied(start, now, src, dst, done) && dst + rel != []
    requires forall q :: q in next <==> q in now || q <= Up(dst + rel) || q == dst + rel
    ensures forall q :: q in next <==> q in start || exists r <- done + {rel} :: q <= dst + r
  {
    forall q
      ensures q in next <==> q in start || exists r <- done + {rel} :: q <= dst + r
    {
      PrefixOfUp(dst + rel, q);
    }
  }

  /** What every entry holds after one more copy. */
  lemma CopyOneHolds(start: Tree, now: Tree, next: Tree, src: Path, dst: Path, done: set<Path>, rel: Path)
    requires Copied(start, now, src, dst, done) && rel !in done && src + rel in start && dst + rel != []
    requires forall q <- next :: q in now || q <= Up(dst + rel) || q == dst + rel
    requires forall q <- next ::
      next[q] == if q == dst + rel then start[src + rel] else if q in now then now[q] else Folder
    ensures forall q <- next ::
      next[q] == (if dst <= q && q[|dst|..] in done + {rel} && src + q[|dst|..] in start then start[src + q[|dst|..]]
                  else if q in start then start[q] else Folder)
  {
    assert (dst + rel)[|dst|..] == rel;
    forall q | q in next
      ensures next[q] ==
        if dst <= q && q[|dst|..] in done + {rel} && src + q[|dst|..] in start then start[src + q[|dst|..]]
        else if q in start then start[q] else Folder
    {
      if dst <= q {
        assert q == dst + q[|dst|..];
      }
    }
  }

  /** One more file: it fails exactly when something of the mirror at the start is in its way. */
  lemma CopyOneStep(start: Tree, now: Tree, src: Path, dst: Path, done: set<Path>, rel: Path)
    requires WellFormed(start) && WellFormed(now) && Apart(src, dst) && Copied(start, now, src, dst, done)
    requires Listed(start, src, src + rel) && rel !in done
    ensures src + rel in now && rel != []
    ensures CopyOne(now, src, dst, rel).None? <==> Blocked(start, dst, rel)
    ensures CopyOne(now, src, dst, rel).Some? ==>
      && WellFormed(CopyOne(now, src, dst, rel).value)
      && Copied(start, CopyOne(now, src, dst, rel).value, src, dst, done + {rel})
  {
    ApartBelow(src, dst, rel);
    MakeFoldersAdds(now, Up(dst + rel));
    WayIsFree(start, now, src, dst, done, rel);
    if CopyOne(now, src, dst, rel).Some? {
      var made := MakeFolders(now, Up(dst + rel)).value;
      EntryKeepsWellFormed(made, dst + rel, start[src + rel]);
      CopyOneDone(start, now, made, src, dst, done, rel);
    }
  }

  lemma CopyOneDone(start: Tree, now: Tree, made: Tree, src: Path, dst: Path, done: set<Path>, rel: Path)
    requires Copied(start, now, src, dst, done) && rel != [] && rel !in done
    requires Listed(start, src, src + rel)
    requires forall q :: q in made <==> q in now || q <= Up(dst + rel)
    requires forall q <- made :: made[q] == if q in now then now[q] else Folder
    ensures Copied(start, made[dst + rel := start[src + rel]], src, dst, done + {rel})
  {
    var next := made[dst + rel := start[src + rel]];
    CopyOneEntries(start, now, next, src, dst, done, rel);
    CopyOneHolds(start, now, next, src, dst, done, rel);
  }

  lemma EntryKeepsWellFormed(t: Tree, p: Path, e: Entry)
    requires WellFormed(t) && p != [] && IsFolder(t, Up(p)) && !IsFolder(t, p)
    ensures e.Text? ==> WellFormed(t[p := e])
  {
  }

  /** The copies made so far are in no one's way, so only the start matters. */
  lemma WayIsFree(start: Tree, now: Tree, src: Path, dst: Path, done: set<Path>, rel: Path)
    requires WellFormed(start) && WellFormed(now) && Apart(src, dst) && Copied(start, now, src, dst, done)
    requires Listed(start, src, src + rel) && rel !in done
    ensures IsFolder(now, dst + rel) <==> IsFolder(start, dst + rel)
    ensures FileOnTheWay(now, Up(dst + rel)) <==> FileOnTheWay(start, Up(dst + rel))
  {
    var target := dst + rel;
    forall r | r in done
      ensures !(target <= dst + r) && !(dst + r <= target)
    {
      FilesDoNotNest(start, src, src + r, src + rel);
      FilesDoNotNest(start, src, src + rel, src + r);
      SamePrefix(src, r, rel);
      SamePrefix(src, rel, r);
      SamePrefix(dst, r, rel);
      SamePrefix(dst, rel, r);
    }
    assert target[|dst|..] == rel;
    forall i | 0 <= i <= |Up(target)|
      ensures var q := Up(target)[..i];
           (q in now && now[q].Text?) <==> (q in start && start[q].Text?)
    {
      var q := Up(target)[..i];
      assert q <= target;
      if dst <= q {
        assert q == dst + q[|dst|..];
      }
    }
  }

  function SetOf(order: seq<Path>): set<Path> {
    set p | p in order
  }

  lemma NextIsNew(order: seq<Path>, i: nat)
    requires Ascending(order) && i < |order|
    ensures order[i] !in order[..i] && order[..i + 1] == order[..i] + [order[i]]
    ensures SetOf(order[..i + 1]) == SetOf(order[..i]) + {order[i]}
  {
    assert order[..i + 1] == order[..i] + [order[i]];
    PathIrreflexive(order[i]);
    assert forall j :: 0 <= j < i ==> order[..i][j] == order[j];
  }

  /** Copies file by file; a failing copy leaves what was copied before it. */
  method CopyAll(start: Tree, src: Path, dst: Path) returns (ok: bool, now: Tree, ghost done: set<Path>)
    requires WellFormed(start) && Apart(src, dst)
    ensures WellFormed(now) && Copied(start, now, src, dst, done)
    ensures !ok <==> exists rel <- RelativeFiles(start, src) :: Blocked(start, dst, rel)
    ensures ok ==> done == RelativeFiles(start, src)
  {
    var order := Sorted(RelativeFiles(start, src));
    now, done := start, {};
    for i := 0 to |order|
      invariant WellFormed(now) && done == SetOf(order[..i]) && Copied(start, now, src, dst, done)
      invariant forall rel <- order[..i] :: !Blocked(start, dst, rel)
    {
      var rel := order[i];
      assert rel in order;
      NextIsNew(order, i);
      CopyOneStep(start, now, src, dst, done, rel);
      var next := CopyOne(now, src, dst, rel);
      if next.None? {
        return false, now, done;
      }
      now, done := next.value, done + {rel};
    }
    assert order[..|order|] == order;
    ok := true;
  }

  // ----- pruning -----

  ghost predicate HasFileBelow(t: Tree, d: Path) {
    exists q :: q in t && d < q && t[q].Text?
  }

  predicate HasChild(t: Tree, d: Path) {
    exists q <- t :: q != [] && Up(q) == d
  }

  function Below(t: Tree, root: Path): set<Path> {
    set p | p in t && root < p
  }

  /** An entry below `d` hangs on a child of `d`. */
  lemma ChildTowards(t: Tree, d: Path, q: Path)
    requires WellFormed(t) && q in t && d < q
    ensures HasChild(t, d)
  {
    var c := q[..|d| + 1];
    if |c| < |q| {
      AboveIsFolder(t, q, |c|);
    } else {
      assert c == q;
    }
    assert Up(c) == q[..|d|] == d;
  }

  /** The pruning loop has visited `order[i..]`, from the last entry back. */
  ghost predicate Pruned(start: Tree, now: Tree, root: Path, order: seq<Path>, i: nat)
    requires i <= |order|
  {
    && WellFormed(now)
    && (forall p <- now :: p in start && now[p] == start[p])
    && (forall p <- start :: p !in now ==> root < p && start[p].Folder? && !HasFileBelow(start, p))
    && (forall j :: i <= j < |order| && IsFolder(now, order[j]) ==> HasFileBelow(start, order[j]))
  }

  lemma FileBelowChild(t: Tree, d: Path, c: Path)
    requires c in t && d < c && (t[c].Text? || HasFileBelow(t, c))
    ensures HasFileBelow(t, d)
  {
    if t[c].Folder? {
      var q :| q in t && c < q && t[q].Text?;
      assert d == c[..|d|] == q[..|d|];
      assert d < q;
    }
  }

  lemma KeptFolder(start: Tree, now: Tree, root: Path, order: seq<Path>, i: nat)
    requires i < |order| && Ascending(order) && forall p :: p in order <==> p in Below(start, root)
    requires Pruned(start, now, root, order, i + 1)
    requires IsFolder(now, order[i]) && HasChild(now, order[i])
    ensures HasFileBelow(start, order[i])
  {
    var d := order[i];
    assert d in order;
    var c :| c in now && c != [] && Up(c) == d;
    assert c[..|d|] == d;
    PrefixesChain(root, d, c);
    assert c in order;
    var j :| 0 <= j < |order| && order[j] == c;
    LaterInOrder(order, i, j);
    FileBelowChild(start, d, c);
  }

  lemma PrefixesChain(a: Path, b: Path, c: Path)
    requires a < b && b < c
    ensures a < c
  {
    assert a == b[..|a|] == c[..|a|];
  }

  lemma EmptyFolder(start: Tree, now: Tree, root: Path, order: seq<Path>, i: nat, d: Path)
    requires i <= |order| && Pruned(start, now, root, order, i) && IsFolder(now, d) && !HasChild(now, d)
    ensures !HasFileBelow(start, d)
  {
    if HasFileBelow(start, d) {
      var q :| q in start && d < q && start[q].Text?;
      assert q in now;
      ChildTowards(now, d, q);
    }
  }

  /** An empty folder goes; nothing that was visited before changes. */
  lemma RemoveStep(start: Tree, now: Tree, root: Path, order: seq<Path>, i: nat)
    requires i < |order| && order[i] in Below(start, root)
    requires WellFormed(start) && Pruned(start, now, root, order, i + 1)
    requires IsFolder(now, order[i]) && !HasChild(now, order[i])
    ensures Pruned(start, now - {order[i]}, root, order, i)
  {
    var d := order[i];
    EmptyFolder(start, now, root, order, i + 1, d);
    RemoveLeaf(now, d);
  }

  /** Visiting one folder: every entry below it comes later in the order and was visited. */
  lemma PruneStep(start: Tree, now: Tree, root: Path, order: seq<Path>, i: nat)
    requires i < |order| && Ascending(order) && forall p :: p in order <==> p in Below(start, root)
    requires WellFormed(start) && Pruned(start, now, root, order, i + 1)
    ensures IsFolder(now, order[i]) && !HasChild(now, order[i]) ==>
      Pruned(start, now - {order[i]}, root, order, i)
    ensures !(IsFolder(now, order[i]) && !HasChild(now, order[i])) ==> Pruned(start, now, root, order, i)
  {
    assert order[i] in order;
    if IsFolder(now, order[i]) {
      if HasChild(now, order[i]) {
        KeptFolder(start, now, root, order, i);
      } else {
        RemoveStep(start, now, root, order, i);
      }
    }
  }

  lemma RemoveLeaf(t: Tree, d: Path)
    requires WellFormed(t) && d != [] && !HasChild(t, d)
    ensures WellFormed(t - {d})
  {
  }

  lemma LaterInOrder(order: seq<Path>, i: nat, j: nat)
    requires i < |order| && j < |order| && Ascending(order) && order[i] < order[j]
    ensures i < j
  {
    ParentIsLess(order[i], order[j]);
    PathIrreflexive(order[i]);
    if j < i {
      PathTransitive(order[i], order[j], order[i]);
    }
  }

  method Prune(start: Tree, root: Path) returns (now: Tree)
    requires WellFormed(start)
    ensures WellFormed(now)
    ensures forall p :: p in now <==> p in start && !(root < p && start[p].Folder? && !HasFileBelow(start, p))
    ensures forall p <- now :: now[p] == start[p]
  {
    var order := Sorted(Below(start, root));
    now := start;
    for i := |order| downto 0
      invariant Pruned(start, now, root, order, i)
    {
      PruneStep(start, now, root, order, i);
      if IsFolder(now, order[i]) && !HasChild(now, order[i]) {
        now := now - {order[i]};
      }
    }
    forall p | p in start && root < p && start[p].Folder? && !HasFileBelow(start, p)
      ensures p !in now
    {
      assert p in order;
      var j :| 0 <= j < |order| && order[j] == p;
    }
  }
}
