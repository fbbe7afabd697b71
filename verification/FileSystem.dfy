/**
 A file tree with symbolic links and hard links: `os.path.realpath` as Python computes
 it, `lstat` and `stat` as the kernel resolves them, and the component check the
 sandbox runs before it trusts a path.
 */
module FileSystem {
  import opened Wrappers
  import opened Paths

  /** A symbolic link's text, split at `/`; it may hold `.`, `..` and empty parts. */
  datatype Target = Target(absolute: bool, parts: seq<string>)

  datatype Field = Word(word: string) | Number(number: int)

  /** File contents: plain text, or the fields of a JSON object or a database row. */
  datatype Content = PlainText(text: string) | Record(fields: map<string, Field>)

  datatype Node =
    | Dir(device: nat, inode: nat)
    | File(inode: nat, links: nat, executable: bool, content: Content)
    | Link(target: Target)
    | Socket(inode: nat)

  /** Every directory entry, keyed by its physical location. */
  datatype Fs = Fs(nodes: map<AbsPath, Node>)

  /** `st_ino` of an entry that is not a link. */
  function Inode(node: Node): nat {
    match node
    case Link(_) => 0
    case Dir(_, inode) => inode
    case File(inode, _, _, _) => inode
    case Socket(inode) => inode
  }

  type Links = map<AbsPath, Target>

  function LinksOf(fs: Fs): Links {
    map p | p in fs.nodes && fs.nodes[p].Link? :: fs.nodes[p].target
  }

  /** Entries hang below directories, under plain names. */
  predicate WellFormed(fs: Fs) {
    && [] in fs.nodes && fs.nodes[[]].Dir?
    && (forall p <- fs.nodes :: PlainPath(p))
    && (forall p <- fs.nodes :: p != [] ==> Parent(p) in fs.nodes && fs.nodes[Parent(p)].Dir?)
    && (forall p <- fs.nodes :: fs.nodes[p].Link? ==>
          forall part <- fs.nodes[p].target.parts :: '/' !in part)
  }

  // ----- os.path.realpath -----

  /** `ok` is false when a link loop stopped the walk. */
  datatype Walk = Walk(path: AbsPath, ok: bool, seen: map<AbsPath, Option<AbsPath>>)

  /** `posixpath._joinrealpath`: `seen` maps a link to its result, or to nothing while open. */
  function JoinReal(links: Links, base: AbsPath, rest: seq<string>,
                    seen: map<AbsPath, Option<AbsPath>>): (w: Walk)
    ensures seen.Keys <= w.seen.Keys
    decreases links.Keys - seen.Keys, |rest|
  {
    if |rest| == 0 then Walk(base, true, seen)
    else if !Kept(rest[0]) then JoinReal(links, base, rest[1..], seen)
    else if rest[0] == ".." then JoinReal(links, Parent(base), rest[1..], seen)
    else
      var next := base + [rest[0]];
      if next !in links then JoinReal(links, next, rest[1..], seen)
      else if next in seen then
        match seen[next]
        case Some(path) => JoinReal(links, path, rest[1..], seen)
        case None => Walk(next + rest[1..], false, seen)
      else
        var open := seen[next := None];
        assert next in links.Keys - seen.Keys && next !in links.Keys - open.Keys;
        var w := JoinReal(links, if links[next].absolute then [] else base, links[next].parts, open);
        if !w.ok then Walk(w.path + rest[1..], false, w.seen)
        else JoinReal(links, w.path, rest[1..], w.seen[next := Some(w.path)])
  }

  function WalkOf(links: Links, p: AbsPath): Walk {
    JoinReal(links, [], p, map[])
  }

  /** `_canonical` of an absolute path: `os.path.realpath`. */
  function Realpath(links: Links, p: AbsPath): AbsPath {
    Normalise([], WalkOf(links, p).path)
  }

  predicate LinkFree(links: Links, p: AbsPath) {
    forall i :: 0 < i <= |p| ==> p[..i] !in links
  }

  /** A walk that meets no link returns its input. */
  lemma {:induction false} WalkLinkFree(links: Links, base: AbsPath, rest: seq<string>,
                                        seen: map<AbsPath, Option<AbsPath>>)
    requires PlainPath(rest)
    requires forall i :: 0 < i <= |rest| ==> base + rest[..i] !in links
    ensures JoinReal(links, base, rest, seen) == Walk(base + rest, true, seen)
    decreases |rest|
  {
    if |rest| == 0 {
      assert base + rest == base;
    } else {
      var next := base + [rest[0]];
      assert Plain(rest[0]);
      assert rest[..1] == [rest[0]];
      assert base + rest[..1] == next;
      forall i | 0 < i <= |rest[1..]|
        ensures next + rest[1..][..i] !in links
      {
        assert next + rest[1..][..i] == base + rest[..i + 1];
      }
      WalkLinkFree(links, next, rest[1..], seen);
      assert next + rest[1..] == base + rest;
    }
  }

  lemma RealpathOfLinkFree(links: Links, p: AbsPath)
    requires PlainPath(p) && LinkFree(links, p)
    ensures WalkOf(links, p) == Walk(p, true, map[]) && Realpath(links, p) == p
  {
    forall i | 0 < i <= |p|
      ensures [] + p[..i] !in links
    {
      assert [] + p[..i] == p[..i];
    }
    WalkLinkFree(links, [], p, map[]);
    assert [] + p == p;
    NormalisePlain([], p);
  }

  predicate ClosedLinksFree(links: Links, seen: map<AbsPath, Option<AbsPath>>) {
    forall p <- seen :: seen[p].Some? ==>
      LinkFree(links, seen[p].value) && PlainPath(seen[p].value)
  }

  predicate PlainTargets(links: Links) {
    forall p <- links :: forall part <- links[p].parts :: '/' !in part
  }

  lemma ParentKeeps(links: Links, p: AbsPath)
    requires LinkFree(links, p) && PlainPath(p)
    ensures LinkFree(links, Parent(p)) && PlainPath(Parent(p))
  {
    forall i | 0 < i <= |Parent(p)|
      ensures Parent(p)[..i] !in links
    {
      assert Parent(p)[..i] == p[..i];
    }
  }

  lemma ChildKeeps(links: Links, p: AbsPath, name: string)
    requires LinkFree(links, p) && PlainPath(p) && Plain(name) && p + [name] !in links
    ensures LinkFree(links, p + [name]) && PlainPath(p + [name])
  {
    var q := p + [name];
    forall i | 0 < i <= |q|
      ensures q[..i] !in links
    {
      if i <= |p| {
        assert q[..i] == p[..i];
      } else {
        assert q[..i] == q;
      }
    }
  }

  /** A walk that ends without a loop ends at a path none of whose prefixes is a link. */
  lemma {:induction false} WalkResolves(links: Links, base: AbsPath, rest: seq<string>,
                                        seen: map<AbsPath, Option<AbsPath>>)
    requires PlainTargets(links) && ClosedLinksFree(links, seen)
    requires LinkFree(links, base) && PlainPath(base)
    requires forall part <- rest :: '/' !in part
    ensures var w := JoinReal(links, base, rest, seen);
         && ClosedLinksFree(links, w.seen)
         && (w.ok ==> LinkFree(links, w.path) && PlainPath(w.path))
         && forall part <- w.path :: '/' !in part
    decreases links.Keys - seen.Keys, |rest|
  {
    PlainHasNoSeparator(base);
    if |rest| == 0 {
    } else if !Kept(rest[0]) {
      WalkResolves(links, base, rest[1..], seen);
    } else if rest[0] == ".." {
      ParentKeeps(links, base);
      WalkResolves(links, Parent(base), rest[1..], seen);
    } else {
      var next := base + [rest[0]];
      assert rest[0] in rest && Plain(rest[0]);
      if next !in links {
        ChildKeeps(links, base, rest[0]);
        WalkResolves(links, next, rest[1..], seen);
      } else if next in seen {
        if seen[next].Some? {
          WalkResolves(links, seen[next].value, rest[1..], seen);
        }
      } else {
        var open := seen[next := None];
        assert next in links.Keys - seen.Keys && next !in links.Keys - open.Keys;
        var start := if links[next].absolute then [] else base;
        WalkResolves(links, start, links[next].parts, open);
        var w := JoinReal(links, start, links[next].parts, open);
        if w.ok {
          WalkResolves(links, w.path, rest[1..], w.seen[next := Some(w.path)]);
        }
      }
    }
  }

  lemma PlainHasNoSeparator(p: AbsPath)
    requires PlainPath(p)
    ensures forall part <- p :: '/' !in part
  {
    forall part | part in p
      ensures '/' !in part
    {
      assert Plain(part);
    }
  }

  lemma RealpathIsPlain(links: Links, p: AbsPath)
    requires PlainTargets(links) && PlainPath(p)
    ensures PlainPath(Realpath(links, p))
  {
    PlainHasNoSeparator(p);
    WalkResolves(links, [], p, map[]);
    NormaliseIsPlain([], WalkOf(links, p).path);
  }

  /** `realpath` is idempotent whenever it did not stop at a loop. */
  lemma RealpathIdempotent(links: Links, p: AbsPath)
    requires PlainTargets(links) && PlainPath(p) && WalkOf(links, p).ok
    ensures var canonical := Realpath(links, p);
         PlainPath(canonical) && LinkFree(links, canonical) && Realpath(links, canonical) == canonical
         && WalkOf(links, p).path == canonical
  {
    PlainHasNoSeparator(p);
    WalkResolves(links, [], p, map[]);
    NormalisePlain([], WalkOf(links, p).path);
    assert [] + WalkOf(links, p).path == WalkOf(links, p).path;
    RealpathOfLinkFree(links, Realpath(links, p));
  }

  // ----- lstat and stat -----

  /** What the kernel answers: an entry, ENOENT, or another error (ENOTDIR, ELOOP). */
  datatype Found = Entry(node: Node) | Missing | Error

  /** The entry at a physical location. */
  function Lookup(fs: Fs, p: AbsPath): Found {
    if p in fs.nodes then Entry(fs.nodes[p])
    else if exists i :: 0 <= i < |p| && p[..i] in fs.nodes && !fs.nodes[p[..i]].Dir? then Error
    else Missing
  }

  /** `lstat`: follows links in every component but the last. */
  function Lstat(fs: Fs, p: AbsPath): Found {
    if |p| == 0 then Lookup(fs, p)
    else
      var w := WalkOf(LinksOf(fs), Parent(p));
      if w.ok then Lookup(fs, w.path + [p[|p| - 1]]) else Error
  }

  /** `stat`: follows links in every component. */
  function Stat(fs: Fs, p: AbsPath): Found {
    var w := WalkOf(LinksOf(fs), p);
    if w.ok then Lookup(fs, w.path) else Error
  }

  predicate IsDir(fs: Fs, p: AbsPath) {
    Stat(fs, p).Entry? && Stat(fs, p).node.Dir?
  }

  predicate IsFile(fs: Fs, p: AbsPath) {
    Stat(fs, p).Entry? && Stat(fs, p).node.File?
  }

  /** `path.exists()`. */
  predicate Exists(fs: Fs, p: AbsPath) {
    Stat(fs, p).Entry?
  }

  // ----- _assert_clean_components -----

  /** The check made at the first `i` components of `p`. */
  predicate CleanAt(fs: Fs, p: AbsPath, i: nat, terminalLink: bool)
    requires 0 < i <= |p|
  {
    match Lstat(fs, p[..i])
    case Missing => true
    case Error => false
    case Entry(Link(_)) => terminalLink && i == |p|
    case Entry(File(_, links, _, _)) => !(i == |p| && links > 1)
    case Entry(_) => true
  }

  /** No component is a link and a final regular file has one name. */
  predicate Clean(fs: Fs, p: AbsPath, terminalLink: bool) {
    forall i :: 0 < i <= |p| ==> CleanAt(fs, p, i, terminalLink)
  }

  method AssertCleanComponents(fs: Fs, p: AbsPath, terminalLink: bool) returns (ok: bool)
    ensures ok == Clean(fs, p, terminalLink)
  {
    for i := 1 to |p| + 1
      invariant forall j :: 0 < j < i ==> CleanAt(fs, p, j, terminalLink)
    {
      if !CleanAt(fs, p, i, terminalLink) {
        return false;
      }
    }
    return true;
  }

  lemma LstatBelowLinkFree(fs: Fs, p: AbsPath)
    requires PlainPath(p) && |p| > 0 && LinkFree(LinksOf(fs), Parent(p))
    ensures Lstat(fs, p) == Lookup(fs, p)
  {
    RealpathOfLinkFree(LinksOf(fs), Parent(p));
    assert Parent(p) + [p[|p| - 1]] == p;
  }

  lemma StatOfLinkFree(fs: Fs, p: AbsPath)
    requires PlainPath(p) && LinkFree(LinksOf(fs), p)
    ensures Stat(fs, p) == Lookup(fs, p)
  {
    RealpathOfLinkFree(LinksOf(fs), p);
  }

  /** Clean components up to `i` mean that no proper prefix so far is a link. */
  lemma {:induction false} CleanPrefixIsLinkFree(fs: Fs, p: AbsPath, i: nat, terminalLink: bool)
    requires PlainPath(p) && Clean(fs, p, terminalLink) && i <= |p|
    requires terminalLink ==> i < |p|
    ensures LinkFree(LinksOf(fs), p[..i])
  {
    if i > 0 {
      CleanPrefixIsLinkFree(fs, p, i - 1, terminalLink);
      var q := p[..i];
      assert Parent(q) == p[..i - 1];
      LstatBelowLinkFree(fs, q);
      assert CleanAt(fs, p, i, terminalLink);
      assert q !in LinksOf(fs);
      forall j | 0 < j <= |q|
        ensures q[..j] !in LinksOf(fs)
      {
        if j < i {
          assert q[..j] == Parent(q)[..j];
        } else {
          assert q[..j] == q;
        }
      }
    }
  }

  /** A path that passes the component check is its own realpath. */
  lemma CleanIsReal(fs: Fs, p: AbsPath)
    requires PlainPath(p) && Clean(fs, p, false)
    ensures LinkFree(LinksOf(fs), p) && Realpath(LinksOf(fs), p) == p
    ensures Stat(fs, p) == Lookup(fs, p)
  {
    CleanPrefixIsLinkFree(fs, p, |p|, false);
    assert p[..|p|] == p;
    RealpathOfLinkFree(LinksOf(fs), p);
  }

  /** A clean entry is not a file with several names. */
  lemma CleanEntry(fs: Fs, p: AbsPath)
    requires PlainPath(p) && Clean(fs, p, false) && p in fs.nodes && fs.nodes[p].File? && p != []
    ensures fs.nodes[p].links <= 1
  {
    CleanIsReal(fs, p);
    ParentKeeps(LinksOf(fs), p);
    LstatBelowLinkFree(fs, p);
    assert p[..|p|] == p;
    assert CleanAt(fs, p, |p|, false);
  }

  /** Conversely: no link on the way, no file in the middle, one name at the end. */
  lemma LinkFreeIsClean(fs: Fs, p: AbsPath)
    requires PlainPath(p) && LinkFree(LinksOf(fs), p)
    requires forall i :: 0 < i <= |p| ==> !Lookup(fs, p[..i]).Error?
    requires p in fs.nodes && fs.nodes[p].File? ==> fs.nodes[p].links <= 1
    ensures Clean(fs, p, false)
  {
    forall i | 0 < i <= |p|
      ensures CleanAt(fs, p, i, false)
    {
      var q := p[..i];
      assert q !in LinksOf(fs);
      forall j | 0 < j <= |Parent(q)|
        ensures Parent(q)[..j] !in LinksOf(fs)
      {
        assert Parent(q)[..j] == p[..j];
      }
      LstatBelowLinkFree(fs, q);
      if i == |p| {
        assert q == p;
      }
    }
  }

  /** Everything above an entry is a directory. */
  lemma {:induction false} PrefixIsDir(fs: Fs, p: AbsPath, i: nat)
    requires WellFormed(fs) && p in fs.nodes && i < |p|
    ensures p[..i] in fs.nodes && fs.nodes[p[..i]].Dir?
    decreases |p| - i
  {
    assert p[..|p|] == p;
    if i == |p| - 1 {
      assert p != [];
      assert Parent(p) == p[..i];
    } else {
      PrefixIsDir(fs, p, i + 1);
      assert p[..i + 1] != [];
      assert Parent(p[..i + 1]) == p[..i];
    }
  }

  /** A link-free entry, other than a file with several names, has clean components. */
  lemma EntryIsClean(fs: Fs, p: AbsPath)
    requires WellFormed(fs) && p in fs.nodes && LinkFree(LinksOf(fs), p)
    requires fs.nodes[p].File? ==> fs.nodes[p].links <= 1
    ensures Clean(fs, p, false)
  {
    forall i | 0 < i <= |p|
      ensures !Lookup(fs, p[..i]).Error?
    {
      if i < |p| {
        PrefixIsDir(fs, p, i);
      } else {
        assert p[..i] == p;
      }
    }
    LinkFreeIsClean(fs, p);
  }

  /** Below a link-free directory, a path whose existing prefixes are directories is clean. */
  lemma BelowDirIsClean(fs: Fs, root: AbsPath, p: AbsPath)
    requires WellFormed(fs) && root in fs.nodes && fs.nodes[root].Dir? && LinkFree(LinksOf(fs), root)
    requires Within(p, root) && PlainPath(p)
    requires forall i :: |root| < i < |p| && p[..i] in fs.nodes ==> fs.nodes[p[..i]].Dir?
    requires p in fs.nodes ==> !fs.nodes[p].Link? && (fs.nodes[p].File? ==> fs.nodes[p].links <= 1)
    ensures Clean(fs, p, false)
  {
    forall i | 0 < i <= |p|
      ensures p[..i] !in LinksOf(fs)
      ensures p[..i] in fs.nodes && i < |p| ==> fs.nodes[p[..i]].Dir?
    {
      if i <= |root| {
        assert p[..i] == root[..i];
        if i < |root| {
          PrefixIsDir(fs, root, i);
        } else {
          assert p[..i] == root;
        }
      } else if i == |p| {
        assert p[..i] == p;
      }
    }
    forall i | 0 < i <= |p|
      ensures !Lookup(fs, p[..i]).Error?
    {
      forall j | 0 <= j < i && p[..i][..j] in fs.nodes
        ensures fs.nodes[p[..i][..j]].Dir?
      {
        assert p[..i][..j] == p[..j];
        if j == 0 {
          assert p[..j] == [];
        }
      }
    }
    LinkFreeIsClean(fs, p);
  }

  // ----- _related -----

  predicate Related(links: Links, left: AbsPath, right: AbsPath) {
    Comparable(Realpath(links, left), Realpath(links, right))
  }

  /**
   The alias check repeated for each field below a root that already passed it can never
   fire: a forbidden path comparable with the field would be comparable with the root.
   */
  lemma FieldAliasIsRootAlias(fs: Fs, root: AbsPath, field: AbsPath, forbidden: AbsPath)
    requires PlainPath(root) && PlainPath(field) && Clean(fs, root, false) && Clean(fs, field, false)
    requires Within(field, root)
    requires Related(LinksOf(fs), field, forbidden)
    ensures Related(LinksOf(fs), root, forbidden)
  {
    CleanIsReal(fs, root);
    CleanIsReal(fs, field);
    var f := Realpath(LinksOf(fs), forbidden);
    if f <= field {
      AncestorsAreComparable(f, root, field);
    } else {
      assert root == field[..|root|] == f[..|root|];
    }
  }
}
