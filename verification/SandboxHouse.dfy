/**
 The shape of a sandbox root while its commands work on it: what may be added below the
 root and at the tmux socket, and why the manifest stays acceptable meanwhile.
 */
module SandboxHouse {
  import opened Wrappers
  import opened Manifest
  import opened Paths
  import FS = FileSystem
  import opened Validation
  import opened Reservation
  import opened Acceptance
  import opened HostMachine

  /** The files the commands write, below the root. */
  const LEAF_PARTS: seq<seq<string>> := [
    [MANIFEST_NAME], [OWNER_LOCK_NAME], ["sandbox.pid"],
    ["db", "cli-agent-orchestrator.db"], ["logs", "server.log"],
    ["provider-homes", "claude", "native-home", "CLAUDE.md"],
    ["provider-homes", "claude", "native-home", "RTK.md"]
  ]

  /** The root under work and the tmux socket. */
  datatype House = House(root: AbsPath, socket: AbsPath)

  /** One of the fenced paths lies below `p`. */
  predicate AboveFenced(root: AbsPath, p: AbsPath) {
    exists q <- FencedPaths(root) :: p < q
  }

  /**
   Something new below the root: a directory anywhere, or a file with a single name, or a
   socket or pipe, that stands in the way of no fenced path.
   */
  predicate NewBelow(fs: FS.Fs, p: AbsPath, h: House)
    requires p in fs.nodes
  {
    && h.root < p
    && (fs.nodes[p].Dir? || (SingleEntry(fs.nodes[p]) && !AboveFenced(h.root, p)))
  }

  predicate SingleEntry(node: FS.Node) {
    node.Socket? || (node.File? && node.links == 1)
  }

  /** `fs` is `start` plus new entries below the root, and any state of the socket. */
  predicate Housed(start: FS.Fs, fs: FS.Fs, h: House) {
    && FS.WellFormed(fs)
    && (forall p <- start.nodes :: p != h.socket ==> p in fs.nodes && fs.nodes[p] == start.nodes[p])
    && (forall p <- fs.nodes :: p !in start.nodes && p != h.socket ==> NewBelow(fs, p, h))
    && (h.socket in start.nodes ==> start.nodes[h.socket].Socket?)
    && (h.socket in fs.nodes ==> fs.nodes[h.socket].Socket?)
  }

  /** What holds of the tree right after the reservation. */
  predicate Foundation(start: FS.Fs, h: House) {
    && FS.WellFormed(start) && PlainPath(h.root)
    && h.root in start.nodes && start.nodes[h.root].Dir? && FS.LinkFree(FS.LinksOf(start), h.root)
    && OnlyDirsBelow(start, h.root)
    && !(h.root <= h.socket)
    && (h.socket in start.nodes ==> start.nodes[h.socket].Socket?)
  }

  lemma FoundationIsHoused(start: FS.Fs, h: House)
    requires Foundation(start, h)
    ensures Housed(start, start, h)
  {
  }

  lemma PrefixTransitive(a: AbsPath, b: AbsPath, c: AbsPath)
    requires a <= b && b <= c
    ensures a <= c
  {
    assert a == b[..|a|] == c[..|a|];
  }

  lemma HousedDir(start: FS.Fs, fs: FS.Fs, h: House, p: AbsPath, device: nat, inode: nat)
    requires Foundation(start, h) && Housed(start, fs, h)
    requires CanCreate(fs, p) && h.root < p && PlainPath(p)
    ensures Housed(start, WithDir(fs, p, device, inode), h)
  {
    CreatedDir(fs, p, device, inode);
    var made := WithDir(fs, p, device, inode);
    assert p != h.socket;
    forall q | q in made.nodes && q !in start.nodes && q != h.socket
      ensures NewBelow(made, q, h)
    {
      if q != p {
        assert NewBelow(fs, q, h);
      }
    }
  }

  lemma {:induction false} HousedEnsure(start: FS.Fs, fs: FS.Fs, h: House, p: AbsPath)
    requires Foundation(start, h) && Housed(start, fs, h)
    requires h.root <= p && PlainPath(p) && EnsureDir(fs, p).Some?
    ensures var made := EnsureDir(fs, p).value;
         && Housed(start, made, h)
         && p in made.nodes && made.nodes[p].Dir?
         && forall q <- fs.nodes :: q in made.nodes && made.nodes[q] == fs.nodes[q]
    decreases |p|
  {
    assert h.root != h.socket;
    if p !in fs.nodes {
      assert h.root in fs.nodes && p != h.root;
      assert h.root <= Parent(p) by { assert h.root == p[..|h.root|] == Parent(p)[..|h.root|]; }
      HousedEnsure(start, fs, h, Parent(p));
      var above := EnsureDir(fs, Parent(p)).value;
      HousedDir(start, above, h, p, 0, 0);
    }
  }

  lemma EntryKeepsWellFormed(fs: FS.Fs, p: AbsPath, node: FS.Node)
    requires FS.WellFormed(fs) && CanCreate(fs, p) && PlainPath(p) && !node.Link?
    ensures FS.WellFormed(fs.(nodes := fs.nodes[p := node]))
  {
    var made := fs.(nodes := fs.nodes[p := node]);
    forall q | q in made.nodes && q != []
      ensures Parent(q) in made.nodes && made.nodes[Parent(q)].Dir?
    {
      if q != p {
        assert Parent(q) in fs.nodes;
      }
    }
  }

  lemma HousedFile(start: FS.Fs, fs: FS.Fs, h: House, p: AbsPath, content: FS.Content)
    requires Foundation(start, h) && Housed(start, fs, h)
    requires CanCreate(fs, p) && h.root < p && PlainPath(p) && !AboveFenced(h.root, p)
    ensures Housed(start, WithFile(fs, p, content), h)
  {
    var made := WithFile(fs, p, content);
    EntryKeepsWellFormed(fs, p, FS.File(0, 1, false, content));
    assert p != h.socket;
    forall q | q in made.nodes && q !in start.nodes && q != h.socket
      ensures NewBelow(made, q, h)
    {
      if q != p {
        assert NewBelow(fs, q, h);
      }
    }
  }

  lemma HousedWithSocket(start: FS.Fs, fs: FS.Fs, h: House)
    requires Foundation(start, h) && Housed(start, fs, h)
    requires CanCreate(fs, h.socket) && PlainPath(h.socket)
    ensures Housed(start, fs.(nodes := fs.nodes[h.socket := FS.Socket(0)]), h)
  {
    EntryKeepsWellFormed(fs, h.socket, FS.Socket(0));
    SameButSocket(start, fs, fs.(nodes := fs.nodes[h.socket := FS.Socket(0)]), h);
  }

  /** Only the socket differs, and it is a socket. */
  lemma SameButSocket(start: FS.Fs, fs: FS.Fs, made: FS.Fs, h: House)
    requires Housed(start, fs, h) && FS.WellFormed(made)
    requires forall q :: q != h.socket ==> (q in made.nodes <==> q in fs.nodes)
    requires forall q <- fs.nodes :: q != h.socket ==> made.nodes[q] == fs.nodes[q]
    requires h.socket in made.nodes ==> made.nodes[h.socket].Socket?
    ensures Housed(start, made, h)
  {
    forall q | q in made.nodes && q !in start.nodes && q != h.socket
      ensures NewBelow(made, q, h)
    {
      assert NewBelow(fs, q, h);
    }
  }

  /** Removing the socket, or a file the commands wrote, leaves a housed tree. */
  lemma HousedWithout(start: FS.Fs, fs: FS.Fs, h: House, p: AbsPath)
    requires Foundation(start, h) && Housed(start, fs, h)
    requires p == h.socket || (p !in start.nodes && (p in fs.nodes ==> fs.nodes[p].File?))
    ensures Housed(start, Without(fs, p), h)
  {
    var less := Without(fs, p);
    forall q | q in less.nodes && q != []
      ensures Parent(q) in less.nodes && less.nodes[Parent(q)].Dir?
    {
      assert fs.nodes[Parent(q)].Dir?;
    }
    forall q | q in less.nodes && q !in start.nodes && q != h.socket
      ensures NewBelow(less, q, h)
    {
      assert NewBelow(fs, q, h);
    }
  }

  /** `start` is `before` with something at the root, where nothing was. */
  predicate GrownAt(before: FS.Fs, start: FS.Fs, root: AbsPath) {
    && (forall p <- before.nodes :: p in start.nodes && start.nodes[p] == before.nodes[p] && !(root <= p))
    && (forall p <- start.nodes :: p in before.nodes || root <= p)
  }

  /** Removing the whole root gives back the tree there was before it, up to the socket. */
  lemma RemovingRootRestores(before: FS.Fs, start: FS.Fs, fs: FS.Fs, h: House)
    requires Foundation(start, h) && Housed(start, fs, h)
    requires GrownAt(before, start, h.root)
    ensures Without(WithoutTree(fs, h.root), h.socket) == Without(before, h.socket)
  {
    var a, b := Without(WithoutTree(fs, h.root), h.socket), Without(before, h.socket);
    forall p | p in a.nodes
      ensures p in b.nodes && a.nodes[p] == b.nodes[p]
    {
      assert p !in start.nodes ==> NewBelow(fs, p, h);
    }
    forall p | p in b.nodes
      ensures p in a.nodes
    {
      assert p in start.nodes && p in fs.nodes;
    }
    assert a.nodes == b.nodes;
  }

  lemma SameLinks(a: FS.Fs, b: FS.Fs)
    requires forall p <- b.nodes :: b.nodes[p].Link? ==> p in a.nodes && a.nodes[p] == b.nodes[p]
    requires forall p <- a.nodes :: a.nodes[p].Link? ==> p in b.nodes && b.nodes[p] == a.nodes[p]
    ensures FS.LinksOf(b) == FS.LinksOf(a)
  {
  }

  lemma HousedLinks(start: FS.Fs, fs: FS.Fs, h: House)
    requires Foundation(start, h) && Housed(start, fs, h)
    ensures FS.LinksOf(fs) == FS.LinksOf(start)
    ensures h.root in fs.nodes && fs.nodes[h.root] == start.nodes[h.root]
  {
    assert h.root != h.socket;
    forall p | p in fs.nodes && fs.nodes[p].Link?
      ensures p in start.nodes && start.nodes[p] == fs.nodes[p]
    {
      assert p !in start.nodes && p != h.socket ==> NewBelow(fs, p, h);
    }
    SameLinks(start, fs);
  }

  lemma HousedGrows(start: FS.Fs, fs: FS.Fs, h: House, keep: set<AbsPath>)
    requires Foundation(start, h) && Housed(start, fs, h) && h.socket !in keep
    ensures Grows(start, fs, keep)
  {
    HousedLinks(start, fs, h);
  }

  /** A file the commands wrote directly below the root has clean components. */
  lemma HousedFileIsClean(start: FS.Fs, fs: FS.Fs, h: House, name: string, p: AbsPath)
    requires Foundation(start, h) && Housed(start, fs, h) && p == h.root + [name]
    requires p in fs.nodes && fs.nodes[p].File?
    ensures FS.Clean(fs, p, false)
  {
    HousedLinks(start, fs, h);
    assert p !in start.nodes;
    assert NewBelow(fs, p, h);
    forall i | 0 < i <= |p|
      ensures p[..i] !in FS.LinksOf(fs)
    {
      if i <= |h.root| {
        assert p[..i] == h.root[..i];
      } else {
        assert p[..i] == p;
      }
    }
    FS.EntryIsClean(fs, p);
  }

  /** How deep a fenced path goes, and under which first name. */
  predicate FencedShape(parts: seq<string>) {
    && 1 <= |parts| <= 3
    && (|parts| == 2 ==> parts[0] == "db" || parts[0] == "logs" || parts[0] == "provider-homes")
    && (|parts| == 3 ==> parts[0] == "provider-homes")
  }

  /** No known file lies above a path of that shape. */
  lemma LeavesAreNotAbove(i: nat, parts: seq<string>)
    requires i < |LEAF_PARTS| && FencedShape(parts) && |LEAF_PARTS[i]| < |parts|
    ensures LEAF_PARTS[i] != parts[..|LEAF_PARTS[i]|]
  {
    assert parts[..|LEAF_PARTS[i]|][0] == parts[0];
  }

  lemma FieldIsShaped(i: nat)
    requires i < |MUTABLE_PARTS|
    ensures FencedShape(MUTABLE_PARTS[i])
  {
  }

  lemma PinIsShaped(provider: string, pin: AuthPin)
    requires PinOf(provider) == Some(pin)
    ensures FencedShape(pin.home) && FencedShape(pin.home + [pin.name])
    ensures pin.nativeHome.Some? ==> FencedShape(pin.nativeHome.value)
  {
  }

  /** A fenced path is the root followed by parts of the fenced shape. */
  lemma FencedIsShaped(root: AbsPath, p: AbsPath)
    requires p in FencedPaths(root)
    ensures root <= p && FencedShape(p[|root|..])
  {
    if p in FieldPaths(root, 0) {
      var j :| 0 <= j < |MUTABLE_PARTS| && p == root + MUTABLE_PARTS[j];
      FieldIsShaped(j);
      assert p[|root|..] == MUTABLE_PARTS[j];
    } else if p == root + [MANIFEST_NAME] {
      assert p[|root|..] == [MANIFEST_NAME];
    } else if p == StateDir(root) {
      assert p[|root|..] == ["fixture-provider-state"];
    } else {
      HomeIsShaped(root, p);
    }
  }

  lemma HomeIsShaped(root: AbsPath, p: AbsPath)
    requires p in HomesOf(root, "codex") + HomesOf(root, "claude_code") + HomesOf(root, "grok_cli")
    ensures root <= p && FencedShape(p[|root|..])
  {
    var provider := if p in HomesOf(root, "codex") then "codex"
                    else if p in HomesOf(root, "claude_code") then "claude_code" else "grok_cli";
    HomeOfPinIsShaped(root, provider, PinOf(provider).value, p);
  }

  lemma HomeOfPinIsShaped(root: AbsPath, provider: string, pin: AuthPin, p: AbsPath)
    requires PinOf(provider) == Some(pin) && p in ProviderHomes(root, pin)
    ensures root <= p && FencedShape(p[|root|..])
  {
    PinIsShaped(provider, pin);
    if p == root + pin.home {
      assert p[|root|..] == pin.home;
    } else if p == root + pin.home + [pin.name] {
      assert p[|root|..] == pin.home + [pin.name];
    } else {
      assert p[|root|..] == pin.nativeHome.value;
    }
  }

  lemma HousedFenced(start: FS.Fs, fs: FS.Fs, h: House, p: AbsPath)
    requires Foundation(start, h) && Housed(start, fs, h)
    requires p in FencedPaths(h.root)
    ensures FS.Clean(fs, p, false)
  {
    FencedArePlain(h.root, p);
    HousedLinks(start, fs, h);
    forall i | |h.root| < i < |p| && p[..i] in fs.nodes
      ensures fs.nodes[p[..i]].Dir?
    {
      HousedAbove(start, fs, h, p, i);
    }
    if p in fs.nodes {
      HousedEntry(start, fs, h, p);
    }
    FS.BelowDirIsClean(fs, h.root, p);
  }

  /** An entry below the root is no link, and no file with several names. */
  lemma HousedEntry(start: FS.Fs, fs: FS.Fs, h: House, p: AbsPath)
    requires Foundation(start, h) && Housed(start, fs, h) && h.root <= p && p in fs.nodes
    ensures fs.nodes[p].Dir? || SingleEntry(fs.nodes[p])
  {
    assert p != h.socket;
    assert p !in start.nodes ==> NewBelow(fs, p, h);
  }

  lemma HousedAbove(start: FS.Fs, fs: FS.Fs, h: House, p: AbsPath, i: nat)
    requires Foundation(start, h) && Housed(start, fs, h)
    requires p in FencedPaths(h.root) && h.root <= p && |h.root| < i < |p| && p[..i] in fs.nodes
    ensures fs.nodes[p[..i]].Dir?
  {
    var q := p[..i];
    assert h.root <= q && q < p;
    assert AboveFenced(h.root, q);
    assert q !in start.nodes ==> NewBelow(fs, q, h);
  }

  /** A housed tree still accepts the manifest the reservation wrote. */
  lemma HousedIsReady(env: Env, start: FS.Fs, fs: FS.Fs, h: House, m: InstanceManifest, k: Pins)
    requires Foundation(start, h) && Housed(start, fs, h)
    requires Ready(env, start, m, k) && k.root == h.root && h.socket != k.base && h.socket != k.binary
    ensures Ready(env, fs, m, k)
  {
    HousedGrows(start, fs, h, {k.base, k.binary});
    forall p | p in FencedPaths(k.root)
      ensures FS.Clean(fs, p, false)
    {
      HousedFenced(start, fs, h, p);
    }
    ReadyStays(env, start, fs, m, k);
  }

  /** Every entry of `a` is still in `b`. */
  predicate Extends(a: FS.Fs, b: FS.Fs) {
    forall p <- a.nodes :: p in b.nodes && b.nodes[p] == a.nodes[p]
  }

  lemma LeafFacts(root: AbsPath, i: nat)
    requires i < |LEAF_PARTS| && PlainPath(root)
    ensures !AboveFenced(root, root + LEAF_PARTS[i])
    ensures root < root + LEAF_PARTS[i] && PlainPath(root + LEAF_PARTS[i])
  {
    LeafPartsArePlain(i);
    forall q | q in FencedPaths(root)
      ensures !(root + LEAF_PARTS[i] < q)
    {
      FencedIsShaped(root, q);
      if root + LEAF_PARTS[i] < q {
        LeafAbove(root, LEAF_PARTS[i], q);
        LeavesAreNotAbove(i, q[|root|..]);
      }
    }
  }

  lemma LeafAbove(root: AbsPath, parts: seq<string>, q: AbsPath)
    requires root + parts < q
    ensures |parts| < |q[|root|..]| && q[|root|..][..|parts|] == parts
  {
    assert q[..|root + parts|] == root + parts;
  }

  lemma LeafPartsArePlain(i: nat)
    requires i < |LEAF_PARTS|
    ensures PlainPath(LEAF_PARTS[i]) && |LEAF_PARTS[i]| > 0
  {
  }
}
