/**
 What `command_up` creates below a freshly reserved root on a quiet host, as functions of
 the tree, and why every one of those creations succeeds.
 */
module SandboxRoom {
  import opened Wrappers
  import opened Paths
  import FS = FileSystem
  import opened Validation
  import opened Reservation
  import opened HostMachine
  import opened SandboxHouse

  /** `_write_once` on a quiet host. */
  function Leaf(fs: FS.Fs, p: AbsPath, content: FS.Content): Option<FS.Fs> {
    if CanCreate(fs, p) then Some(WithFile(fs, p, content)) else None
  }

  function WorkDirs(fs: FS.Fs, root: AbsPath, i: nat): Option<FS.Fs>
    requires i <= 11
    decreases 11 - i
  {
    if i == 11 then Some(fs)
    else
      match EnsureDir(fs, root + MUTABLE_PARTS[i])
      case None => None
      case Some(made) => WorkDirs(made, root, i + 1)
  }

  const CLAUDE_HOME: seq<string> := ["provider-homes", "claude"]
  const CLAUDE_NATIVE: seq<string> := ["provider-homes", "claude", "native-home"]

  function ClaudeDirs(fs: FS.Fs, root: AbsPath): Option<FS.Fs> {
    if root + CLAUDE_HOME in fs.nodes then None
    else
      match EnsureDir(fs, root + CLAUDE_HOME)
      case None => None
      case Some(home) =>
        if root + CLAUDE_NATIVE in home.nodes then None else EnsureDir(home, root + CLAUDE_NATIVE)
  }

  function ClaudeTree(fs: FS.Fs, root: AbsPath): Option<FS.Fs> {
    match ClaudeDirs(fs, root)
    case None => None
    case Some(made) =>
      match Leaf(made, root + LEAF_PARTS[5], FS.PlainText("# G7 sandbox CLAUDE.md\n"))
      case None => None
      case Some(one) => Leaf(one, root + LEAF_PARTS[6], FS.PlainText(""))
  }

  function DbTree(fs: FS.Fs, root: AbsPath, stamp: FS.Content): Option<FS.Fs> {
    if root + ["db"] in fs.nodes then None
    else
      match EnsureDir(fs, root + ["db"])
      case None => None
      case Some(made) => Leaf(made, root + LEAF_PARTS[3], stamp)
  }

  /** Everything after the manifest: the owner lock, the directories, the database. */
  function FittedTree(fs: FS.Fs, root: AbsPath, owner: FS.Content, stamp: FS.Content): Option<FS.Fs> {
    match Leaf(fs, root + LEAF_PARTS[1], owner)
    case None => None
    case Some(locked) =>
      match WorkDirs(locked, root, 4)
      case None => None
      case Some(dirs) =>
        match ClaudeTree(dirs, root)
        case None => None
        case Some(claude) => DbTree(claude, root, stamp)
  }

  // ----- room below the root -----

  /** The root is a directory and everything in it hangs below one of the names. */
  predicate Room(fs: FS.Fs, root: AbsPath, names: set<string>) {
    && FS.WellFormed(fs) && PlainPath(root) && root in fs.nodes && fs.nodes[root].Dir?
    && forall p <- fs.nodes :: root < p ==> p[|root|] in names
  }

  lemma {:induction false} EnsureAdds(fs: FS.Fs, p: AbsPath)
    requires EnsureDir(fs, p).Some?
    ensures var made := EnsureDir(fs, p).value;
         && Extends(fs, made) && p in made.nodes && made.nodes[p].Dir?
         && forall q <- made.nodes :: q in fs.nodes || q <= p
    decreases |p|
  {
    if p !in fs.nodes {
      EnsureAdds(fs, Parent(p));
      var above := EnsureDir(fs, Parent(p)).value;
      forall q | q in WithDir(above, p, 0, 0).nodes
        ensures q in fs.nodes || q <= p
      {
        if q <= Parent(p) {
          assert q == Parent(p)[..|q|] == p[..|q|];
        }
      }
    }
  }

  lemma AddedKeepsRoom(fs: FS.Fs, root: AbsPath, names: set<string>, p: AbsPath, node: FS.Node)
    requires Room(fs, root, names) && CanCreate(fs, p) && PlainPath(p) && root < p && !node.Link?
    ensures Room(fs.(nodes := fs.nodes[p := node]), root, names + {p[|root|]})
  {
    EntryKeepsWellFormed(fs, p, node);
  }

  /** A file under a fresh name. */
  lemma FreshFile(fs: FS.Fs, root: AbsPath, names: set<string>, name: string, content: FS.Content)
    requires Room(fs, root, names) && name !in names && Plain(name)
    ensures CanCreate(fs, root + [name])
    ensures Room(WithFile(fs, root + [name], content), root, names + {name})
  {
    var p := root + [name];
    assert Parent(p) == root && p[|root|] == name;
    AddedKeepsRoom(fs, root, names, p, FS.File(0, 1, false, content));
  }

  /** A directory under a fresh name. */
  lemma FreshDir(fs: FS.Fs, root: AbsPath, names: set<string>, name: string)
    requires Room(fs, root, names) && name !in names && Plain(name)
    ensures EnsureDir(fs, root + [name]) == Some(WithDir(fs, root + [name], 0, 0))
    ensures Room(WithDir(fs, root + [name], 0, 0), root, names + {name})
  {
    var p := root + [name];
    assert Parent(p) == root && p[|root|] == name;
    AddedKeepsRoom(fs, root, names, p, FS.Dir(0, 0));
  }

  /** A directory in an existing one. */
  lemma InnerDir(fs: FS.Fs, root: AbsPath, names: set<string>, above: AbsPath, name: string)
    requires Room(fs, root, names) && root < above && above in fs.nodes && fs.nodes[above].Dir?
    requires above + [name] !in fs.nodes && Plain(name)
    ensures EnsureDir(fs, above + [name]) == Some(WithDir(fs, above + [name], 0, 0))
    ensures Room(WithDir(fs, above + [name], 0, 0), root, names)
  {
    var p := above + [name];
    assert Parent(p) == above && p[|root|] == above[|root|];
    assert names + {p[|root|]} == names;
    assert root < p by { assert root == above[..|root|] == p[..|root|]; }
    AddedKeepsRoom(fs, root, names, p, FS.Dir(0, 0));
  }

  /** A file in an existing directory. */
  lemma InnerFile(fs: FS.Fs, root: AbsPath, names: set<string>, above: AbsPath, name: string, content: FS.Content)
    requires Room(fs, root, names) && root < above && above in fs.nodes && fs.nodes[above].Dir?
    requires above + [name] !in fs.nodes && Plain(name)
    ensures CanCreate(fs, above + [name])
    ensures Room(WithFile(fs, above + [name], content), root, names)
  {
    var p := above + [name];
    assert Parent(p) == above && p[|root|] == above[|root|];
    assert names + {p[|root|]} == names;
    assert root < p by { assert root == above[..|root|] == p[..|root|]; }
    AddedKeepsRoom(fs, root, names, p, FS.File(0, 1, false, content));
  }

  /** What hangs below an unused name is absent. */
  lemma UnusedIsAbsent(fs: FS.Fs, root: AbsPath, names: set<string>, p: AbsPath)
    requires Room(fs, root, names) && root < p && p[|root|] !in names
    ensures p !in fs.nodes
  {
  }

  // ----- what the functions above keep -----

  lemma LeafKeeps(fs: FS.Fs, p: AbsPath, content: FS.Content)
    requires Leaf(fs, p, content).Some?
    ensures var made := Leaf(fs, p, content).value;
         Extends(fs, made) && ContentAt(made, p) == Some(content)
  {
  }

  lemma ExtendsChain(a: FS.Fs, b: FS.Fs, c: FS.Fs)
    requires Extends(a, b) && Extends(b, c)
    ensures Extends(a, c)
  {
  }

  lemma {:induction false} WorkDirsKeep(fs: FS.Fs, root: AbsPath, i: nat)
    requires i <= 11 && WorkDirs(fs, root, i).Some?
    ensures Extends(fs, WorkDirs(fs, root, i).value)
    decreases 11 - i
  {
    if i < 11 {
      EnsureAdds(fs, root + MUTABLE_PARTS[i]);
      WorkDirsKeep(EnsureDir(fs, root + MUTABLE_PARTS[i]).value, root, i + 1);
    }
  }

  lemma ClaudeDirsKeep(fs: FS.Fs, root: AbsPath)
    requires ClaudeDirs(fs, root).Some?
    ensures Extends(fs, ClaudeDirs(fs, root).value)
  {
    EnsureAdds(fs, root + CLAUDE_HOME);
    EnsureAdds(EnsureDir(fs, root + CLAUDE_HOME).value, root + CLAUDE_NATIVE);
  }

  lemma ClaudeKeeps(fs: FS.Fs, root: AbsPath)
    requires ClaudeTree(fs, root).Some?
    ensures Extends(fs, ClaudeTree(fs, root).value)
  {
    ClaudeDirsKeep(fs, root);
  }

  lemma DbKeeps(fs: FS.Fs, root: AbsPath, stamp: FS.Content)
    requires DbTree(fs, root, stamp).Some?
    ensures var made := DbTree(fs, root, stamp).value;
         Extends(fs, made) && ContentAt(made, root + LEAF_PARTS[3]) == Some(stamp)
  {
    EnsureAdds(fs, root + ["db"]);
    LeafKeeps(EnsureDir(fs, root + ["db"]).value, root + LEAF_PARTS[3], stamp);
  }

  /** The fitted tree keeps what was there and holds the owner lock and the stamp. */
  lemma FittedKeeps(fs: FS.Fs, root: AbsPath, owner: FS.Content, stamp: FS.Content)
    requires FittedTree(fs, root, owner, stamp).Some?
    ensures var made := FittedTree(fs, root, owner, stamp).value;
         && Extends(fs, made) && ContentAt(made, root + LEAF_PARTS[1]) == Some(owner)
         && ContentAt(made, root + LEAF_PARTS[3]) == Some(stamp)
  {
    var locked := Leaf(fs, root + LEAF_PARTS[1], owner).value;
    LeafKeeps(fs, root + LEAF_PARTS[1], owner);
    var dirs := WorkDirs(locked, root, 4).value;
    WorkDirsKeep(locked, root, 4);
    var claude := ClaudeTree(dirs, root).value;
    ClaudeKeeps(dirs, root);
    DbKeeps(claude, root, stamp);
    ExtendsChain(locked, dirs, claude);
    ExtendsChain(locked, claude, DbTree(claude, root, stamp).value);
  }

  // ----- the names, in the order they are used -----

  const STEP_NAMES: seq<string> := [
    "fixture-provider-state", MANIFEST_NAME, OWNER_LOCK_NAME, "logs", "fifos", "memory", "workflows",
    "scratch", "graph-exports", "provider-homes", "db", "sandbox.pid"
  ]

  function Used(k: nat): set<string>
    requires k <= |STEP_NAMES|
  {
    set i | 0 <= i < k :: STEP_NAMES[i]
  }

  lemma StepNamesDiffer(i: nat, j: nat)
    requires i < j < |STEP_NAMES|
    ensures STEP_NAMES[i] != STEP_NAMES[j]
  {
  }

  lemma NextName(k: nat)
    requires k < |STEP_NAMES|
    ensures STEP_NAMES[k] !in Used(k) && Plain(STEP_NAMES[k]) && Used(k + 1) == Used(k) + {STEP_NAMES[k]}
  {
    forall i | 0 <= i < k
      ensures STEP_NAMES[i] != STEP_NAMES[k]
    {
      StepNamesDiffer(i, k);
    }
  }

  // ----- the working directories -----

  function ServerLog(root: AbsPath): AbsPath { root + LEAF_PARTS[4] }

  function PidFile(root: AbsPath): AbsPath { root + LEAF_PARTS[2] }

  /** The later working directories have one fresh name each. */
  lemma WorkNames(i: nat)
    requires 6 <= i < 11
    ensures MUTABLE_PARTS[i] == [STEP_NAMES[i - 2]]
  {
  }

  lemma {:induction false} LaterWorkDirs(fs: FS.Fs, root: AbsPath, i: nat)
    requires 6 <= i <= 11 && Room(fs, root, Used(i - 2))
    ensures WorkDirs(fs, root, i).Some?
    ensures var made := WorkDirs(fs, root, i).value;
         && Room(made, root, Used(9)) && Extends(fs, made)
         && forall q <- made.nodes :: q in fs.nodes || |q| == |root| + 1
    decreases 11 - i
  {
    if i < 11 {
      WorkNames(i);
      NextName(i - 2);
      FreshDir(fs, root, Used(i - 2), STEP_NAMES[i - 2]);
      var one := WithDir(fs, root + [STEP_NAMES[i - 2]], 0, 0);
      LaterWorkDirs(one, root, i + 1);
      LaterStep(fs, WorkDirs(one, root, i + 1).value, root, STEP_NAMES[i - 2]);
    }
  }

  lemma LaterStep(fs: FS.Fs, made: FS.Fs, root: AbsPath, name: string)
    requires root + [name] !in fs.nodes && Extends(WithDir(fs, root + [name], 0, 0), made)
    requires forall q <- made.nodes :: q in WithDir(fs, root + [name], 0, 0).nodes || |q| == |root| + 1
    ensures Extends(fs, made) && forall q <- made.nodes :: q in fs.nodes || |q| == |root| + 1
  {
  }

  lemma LogNames()
    ensures MUTABLE_PARTS[4] == ["logs"] && MUTABLE_PARTS[5] == ["logs", "terminal"]
    ensures STEP_NAMES[3] == "logs" && LEAF_PARTS[4] == ["logs", "server.log"]
  {
  }

  /** The first two: the log directory and the snapshots inside it. */
  lemma LogDirs(fs: FS.Fs, root: AbsPath)
    requires Room(fs, root, Used(3))
    ensures var logs := root + ["logs"];
         var two := WithDir(WithDir(fs, logs, 0, 0), logs + ["terminal"], 0, 0);
         && WorkDirs(fs, root, 4) == WorkDirs(two, root, 6) && Room(two, root, Used(4)) && Extends(fs, two)
         && logs in two.nodes && two.nodes[logs].Dir? && logs + ["server.log"] !in two.nodes
  {
    LogNames();
    NextName(3);
    assert Plain("terminal") && "terminal" != "server.log";
    NestedDirs(fs, root, Used(3), "logs", "terminal", "server.log");
    TwoWorkDirs(fs, root);
  }

  /** A fresh directory with one directory in it, and room for another entry beside that. */
  lemma NestedDirs(fs: FS.Fs, root: AbsPath, names: set<string>, outer: string, inner: string, beside: string)
    requires Room(fs, root, names) && outer !in names && Plain(outer) && Plain(inner) && inner != beside
    ensures var top := root + [outer];
         var one := WithDir(fs, top, 0, 0);
         var two := WithDir(one, top + [inner], 0, 0);
         && EnsureDir(fs, top) == Some(one) && EnsureDir(one, top + [inner]) == Some(two)
         && Room(two, root, names + {outer}) && Extends(fs, two)
         && top in two.nodes && two.nodes[top].Dir? && top + [beside] !in two.nodes
  {
    var top := root + [outer];
    UnusedBelow(fs, root, names, outer);
    FreshDir(fs, root, names, outer);
    assert top <= top + [inner] && top <= top + [beside];
    InnerDir(WithDir(fs, top, 0, 0), root, names + {outer}, top, inner);
    assert (top + [beside])[|top|] != (top + [inner])[|top|];
  }

  lemma TwoWorkDirs(fs: FS.Fs, root: AbsPath)
    requires var logs := root + ["logs"];
         var one := WithDir(fs, logs, 0, 0);
         && EnsureDir(fs, logs) == Some(one)
         && EnsureDir(one, logs + ["terminal"]) == Some(WithDir(one, logs + ["terminal"], 0, 0))
    ensures var logs := root + ["logs"];
         WorkDirs(fs, root, 4) == WorkDirs(WithDir(WithDir(fs, logs, 0, 0), logs + ["terminal"], 0, 0), root, 6)
  {
    LogNames();
    var logs := root + ["logs"];
    assert root + MUTABLE_PARTS[5] == logs + ["terminal"];
    assert WorkDirs(fs, root, 4) == WorkDirs(WithDir(fs, logs, 0, 0), root, 5);
  }

  lemma UnusedBelow(fs: FS.Fs, root: AbsPath, names: set<string>, name: string)
    requires Room(fs, root, names) && name !in names
    ensures forall p <- fs.nodes :: !(root + [name] <= p)
  {
    forall p | p in fs.nodes
      ensures !(root + [name] <= p)
    {
      if root + [name] <= p {
        PrefixTransitive(root, root + [name], p);
      }
    }
  }

  lemma WorkDirsWork(fs: FS.Fs, root: AbsPath)
    requires Room(fs, root, Used(3))
    ensures WorkDirs(fs, root, 4).Some?
    ensures var made := WorkDirs(fs, root, 4).value;
         && Room(made, root, Used(9)) && Extends(fs, made) && CanCreate(made, ServerLog(root))
  {
    var logs := root + ["logs"];
    LogDirs(fs, root);
    var two := WithDir(WithDir(fs, logs, 0, 0), logs + ["terminal"], 0, 0);
    LaterWorkDirs(two, root, 6);
    LogPath(root);
    DeepStaysAbsent(two, WorkDirs(two, root, 6).value, root, logs, "server.log");
  }

  lemma LogPath(root: AbsPath)
    ensures ServerLog(root) == root + ["logs"] + ["server.log"]
  {
    LogNames();
  }

  lemma DeepStaysAbsent(a: FS.Fs, b: FS.Fs, root: AbsPath, above: AbsPath, name: string)
    requires Extends(a, b) && forall q <- b.nodes :: q in a.nodes || |q| == |root| + 1
    requires above in a.nodes && a.nodes[above].Dir? && |above| == |root| + 1 && above + [name] !in a.nodes
    ensures CanCreate(b, above + [name])
  {
    assert Parent(above + [name]) == above;
  }

  // ----- provider home and database -----

  /** `made` adds to `fs` only below the name. */
  predicate AddsBelow(fs: FS.Fs, made: FS.Fs, top: AbsPath) {
    Extends(fs, made) && forall q <- made.nodes :: q in fs.nodes || top <= q
  }

  lemma StillCreatable(fs: FS.Fs, made: FS.Fs, top: AbsPath, p: AbsPath)
    requires AddsBelow(fs, made, top) && CanCreate(fs, p) && !(top <= p)
    ensures CanCreate(made, p)
  {
  }

  lemma ClaudeNames()
    ensures LEAF_PARTS[5] == CLAUDE_NATIVE + ["CLAUDE.md"] && LEAF_PARTS[6] == CLAUDE_NATIVE + ["RTK.md"]
    ensures CLAUDE_HOME == ["provider-homes"] + ["claude"] && CLAUDE_NATIVE == CLAUDE_HOME + ["native-home"]
    ensures STEP_NAMES[9] == "provider-homes" && "CLAUDE.md" != "RTK.md"
    ensures Plain("claude") && Plain("native-home") && Plain("CLAUDE.md") && Plain("RTK.md")
  {
  }

  lemma HomeDirs(fs: FS.Fs, root: AbsPath, names: set<string>, outer: string, inner: string)
    requires Room(fs, root, names) && outer !in names && Plain(outer) && Plain(inner)
    ensures var top, home := root + [outer], root + [outer] + [inner];
         var made := WithDir(WithDir(fs, top, 0, 0), home, 0, 0);
         && home !in fs.nodes && EnsureDir(fs, home) == Some(made) && Room(made, root, names + {outer})
         && AddsBelow(fs, made, top) && made.nodes[home].Dir? && forall q <- made.nodes :: !(home < q)
  {
    var top, home := root + [outer], root + [outer] + [inner];
    UnusedBelow(fs, root, names, outer);
    assert top <= home;
    FreshDir(fs, root, names, outer);
    var one := WithDir(fs, top, 0, 0);
    assert Parent(home) == top;
    InnerDir(one, root, names + {outer}, top, inner);
    forall q | q in one.nodes
      ensures !(home <= q)
    {
      if home <= q {
        PrefixTransitive(top, home, q);
      }
    }
  }

  lemma AddsOneMore(fs: FS.Fs, a: FS.Fs, top: AbsPath, p: AbsPath, node: FS.Node)
    requires AddsBelow(fs, a, top) && p !in a.nodes && top <= p
    ensures AddsBelow(fs, a.(nodes := a.nodes[p := node]), top)
  {
  }

  /** Two files in an empty directory below the root. */
  lemma TwoFiles(fs: FS.Fs, root: AbsPath, names: set<string>, above: AbsPath, a: string, b: string,
                 x: FS.Content, y: FS.Content)
    requires Room(fs, root, names) && root < above && above in fs.nodes && fs.nodes[above].Dir?
    requires a != b && Plain(a) && Plain(b) && forall q <- fs.nodes :: !(above < q)
    ensures var one := WithFile(fs, above + [a], x);
         var two := WithFile(one, above + [b], y);
         && Leaf(fs, above + [a], x) == Some(one) && Leaf(one, above + [b], y) == Some(two)
         && Room(two, root, names) && above + [a] !in fs.nodes && above + [b] !in one.nodes
  {
    assert above < above + [a] && above < above + [b];
    InnerFile(fs, root, names, above, a, x);
    assert (above + [a])[|above|] != (above + [b])[|above|];
    InnerFile(WithFile(fs, above + [a], x), root, names, above, b, y);
  }

  /** A directory in an empty one is empty itself. */
  lemma EmptyInside(first: FS.Fs, fs: FS.Fs, root: AbsPath, names: set<string>, top: AbsPath, above: AbsPath,
                    name: string)
    requires Room(fs, root, names) && root < above && above in fs.nodes && fs.nodes[above].Dir? && Plain(name)
    requires top <= above && AddsBelow(first, fs, top) && forall q <- fs.nodes :: !(above < q)
    ensures var p := above + [name];
         var made := WithDir(fs, p, 0, 0);
         && p !in fs.nodes && EnsureDir(fs, p) == Some(made) && Room(made, root, names)
         && AddsBelow(first, made, top) && forall q <- made.nodes :: !(p < q)
  {
    var p := above + [name];
    assert above < p;
    InnerDir(fs, root, names, above, name);
    PrefixTransitive(top, above, p);
    AddsOneMore(first, fs, top, p, FS.Dir(0, 0));
    forall q | q in fs.nodes
      ensures !(p < q)
    {
      if p < q {
        PrefixTransitive(above, p, q);
      }
    }
  }

  /** Two fresh levels and a directory inside them. */
  lemma ThreeLevels(fs: FS.Fs, root: AbsPath, names: set<string>, outer: string, inner: string, last: string)
    requires Room(fs, root, names) && outer !in names && Plain(outer) && Plain(inner) && Plain(last)
    ensures var top, home, native := root + [outer], root + [outer] + [inner], root + [outer] + [inner] + [last];
         var a := WithDir(WithDir(fs, top, 0, 0), home, 0, 0);
         var b := WithDir(a, native, 0, 0);
         && home !in fs.nodes && EnsureDir(fs, home) == Some(a)
         && native !in a.nodes && EnsureDir(a, native) == Some(b)
         && Room(b, root, names + {outer}) && AddsBelow(fs, b, top) && forall q <- b.nodes :: !(native < q)
  {
    var top, home := root + [outer], root + [outer] + [inner];
    HomeDirs(fs, root, names, outer, inner);
    assert root < home by { assert root == home[..|root|]; }
    EmptyInside(fs, WithDir(WithDir(fs, top, 0, 0), home, 0, 0), root, names + {outer}, top, home, last);
  }

  lemma ClaudePaths(root: AbsPath)
    ensures root + CLAUDE_HOME == root + ["provider-homes"] + ["claude"]
    ensures root + CLAUDE_NATIVE == root + ["provider-homes"] + ["claude"] + ["native-home"]
    ensures root + LEAF_PARTS[5] == root + CLAUDE_NATIVE + ["CLAUDE.md"]
    ensures root + LEAF_PARTS[6] == root + CLAUDE_NATIVE + ["RTK.md"]
  {
    ClaudeNames();
  }

  lemma ClaudeWorks(fs: FS.Fs, root: AbsPath, names: set<string>)
    requires Room(fs, root, names) && "provider-homes" !in names && Plain("provider-homes")
    ensures ClaudeTree(fs, root).Some?
    ensures Room(ClaudeTree(fs, root).value, root, names + {"provider-homes"})
    ensures AddsBelow(fs, ClaudeTree(fs, root).value, root + ["provider-homes"])
  {
    ClaudeNames();
    ClaudePaths(root);
    ThreeLevels(fs, root, names, "provider-homes", "claude", "native-home");
    var top, native := root + ["provider-homes"], root + CLAUDE_NATIVE;
    var b := ClaudeDirs(fs, root).value;
    assert root < native by { assert root == native[..|root|]; }
    assert top <= native by { assert top == native[..|top|]; }
    var x, y := FS.PlainText("# G7 sandbox CLAUDE.md\n"), FS.PlainText("");
    TwoFilesBelow(fs, b, root, names + {"provider-homes"}, top, native, "CLAUDE.md", "RTK.md", x, y);
  }

  lemma TwoFilesBelow(fs: FS.Fs, b: FS.Fs, root: AbsPath, names: set<string>, top: AbsPath, above: AbsPath,
                      n1: string, n2: string, x: FS.Content, y: FS.Content)
    requires Room(b, root, names) && root < above && above in b.nodes && b.nodes[above].Dir? && top <= above
    requires n1 != n2 && Plain(n1) && Plain(n2) && (forall q <- b.nodes :: !(above < q)) && AddsBelow(fs, b, top)
    ensures var one := WithFile(b, above + [n1], x);
         var two := WithFile(one, above + [n2], y);
         && Leaf(b, above + [n1], x) == Some(one) && Leaf(one, above + [n2], y) == Some(two)
         && Room(two, root, names) && AddsBelow(fs, two, top)
  {
    TwoFiles(b, root, names, above, n1, n2, x, y);
    var p, q := above + [n1], above + [n2];
    assert top <= p && top <= q by { assert top == above[..|top|] == p[..|top|] == q[..|top|]; }
    AddsOneMore(fs, b, top, p, FS.File(0, 1, false, x));
    AddsOneMore(fs, WithFile(b, p, x), top, q, FS.File(0, 1, false, y));
  }

  lemma DbNames(root: AbsPath)
    ensures root + LEAF_PARTS[3] == root + ["db"] + ["cli-agent-orchestrator.db"]
    ensures Plain("cli-agent-orchestrator.db")
  {
  }

  lemma DbWorks(fs: FS.Fs, root: AbsPath, names: set<string>, stamp: FS.Content)
    requires Room(fs, root, names) && "db" !in names && Plain("db")
    ensures DbTree(fs, root, stamp).Some?
    ensures Room(DbTree(fs, root, stamp).value, root, names + {"db"})
    ensures AddsBelow(fs, DbTree(fs, root, stamp).value, root + ["db"])
  {
    DbNames(root);
    FileInFresh(fs, root, names, "db", "cli-agent-orchestrator.db", stamp);
  }

  lemma FileInFresh(fs: FS.Fs, root: AbsPath, names: set<string>, outer: string, name: string, content: FS.Content)
    requires Room(fs, root, names) && outer !in names && Plain(outer) && Plain(name)
    ensures var top := root + [outer];
         var a := WithDir(fs, top, 0, 0);
         var b := WithFile(a, top + [name], content);
         && top !in fs.nodes && EnsureDir(fs, top) == Some(a) && Leaf(a, top + [name], content) == Some(b)
         && Room(b, root, names + {outer}) && AddsBelow(fs, b, top)
  {
    var top := root + [outer];
    var p := top + [name];
    UnusedBelow(fs, root, names, outer);
    FreshDir(fs, root, names, outer);
    assert top <= p;
    InnerFile(WithDir(fs, top, 0, 0), root, names + {outer}, top, name, content);
  }

  /** From the owner lock on, every directory and the database can be made. */
  lemma AfterLock(locked: FS.Fs, root: AbsPath, stamp: FS.Content)
    requires Room(locked, root, Used(3))
    ensures WorkDirs(locked, root, 4).Some?
    ensures var dirs := WorkDirs(locked, root, 4).value;
         && ClaudeTree(dirs, root).Some? && DbTree(ClaudeTree(dirs, root).value, root, stamp).Some?
         && var made := DbTree(ClaudeTree(dirs, root).value, root, stamp).value;
            Room(made, root, Used(11)) && CanCreate(made, ServerLog(root)) && Extends(locked, made)
  {
    WorkDirsWork(locked, root);
    LastSteps(WorkDirs(locked, root, 4).value, root, stamp);
  }

  lemma OwnerLeaf(fs: FS.Fs, root: AbsPath, owner: FS.Content)
    requires Room(fs, root, Used(2))
    ensures Leaf(fs, root + LEAF_PARTS[1], owner) == Some(WithFile(fs, root + LEAF_PARTS[1], owner))
    ensures Room(WithFile(fs, root + LEAF_PARTS[1], owner), root, Used(3))
  {
    OwnerName();
    NextName(2);
    FreshFile(fs, root, Used(2), OWNER_LOCK_NAME, owner);
  }

  /** Everything after the manifest succeeds, and leaves room for the server log and the pid record. */
  lemma FittingWorks(fs: FS.Fs, root: AbsPath, owner: FS.Content, stamp: FS.Content)
    requires Room(fs, root, Used(2))
    ensures FittedTree(fs, root, owner, stamp).Some?
    ensures var made := FittedTree(fs, root, owner, stamp).value;
         Room(made, root, Used(11)) && CanCreate(made, ServerLog(root)) && Extends(fs, made)
  {
    OwnerLeaf(fs, root, owner);
    var locked := WithFile(fs, root + LEAF_PARTS[1], owner);
    AfterLock(locked, root, stamp);
    FittedIs(fs, root, owner, stamp, locked);
    LeafKeeps(fs, root + LEAF_PARTS[1], owner);
    ExtendsChain(fs, locked, FittedTree(fs, root, owner, stamp).value);
  }

  lemma FittedIs(fs: FS.Fs, root: AbsPath, owner: FS.Content, stamp: FS.Content, locked: FS.Fs)
    requires Leaf(fs, root + LEAF_PARTS[1], owner) == Some(locked) && WorkDirs(locked, root, 4).Some?
    requires ClaudeTree(WorkDirs(locked, root, 4).value, root).Some?
    ensures FittedTree(fs, root, owner, stamp)
         == DbTree(ClaudeTree(WorkDirs(locked, root, 4).value, root).value, root, stamp)
  {
  }

  lemma LastNames()
    ensures STEP_NAMES[9] == "provider-homes" && STEP_NAMES[10] == "db"
  {
  }

  lemma LastSteps(dirs: FS.Fs, root: AbsPath, stamp: FS.Content)
    requires Room(dirs, root, Used(9)) && CanCreate(dirs, ServerLog(root))
    ensures ClaudeTree(dirs, root).Some? && DbTree(ClaudeTree(dirs, root).value, root, stamp).Some?
    ensures var made := DbTree(ClaudeTree(dirs, root).value, root, stamp).value;
         Room(made, root, Used(11)) && CanCreate(made, ServerLog(root)) && Extends(dirs, made)
  {
    LastNames();
    NextName(9);
    NextName(10);
    ClaudeWorks(dirs, root, Used(9));
    var claude := ClaudeTree(dirs, root).value;
    DbWorks(claude, root, Used(10), stamp);
    LogIsElsewhere(root);
    StillCreatable(dirs, claude, root + ["provider-homes"], ServerLog(root));
    StillCreatable(claude, DbTree(claude, root, stamp).value, root + ["db"], ServerLog(root));
  }

  lemma OwnerName()
    ensures LEAF_PARTS[1] == [OWNER_LOCK_NAME] && STEP_NAMES[2] == OWNER_LOCK_NAME
    ensures LEAF_PARTS[0] == [MANIFEST_NAME] && STEP_NAMES[1] == MANIFEST_NAME
    ensures LEAF_PARTS[2] == ["sandbox.pid"] && STEP_NAMES[11] == "sandbox.pid"
  {
  }

  lemma LogIsElsewhere(root: AbsPath)
    ensures !(root + ["provider-homes"] <= ServerLog(root)) && !(root + ["db"] <= ServerLog(root))
  {
    LogNames();
    assert ServerLog(root)[|root|] == "logs";
    assert (root + ["provider-homes"])[|root|] == "provider-homes" && (root + ["db"])[|root|] == "db";
  }

  /** The server log can be created, and then the pid record. */
  lemma LaunchFilesWork(fs: FS.Fs, root: AbsPath)
    requires Room(fs, root, Used(11)) && CanCreate(fs, ServerLog(root))
    ensures CanCreate(WithFile(fs, ServerLog(root), FS.PlainText("")), PidFile(root))
  {
    OwnerName();
    LogNames();
    NextName(11);
    var p := root + ["sandbox.pid"];
    assert p[|root|] == "sandbox.pid" && Parent(p) == root;
    UnusedIsAbsent(fs, root, Used(11), p);
    assert ServerLog(root) != root by { assert |ServerLog(root)| == |root| + 2; }
    assert ServerLog(root) != p by { assert |ServerLog(root)| == |root| + 2; }
  }
}
