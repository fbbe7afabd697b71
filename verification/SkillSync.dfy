/** `sync` and `check` over all shipped skills of a repository. */
module SkillSync {
  import opened Wrappers
  import opened PathOrder
  import opened SkillTree
  import opened SkillMirror

  class Repository {
    const root: Path
    const skills: seq<string>
    var tree: Tree

    constructor (root: Path, skills: seq<string>, tree: Tree)
      requires WellFormed(tree) && forall i, j :: 0 <= i < j < |skills| ==> skills[i] != skills[j]
      ensures Valid() && this.root == root && this.skills == skills && this.tree == tree
    {
      this.root, this.skills, this.tree := root, skills, tree;
    }

    predicate Valid()
      reads this
    {
      WellFormed(tree) && forall i, j :: 0 <= i < j < |skills| ==> skills[i] != skills[j]
    }

    /** `skills/<name>`. */
    function Source(name: string): Path {
      root + ["skills", name]
    }

    /** The package tree that holds the mirrors. */
    function Package(): Path {
      root + ["src", "cli_agent_orchestrator", "skills"]
    }

    function Mirror(name: string): (p: Path)
      ensures p != [] && Up(p) == Package()
    {
      Package() + [name]
    }

    lemma SkillIsApart(name: string)
      ensures Apart(Source(name), Mirror(name))
    {
      SourceIsAway(name, name);
      assert CACHE in Source(name) <==> CACHE in root || CACHE in ["skills", name];
      assert CACHE in Package() <==> CACHE in root || CACHE in ["src", "cli_agent_orchestrator", "skills"];
      assert CACHE in Mirror(name) <==> CACHE in Package() || CACHE == name;
      assert CACHE != "skills" && CACHE != "src" && CACHE != "cli_agent_orchestrator" by {
        assert CACHE[0] == '_';
      }
    }

    lemma SourceIsAway(a: string, b: string)
      ensures !(Source(a) <= Mirror(b)) && !(Mirror(b) <= Source(a)) && !(Source(a) <= Package())
    {
      var n := |root|;
      assert Source(a)[n] == "skills" && Mirror(b)[n] == "src" && Package()[n] == "src";
    }

    lemma MirrorsAreAway(a: string, b: string)
      requires a != b
      ensures !(Mirror(a) <= Mirror(b)) && !(Mirror(b) <= Mirror(a))
    {
      assert Mirror(a)[|root| + 3] == a && Mirror(b)[|root| + 3] == b;
    }

    // ----- check -----

    predicate AllInSync()
      reads this
    {
      forall name <- skills :: InSync(tree, Source(name), Mirror(name))
    }

    /** `check`: 0 exactly when no skill has drifted. */
    method Check() returns (code: nat)
      ensures code == if AllInSync() then 0 else 1
    {
      var problems := [];
      for i := 0 to |skills|
        invariant problems == [] <==> forall k :: 0 <= k < i ==> InSync(tree, Source(skills[k]), Mirror(skills[k]))
      {
        var found := DiffSkill(tree, Source(skills[i]), Mirror(skills[i]));
        problems := problems + found;
      }
      code := if |problems| > 0 then 1 else 0;
    }

    // ----- sync -----

    predicate SourcesPresent()
      reads this
    {
      forall name <- skills :: IsFolder(tree, Source(name))
    }

    /** Exactly when `sync` returns 0. */
    predicate Syncable()
      reads this
    {
      && SourcesPresent() && !FileOnTheWay(tree, Package())
      && forall name <- skills :: !ConflictAt(tree, name)
    }

    /** Away from the mirrors nothing changed, except that the package tree may have been created. */
    ghost predicate OthersKept(before: Tree, after: Tree) {
      forall p :: (forall name <- skills :: !(Mirror(name) <= p)) ==>
        if p in before then p in after && after[p] == before[p]
        else p in after ==> after[p].Folder? && p <= Package()
    }

    /** The first `n` skills are mirrored from `made`; the mirrors of the others are as in `made`. */
    ghost predicate Progress(made: Tree, now: Tree, n: nat)
      requires n <= |skills|
    {
      && WellFormed(now) && IsFolder(now, Package())
      && (forall k :: 0 <= k < |skills| ==> Agree(made, now, Source(skills[k])))
      && (forall k :: 0 <= k < n ==> Mirrored(made, now, Source(skills[k]), Mirror(skills[k])))
      && (forall k :: n <= k < |skills| ==> Agree(made, now, Mirror(skills[k])))
    }

    /** A change confined to one mirror leaves any path apart from it alone. */
    lemma Untouched(before: Tree, after: Tree, d: Path, r: Path)
      requires AgreeOutside(before, after, d) && !(r <= d) && !(d <= r)
      ensures Agree(before, after, r)
    {
      forall p | r <= p
        ensures (p in before <==> p in after) && (p in before ==> before[p] == after[p])
      {
        if d <= p {
          PrefixesCompare(r, d, p);
        }
      }
    }

    lemma AgreeChain(a: Tree, b: Tree, c: Tree, r: Path)
      requires Agree(a, b, r) && Agree(b, c, r)
      ensures Agree(a, c, r)
    {
    }

    lemma NextSkill(made: Tree, now: Tree, next: Tree, n: nat)
      requires n < |skills| && forall i, j :: 0 <= i < j < |skills| ==> skills[i] != skills[j]
      requires Progress(made, now, n) && WellFormed(next)
      requires AgreeOutside(now, next, Mirror(skills[n]))
      requires Mirrored(now, next, Source(skills[n]), Mirror(skills[n]))
      ensures Progress(made, next, n + 1)
    {
      var dst := Mirror(skills[n]);
      assert !(dst <= Package());
      forall k | 0 <= k < |skills|
        ensures Agree(made, next, Source(skills[k]))
      {
        SourceIsAway(skills[k], skills[n]);
        Untouched(now, next, dst, Source(skills[k]));
        AgreeChain(made, now, next, Source(skills[k]));
      }
      forall k | 0 <= k < |skills| && k != n
        ensures Agree(now, next, Mirror(skills[k]))
      {
        MirrorsAreAway(skills[k], skills[n]);
        Untouched(now, next, dst, Mirror(skills[k]));
      }
      forall k | 0 <= k < n + 1
        ensures Mirrored(made, next, Source(skills[k]), Mirror(skills[k]))
      {
        if k < n {
          MirroredTo(made, now, next, Source(skills[k]), Mirror(skills[k]));
        } else {
          AgreeSymmetric(made, now, Source(skills[n]));
          AgreeSymmetric(made, now, dst);
          MirroredFrom(now, made, next, Source(skills[n]), dst);
        }
      }
      forall k | n + 1 <= k < |skills|
        ensures Agree(made, next, Mirror(skills[k]))
      {
        AgreeChain(made, now, next, Mirror(skills[k]));
      }
    }

    lemma AgreeSymmetric(a: Tree, b: Tree, r: Path)
      requires Agree(a, b, r)
      ensures Agree(b, a, r)
    {
    }

    /** Creating the package tree touches no source and no mirror. */
    lemma PackageMade(before: Tree, made: Tree, name: string)
      requires WellFormed(before) && MakeFolders(before, Package()) == Some(made)
      ensures Agree(before, made, Source(name)) && Agree(before, made, Mirror(name))
    {
      MakeFoldersAdds(before, Package());
      SourceIsAway(name, name);
      forall p | Source(name) <= p || Mirror(name) <= p
        ensures p in made <==> p in before
      {
        if p <= Package() {
          if Source(name) <= p {
            PrefixesChainAll(Source(name), p, Package());
          } else {
            PrefixesChainAll(Mirror(name), p, Package());
          }
        }
      }
    }
  
    /** Creating the package tree has touched no source and no mirror. */
    ghost predicate PackageOnly(before: Tree, made: Tree) {
      forall name <- skills :: Agree(before, made, Source(name)) && Agree(before, made, Mirror(name))
    }

    /** The frame survives one more skill. */
    lemma OthersKeptBy(before: Tree, now: Tree, next: Tree, name: string)
      requires OthersKept(before, now) && name in skills && AgreeOutside(now, next, Mirror(name))
      ensures OthersKept(before, next)
    {
    }

    lemma OthersKeptByPackage(before: Tree, made: Tree)
      requires WellFormed(before) && MakeFolders(before, Package()) == Some(made)
      ensures OthersKept(before, made) && WellFormed(made) && IsFolder(made, Package())
      ensures PackageOnly(before, made)
    {
      MakeFoldersAdds(before, Package());
      forall name | name in skills
        ensures Agree(before, made, Source(name)) && Agree(before, made, Mirror(name))
      {
        PackageMade(before, made, name);
      }
      assert Package() <= Package();
      assert Package()[..|Package()|] == Package();
    }

    lemma StartOfProgress(before: Tree, made: Tree)
      requires WellFormed(made) && IsFolder(made, Package())
      ensures Progress(made, made, 0)
    {
    }

    lemma ProgressDone(before: Tree, made: Tree, now: Tree)
      requires Progress(made, now, |skills|) && PackageOnly(before, made)
      ensures forall name <- skills ::
        Mirrored(before, now, Source(name), Mirror(name)) && Agree(before, now, Source(name))
    {
      forall name | name in skills
        ensures Mirrored(before, now, Source(name), Mirror(name)) && Agree(before, now, Source(name))
      {
        var k :| 0 <= k < |skills| && skills[k] == name;
        AgreeChain(before, made, now, Source(name));
        AgreeSymmetric(before, made, Source(name));
        AgreeSymmetric(before, made, Mirror(name));
        MirroredFrom(made, before, now, Source(name), Mirror(name));
      }
    }

    lemma AllMirroredIsInSync(before: Tree)
      requires Valid() && forall name <- skills :: IsFolder(before, Source(name))
      requires forall name <- skills ::
        Mirrored(before, tree, Source(name), Mirror(name)) && Agree(before, tree, Source(name))
      ensures AllInSync()
    {
      forall name | name in skills
        ensures InSync(tree, Source(name), Mirror(name))
      {
        SkillIsApart(name);
        MirroredIsInSync(before, tree, Source(name), Mirror(name));
      }
    }

    /** One turn of the loop of `sync`. */
    method SyncSkill(n: nat, ghost before: Tree, ghost made: Tree) returns (ok: bool)
      requires Valid() && n < |skills| && Progress(made, tree, n) && OthersKept(before, tree)
      requires PackageOnly(before, made)
      modifies `tree
      ensures Valid() && OthersKept(before, tree)
      ensures ok <==> !ConflictAt(before, skills[n])
      ensures ok ==> Progress(made, tree, n + 1)
    {
      var name := skills[n];
      assert name in skills;
      SkillIsApart(name);
      AgreeChain(before, made, tree, Source(name));
      AgreeChain(before, made, tree, Mirror(name));
      ConflictDependsOn(before, tree, Source(name), Mirror(name));
      ghost var now := tree;
      var after;
      ok, after := SyncOne(tree, Source(name), Mirror(name));
      OthersKeptBy(before, now, after, name);
      if ok {
        NextSkill(made, now, after, n);
      }
      tree := after;
    }

    predicate ClearUpTo(before: Tree, n: nat)
      requires n <= |skills|
    {
      forall k :: 0 <= k < n ==> !ConflictAt(before, skills[k])
    }

    predicate ConflictAt(t: Tree, name: string) {
      Conflict(t, Source(name), Mirror(name))
    }

    lemma ClearStep(before: Tree, n: nat)
      requires n < |skills| && ClearUpTo(before, n)
      ensures ClearUpTo(before, n + 1) <==> !ConflictAt(before, skills[n])
      ensures ConflictAt(before, skills[n]) ==> !ClearUpTo(before, |skills|)
    {
    }

    /** The loop of `sync`: stops at the first skill whose copy is blocked. */
    method SyncAll(ghost before: Tree, ghost made: Tree) returns (ok: bool)
      requires Valid() && Progress(made, tree, 0) && OthersKept(before, tree)
      requires PackageOnly(before, made)
      modifies `tree
      ensures Valid() && OthersKept(before, tree)
      ensures ok <==> ClearUpTo(before, |skills|)
      ensures ok ==> Progress(made, tree, |skills|)
    {
      var n := 0;
      ok := true;
      while n < |skills| && ok
        invariant n <= |skills| && Valid() && OthersKept(before, tree)
        invariant ok ==> Progress(made, tree, n) && ClearUpTo(before, n)
        invariant !ok ==> !ClearUpTo(before, |skills|)
      {
        ClearStep(before, n);
        ok := SyncSkill(n, before, made);
        n := n + 1;
      }
    }

    /**
     `sync`.  It returns 1 and touches nothing when a source is missing, raises when a file or
     folder is in the way, and otherwise returns 0 with every mirror regenerated.
     */
    method Sync() returns (code: Option<nat>)
      requires Valid()
      modifies `tree
      ensures Valid() && (code.None? || code.value <= 1)
      ensures code == Some(1) <==> !old(SourcesPresent())
      ensures code == Some(1) ==> tree == old(tree)
      ensures code == Some(0) <==> old(Syncable())
      ensures OthersKept(old(tree), tree)
      ensures code == Some(0) ==> AllInSync() && IsFolder(tree, Package()) && forall name <- skills ::
        Mirrored(old(tree), tree, Source(name), Mirror(name)) && Agree(old(tree), tree, Source(name))
    {
      if !SourcesPresent() {
        return Some(1);
      }
      var created := MakeFolders(tree, Package());
      MakeFoldersAdds(tree, Package());
      if created.None? {
        return None;
      }
      ghost var before := tree;
      OthersKeptByPackage(tree, created.value);
      tree := created.value;
      ghost var made := tree;
      StartOfProgress(before, made);
      var ok := SyncAll(before, made);
      if !ok {
        return None;
      }
      ProgressDone(before, made, tree);
      AllMirroredIsInSync(before);
      return Some(0);
    }

    /** A regenerated repository can be regenerated again. */
    lemma SyncableAfter(before: Tree)
      requires Valid() && forall name <- skills :: IsFolder(before, Source(name))
      requires IsFolder(tree, Package()) && forall name <- skills ::
        Mirrored(before, tree, Source(name), Mirror(name)) && Agree(before, tree, Source(name))
      ensures Syncable()
    {
      forall i | 0 <= i <= |Package()|
        ensures IsFolder(tree, Package()[..i])
      {
        if i < |Package()| {
          AboveIsFolder(tree, Package(), i);
        } else {
          assert Package()[..i] == Package();
        }
      }
      forall name | name in skills
        ensures IsFolder(tree, Source(name)) && !Conflict(tree, Source(name), Mirror(name))
      {
        SkillIsApart(name);
        MirroredHasNoConflict(before, tree, Source(name), Mirror(name));
        assert Source(name) <= Source(name);
      }
    }

    lemma PackageIsThere(t: Tree, p: Path)
      requires WellFormed(t) && IsFolder(t, Package()) && p <= Package()
      ensures p in t
    {
      assert p == Package()[..|p|];
      if |p| < |Package()| {
        AboveIsFolder(t, Package(), |p|);
      } else {
        assert p == Package();
      }
    }

    lemma MirrorIsIdle(before: Tree, between: Tree, after: Tree, name: string, p: Path)
      requires Mirrored(before, between, Source(name), Mirror(name)) && Agree(before, between, Source(name))
      requires Mirrored(between, after, Source(name), Mirror(name)) && Mirror(name) <= p
      ensures (p in between <==> p in after) && (p in between ==> between[p] == after[p])
    {
      SkillIsApart(name);
      MirroredTwice(before, between, after, Source(name), Mirror(name));
    }

    /** Regenerating a regenerated repository changes nothing. */
    lemma SecondSyncIsIdle(before: Tree, between: Tree, after: Tree)
      requires WellFormed(between) && IsFolder(between, Package()) && OthersKept(between, after)
      requires forall name <- skills ::
        Mirrored(before, between, Source(name), Mirror(name)) && Agree(before, between, Source(name))
      requires forall name <- skills :: Mirrored(between, after, Source(name), Mirror(name))
      ensures after == between
    {
      forall p
        ensures p in between <==> p in after
        ensures p in between ==> between[p] == after[p]
      {
        if name :| name in skills && Mirror(name) <= p {
          MirrorIsIdle(before, between, after, name, p);
        } else if p <= Package() {
          PackageIsThere(between, p);
        }
      }
    }

    /**
     `sync`, `check`, `sync`.  The first returns 0 exactly when the tree can be synchronised;
     `between` is then the tree with every mirror regenerated and nothing else changed, the
     check passes on it, the second `sync` leaves it as it is, and no mirror holds an empty
     folder.  Whatever happens, nothing but the mirrors and their package folder is touched.
     */
    method SyncCheckSync() returns (first: Option<nat>, verdict: nat, second: Option<nat>, ghost between: Tree)
      requires Valid()
      modifies `tree
      ensures first == Some(0) <==> old(Syncable())
      ensures first == Some(1) <==> !old(SourcesPresent())
      ensures first == Some(1) ==> between == old(tree)
      ensures OthersKept(old(tree), between) && OthersKept(between, tree)
      ensures verdict == if forall name <- skills :: InSync(between, Source(name), Mirror(name)) then 0 else 1
      ensures first == Some(0) ==> forall name <- skills ::
        Mirrored(old(tree), between, Source(name), Mirror(name)) && Agree(old(tree), between, Source(name))
      ensures first == Some(0) ==> verdict == 0 && second == Some(0) && tree == between
      ensures first == Some(0) ==> forall name, p ::
        name in skills && Mirror(name) < p && IsFolder(between, p) ==> HasFileBelow(between, p)
    {
      ghost var before := tree;
      first := Sync();
      between := tree;
      verdict := Check();
      if first == Some(0) {
        SyncableAfter(before);
        forall name, p | name in skills && Mirror(name) < p && IsFolder(between, p)
          ensures HasFileBelow(between, p)
        {
          MirrorHasNoEmptyFolder(before, between, Source(name), Mirror(name), p);
        }
      }
      second := Sync();
      if first == Some(0) {
        SecondSyncIsIdle(before, between, tree);
      }
    }
  }
}
