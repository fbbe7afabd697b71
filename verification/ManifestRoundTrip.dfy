/** `render_manifest` as the loop it is, and the proof that reading undoes it. */
module ManifestRoundTrip {
  import opened Wrappers
  import opened Text
  import opened BasicString
  import opened TomlDocument
  import opened Manifest
  import Utf8

  lemma AddInFront<K, V>(m: map<K, V>, k: K, v: V, rest: map<K, V>)
    ensures m[k := v] + rest == m + (map[k := v] + rest)
  {
  }

  lemma Overwrite<K, V>(m: map<K, V>, k: K, a: V, b: V)
    ensures m[k := a][k := b] == m[k := b]
  {
  }

  // ----- the table at a path -----

  function At(root: Dict, path: seq<string>): Option<Dict>
    decreases |path|
  {
    if |path| == 0 then Some(root)
    else if path[0] in root && root[path[0]].Table? then At(root[path[0]].entries, path[1..])
    else None
  }

  function SetAt(root: Dict, path: seq<string>, table: Dict): Dict
    requires At(root, path).Some?
    decreases |path|
  {
    if |path| == 0 then table
    else root[path[0] := Table(SetAt(root[path[0]].entries, path[1..], table))]
  }

  lemma {:induction false} SetAtLaws(root: Dict, path: seq<string>, a: Dict, b: Dict)
    requires At(root, path).Some?
    ensures At(SetAt(root, path, a), path) == Some(a)
    ensures SetAt(SetAt(root, path, a), path, b) == SetAt(root, path, b)
    decreases |path|
  {
    if |path| > 0 {
      SetAtLaws(root[path[0]].entries, path[1..], a, b);
    }
  }

  lemma {:induction false} SetAtSame(root: Dict, path: seq<string>)
    requires At(root, path).Some?
    ensures SetAt(root, path, At(root, path).value) == root
    decreases |path|
  {
    if |path| > 0 {
      SetAtSame(root[path[0]].entries, path[1..]);
    }
  }

  lemma {:induction false} PutInIsSetAt(root: Dict, path: seq<string>, key: string, value: Value)
    requires At(root, path).Some? && key !in At(root, path).value
    ensures PutIn(root, path, key, value)
         == Some(SetAt(root, path, At(root, path).value[key := value]))
    decreases |path|
  {
    if |path| > 0 {
      PutInIsSetAt(root[path[0]].entries, path[1..], key, value);
    }
  }

  // ----- what the sections mean -----

  lemma KeysTail(pairs: Pairs)
    requires |pairs| > 0 && Distinct(Keys(pairs))
    ensures Distinct(Keys(pairs[1..])) && pairs[0].0 !in Keys(pairs[1..])
    ensures forall k <- Keys(pairs[1..]) :: k in Keys(pairs)
    ensures pairs[0].0 in Keys(pairs)
  {
    assert Keys(pairs) == [pairs[0].0] + Keys(pairs[1..]);
    assert Keys(pairs)[1..] == Keys(pairs[1..]);
  }

  lemma MeaningCons(r: Reader, s: Statement, rest: seq<Statement>)
    ensures Meaning(r, [s] + rest)
         == match Step(r, s) case Some(next) => Meaning(next, rest) case None => None
  {
    assert ([s] + rest)[1..] == rest;
  }

  lemma StepPair(r: Reader, key: string, value: Value, table: Dict)
    requires At(r.root, r.current) == Some(table) && key !in table
    ensures Step(r, Pair(key, value))
         == Some(r.(root := SetAt(r.root, r.current, table[key := value])))
  {
    PutInIsSetAt(r.root, r.current, key, value);
  }

  lemma {:induction false} PairsMeaning(r: Reader, pairs: Pairs, table: Dict)
    requires At(r.root, r.current) == Some(table)
    requires Distinct(Keys(pairs)) && forall k <- Keys(pairs) :: k !in table
    ensures Meaning(r, PairStatements(pairs))
         == Some(r.(root := SetAt(r.root, r.current, table + DictOf(pairs))))
    decreases |pairs|
  {
    if |pairs| == 0 {
      assert table + DictOf(pairs) == table;
      SetAtSame(r.root, r.current);
    } else {
      var key, value, rest := pairs[0].0, pairs[0].1, pairs[1..];
      var next, whole := table[key := value], table + DictOf(pairs);
      var r' := r.(root := SetAt(r.root, r.current, next));
      KeysTail(pairs);
      AddInFront(table, key, value, DictOf(rest));
      SetAtLaws(r.root, r.current, next, whole);
      PairsMeaning(r', rest, next);
      StepPair(r, key, value, table);
      MeaningCons(r, Pair(key, value), PairStatements(rest));
    }
  }

  const NO_ENTRIES: Dict := map[]

  lemma SectionMeaning(r: Reader, path: seq<string>, pairs: Pairs, root: Dict)
    requires path !in r.declared && Declare(r.root, path) == Some(root)
    requires At(root, path) == Some(NO_ENTRIES) && Distinct(Keys(pairs))
    ensures Meaning(r, Section(path, pairs))
         == Some(Reader(SetAt(root, path, DictOf(pairs)), r.declared + {path}, path))
  {
    HeaderMeaning(r, path, pairs, root);
    PairsMeaning(Reader(root, r.declared + {path}, path), pairs, NO_ENTRIES);
    AddToEmpty(DictOf(pairs));
  }

  lemma HeaderMeaning(r: Reader, path: seq<string>, pairs: Pairs, root: Dict)
    requires path !in r.declared && Declare(r.root, path) == Some(root)
    ensures Meaning(r, Section(path, pairs))
         == Meaning(Reader(root, r.declared + {path}, path), PairStatements(pairs))
  {
    MeaningCons(r, Header(path), PairStatements(pairs));
  }

  lemma OneLevel(root: Dict, name: string, table: Dict)
    requires name !in root
    ensures var declared := root[name := Table(NO_ENTRIES)];
         && Declare(root, [name]) == Some(declared)
         && At(declared, [name]) == Some(NO_ENTRIES)
         && SetAt(declared, [name], table) == root[name := Table(table)]
  {
    assert [name][1..] == [];
  }

  lemma TwoLevel(root: Dict, outer: string, name: string, table: Dict)
    requires outer in root ==> root[outer].Table?
    requires name !in TableOrEmpty(root, outer)
    ensures var below := TableOrEmpty(root, outer);
         var declared := root[outer := Table(below[name := Table(NO_ENTRIES)])];
         && Declare(root, [outer, name]) == Some(declared)
         && At(declared, [outer, name]) == Some(NO_ENTRIES)
         && SetAt(declared, [outer, name], table)
            == root[outer := Table(below[name := Table(table)])]
  {
    assert [outer, name][1..] == [name];
    var below := TableOrEmpty(root, outer);
    OneLevel(below, name, table);
    var inner := below[name := Table(NO_ENTRIES)];
    var declared := root[outer := Table(inner)];
    assert declared[outer].entries == inner;
    assert SetAt(declared, [outer, name], table)
        == declared[outer := Table(SetAt(inner, [name], table))];
  }

  /** A one-level header and its pairs add one table to the root. */
  lemma OuterSection(r: Reader, name: string, pairs: Pairs)
    requires name !in r.root && [name] !in r.declared && Distinct(Keys(pairs))
    ensures Meaning(r, Section([name], pairs))
         == Some(Reader(r.root[name := Table(DictOf(pairs))], r.declared + {[name]}, [name]))
  {
    OneLevel(r.root, name, DictOf(pairs));
    SectionMeaning(r, [name], pairs, r.root[name := Table(NO_ENTRIES)]);
  }

  function TableOrEmpty(root: Dict, name: string): Dict {
    if name in root && root[name].Table? then root[name].entries else map[]
  }

  /** A two-level header and its pairs add one table inside `outer`. */
  lemma InnerSection(r: Reader, outer: string, name: string, pairs: Pairs)
    requires outer in r.root ==> r.root[outer].Table?
    requires name !in TableOrEmpty(r.root, outer) && [outer, name] !in r.declared
    requires Distinct(Keys(pairs))
    ensures Meaning(r, Section([outer, name], pairs))
         == Some(Reader(
              r.root[outer := Table(TableOrEmpty(r.root, outer)[name := Table(DictOf(pairs))])],
              r.declared + {[outer, name]}, [outer, name]))
  {
    TwoLevel(r.root, outer, name, DictOf(pairs));
    SectionMeaning(r, [outer, name], pairs,
      r.root[outer := Table(TableOrEmpty(r.root, outer)[name := Table(NO_ENTRIES)])]);
  }

  function ProviderPaths(n: nat): set<seq<string>>
    requires n <= |PROVIDERS|
  {
    set i | 0 <= i < n :: ["providers", PROVIDERS[i]]
  }

  function WithProviders(root: Dict, m: InstanceManifest, n: nat): Dict
    requires Closed(m) && n <= |PROVIDERS|
  {
    if n == 0 then root else root["providers" := Table(ProviderTable(m, n))]
  }

  lemma ProvidersDistinct(i: nat, j: nat)
    requires i < j < |PROVIDERS|
    ensures PROVIDERS[i] != PROVIDERS[j]
  {
  }

  lemma {:induction false} ProviderTableKeys(m: InstanceManifest, n: nat)
    requires Closed(m) && n <= |PROVIDERS|
    ensures ProviderTable(m, n).Keys == set i | 0 <= i < n :: PROVIDERS[i]
  {
    if n > 0 {
      ProviderTableKeys(m, n - 1);
    }
  }

  lemma FreshProvider(m: InstanceManifest, n: nat)
    requires Closed(m) && n < |PROVIDERS|
    ensures PROVIDERS[n] !in ProviderTable(m, n)
    ensures ["providers", PROVIDERS[n]] !in ProviderPaths(n)
  {
    ProviderTableKeys(m, n);
    forall i | 0 <= i < n
      ensures PROVIDERS[i] != PROVIDERS[n]
    {
      ProvidersDistinct(i, n);
    }
    forall i | 0 <= i < n
      ensures ["providers", PROVIDERS[i]] != ["providers", PROVIDERS[n]]
    {
      assert ["providers", PROVIDERS[i]][1] != ["providers", PROVIDERS[n]][1];
    }
  }

  lemma NextProvider(m: InstanceManifest, root: Dict, before: Reader, n: nat)
    requires Closed(m) && n < |PROVIDERS|
    requires "providers" !in root && before.root == WithProviders(root, m, n)
    requires ["providers", PROVIDERS[n]] !in before.declared
    ensures var path := ["providers", PROVIDERS[n]];
         Meaning(before, Section(path, StrPairs(m.providers[n])))
         == Some(Reader(WithProviders(root, m, n + 1), before.declared + {path}, path))
  {
    FreshProvider(m, n);
    assert TableOrEmpty(before.root, "providers") == ProviderTable(m, n);
    assert ClosedRow(m.providers[n]);
    InnerSection(before, "providers", PROVIDERS[n], StrPairs(m.providers[n]));
    if n > 0 {
      Overwrite(root, "providers", Table(ProviderTable(m, n)), Table(ProviderTable(m, n + 1)));
    }
  }

  /** The first `n` provider sections build the provider table. */
  lemma OneMoreProvider(m: InstanceManifest, r: Reader, n: nat, before: Reader)
    requires Closed(m) && 0 < n <= |PROVIDERS| && Meaning(r, ProviderSections(m, n - 1)) == Some(before)
    ensures Meaning(r, ProviderSections(m, n))
         == Meaning(before, Section(["providers", PROVIDERS[n - 1]], StrPairs(m.providers[n - 1])))
  {
    MeaningAppend(r, ProviderSections(m, n - 1),
      Section(["providers", PROVIDERS[n - 1]], StrPairs(m.providers[n - 1])));
  }

  lemma {:induction false} ProvidersMeaning(m: InstanceManifest, r: Reader, n: nat)
    requires Closed(m) && n <= |PROVIDERS|
    requires "providers" !in r.root && r.declared !! ProviderPaths(|PROVIDERS|)
    ensures var after := Meaning(r, ProviderSections(m, n));
         && after.Some?
         && after.value.root == WithProviders(r.root, m, n)
         && after.value.declared == r.declared + ProviderPaths(n)
  {
    if n > 0 {
      ProvidersMeaning(m, r, n - 1);
      var before := Meaning(r, ProviderSections(m, n - 1)).value;
      FreshProvider(m, n - 1);
      PathsGrow(n - 1);
      NextProvider(m, r.root, before, n - 1);
      OneMoreProvider(m, r, n, before);
      AddedPath(r.declared, ProviderPaths(n - 1), ["providers", PROVIDERS[n - 1]]);
    }
  }

  lemma PathsGrow(n: nat)
    requires n < |PROVIDERS|
    ensures ["providers", PROVIDERS[n]] in ProviderPaths(|PROVIDERS|)
    ensures ProviderPaths(n + 1) == ProviderPaths(n) + {["providers", PROVIDERS[n]]}
  {
  }

  lemma AddedPath(a: set<seq<string>>, b: set<seq<string>>, p: seq<string>)
    ensures a + b + {p} == a + (b + {p})
  {
  }

  // ----- the keys of each section are distinct -----

  lemma {:induction false} DistinctByIndex(keys: seq<string>)
    requires forall i, j :: 0 <= i < j < |keys| ==> keys[i] != keys[j]
    ensures Distinct(keys)
  {
    if |keys| > 0 {
      DistinctByIndex(keys[1..]);
    }
  }

  lemma TopKeysDiffer(i: nat, j: nat)
    requires i < j < |TOP_KEYS|
    ensures TOP_KEYS[i] != TOP_KEYS[j]
  {
  }

  lemma TopKeys(m: InstanceManifest)
    requires Closed(m)
    ensures Keys(TopPairs(m)) == TOP_KEYS && Distinct(TOP_KEYS)
  {
    TopKeyList(m);
    TopKeysAreDistinct(TOP_KEYS);
  }

  lemma TopKeyList(m: InstanceManifest)
    requires Closed(m)
    ensures Keys(TopPairs(m)) == TOP_KEYS
  {
    var keys := Keys(TopPairs(m));
    forall i | 0 <= i < |TOP_KEYS|
      ensures keys[i] == TOP_KEYS[i]
    {
      TopKeyAt(m, i);
    }
  }

  lemma TopKeyAt(m: InstanceManifest, i: nat)
    requires Closed(m) && i < |TOP_KEYS|
    ensures |TopPairs(m)| == |TOP_KEYS| && TopPairs(m)[i].0 == TOP_KEYS[i]
  {
    if i < 18 {
      assert TopPairs(m)[i].0 == TopStrings(m)[i].0;
      if 3 <= i < 15 {
        MutableKeyAt(m, i);
      } else {
        FixedKeyAt(m, i);
      }
    } else {
      NumberKeyAt(m, i);
    }
  }

  /** Three parts in a row, by index. */
  lemma PartAt<T>(a: seq<T>, b: seq<T>, c: seq<T>, i: nat)
    requires i < |a| + |b| + |c|
    ensures (a + b + c)[i]
         == if i < |a| then a[i] else if i < |a| + |b| then b[i - |a|] else c[i - |a| - |b|]
  {
  }

  lemma MutableKeyAt(m: InstanceManifest, i: nat)
    requires Closed(m) && 3 <= i < 15
    ensures |TopStrings(m)| == 18 && |TOP_KEYS| == 20 && TopStrings(m)[i].0 == TOP_KEYS[i]
  {
    PartAt([("instance_id", m.instanceId), ("created_at", m.createdAt), ("root", m.root)],
      MutablePairs(m.mutable, 0),
      [("endpoint", m.endpoint), ("tmux_socket", m.tmuxSocket), ("owner_nonce", m.ownerNonce)], i);
    MutableKeyName(i);
  }

  lemma MutableKeyName(i: nat)
    requires 3 <= i < 15
    ensures |TOP_KEYS| == 20 && TOP_KEYS[i] == MUTABLE_PATHS[i - 3].0
  {
  }

  lemma FixedKeyAt(m: InstanceManifest, i: nat)
    requires Closed(m) && (i < 3 || 15 <= i < 18)
    ensures |TopStrings(m)| == 18 && TopStrings(m)[i].0 == TOP_KEYS[i]
  {
    TopKeyNames();
    PartAt([("instance_id", m.instanceId), ("created_at", m.createdAt), ("root", m.root)],
      MutablePairs(m.mutable, 0),
      [("endpoint", m.endpoint), ("tmux_socket", m.tmuxSocket), ("owner_nonce", m.ownerNonce)], i);
  }

  lemma NumberKeyAt(m: InstanceManifest, i: nat)
    requires Closed(m) && 18 <= i < |TOP_KEYS|
    ensures |TopPairs(m)| == 20 && TopPairs(m)[i].0 == TOP_KEYS[i]
  {
    TopKeyNames();
    EighteenStrings(m);
    PartAt(StrPairs(TopStrings(m)), [("root_device", Int(m.rootDevice)), ("root_inode", Int(m.rootInode))], [], i);
  }

  lemma EighteenStrings(m: InstanceManifest)
    requires Closed(m)
    ensures |TopStrings(m)| == 18
  {
  }

  lemma TopKeysAreDistinct(keys: seq<string>)
    requires keys == TOP_KEYS
    ensures Distinct(keys)
  {
    forall i, j | 0 <= i < j < |keys|
      ensures keys[i] != keys[j]
    {
      TopKeysDiffer(i, j);
    }
    DistinctByIndex(keys);
  }

  lemma SubtablesAreNotTopKeys()
    ensures "source" !in TOP_KEYS && "providers" !in TOP_KEYS && "fixture_providers" !in TOP_KEYS
  {
  }

  lemma SourceKeys(s: Source)
    ensures Distinct(Keys(SourcePairs(s))) && "interpreter_identity" !in Keys(SourcePairs(s))
  {
    assert Keys(SourcePairs(s)) == ["fork_root", "commit_sha", "source_merkle", "dirty"];
    DistinctByIndex(Keys(SourcePairs(s)));
  }

  lemma InterpreterKeys(i: Interpreter)
    ensures Distinct(Keys(StrPairs(InterpreterStrings(i))))
  {
    assert Keys(StrPairs(InterpreterStrings(i)))
        == ["interpreter_path", "venv_prefix", "base_interpreter_realpath"];
    DistinctByIndex(Keys(StrPairs(InterpreterStrings(i))));
  }

  lemma FixtureKeys(f: FixtureRow)
    ensures Distinct(Keys(StrPairs(FixtureStrings(f))))
  {
    assert Keys(StrPairs(FixtureStrings(f)))
        == ["classification", "binary_realpath", "binary_sha256", "variant", "state_dir"];
    DistinctByIndex(Keys(StrPairs(FixtureStrings(f))));
  }

  // ----- the whole document -----

  lemma RootPairs(pairs: Pairs)
    requires Distinct(Keys(pairs))
    ensures Meaning(EMPTY_READER, PairStatements(pairs)) == Some(Reader(DictOf(pairs), {}, []))
  {
    PairsMeaning(EMPTY_READER, pairs, NO_ENTRIES);
    AddToEmpty(DictOf(pairs));
  }

  lemma AddToEmpty<K, V>(m: map<K, V>)
    ensures map[] + m == m
  {
  }

  /** A table and, right after it, one of its subtables. */
  lemma NestedSections(r: Reader, outer: string, inner: string, pairs: Pairs, below: Pairs)
    requires outer !in r.root && r.declared == {}
    requires Distinct(Keys(pairs)) && inner !in Keys(pairs) && Distinct(Keys(below))
    ensures var table := DictOf(pairs)[inner := Table(DictOf(below))];
         Meaning(r, Section([outer], pairs) + Section([outer, inner], below))
         == Some(Reader(r.root[outer := Table(table)], {[outer], [outer, inner]}, [outer, inner]))
  {
    OuterSection(r, outer, pairs);
    var next := Reader(r.root[outer := Table(DictOf(pairs))], {[outer]}, [outer]);
    assert r.declared + {[outer]} == {[outer]};
    assert |[outer]| != |[outer, inner]|;
    assert {[outer]} + {[outer, inner]} == {[outer], [outer, inner]};
    InnerSection(next, outer, inner, below);
    Overwrite(r.root, outer, Table(DictOf(pairs)), Table(DictOf(pairs)[inner := Table(DictOf(below))]));
    MeaningAppend(r, Section([outer], pairs), Section([outer, inner], below));
  }

  lemma SourceMeaning(r: Reader, s: Source)
    requires "source" !in r.root && r.declared == {}
    ensures Meaning(r, SourceSections(s))
         == Some(Reader(r.root["source" := Table(SourceDict(s))],
              {["source"], ["source", "interpreter_identity"]}, ["source", "interpreter_identity"]))
  {
    SourceKeys(s);
    InterpreterKeys(s.interpreter);
    NestedSections(r, "source", "interpreter_identity", SourcePairs(s),
      StrPairs(InterpreterStrings(s.interpreter)));
  }

  lemma SourcePathsAreNotProviders(declared: set<seq<string>>)
    requires declared == {["source"], ["source", "interpreter_identity"]}
    ensures declared !! ProviderPaths(|PROVIDERS|)
    ensures ["fixture_providers", "mock_cli"] !in declared + ProviderPaths(|PROVIDERS|)
  {
    assert "source" != "providers";
    assert "fixture_providers" != "providers";
    forall path | path in declared
      ensures path !in ProviderPaths(|PROVIDERS|)
    {
      assert path[0] == "source";
    }
    assert ["fixture_providers", "mock_cli"][0] == "fixture_providers";
  }

  lemma FixtureMeaning(m: InstanceManifest, r: Reader)
    requires "fixture_providers" !in r.root && ["fixture_providers", "mock_cli"] !in r.declared
    ensures var d := Meaning(r, FixtureSection(m)); d.Some? && d.value.root == WithFixture(r.root, m.fixture)
  {
    match m.fixture
    case None =>
    case Some(row) =>
      FixtureKeys(row);
      InnerSection(r, "fixture_providers", "mock_cli", StrPairs(FixtureStrings(row)));
  }

  /** Running the tail of a document from where its front stopped. */
  lemma Continue(front: seq<Statement>, middle: Reader, back: seq<Statement>)
    requires Meaning(EMPTY_READER, front) == Some(middle)
    ensures Meaning(EMPTY_READER, front + back) == Meaning(middle, back)
  {
    MeaningAppend(EMPTY_READER, front, back);
  }

  function FrontReader(m: InstanceManifest): Reader
    requires Closed(m)
  {
    Reader(DictOf(TopPairs(m))["source" := Table(SourceDict(m.source))],
      {["source"], ["source", "interpreter_identity"]}, ["source", "interpreter_identity"])
  }

  lemma FrontMeaning(m: InstanceManifest)
    requires Closed(m)
    ensures Meaning(EMPTY_READER, PairStatements(TopPairs(m)) + SourceSections(m.source))
         == Some(FrontReader(m))
    ensures "providers" !in FrontReader(m).root && "fixture_providers" !in FrontReader(m).root
  {
    var r := Reader(DictOf(TopPairs(m)), {}, []);
    TopKeys(m);
    SubtablesAreNotTopKeys();
    RootPairs(TopPairs(m));
    SourceMeaning(r, m.source);
    Continue(PairStatements(TopPairs(m)), r, SourceSections(m.source));
  }

  /** The printed statements mean exactly the in-memory dictionary. */
  lemma StatementsMeanDict(m: InstanceManifest)
    requires Closed(m)
    ensures var d := Meaning(EMPTY_READER, Statements(m)); d.Some? && d.value.root == ToDict(m)
  {
    var front := PairStatements(TopPairs(m)) + SourceSections(m.source);
    var r := FrontReader(m);
    FrontMeaning(m);
    SourcePathsAreNotProviders(r.declared);
    ProvidersMeaning(m, r, |PROVIDERS|);
    var r' := Meaning(r, ProviderSections(m, |PROVIDERS|)).value;
    Continue(front, r, ProviderSections(m, |PROVIDERS|));
    assert "fixture_providers" != "providers";
    FixtureMeaning(m, r');
    Continue(front + ProviderSections(m, |PROVIDERS|), r', FixtureSection(m));
  }

  // ----- U+007F in the dictionary is U+007F in some statement -----

  predicate ValueHoldsDel(v: Value) {
    match v
    case Str(text) => DEL in text
    case Table(entries) => exists k :: k in entries && ValueHoldsDel(entries[k])
    case _ => false
  }

  predicate DictHoldsDel(d: Dict) {
    ValueHoldsDel(Table(d))
  }

  lemma InsertHoldsDel(d: Dict, key: string, value: Value)
    ensures key !in d ==>
         (DictHoldsDel(d[key := value]) <==> DictHoldsDel(d) || ValueHoldsDel(value))
    ensures key in d && (ValueHoldsDel(d[key]) ==> ValueHoldsDel(value)) ==>
         (DictHoldsDel(d[key := value]) <==> DictHoldsDel(d) || ValueHoldsDel(value))
  {
    var d' := d[key := value];
    if DictHoldsDel(d) {
      var k :| k in d && ValueHoldsDel(d[k]);
      assert k in d';
    }
    if ValueHoldsDel(value) {
      assert key in d';
    }
  }

  lemma {:induction false} PutInHoldsDel(root: Dict, path: seq<string>, key: string, value: Value)
    requires PutIn(root, path, key, value).Some?
    ensures DictHoldsDel(PutIn(root, path, key, value).value)
       <==> DictHoldsDel(root) || ValueHoldsDel(value)
    decreases |path|
  {
    if |path| == 0 {
      InsertHoldsDel(root, key, value);
    } else {
      var entries := root[path[0]].entries;
      PutInHoldsDel(entries, path[1..], key, value);
      var inner := PutIn(entries, path[1..], key, value).value;
      InsertHoldsDel(root, path[0], Table(inner));
      assert DictHoldsDel(entries) ==> DictHoldsDel(root);
    }
  }

  lemma {:induction false} DeclareHoldsDel(root: Dict, path: seq<string>)
    requires Declare(root, path).Some?
    ensures DictHoldsDel(Declare(root, path).value) <==> DictHoldsDel(root)
    decreases |path|
  {
    if |path| > 0 {
      var below := if path[0] in root then root[path[0]].entries else map[];
      DeclareHoldsDel(below, path[1..]);
      InsertHoldsDel(root, path[0], Table(Declare(below, path[1..]).value));
      assert path[0] in root && DictHoldsDel(below) ==> DictHoldsDel(root);
    }
  }

  lemma {:induction false} MeaningHoldsDel(r: Reader, statements: seq<Statement>)
    requires forall s <- statements :: WellFormed(s)
    requires Meaning(r, statements).Some?
    ensures DictHoldsDel(Meaning(r, statements).value.root)
       <==> DictHoldsDel(r.root) || exists s <- statements :: HoldsDel(s)
    decreases |statements|
  {
    if |statements| > 0 {
      var s, rest := statements[0], statements[1..];
      assert statements == [s] + rest;
      assert s in statements;
      match s {
        case Pair(key, value) => PutInHoldsDel(r.root, r.current, key, value);
        case Header(path) => DeclareHoldsDel(r.root, path);
      }
      MeaningHoldsDel(Step(r, s).value, rest);
      assert DictHoldsDel(Step(r, s).value.root) <==> DictHoldsDel(r.root) || HoldsDel(s);
    }
  }

  /** Reading rendered statements: their meaning, unless that meaning holds U+007F. */
  lemma LoadsRendered(statements: seq<Statement>)
    requires forall s <- statements :: WellFormed(s)
    ensures Loads(DocumentText(statements))
         == match Meaning(EMPTY_READER, statements)
            case None => None
            case Some(r) => if DictHoldsDel(r.root) then None else Some(r.root)
  {
    ReadRendered(statements, EMPTY_READER);
    if Meaning(EMPTY_READER, statements).Some? {
      MeaningHoldsDel(EMPTY_READER, statements);
    }
  }

  // ----- the printed manifest is well formed -----

  lemma {:induction false} PairsAreWellFormed(pairs: Pairs)
    requires forall key <- Keys(pairs) :: BareKey(key)
    requires forall i :: 0 <= i < |pairs| ==> !pairs[i].1.Table?
    ensures forall s <- PairStatements(pairs) :: WellFormed(s)
    decreases |pairs|
  {
    if |pairs| > 0 {
      var rest := pairs[1..];
      assert Keys(pairs) == [pairs[0].0] + Keys(rest);
      assert BareKey(pairs[0].0);
      PairsAreWellFormed(rest);
      assert WellFormed(Pair(pairs[0].0, pairs[0].1));
    }
  }

  lemma RowIsWellFormed(row: seq<(string, string)>, tail: Pairs)
    requires forall key <- Keys(StrPairs(row) + tail) :: BareKey(key)
    requires forall i :: 0 <= i < |tail| ==> !tail[i].1.Table?
    ensures forall s <- PairStatements(StrPairs(row) + tail) :: WellFormed(s)
  {
    var pairs := StrPairs(row) + tail;
    forall i | 0 <= i < |pairs|
      ensures !pairs[i].1.Table?
    {
      if i >= |row| {
        assert pairs[i] == tail[i - |row|];
      }
    }
    PairsAreWellFormed(pairs);
  }

  lemma TopKeyIsBare(i: nat)
    requires i < |TOP_KEYS|
    ensures BareKey(TOP_KEYS[i])
  {
    if i < 3 || i >= 15 {
      TopKeysAreBare();
    } else {
      MutableKeysAreBare(i - 3);
      assert TOP_KEYS[i] == MUTABLE_PATHS[i - 3].0;
    }
  }

  lemma TopKeyListIsBare(keys: seq<string>)
    requires keys == TOP_KEYS
    ensures forall key <- keys :: BareKey(key)
  {
    forall i | 0 <= i < |keys|
      ensures BareKey(keys[i])
    {
      TopKeyIsBare(i);
    }
  }

  lemma TopKeysOfManifest(m: InstanceManifest)
    requires Closed(m)
    ensures forall key <- Keys(TopPairs(m)) :: BareKey(key)
  {
    TopKeys(m);
    TopKeyListIsBare(Keys(TopPairs(m)));
  }

  lemma TopIsWellFormed(m: InstanceManifest)
    requires Closed(m)
    ensures forall s <- PairStatements(TopPairs(m)) :: WellFormed(s)
  {
    TopKeysOfManifest(m);
    RowIsWellFormed(TopStrings(m),
      [("root_device", Int(m.rootDevice)), ("root_inode", Int(m.rootInode))]);
  }

  lemma SourceIsWellFormed(s: Source)
    ensures forall x <- SourceSections(s) :: WellFormed(x)
  {
    SourceKeysAreBare();
    TableKeysAreBare();
    var identity := StrPairs(InterpreterStrings(s.interpreter));
    PairsAreWellFormed(SourcePairs(s));
    PairsAreWellFormed(identity);
    assert WellFormed(Header(["source"])) && WellFormed(Header(["source", "interpreter_identity"]));
  }

  lemma {:induction false} ProvidersAreWellFormed(m: InstanceManifest, n: nat)
    requires Closed(m) && n <= |PROVIDERS|
    ensures forall s <- ProviderSections(m, n) :: WellFormed(s)
  {
    if n > 0 {
      ProvidersAreWellFormed(m, n - 1);
      ProviderKeysAreBare(n - 1);
      TableKeysAreBare();
      assert ClosedRow(m.providers[n - 1]);
      PairsAreWellFormed(StrPairs(m.providers[n - 1]));
      assert WellFormed(Header(["providers", PROVIDERS[n - 1]]));
    }
  }

  lemma FixtureIsWellFormed(m: InstanceManifest)
    ensures forall s <- FixtureSection(m) :: WellFormed(s)
  {
    match m.fixture
    case None =>
    case Some(row) =>
      FixtureKeysAreBare();
      TableKeysAreBare();
      PairsAreWellFormed(StrPairs(FixtureStrings(row)));
      assert WellFormed(Header(["fixture_providers", "mock_cli"]));
  }

  lemma StatementsAreWellFormed(m: InstanceManifest)
    requires Closed(m)
    ensures forall s <- Statements(m) :: WellFormed(s)
  {
    TopIsWellFormed(m);
    SourceIsWellFormed(m.source);
    ProvidersAreWellFormed(m, |PROVIDERS|);
    FixtureIsWellFormed(m);
  }

  // ----- the theorem -----

  /** `render_manifest(manifest)`. */
  function ManifestText(m: InstanceManifest): string
    requires Closed(m)
  {
    StatementsAreWellFormed(m);
    DocumentText(Statements(m))
  }

  /**
   `tomllib.loads(render_manifest(m))` is the same nested dictionary for every closed
   manifest, and a decode error exactly when some string in it holds U+007F.
   */
  lemma ReadManifestUndoesRender(m: InstanceManifest)
    requires Closed(m)
    ensures Loads(ManifestText(m)) == if DictHoldsDel(ToDict(m)) then None else Some(ToDict(m))
  {
    StatementsAreWellFormed(m);
    LoadsRendered(Statements(m));
    StatementsMeanDict(m);
  }

  /** `tomllib.loads(raw.decode("utf-8"))`. */
  function LoadsBytes(raw: seq<Byte>): Option<Dict> {
    match Utf8.Decode(raw)
    case None => None
    case Some(text) => Loads(text)
  }

  /** The same for the file: `read_manifest` of the bytes that `_write_once` writes. */
  lemma ReadFileUndoesWrite(m: InstanceManifest)
    requires Closed(m)
    ensures LoadsBytes(Utf8.Encode(ManifestText(m))) == if DictHoldsDel(ToDict(m)) then None else Some(ToDict(m))
  {
    Utf8.DecodeExactly(Utf8.Encode(ManifestText(m)), ManifestText(m));
    ReadManifestUndoesRender(m);
  }

  // ----- the renderer's loop -----

  function Concat(lines: seq<string>): string {
    if |lines| == 0 then "" else Concat(lines[..|lines| - 1]) + lines[|lines| - 1]
  }

  lemma {:induction false} DocumentTextAppend(a: seq<Statement>, b: seq<Statement>)
    requires forall s <- a :: WellFormed(s)
    requires forall s <- b :: WellFormed(s)
    ensures DocumentText(a + b) == DocumentText(a) + DocumentText(b)
    decreases |a|
  {
    if |a| == 0 {
      assert a + b == b;
    } else {
      assert (a + b)[1..] == a[1..] + b;
      DocumentTextAppend(a[1..], b);
    }
  }

  lemma AppendLine(lines: seq<string>, done: seq<Statement>, line: string, s: Statement)
    requires forall x <- done :: WellFormed(x)
    requires WellFormed(s) && line == StatementText(s) && Concat(lines) == DocumentText(done)
    ensures Concat(lines + [line]) == DocumentText(done + [s])
  {
    assert (lines + [line])[..|lines|] == lines;
    DocumentTextAppend(done, [s]);
    assert DocumentText([s]) == StatementText(s) + DocumentText([]) by {
      assert [s][1..] == [];
    }
  }

  predicate Printed(lines: seq<string>, done: seq<Statement>) {
    && (forall s <- done :: WellFormed(s))
    && Concat(lines) == DocumentText(done)
  }

  function RowStatement(entry: (string, string)): Statement {
    Pair(entry.0, Str(entry.1))
  }

  lemma RowSplit(row: seq<(string, string)>, i: nat)
    requires i < |row|
    ensures PairStatements(StrPairs(row[i..]))
         == [RowStatement(row[i])] + PairStatements(StrPairs(row[i + 1..]))
  {
    assert row[i..][1..] == row[i + 1..];
    assert StrPairs(row[i..])[1..] == StrPairs(row[i + 1..]);
  }

  /** One `key = "value"` line for each entry of a row. */
  method AppendRow(lines: seq<string>, row: seq<(string, string)>, ghost done: seq<Statement>)
    returns (all: seq<string>)
    requires Printed(lines, done)
    requires forall s <- PairStatements(StrPairs(row)) :: WellFormed(s)
    ensures Printed(all, done + PairStatements(StrPairs(row)))
  {
    all := lines;
    ghost var now, whole := done, done + PairStatements(StrPairs(row));
    assert row[0..] == row;
    for i := 0 to |row|
      invariant RowLeft(all, now, row[i..], whole)
    {
      var line := row[i].0 + " = " + Quoted(row[i].1) + "\n";
      RowStep(all, now, row, i, line, whole);
      all := all + [line];
      now := now + [RowStatement(row[i])];
    }
    assert row[|row|..] == [];
    assert now + [] == now;
  }

  /** `all` prints `now`, and the rest of the row completes `whole`. */
  predicate RowLeft(all: seq<string>, now: seq<Statement>, rest: seq<(string, string)>, whole: seq<Statement>) {
    && Printed(all, now)
    && (forall s <- PairStatements(StrPairs(rest)) :: WellFormed(s))
    && now + PairStatements(StrPairs(rest)) == whole
  }

  lemma Regroup<T>(a: seq<T>, b: seq<T>, c: seq<T>)
    ensures a + (b + c) == (a + b) + c
  {
  }

  lemma FineParts(a: seq<Statement>, b: seq<Statement>)
    ensures (forall s <- a + b :: WellFormed(s))
       <==> (forall s <- a :: WellFormed(s)) && (forall s <- b :: WellFormed(s))
  {
    assert forall s :: s in a + b <==> s in a || s in b;
  }

  lemma StatementStep(all: seq<string>, now: seq<Statement>, one: Statement, rest: seq<Statement>, line: string)
    requires Printed(all, now) && WellFormed(one) && line == StatementText(one)
    requires forall s <- [one] + rest :: WellFormed(s)
    ensures Printed(all + [line], now + [one]) && now + ([one] + rest) == (now + [one]) + rest
    ensures forall s <- rest :: WellFormed(s)
  {
    FineParts([one], rest);
    FineParts(now, [one]);
    assert one in [one];
    AppendLine(all, now, line, one);
    Regroup(now, [one], rest);
  }

  lemma RowStep(all: seq<string>, now: seq<Statement>, row: seq<(string, string)>, i: nat, line: string,
                whole: seq<Statement>)
    requires i < |row| && RowLeft(all, now, row[i..], whole)
    requires line == row[i].0 + " = " + Quoted(row[i].1) + "\n"
    ensures RowLeft(all + [line], now + [RowStatement(row[i])], row[i + 1..], whole)
  {
    RowSplit(row, i);
    StatementStep(all, now, RowStatement(row[i]), PairStatements(StrPairs(row[i + 1..])), line);
  }

  /** A `key = value` line of any scalar. */
  method AppendPair(lines: seq<string>, key: string, value: Value, ghost done: seq<Statement>)
    returns (all: seq<string>)
    requires Printed(lines, done) && WellFormed(Pair(key, value))
    ensures Printed(all, done + [Pair(key, value)])
  {
    var line := key + " = " + ValueText(value) + "\n";
    AppendLine(lines, done, line, Pair(key, value));
    all := lines + [line];
  }

  /** A blank line and a table header. */
  method AppendHeader(lines: seq<string>, path: seq<string>, ghost done: seq<Statement>)
    returns (all: seq<string>)
    requires Printed(lines, done) && WellFormed(Header(path))
    ensures Printed(all, done + [Header(path)])
  {
    var line := "\n[" + Join(path, '.') + "]\n";
    AppendLine(lines, done, line, Header(path));
    all := lines + [line];
  }

  method AppendSection(lines: seq<string>, path: seq<string>, row: seq<(string, string)>,
                       ghost done: seq<Statement>) returns (all: seq<string>)
    requires Printed(lines, done)
    requires forall s <- Section(path, StrPairs(row)) :: WellFormed(s)
    ensures Printed(all, done + Section(path, StrPairs(row)))
  {
    ghost var rows := PairStatements(StrPairs(row));
    PartsOf([Header(path)], rows, [], Section(path, StrPairs(row)));
    assert [Header(path)][0] == Header(path);
    all := AppendHeader(lines, path, done);
    all := AppendRow(all, row, done + [Header(path)]);
    assert done + [Header(path)] + rows == done + Section(path, StrPairs(row));
  }

  lemma {:induction false} PairStatementsAppend(a: Pairs, b: Pairs)
    ensures PairStatements(a + b) == PairStatements(a) + PairStatements(b)
    decreases |a|
  {
    if |a| == 0 {
      assert a + b == b;
    } else {
      assert (a + b)[1..] == a[1..] + b;
      PairStatementsAppend(a[1..], b);
    }
  }

  lemma OnePair(key: string, value: Value)
    ensures PairStatements([(key, value)]) == [Pair(key, value)]
  {
    assert [(key, value)][1..] == [];
  }

  method AppendTop(m: InstanceManifest) returns (lines: seq<string>)
    requires Closed(m)
    ensures Printed(lines, PairStatements(TopPairs(m)))
  {
    TopIsWellFormed(m);
    TopStatements(m);
    ghost var strings := PairStatements(StrPairs(TopStrings(m)));
    ghost var device, inode := Pair("root_device", Int(m.rootDevice)), Pair("root_inode", Int(m.rootInode));
    PartsOf(strings, [device], [inode], PairStatements(TopPairs(m)));
    assert [] + strings == strings;
    lines := AppendRow([], TopStrings(m), []);
    lines := AppendPair(lines, "root_device", Int(m.rootDevice), strings);
    lines := AppendPair(lines, "root_inode", Int(m.rootInode), strings + [device]);
  }

  lemma PartsOf(a: seq<Statement>, b: seq<Statement>, c: seq<Statement>, all: seq<Statement>)
    requires all == a + b + c && forall s <- all :: WellFormed(s)
    ensures forall s <- a :: WellFormed(s)
    ensures forall s <- b :: WellFormed(s)
    ensures forall s <- c :: WellFormed(s)
    ensures |b| == 1 ==> WellFormed(b[0])
    ensures |c| == 1 ==> WellFormed(c[0])
  {
    assert forall s <- a :: s in all;
    assert forall s <- b :: s in all;
    assert forall s <- c :: s in all;
  }

  lemma TopStatements(m: InstanceManifest)
    requires Closed(m)
    ensures PairStatements(TopPairs(m))
         == PairStatements(StrPairs(TopStrings(m)))
            + [Pair("root_device", Int(m.rootDevice))] + [Pair("root_inode", Int(m.rootInode))]
  {
    var device, inode := ("root_device", Int(m.rootDevice)), ("root_inode", Int(m.rootInode));
    assert TopPairs(m) == StrPairs(TopStrings(m)) + ([device] + [inode]);
    PairStatementsAppend(StrPairs(TopStrings(m)), [device] + [inode]);
    PairStatementsAppend([device], [inode]);
    OnePair(device.0, device.1);
    OnePair(inode.0, inode.1);
  }

  lemma SourceStatements(s: Source)
    ensures SourceSections(s)
         == Section(["source"], StrPairs(SourceStrings(s))) + [Pair("dirty", Bool(s.dirty))]
            + Section(["source", "interpreter_identity"], StrPairs(InterpreterStrings(s.interpreter)))
  {
    PairStatementsAppend(StrPairs(SourceStrings(s)), [("dirty", Bool(s.dirty))]);
    OnePair("dirty", Bool(s.dirty));
  }

  method AppendSource(lines: seq<string>, s: Source, ghost done: seq<Statement>)
    returns (all: seq<string>)
    requires Printed(lines, done)
    ensures Printed(all, done + SourceSections(s))
  {
    ghost var first := Section(["source"], StrPairs(SourceStrings(s)));
    ghost var dirty := Pair("dirty", Bool(s.dirty));
    ghost var last := Section(["source", "interpreter_identity"], StrPairs(InterpreterStrings(s.interpreter)));
    SourceParts(s, first, dirty, last);
    all := AppendSection(lines, ["source"], SourceStrings(s), done);
    all := AppendPair(all, "dirty", Bool(s.dirty), done + first);
    all := AppendSection(all, ["source", "interpreter_identity"], InterpreterStrings(s.interpreter),
      done + first + [dirty]);
    Reassociate(done, first, [dirty], last);
  }

  lemma Reassociate(a: seq<Statement>, b: seq<Statement>, c: seq<Statement>, d: seq<Statement>)
    ensures a + b + c + d == a + (b + c + d)
  {
  }

  lemma SourceParts(s: Source, first: seq<Statement>, dirty: Statement, last: seq<Statement>)
    requires first == Section(["source"], StrPairs(SourceStrings(s))) && dirty == Pair("dirty", Bool(s.dirty))
    requires last == Section(["source", "interpreter_identity"], StrPairs(InterpreterStrings(s.interpreter)))
    ensures SourceSections(s) == first + [dirty] + last
    ensures (forall x <- first :: WellFormed(x)) && WellFormed(dirty) && forall x <- last :: WellFormed(x)
  {
    SourceIsWellFormed(s);
    SourceStatements(s);
    PartsOf(first, [dirty], last, SourceSections(s));
  }

  lemma ProviderSectionIsWellFormed(m: InstanceManifest, i: nat)
    requires Closed(m) && i < |PROVIDERS|
    ensures forall s <- Section(["providers", PROVIDERS[i]], StrPairs(m.providers[i])) :: WellFormed(s)
  {
    ProvidersAreWellFormed(m, i + 1);
    var section := Section(["providers", PROVIDERS[i]], StrPairs(m.providers[i]));
    assert forall s <- section :: s in ProviderSections(m, i) + section;
  }

  lemma OneMoreSection(done: seq<Statement>, names: seq<string>, rows: seq<ProviderRow>, i: nat)
    requires i < |names| && |names| == |rows|
    ensures (done + SectionsOf(names, rows, i)) + Section(["providers", names[i]], StrPairs(rows[i]))
         == done + SectionsOf(names, rows, i + 1)
  {
    Regroup(done, SectionsOf(names, rows, i), Section(["providers", names[i]], StrPairs(rows[i])));
  }

  /** One section for each provider, in the order of the names. */
  method AppendSections(lines: seq<string>, names: seq<string>, rows: seq<ProviderRow>, ghost done: seq<Statement>)
    returns (all: seq<string>)
    requires |names| == |rows| && Printed(lines, done)
    requires forall i :: 0 <= i < |names| ==>
      forall s <- Section(["providers", names[i]], StrPairs(rows[i])) :: WellFormed(s)
    ensures Printed(all, done + SectionsOf(names, rows, |names|))
  {
    all := lines;
    assert done + [] == done;
    for i := 0 to |names|
      invariant Printed(all, done + SectionsOf(names, rows, i))
    {
      all := AppendSection(all, ["providers", names[i]], rows[i], done + SectionsOf(names, rows, i));
      OneMoreSection(done, names, rows, i);
    }
  }

  method AppendProviders(lines: seq<string>, m: InstanceManifest, ghost done: seq<Statement>)
    returns (all: seq<string>)
    requires Closed(m) && Printed(lines, done)
    ensures Printed(all, done + ProviderSections(m, |PROVIDERS|))
  {
    forall i | 0 <= i < |PROVIDERS|
      ensures forall s <- Section(["providers", PROVIDERS[i]], StrPairs(m.providers[i])) :: WellFormed(s)
    {
      ProviderSectionIsWellFormed(m, i);
    }
    all := AppendSections(lines, PROVIDERS, m.providers, done);
  }

  method AppendFixture(lines: seq<string>, m: InstanceManifest, ghost done: seq<Statement>)
    returns (all: seq<string>)
    requires Printed(lines, done)
    ensures Printed(all, done + FixtureSection(m))
  {
    match m.fixture {
      case None =>
        all := lines;
        assert done + FixtureSection(m) == done;
      case Some(row) =>
        FixtureIsWellFormed(m);
        all := AppendSection(lines, ["fixture_providers", "mock_cli"], FixtureStrings(row), done);
    }
  }

  /** `render_manifest`: the list of lines, joined. */
  method RenderManifest(m: InstanceManifest) returns (text: string)
    requires Closed(m)
    ensures text == ManifestText(m)
  {
    var lines := AppendTop(m);
    ghost var done := PairStatements(TopPairs(m));
    lines := AppendSource(lines, m.source, done);
    lines := AppendProviders(lines, m, done + SourceSections(m.source));
    lines := AppendFixture(lines, m,
      done + SourceSections(m.source) + ProviderSections(m, |PROVIDERS|));
    text := Concat(lines);
  }
}
