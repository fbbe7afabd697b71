/** The order in which Python sorts paths: part by part, each part by code points. */
module PathOrder {

  type Path = seq<string>

  predicate StrLess(a: string, b: string) {
    |b| > 0 && (|a| == 0 || a[0] < b[0] || (a[0] == b[0] && StrLess(a[1..], b[1..])))
  }

  predicate PathLess(p: Path, q: Path) {
    |q| > 0 && (|p| == 0 || StrLess(p[0], q[0]) || (p[0] == q[0] && PathLess(p[1..], q[1..])))
  }

  lemma {:induction false} StrTotal(a: string, b: string)
    ensures a == b || StrLess(a, b) || StrLess(b, a)
  {
    if |a| > 0 && |b| > 0 && a[0] == b[0] {
      StrTotal(a[1..], b[1..]);
      assert a == [a[0]] + a[1..] && b == [b[0]] + b[1..];
    }
  }

  lemma {:induction false} StrIrreflexive(a: string)
    ensures !StrLess(a, a)
  {
    if |a| > 0 {
      StrIrreflexive(a[1..]);
    }
  }

  lemma {:induction false} StrTransitive(a: string, b: string, c: string)
    requires StrLess(a, b) && StrLess(b, c)
    ensures StrLess(a, c)
  {
    if |a| > 0 && a[0] == b[0] && b[0] == c[0] {
      StrTransitive(a[1..], b[1..], c[1..]);
    }
  }

  lemma {:induction false} PathTotal(p: Path, q: Path)
    ensures p == q || PathLess(p, q) || PathLess(q, p)
  {
    if |p| > 0 && |q| > 0 {
      StrTotal(p[0], q[0]);
      if p[0] == q[0] {
        PathTotal(p[1..], q[1..]);
        assert p == [p[0]] + p[1..] && q == [q[0]] + q[1..];
      }
    }
  }

  lemma {:induction false} PathIrreflexive(p: Path)
    ensures !PathLess(p, p)
  {
    if |p| > 0 {
      StrIrreflexive(p[0]);
      PathIrreflexive(p[1..]);
    }
  }

  lemma {:induction false} PathTransitive(p: Path, q: Path, r: Path)
    requires PathLess(p, q) && PathLess(q, r)
    ensures PathLess(p, r)
  {
    if |p| > 0 {
      if p[0] == q[0] && q[0] == r[0] {
        StrIrreflexive(p[0]);
        PathTransitive(p[1..], q[1..], r[1..]);
      } else if p[0] != q[0] && q[0] != r[0] {
        StrTransitive(p[0], q[0], r[0]);
      }
    }
  }

  /** A path comes before everything below it. */
  lemma {:induction false} ParentIsLess(p: Path, q: Path)
    requires p < q
    ensures PathLess(p, q)
  {
    if |p| > 0 {
      assert p[0] == q[0];
      assert p[1..] < q[1..];
      ParentIsLess(p[1..], q[1..]);
    }
  }

  predicate Ascending(s: seq<Path>) {
    forall i, j :: 0 <= i < j < |s| ==> PathLess(s[i], s[j])
  }

  /** Where `p` belongs in an ascending list that does not hold it. */
  method InsertAt(s: seq<Path>, p: Path) returns (k: nat)
    requires Ascending(s) && p !in s
    ensures k <= |s|
    ensures forall i :: 0 <= i < k ==> PathLess(s[i], p)
    ensures forall i :: k <= i < |s| ==> PathLess(p, s[i])
  {
    k := 0;
    while k < |s| && PathLess(s[k], p)
      invariant k <= |s| && forall i :: 0 <= i < k ==> PathLess(s[i], p)
    {
      k := k + 1;
    }
    forall i | k <= i < |s|
      ensures PathLess(p, s[i])
    {
      PathTotal(p, s[k]);
      if i > k {
        PathTransitive(p, s[k], s[i]);
      }
    }
  }

  /** `sorted` of a set of paths. */
  method Sorted(paths: set<Path>) returns (sorted: seq<Path>)
    ensures Ascending(sorted) && forall p :: p in sorted <==> p in paths
  {
    sorted := [];
    var todo := paths;
    while todo != {}
      invariant Ascending(sorted) && todo <= paths
      invariant forall p :: p in sorted <==> p in paths && p !in todo
      decreases todo
    {
      var p :| p in todo;
      var k := InsertAt(sorted, p);
      var before := sorted;
      sorted := before[..k] + [p] + before[k..];
      forall q
        ensures q in sorted <==> q in before || q == p
      {
        assert before == before[..k] + before[k..];
      }
      todo := todo - {p};
    }
  }
}
