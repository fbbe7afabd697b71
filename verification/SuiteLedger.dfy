/**
 The suite ledger over real-valued times: merging test reports per file, and the share of
 the total that the slowest tests take.
 */
module SuiteLedger {
  datatype Test = Test(file: string, name: string, time: real)

  function Sum(times: seq<real>): real {
    if |times| == 0 then 0.0 else times[0] + Sum(times[1..])
  }

  function Times(tests: seq<Test>): (times: seq<real>)
    ensures |times| == |tests| && forall i :: 0 <= i < |tests| ==> times[i] == tests[i].time
  {
    if |tests| == 0 then [] else [tests[0].time] + Times(tests[1..])
  }

  // ----- sums -----

  lemma {:induction false} SumAppend(a: seq<real>, b: seq<real>)
    ensures Sum(a + b) == Sum(a) + Sum(b)
  {
    if |a| == 0 {
      assert a + b == b;
    } else {
      assert (a + b)[1..] == a[1..] + b;
      SumAppend(a[1..], b);
    }
  }

  function Drop(s: seq<real>, i: nat): (r: seq<real>)
    requires i < |s|
    ensures |r| == |s| - 1
  {
    s[..i] + s[i + 1..]
  }

  lemma DropBag(s: seq<real>, i: nat)
    requires i < |s|
    ensures multiset(Drop(s, i)) == multiset(s) - multiset{s[i]}
  {
    assert s == s[..i] + [s[i]] + s[i + 1..];
  }

  lemma Reassemble<T>(s: seq<T>, i: nat)
    requires i < |s|
    ensures s == s[..i] + ([s[i]] + s[i + 1..])
  {
  }

  lemma SumDrop(s: seq<real>, i: nat)
    requires i < |s|
    ensures Sum(s) == s[i] + Sum(Drop(s, i))
  {
    Reassemble(s, i);
    SumInserted(s[..i], s[i], s[i + 1..]);
  }

  lemma SumInserted(a: seq<real>, x: real, b: seq<real>)
    ensures Sum(a + ([x] + b)) == x + Sum(a + b)
  {
    SumAppend(a, [x] + b);
    SumAppend(a, b);
    SumCons(x, b);
  }

  lemma SumCons(x: real, s: seq<real>)
    ensures Sum([x] + s) == x + Sum(s)
  {
    assert ([x] + s)[1..] == s;
  }

  /** A sum does not depend on the order. */
  lemma {:induction false} SumOfPermutation(a: seq<real>, b: seq<real>)
    requires multiset(a) == multiset(b)
    ensures Sum(a) == Sum(b) && |a| == |b|
    decreases |a|
  {
    assert |multiset(a)| == |multiset(b)|;
    if |a| > 0 {
      assert a[0] in multiset(b);
      var i :| 0 <= i < |b| && b[i] == a[0];
      SumDrop(b, i);
      DropBag(b, i);
      assert a == [a[0]] + a[1..];
      SumOfPermutation(a[1..], Drop(b, i));
    }
  }

  // ----- the slowest tests -----

  predicate Descending(s: seq<real>) {
    forall i, j :: 0 <= i < j < |s| ==> s[i] >= s[j]
  }

  function Insert(sorted: seq<real>, x: real): (r: seq<real>)
    requires Descending(sorted)
    ensures Descending(r) && multiset(r) == multiset(sorted) + multiset{x}
  {
    if |sorted| == 0 then [x]
    else if sorted[0] < x then [x] + sorted
    else
      var rest := Insert(sorted[1..], x);
      assert sorted == [sorted[0]] + sorted[1..];
      HeadIsLargest(sorted, x, rest);
      [sorted[0]] + rest
  }

  lemma HeadIsLargest(sorted: seq<real>, x: real, rest: seq<real>)
    requires Descending(sorted) && |sorted| > 0 && x <= sorted[0]
    requires multiset(rest) == multiset(sorted[1..]) + multiset{x}
    ensures forall i :: 0 <= i < |rest| ==> rest[i] <= sorted[0]
  {
    forall i | 0 <= i < |rest|
      ensures rest[i] <= sorted[0]
    {
      assert rest[i] in multiset(rest);
      if rest[i] != x {
        assert rest[i] in multiset(sorted[1..]);
        var k :| 0 <= k < |sorted[1..]| && sorted[1..][k] == rest[i];
      }
    }
  }

  /** `sorted(..., reverse=True)`. */
  function SortedDescending(times: seq<real>): (sorted: seq<real>)
    ensures Descending(sorted) && multiset(sorted) == multiset(times)
  {
    if |times| == 0 then []
    else
      var n := |times| - 1;
      assert times == times[..n] + [times[n]];
      Insert(SortedDescending(times[..n]), times[n])
  }

  lemma SubBagIsSmaller(a: seq<real>, b: seq<real>)
    requires multiset(a) <= multiset(b)
    ensures |a| <= |b|
  {
    assert multiset(b) == multiset(a) + (multiset(b) - multiset(a));
    assert |multiset(b)| == |multiset(a)| + |multiset(b) - multiset(a)|;
  }

  /** One of the chosen times to pair with the largest: itself when it was chosen. */
  lemma PairWithFirst(sorted: seq<real>, chosen: seq<real>) returns (i: nat)
    requires Descending(sorted) && multiset(chosen) <= multiset(sorted) && |chosen| > 0
    ensures |sorted| > 0 && i < |chosen| && chosen[i] <= sorted[0]
    ensures multiset(Drop(chosen, i)) <= multiset(sorted[1..])
  {
    SubBagIsSmaller(chosen, sorted);
    i := if sorted[0] in chosen then PositionOf(chosen, sorted[0]) else 0;
    assert chosen[i] in multiset(chosen);
    assert chosen[i] in multiset(sorted);
    DropBag(chosen, i);
    DropBag(sorted, 0);
    assert Drop(sorted, 0) == sorted[1..];
    TakeFromBoth(multiset(chosen), multiset(sorted), chosen[i], sorted[0]);
  }

  /** Taking one element from each side keeps the inclusion when the right one is not needed. */
  lemma TakeFromBoth(a: multiset<real>, b: multiset<real>, x: real, y: real)
    requires a <= b && x in a && (y in a ==> x == y)
    ensures a - multiset{x} <= b - multiset{y}
  {
  }

  /** No selection of times sums to more than as many of the first of the sorted list. */
  lemma {:induction false} FirstAreLargest(sorted: seq<real>, chosen: seq<real>)
    requires Descending(sorted) && multiset(chosen) <= multiset(sorted)
    ensures |chosen| <= |sorted| && Sum(chosen) <= Sum(sorted[..|chosen|])
    decreases |sorted|
  {
    SubBagIsSmaller(chosen, sorted);
    if |chosen| > 0 {
      var i := PairWithFirst(sorted, chosen);
      SumDrop(chosen, i);
      FirstAreLargest(sorted[1..], Drop(chosen, i));
      assert sorted[..|chosen|][1..] == sorted[1..][..|chosen| - 1];
    }
  }

  function PositionOf(s: seq<real>, x: real): (i: nat)
    requires x in s
    ensures i < |s| && s[i] == x
  {
    if s[0] == x then 0 else 1 + PositionOf(s[1..], x)
  }

  /** `k` of `n` tests: at least 1, at most all of them. */
  function TailCount(n: nat, percentile: real): (k: nat)
    requires n > 0
    ensures 1 <= k <= n
  {
    var wanted := (n as real * percentile).Floor;
    if wanted < 1 then 1 else if wanted > n then n else wanted
  }

  lemma OneMore(x: real, m: real, n: real)
    requires n == m + 1.0
    ensures x * n == x * m + x
  {
  }

  lemma {:induction false} BoundedAbove(s: seq<real>, high: real, n: real)
    requires n == |s| as real && forall i :: 0 <= i < |s| ==> s[i] <= high
    ensures Sum(s) <= high * n
  {
    if |s| > 0 {
      BoundedAbove(s[1..], high, n - 1.0);
      OneMore(high, n - 1.0, n);
    }
  }

  lemma {:induction false} BoundedBelow(s: seq<real>, low: real, n: real)
    requires n == |s| as real && forall i :: 0 <= i < |s| ==> low <= s[i]
    ensures low * n <= Sum(s)
  {
    if |s| > 0 {
      BoundedBelow(s[1..], low, n - 1.0);
      OneMore(low, n - 1.0, n);
    }
  }

  lemma SplitSum(s: seq<real>, k: nat)
    requires k <= |s|
    ensures Sum(s) == Sum(s[..k]) + Sum(s[k..])
  {
    assert s == s[..k] + s[k..];
    SumAppend(s[..k], s[k..]);
  }

  lemma MeanStep(k: real, m: real, n: real, head: real, rest: real, total: real, v: real)
    requires k > 0.0 && m >= 0.0 && n == k + m && total == head + rest
    requires v * k <= head && rest <= v * m
    ensures k * total <= n * head
  {
    TimesKeeps(k, rest, v * m);
    TimesKeeps(m, v * k, head);
    assert k * (v * m) == m * (v * k);
    assert k * total == k * head + k * rest;
    assert n * head == k * head + m * head;
  }

  lemma TimesKeeps(f: real, a: real, b: real)
    requires f >= 0.0 && a <= b
    ensures f * a <= f * b
  {
  }

  /** The mean of the largest `k` of `n` is at least the overall mean. */
  lemma TailIsAboveMean(sorted: seq<real>, count: nat, k: real, n: real, tail: real, total: real)
    requires Descending(sorted) && 0 < count <= |sorted|
    requires k == count as real && n == |sorted| as real
    requires tail == Sum(sorted[..count]) && total == Sum(sorted)
    ensures k * total <= n * tail
  {
    var v, m := sorted[count - 1], (|sorted| - count) as real;
    SplitSum(sorted, count);
    BoundedAbove(sorted[count..], v, m);
    BoundedBelow(sorted[..count], v, k);
    MeanStep(k, m, n, tail, Sum(sorted[count..]), total, v);
  }

  /** `k` of the times with the greatest sum of all such selections. */
  ghost predicate Slowest(times: seq<real>, k: nat, tail: seq<real>) {
    && |tail| == k && multiset(tail) <= multiset(times)
    && forall chosen: seq<real> :: |chosen| == k && multiset(chosen) <= multiset(times) ==> Sum(chosen) <= Sum(tail)
  }

  /** What `compute_tail_ratio` may return. */
  ghost predicate IsTailRatio(times: seq<real>, percentile: real, ratio: real) {
    if |times| == 0 || Sum(times) == 0.0 then ratio == 0.0
    else exists tail :: Slowest(times, TailCount(|times|, percentile), tail) && ratio == Sum(tail) / Sum(times)
  }

  lemma PrefixIsSlowest(times: seq<real>, sorted: seq<real>, k: nat)
    requires Descending(sorted) && multiset(sorted) == multiset(times) && k <= |sorted|
    ensures Slowest(times, k, sorted[..k])
  {
    PrefixIsSelection(sorted, k);
    forall chosen: seq<real> | |chosen| == k && multiset(chosen) <= multiset(times)
      ensures Sum(chosen) <= Sum(sorted[..k])
    {
      FirstAreLargest(sorted, chosen);
    }
  }

  lemma PrefixIsSelection(sorted: seq<real>, k: nat)
    requires k <= |sorted|
    ensures multiset(sorted[..k]) <= multiset(sorted)
  {
    assert sorted == sorted[..k] + sorted[k..];
  }

  /** `compute_tail_ratio`: the slowest `k` tests over the total. */
  method ComputeTailRatio(tests: seq<Test>, percentile: real) returns (ratio: real)
    ensures IsTailRatio(Times(tests), percentile, ratio)
    ensures (forall t <- Times(tests) :: t >= 0.0) && Sum(Times(tests)) > 0.0 ==>
      |tests| > 0 && TailCount(|tests|, percentile) as real / |tests| as real <= ratio <= 1.0
  {
    var times := Times(tests);
    if |tests| == 0 {
      return 0.0;
    }
    var sorted := SortedDescending(times);
    SumOfPermutation(sorted, times);
    var total := Sum(sorted);
    if total == 0.0 {
      return 0.0;
    }
    var k := TailCount(|sorted|, percentile);
    ratio := Sum(sorted[..k]) / total;
    PrefixIsSlowest(times, sorted, k);
    if (forall t <- times :: t >= 0.0) && Sum(times) > 0.0 {
      TailRatioBounds(times, percentile, ratio);
    }
  }

  /** With non-negative times and a positive total, the ratio lies between `k / n` and 1. */
  lemma TailRatioBounds(times: seq<real>, percentile: real, ratio: real)
    requires (forall t <- times :: t >= 0.0) && Sum(times) > 0.0
    requires IsTailRatio(times, percentile, ratio)
    ensures |times| > 0
    ensures TailCount(|times|, percentile) as real / |times| as real <= ratio <= 1.0
  {
    var tail :| Slowest(times, TailCount(|times|, percentile), tail) && ratio == Sum(tail) / Sum(times);
    SlowestShare(times, SortedDescending(times), TailCount(|times|, percentile), tail);
  }

  lemma SlowestShare(times: seq<real>, sorted: seq<real>, k: nat, tail: seq<real>)
    requires (forall t <- times :: t >= 0.0) && Sum(times) > 0.0 && Descending(sorted)
    requires multiset(sorted) == multiset(times) && 0 < k <= |times| && Slowest(times, k, tail)
    ensures k as real / |times| as real <= Sum(tail) / Sum(times) <= 1.0
  {
    SumOfPermutation(sorted, times);
    SameLength(sorted, times);
    PrefixIsSlowest(times, sorted, k);
    assert Sum(tail) == Sum(sorted[..k]);
    RestIsNonNegative(times, sorted, k);
    ShareBounds(sorted, k, k as real, |times| as real, Sum(tail), Sum(times));
  }

  lemma SameLength(a: seq<real>, b: seq<real>)
    requires multiset(a) == multiset(b)
    ensures |a| == |b|
  {
    assert |multiset(a)| == |multiset(b)|;
  }

  lemma ShareBounds(sorted: seq<real>, count: nat, k: real, n: real, tail: real, total: real)
    requires Descending(sorted) && 0 < count <= |sorted|
    requires k == count as real && n == |sorted| as real
    requires tail == Sum(sorted[..count]) && total == Sum(sorted) && tail <= total && total > 0.0
    ensures k / n <= tail / total <= 1.0
  {
    TailIsAboveMean(sorted, count, k, n, tail, total);
    DivideBoth(k, n, tail, total);
  }

  lemma RestIsNonNegative(times: seq<real>, sorted: seq<real>, k: nat)
    requires (forall t <- times :: t >= 0.0) && multiset(sorted) == multiset(times) && k <= |sorted|
    ensures Sum(sorted[..k]) <= Sum(sorted)
  {
    forall i | 0 <= i < |sorted|
      ensures sorted[i] >= 0.0
    {
      assert sorted[i] in multiset(sorted);
      assert sorted[i] in multiset(times);
      assert sorted[i] in times;
    }
    SplitSum(sorted, k);
    BoundedBelow(sorted[k..], 0.0, |sorted[k..]| as real);
  }

  lemma DivideBoth(k: real, n: real, tail: real, total: real)
    requires n > 0.0 && total > 0.0 && k * total <= n * tail && tail <= total
    ensures k / n <= tail / total <= 1.0
  {
    var q := tail / total;
    assert q * total == tail;
    AtMost(tail, total, 1.0);
    assert k * total <= (n * q) * total;
    TimesReflects(total, k, n * q);
    AtMost(k, n, q);
  }

  lemma TimesReflects(f: real, a: real, b: real)
    requires f > 0.0 && a * f <= b * f
    ensures a <= b
  {
  }

  lemma AtMost(a: real, b: real, q: real)
    requires b > 0.0 && a <= b * q
    ensures a / b <= q
  {
    var r := a / b;
    assert r * b == a;
    TimesReflects(b, r, q);
  }

  // ----- merging reports -----

  type FileTimes = map<string, real>

  function TimeIn(times: FileTimes, file: string): real {
    if file in times then times[file] else 0.0
  }

  /** The summed time of the tests of one file. */
  function TimeOfFile(tests: seq<Test>, file: string): real {
    if |tests| == 0 then 0.0
    else TimeOfFile(tests[..|tests| - 1], file)
         + (if tests[|tests| - 1].file == file then tests[|tests| - 1].time else 0.0)
  }

  /** Every test is counted in its own file, once, and no other file is listed. */
  ghost predicate Accounts(times: FileTimes, tests: seq<Test>) {
    && (forall file :: TimeIn(times, file) == TimeOfFile(tests, file))
    && (forall file :: file in times <==> exists t <- tests :: t.file == file)
  }

  lemma {:induction false} TimeOfFileAppend(a: seq<Test>, b: seq<Test>, file: string)
    ensures TimeOfFile(a + b, file) == TimeOfFile(a, file) + TimeOfFile(b, file)
  {
    if |b| == 0 {
      assert a + b == a;
    } else {
      assert (a + b)[..|a + b| - 1] == a + b[..|b| - 1];
      TimeOfFileAppend(a, b[..|b| - 1], file);
    }
  }

  /** `parse_junit`'s accumulation over the test cases of one report. */
  method ParseCases(cases: seq<Test>) returns (times: FileTimes)
    ensures Accounts(times, cases)
  {
    times := map[];
    for i := 0 to |cases|
      invariant Accounts(times, cases[..i])
    {
      assert cases[..i + 1] == cases[..i] + [cases[i]];
      forall file
        ensures TimeOfFile(cases[..i + 1], file)
             == TimeOfFile(cases[..i], file) + (if cases[i].file == file then cases[i].time else 0.0)
      {
      }
      times := times[cases[i].file := TimeIn(times, cases[i].file) + cases[i].time];
    }
    assert cases[..|cases|] == cases;
  }

  function Flatten(reports: seq<seq<Test>>): seq<Test> {
    if |reports| == 0 then [] else Flatten(reports[..|reports| - 1]) + reports[|reports| - 1]
  }

  /** Merging one report's file times into the running ones. */
  method MergeTimes(all: FileTimes, times: FileTimes, ghost before: seq<Test>, ghost more: seq<Test>)
    returns (merged: FileTimes)
    requires Accounts(all, before) && Accounts(times, more)
    ensures Accounts(merged, before + more)
  {
    merged := all;
    var todo := times.Keys;
    while todo != {}
      invariant todo <= times.Keys
      invariant merged.Keys == all.Keys + (times.Keys - todo)
      invariant forall f :: TimeIn(merged, f) == TimeIn(all, f) + (if f in todo then 0.0 else TimeIn(times, f))
      decreases todo
    {
      var file :| file in todo;
      merged := merged[file := TimeIn(merged, file) + times[file]];
      todo := todo - {file};
    }
    forall file
      ensures TimeIn(merged, file) == TimeOfFile(before + more, file)
    {
      TimeOfFileAppend(before, more, file);
    }
  }

  /** `generate_ledger`: over any number of reports, each test's time ends up in its own file. */
  method GenerateLedger(reports: seq<seq<Test>>) returns (times: FileTimes, tests: seq<Test>, ratio: real)
    ensures tests == Flatten(reports) && Accounts(times, tests)
    ensures IsTailRatio(Times(tests), 0.05, ratio)
    ensures (forall t <- Times(tests) :: t >= 0.0) && Sum(Times(tests)) > 0.0 ==>
      |tests| > 0 && TailCount(|tests|, 0.05) as real / |tests| as real <= ratio <= 1.0
  {
    times, tests := map[], [];
    for i := 0 to |reports|
      invariant tests == Flatten(reports[..i]) && Accounts(times, tests)
    {
      assert reports[..i + 1][..i] == reports[..i];
      var more := ParseCases(reports[i]);
      times := MergeTimes(times, more, tests, reports[i]);
      tests := tests + reports[i];
    }
    assert reports[..|reports|] == reports;
    ratio := ComputeTailRatio(tests, 0.05);
  }
}
