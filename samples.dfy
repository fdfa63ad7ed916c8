/** Samples: the `(img_path, pid, camid)` tuples of a re-identification
    dataset, the identity/camera counts computed by `parse_data`, and the
    ordering Python's `sorted` applies to such tuples. */
module Samples {

  /** One image of the dataset: its path, its person identity and its camera. */
  datatype Sample = Sample(path: string, pid: int, camid: int)

  /** The distinct person identities occurring in `data`. */
  function Pids(data: seq<Sample>): set<int>
  {
    set s | s in data :: s.pid
  }

  /** The distinct cameras occurring in `data`. */
  function Cams(data: seq<Sample>): set<int>
  {
    set s | s in data :: s.camid
  }

  lemma PidsCamsAppend(a: seq<Sample>, b: seq<Sample>)
    ensures Pids(a + b) == Pids(a) + Pids(b)
    ensures Cams(a + b) == Cams(a) + Cams(b)
  {
    assert forall s :: s in a + b <==> s in a || s in b;
  }

  /** `parse_data`: adds every pid and every camid of the list to a set and
      returns the two set sizes. */
  method ParseData(data: seq<Sample>) returns (numPids: nat, numCams: nat)
    ensures numPids == |Pids(data)| && numCams == |Cams(data)|
  {
    var pids: set<int> := {};
    var cams: set<int> := {};
    for i := 0 to |data|
      invariant pids == Pids(data[..i])
      invariant cams == Cams(data[..i])
    {
      assert data[..i + 1] == data[..i] + [data[i]];
      PidsCamsSnoc(data[..i], data[i]);
      pids := pids + {data[i].pid};
      cams := cams + {data[i].camid};
    }
    assert data[..|data|] == data;
    numPids, numCams := |pids|, |cams|;
  }

  /** Both counts are bounded by the length of the list, and are 0 on the
      empty list. */
  lemma {:induction false} CountsBounded(data: seq<Sample>)
    ensures |Pids(data)| <= |data| && |Cams(data)| <= |data|
    ensures data == [] ==> |Pids(data)| == 0 && |Cams(data)| == 0
  {
    if data != [] {
      var n := |data| - 1;
      var init, last := data[..n], data[n];
      CountsBounded(init);
      assert data == init + [last];
      PidsCamsSnoc(init, last);
      CardAddOne(Pids(init), last.pid);
      CardAddOne(Cams(init), last.camid);
    }
  }

  lemma PidsCamsSnoc(a: seq<Sample>, x: Sample)
    ensures Pids(a + [x]) == Pids(a) + {x.pid}
    ensures Cams(a + [x]) == Cams(a) + {x.camid}
  {
    PidsCamsAppend(a, [x]);
    assert Pids([x]) == {x.pid};
    assert Cams([x]) == {x.camid};
  }

  lemma CardAddOne(a: set<int>, x: int)
    ensures |a + {x}| <= |a| + 1
  {
    if x in a {
      assert a + {x} == a;
    }
  }

  /** Reordering a list does not change which identities and cameras occur. */
  lemma CountsOfPermutation(a: seq<Sample>, b: seq<Sample>)
    requires multiset(a) == multiset(b)
    ensures Pids(a) == Pids(b) && Cams(a) == Cams(b)
  {
    forall s | s in a ensures s in b {
      assert s in multiset(a);
    }
    forall s | s in b ensures s in a {
      assert s in multiset(b);
    }
  }

  // ---------------------------------------------------------------------
  // Python's ordering of `(str, int, int)` tuples.

  /** Python `a < b` on strings: lexicographic on code points, a proper
      prefix being smaller. */
  predicate StrLt(a: string, b: string)
    decreases |a|
  {
    if |a| == 0 then |b| > 0
    else if |b| == 0 then false
    else if a[0] != b[0] then a[0] < b[0]
    else StrLt(a[1..], b[1..])
  }

  lemma {:induction false} StrLtIrreflexive(a: string)
    ensures !StrLt(a, a)
    decreases |a|
  {
    if |a| > 0 { StrLtIrreflexive(a[1..]); }
  }

  lemma {:induction false} StrLtTransitive(a: string, b: string, c: string)
    requires StrLt(a, b) && StrLt(b, c)
    ensures StrLt(a, c)
    decreases |a|
  {
    if |a| > 0 && |b| > 0 && |c| > 0 && a[0] == b[0] && b[0] == c[0] {
      StrLtTransitive(a[1..], b[1..], c[1..]);
    }
  }

  lemma {:induction false} StrLtTotal(a: string, b: string)
    ensures a == b || StrLt(a, b) || StrLt(b, a)
    decreases |a|
  {
    if |a| > 0 && |b| > 0 && a[0] == b[0] {
      StrLtTotal(a[1..], b[1..]);
      if a[1..] == b[1..] {
        assert a == [a[0]] + a[1..] && b == [b[0]] + b[1..];
      }
    }
  }

  /** Python `x < y` on `(path, pid, camid)` tuples: lexicographic over the
      three components. */
  predicate SampleLt(x: Sample, y: Sample)
  {
    StrLt(x.path, y.path)
    || (x.path == y.path && (x.pid < y.pid || (x.pid == y.pid && x.camid < y.camid)))
  }

  /** The tuple order is a strict total order. */
  lemma SampleLtStrictTotal(x: Sample, y: Sample, z: Sample)
    ensures !SampleLt(x, x)
    ensures SampleLt(x, y) && SampleLt(y, z) ==> SampleLt(x, z)
    ensures x == y || SampleLt(x, y) || SampleLt(y, x)
  {
    StrLtIrreflexive(x.path);
    if StrLt(x.path, y.path) && StrLt(y.path, z.path) {
      StrLtTransitive(x.path, y.path, z.path);
    }
    StrLtTotal(x.path, y.path);
    if StrLt(x.path, y.path) && StrLt(y.path, x.path) {
      StrLtTransitive(x.path, y.path, x.path);
    }
  }

  /** "Not greater" is transitive. */
  lemma NotGreaterTransitive(x: Sample, y: Sample, z: Sample)
    requires !SampleLt(y, x) && !SampleLt(z, y)
    ensures !SampleLt(z, x)
  {
    SampleLtStrictTotal(x, y, z);
    SampleLtStrictTotal(y, z, x);
    SampleLtStrictTotal(z, x, y);
    SampleLtStrictTotal(z, y, x);
  }

  /** What Python's `sorted` guarantees: no later element is smaller than an
      earlier one. */
  ghost predicate Sorted(s: seq<Sample>)
  {
    forall i, j :: 0 <= i < j < |s| ==> !SampleLt(s[j], s[i])
  }

  function Insert(x: Sample, s: seq<Sample>): (r: seq<Sample>)
    ensures multiset(r) == multiset(s) + multiset{x}
    ensures |r| == |s| + 1
  {
    if s == [] then [x]
    else if SampleLt(s[0], x) then
      assert s == [s[0]] + s[1..];
      [s[0]] + Insert(x, s[1..])
    else [x] + s
  }

  lemma {:induction false} InsertSorted(x: Sample, s: seq<Sample>)
    requires Sorted(s)
    ensures Sorted(Insert(x, s))
  {
    if s == [] {
    } else if SampleLt(s[0], x) {
      var t := Insert(x, s[1..]);
      InsertSorted(x, s[1..]);
      forall e | e in t ensures !SampleLt(e, s[0]) {
        assert e in multiset(t);
        if e != x {
          assert e in multiset(s[1..]);
          var k :| 0 <= k < |s[1..]| && s[1..][k] == e;
          assert s[k + 1] == e;
        } else {
          SampleLtStrictTotal(s[0], x, s[0]);
        }
      }
      var r := [s[0]] + t;
      forall i, j | 0 <= i < j < |r| ensures !SampleLt(r[j], r[i]) {
        if i > 0 {
          assert r[i] == t[i - 1] && r[j] == t[j - 1];
        } else {
          assert r[j] == t[j - 1] && r[j] in t;
        }
      }
    } else {
      var r := [x] + s;
      forall i, j | 0 <= i < j < |r| ensures !SampleLt(r[j], r[i]) {
        if i == 0 {
          assert r[j] == s[j - 1];
          if j - 1 > 0 {
            NotGreaterTransitive(x, s[0], s[j - 1]);
          }
        } else {
          assert r[i] == s[i - 1] && r[j] == s[j - 1];
        }
      }
    }
  }

  /** Python's `sorted(data)` on the sample tuples, written as an insertion
      sort. */
  function SortSamples(s: seq<Sample>): (r: seq<Sample>)
    ensures multiset(r) == multiset(s) && |r| == |s|
  {
    if s == [] then []
    else
      assert s == [s[0]] + s[1..];
      Insert(s[0], SortSamples(s[1..]))
  }

  lemma {:induction false} SortSamplesSorted(s: seq<Sample>)
    ensures Sorted(SortSamples(s))
  {
    if s != [] {
      SortSamplesSorted(s[1..]);
      InsertSorted(s[0], SortSamples(s[1..]));
    }
  }

  lemma SortedTail(a: seq<Sample>)
    requires Sorted(a) && a != []
    ensures Sorted(a[1..])
  {
    forall i, j | 0 <= i < j < |a[1..]| ensures !SampleLt(a[1..][j], a[1..][i]) {
      assert a[1..][j] == a[j + 1] && a[1..][i] == a[i + 1];
    }
  }

  /** Two sorted permutations of one another start with the same element. */
  lemma SortedHeadsEqual(a: seq<Sample>, b: seq<Sample>)
    requires Sorted(a) && Sorted(b) && multiset(a) == multiset(b) && a != []
    ensures b != [] && a[0] == b[0]
  {
    assert a[0] in multiset(b);
    var i :| 0 <= i < |b| && b[i] == a[0];
    assert b[0] in multiset(a);
    var j :| 0 <= j < |a| && a[j] == b[0];
    assert !SampleLt(a[0], b[0]) by {
      if i > 0 { assert !SampleLt(b[i], b[0]); } else { SampleLtStrictTotal(a[0], a[0], a[0]); }
    }
    assert !SampleLt(b[0], a[0]) by {
      if j > 0 { assert !SampleLt(a[j], a[0]); } else { SampleLtStrictTotal(b[0], b[0], b[0]); }
    }
    SampleLtStrictTotal(a[0], b[0], a[0]);
  }

  lemma MultisetTails(a: seq<Sample>, b: seq<Sample>)
    requires a != [] && b != [] && a[0] == b[0] && multiset(a) == multiset(b)
    ensures multiset(a[1..]) == multiset(b[1..])
  {
    assert a == [a[0]] + a[1..] && b == [b[0]] + b[1..];
    calc {
      multiset(a[1..]);
      multiset(a) - multiset{a[0]};
      multiset(b) - multiset{b[0]};
      multiset(b[1..]);
    }
  }

  /** A sorted permutation is unique: whatever sorted permutation of the
      input Python returns, it is `SortSamples` of it. */
  lemma {:induction false} SortedPermutationUnique(a: seq<Sample>, b: seq<Sample>)
    requires Sorted(a) && Sorted(b) && multiset(a) == multiset(b)
    ensures a == b
    decreases |a|
  {
    if a != [] {
      SortedHeadsEqual(a, b);
      MultisetTails(a, b);
      SortedTail(a);
      SortedTail(b);
      SortedPermutationUnique(a[1..], b[1..]);
      assert a == [a[0]] + a[1..] && b == [b[0]] + b[1..];
    } else {
      assert |b| == |multiset(b)|;
    }
  }

  /** `sorted` returns a sorted permutation, and therefore the counts taken
      before sorting are the counts of the sorted list. */
  lemma SortSamplesSpec(s: seq<Sample>)
    ensures Sorted(SortSamples(s)) && multiset(SortSamples(s)) == multiset(s)
    ensures Pids(SortSamples(s)) == Pids(s) && Cams(SortSamples(s)) == Cams(s)
    ensures forall t :: Sorted(t) && multiset(t) == multiset(s) ==> t == SortSamples(s)
  {
    SortSamplesSorted(s);
    CountsOfPermutation(s, SortSamples(s));
    forall t | Sorted(t) && multiset(t) == multiset(s) ensures t == SortSamples(s) {
      SortedPermutationUnique(t, SortSamples(s));
    }
  }
}
