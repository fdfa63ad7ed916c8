/** The PersonX dataset: the table that maps a split name to a folder, an
    identity range and a relabelling flag, and `process_dir`, which turns the
    image file names of a folder into labelled samples. */
module PersonX {
  import opened Results
  import opened Samples
  import opened FileNames
  import BaseDataset

  /** Exceptions the PersonX constructor and `process_dir` raise. */
  datatype Error =
    | BadValSplit                        // `val_split` outside (0, 1)
    | InvalidMode                        // split name not in the table
    | NoMatch                            // a file name without `<digits>_c<digits>`
    | EmptySelection                     // the identity range selects nothing
    | UnknownCamera                      // a kept image from a camera outside the map
    | Dataset(cause: BaseDataset.Error)  // raised by the dataset constructor

  // ---------------------------------------------------------------------
  // Python `int(round(x))` and list slicing.

  /** What Python's `round(x)` returns: an integer nearest to `x`, the even
      one when `x` lies halfway between two integers. */
  ghost predicate IsRounding(x: real, r: int)
  {
    && x - 0.5 <= r as real <= x + 0.5
    && ((r as real - x == 0.5 || x - r as real == 0.5) ==> r % 2 == 0)
  }

  lemma RoundingExists(x: real)
    ensures exists r :: IsRounding(x, r)
  {
    var f := (x + 0.5).Floor;
    if f as real == x + 0.5 && f % 2 == 1 {
      assert IsRounding(x, f - 1);
    } else {
      assert IsRounding(x, f);
    }
  }

  /** There is only one such integer. */
  lemma RoundingUnique(x: real, r: int, q: int)
    requires IsRounding(x, r) && IsRounding(x, q)
    ensures r == q
  {
    NeighboursParity(r);
    NeighboursParity(q);
  }

  lemma NeighboursParity(a: int)
    ensures (a + 1) % 2 != a % 2
  {
  }

  /** `round(x)` on exact reals. */
  ghost function Round(x: real): int
  {
    RoundingExists(x);
    var r :| IsRounding(x, r);
    r
  }

  lemma RoundIsRounding(x: real)
    ensures IsRounding(x, Round(x))
  {
  }

  /** `int(round(x))`, computed from the floor of `x + 1/2`. */
  method PyRound(x: real) returns (r: int)
    ensures r == Round(x)
  {
    r := (x + 0.5).Floor;
    if r as real == x + 0.5 && r % 2 == 1 {
      r := r - 1;
    }
    RoundIsRounding(x);
    RoundingUnique(x, r, Round(x));
  }

  /** `n * f` for a count `n`, as `n` repeated additions of `f`. */
  function Scale(n: nat, f: real): (x: real)
    decreases n
  {
    if n == 0 then 0.0 else Scale(n - 1, f) + f
  }

  /** `Scale` is the product `n * f`. */
  lemma {:induction false} ScaleIsProduct(n: nat, f: real)
    ensures Scale(n, f) == n as real * f
    decreases n
  {
    if n > 0 {
      ScaleIsProduct(n - 1, f);
      assert n as real * f == (n - 1) as real * f + f;
    }
  }

  /** For a fraction `f` in `[0, 1]`, `n * f` lies in `[0, n]`; `n * 0` is
      `0` and `n * 1` is `n`. */
  lemma {:induction false} ScaleBetween(n: nat, f: real)
    requires 0.0 <= f <= 1.0
    ensures 0.0 <= Scale(n, f) <= n as real
    ensures f == 0.0 ==> Scale(n, f) == 0.0
    ensures f == 1.0 ==> Scale(n, f) == n as real
    decreases n
  {
    if n > 0 {
      ScaleBetween(n - 1, f);
    }
  }

  /** Rounding a point of `[0, n]` stays in `[0, n]`; `0` and `n` round to
      themselves. */
  lemma RoundWithin(n: nat, x: real)
    requires 0.0 <= x <= n as real
    ensures 0 <= Round(x) <= n
    ensures x == n as real ==> Round(x) == n
    ensures x == 0.0 ==> Round(x) == 0
  {
    RoundIsRounding(x);
  }

  /** A Python slice bound, after counting negative values from the end and
      clamping to the list. */
  function PyIndex(i: int, n: nat): (r: nat)
    ensures r <= n
    ensures 0 <= i <= n ==> r == i
    ensures -(n as int) <= i < 0 ==> r == n + i
    ensures i < -(n as int) ==> r == 0
    ensures i > n ==> r == n
  {
    if i < 0 then (if i + n < 0 then 0 else i + n)
    else if i > n then n
    else i
  }

  /** Python `s[i:j]` on a list of identities. */
  function PySlice(s: seq<nat>, i: int, j: int): (r: seq<nat>)
    ensures |r| <= |s|
    ensures 0 <= i <= j <= |s| ==> r == s[i..j]
    ensures forall x :: x in r ==> x in s
    ensures PyIndex(i, |s|) < PyIndex(j, |s|) ==> r == s[PyIndex(i, |s|)..PyIndex(j, |s|)]
    ensures PyIndex(j, |s|) <= PyIndex(i, |s|) ==> r == []
  {
    var a, b := PyIndex(i, |s|), PyIndex(j, |s|);
    if a < b then s[a..b] else []
  }

  // ---------------------------------------------------------------------
  // Identities.

  ghost predicate StrictlyIncreasing(s: seq<nat>)
  {
    forall i, j :: 0 <= i < j < |s| ==> s[i] < s[j]
  }

  /** `m` is the least element of `ps`. */
  predicate IsLeast(m: nat, ps: set<nat>)
  {
    m in ps && forall x :: x in ps ==> m <= x
  }

  lemma {:induction false} MinExists(ps: set<nat>)
    requires ps != {}
    ensures exists m :: IsLeast(m, ps)
    decreases |ps|
  {
    var y :| y in ps;
    if ps == {y} {
      assert IsLeast(y, ps);
    } else {
      var rest := ps - {y};
      MinExists(rest);
      var m :| IsLeast(m, rest);
      LeastOfAdd(m, rest, y);
      assert rest + {y} == ps;
    }
  }

  /** Adding `y` to a set whose least element is `m` gives the smaller of the
      two as least element. */
  lemma LeastOfAdd(m: nat, rest: set<nat>, y: nat)
    requires IsLeast(m, rest)
    ensures IsLeast(if y < m then y else m, rest + {y})
  {
  }

  function MinOf(ps: set<nat>): (m: nat)
    requires ps != {}
    ensures IsLeast(m, ps)
  {
    MinExists(ps);
    var m :| IsLeast(m, ps);
    m
  }

  /** `sorted(pid_container)`: the identities of a set in increasing order. */
  function SortedPids(ps: set<nat>): (r: seq<nat>)
    ensures StrictlyIncreasing(r)
    ensures forall x :: x in r <==> x in ps
    ensures |r| == |ps|
    decreases |ps|
  {
    if ps == {} then []
    else
      var m := MinOf(ps);
      var rest := SortedPids(ps - {m});
      assert forall k :: 0 <= k < |rest| ==> rest[k] in ps - {m};
      [m] + rest
  }

  /** The last position of `x` in `s`. */
  function LastIndex(s: seq<nat>, x: nat): (k: nat)
    requires x in s
    ensures k < |s| && s[k] == x
    ensures forall j :: k < j < |s| ==> s[j] != x
  {
    if s[|s| - 1] == x then |s| - 1 else LastIndex(s[..|s| - 1], x)
  }

  /** `pid2label`, the dictionary built over `enumerate(pid_container)`: each
      selected identity mapped to its position, the last one should it occur
      twice. */
  function Pid2Label(sel: seq<nat>): (m: map<nat, nat>)
    ensures forall x :: x in m <==> x in sel
    ensures forall x :: x in m ==> m[x] < |sel| && sel[m[x]] == x
  {
    map x | x in sel :: LastIndex(sel, x)
  }

  /** Over an increasing selection, `pid2label` is the rank of each identity. */
  lemma Pid2LabelRank(sel: seq<nat>)
    requires StrictlyIncreasing(sel)
    ensures forall k :: 0 <= k < |sel| ==> Pid2Label(sel)[sel[k]] == k
  {
    forall k | 0 <= k < |sel| ensures Pid2Label(sel)[sel[k]] == k {
      var j := Pid2Label(sel)[sel[k]];
      assert sel[j] == sel[k];
    }
  }

  /** `cam2label` shifted down by one: the six PersonX cameras 3, 4, 8, 10,
      11 and 12 become 0..5. */
  const Cam2Label: map<nat, int> := map[3 := 1, 4 := 2, 8 := 3, 10 := 4, 11 := 5, 12 := 6]

  /** The camera map sends the six raw cameras one-to-one onto `[0, 6)`. */
  lemma CameraMap()
    ensures Cam2Label.Keys == {3, 4, 8, 10, 11, 12}
    ensures forall c :: c in Cam2Label ==> 0 <= Cam2Label[c] - 1 < 6
    ensures forall c, d :: c in Cam2Label && d in Cam2Label && c != d ==> Cam2Label[c] != Cam2Label[d]
  {
  }

  // ---------------------------------------------------------------------
  // `process_dir` as a function of the folder's file names.

  ghost predicate AllParse(names: seq<string>)
  {
    forall name :: name in names ==> ParseName(name).Some?
  }

  function RawPid(name: string): nat
    requires ParseName(name).Some?
  {
    ParseName(name).value.0
  }

  function RawCam(name: string): nat
    requires ParseName(name).Some?
  {
    ParseName(name).value.1
  }

  /** The identities occurring in the folder. */
  ghost function PidSetOf(names: seq<string>): set<nat>
    requires AllParse(names)
  {
    set name | name in names :: RawPid(name)
  }

  /** The identities `process_dir` keeps for the range `[lo, hi]`: the sorted
      identities sliced at `round(n * lo)` and `round(n * hi)`. */
  ghost function Selection(names: seq<string>, lo: real, hi: real): seq<nat>
    requires AllParse(names)
  {
    SelectRange(SortedPids(PidSetOf(names)), lo, hi)
  }

  /** `pid_container[round(n * lo):round(n * hi)]` for the `n` sorted
      identities. */
  ghost function SelectRange(pids: seq<nat>, lo: real, hi: real): (sel: seq<nat>)
    ensures forall x :: x in sel ==> x in pids
  {
    var n := |pids|;
    PySlice(pids, Round(Scale(n, lo)), Round(Scale(n, hi)))
  }

  /** The label a kept identity receives. */
  function Label(pid: nat, sel: seq<nat>, relabel: bool, delLabels: bool): int
    requires pid in sel
  {
    if delLabels then 0 else if relabel then Pid2Label(sel)[pid] else pid
  }

  /** The second loop of `process_dir`: one sample per file whose identity was
      selected, in file order; a kept file from an unknown camera raises. */
  ghost function LabelSamples(names: seq<string>, sel: seq<nat>, relabel: bool, delLabels: bool): Result<seq<Sample>, Error>
    requires AllParse(names)
    decreases |names|
  {
    if |names| == 0 then Ok([])
    else
      var n := |names| - 1;
      assert forall name :: name in names[..n] ==> name in names;
      match LabelSamples(names[..n], sel, relabel, delLabels)
      case Err(e) => Err(e)
      case Ok(prefix) =>
        var pid, cam := RawPid(names[n]), RawCam(names[n]);
        if pid !in sel then Ok(prefix)
        else if cam !in Cam2Label then Err(UnknownCamera)
        else Ok(prefix + [Sample(names[n], Label(pid, sel, relabel, delLabels), Cam2Label[cam] - 1)])
  }

  /** `process_dir(dir_path, data_range, relabel)` over the folder's names. */
  ghost function ProcessDirSpec(names: seq<string>, lo: real, hi: real, relabel: bool, delLabels: bool): Result<seq<Sample>, Error>
  {
    if !AllParse(names) then Err(NoMatch)
    else
      var sel := Selection(names, lo, hi);
      if |sel| == 0 then Err(EmptySelection)
      else LabelSamples(names, sel, relabel, delLabels)
  }

  /** The selection is the slice of the sorted identities at the two rounded
      bounds. */
  lemma SelectionAt(names: seq<string>, lo: real, hi: real, i: int, j: int)
    requires AllParse(names)
    requires var n := |PidSetOf(names)|; i == Round(Scale(n, lo)) && j == Round(Scale(n, hi))
    ensures Selection(names, lo, hi) == PySlice(SortedPids(PidSetOf(names)), i, j)
  {
  }

  lemma SelectionIncreasing(names: seq<string>, lo: real, hi: real)
    requires AllParse(names)
    ensures StrictlyIncreasing(Selection(names, lo, hi))
  {
    var pids := SortedPids(PidSetOf(names));
    var n := |pids|;
    SliceIncreasing(pids, Round(Scale(n, lo)), Round(Scale(n, hi)));
  }

  /** A slice of an increasing list is increasing. */
  lemma SliceIncreasing(s: seq<nat>, i: int, j: int)
    requires StrictlyIncreasing(s)
    ensures StrictlyIncreasing(PySlice(s, i, j))
  {
    var a, b := PyIndex(i, |s|), PyIndex(j, |s|);
    if a < b {
      forall x, y | 0 <= x < y < b - a ensures s[a..b][x] < s[a..b][y] {
        assert s[a..b][x] == s[a + x] && s[a..b][y] == s[a + y];
      }
    }
  }

  lemma PidSetSnoc(names: seq<string>, name: string)
    requires AllParse(names) && ParseName(name).Some?
    ensures AllParse(names + [name])
    ensures PidSetOf(names + [name]) == PidSetOf(names) + {RawPid(name)}
  {
    assert forall x :: x in names + [name] <==> x in names || x == name;
  }

  lemma {:induction false} LabelErrPersists(names: seq<string>, m: nat, sel: seq<nat>, relabel: bool, delLabels: bool)
    requires AllParse(names) && m <= |names|
    requires forall name :: name in names[..m] ==> name in names
    requires LabelSamples(names[..m], sel, relabel, delLabels) == Err(UnknownCamera)
    ensures LabelSamples(names, sel, relabel, delLabels) == Err(UnknownCamera)
    decreases |names|
  {
    if m == |names| {
      assert names[..m] == names;
    } else {
      var n := |names| - 1;
      assert names[..n][..m] == names[..m];
      assert forall name :: name in names[..n] ==> name in names;
      LabelErrPersists(names[..n], m, sel, relabel, delLabels);
    }
  }

  /** First loop of `process_dir`: parses every name and collects the
      identities; a name without a match raises. */
  method CollectPids(names: seq<string>) returns (r: Option<set<nat>>)
    ensures r.Some? <==> AllParse(names)
    ensures r.Some? ==> AllParse(names) && r.value == PidSetOf(names)
  {
    var pidContainer: set<nat> := {};
    for i := 0 to |names|
      invariant AllParse(names[..i])
      invariant pidContainer == PidSetOf(names[..i])
    {
      var parsed := ParseName(names[i]);
      if parsed.None? {
        assert names[i] in names;
        return None;
      }
      assert names[..i + 1] == names[..i] + [names[i]];
      PidSetSnoc(names[..i], names[i]);
      pidContainer := pidContainer + {parsed.value.0};
    }
    assert names[..|names|] == names;
    r := Some(pidContainer);
  }

  /** Second loop of `process_dir`: labels every file whose identity is in
      the selection, using `pid2label` when relabelling. */
  method LabelFiles(names: seq<string>, sel: seq<nat>, relabel: bool, delLabels: bool)
    returns (r: Result<seq<Sample>, Error>)
    requires AllParse(names)
    ensures r == LabelSamples(names, sel, relabel, delLabels)
  {
    var pid2label := Pid2Label(sel);
    var data: seq<Sample> := [];
    for i := 0 to |names|
      invariant forall name :: name in names[..i] ==> name in names
      invariant LabelSamples(names[..i], sel, relabel, delLabels) == Ok(data)
    {
      assert names[..i + 1][..i] == names[..i];
      assert forall name :: name in names[..i + 1] ==> name in names;
      var pid, camid := RawPid(names[i]), RawCam(names[i]);
      if pid !in sel {
        continue;
      }
      if camid !in Cam2Label {
        LabelErrPersists(names, i + 1, sel, relabel, delLabels);
        return Err(UnknownCamera);
      }
      var cam := Cam2Label[camid];
      cam := cam - 1;
      if !delLabels {
        if relabel {
          pid := pid2label[pid];
        }
        data := data + [Sample(names[i], pid, cam)];
      } else {
        data := data + [Sample(names[i], 0, cam)];
      }
    }
    assert names[..|names|] == names;
    r := Ok(data);
  }

  /** `process_dir`: collects and sorts the identities, keeps the range
      `[round(n * lo), round(n * hi))`, which must not be empty, then labels
      the files. */
  method ProcessDir(names: seq<string>, lo: real, hi: real, relabel: bool, delLabels: bool)
    returns (r: Result<seq<Sample>, Error>)
    ensures r == ProcessDirSpec(names, lo, hi, relabel, delLabels)
  {
    var pidContainer := CollectPids(names);
    if pidContainer.None? {
      return Err(NoMatch);
    }
    var sortedPids := SortedPids(pidContainer.value);
    var n := |sortedPids|;
    var startId := PyRound(Scale(n, lo));
    var endId := PyRound(Scale(n, hi));
    var sel := PySlice(sortedPids, startId, endId);
    SelectionAt(names, lo, hi, startId, endId);
    if |sel| == 0 {
      return Err(EmptySelection);
    }
    r := LabelFiles(names, sel, relabel, delLabels);
  }

  // ---------------------------------------------------------------------
  // What `process_dir` produces.

  /** The image paths of a sample list. */
  function Paths(out: seq<Sample>): (ps: seq<string>)
    ensures |ps| == |out| && forall k :: 0 <= k < |out| ==> ps[k] == out[k].path
  {
    seq(|out|, k requires 0 <= k < |out| => out[k].path)
  }

  /** Whether a file name parses and its identity is in the selection. */
  predicate Selected(name: string, sel: seq<nat>)
  {
    match ParseName(name)
    case None => false
    case Some(ids) => ids.0 in sel
  }

  /** The file names whose identity is selected, in file order. */
  ghost function KeptNames(names: seq<string>, sel: seq<nat>): seq<string>
    decreases |names|
  {
    if |names| == 0 then []
    else
      var n := |names| - 1;
      KeptNames(names[..n], sel) + (if Selected(names[n], sel) then [names[n]] else [])
  }

  /** What one output sample of `process_dir` satisfies: its file parses, its
      identity was selected, its camera is the mapped raw camera, in
      `[0, 6)`, and its pid is 0 when labels are deleted, the identity's rank
      in the selection when relabelling, and the raw identity otherwise. */
  ghost predicate Labelled(s: Sample, sel: seq<nat>, relabel: bool, delLabels: bool)
  {
    && ParseName(s.path).Some?
    && RawPid(s.path) in sel
    && RawCam(s.path) in Cam2Label
    && s.camid == Cam2Label[RawCam(s.path)] - 1
    && 0 <= s.camid < 6
    && (delLabels ==> s.pid == 0)
    && (!delLabels && relabel ==> 0 <= s.pid < |sel| && sel[s.pid] == RawPid(s.path))
    && (!delLabels && !relabel ==> s.pid == RawPid(s.path))
  }

  /** The second loop fails exactly when a selected file comes from an
      unknown camera; otherwise it yields one labelled sample per selected
      file, in file order, keeping the path. */
  lemma {:induction false} LabelSamplesSpec(names: seq<string>, sel: seq<nat>, relabel: bool, delLabels: bool)
    requires AllParse(names)
    ensures var r := LabelSamples(names, sel, relabel, delLabels);
      && (r.Err? <==> exists name :: name in names && RawPid(name) in sel && RawCam(name) !in Cam2Label)
      && (r.Err? ==> r.error == UnknownCamera)
      && (r.Ok? ==> Paths(r.value) == KeptNames(names, sel))
      && (r.Ok? ==> forall s :: s in r.value ==> Labelled(s, sel, relabel, delLabels))
    decreases |names|
  {
    if |names| > 0 {
      var n := |names| - 1;
      var init, last := names[..n], names[n];
      assert names == init + [last];
      assert forall name :: name in names <==> name in init || name == last;
      LabelSamplesSpec(init, sel, relabel, delLabels);
      var r := LabelSamples(names, sel, relabel, delLabels);
      var pr := LabelSamples(init, sel, relabel, delLabels);
      if pr.Ok? && r.Ok? && RawPid(last) in sel {
        var x := Sample(last, Label(RawPid(last), sel, relabel, delLabels), Cam2Label[RawCam(last)] - 1);
        assert r.value == pr.value + [x];
        assert Paths(r.value) == Paths(pr.value) + [last];
        CameraMap();
        assert Labelled(x, sel, relabel, delLabels);
      }
    }
  }

  /** A successful `process_dir` returns, for the non-empty selection, one
      labelled sample per selected file, in file order. */
  lemma ProcessDirOutput(names: seq<string>, lo: real, hi: real, relabel: bool, delLabels: bool)
    requires ProcessDirSpec(names, lo, hi, relabel, delLabels).Ok?
    ensures AllParse(names) && |Selection(names, lo, hi)| > 0 && StrictlyIncreasing(Selection(names, lo, hi))
    ensures var out := ProcessDirSpec(names, lo, hi, relabel, delLabels).value;
      var sel := Selection(names, lo, hi);
      && Paths(out) == KeptNames(names, sel)
      && forall s :: s in out ==> Labelled(s, sel, relabel, delLabels)
  {
    SelectionIncreasing(names, lo, hi);
    LabelSamplesSpec(names, Selection(names, lo, hi), relabel, delLabels);
  }

  /** Files kept for two disjoint selections together are the files kept for
      their concatenation. */
  lemma {:induction false} KeptNamesPartition(names: seq<string>, a: seq<nat>, b: seq<nat>)
    requires Disjoint(a, b)
    ensures multiset(KeptNames(names, a)) + multiset(KeptNames(names, b)) == multiset(KeptNames(names, a + b))
    decreases |names|
  {
    if |names| > 0 {
      var n := |names| - 1;
      var init, last := names[..n], names[n];
      KeptNamesPartition(init, a, b);
      KeptStep(a, b, last);
      MultisetSumStep(KeptNames(init, a), KeptNames(init, b), KeptNames(init, a + b),
        if Selected(last, a) then [last] else [],
        if Selected(last, b) then [last] else [],
        if Selected(last, a + b) then [last] else []);
    }
  }

  lemma MultisetSumStep<T>(x: seq<T>, y: seq<T>, z: seq<T>, dx: seq<T>, dy: seq<T>, dz: seq<T>)
    requires multiset(x) + multiset(y) == multiset(z)
    requires multiset(dx) + multiset(dy) == multiset(dz)
    ensures multiset(x + dx) + multiset(y + dy) == multiset(z + dz)
  {
  }

  lemma KeptStep(a: seq<nat>, b: seq<nat>, name: string)
    requires Disjoint(a, b)
    ensures multiset(if Selected(name, a) then [name] else []) + multiset(if Selected(name, b) then [name] else [])
         == multiset(if Selected(name, a + b) then [name] else [])
  {
    if ParseName(name).Some? {
      var p := ParseName(name).value.0;
      assert p in a + b <==> p in a || p in b;
    }
  }

  // ---------------------------------------------------------------------
  // The split table of the PersonX constructor.

  /** The image folders of the dataset. */
  datatype Folder = BoundingBoxTrain | QueryFolder | BoundingBoxTest

  /** The full paths of the `*.jpg` files of each folder, as `glob` returns
      them, in listing order. */
  datatype Layout = Layout(boundingBoxTrain: seq<string>, query: seq<string>, boundingBoxTest: seq<string>)

  function Files(layout: Layout, folder: Folder): seq<string>
  {
    match folder
    case BoundingBoxTrain => layout.boundingBoxTrain
    case QueryFolder => layout.query
    case BoundingBoxTest => layout.boundingBoxTest
  }

  /** One row of `subsets_cfgs`: folder, identity range and relabel flag. */
  datatype SubsetConfig = SubsetConfig(folder: Folder, lo: real, hi: real, relabel: bool)

  /** `subsets_cfgs[mode]`. */
  function SubsetsCfg(mode: string, valSplit: real): Option<SubsetConfig>
  {
    if mode == "train" then Some(SubsetConfig(BoundingBoxTrain, 0.0, 1.0 - valSplit, true))
    else if mode == "val" then Some(SubsetConfig(BoundingBoxTrain, 1.0 - valSplit, 1.0, false))
    else if mode == "trainval" then Some(SubsetConfig(BoundingBoxTrain, 0.0, 1.0, true))
    else if mode == "query" then Some(SubsetConfig(QueryFolder, 0.0, 1.0, false))
    else if mode == "gallery" then Some(SubsetConfig(BoundingBoxTest, 0.0, 1.0, false))
    else None
  }

  /** Only the five split names are accepted; each range lies within
      `[0, 1]` for an admissible `val_split`; only `train` and `trainval`
      relabel; the three training splits read the training folder. */
  lemma SubsetsCfgSpec(mode: string, valSplit: real)
    ensures var r := SubsetsCfg(mode, valSplit);
      && (r.Some? <==> mode in ["train", "val", "trainval", "query", "gallery"])
      && (r.Some? && 0.0 < valSplit < 1.0 ==> 0.0 <= r.value.lo <= r.value.hi <= 1.0)
      && (r.Some? ==> (r.value.relabel <==> mode == "train" || mode == "trainval"))
      && (r.Some? ==> (r.value.folder == BoundingBoxTrain <==> mode in ["train", "val", "trainval"]))
  {
  }

  lemma SelectRangeIs(pids: seq<nat>, lo: real, hi: real, i: nat, j: nat)
    requires Round(Scale(|pids|, lo)) == i && Round(Scale(|pids|, hi)) == j
    requires i <= j <= |pids|
    ensures SelectRange(pids, lo, hi) == pids[i..j]
  {
  }

  ghost predicate Disjoint(a: seq<nat>, b: seq<nat>)
  {
    forall x :: x in a ==> x !in b
  }

  /** A cut point `mid` of `[0, 1]` rounds to an index in `[0, n]`; the outer
      bounds round to `0` and `n`. */
  lemma SplitBoundary(n: nat, mid: real)
    requires 0.0 <= mid <= 1.0
    ensures 0 <= Round(Scale(n, mid)) <= n
    ensures Round(Scale(n, 0.0)) == 0 && Round(Scale(n, 1.0)) == n
  {
    ScaleBetween(n, mid);
    ScaleBetween(n, 0.0);
    ScaleBetween(n, 1.0);
    RoundWithin(n, Scale(n, 0.0));
    RoundWithin(n, Scale(n, 1.0));
    RoundWithin(n, Scale(n, mid));
  }

  /** Cutting `[0, 1]` at `mid`: the two ranges meet at the same index
      `round(n * mid)`, and together they are the whole range, which is every
      identity. */
  lemma SplitRange(pids: seq<nat>, mid: real)
    requires 0.0 <= mid <= 1.0
    ensures SelectRange(pids, 0.0, mid) + SelectRange(pids, mid, 1.0) == SelectRange(pids, 0.0, 1.0) == pids
  {
    var n := |pids|;
    SplitBoundary(n, mid);
    var b := Round(Scale(n, mid));
    SelectRangeIs(pids, 0.0, mid, 0, b);
    SelectRangeIs(pids, mid, 1.0, b, n);
    SelectRangeIs(pids, 0.0, 1.0, 0, n);
    assert pids[0..b] + pids[b..n] == pids;
  }

  /** Two pieces of an increasing list whose concatenation is the list share
      no identity. */
  lemma PiecesDisjoint(pids: seq<nat>, a: seq<nat>, b: seq<nat>)
    requires StrictlyIncreasing(pids) && a + b == pids
    ensures Disjoint(a, b)
  {
    forall y | y in a ensures y !in b {
      var i :| 0 <= i < |a| && a[i] == y;
      assert pids[i] == y;
      forall j | 0 <= j < |b| ensures b[j] != y {
        assert b[j] == pids[|a| + j];
      }
    }
  }

  /** The `train`, `val` and `trainval` rows of the table: all three read
      the training folder, and `train` and `val` meet at `1 - val_split`. */
  lemma TrainValRows(v: real)
    ensures SubsetsCfg("train", v) == Some(SubsetConfig(BoundingBoxTrain, 0.0, 1.0 - v, true))
    ensures SubsetsCfg("val", v) == Some(SubsetConfig(BoundingBoxTrain, 1.0 - v, 1.0, false))
    ensures SubsetsCfg("trainval", v) == Some(SubsetConfig(BoundingBoxTrain, 0.0, 1.0, true))
  {
  }

  /** Cutting `[0, 1]` at `mid`, the identities the two ranges select from
      one folder are disjoint and make up those of the whole range. */
  lemma SplitPartition(names: seq<string>, mid: real)
    requires 0.0 <= mid <= 1.0
    requires AllParse(names)
    ensures var a, b := Selection(names, 0.0, mid), Selection(names, mid, 1.0);
      && a + b == Selection(names, 0.0, 1.0)
      && Disjoint(a, b)
  {
    var pids := SortedPids(PidSetOf(names));
    SplitRange(pids, mid);
    PiecesDisjoint(pids, SelectRange(pids, 0.0, mid), SelectRange(pids, mid, 1.0));
  }

  /** The samples of a PersonX split: `val_split` is checked, the split name
      looked up, and the folder processed with that row's range and flag. */
  ghost function LoadSpec(layout: Layout, mode: string, valSplit: real, delLabels: bool): Result<seq<Sample>, Error>
  {
    if !(0.0 < valSplit < 1.0) then Err(BadValSplit)
    else
      match SubsetsCfg(mode, valSplit)
      case None => Err(InvalidMode)
      case Some(cfg) => ProcessDirSpec(Files(layout, cfg.folder), cfg.lo, cfg.hi, cfg.relabel, delLabels)
  }

  /** When labelling one folder succeeds for two selections, it succeeds for
      their concatenation: every file that one selects had its camera checked
      by the labelling for that selection. */
  lemma LabelledUnionOk(names: seq<string>, a: seq<nat>, b: seq<nat>, ra: bool, rb: bool, rab: bool, delLabels: bool)
    requires AllParse(names)
    requires LabelSamples(names, a, ra, delLabels).Ok? && LabelSamples(names, b, rb, delLabels).Ok?
    ensures LabelSamples(names, a + b, rab, delLabels).Ok?
  {
    LabelSamplesSpec(names, a, ra, delLabels);
    LabelSamplesSpec(names, b, rb, delLabels);
    LabelSamplesSpec(names, a + b, rab, delLabels);
    forall name | name in names && RawPid(name) in a + b
      ensures RawCam(name) in Cam2Label
    {
      assert RawPid(name) in a || RawPid(name) in b;
    }
  }

  /** Labelling one folder for two disjoint selections succeeds for their
      concatenation when it succeeds for both, and the images of the two
      together are the images of the concatenation, whatever the flags. */
  lemma LabelledPartition(names: seq<string>, a: seq<nat>, b: seq<nat>, ra: bool, rb: bool, rab: bool, delLabels: bool)
    requires AllParse(names) && Disjoint(a, b)
    requires LabelSamples(names, a, ra, delLabels).Ok? && LabelSamples(names, b, rb, delLabels).Ok?
    ensures LabelSamples(names, a + b, rab, delLabels).Ok?
    ensures multiset(Paths(LabelSamples(names, a, ra, delLabels).value))
          + multiset(Paths(LabelSamples(names, b, rb, delLabels).value))
         == multiset(Paths(LabelSamples(names, a + b, rab, delLabels).value))
  {
    LabelledUnionOk(names, a, b, ra, rb, rab, delLabels);
    LabelSamplesSpec(names, a, ra, delLabels);
    LabelSamplesSpec(names, b, rb, delLabels);
    LabelSamplesSpec(names, a + b, rab, delLabels);
    KeptNamesPartition(names, a, b);
  }

  /** Cutting `[0, 1]` at one point into a first and a second range: when
      processing one folder succeeds for both ranges, it succeeds for the
      whole range, and the images of the two ranges together are exactly the
      images of the whole range. */
  lemma SplitImages(names: seq<string>, first: SubsetConfig, second: SubsetConfig, whole: SubsetConfig, delLabels: bool)
    requires first.lo == whole.lo == 0.0 && second.hi == whole.hi == 1.0
    requires first.hi == second.lo && 0.0 <= first.hi <= 1.0
    requires ProcessDirSpec(names, first.lo, first.hi, first.relabel, delLabels).Ok?
    requires ProcessDirSpec(names, second.lo, second.hi, second.relabel, delLabels).Ok?
    ensures ProcessDirSpec(names, whole.lo, whole.hi, whole.relabel, delLabels).Ok?
    ensures multiset(Paths(ProcessDirSpec(names, first.lo, first.hi, first.relabel, delLabels).value))
          + multiset(Paths(ProcessDirSpec(names, second.lo, second.hi, second.relabel, delLabels).value))
         == multiset(Paths(ProcessDirSpec(names, whole.lo, whole.hi, whole.relabel, delLabels).value))
  {
    SplitPartition(names, first.hi);
    LabelledPartition(names, Selection(names, first.lo, first.hi), Selection(names, second.lo, second.hi),
      first.relabel, second.relabel, whole.relabel, delLabels);
  }

  /** For an admissible `val_split`, loading a split processes its row. */
  lemma LoadSpecRow(layout: Layout, mode: string, v: real, delLabels: bool, cfg: SubsetConfig)
    requires 0.0 < v < 1.0 && SubsetsCfg(mode, v) == Some(cfg)
    ensures LoadSpec(layout, mode, v, delLabels) == ProcessDirSpec(Files(layout, cfg.folder), cfg.lo, cfg.hi, cfg.relabel, delLabels)
  {
  }

  /** When `train` and `val` both load, `trainval` loads too, and the images
      of `train` and of `val` together are exactly the images of `trainval`. */
  lemma TrainValImages(layout: Layout, v: real, delLabels: bool)
    requires LoadSpec(layout, "train", v, delLabels).Ok?
    requires LoadSpec(layout, "val", v, delLabels).Ok?
    ensures LoadSpec(layout, "trainval", v, delLabels).Ok?
    ensures multiset(Paths(LoadSpec(layout, "train", v, delLabels).value))
          + multiset(Paths(LoadSpec(layout, "val", v, delLabels).value))
         == multiset(Paths(LoadSpec(layout, "trainval", v, delLabels).value))
  {
    TrainValRows(v);
    var tr, va, tv := SubsetsCfg("train", v).value, SubsetsCfg("val", v).value, SubsetsCfg("trainval", v).value;
    LoadSpecRow(layout, "train", v, delLabels, tr);
    LoadSpecRow(layout, "val", v, delLabels, va);
    LoadSpecRow(layout, "trainval", v, delLabels, tv);
    SplitImages(layout.boundingBoxTrain, tr, va, tv, delLabels);
  }

  /** `PersonX(root, mode, val_split, del_labels, sort=..., pseudo_labels=...)`:
      checks `val_split`, looks the split up, processes its folder and builds
      the dataset from the result. */
  method Open(layout: Layout, mode: string, valSplit: real, delLabels: bool, sort: bool, pseudoLabels: Option<seq<int>>)
    returns (r: Result<BaseDataset.CustomDataset, Error>)
    ensures LoadSpec(layout, mode, valSplit, delLabels).Err? ==>
      r == Err(LoadSpec(layout, mode, valSplit, delLabels).error)
    ensures LoadSpec(layout, mode, valSplit, delLabels).Ok? ==>
      var d := LoadSpec(layout, mode, valSplit, delLabels).value;
      && (r.Err? <==> pseudoLabels.Some? && |pseudoLabels.value| != |d|)
      && (r.Err? ==> r.error == Dataset(BaseDataset.LabelCountMismatch))
      && (r.Ok? ==> fresh(r.value) && r.value.Valid() && r.value.mode == mode)
      && (r.Ok? ==> r.value.allData == (if sort then SortSamples(d) else d))
      && (r.Ok? && pseudoLabels.None? ==> r.value.data == r.value.allData)
      && (r.Ok? && pseudoLabels.Some? ==> r.value.data == BaseDataset.Relabel(r.value.allData, pseudoLabels.value))
  {
    if !(0.0 < valSplit < 1.0) {
      return Err(BadValSplit);
    }
    var cfgs := SubsetsCfg(mode, valSplit);
    if cfgs.None? {
      return Err(InvalidMode);
    }
    var cfg := cfgs.value;
    var data := ProcessDir(Files(layout, cfg.folder), cfg.lo, cfg.hi, cfg.relabel, delLabels);
    if data.Err? {
      return Err(data.error);
    }
    var ds := BaseDataset.CustomDataset.Create(data.value, mode, sort, pseudoLabels);
    if ds.Err? {
      return Err(Dataset(ds.error));
    }
    r := Ok(ds.value);
  }
}
