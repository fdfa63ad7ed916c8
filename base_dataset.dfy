/** The generic dataset object of the re-identification data layer: a list of
    samples that may carry pseudo-labels, the untouched list it was built
    from, and the identity and camera counts of the current list. */
module BaseDataset {
  import opened Results
  import opened Samples

  /** Exceptions `CustomDataset` raises. */
  datatype Error =
    | LabelCountMismatch  // `renew_labels`: one pseudo-label per sample is required
    | IndexOutOfRange     // `data[index]` outside the list

  /** What `_get_single_item` returns, without the decoded image. */
  datatype Item = Item(path: string, id: int, cid: int, ind: int)

  // ---------------------------------------------------------------------
  // Pseudo-labelling, as a function of the original list and the labels.

  /** The list `renew_labels` builds: every sample whose label is not -1,
      in order, with its pid replaced by its label. */
  function Relabel(all: seq<Sample>, labels: seq<int>): (r: seq<Sample>)
    requires |labels| == |all|
    ensures |r| <= |all|
    decreases |all|
  {
    if |all| == 0 then []
    else
      var n := |all| - 1;
      var prefix := Relabel(all[..n], labels[..n]);
      if labels[n] != -1 then prefix + [Sample(all[n].path, labels[n], all[n].camid)]
      else prefix
  }

  /** Positions of the labels that are not -1, in increasing order. */
  function KeptIndices(labels: seq<int>): (r: seq<nat>)
    ensures forall k :: 0 <= k < |r| ==> r[k] < |labels|
    decreases |labels|
  {
    if |labels| == 0 then []
    else
      var n := |labels| - 1;
      KeptIndices(labels[..n]) + (if labels[n] != -1 then [n] else [])
  }

  /** The kept positions are exactly the positions whose label is not -1,
      listed in increasing order. */
  lemma {:induction false} KeptIndicesSpec(labels: seq<int>)
    ensures forall k, m :: 0 <= k < m < |KeptIndices(labels)| ==> KeptIndices(labels)[k] < KeptIndices(labels)[m]
    ensures forall i :: 0 <= i < |labels| ==> (labels[i] != -1 <==> i in KeptIndices(labels))
    decreases |labels|
  {
    if |labels| > 0 {
      var n := |labels| - 1;
      KeptIndicesSpec(labels[..n]);
      var p := KeptIndices(labels[..n]);
      assert forall i :: 0 <= i < n ==> labels[..n][i] == labels[i];
    }
  }

  /** `renew_labels` keeps exactly the samples at the kept positions, in
      order, each with its path and camera and with its label as pid. */
  lemma {:induction false} RelabelAt(all: seq<Sample>, labels: seq<int>)
    requires |labels| == |all|
    ensures |Relabel(all, labels)| == |KeptIndices(labels)|
    ensures forall k :: 0 <= k < |Relabel(all, labels)| ==>
      var i := KeptIndices(labels)[k];
      Relabel(all, labels)[k] == Sample(all[i].path, labels[i], all[i].camid)
    decreases |all|
  {
    if |all| > 0 {
      var n := |all| - 1;
      RelabelAt(all[..n], labels[..n]);
    }
  }

  /** No sample of the relabelled list has pid -1, and every camera in it
      is a camera of the original list. */
  lemma {:induction false} RelabelLabels(all: seq<Sample>, labels: seq<int>)
    requires |labels| == |all|
    ensures -1 !in Pids(Relabel(all, labels))
    ensures Cams(Relabel(all, labels)) <= Cams(all)
    decreases |all|
  {
    if |all| > 0 {
      var n := |all| - 1;
      RelabelLabels(all[..n], labels[..n]);
      var prefix := Relabel(all[..n], labels[..n]);
      assert all == all[..n] + [all[n]];
      PidsCamsSnoc(all[..n], all[n]);
      if labels[n] != -1 {
        PidsCamsSnoc(prefix, Sample(all[n].path, labels[n], all[n].camid));
      }
    }
  }

  // ---------------------------------------------------------------------

  /** `CustomDataset`: `data` is the (possibly pseudo-labelled) list served to
      the training loop, `allData` the list as it stood at construction. */
  class CustomDataset {
    var data: seq<Sample>
    var allData: seq<Sample>
    var mode: string
    var numPids: nat
    var numCams: nat

    /** The counts describe the current list, and pseudo-labelling never
        lengthens the list. */
    ghost predicate Valid()
      reads this
    {
      numPids == |Pids(data)| && numCams == |Cams(data)| && |data| <= |allData|
    }

    /** `__init__` without pseudo-labels: counts taken from the input list,
        which is then sorted if asked; `all_data` is a copy of the result. */
    constructor (input: seq<Sample>, mode: string, sort: bool)
      ensures Valid()
      ensures data == allData == (if sort then SortSamples(input) else input)
      ensures this.mode == mode
      ensures numPids == |Pids(input)| && numCams == |Cams(input)|
    {
      var p, c := ParseData(input);
      SortSamplesSpec(input);
      this.data := if sort then SortSamples(input) else input;
      this.allData := this.data;
      this.mode := mode;
      this.numPids, this.numCams := p, c;
    }

    /** `__init__` with an optional list of pseudo-labels, applied by
        `renew_labels`; a label list of the wrong length raises. */
    static method Create(input: seq<Sample>, mode: string, sort: bool, pseudoLabels: Option<seq<int>>)
      returns (r: Result<CustomDataset, Error>)
      ensures r.Err? <==> pseudoLabels.Some? && |pseudoLabels.value| != |input|
      ensures r.Err? ==> r.error == LabelCountMismatch
      ensures r.Ok? ==> fresh(r.value) && r.value.Valid() && r.value.mode == mode
      ensures r.Ok? ==> r.value.allData == (if sort then SortSamples(input) else input)
      ensures r.Ok? && pseudoLabels.None? ==> r.value.data == r.value.allData
      ensures r.Ok? && pseudoLabels.Some? ==> r.value.data == Relabel(r.value.allData, pseudoLabels.value)
    {
      var ds := new CustomDataset(input, mode, sort);
      if pseudoLabels.Some? {
        var ok := ds.RenewLabels(pseudoLabels.value);
        if !ok {
          return Err(LabelCountMismatch);
        }
      }
      r := Ok(ds);
    }

    /** `renew_labels`: rebuilds `data` from `all_data`, dropping the samples
        labelled -1 and giving the others their label as pid, then recounts.
        A label list whose length differs from `all_data` is rejected and
        nothing changes. */
    method RenewLabels(pseudoLabels: seq<int>) returns (ok: bool)
      requires Valid()
      modifies this
      ensures Valid()
      ensures allData == old(allData) && mode == old(mode)
      ensures ok <==> |pseudoLabels| == |allData|
      ensures ok ==> data == Relabel(allData, pseudoLabels)
      ensures !ok ==> data == old(data) && numPids == old(numPids) && numCams == old(numCams)
    {
      if |pseudoLabels| != |allData| {
        return false;
      }
      var acc: seq<Sample> := [];
      for i := 0 to |allData|
        invariant acc == Relabel(allData[..i], pseudoLabels[..i])
      {
        assert allData[..i + 1][..i] == allData[..i];
        assert pseudoLabels[..i + 1][..i] == pseudoLabels[..i];
        if pseudoLabels[i] != -1 {
          acc := acc + [Sample(allData[i].path, pseudoLabels[i], allData[i].camid)];
        }
      }
      assert allData[..|allData|] == allData;
      assert pseudoLabels[..|pseudoLabels|] == pseudoLabels;
      data := acc;
      numPids, numCams := ParseData(data);
      ok := true;
    }

    /** `__add__`: a new unsorted, unlabelled dataset over both lists, used to
        join query and gallery. */
    method Add(other: CustomDataset) returns (r: CustomDataset)
      ensures fresh(r) && r.Valid()
      ensures r.data == r.allData == data + other.data
      ensures |r.data| == |data| + |other.data|
      ensures r.mode == mode + "+" + other.mode
    {
      r := new CustomDataset(data + other.data, mode + "+" + other.mode, false);
    }

    /** `__len__`: the length of the current list, which bounds both counts. */
    function Length(): (n: nat)
      reads this
      requires Valid()
      ensures n == |data| && numPids <= n && numCams <= n
    {
      CountsBounded(data);
      |data|
    }

    /** `_get_single_item`: the sample at a Python index (negative counts from
        the end), with the index it was asked for. */
    function GetItem(index: int): (r: Result<Item, Error>)
      reads this
      ensures r.Ok? <==> -|data| <= index < |data|
      ensures r.Err? ==> r.error == IndexOutOfRange
      ensures r.Ok? ==> r.value.ind == index && Sample(r.value.path, r.value.id, r.value.cid) in data
      ensures r.Ok? && 0 <= index ==> Sample(r.value.path, r.value.id, r.value.cid) == data[index]
      ensures r.Ok? && index < 0 ==> Sample(r.value.path, r.value.id, r.value.cid) == data[|data| + index]
    {
      if -|data| <= index < |data| then
        var s := data[if index < 0 then index + |data| else index];
        Ok(Item(s.path, s.pid, s.camid, index))
      else Err(IndexOutOfRange)
    }

    /** `__getitem__` on a list of indices: one item per index, in order; the
        first bad index raises. */
    function GetItems(indices: seq<int>): (r: Result<seq<Item>, Error>)
      reads this
      ensures r.Ok? <==> forall k :: 0 <= k < |indices| ==> GetItem(indices[k]).Ok?
      ensures r.Ok? ==> |r.value| == |indices|
      ensures r.Ok? ==> forall k :: 0 <= k < |indices| ==> GetItem(indices[k]) == Ok(r.value[k])
      decreases |indices|
    {
      if indices == [] then Ok([])
      else
        match GetItem(indices[0])
        case Err(e) => Err(e)
        case Ok(item) =>
          match GetItems(indices[1..])
          case Err(e) => Err(e)
          case Ok(rest) =>
            assert forall k :: 1 <= k < |indices| ==> indices[k] == indices[1..][k - 1];
            Ok([item] + rest)
    }
  }

  /** The identities and cameras of `a + b` are those of `a` and of `b`, so
      the joined dataset's counts are at most the sums of the parts'. */
  lemma AddCounts(a: seq<Sample>, b: seq<Sample>)
    ensures Pids(a + b) == Pids(a) + Pids(b) && Cams(a + b) == Cams(a) + Cams(b)
    ensures |Pids(a + b)| <= |Pids(a)| + |Pids(b)| && |Cams(a + b)| <= |Cams(a)| + |Cams(b)|
  {
    PidsCamsAppend(a, b);
  }
}
