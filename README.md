# OpenUnReID dataset bookkeeping in Dafny

This project models two parts of the OpenUnReID data layer. The first is
`CustomDataset`, the generic dataset object. It holds a list of
`(img_path, pid, camid)` samples and counts its distinct identities and
cameras. It can sort the list, keep an untouched copy (`all_data`), replace
identities with pseudo-labels (dropping the samples labelled -1), join two
datasets and serve single samples. The second part is the PersonX loader. Its
constructor picks a folder, an identity range and a relabel flag from a
five-row split table. `process_dir` then parses `<pid>_c<cam>` out of every
file name, sorts the identities, keeps the identities of the rounded
fractional range, maps the six PersonX cameras to `0..5`, and labels each
kept file.

Modules:

- `Results` holds `Option` and `Result`.
- `Samples` holds the sample tuple, the identity and camera sets that
  `parse_data` counts, and Python's ordering of sample tuples with the
  `sorted` it induces.
- `BaseDataset` holds the `CustomDataset` class and the pseudo-labelling
  function that specifies `renew_labels`.
- `FileNames` holds the `([\d]+)_c([\d]+)` search and the decimal value of
  its groups.
- `PersonX` holds rounding, slicing, the split table and `process_dir`.
  `process_dir` appears twice: as two loops proved equal to a specification
  function, and with lemmas about what that function returns.

Which properties hold:

- Pseudo-labelling keeps exactly the samples whose label is not -1, in order.
- The counts always describe the current list.
- `sorted` yields the unique sorted permutation of the list.
- File names of the PersonX layout parse back to the numbers they spell.
- `process_dir` fails exactly when a name has no match, the identity range is
  empty, or a selected file comes from an unknown camera.
- Otherwise `process_dir` returns one sample per selected file, in file
  order. Each camera is in `[0, 6)`. Each pid is the identity's rank in the
  selection when relabelling.
- For any admissible `val_split`, `train` and `val` share no identity.
- Whenever `train` and `val` both load, `trainval` loads too, and the images
  of `train` and `val` together are exactly those of `trainval`.

## Model

| member | source | states |
|---|---|---|
| Samples.ParseData | openunreid/data/utils/base_dataset.py:73-84 | the two counts are the numbers of distinct pids and distinct camids in the list |
| Samples.CountsBounded | openunreid/data/utils/base_dataset.py:79-84 | both counts are at most the list length and are 0 for an empty list |
| Samples.CountsOfPermutation | openunreid/data/utils/base_dataset.py:27-30 | a permutation of the list has the same identity and camera sets, so counting before sorting gives the counts of the sorted list |
| Samples.StrLt | openunreid/data/utils/base_dataset.py:30 | Python's `<` on strings, which `sorted` uses for paths: lexicographic on code points, a proper prefix being smaller |
| Samples.SampleLt | openunreid/data/utils/base_dataset.py:30 | Python's `<` on `(img_path, pid, camid)` tuples: by path, then pid, then camid |
| Samples.StrLtTotal | openunreid/data/utils/base_dataset.py:29-30 | Python's string order on paths is total: two different strings are ordered one way or the other |
| Samples.StrLtTransitive | openunreid/data/utils/base_dataset.py:29-30 | Python's string order on paths is transitive |
| Samples.SampleLtStrictTotal | openunreid/data/utils/base_dataset.py:29-30 | the tuple order (path, then pid, then camid) is a strict total order on samples |
| Samples.InsertSorted | openunreid/data/utils/base_dataset.py:29-30 | inserting a sample into a sorted list keeps it sorted |
| Samples.SortSamples | openunreid/data/utils/base_dataset.py:29-30 | `sorted(self.data)` as insertion sort under the tuple order; its contract says the result is a permutation of the input, and `SortSamplesSpec` proves it sorted and unique |
| Samples.SortSamplesSpec | openunreid/data/utils/base_dataset.py:29-30 | `sorted(data)` is sorted and a permutation of `data` with the same identity and camera sets, and it is the only sorted permutation |
| BaseDataset.KeptIndicesSpec | openunreid/data/utils/base_dataset.py:123-126 | the kept positions are increasing, and a position is kept iff its label is not -1 |
| BaseDataset.Relabel | openunreid/data/utils/base_dataset.py:123-126 | the list `renew_labels` builds: each sample whose label is not -1, in order, with its label as pid; its contract bounds its length by the input's, and `RelabelAt` gives it exactly |
| BaseDataset.RelabelAt | openunreid/data/utils/base_dataset.py:123-127 | the relabelled list holds, in order, one sample per kept position, with that sample's path and camera and its label as pid |
| BaseDataset.RelabelLabels | openunreid/data/utils/base_dataset.py:123-128 | no relabelled sample has pid -1, and every camera after relabelling was a camera before |
| BaseDataset.CustomDataset.constructor | openunreid/data/utils/base_dataset.py:22-34 | the counts come from the input list, `data` and `all_data` both equal the input, sorted when asked, and the mode is stored |
| BaseDataset.CustomDataset.Create | openunreid/data/utils/base_dataset.py:22-37 | construction fails iff pseudo-labels are given whose count differs from the list length; otherwise `all_data` is the (sorted) input and `data` is that list, relabelled when labels are given |
| BaseDataset.CustomDataset.RenewLabels | openunreid/data/utils/base_dataset.py:117-128 | a label list of the wrong length is rejected and changes nothing; otherwise `data` becomes the relabelling of `all_data` and the counts describe it; `all_data` never changes |
| BaseDataset.CustomDataset.Add | openunreid/data/utils/base_dataset.py:60-71 | the joined dataset holds the concatenation, unsorted and unlabelled, with mode `a+b` |
| BaseDataset.AddCounts | openunreid/data/utils/base_dataset.py:60-71 | the joined identities and cameras are the unions of the parts', so the joined counts are at most the sums |
| BaseDataset.CustomDataset.Length | openunreid/data/utils/base_dataset.py:47-48 | `len` is the length of the current list and bounds both counts |
| BaseDataset.CustomDataset.GetItem | openunreid/data/utils/base_dataset.py:98-115 | a Python index (negatives count from the end) succeeds iff it is in range and returns that sample's path, id and camera with the index asked for |
| BaseDataset.CustomDataset.GetItems | openunreid/data/utils/base_dataset.py:42-45 | a list of indices succeeds iff every index does, and yields the single items in order |
| FileNames.NatToDigits | openunreid/data/datasets/personx.py:87 | the decimal spelling of a number is a non-empty run of `\d` characters |
| FileNames.DigitsValue | openunreid/data/datasets/personx.py:92 | `int()` of a run of decimal digits, most significant first |
| FileNames.DigitsRoundTrip | openunreid/data/datasets/personx.py:92 | `int` of the decimal spelling of `n` is `n` |
| FileNames.LeadingZeros | openunreid/data/datasets/personx.py:92 | leading zeros do not change the value `int` gives a digit group |
| FileNames.FirstMatch | openunreid/data/datasets/personx.py:87-92 | `pattern.search` returns the leftmost position where the pattern matches, and none when no position matches |
| FileNames.ParseName | openunreid/data/datasets/personx.py:87-92 | `map(int, pattern.search(path).groups())`: the two groups of the leftmost match as integers, and no value where `search` finds nothing |
| FileNames.ParseLabelledName | openunreid/data/datasets/personx.py:87-92 | a name `<dir>/<pid>_c<cam><rest>` with a directory part that cannot start a match parses to the pid and camera it spells |
| PersonX.RoundingExists | openunreid/data/datasets/personx.py:99-100 | every real has a round-half-to-even integer |
| PersonX.RoundingUnique | openunreid/data/datasets/personx.py:99-100 | that integer is unique |
| PersonX.Round | openunreid/data/datasets/personx.py:99-100 | `round()` on an exact real: the unique nearest integer with ties to even (`RoundIsRounding`, `RoundingUnique`) |
| PersonX.PyRound | openunreid/data/datasets/personx.py:99-100 | `int(round(x))`, computed from the floor of `x + 1/2`, is the nearest integer with ties to even |
| PersonX.ScaleIsProduct | openunreid/data/datasets/personx.py:99-100 | the repeated-addition product is `len(pid_container) * data_range[i]` |
| PersonX.ScaleBetween | openunreid/data/datasets/personx.py:99-100 | a fraction in `[0, 1]` of `n` lies in `[0, n]`, and the fractions 0 and 1 give 0 and `n` |
| PersonX.RoundWithin | openunreid/data/datasets/personx.py:99-100 | rounding a point of `[0, n]` stays in `[0, n]`, and 0 and `n` round to themselves |
| PersonX.PyIndex | openunreid/data/datasets/personx.py:101 | a slice bound counts negatives from the end, is clamped to `[0, n]` (0 below `-n`, `n` above `n`), and is unchanged when already in range |
| PersonX.PySlice | openunreid/data/datasets/personx.py:101 | `s[i:j]` is the slice between the clamped bounds `PyIndex(i)` and `PyIndex(j)`, empty when they do not increase, and `s[i..j]` for in-range bounds |
| PersonX.MinOf | openunreid/data/datasets/personx.py:96 | a non-empty identity set has a least element |
| PersonX.SortedPids | openunreid/data/datasets/personx.py:96 | `sorted(pid_container)` is strictly increasing and holds exactly the identities of the set |
| PersonX.LastIndex | openunreid/data/datasets/personx.py:104 | the last position of an identity in the selection |
| PersonX.Pid2Label | openunreid/data/datasets/personx.py:104 | `pid2label` has exactly the selected identities as keys, each mapped to a position holding it |
| PersonX.Pid2LabelRank | openunreid/data/datasets/personx.py:104 | over an increasing selection, `pid2label` maps each identity to its rank |
| PersonX.CameraMap | openunreid/data/datasets/personx.py:88 | `cam2label` minus one maps the cameras 3, 4, 8, 10, 11 and 12 one-to-one into `[0, 6)` |
| PersonX.Cam2Label | openunreid/data/datasets/personx.py:88 | the `cam2label` dictionary, raw cameras 3, 4, 8, 10, 11, 12 mapped to 1..6 |
| PersonX.SelectionIncreasing | openunreid/data/datasets/personx.py:96-101 | the selected identities are strictly increasing |
| PersonX.CollectPids | openunreid/data/datasets/personx.py:90-95 | the first loop succeeds iff every name matches, and then returns the set of parsed identities |
| PersonX.LabelFiles | openunreid/data/datasets/personx.py:106-124 | the second loop returns what the labelling function returns for the names and the selection |
| PersonX.Label | openunreid/data/datasets/personx.py:116-122 | the pid a kept file receives: 0 when labels are deleted, `pid2label[pid]` when relabelling, the raw pid otherwise |
| PersonX.LabelSamples | openunreid/data/datasets/personx.py:106-124 | the second loop as a function: one sample per file whose pid is selected, in file order, with an error at the first selected file from an unknown camera; `LabelSamplesSpec` states its properties |
| PersonX.ProcessDir | openunreid/data/datasets/personx.py:85-124 | the method returns what the `process_dir` specification function returns |
| PersonX.ProcessDirSpec | openunreid/data/datasets/personx.py:85-124 | `process_dir` as a function: no match, an empty selection or an unknown camera is an error, otherwise the labelled samples of the selection; `ProcessDirOutput` states its properties |
| PersonX.LabelSamplesSpec | openunreid/data/datasets/personx.py:106-124 | labelling fails iff a selected file has an unknown camera; otherwise it returns the selected files in file order, each with a mapped camera in `[0, 6)` and pid 0, the rank or the raw identity as the flags say |
| PersonX.ProcessDirOutput | openunreid/data/datasets/personx.py:96-124 | a successful `process_dir` had every name parse and a non-empty increasing selection, and returns one labelled sample per selected file, in file order |
| PersonX.KeptNamesPartition | openunreid/data/datasets/personx.py:109-110 | for two disjoint selections, the files kept by each together are the files kept by their union |
| PersonX.SubsetsCfgSpec | openunreid/data/datasets/personx.py:48-77 | exactly the five split names are accepted; ranges lie in `[0, 1]` for an admissible `val_split`; only `train` and `trainval` relabel; only `query` and `gallery` read other folders |
| PersonX.SubsetsCfg | openunreid/data/datasets/personx.py:48-73 | `subsets_cfgs[mode]`: the folder, range and relabel flag of each of the five split names, and no value for any other name; `SubsetsCfgSpec` states its properties |
| PersonX.TrainValRows | openunreid/data/datasets/personx.py:48-63 | `train`, `val` and `trainval` all read the training folder, and `train` ends where `val` starts, at `1 - val_split` |
| PersonX.SplitRange | openunreid/data/datasets/personx.py:99-101 | cutting `[0, 1]` at one point gives two slices that meet at the same rounded index and together are every identity |
| PersonX.PiecesDisjoint | openunreid/data/datasets/personx.py:96-101 | two consecutive pieces of the sorted identities share no identity |
| PersonX.SplitPartition | openunreid/data/datasets/personx.py:96-101 | the identities of the two ranges are disjoint and together are those of the whole range |
| PersonX.LabelledPartition | openunreid/data/datasets/personx.py:106-124 | when labelling one folder succeeds for two disjoint selections, it succeeds for their concatenation, and the images of the two together are the images of the concatenation |
| PersonX.LabelledUnionOk | openunreid/data/datasets/personx.py:106-114 | when labelling one folder succeeds for two selections, it succeeds for their concatenation, since every file it keeps had its camera checked by one of them |
| PersonX.SplitImages | openunreid/data/datasets/personx.py:85-124 | when processing one folder succeeds for two ranges that cut `[0, 1]`, it succeeds for the whole range, and the images of the two ranges together are exactly the images of the whole range |
| PersonX.LoadSpecRow | openunreid/data/datasets/personx.py:71-82 | for an admissible `val_split`, loading a split processes its row of the table |
| PersonX.LoadSpec | openunreid/data/datasets/personx.py:33-82 | the PersonX constructor's samples: a `val_split` outside `(0, 1)` or an unknown mode is an error, otherwise `process_dir` on that mode's row |
| PersonX.TrainValImages | openunreid/data/datasets/personx.py:48-83 | when `train` and `val` both load, `trainval` loads too, and the images of `train` and `val` together are exactly those of `trainval` |
| PersonX.Open | openunreid/data/datasets/personx.py:28-83 | the constructor fails for a `val_split` outside `(0, 1)`, an unknown mode or a failing `process_dir`; otherwise it builds the dataset from the processed samples as `CustomDataset.__init__` does |

## Left out

- Images are not modelled. `read_image`, the `transform`, and the `img` entry of an item are left out, so an item holds path, id, camera and index only.
- Downloading is not modelled: `download`, `download_url`, archive extraction and `mkdir_if_missing`. `openunreid/utils/file_utils.py` is not part of this model.
- `check_before_run`, `master_only`, `__repr__` and the `verbose` printing are left out. They are filesystem and console I/O.
- `glob.glob` is replaced by a `Layout` value listing, for each folder, the full paths of its `*.jpg` files as `glob` returns them, in listing order.
- The `subset1` fallback and its deprecation warning are left out. Only the folder contents matter to the model.
- PersonX.PyRound: computes on exact reals with round-half-to-even. The product `len * fraction` is computed exactly, by repeated addition (`Scale`), so floating-point error in `1.0 - val_split` and in the product is not modelled.
- FileNames.ParseName: `\d` is taken to be ASCII `0`–`9`. Python also matches other Unicode decimal digits.
- The `pid == -1` skips in both loops of `process_dir` are left out. A pid parsed from a run of digits is never negative, so they never fire.
- PersonX.Open: an unknown mode yields `Err(InvalidMode)`. The source formats its error message with `self.mode`, which is not yet set at that point, so it raises an `AttributeError` instead of its `ValueError`. Either way construction fails.
- PersonX.Open: any `AssertionError` or `AttributeError` that `process_dir` raises becomes an error value. These are `NoMatch`, `EmptySelection` and `UnknownCamera`.
- BaseDataset.CustomDataset.RenewLabels: the `isinstance(pseudo_labels, list)` assertion is left out. Labels are always a sequence of integers here.
- Image paths are strings. The tuple-of-paths form that the docstring allows is left out.
- Extra `**kwargs` passed to `CustomDataset.__init__` are left out. The model passes `sort` and `pseudo_labels` explicitly.
- BaseDataset.CustomDataset.GetItem: `__getitem__` with a tuple of indices is handled like a list (`GetItems`). Other index types are left out.
