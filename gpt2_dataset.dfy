/**
  The GPT-2 token dataset (src/data/gpt2_dataset.py): one flat array of
  token ids read from `{data_dir}/{model_name}/{train|val}.bin`, whose
  examples are the overlapping windows of `block_size` tokens.

  The array is the token sequence itself (reading the file is not part of
  the model); `truncate` is the configured `truncate_dataset_to_size`.
 */
module Gpt2Data {

  import opened Wrappers
  import opened Text
  import opened MonkeyPatch

  /** A Python slice bound: negative counts from the end, then clamped to `[0, n]`. */
  function SliceBound(i: int, n: nat): (b: nat)
    ensures b <= n
    ensures 0 <= i <= n ==> b == i
  {
    if i < 0 then (if i + n < 0 then 0 else i + n) else if i > n then n else i
  }

  /** `s[start:stop]` with Python's rules for negative and out-of-range bounds. */
  function PySlice<T>(s: seq<T>, start: int, stop: int): (r: seq<T>)
    ensures |r| <= |s|
    ensures 0 <= start <= stop <= |s| ==> r == s[start..stop]
    ensures 0 <= start && 0 <= stop <= |s| ==> |r| == (if start <= stop then stop - start else 0)
  {
    var lo := SliceBound(start, |s|);
    var hi := SliceBound(stop, |s|);
    if lo < hi then s[lo..hi] else []
  }

  datatype Gpt2Dataset = Gpt2Dataset(dataDir: string, modelName: string, isEval: bool, blockSize: nat, data: seq<int>)
  {
    /** `is_eval and 'val' or 'train'`. */
    function DatasetName(): (name: string)
      ensures name == "val" <==> isEval
    {
      if isEval then "val" else "train"
    }

    /** `get_file_path`. */
    function FilePath(): (p: string)
      ensures StartsWith(p, dataDir + "/" + modelName + "/")
      ensures |p| >= 4 && p[|p| - 4..] == ".bin"
    {
      dataDir + "/" + modelName + "/" + DatasetName() + ".bin"
    }

    /** `get_num_examples`: one example per start position that leaves room for its labels; negative when the data is shorter than a block. */
    function NumExamples(): (n: int)
      ensures n + blockSize == |data|
    {
      |data| - blockSize
    }

    /** `__len__`: the configured truncation when there is one, else the number of examples. */
    function Len(truncate: Option<int>): (n: int)
      ensures truncate.Some? ==> n == truncate.value
      ensures truncate.None? ==> n + blockSize == |data|
    {
      if truncate.Some? then truncate.value else NumExamples()
    }

    /**
      `__getitem__`: `len(self)` fails when `__len__` is negative; an index
      at or past the length is an `IndexError`; otherwise the block starting
      at `index` and the block one token later.
     */
    function GetItem(index: int, truncate: Option<int>): (r: Result<LabelledExample, ItemError>)
      ensures Len(truncate) < 0 <==> r == Err(NegativeLength)
      ensures 0 <= Len(truncate) <= index <==> r == Err(IndexOutOfRange)
      ensures 0 <= index < Len(truncate) && index < NumExamples() ==>
                r.Ok? && |r.value.inputIds| == |r.value.labels| == blockSize &&
                forall k :: 0 <= k < blockSize ==>
                  r.value.inputIds[k] == data[index + k] && r.value.labels[k] == data[index + 1 + k]
    {
      var n := Len(truncate);
      if n < 0 then Err(NegativeLength)
      else if index >= n then Err(IndexOutOfRange)
      else
        Ok(LabelledExample(PySlice(data, index, index + blockSize), PySlice(data, index + 1, index + 1 + blockSize)))
    }

    /** `get_data_for_ray_dataset`: row `i` is the `block_size + 1` tokens starting at `i`, for every example. */
    function RayRows(): (rows: seq<seq<int>>)
      ensures |rows| == if NumExamples() < 0 then 0 else NumExamples()
      ensures forall i :: 0 <= i < |rows| ==> rows[i] == data[i..i + blockSize + 1]
    {
      var n := if NumExamples() < 0 then 0 else NumExamples();
      seq(n, i requires 0 <= i < n => RayRow(i))
    }

    /** `data[i:i+block_size+1]`: a block and the token after it. */
    function RayRow(i: int): (row: seq<int>)
      ensures 0 <= i < NumExamples() ==> row == data[i..i + blockSize + 1]
    {
      PySlice(data, i, i + blockSize + 1)
    }
  }

  datatype ItemError =
    | /** `__len__` returned a negative number, which `len()` refuses. */
      NegativeLength
    | IndexOutOfRange

  /** The labels of an item are its inputs shifted by one token. */
  lemma ItemLabelsShifted(ds: Gpt2Dataset, index: int, truncate: Option<int>, k: nat)
    requires 0 <= index < ds.Len(truncate) && index < ds.NumExamples()
    requires k + 1 < ds.blockSize
    ensures ds.GetItem(index, truncate).value.labels[k] == ds.GetItem(index, truncate).value.inputIds[k + 1]
  {
  }

  /** The train and the eval split of the same model never share a file. */
  lemma TrainAndValFilesDiffer(ds: Gpt2Dataset)
    ensures ds.FilePath() != ds.(isEval := !ds.isEval).FilePath()
  {
    var other := ds.(isEval := !ds.isEval);
    var prefix := ds.dataDir + "/" + ds.modelName + "/";
    assert ds.FilePath() == prefix + ds.DatasetName() + ".bin";
    assert other.FilePath() == prefix + other.DatasetName() + ".bin";
    assert |ds.DatasetName()| != |other.DatasetName()|;
    assert |ds.FilePath()| != |other.FilePath()|;
  }

  /**
    What the workers train on is what the dataset serves: splitting row `i`
    of the shipped rows with the patched iterator gives item `i`.
   */
  lemma RayRowSplitsIntoItem(ds: Gpt2Dataset, i: int, truncate: Option<int>)
    requires 0 <= i < ds.NumExamples() && i < ds.Len(truncate)
    ensures SplitRow(ds.RayRows()[i]).1 == ds.GetItem(i, truncate).value
  {
    var row := ds.RayRows()[i];
    var item := ds.GetItem(i, truncate).value;
    assert SplitRow(row).1.inputIds == item.inputIds;
    assert SplitRow(row).1.labels == item.labels;
  }
}
