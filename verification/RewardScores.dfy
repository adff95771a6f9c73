/** Scores computed on re-arranged micro-batches come back in row order. */
module RewardScores {
  import opened Balancing
  import opened MicroBatches
  import opened Results
  import opened SeqlenBalancing
  import opened Seqs

  /** `get_reverse_idx`: a copy of the map in which entry `idxMap[i]` is overwritten with i. */
  method GetReverseIdx(idxMap: seq<nat>) returns (r: Result<seq<nat>>)
    ensures r.Ok? <==> forall i :: 0 <= i < |idxMap| ==> idxMap[i] < |idxMap|
    ensures r.Ok? ==> |r.value| == |idxMap|
    ensures r.Ok? ==> forall i :: 0 <= i < |idxMap| && idxMap[i] !in idxMap[i + 1..] ==> r.value[idxMap[i]] == i
    ensures r.Ok? ==> forall j :: 0 <= j < |idxMap| && j !in idxMap ==> r.value[j] == idxMap[j]
  {
    var reverse := new nat[|idxMap|](i requires 0 <= i < |idxMap| => idxMap[i]);
    for i := 0 to |idxMap|
      invariant forall j :: 0 <= j < i ==> idxMap[j] < |idxMap|
      invariant forall j :: 0 <= j < i && idxMap[j] !in idxMap[j + 1..i] ==> reverse[idxMap[j]] == j
      invariant forall j :: 0 <= j < |idxMap| && j !in idxMap[..i] ==> reverse[j] == idxMap[j]
    {
      if idxMap[i] >= |idxMap| { return Raise(IndexError); }
      reverse[idxMap[i]] := i;
      forall j | 0 <= j < i + 1 && idxMap[j] !in idxMap[j + 1..i + 1] ensures reverse[idxMap[j]] == j {
        if j < i {
          assert idxMap[j + 1..i + 1] == idxMap[j + 1..i] + [idxMap[i]];
        }
      }
      assert idxMap[..i + 1] == idxMap[..i] + [idxMap[i]];
    }
    assert idxMap[..|idxMap|] == idxMap;
    forall j | 0 <= j < |idxMap| && idxMap[j] !in idxMap[j + 1..] ensures reverse[idxMap[j]] == j {
      assert idxMap[j + 1..|idxMap|] == idxMap[j + 1..];
    }
    r := Ok(reverse[..]);
  }

  /** An exact partition, flattened, lists every index below n once. */
  lemma PermutationFacts(idx: seq<nat>, n: nat)
    requires multiset(idx) == multiset(Range(0, n))
    ensures |idx| == n
    ensures forall i :: 0 <= i < n ==> idx[i] < n && idx[i] !in idx[i + 1..]
    ensures forall x :: 0 <= x < n ==> x in idx
  {
    assert |idx| == |multiset(idx)| == |multiset(Range(0, n))| == n;
    forall i | 0 <= i < n ensures idx[i] < n && idx[i] !in idx[i + 1..] {
      assert idx[i] in multiset(Range(0, n));
      assert idx[i] in Range(0, n);
      if idx[i] in idx[i + 1..] {
        var j :| 0 <= j < |idx[i + 1..]| && idx[i + 1..][j] == idx[i];
        Twice(idx, i, i + 1 + j);
        assert Distinct(Range(0, n));
        Once(Range(0, n), idx[i]);
      }
    }
    forall x | 0 <= x < n ensures x in idx {
      assert Range(0, n)[x] == x && x in multiset(Range(0, n));
      assert x in multiset(idx);
    }
  }

  /** Row-wise scoring of each part. */
  function Scored<Row, Score>(rows: seq<Row>, part: seq<nat>, scorer: Row -> Score): seq<Score>
    requires forall i :: 0 <= i < |part| ==> part[i] < |rows|
  {
    seq(|part|, i requires 0 <= i < |part| => scorer(rows[part[i]]))
  }

  lemma {:induction false} PartBelow(parts: seq<seq<nat>>, p: nat, n: nat)
    requires p < |parts| && forall x: nat :: x in Flat(parts) ==> x < n
    ensures forall i :: 0 <= i < |parts[p]| ==> parts[p][i] < n
  {
    forall i | 0 <= i < |parts[p]| ensures parts[p][i] < n {
      ConcatMembers(parts, p, parts[p][i]);
      assert parts[p][i] in Flat(parts);
    }
  }

  /** The inverse of a permutation is total and leads every row back to its place. */
  lemma ReverseInverts(idx: seq<nat>, rev: seq<nat>)
    requires |rev| == |idx| && multiset(idx) == multiset(Range(0, |idx|))
    requires forall i :: 0 <= i < |idx| && idx[i] < |idx| && idx[i] !in idx[i + 1..] ==> rev[idx[i]] == i
    ensures forall x :: 0 <= x < |idx| ==> rev[x] < |idx| && idx[rev[x]] == x
  {
    PermutationFacts(idx, |idx|);
    forall x | 0 <= x < |idx| ensures rev[x] < |idx| && idx[rev[x]] == x {
      assert x in idx;
      var i :| 0 <= i < |idx| && idx[i] == x;
      assert idx[i] !in idx[i + 1..];
    }
  }

  /** Micro-batch by micro-batch: the scores and the original index of each. */
  method ScoreParts<Row, Score>(rows: seq<Row>, parts: seq<seq<nat>>, scorer: Row -> Score)
    returns (output: seq<Score>, indices: seq<nat>)
    requires forall x: nat :: x in Flat(parts) ==> x < |rows|
    ensures indices == Flat(parts) && |output| == |indices|
    ensures forall i :: 0 <= i < |indices| ==> indices[i] < |rows| && output[i] == scorer(rows[indices[i]])
  {
    output, indices := [], [];
    for p := 0 to |parts|
      invariant indices == Flat(parts[..p]) && |output| == |indices|
      invariant forall i :: 0 <= i < |indices| ==> indices[i] < |rows| && output[i] == scorer(rows[indices[i]])
    {
      assert parts[..p + 1] == parts[..p] + [parts[p]];
      ConcatPush(parts[..p], parts[p]);
      PartBelow(parts, p, |rows|);
      output := output + Scored(rows, parts[p], scorer);
      indices := indices + parts[p];
    }
    assert parts[..|parts|] == parts;
  }

  /** Splits consecutive rows into micro-batches of a fixed size. */
  method ScoreSplits<Row, Score>(rows: seq<Row>, size: nat, scorer: Row -> Score) returns (output: seq<Score>)
    requires size > 0
    ensures |output| == |rows| && forall i :: 0 <= i < |rows| ==> output[i] == scorer(rows[i])
  {
    output := [];
    while |output| < |rows|
      invariant |output| <= |rows| && forall i :: 0 <= i < |output| ==> output[i] == scorer(rows[i])
    {
      var from := |output|;
      var to := if from + size < |rows| then from + size else |rows|;
      output := output + seq(to - from, i requires 0 <= i < to - from => scorer(rows[from + i]));
    }
  }

  /** The scoring part of `compute_rm_score`: with or without dynamic micro-batches, for any
      row-wise scorer, row i gets the score of row i; it fails exactly when the split does. */
  method ComputeRmScore<Row, Score>(rows: seq<Row>, mask: seq<seq<bool>>, width: nat, scorer: Row -> Score,
                                    useDynamicBsz: bool, maxTokenLen: nat, otherRanks: seq<nat>, microBatchSize: nat)
    returns (r: Result<seq<Score>>)
    requires |mask| == |rows| && forall i :: 0 <= i < |mask| ==> |mask[i]| == width
    ensures r.Ok? <==> if useDynamicBsz then Rearrange(mask, width, maxTokenLen, None, otherRanks, None).Ok?
                       else microBatchSize > 0
    ensures r.Ok? ==> |r.value| == |rows| && forall i :: 0 <= i < |rows| ==> r.value[i] == scorer(rows[i])
  {
    if !useDynamicBsz {
      if microBatchSize == 0 { return Raise(ZeroDivisionError); }
      var scores := ScoreSplits(rows, microBatchSize, scorer);
      return Ok(scores);
    }
    RearrangeIsBounded(mask, width, maxTokenLen, None, otherRanks, None);
    var split := RearrangeMicroBatches(mask, width, maxTokenLen, None, otherRanks, None);
    if split.Raise? { return Raise(split.error); }
    PermutationFacts(Flat(split.value), |rows|);
    forall x: nat | x in Flat(split.value) ensures x < |rows| {
      var i :| 0 <= i < |Flat(split.value)| && Flat(split.value)[i] == x;
    }
    var scores, indices := ScoreParts(rows, split.value, scorer);
    if |indices| != |scores| { return Raise(AssertionError); }
    var revert := GetReverseIdx(indices);
    assert revert.Ok?;
    ReverseInverts(indices, revert.value);
    r := Ok(seq(|rows|, i requires 0 <= i < |rows| => scores[revert.value[i]]));
  }

  /** `rearrange_micro_batches`: the index lists. */
  method RearrangeMicroBatches(mask: seq<seq<bool>>, width: nat, maxTokenLen: nat, minNum: Option<nat>,
                               otherRanks: seq<nat>, dividedBy: Option<nat>) returns (r: Result<seq<seq<nat>>>)
    ensures r == Rearrange(mask, width, maxTokenLen, minNum, otherRanks, dividedBy)
  {
    if maxTokenLen < width { return Raise(AssertionError); }
    if maxTokenLen == 0 || dividedBy == Some(0) { return Raise(ZeroDivisionError); }
    var seqLenEffective := EffectiveLens(mask);
    var totalSeqlen := TotalLen(seqLenEffective);
    CeilDivBounds(totalSeqlen, maxTokenLen);
    var needed: nat := CeilDiv(totalSeqlen, maxTokenLen);
    var numMicroBatches: nat := if |mask| < needed then |mask| else needed;
    if minNum.Some? && minNum.value > numMicroBatches { numMicroBatches := minNum.value; }
    ghost var local := numMicroBatches;
    for i := 0 to |otherRanks|
      invariant MaxOf(local, otherRanks) == MaxOf(numMicroBatches, otherRanks[i..])
    {
      assert otherRanks[i..][1..] == otherRanks[i + 1..];
      if otherRanks[i] > numMicroBatches { numMicroBatches := otherRanks[i]; }
    }
    if dividedBy.Some? { numMicroBatches := RoundUp(numMicroBatches, dividedBy.value); }
    if numMicroBatches > |seqLenEffective| { return Raise(AssertionError); }
    r := GetSeqlenBalancedPartitions(seqLenEffective, numMicroBatches, false);
  }
}
