/** `greedy_partition`: each item goes to the lightest part so far. */
module Greedy {
  import opened Arith
  import opened Balancing
  import opened Results
  import opened Seqs

  lemma {:induction false} ConcatUpdate(parts: seq<seq<nat>>, m: nat, x: nat)
    requires m < |parts|
    ensures multiset(Flat(parts[m := parts[m] + [x]])) == multiset(Flat(parts)) + multiset{x}
  {
    if m > 0 {
      ConcatUpdate(parts[1..], m - 1, x);
      assert parts[m := parts[m] + [x]][1..] == parts[1..][m - 1 := parts[m] + [x]];
    } else {
      assert parts[0 := parts[0] + [x]][1..] == parts[1..];
    }
  }

  lemma LoadPush(lens: seq<nat>, part: seq<nat>, i: nat)
    requires i < |lens|
    ensures Load(lens, part + [i]) == Load(lens, part) + lens[i]
  {
    LoadConcat(lens, part, [i]);
    assert Load(lens, [i]) == lens[i] + Load(lens, []);
  }

  lemma {:induction false} OneLoad(lens: seq<nat>, parts: seq<seq<nat>>, j: nat)
    requires j < |parts|
    ensures Load(lens, parts[j]) <= SumLoads(lens, parts)
  {
    if j > 0 { OneLoad(lens, parts[1..], j - 1); }
  }

  /** While only the first i items are placed no part is heavier than all of them. */
  lemma LoadBelowTotal(lens: seq<nat>, parts: seq<seq<nat>>, i: nat, j: nat)
    requires i <= |lens| && multiset(Flat(parts)) == multiset(Range(0, i)) && j < |parts|
    ensures Load(lens, parts[j]) <= TotalLen(lens)
  {
    OneLoad(lens, parts, j);
    SumLoadsConcat(lens, parts);
    LoadPermute(lens, Flat(parts), Range(0, i));
    LoadRange(lens, i);
    TotalPrefix(lens, i);
  }

  lemma {:induction false} TotalPrefix(lens: seq<nat>, i: nat)
    requires i <= |lens|
    ensures TotalLen(lens[..i]) <= TotalLen(lens)
  {
    if i > 0 {
      TotalPrefix(lens[1..], i - 1);
      assert lens[..i][1..] == lens[1..][..i - 1];
    }
  }

  /** With a bias above every load, the smallest biased sum has the smallest count. */
  lemma BiasOrdersCounts(a: nat, x: nat, b: nat, y: nat, bias: nat)
    requires a * bias + x <= b * bias + y && y < bias
    ensures a <= b
  {
    if b < a { MulGap(b, a, bias); }
  }

  ghost predicate SumsExact(lens: seq<nat>, parts: seq<seq<nat>>, sums: seq<nat>, bias: nat) {
    && |parts| == |sums|
    && forall j :: 0 <= j < |parts| ==> sums[j] == |parts[j]| * bias + Load(lens, parts[j])
  }

  ghost predicate LoadsClose(lens: seq<nat>, parts: seq<seq<nat>>, gap: nat) {
    forall a, b :: 0 <= a < |parts| && 0 <= b < |parts| ==> Load(lens, parts[a]) <= Load(lens, parts[b]) + gap
  }

  ghost predicate CountsClose(parts: seq<seq<nat>>) {
    forall a, b :: 0 <= a < |parts| && 0 <= b < |parts| ==> |parts[a]| <= |parts[b]| + 1
  }

  lemma PlaceSums(lens: seq<nat>, parts: seq<seq<nat>>, sums: seq<nat>, bias: nat, m: nat, i: nat)
    requires SumsExact(lens, parts, sums, bias) && m < |parts| && i < |lens|
    ensures SumsExact(lens, parts[m := parts[m] + [i]], sums[m := sums[m] + lens[i] + bias], bias)
  {
    LoadPush(lens, parts[m], i);
    assert (|parts[m]| + 1) * bias == |parts[m]| * bias + bias;
  }

  lemma PlaceLoads(lens: seq<nat>, parts: seq<seq<nat>>, m: nat, i: nat)
    requires LoadsClose(lens, parts, Sup(lens)) && m < |parts| && i < |lens|
    requires forall j :: 0 <= j < |parts| ==> Load(lens, parts[m]) <= Load(lens, parts[j])
    ensures LoadsClose(lens, parts[m := parts[m] + [i]], Sup(lens))
  {
    Longest(lens);
    LoadPush(lens, parts[m], i);
  }

  lemma LightestHasFewest(lens: seq<nat>, parts: seq<seq<nat>>, sums: seq<nat>, bias: nat, m: nat, i: nat)
    requires SumsExact(lens, parts, sums, bias) && bias > TotalLen(lens) && m < |parts|
    requires i <= |lens| && multiset(Flat(parts)) == multiset(Range(0, i))
    requires forall j :: 0 <= j < |sums| ==> sums[m] <= sums[j]
    ensures forall j :: 0 <= j < |parts| ==> |parts[m]| <= |parts[j]|
  {
    forall j | 0 <= j < |parts| ensures |parts[m]| <= |parts[j]| {
      LoadBelowTotal(lens, parts, i, j);
      BiasOrdersCounts(|parts[m]|, Load(lens, parts[m]), |parts[j]|, Load(lens, parts[j]), bias);
    }
  }

  // ---------------------------------------------------------------- where every item goes

  /** The part's items below x: what the part held when item x was placed. */
  function Earlier(part: seq<nat>, x: nat): seq<nat> {
    if part == [] then []
    else Earlier(part[..|part| - 1], x) + (if part[|part| - 1] < x then [part[|part| - 1]] else [])
  }

  function Weight(lens: seq<nat>, part: seq<nat>, bias: nat): nat { |part| * bias + Load(lens, part) }

  /** Item x lies in part m because, when it was placed, no part weighed less and no part before m weighed as little. */
  ghost predicate GoesTo(lens: seq<nat>, parts: seq<seq<nat>>, bias: nat, x: nat, m: nat)
    requires m < |parts|
  {
    && (forall j :: 0 <= j < |parts| ==> Weight(lens, Earlier(parts[m], x), bias) <= Weight(lens, Earlier(parts[j], x), bias))
    && (forall j :: 0 <= j < m ==> Weight(lens, Earlier(parts[m], x), bias) < Weight(lens, Earlier(parts[j], x), bias))
  }

  /** Every item lies where it had to go, and every part lists its items in order. */
  ghost predicate PlacedInTurn(lens: seq<nat>, parts: seq<seq<nat>>, bias: nat) {
    && (forall m: nat, i: nat :: m < |parts| && i < |parts[m]| ==> GoesTo(lens, parts, bias, parts[m][i], m))
    && (forall m: nat, i: nat, j: nat :: m < |parts| && i < j < |parts[m]| ==> parts[m][i] < parts[m][j])
  }

  ghost predicate AllBelow(parts: seq<seq<nat>>, i: nat) {
    forall m: nat, j: nat :: m < |parts| && j < |parts[m]| ==> parts[m][j] < i
  }

  lemma {:induction false} EarlierAll(part: seq<nat>, x: nat)
    requires forall j: nat :: j < |part| ==> part[j] < x
    ensures Earlier(part, x) == part
  {
    if part == [] {
    } else {
      EarlierAll(part[..|part| - 1], x);
    }
  }

  lemma EarlierPush(part: seq<nat>, i: nat, x: nat)
    requires x <= i
    ensures Earlier(part + [i], x) == Earlier(part, x)
  {
    assert (part + [i])[..|part|] == part;
  }

  /** Placing a later item leaves the reasons of the earlier ones alone. */
  lemma StillGoesTo(lens: seq<nat>, parts: seq<seq<nat>>, bias: nat, m: nat, i: nat, x: nat, p: nat)
    requires m < |parts| && p < |parts| && x <= i && GoesTo(lens, parts, bias, x, p)
    ensures GoesTo(lens, parts[m := parts[m] + [i]], bias, x, p)
  {
    EarlierPush(parts[m], i, x);
    var q := parts[m := parts[m] + [i]];
    assert forall j :: 0 <= j < |parts| ==> Earlier(q[j], x) == Earlier(parts[j], x);
  }

  lemma NowGoesTo(lens: seq<nat>, parts: seq<seq<nat>>, sums: seq<nat>, bias: nat, m: nat, i: nat)
    requires m < |parts| && SumsExact(lens, parts, sums, bias) && AllBelow(parts, i)
    requires forall j :: 0 <= j < |sums| ==> sums[m] <= sums[j]
    requires forall j :: 0 <= j < m ==> sums[m] < sums[j]
    ensures GoesTo(lens, parts, bias, i, m)
  {
    forall j | 0 <= j < |parts| ensures Weight(lens, Earlier(parts[j], i), bias) == sums[j] { EarlierAll(parts[j], i); }
  }

  lemma PlaceInTurn(lens: seq<nat>, parts: seq<seq<nat>>, sums: seq<nat>, bias: nat, m: nat, i: nat)
    requires m < |parts| && SumsExact(lens, parts, sums, bias) && AllBelow(parts, i) && PlacedInTurn(lens, parts, bias)
    requires forall j :: 0 <= j < |sums| ==> sums[m] <= sums[j]
    requires forall j :: 0 <= j < m ==> sums[m] < sums[j]
    ensures AllBelow(parts[m := parts[m] + [i]], i + 1) && PlacedInTurn(lens, parts[m := parts[m] + [i]], bias)
  {
    var q := parts[m := parts[m] + [i]];
    NowGoesTo(lens, parts, sums, bias, m, i);
    forall p: nat, x: nat | p < |q| && x < |q[p]| ensures GoesTo(lens, q, bias, q[p][x], p) {
      if p == m && x == |parts[m]| {
        StillGoesTo(lens, parts, bias, m, i, i, p);
      } else {
        assert q[p][x] == parts[p][x];
        StillGoesTo(lens, parts, bias, m, i, parts[p][x], p);
      }
    }
  }

  /** What the filling loop keeps after i items. */
  ghost predicate FillInv(lens: seq<nat>, parts: seq<seq<nat>>, sums: seq<nat>, bias: nat, i: nat) {
    && AllBelow(parts, i) && PlacedInTurn(lens, parts, bias)
    && SumsExact(lens, parts, sums, bias) && i <= |lens| && multiset(Flat(parts)) == multiset(Range(0, i))
    && (bias == 0 ==> LoadsClose(lens, parts, Sup(lens)))
    && (bias > TotalLen(lens) ==> CountsClose(parts))
  }

  lemma PlaceCounts(parts: seq<seq<nat>>, m: nat, i: nat)
    requires CountsClose(parts) && m < |parts| && forall j :: 0 <= j < |parts| ==> |parts[m]| <= |parts[j]|
    ensures CountsClose(parts[m := parts[m] + [i]])
  {}

  lemma ZeroBiasLoads(lens: seq<nat>, parts: seq<seq<nat>>, sums: seq<nat>, m: nat)
    requires SumsExact(lens, parts, sums, 0) && m < |parts| && forall j :: 0 <= j < |sums| ==> sums[m] <= sums[j]
    ensures forall j :: 0 <= j < |parts| ==> Load(lens, parts[m]) <= Load(lens, parts[j])
  {}

  lemma FillStep(lens: seq<nat>, parts: seq<seq<nat>>, sums: seq<nat>, bias: nat, i: nat, m: nat)
    requires FillInv(lens, parts, sums, bias, i) && i < |lens| && m < |parts|
    requires forall j :: 0 <= j < |sums| ==> sums[m] <= sums[j]
    requires forall j :: 0 <= j < m ==> sums[m] < sums[j]
    ensures FillInv(lens, parts[m := parts[m] + [i]], sums[m := sums[m] + lens[i] + bias], bias, i + 1)
  {
    PlaceSums(lens, parts, sums, bias, m, i);
    PlaceInTurn(lens, parts, sums, bias, m, i);
    PlaceExact(parts, m, i);
    if bias == 0 {
      ZeroBiasLoads(lens, parts, sums, m);
      PlaceLoads(lens, parts, m, i);
    }
    if bias > TotalLen(lens) {
      LightestHasFewest(lens, parts, sums, bias, m, i);
      PlaceCounts(parts, m, i);
    }
  }

  lemma PlaceExact(parts: seq<seq<nat>>, m: nat, i: nat)
    requires m < |parts| && multiset(Flat(parts)) == multiset(Range(0, i))
    ensures multiset(Flat(parts[m := parts[m] + [i]])) == multiset(Range(0, i + 1))
  {
    ConcatUpdate(parts, m, i);
    assert Range(0, i + 1) == Range(0, i) + [i];
  }

  /** The filling loop.  `bias` is added to every length.  Without bias the loads stay within the
      longest length of each other; with a bias above the total the counts stay within one of
      each other. */
  method Fill(lens: seq<nat>, k: nat, bias: nat) returns (partitions: seq<seq<nat>>)
    requires k > 0
    ensures |partitions| == k && ExactPartition(partitions, |lens|) && PlacedInTurn(lens, partitions, bias)
    ensures bias == 0 ==> LoadsClose(lens, partitions, Sup(lens))
    ensures bias > TotalLen(lens) ==> CountsClose(partitions)
  {
    partitions := seq(k, i => []);
    var partitionSums: seq<nat> := seq(k, i => 0);
    FillStart(lens, k, bias, partitions, partitionSums);
    for i := 0 to |lens|
      invariant |partitions| == |partitionSums| == k && FillInv(lens, partitions, partitionSums, bias, i)
    {
      var minIdx := Lightest(partitionSums);
      FillStep(lens, partitions, partitionSums, bias, i, minIdx);
      partitionSums := partitionSums[minIdx := partitionSums[minIdx] + lens[i] + bias];
      partitions := partitions[minIdx := partitions[minIdx] + [i]];
    }
  }

  lemma FillStart(lens: seq<nat>, k: nat, bias: nat, parts: seq<seq<nat>>, sums: seq<nat>)
    requires k > 0 && |parts| == |sums| == k && forall i :: 0 <= i < k ==> parts[i] == [] && sums[i] == 0
    ensures FillInv(lens, parts, sums, bias, 0)
  {
    EmptyParts(parts);
  }

  lemma {:induction false} EmptyParts(parts: seq<seq<nat>>)
    requires forall i :: 0 <= i < |parts| ==> parts[i] == []
    ensures Flat(parts) == []
  {
    if parts != [] { EmptyParts(parts[1..]); }
  }

  /** The first smallest entry. */
  method Lightest(sums: seq<nat>) returns (minIdx: nat)
    requires sums != []
    ensures minIdx < |sums| && forall j :: 0 <= j < |sums| ==> sums[minIdx] <= sums[j]
    ensures forall j :: 0 <= j < minIdx ==> sums[minIdx] < sums[j]
  {
    minIdx := 0;
    for j := 1 to |sums|
      invariant minIdx < |sums| && minIdx < j
      invariant forall x :: 0 <= x < j ==> sums[minIdx] <= sums[x]
      invariant forall x :: 0 <= x < minIdx ==> sums[minIdx] < sums[x]
    {
      if sums[j] < sums[minIdx] { minIdx := j; }
    }
  }

  /** If counts within one of each other add up to m * k, they are all m. */
  lemma CountsEqual(parts: seq<seq<nat>>, m: nat, k: nat, i: nat)
    requires |parts| == k && |Flat(parts)| == m * k && i < k
    requires CountsClose(parts)
    ensures |parts[i]| == m
  {
    if |parts[i]| < m {
      ConcatAtMost(parts, |parts[i]| + 1, i);
      MulLe(|parts[i]| + 1, m, k);
    } else if |parts[i]| > m {
      ConcatAtLeast(parts, |parts[i]| - 1, i);
      assert |parts[i]| - 1 >= m;
      MulLe(m, |parts[i]| - 1, k);
    }
  }

  lemma {:induction false} ConcatAtMost(parts: seq<seq<nat>>, top: nat, i: nat)
    requires i < |parts| && |parts[i]| < top && forall j :: 0 <= j < |parts| ==> |parts[j]| <= top
    ensures |Flat(parts)| < top * |parts|
  {
    assert top * |parts| == top * |parts[1..]| + top;
    if i > 0 { ConcatAtMost(parts[1..], top, i - 1); } else { ConcatCapped(parts[1..], top); }
  }

  lemma {:induction false} ConcatCapped(parts: seq<seq<nat>>, top: nat)
    requires forall j :: 0 <= j < |parts| ==> |parts[j]| <= top
    ensures |Flat(parts)| <= top * |parts|
  {
    if parts != [] {
      ConcatCapped(parts[1..], top);
      assert top * |parts| == top * |parts[1..]| + top;
    }
  }

  lemma {:induction false} ConcatAtLeast(parts: seq<seq<nat>>, low: nat, i: nat)
    requires i < |parts| && |parts[i]| > low && forall j :: 0 <= j < |parts| ==> |parts[j]| >= low
    ensures |Flat(parts)| > low * |parts|
  {
    assert low * |parts| == low * |parts[1..]| + low;
    if i > 0 { ConcatAtLeast(parts[1..], low, i - 1); } else { ConcatFloored(parts[1..], low); }
  }

  lemma {:induction false} ConcatFloored(parts: seq<seq<nat>>, low: nat)
    requires forall j :: 0 <= j < |parts| ==> |parts[j]| >= low
    ensures |Flat(parts)| >= low * |parts|
  {
    if parts != [] {
      ConcatFloored(parts[1..], low);
      assert low * |parts| == low * |parts[1..]| + low;
    }
  }

  /** `greedy_partition`: in equal-size mode it succeeds exactly when k divides the number of items. */
  method GreedyPartition(lens: seq<nat>, k: nat, equalSize: bool) returns (r: Result<seq<seq<nat>>>)
    ensures r.Ok? <==> lens == [] || (k > 0 && (equalSize ==> |lens| % k == 0))
    ensures r.Ok? ==> |r.value| == k && ExactPartition(r.value, |lens|)
    ensures r.Ok? && equalSize ==> EquallyLarge(r.value, k, |lens|)
    ensures r.Ok? && !equalSize ==> LoadsClose(lens, r.value, Sup(lens))
    ensures r.Ok? ==> PlacedInTurn(lens, r.value, if equalSize then TotalLen(lens) + 1 else 0)
  {
    if k == 0 {
      return if lens == [] then Ok([]) else Raise(TypeError);
    }
    var bias := if equalSize then TotalLen(lens) + 1 else 0;
    var partitions := Fill(lens, k, bias);
    if equalSize {
      var equal := SizesEqual(partitions, k, |lens|);
      EqualIffDivisible(partitions, |lens|, k);
      if !equal { return Raise(AssertionError); }
    }
    r := Ok(partitions);
  }

  lemma EqualIffDivisible(parts: seq<seq<nat>>, n: nat, k: nat)
    requires k > 0 && |parts| == k && ExactPartition(parts, n) && CountsClose(parts)
    ensures EquallyLarge(parts, k, n) <==> n % k == 0
  {
    assert |Flat(parts)| == |multiset(Flat(parts))| == |multiset(Range(0, n))| == n;
    if n % k == 0 { AllCountsEqual(parts, n, k); }
    if EquallyLarge(parts, k, n) { DivMod(n, k, |parts[0]|, 0); }
  }

  lemma AllCountsEqual(parts: seq<seq<nat>>, n: nat, k: nat)
    requires k > 0 && |parts| == k && |Flat(parts)| == n && n % k == 0
    requires CountsClose(parts)
    ensures EquallyLarge(parts, k, n)
  {
    var m := n / k;
    assert n == m * k;
    forall i | 0 <= i < k ensures |parts[i]| * k == n { CountsEqual(parts, m, k, i); }
  }
}
