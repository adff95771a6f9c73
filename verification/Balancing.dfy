/** `get_seqlen_balanced_partitions` on values: exact, balanced partitions of 0..n-1. */
module Balancing {
  import opened Arith
  import opened Differencing
  import opened Partitioning
  import opened Results
  import opened Seqs
  import opened Sorting

  function Idxs(p: Part): seq<nat> { seq(|p|, i requires 0 <= i < |p| => p[i].idx) }

  /** `State.get_partitions`. */
  function Partitions(s: Sets): seq<seq<nat>> { seq(|s|, i requires 0 <= i < |s| => Idxs(s[i])) }

  /** Every index below n occurs in exactly one part, once. */
  ghost predicate ExactPartition(parts: seq<seq<nat>>, n: nat) {
    multiset(Flat(parts)) == multiset(Range(0, n))
  }

  function Load(lens: seq<nat>, part: seq<nat>): nat {
    if part == [] then 0 else (if part[0] < |lens| then lens[part[0]] else 0) + Load(lens, part[1..])
  }

  predicate EquallyLarge(parts: seq<seq<nat>>, k: nat, n: nat) {
    forall i :: 0 <= i < |parts| ==> |parts[i]| * k == n
  }

  /** The checks at the end of equal-size mode. */
  method SizesEqual(partitions: seq<seq<nat>>, k: nat, n: nat) returns (ok: bool)
    ensures ok <==> EquallyLarge(partitions, k, n)
  {
    for i := 0 to |partitions|
      invariant forall j :: 0 <= j < i ==> |partitions[j]| * k == n
    {
      if |partitions[i]| * k != n { return false; }
    }
    return true;
  }

  function KarmarkarKarp(lens: seq<nat>, k: nat, equalSize: bool): Result<seq<seq<nat>>> {
    if equalSize && k == 0 then Raise(ZeroDivisionError)
    else if equalSize && |lens| % k != 0 then Raise(AssertionError)
    else if k == 0 || lens == [] then Raise(IndexError)
    else
      var step := if equalSize then k else 1;
      var ss := InitialStates(SortedItems(lens), k, step);
      InitialQueue(lens, k, step);
      var parts := Partitions(Differ(ss, k));
      if equalSize && !EquallyLarge(parts, k, |lens|) then Raise(AssertionError)
      else Ok(parts)
  }

  lemma InitialQueue(lens: seq<nat>, k: nat, step: nat)
    requires lens != [] && 0 < step <= k
    ensures Queue(InitialStates(SortedItems(lens), k, step), k)
  {
    SortedItemsFacts(lens);
    Longest(lens);
    LongestBounds(SortedItems(lens), k, step, Sup(lens));
    InitialSpread(SortedItems(lens), k, step, Sup(lens));
  }

  // ---------------------------------------------------------------- the longest length

  function Sup(lens: seq<nat>): nat {
    if lens == [] then 0 else if lens[0] > Sup(lens[1..]) then lens[0] else Sup(lens[1..])
  }

  lemma {:induction false} Longest(lens: seq<nat>)
    ensures forall i :: 0 <= i < |lens| ==> lens[i] <= Sup(lens)
  {
    if lens != [] {
      Longest(lens[1..]);
      forall i | 0 <= i < |lens| ensures lens[i] <= Sup(lens) {
        if i > 0 { assert lens[i] == lens[1..][i - 1]; }
      }
    }
  }

  lemma {:induction false} SupWithin(lens: seq<nat>, cap: nat)
    requires forall i :: 0 <= i < |lens| ==> lens[i] <= cap
    ensures Sup(lens) <= cap
  {
    if lens != [] {
      assert forall i :: 0 <= i < |lens[1..]| ==> lens[1..][i] == lens[i + 1];
      SupWithin(lens[1..], cap);
    }
  }

  lemma {:induction false} LongestBounds(sorted: seq<Item>, k: nat, step: nat, top: nat)
    requires 0 < step <= k && forall i :: 0 <= i < |sorted| ==> sorted[i].len <= top
    ensures GapBound(sorted, k, step, top)
    decreases |sorted|
  {
    if sorted != [] { LongestBounds(sorted[Min(step, |sorted|)..], k, step, top); }
  }

  // ---------------------------------------------------------------- the partition is exact

  lemma IdxsConcat(a: Part, b: Part)
    ensures Idxs(a + b) == Idxs(a) + Idxs(b)
  {}

  /** Where the first element of one order stands in the other. */
  lemma SameHead<T>(x: seq<T>, y: seq<T>) returns (j: nat)
    requires x != [] && multiset(x) == multiset(y)
    ensures j < |y| && y[j] == x[0] && multiset(x[1..]) == multiset(Without(y, j))
  {
    assert x[0] in multiset(y);
    j :| 0 <= j < |y| && y[j] == x[0];
    BagWithout(x, 0);
    assert Without(x, 0) == x[1..];
    BagWithout(y, j);
    SameRest(multiset(x[1..]), multiset(Without(y, j)), x[0]);
  }

  lemma SameRest<T>(a: multiset<T>, b: multiset<T>, x: T)
    requires multiset{x} + a == multiset{x} + b
    ensures a == b
  {
    assert a == (multiset{x} + a) - multiset{x};
    assert b == (multiset{x} + b) - multiset{x};
  }

  lemma {:induction false} IdxsPermute(x: Part, y: Part)
    requires multiset(x) == multiset(y)
    ensures multiset(Idxs(x)) == multiset(Idxs(y))
  {
    if x == [] {
      assert |y| == |multiset(y)| == 0;
    } else {
      var j := SameHead(x, y);
      IdxsPermute(x[1..], Without(y, j));
      IdxsSplit(x, 0);
      assert Without(x, 0) == x[1..];
      IdxsSplit(y, j);
    }
  }

  lemma IdxsSplit(y: Part, j: nat)
    requires j < |y|
    ensures multiset(Idxs(y)) == multiset{y[j].idx} + multiset(Idxs(Without(y, j)))
  {
    IdxsConcat(y[..j], y[j + 1..]);
    assert Idxs(y) == Idxs(y[..j]) + ([y[j].idx] + Idxs(y[j + 1..]));
  }

  lemma {:induction false} FlatBag(s: Sets)
    ensures multiset(Flat(s)) == Bag(s)
    ensures Flat(Partitions(s)) == Idxs(Flat(s))
  {
    if s != [] {
      FlatBag(s[1..]);
      assert Partitions(s)[1..] == Partitions(s[1..]);
      IdxsConcat(s[0], Flat(s[1..]));
    }
  }

  lemma FinalExact(lens: seq<nat>, s: Sets)
    requires Bag(s) == multiset(Items(lens))
    ensures ExactPartition(Partitions(s), |lens|)
  {
    FlatBag(s);
    IdxsPermute(Flat(s), Items(lens));
    assert Idxs(Items(lens)) == Range(0, |lens|);
  }

  // ---------------------------------------------------------------- loads

  lemma {:induction false} LoadIsSum(lens: seq<nat>, p: Part)
    requires forall it :: it in p ==> it.idx < |lens| && it.len == lens[it.idx]
    ensures Load(lens, Idxs(p)) == Sum(p)
  {
    if p != [] {
      assert Idxs(p)[1..] == Idxs(p[1..]);
      LoadIsSum(lens, p[1..]);
    }
  }

  lemma {:induction false} BagMember(s: Sets, i: nat, it: Item)
    requires i < |s| && it in s[i]
    ensures it in Bag(s)
  {
    if i > 0 { BagMember(s[1..], i - 1, it); }
  }

  lemma FinalLoad(lens: seq<nat>, s: Sets, i: nat)
    requires Bag(s) == multiset(Items(lens)) && i < |s|
    ensures Load(lens, Partitions(s)[i]) == Sum(s[i])
  {
    forall it | it in s[i] ensures it.idx < |lens| && it.len == lens[it.idx] {
      BagMember(s, i, it);
      assert it in Items(lens);
    }
    LoadIsSum(lens, s[i]);
  }

  // ---------------------------------------------------------------- the main result

  /** The state left at the end, and all that is known of it. */
  lemma FinalState(lens: seq<nat>, k: nat, step: nat, gap: nat)
    requires lens != [] && 0 < step <= k && GapBound(SortedItems(lens), k, step, gap)
    ensures Queue(InitialStates(SortedItems(lens), k, step), k)
    ensures var s := Differ(InitialStates(SortedItems(lens), k, step), k);
            WellFormed(s, k) && Spread(s) <= gap && Bag(s) == multiset(Items(lens)) && Filled(s) == Min(k, |lens|)
  {
    SortedItemsFacts(lens);
    InitialQueue(lens, k, step);
    InitialSpread(SortedItems(lens), k, step, gap);
    InitialContents(SortedItems(lens), k, step);
    DifferKeeps(InitialStates(SortedItems(lens), k, step), k, gap);
  }

  lemma EqualSizes(lens: seq<nat>, k: nat)
    requires lens != [] && k > 0 && |lens| % k == 0
    ensures Queue(InitialStates(SortedItems(lens), k, k), k)
    ensures var s := Differ(InitialStates(SortedItems(lens), k, k), k);
            forall i :: 0 <= i < |s| ==> |s[i]| * k == |lens|
  {
    var m := |lens| / k;
    assert |lens| == m * k;
    SortedItemsFacts(lens);
    InitialQueue(lens, k, k);
    InitialUniform(SortedItems(lens), k, m);
    DifferUniform(InitialStates(SortedItems(lens), k, k), k);
  }

  /** Karmarkar-Karp succeeds on every non-empty input (of divisible length in equal-size mode)
      and yields k parts that cover every index exactly once, all non-empty when there are at
      least k items, equally large in equal-size mode. */
  lemma KarmarkarKarpPartitions(lens: seq<nat>, k: nat, equalSize: bool)
    ensures KarmarkarKarp(lens, k, equalSize).Ok? <==> lens != [] && k > 0 && (equalSize ==> |lens| % k == 0)
    ensures KarmarkarKarp(lens, k, equalSize).Ok? ==>
              var parts := KarmarkarKarp(lens, k, equalSize).value;
              && |parts| == k && ExactPartition(parts, |lens|)
              && (|lens| >= k ==> forall i :: 0 <= i < k ==> parts[i] != [])
              && (equalSize ==> forall i :: 0 <= i < k ==> |parts[i]| * k == |lens|)
  {
    if lens != [] && k > 0 && (equalSize ==> |lens| % k == 0) {
      var step := if equalSize then k else 1;
      SortedItemsFacts(lens);
      Longest(lens);
      LongestBounds(SortedItems(lens), k, step, Sup(lens));
      FinalState(lens, k, step, Sup(lens));
      var s := Differ(InitialStates(SortedItems(lens), k, step), k);
      FinalExact(lens, s);
      FilledFirst(s);
      if equalSize { EqualSizes(lens, k); }
      KarmarkarKarpIs(lens, k, equalSize, Partitions(s));
    }
  }

  lemma KarmarkarKarpIs(lens: seq<nat>, k: nat, equalSize: bool, parts: seq<seq<nat>>)
    requires lens != [] && k > 0 && (equalSize ==> |lens| % k == 0)
    requires var ss := InitialStates(SortedItems(lens), k, if equalSize then k else 1);
             Queue(ss, k) && parts == Partitions(Differ(ss, k))
    requires equalSize ==> EquallyLarge(parts, k, |lens|)
    ensures KarmarkarKarp(lens, k, equalSize) == Ok(parts)
  {}

  /** The loads of any two parts differ by at most the longest length, or in equal-size mode by
      at most the largest difference within one chunk of k consecutive lengths. */
  lemma KarmarkarKarpBalance(lens: seq<nat>, k: nat, equalSize: bool, gap: nat, i: nat, j: nat)
    requires KarmarkarKarp(lens, k, equalSize).Ok? && i < k && j < k
    requires k > 0 && GapBound(SortedItems(lens), k, if equalSize then k else 1, gap)
    ensures var parts := KarmarkarKarp(lens, k, equalSize).value;
            |parts| == k && Load(lens, parts[i]) <= Load(lens, parts[j]) + gap
  {
    var step := if equalSize then k else 1;
    FinalState(lens, k, step, gap);
    StateBalance(lens, Differ(InitialStates(SortedItems(lens), k, step), k), k, gap, i, j);
    KarmarkarKarpValue(lens, k, equalSize);
  }

  lemma StateBalance(lens: seq<nat>, s: Sets, k: nat, gap: int, i: nat, j: nat)
    requires WellFormed(s, k) && Spread(s) <= gap && Bag(s) == multiset(Items(lens)) && i < k && j < k
    ensures Load(lens, Partitions(s)[i]) <= Load(lens, Partitions(s)[j]) + gap
  {
    FinalLoad(lens, s, i);
    FinalLoad(lens, s, j);
    SumsDecrease(s, k, 0, i);
    SumsDecrease(s, k, j, k - 1);
  }

  lemma KarmarkarKarpValue(lens: seq<nat>, k: nat, equalSize: bool)
    requires KarmarkarKarp(lens, k, equalSize).Ok?
    ensures k > 0
    ensures var ss := InitialStates(SortedItems(lens), k, if equalSize then k else 1);
            Queue(ss, k) && KarmarkarKarp(lens, k, equalSize).value == Partitions(Differ(ss, k))
  {
    InitialQueue(lens, k, if equalSize then k else 1);
  }

  // ---------------------------------------------------------------- the checked, sorted partitions

  predicate AtMost(a: nat, b: nat) { a <= b }

  function SortParts(parts: seq<seq<nat>>): seq<seq<nat>> {
    seq(|parts|, i requires 0 <= i < |parts| => Sort(parts[i], AtMost))
  }

  /** `get_seqlen_balanced_partitions`. */
  function BalancedPartitions(lens: seq<nat>, k: nat, equalSize: bool): Result<seq<seq<nat>>> {
    if |lens| < k then Raise(AssertionError)
    else
      var parts :- KarmarkarKarp(lens, k, equalSize);
      if |parts| != k
         || (exists i :: 0 <= i < |parts| && parts[i] == [])
         || (set x | x in Flat(parts)) != (set x | x in Range(0, |lens|))
      then Raise(AssertionError)
      else Ok(SortParts(parts))
  }

  lemma {:induction false} ConcatMembers(parts: seq<seq<nat>>, i: nat, x: nat)
    requires i < |parts| && x in parts[i]
    ensures x in Flat(parts)
  {
    if i > 0 { ConcatMembers(parts[1..], i - 1, x); }
  }

  lemma {:induction false} SortPartsConcat(parts: seq<seq<nat>>)
    ensures multiset(Flat(SortParts(parts))) == multiset(Flat(parts))
  {
    if parts != [] {
      SortPermutes(parts[0], AtMost);
      SortPartsConcat(parts[1..]);
      assert SortParts(parts)[1..] == SortParts(parts[1..]);
    }
  }

  lemma {:induction false} LoadConcat(lens: seq<nat>, a: seq<nat>, b: seq<nat>)
    ensures Load(lens, a + b) == Load(lens, a) + Load(lens, b)
  {
    if a == [] {
      assert a + b == b;
    } else {
      assert (a + b)[1..] == a[1..] + b;
      LoadConcat(lens, a[1..], b);
    }
  }

  lemma {:induction false} LoadPermute(lens: seq<nat>, a: seq<nat>, b: seq<nat>)
    requires multiset(a) == multiset(b)
    ensures Load(lens, a) == Load(lens, b)
  {
    if a == [] {
      assert |b| == |multiset(b)| == 0;
    } else {
      var j := SameHead(a, b);
      LoadPermute(lens, a[1..], Without(b, j));
      assert b == b[..j] + ([b[j]] + b[j + 1..]);
      LoadConcat(lens, b[..j], [b[j]] + b[j + 1..]);
      LoadConcat(lens, b[..j], b[j + 1..]);
      assert ([b[j]] + b[j + 1..])[1..] == b[j + 1..];
    }
  }

  lemma ExactMembers(parts: seq<seq<nat>>, n: nat)
    requires ExactPartition(parts, n)
    ensures (set x | x in Flat(parts)) == (set x | x in Range(0, n))
  {
    forall x ensures x in Flat(parts) <==> x in Range(0, n) {
      assert x in Flat(parts) <==> x in multiset(Flat(parts));
      assert x in Range(0, n) <==> x in multiset(Range(0, n));
    }
  }

  lemma SortPartsFacts(parts: seq<seq<nat>>, n: nat)
    requires ExactPartition(parts, n)
    ensures ExactPartition(SortParts(parts), n)
    ensures forall i :: 0 <= i < |parts| ==>
              |SortParts(parts)[i]| == |parts[i]| && Sorted(SortParts(parts)[i], AtMost)
  {
    SortPartsConcat(parts);
    forall i | 0 <= i < |parts| ensures |SortParts(parts)[i]| == |parts[i]| && Sorted(SortParts(parts)[i], AtMost) {
      SortPermutes(parts[i], AtMost);
      SortSorts(parts[i], AtMost);
    }
  }

  lemma ChecksPass(lens: seq<nat>, k: nat, equalSize: bool)
    requires k <= |lens| && KarmarkarKarp(lens, k, equalSize).Ok?
    requires var parts := KarmarkarKarp(lens, k, equalSize).value;
             |parts| == k && ExactPartition(parts, |lens|) && forall i :: 0 <= i < k ==> parts[i] != []
    ensures BalancedPartitions(lens, k, equalSize) == Ok(SortParts(KarmarkarKarp(lens, k, equalSize).value))
  {
    ExactMembers(KarmarkarKarp(lens, k, equalSize).value, |lens|);
  }

  /** With at least as many items as parts no check fails: the parts are sorted, non-empty, cover
      every index exactly once, and in equal-size mode are equally large. */
  lemma BalancedPartitionsSucceed(lens: seq<nat>, k: nat, equalSize: bool)
    ensures BalancedPartitions(lens, k, equalSize).Ok? <==>
            1 <= k <= |lens| && (equalSize ==> |lens| % k == 0)
    ensures BalancedPartitions(lens, k, equalSize).Ok? ==>
              var parts := BalancedPartitions(lens, k, equalSize).value;
              && |parts| == k && ExactPartition(parts, |lens|)
              && (forall i :: 0 <= i < k ==> parts[i] != [] && forall x, y :: 0 <= x < y < |parts[i]| ==> parts[i][x] <= parts[i][y])
              && (equalSize ==> forall i :: 0 <= i < k ==> |parts[i]| * k == |lens|)
  {
    KarmarkarKarpPartitions(lens, k, equalSize);
    if 1 <= k <= |lens| && (equalSize ==> |lens| % k == 0) {
      ChecksPass(lens, k, equalSize);
      SortPartsFacts(KarmarkarKarp(lens, k, equalSize).value, |lens|);
    }
  }

  lemma BalancedLoads(lens: seq<nat>, k: nat, equalSize: bool, gap: nat, i: nat, j: nat)
    requires BalancedPartitions(lens, k, equalSize).Ok? && i < k && j < k
    requires GapBound(SortedItems(lens), k, if equalSize then k else 1, gap)
    ensures var parts := BalancedPartitions(lens, k, equalSize).value;
            |parts| == k && Load(lens, parts[i]) <= Load(lens, parts[j]) + gap
  {
    KarmarkarKarpBalance(lens, k, equalSize, gap, i, j);
    var parts := KarmarkarKarp(lens, k, equalSize).value;
    SortPermutes(parts[i], AtMost);
    SortPermutes(parts[j], AtMost);
    LoadPermute(lens, Sort(parts[i], AtMost), parts[i]);
    LoadPermute(lens, Sort(parts[j], AtMost), parts[j]);
  }

  lemma SortedLoad(lens: seq<nat>, k: nat, equalSize: bool, i: nat)
    requires BalancedPartitions(lens, k, equalSize).Ok? && i < k
    ensures KarmarkarKarp(lens, k, equalSize).Ok? && |KarmarkarKarp(lens, k, equalSize).value| == k
    ensures |BalancedPartitions(lens, k, equalSize).value| == k
    ensures Load(lens, BalancedPartitions(lens, k, equalSize).value[i]) == Load(lens, KarmarkarKarp(lens, k, equalSize).value[i])
  {
    var parts := KarmarkarKarp(lens, k, equalSize).value;
    SortPermutes(parts[i], AtMost);
    LoadPermute(lens, Sort(parts[i], AtMost), parts[i]);
  }

  lemma StateDescends(lens: seq<nat>, s: Sets, k: nat, i: nat, j: nat)
    requires WellFormed(s, k) && Bag(s) == multiset(Items(lens)) && i < j < k
    ensures Load(lens, Partitions(s)[j]) <= Load(lens, Partitions(s)[i])
  {
    SumsDecrease(s, k, i, j);
    FinalLoad(lens, s, i);
    FinalLoad(lens, s, j);
  }

  /** The partitions stand in the order of their loads, heaviest first. */
  lemma LoadsDescend(lens: seq<nat>, k: nat, equalSize: bool, i: nat, j: nat)
    requires BalancedPartitions(lens, k, equalSize).Ok? && i < j < k
    ensures var parts := BalancedPartitions(lens, k, equalSize).value;
            |parts| == k && Load(lens, parts[j]) <= Load(lens, parts[i])
  {
    SortedLoad(lens, k, equalSize, i);
    SortedLoad(lens, k, equalSize, j);
    var s := LastState(lens, k, equalSize);
    StateDescends(lens, s, k, i, j);
  }

  /** The state that is left. */
  lemma LastState(lens: seq<nat>, k: nat, equalSize: bool) returns (s: Sets)
    requires KarmarkarKarp(lens, k, equalSize).Ok?
    ensures WellFormed(s, k) && Bag(s) == multiset(Items(lens)) && KarmarkarKarp(lens, k, equalSize).value == Partitions(s)
  {
    var step := if equalSize then k else 1;
    KarmarkarKarpValue(lens, k, equalSize);
    SortedItemsFacts(lens);
    Longest(lens);
    LongestBounds(SortedItems(lens), k, step, Sup(lens));
    FinalState(lens, k, step, Sup(lens));
    s := Differ(InitialStates(SortedItems(lens), k, step), k);
  }

  // ---------------------------------------------------------------- the heaviest part

  function TotalLen(lens: seq<nat>): nat { if lens == [] then 0 else lens[0] + TotalLen(lens[1..]) }

  function SumLoads(lens: seq<nat>, parts: seq<seq<nat>>): nat {
    if parts == [] then 0 else Load(lens, parts[0]) + SumLoads(lens, parts[1..])
  }

  lemma {:induction false} SumLoadsConcat(lens: seq<nat>, parts: seq<seq<nat>>)
    ensures SumLoads(lens, parts) == Load(lens, Flat(parts))
  {
    if parts != [] {
      SumLoadsConcat(lens, parts[1..]);
      LoadConcat(lens, parts[0], Flat(parts[1..]));
    }
  }

  lemma {:induction false} LoadRange(lens: seq<nat>, m: nat)
    requires m <= |lens|
    ensures Load(lens, Range(0, m)) == TotalLen(lens[..m])
  {
    if m > 0 {
      LoadRange(lens, m - 1);
      assert Range(0, m) == Range(0, m - 1) + [m - 1];
      LoadConcat(lens, Range(0, m - 1), [m - 1]);
      assert lens[..m] == lens[..m - 1] + [lens[m - 1]];
      TotalLenPush(lens[..m - 1], lens[m - 1]);
      assert Load(lens, [m - 1]) == lens[m - 1];
    }
  }

  lemma {:induction false} TotalLenPush(a: seq<nat>, x: nat)
    ensures TotalLen(a + [x]) == TotalLen(a) + x
  {
    if a != [] {
      assert (a + [x])[1..] == a[1..] + [x];
      TotalLenPush(a[1..], x);
    }
  }

  lemma PartsWeighTotal(lens: seq<nat>, parts: seq<seq<nat>>)
    requires ExactPartition(parts, |lens|)
    ensures SumLoads(lens, parts) == TotalLen(lens)
  {
    SumLoadsConcat(lens, parts);
    LoadPermute(lens, Flat(parts), Range(0, |lens|));
    LoadRange(lens, |lens|);
    assert lens[..|lens|] == lens;
  }

  lemma OneMoreTimes(n: nat, x: nat)
    requires n > 0
    ensures n * x == (n - 1) * x + x
  {}

  /** If every load is within `gap` of `top`, the loads add up to nearly |parts| times `top`. */
  lemma {:induction false} SumLower(lens: seq<nat>, parts: seq<seq<nat>>, top: nat, gap: nat)
    requires forall j :: 0 <= j < |parts| ==> top <= Load(lens, parts[j]) + gap
    ensures |parts| * top <= SumLoads(lens, parts) + |parts| * gap
  {
    if parts != [] {
      assert forall j :: 0 <= j < |parts[1..]| ==> parts[1..][j] == parts[j + 1];
      SumLower(lens, parts[1..], top, gap);
      OneMoreTimes(|parts|, top);
      OneMoreTimes(|parts|, gap);
    }
  }

  lemma {:induction false} SumLoadsSplit(lens: seq<nat>, a: seq<seq<nat>>, b: seq<seq<nat>>)
    ensures SumLoads(lens, a + b) == SumLoads(lens, a) + SumLoads(lens, b)
  {
    if a == [] {
      assert a + b == b;
    } else {
      assert (a + b)[1..] == a[1..] + b;
      SumLoadsSplit(lens, a[1..], b);
    }
  }

  lemma OthersLoad(lens: seq<nat>, parts: seq<seq<nat>>, i: nat)
    requires i < |parts|
    ensures SumLoads(lens, parts) == SumLoads(lens, Without(parts, i)) + Load(lens, parts[i])
  {
    var a, b := parts[..i], parts[i + 1..];
    assert parts == a + ([parts[i]] + b);
    SumLoadsSplit(lens, a, [parts[i]] + b);
    assert ([parts[i]] + b)[1..] == b;
    SumLoadsSplit(lens, a, b);
  }

  lemma OthersHeavy(lens: seq<nat>, parts: seq<seq<nat>>, gap: nat, i: nat, top: nat)
    requires i < |parts|
    requires forall j :: 0 <= j < |parts| ==> top <= Load(lens, parts[j]) + gap
    ensures (|parts| - 1) * top <= SumLoads(lens, Without(parts, i)) + (|parts| - 1) * gap
  {
    var others := Without(parts, i);
    forall j | 0 <= j < |others| ensures top <= Load(lens, others[j]) + gap {
      assert others[j] == parts[if j < i then j else j + 1];
    }
    SumLower(lens, others, top, gap);
  }

  lemma OneMore(k: nat, top: nat, rest: nat, total: nat, gap: nat)
    requires k > 0 && (k - 1) * top <= rest + (k - 1) * gap && total == rest + top
    ensures k * top <= total + (k - 1) * gap
  {
    assert k * top == (k - 1) * top + top;
  }

  lemma HeavyAmong(lens: seq<nat>, parts: seq<seq<nat>>, gap: nat, i: nat, top: nat, total: nat)
    requires i < |parts| && top == Load(lens, parts[i]) && total == SumLoads(lens, parts)
    requires forall j :: 0 <= j < |parts| ==> top <= Load(lens, parts[j]) + gap
    ensures |parts| * top <= total + (|parts| - 1) * gap
  {
    var rest := SumLoads(lens, Without(parts, i));
    assert total == rest + top by { OthersLoad(lens, parts, i); }
    assert (|parts| - 1) * top <= rest + (|parts| - 1) * gap by { OthersHeavy(lens, parts, gap, i, top); }
    OneMore(|parts|, top, rest, total, gap);
  }

  /** No part is heavier than the mean plus (k - 1) / k of the gap. */
  lemma HeaviestPart(lens: seq<nat>, parts: seq<seq<nat>>, gap: nat, i: nat)
    requires ExactPartition(parts, |lens|) && i < |parts|
    requires forall j :: 0 <= j < |parts| ==> Load(lens, parts[i]) <= Load(lens, parts[j]) + gap
    ensures |parts| * Load(lens, parts[i]) <= TotalLen(lens) + (|parts| - 1) * gap
  {
    PartsWeighTotal(lens, parts);
    HeavyAmong(lens, parts, gap, i, Load(lens, parts[i]), TotalLen(lens));
  }

  /** No part that is returned is heavier than the mean plus (k - 1) / k of the longest length. */
  lemma HeaviestBalanced(lens: seq<nat>, k: nat, i: nat)
    requires BalancedPartitions(lens, k, false).Ok? && i < k
    ensures var parts := BalancedPartitions(lens, k, false).value;
            |parts| == k && k * Load(lens, parts[i]) <= TotalLen(lens) + (k - 1) * Sup(lens)
  {
    BalancedPartitionsSucceed(lens, k, false);
    var parts := BalancedPartitions(lens, k, false).value;
    SortedItemsFacts(lens);
    Longest(lens);
    LongestBounds(SortedItems(lens), k, 1, Sup(lens));
    forall j | 0 <= j < k ensures Load(lens, parts[i]) <= Load(lens, parts[j]) + Sup(lens) {
      BalancedLoads(lens, k, false, Sup(lens), i, j);
    }
    HeaviestPart(lens, parts, Sup(lens), i);
  }
}
