/** Karmarkar-Karp partitions: exact, balanced, without empty parts. */
module Partitioning {
  import opened Arith
  import opened Differencing
  import opened Seqs
  import opened Sorting

  // ---------------------------------------------------------------- the merge loop

  ghost predicate Queue(ss: seq<Sets>, k: nat) { ss != [] && forall s :: s in ss ==> WellFormed(s, k) }

  function FirstPop(ss: seq<Sets>, k: nat): (a: Sets)
    requires Queue(ss, k)
    ensures a in ss
  {
    ss[Least(ss)]
  }

  function SecondPop(ss: seq<Sets>, k: nat): (b: Sets)
    requires Queue(ss, k) && |ss| > 1
    ensures b in ss
  {
    var rest := Without(ss, Least(ss));
    rest[Least(rest)]
  }

  /** The queue after popping the two least states and pushing their merge. */
  function Round(ss: seq<Sets>, k: nat): (r: seq<Sets>)
    requires Queue(ss, k) && |ss| > 1
    ensures Queue(r, k) && |r| == |ss| - 1
    ensures forall s :: s in r ==> s in ss || s == Merge(FirstPop(ss, k), SecondPop(ss, k))
  {
    var rest := Without(ss, Least(ss));
    var m := Merge(FirstPop(ss, k), SecondPop(ss, k));
    MergeWellFormed(FirstPop(ss, k), SecondPop(ss, k), k);
    Without(rest, Least(rest)) + [m]
  }

  /** A turn takes the two popped states out and puts their merge in. */
  lemma RoundIs(ss: seq<Sets>, k: nat)
    requires Queue(ss, k) && |ss| > 1
    ensures multiset(ss) + multiset{Merge(FirstPop(ss, k), SecondPop(ss, k))}
            == multiset(Round(ss, k)) + multiset{FirstPop(ss, k), SecondPop(ss, k)}
  {
    var rest := Without(ss, Least(ss));
    BagWithout(ss, Least(ss));
    BagWithout(rest, Least(rest));
    assert multiset(Round(ss, k)) == multiset(Without(rest, Least(rest))) + multiset{Merge(FirstPop(ss, k), SecondPop(ss, k))};
  }

  function Differ(ss: seq<Sets>, k: nat): Sets
    requires Queue(ss, k)
    decreases |ss|
  {
    if |ss| == 1 then ss[0] else Differ(Round(ss, k), k)
  }

  ghost function TotalBag(ss: seq<Sets>): multiset<Item> {
    if ss == [] then multiset{} else Bag(ss[0]) + TotalBag(ss[1..])
  }

  function Total(ss: seq<Sets>, f: Sets -> nat): nat {
    if ss == [] then 0 else f(ss[0]) + Total(ss[1..], f)
  }

  lemma {:induction false} TotalConcat(a: seq<Sets>, b: seq<Sets>, f: Sets -> nat)
    ensures Total(a + b, f) == Total(a, f) + Total(b, f)
    ensures TotalBag(a + b) == TotalBag(a) + TotalBag(b)
  {
    if a == [] {
      assert a + b == b;
    } else {
      assert (a + b)[1..] == a[1..] + b;
      TotalConcat(a[1..], b, f);
    }
  }

  lemma TotalWithout(ss: seq<Sets>, i: nat, f: Sets -> nat)
    requires i < |ss|
    ensures Total(ss, f) == f(ss[i]) + Total(Without(ss, i), f)
    ensures TotalBag(ss) == Bag(ss[i]) + TotalBag(Without(ss, i))
  {
    assert ss == ss[..i] + ss[i..] && ss[i..][1..] == ss[i + 1..];
    TotalConcat(ss[..i], ss[i..], f);
    TotalConcat(ss[..i], ss[i + 1..], f);
  }

  lemma TotalOne(m: Sets, f: Sets -> nat)
    ensures Total([m], f) == f(m) && TotalBag([m]) == Bag(m)
  {
    assert [m][1..] == [];
  }

  lemma RoundTotal(ss: seq<Sets>, k: nat, f: Sets -> nat)
    requires Queue(ss, k) && |ss| > 1
    ensures var a, b := FirstPop(ss, k), SecondPop(ss, k);
            && Total(Round(ss, k), f) + f(a) + f(b) == Total(ss, f) + f(Merge(a, b))
            && TotalBag(Round(ss, k)) + Bag(a) + Bag(b) == TotalBag(ss) + Bag(Merge(a, b))
  {
    var i := Least(ss);
    var rest := Without(ss, i);
    var j := Least(rest);
    TotalWithout(ss, i, f);
    TotalWithout(rest, j, f);
    var m := Merge(FirstPop(ss, k), SecondPop(ss, k));
    TotalConcat(Without(rest, j), [m], f);
    TotalOne(m, f);
  }

  lemma Cancel(x: multiset<Item>, y: multiset<Item>, a: multiset<Item>, b: multiset<Item>, m: multiset<Item>)
    requires x + a + b == y + m && m == a + b
    ensures x == y
  {
    forall it ensures x[it] == y[it] {
      assert (x + a + b)[it] == (y + m)[it];
    }
  }

  lemma RoundBag(ss: seq<Sets>, k: nat)
    requires Queue(ss, k) && |ss| > 1
    ensures TotalBag(Round(ss, k)) == TotalBag(ss)
  {
    RoundTotal(ss, k, Filled);
    var a, b := FirstPop(ss, k), SecondPop(ss, k);
    MergeBag(a, b);
    Cancel(TotalBag(Round(ss, k)), TotalBag(ss), Bag(a), Bag(b), Bag(Merge(a, b)));
  }

  lemma Capped(k: nat, x: nat, y: nat, a: nat, b: nat)
    requires x + a + b == y + Min(k, a + b) && y >= a + b
    ensures Min(k, x) == Min(k, y)
  {}

  lemma RoundFilled(ss: seq<Sets>, k: nat)
    requires Queue(ss, k) && |ss| > 1
    ensures Min(k, Total(Round(ss, k), Filled)) == Min(k, Total(ss, Filled))
  {
    var a, b := FirstPop(ss, k), SecondPop(ss, k);
    var m := Merge(a, b);
    var x, y := Total(Round(ss, k), Filled), Total(ss, Filled);
    assert x + Filled(a) + Filled(b) == y + Filled(m) by { RoundTotal(ss, k, Filled); }
    assert y >= Filled(a) + Filled(b) by { RestTotal(ss, k, Filled); }
    assert Filled(m) == Min(k, Filled(a) + Filled(b)) by { MergeFilled(a, b, k); }
    Capped(k, x, y, Filled(a), Filled(b));
  }

  lemma RestTotal(ss: seq<Sets>, k: nat, f: Sets -> nat)
    requires Queue(ss, k) && |ss| > 1
    ensures Total(ss, f) >= f(FirstPop(ss, k)) + f(SecondPop(ss, k))
  {
    var i := Least(ss);
    var rest := Without(ss, i);
    TotalWithout(ss, i, f);
    TotalWithout(rest, Least(rest), f);
  }

  /** Whatever is popped, the last state has all items, no larger spread than the widest initial
      state, and as many non-empty sets as the initial states together, but at most k. */
  lemma {:induction false} DifferKeeps(ss: seq<Sets>, k: nat, gap: int)
    requires Queue(ss, k) && forall s :: s in ss ==> Spread(s) <= gap
    ensures WellFormed(Differ(ss, k), k)
    ensures 0 <= Spread(Differ(ss, k)) <= gap
    ensures Bag(Differ(ss, k)) == TotalBag(ss)
    ensures Filled(Differ(ss, k)) == Min(k, Total(ss, Filled))
    decreases |ss|
  {
    if |ss| == 1 {
      OneLeft(ss, k);
    } else {
      RoundBag(ss, k);
      RoundFilled(ss, k);
      MergeSpread(FirstPop(ss, k), SecondPop(ss, k), k);
      DifferKeeps(Round(ss, k), k, gap);
    }
  }

  lemma OneLeft(ss: seq<Sets>, k: nat)
    requires Queue(ss, k) && |ss| == 1
    ensures WellFormed(ss[0], k) && 0 <= Spread(ss[0]) && Bag(ss[0]) == TotalBag(ss)
    ensures Filled(ss[0]) == Min(k, Total(ss, Filled))
  {
    assert ss[1..] == [];
    assert ss[0] in ss;
    SumsDecrease(ss[0], k, 0, k - 1);
    FilledFirst(ss[0]);
  }

  /** If every state has sets of one size, so has the last one, and the sizes add up. */
  lemma {:induction false} DifferUniform(ss: seq<Sets>, k: nat)
    requires Queue(ss, k) && forall s :: s in ss ==> Uniform(s)
    ensures Uniform(Differ(ss, k)) && Size(Differ(ss, k)) == Total(ss, Size)
    decreases |ss|
  {
    if |ss| == 1 {
      assert ss[1..] == [];
    } else {
      RoundTotal(ss, k, Size);
      MergeUniform(FirstPop(ss, k), SecondPop(ss, k));
      DifferUniform(Round(ss, k), k);
    }
  }

  // ---------------------------------------------------------------- the initial states

  function Items(lens: seq<nat>): seq<Item> {
    seq(|lens|, i requires 0 <= i < |lens| => Item(i, lens[i]))
  }

  predicate Shorter(a: Item, b: Item) { a.len < b.len || (a.len == b.len && a.idx <= b.idx) }

  function SortedItems(lens: seq<nat>): seq<Item> { Sort(Items(lens), Shorter) }

  lemma SortedItemsFacts(lens: seq<nat>)
    ensures Sorted(SortedItems(lens), Shorter)
    ensures multiset(SortedItems(lens)) == multiset(Items(lens))
    ensures |SortedItems(lens)| == |lens|
    ensures forall it :: it in SortedItems(lens) ==> it.idx < |lens| && it.len == lens[it.idx]
  {
    SortSorts(Items(lens), Shorter);
    SortPermutes(Items(lens), Shorter);
    SortMembers(Items(lens), Shorter);
  }

  /** Shortest first, and among equally long items the one that came first. */
  lemma SortedItemsAscend(lens: seq<nat>, i: nat, j: nat)
    requires i < j < |lens|
    ensures |SortedItems(lens)| == |lens|
    ensures var a, b := SortedItems(lens)[i], SortedItems(lens)[j];
            a.len < b.len || (a.len == b.len && a.idx < b.idx)
  {
    SortedItemsFacts(lens);
    var s := SortedItems(lens);
    assert Shorter(s[i], s[j]);
    if s[i].idx == s[j].idx {
      assert s[i] == s[j];
      TwiceInBag(s, i, j);
      ItemsDistinct(lens, s[i]);
    }
  }

  lemma TwiceInBag(s: seq<Item>, i: nat, j: nat)
    requires i < j < |s| && s[i] == s[j]
    ensures multiset(s)[s[i]] >= 2
  {
    BagWithout(s, i);
    assert Without(s, i)[j - 1] == s[j];
  }

  lemma {:induction false} ItemsDistinct(lens: seq<nat>, it: Item)
    ensures multiset(Items(lens))[it] <= 1
  {
    if lens == [] {
    } else {
      var n := |lens| - 1;
      ItemsDistinct(lens[..n], it);
      assert Items(lens) == Items(lens[..n]) + [Item(n, lens[n])];
      if it == Item(n, lens[n]) { assert it !in Items(lens[..n]); }
    }
  }

  /** One state per `step` consecutive items: all k of them in equal-size mode, else just one. */
  function InitialStates(sorted: seq<Item>, k: nat, step: nat): seq<Sets>
    requires 0 < step <= k
    decreases |sorted|
  {
    if sorted == [] then []
    else
      var c := Min(step, |sorted|);
      [NewState(sorted[..c], k)] + InitialStates(sorted[c..], k, step)
  }

  /** What bounds the spread: the longest item, or in equal-size mode the widest chunk. */
  ghost predicate GapBound(sorted: seq<Item>, k: nat, step: nat, gap: nat)
    requires 0 < step <= k
    decreases |sorted|
  {
    sorted == [] ||
    var c := Min(step, |sorted|);
    && (forall i :: 0 <= i < c ==> sorted[i].len <= gap + if c == k then sorted[0].len else 0)
    && GapBound(sorted[c..], k, step, gap)
  }

  lemma NewStateContents(chunk: seq<Item>, k: nat)
    requires 0 < |chunk| <= k
    ensures WellFormed(NewState(chunk, k), k)
    ensures Bag(NewState(chunk, k)) == multiset(chunk)
    ensures Filled(NewState(chunk, k)) == |chunk|
    ensures |chunk| == k ==> Uniform(NewState(chunk, k)) && Size(NewState(chunk, k)) == 1
  {
    var raw := RawState(chunk, k);
    NewStateWellFormed(chunk, k);
    SortBag(raw);
    SortFilled(raw);
    FilledEnds(raw, |chunk|, 0);
    RawBag(chunk, raw);
    if |chunk| == k { SortUniform(raw, 1); }
  }

  lemma NewStateSpread(chunk: seq<Item>, k: nat, gap: nat)
    requires 0 < |chunk| <= k
    requires forall i :: 0 <= i < |chunk| ==> chunk[i].len <= gap + if |chunk| == k then chunk[0].len else 0
    requires Sorted(chunk, Shorter)
    ensures |NewState(chunk, k)| == k && Spread(NewState(chunk, k)) <= gap
  {
    var raw := RawState(chunk, k);
    var s := NewState(chunk, k);
    SortMembers(raw, Heavier);
    assert s[0] in raw && s[k - 1] in raw;
    var i :| 0 <= i < k && raw[i] == s[0];
    var j :| 0 <= j < k && raw[j] == s[k - 1];
    assert Sum(raw[i]) <= gap + if |chunk| == k then chunk[0].len else 0;
    if j < |chunk| {
      if j > 0 { assert Shorter(chunk[0], chunk[j]); }
      assert Sum(raw[j]) >= chunk[0].len;
    }
  }

  lemma {:induction false} RawBag(chunk: seq<Item>, raw: Sets)
    requires |chunk| <= |raw|
    requires forall i :: 0 <= i < |raw| ==> raw[i] == if i < |chunk| then [chunk[i]] else []
    ensures Bag(raw) == multiset(chunk)
  {
    if raw != [] {
      RawBag(if chunk == [] then [] else chunk[1..], raw[1..]);
      if chunk != [] { assert chunk == [chunk[0]] + chunk[1..]; }
    }
  }

  lemma ConsTotal(s: Sets, ss: seq<Sets>, f: Sets -> nat)
    ensures Total([s] + ss, f) == f(s) + Total(ss, f)
    ensures TotalBag([s] + ss) == Bag(s) + TotalBag(ss)
  {
    assert ([s] + ss)[1..] == ss;
  }

  lemma InitialCons(sorted: seq<Item>, k: nat, step: nat)
    requires 0 < step <= k && sorted != []
    ensures var c := Min(step, |sorted|);
            InitialStates(sorted, k, step) == [NewState(sorted[..c], k)] + InitialStates(sorted[c..], k, step)
  {}

  /** `ss` holds exactly these items, one per non-empty set. */
  ghost predicate Holds(ss: seq<Sets>, items: seq<Item>) {
    TotalBag(ss) == multiset(items) && Total(ss, Filled) == |items|
  }

  lemma HoldsCons(first: Sets, rest: seq<Sets>, chunk: seq<Item>, items: seq<Item>)
    requires Holds(rest, items) && Bag(first) == multiset(chunk) && Filled(first) == |chunk|
    ensures Holds([first] + rest, chunk + items)
  {
    ConsTotal(first, rest, Filled);
  }

  lemma {:induction false} InitialContents(sorted: seq<Item>, k: nat, step: nat)
    requires 0 < step <= k
    ensures Holds(InitialStates(sorted, k, step), sorted)
    decreases |sorted|
  {
    if sorted != [] {
      var c := Min(step, |sorted|);
      InitialCons(sorted, k, step);
      NewStateContents(sorted[..c], k);
      InitialContents(sorted[c..], k, step);
      HoldsCons(NewState(sorted[..c], k), InitialStates(sorted[c..], k, step), sorted[..c], sorted[c..]);
      assert sorted == sorted[..c] + sorted[c..];
    }
  }

  lemma {:induction false} InitialSpread(sorted: seq<Item>, k: nat, step: nat, gap: nat)
    requires 0 < step <= k && Sorted(sorted, Shorter) && GapBound(sorted, k, step, gap)
    ensures forall s :: s in InitialStates(sorted, k, step) ==> WellFormed(s, k) && Spread(s) <= gap
    ensures sorted != [] ==> InitialStates(sorted, k, step) != []
    decreases |sorted|
  {
    if sorted != [] {
      var c := Min(step, |sorted|);
      NewStateContents(sorted[..c], k);
      NewStateSpread(sorted[..c], k, gap);
      InitialSpread(sorted[c..], k, step, gap);
    }
  }

  lemma {:induction false} InitialUniform(sorted: seq<Item>, k: nat, m: nat)
    requires k > 0 && |sorted| == m * k
    ensures var ss := InitialStates(sorted, k, k);
            (forall s :: s in ss ==> Uniform(s)) && Total(ss, Size) == m
    decreases m
  {
    if m > 0 {
      assert m * k == (m - 1) * k + k;
      NewStateContents(sorted[..k], k);
      InitialUniform(sorted[k..], k, m - 1);
      var ss := InitialStates(sorted, k, k);
      assert ss[1..] == InitialStates(sorted[k..], k, k);
    }
  }
}
