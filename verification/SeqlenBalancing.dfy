/** Sequence-length balancing in the form of the source: sets and states that are merged in
    place, a queue that is popped and pushed, lists that are filled in loops. */
module SeqlenBalancing {
  import opened Arith
  import opened Balancing
  import opened Differencing
  import opened Partitioning
  import opened Results
  import opened Seqs
  import opened Sorting

  /** `Set`. */
  class ItemSet {
    var sum: nat
    var items: Part

    ghost predicate Valid()
      reads this
    {
      sum == Sum(items)
    }

    constructor ()
      ensures Valid() && items == []
    {
      sum, items := 0, [];
    }

    method Add(idx: nat, val: nat)
      requires Valid()
      modifies this
      ensures Valid() && items == old(items) + [Item(idx, val)]
    {
      SumConcat(items, [Item(idx, val)]);
      items := items + [Item(idx, val)];
      sum := sum + val;
    }

    method Merge(other: ItemSet)
      requires Valid() && other != this
      modifies this
      ensures Valid() && items == old(items) + other.items
    {
      ghost var was := items;
      for i := 0 to |other.items|
        invariant Valid() && items == was + other.items[..i]
        invariant other.items == old(other.items)
      {
        Add(other.items[i].idx, other.items[i].len);
      }
    }

    predicate LessThan(other: ItemSet)
      requires Valid() && other.Valid()
      reads this, other
      ensures LessThan(other) <==> SetLess(items, other.items)
    {
      if sum != other.sum then sum < other.sum
      else if |items| != |other.items| then |items| < |other.items|
      else ItemsLess(items, other.items)
    }
  }

  ghost predicate AllValid(sets: seq<ItemSet>)
    reads sets
  {
    forall i :: 0 <= i < |sets| ==> sets[i].Valid()
  }

  /** The items of each set. */
  ghost function Contents(sets: seq<ItemSet>): Sets
    reads sets
  {
    seq(|sets|, i requires 0 <= i < |sets| reads sets => sets[i].items)
  }

  method InsertSet(x: ItemSet, sets: seq<ItemSet>) returns (r: seq<ItemSet>)
    requires x.Valid() && AllValid(sets)
    ensures multiset(r) == multiset{x} + multiset(sets)
    ensures Contents(r) == Insert(x.items, Contents(sets), Heavier)
  {
    if sets == [] || !x.LessThan(sets[0]) {
      r := [x] + sets;
      assert Contents(r) == [x.items] + Contents(sets);
    } else {
      var t := InsertSet(x, sets[1..]);
      r := [sets[0]] + t;
      assert sets == [sets[0]] + sets[1..];
      assert Contents(sets[1..]) == Contents(sets)[1..];
      assert Contents(r) == [sets[0].items] + Contents(t);
    }
  }

  lemma ValidPermuted(sets: seq<ItemSet>, t: seq<ItemSet>)
    requires AllValid(sets) && multiset(t) == multiset(sets)
    ensures AllValid(t)
  {
    forall i | 0 <= i < |t| ensures t[i].Valid() {
      assert t[i] in multiset(t);
      assert t[i] in sets;
    }
  }

  lemma ContentsTail(sets: seq<ItemSet>, rest: seq<ItemSet>)
    requires sets != [] && rest == sets[1..] && AllValid(sets)
    ensures AllValid(rest) && Contents(rest) == Contents(sets)[1..] && Contents(sets)[0] == sets[0].items
    ensures multiset(sets) == multiset{sets[0]} + multiset(rest)
  {
    assert sets == [sets[0]] + rest;
  }

  method InsertionSort(sets: seq<ItemSet>) returns (r: seq<ItemSet>)
    requires AllValid(sets)
    ensures multiset(r) == multiset(sets)
    ensures Contents(r) == Sort(Contents(sets), Heavier)
  {
    if sets == [] {
      r := [];
    } else {
      var rest := sets[1..];
      ContentsTail(sets, rest);
      var t := InsertionSort(rest);
      ValidPermuted(rest, t);
      r := InsertSet(sets[0], t);
    }
  }

  lemma PermutedSets(a: seq<ItemSet>, b: seq<ItemSet>)
    requires multiset(a) == multiset(b)
    ensures |a| == |b| && (forall x :: x in a <==> x in b)
    ensures Distinct(a) ==> Distinct(b)
  {
    assert |a| == |multiset(a)| == |multiset(b)| == |b|;
    forall x ensures x in a <==> x in b {
      assert x in a <==> x in multiset(a);
      assert x in b <==> x in multiset(b);
    }
    if Distinct(a) {
      forall i, j | 0 <= i < j < |b| ensures b[i] != b[j] {
        if b[i] == b[j] {
          Twice(b, i, j);
          Once(a, b[i]);
        }
      }
    }
  }

  lemma Twice<T>(s: seq<T>, i: nat, j: nat)
    requires i < j < |s| && s[i] == s[j]
    ensures multiset(s)[s[i]] >= 2
  {
    assert s == s[..i] + [s[i]] + s[i + 1..j] + [s[j]] + s[j + 1..];
  }

  lemma {:induction false} Once<T>(s: seq<T>, x: T)
    requires Distinct(s)
    ensures multiset(s)[x] <= 1
  {
    if s != [] {
      assert s == [s[0]] + s[1..];
      Once(s[1..], x);
      if s[0] == x { assert x !in s[1..]; }
    }
  }

  /** `sorted(sets, reverse=True)`. */
  method SortSets(sets: seq<ItemSet>) returns (r: seq<ItemSet>)
    requires AllValid(sets) && Distinct(sets)
    ensures |r| == |sets| && AllValid(r) && Distinct(r) && forall x :: x in r <==> x in sets
    ensures Contents(r) == Sort(Contents(sets), Heavier)
  {
    r := InsertionSort(sets);
    PermutedSets(sets, r);
    assert forall i :: 0 <= i < |r| ==> r[i] in sets;
  }

  method EmptySets(k: nat) returns (r: seq<ItemSet>)
    ensures |r| == k && Distinct(r) && AllValid(r) && fresh(r)
    ensures forall j :: 0 <= j < k ==> r[j].items == []
  {
    r := [];
    for i := 0 to k
      invariant |r| == i && Distinct(r) && AllValid(r) && fresh(r)
      invariant forall j :: 0 <= j < i ==> r[j].items == []
    {
      var s := new ItemSet();
      r := r + [s];
    }
  }

  method FillSets(sets: seq<ItemSet>, items: seq<Item>)
    requires |items| <= |sets| && Distinct(sets) && AllValid(sets)
    requires forall j :: 0 <= j < |sets| ==> sets[j].items == []
    modifies sets
    ensures AllValid(sets) && Contents(sets) == RawState(items, |sets|)
  {
    for i := 0 to |items|
      invariant AllValid(sets)
      invariant forall j :: 0 <= j < |sets| ==> sets[j].items == if j < i then [items[j]] else []
    {
      assert sets[i] in sets;
      sets[i].Add(items[i].idx, items[i].len);
    }
  }

  method NewSets(items: seq<Item>, k: nat) returns (r: seq<ItemSet>)
    requires |items| <= k
    ensures |r| == k && Distinct(r) && AllValid(r)
    ensures forall i :: 0 <= i < |r| ==> fresh(r[i])
    ensures Contents(r) == NewState(items, k)
  {
    var raw := EmptySets(k);
    assert forall x :: x in raw ==> fresh(x);
    FillSets(raw, items);
    r := SortSets(raw);
    assert forall i :: 0 <= i < |r| ==> r[i] in raw;
  }

  /** Set i of one state takes in set k - 1 - i of the other. */
  method FoldSets(mine: seq<ItemSet>, theirs: seq<ItemSet>)
    requires |mine| == |theirs| && AllValid(mine) && AllValid(theirs) && Distinct(mine)
    requires forall s :: s in theirs ==> s !in mine
    modifies mine
    ensures AllValid(mine) && Contents(mine) == Fold(old(Contents(mine)), old(Contents(theirs)))
  {
    var k := |mine|;
    for i := 0 to k
      invariant AllValid(mine) && AllValid(theirs)
      invariant forall j :: 0 <= j < k ==> theirs[j].items == old(theirs[j].items)
      invariant forall j :: i <= j < k ==> mine[j].items == old(mine[j].items)
      invariant forall j :: 0 <= j < i ==> mine[j].items == old(mine[j].items) + old(theirs[k - 1 - j].items)
    {
      assert mine[i] in mine;
      assert forall j :: 0 <= j < k ==> theirs[j] in theirs && theirs[j] != mine[i];
      mine[i].Merge(theirs[k - 1 - i]);
    }
  }

  /** `State`. */
  class State {
    const k: nat
    var sets: seq<ItemSet>

    ghost predicate Valid()
      reads this, sets
    {
      |sets| == k && AllValid(sets) && Distinct(sets)
    }

    ghost function Value(): Sets
      reads this, sets
    {
      Contents(sets)
    }

    constructor (items: seq<Item>, k: nat)
      requires |items| <= k
      ensures Valid() && this.k == k && forall i :: 0 <= i < |sets| ==> fresh(sets[i])
      ensures Value() == NewState(items, k)
    {
      this.k := k;
      new;
      sets := NewSets(items, k);
    }

    method Merge(other: State)
      requires Valid() && other.Valid() && other.k == k
      requires forall s :: s in other.sets ==> s !in sets
      modifies this, sets
      ensures Valid() && forall s :: s in sets <==> s in old(sets)
      ensures Value() == Differencing.Merge(old(Value()), old(other.Value()))
    {
      ghost var folded := Fold(Value(), other.Value());
      FoldSets(sets, other.sets);
      assert Contents(sets) == folded;
      sets := SortSets(sets);
    }

    predicate LessThan(other: State)
      requires Valid() && other.Valid() && k > 0 && other.k > 0
      reads this, other, sets, other.sets
      ensures LessThan(other) <==> StateLess(Value(), other.Value())
    {
      var spread: int := sets[0].sum - sets[k - 1].sum;
      var otherSpread: int := other.sets[0].sum - other.sets[other.k - 1].sum;
      if spread != otherSpread then spread > otherSpread else other.sets[0].LessThan(sets[0])
    }

    method GetPartitions() returns (partitions: seq<seq<nat>>)
      requires Valid()
      ensures partitions == Partitions(Value())
    {
      partitions := [];
      for i := 0 to |sets|
        invariant partitions == Partitions(Value())[..i]
      {
        var current: seq<nat> := [];
        for j := 0 to |sets[i].items|
          invariant current == Idxs(sets[i].items)[..j]
        {
          current := current + [sets[i].items[j].idx];
        }
        assert current == Idxs(sets[i].items) == Partitions(Value())[i];
        partitions := partitions + [current];
      }
    }
  }

  // ---------------------------------------------------------------- the priority queue

  /** `heappop`: where the least state of the queue stands. */
  method FindLeast(pq: seq<State>, k: nat, ghost vals: seq<Sets>) returns (best: nat)
    requires pq != [] && k > 0 && |vals| == |pq|
    requires forall i :: 0 <= i < |pq| ==> Is(pq[i], k, vals[i])
    ensures (forall s :: s in vals ==> |s| > 0) && best == Least(vals)
  {
    assert forall s :: s in vals ==> |s| > 0 by { SizesAre(pq, k, vals); }
    best := |pq| - 1;
    for j := |pq| - 1 downto 0
      invariant j <= best < |pq|
      invariant best == j + Least(vals[j..])
    {
      LeastStep(vals, j, best);
      var less := Compare(pq[best], pq[j], k, vals[best], vals[j]);
      if !less {
        best := j;
      }
    }
    assert vals[0..] == vals;
  }

  lemma SizesAre(pq: seq<State>, k: nat, vals: seq<Sets>)
    requires k > 0 && |vals| == |pq| && forall i :: 0 <= i < |pq| ==> Is(pq[i], k, vals[i])
    ensures forall s :: s in vals ==> |s| > 0
  {
    forall s | s in vals ensures |s| > 0 {
      var i :| 0 <= i < |vals| && vals[i] == s;
      assert Is(pq[i], k, vals[i]);
    }
  }

  lemma LeastStep(vals: seq<Sets>, j: nat, best: nat)
    requires j + 1 < |vals| && best < |vals| && forall s :: s in vals ==> |s| > 0
    requires best == j + 1 + Least(vals[j + 1..])
    ensures |vals[best]| > 0 && |vals[j]| > 0
    ensures j + Least(vals[j..]) == if StateLess(vals[best], vals[j]) then best else j
  {
    assert vals[j..][1..] == vals[j + 1..];
    assert vals[j..][1 + Least(vals[j + 1..])] == vals[best];
  }

  /** `x < y` for states with known values. */
  method Compare(x: State, y: State, k: nat, ghost a: Sets, ghost b: Sets) returns (less: bool)
    requires k > 0 && Is(x, k, a) && Is(y, k, b)
    ensures |a| == |b| == k && less == StateLess(a, b)
  {
    less := x.LessThan(y);
  }

  ghost predicate Is(x: State, k: nat, value: Sets)
    reads x, x.sets
  {
    x.Valid() && x.k == k && x.Value() == value
  }

  ghost predicate Apart(x: State, y: State)
    reads x, y
  {
    && x != y
    && (forall i :: 0 <= i < |x.sets| ==> x.sets[i] !in y.sets)
    && (forall i :: 0 <= i < |y.sets| ==> y.sets[i] !in x.sets)
  }

  /** The item sets of the queue's states. */
  ghost function Inner(pq: seq<State>): set<ItemSet>
    reads pq
  {
    set x: State, s: ItemSet | x in pq && s in x.sets :: s
  }

  lemma InnerOf(pq: seq<State>, i: nat)
    requires i < |pq|
    ensures forall s :: s in pq[i].sets ==> s in Inner(pq)
  {}

  /** The states of the queue have these values. */
  ghost predicate Holds(pq: seq<State>, k: nat, vals: seq<Sets>)
    reads pq, Inner(pq)
  {
    |pq| == |vals| && forall i :: 0 <= i < |pq| ==> (InnerOf(pq, i); Is(pq[i], k, vals[i]))
  }

  /** No two states of the queue share an object. */
  ghost predicate AllApart(pq: seq<State>)
    reads pq
  {
    forall i, j :: 0 <= i < j < |pq| ==> Apart(pq[i], pq[j])
  }

  /** What is left of the queue without one of its states. */
  ghost predicate LeftOf(rest: seq<State>, pq: seq<State>, least: State)
    reads rest, least
  {
    forall x :: x in rest ==> x in pq && Apart(x, least)
  }

  lemma LeftTwice(others: seq<State>, rest: seq<State>, pq: seq<State>, state0: State, state1: State)
    requires LeftOf(rest, pq, state0) && LeftOf(others, rest, state1)
    ensures LeftOf(others, pq, state0)
  {}

  lemma HoldsPush(pq: seq<State>, k: nat, vals: seq<Sets>, state: State, value: Sets)
    requires Holds(pq, k, vals) && Is(state, k, value)
    ensures Holds(pq + [state], k, vals + [value])
  {}

  lemma ApartPush(pq: seq<State>, state: State)
    requires AllApart(pq) && forall x :: x in pq ==> Apart(x, state)
    ensures AllApart(pq + [state])
  {}

  lemma WithoutAt<T>(s: seq<T>, i: nat, x: nat)
    requires i < |s| && x + 1 < |s|
    ensures Without(s, i)[x] == s[if x < i then x else x + 1]
  {}

  /** What is left of a queue without one state. */
  lemma HoldingWithout(pq: seq<State>, k: nat, vals: seq<Sets>, i: nat, x: nat)
    requires i < |pq| && x + 1 < |pq| && Holds(pq, k, vals) && AllApart(pq)
    ensures Without(pq, i)[x] in pq && Apart(Without(pq, i)[x], pq[i]) && Is(Without(pq, i)[x], k, Without(vals, i)[x])
  {
    WithoutAt(pq, i, x);
    WithoutAt(vals, i, x);
  }

  lemma ApartWithout(pq: seq<State>, i: nat, x: nat, y: nat)
    requires i < |pq| && x < y && y + 1 < |pq| && AllApart(pq)
    ensures Apart(Without(pq, i)[x], Without(pq, i)[y])
  {
    WithoutAt(pq, i, x);
    WithoutAt(pq, i, y);
  }

  /** `heappop`. */
  method Pop(pq: seq<State>, k: nat, ghost vals: seq<Sets>) returns (least: State, rest: seq<State>)
    requires pq != [] && Queue(vals, k) && Holds(pq, k, vals) && AllApart(pq)
    ensures least in pq && Is(least, k, FirstPop(vals, k))
    ensures Holds(rest, k, Without(vals, Least(vals))) && AllApart(rest) && LeftOf(rest, pq, least)
  {
    assert vals[0] in vals && WellFormed(vals[0], k);
    var i := FindLeast(pq, k, vals);
    least, rest := pq[i], Without(pq, i);
    forall x | 0 <= x < |rest| ensures rest[x] in pq && Apart(rest[x], least) && Is(rest[x], k, Without(vals, i)[x]) {
      HoldingWithout(pq, k, vals, i, x);
    }
    forall x, y | 0 <= x < y < |rest| ensures Apart(rest[x], rest[y]) {
      ApartWithout(pq, i, x, y);
    }
  }

  lemma PopKeepsQueue(vals: seq<Sets>, k: nat)
    requires Queue(vals, k) && |vals| > 1
    ensures var rest := Without(vals, Least(vals));
            && Queue(rest, k) && FirstPop(rest, k) == SecondPop(vals, k)
            && Round(vals, k) == Without(rest, Least(rest)) + [Differencing.Merge(FirstPop(vals, k), SecondPop(vals, k))]
  {}

  lemma RoundPrefix(vals: seq<Sets>, k: nat)
    requires Queue(vals, k) && |vals| > 1
    ensures var left := Without(vals, Least(vals));
            Queue(left, k) && |Round(vals, k)| == |vals| - 1 && Round(vals, k)[..|vals| - 2] == Without(left, Least(left))
  {
    PopKeepsQueue(vals, k);
  }

  /** The two least states and the rest of the queue. */
  method PopTwo(pq: seq<State>, k: nat, ghost vals: seq<Sets>) returns (state0: State, state1: State, others: seq<State>)
    requires |pq| > 1 && |vals| == |pq| && Queue(vals, k) && Holds(pq, k, vals) && AllApart(pq)
    ensures state0 in pq && state1 in pq && Apart(state1, state0)
    ensures Is(state0, k, FirstPop(vals, k)) && Is(state1, k, SecondPop(vals, k))
    ensures |Round(vals, k)| == |vals| - 1 && Holds(others, k, Round(vals, k)[..|vals| - 2])
    ensures AllApart(others) && LeftOf(others, pq, state0)
  {
    ghost var left := Without(vals, Least(vals));
    PopKeepsQueue(vals, k);
    RoundPrefix(vals, k);
    var rest;
    state0, rest := Pop(pq, k, vals);
    state1, others := Pop(rest, k, left);
    LeftTwice(others, rest, pq, state0, state1);
  }

  lemma Reassociate<T>(a: seq<T>, x: T, b: seq<T>)
    ensures a + ([x] + b) == (a + [x]) + b
  {}

  /** Pushes one state per chunk of the sorted items. */
  method BuildQueue(sorted: seq<Item>, k: nat, step: nat) returns (pq: seq<State>)
    requires 0 < step <= k
    ensures Holds(pq, k, InitialStates(sorted, k, step)) && AllApart(pq)
    ensures forall x :: x in pq ==> fresh(x) && forall s :: s in x.sets ==> fresh(s)
  {
    pq := [];
    ghost var all := InitialStates(sorted, k, step);
    ghost var vals: seq<Sets> := [];
    var todo := sorted;
    while todo != []
      invariant all == vals + InitialStates(todo, k, step)
      invariant Holds(pq, k, vals) && AllApart(pq)
      invariant forall x :: x in pq ==> fresh(x) && forall s :: s in x.sets ==> fresh(s)
      decreases |todo|
    {
      var c := Min(step, |todo|);
      var state := new State(todo[..c], k);
      ghost var value := state.Value();
      assert Holds(pq, k, vals);
      HoldsPush(pq, k, vals, state, value);
      ApartPush(pq, state);
      InitialCons(todo, k, step);
      Reassociate(vals, value, InitialStates(todo[c..], k, step));
      pq := pq + [state];
      vals := vals + [value];
      todo := todo[c..];
    }
  }

  /** One turn of the merge loop: pops the two least states, merges them, pushes the result. */
  method MergeRound(pq: seq<State>, k: nat, ghost vals: seq<Sets>, ghost objects: set<object>) returns (r: seq<State>)
    requires |pq| > 1 && |vals| == |pq| && Queue(vals, k) && Holds(pq, k, vals) && AllApart(pq)
    requires forall x :: x in pq ==> Within(x, objects)
    modifies objects
    ensures forall x :: x in r ==> Within(x, objects)
    ensures Holds(r, k, Round(vals, k)) && AllApart(r)
  {
    PopKeepsQueue(vals, k);
    var state0, state1, others := PopTwo(pq, k, vals);
    ghost var rest := Round(vals, k)[..|vals| - 2];
    assert Round(vals, k) == rest + [Differencing.Merge(FirstPop(vals, k), SecondPop(vals, k))];
    r := MergeInto(state0, state1, others, k, rest, FirstPop(vals, k), SecondPop(vals, k), objects);
  }

  /** Merges the first popped state with the second; the others stay what they were. */
  method MergePopped(state0: State, state1: State, others: seq<State>, k: nat, ghost rest: seq<Sets>, ghost v0: Sets,
                     ghost v1: Sets, ghost objects: set<object>)
    requires Is(state0, k, v0) && Is(state1, k, v1) && Apart(state1, state0) && |v0| == |v1|
    requires Holds(others, k, rest) && AllApart(others) && forall x :: x in others ==> Apart(x, state0)
    requires Within(state0, objects)
    modifies state0, state0.sets
    ensures Is(state0, k, Differencing.Merge(v0, v1)) && Within(state0, objects)
    ensures Holds(others, k, rest) && AllApart(others) && forall x :: x in others ==> Apart(x, state0)
  {
    state0.Merge(state1);
    forall i | 0 <= i < |others| ensures Is(others[i], k, rest[i]) {
      assert others[i] in others && old(Is(others[i], k, rest[i]));
    }
    forall i, j | 0 <= i < j < |others| ensures Apart(others[i], others[j]) {
      assert others[i] in others && others[j] in others && old(Apart(others[i], others[j]));
    }
  }

  method MergeInto(state0: State, state1: State, others: seq<State>, k: nat, ghost rest: seq<Sets>, ghost v0: Sets,
                   ghost v1: Sets, ghost objects: set<object>) returns (r: seq<State>)
    requires Is(state0, k, v0) && Is(state1, k, v1) && Apart(state1, state0) && |v0| == |v1|
    requires Holds(others, k, rest) && AllApart(others) && forall x :: x in others ==> Apart(x, state0)
    requires Within(state0, objects) && forall x :: x in others ==> Within(x, objects)
    modifies state0, state0.sets
    ensures r == others + [state0]
    ensures forall x :: x in r ==> Within(x, objects)
    ensures Holds(r, k, rest + [Differencing.Merge(v0, v1)]) && AllApart(r)
  {
    MergePopped(state0, state1, others, k, rest, v0, v1, objects);
    r := others + [state0];
    HoldsPush(others, k, rest, state0, Differencing.Merge(v0, v1));
    ApartPush(others, state0);
  }

  ghost predicate Within(x: State, objects: set<object>)
    reads x
  {
    x in objects && forall s :: s in x.sets ==> s in objects
  }

  /** The loop of `karmarkar_karp`: merges until one state is left. */
  method MergeAll(sorted: seq<Item>, k: nat, step: nat) returns (last: State)
    requires 0 < step <= k && Queue(InitialStates(sorted, k, step), k)
    ensures Is(last, k, Differ(InitialStates(sorted, k, step), k))
  {
    var pq := BuildQueue(sorted, k, step);
    ghost var objects: set<object> :=
      (set x: State | x in pq :: x as object) + (set x: State, s: ItemSet | x in pq && s in x.sets :: s as object);
    ghost var vals := InitialStates(sorted, k, step);
    ghost var final := Differ(vals, k);
    while |pq| > 1
      invariant Queue(vals, k) && Differ(vals, k) == final
      invariant Holds(pq, k, vals) && AllApart(pq)
      invariant fresh(objects) && forall x :: x in pq ==> Within(x, objects)
    {
      pq := MergeRound(pq, k, vals, objects);
      vals := Round(vals, k);
    }
    last := pq[0];
  }

  /** `karmarkar_karp`. */
  method RunKarmarkarKarp(seqlenList: seq<nat>, kPartitions: nat, equalSize: bool) returns (r: Result<seq<seq<nat>>>)
    ensures r == KarmarkarKarp(seqlenList, kPartitions, equalSize)
  {
    var sortedSeqlenList := SortedItems(seqlenList);
    if equalSize {
      if kPartitions == 0 { return Raise(ZeroDivisionError); }
      if |seqlenList| % kPartitions != 0 { return Raise(AssertionError); }
    }
    if kPartitions == 0 || seqlenList == [] { return Raise(IndexError); }
    var step := if equalSize then kPartitions else 1;
    InitialQueue(seqlenList, kPartitions, step);
    var finalState := MergeAll(sortedSeqlenList, kPartitions, step);
    var partitions := finalState.GetPartitions();
    var ok := true;
    if equalSize { ok := SizesEqual(partitions, kPartitions, |seqlenList|); }
    r := if ok then Ok(partitions) else Raise(AssertionError);
  }

  /** The loop of `_check_and_sort_partitions`. */
  method SeeAndSort(partitions: seq<seq<nat>>) returns (ok: bool, seenIdx: set<nat>, sortedPartitions: seq<seq<nat>>)
    ensures ok <==> !exists i :: 0 <= i < |partitions| && partitions[i] == []
    ensures ok ==> seenIdx == Seen(partitions) && sortedPartitions == SortParts(partitions)
  {
    seenIdx, sortedPartitions := {}, [];
    for i := 0 to |partitions|
      invariant forall j :: 0 <= j < i ==> partitions[j] != []
      invariant seenIdx == Seen(partitions[..i])
      invariant sortedPartitions == SortParts(partitions)[..i]
    {
      if partitions[i] == [] { ok := false; return; }
      for j := 0 to |partitions[i]|
        invariant seenIdx == Seen(partitions[..i]) + (set x | x in partitions[i][..j])
      {
        seenIdx := seenIdx + {partitions[i][j]};
      }
      SeenPush(partitions, i);
      sortedPartitions := sortedPartitions + [Sort(partitions[i], AtMost)];
    }
    assert partitions[..|partitions|] == partitions;
    ok := true;
  }

  /** `get_seqlen_balanced_partitions`. */
  method GetSeqlenBalancedPartitions(seqlenList: seq<nat>, kPartitions: nat, equalSize: bool)
    returns (r: Result<seq<seq<nat>>>)
    ensures r == BalancedPartitions(seqlenList, kPartitions, equalSize)
  {
    if |seqlenList| < kPartitions { return Raise(AssertionError); }
    var raw := RunKarmarkarKarp(seqlenList, kPartitions, equalSize);
    if raw.Raise? { return raw; }
    var partitions := raw.value;
    if |partitions| != kPartitions { return Raise(AssertionError); }
    var ok, seenIdx, sortedPartitions := SeeAndSort(partitions);
    if !ok || seenIdx != (set x | x in Range(0, |seqlenList|)) { return Raise(AssertionError); }
    r := Ok(sortedPartitions);
  }

  ghost function Seen(parts: seq<seq<nat>>): set<nat> { set x | x in Flat(parts) }

  lemma {:induction false} ConcatPush(parts: seq<seq<nat>>, p: seq<nat>)
    ensures Flat(parts + [p]) == Flat(parts) + p
  {
    if parts == [] {
      assert [p][1..] == [];
    } else {
      assert (parts + [p])[1..] == parts[1..] + [p];
      ConcatPush(parts[1..], p);
    }
  }

  lemma SeenPush(parts: seq<seq<nat>>, i: nat)
    requires i < |parts|
    ensures Seen(parts[..i + 1]) == Seen(parts[..i]) + (set x | x in parts[i])
  {
    assert parts[..i + 1] == parts[..i] + [parts[i]];
    ConcatPush(parts[..i], parts[i]);
  }
}
