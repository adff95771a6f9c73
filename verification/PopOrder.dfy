/** Pops are determined by the input: throughout the merge loop the least state is unique, so the
    internal order of the heap never shows. */
module PopOrder {
  import opened Arith
  import opened Balancing
  import opened Differencing
  import opened Partitioning
  import opened Seqs

  /** No item occurs twice in the queue, and no state is empty. */
  ghost predicate Live(ss: seq<Sets>, k: nat) {
    Queue(ss, k) && (forall s :: s in ss ==> s[0] != []) && forall it :: TotalBag(ss)[it] <= 1
  }

  lemma FirstItem(s: Sets, k: nat)
    requires WellFormed(s, k) && s[0] != []
    ensures s[0][0] in Bag(s)
  {}

  lemma TwoBags(ss: seq<Sets>, i: nat, j: nat, it: Item)
    requires i < |ss| && j < |ss| && i != j
    ensures TotalBag(ss)[it] >= Bag(ss[i])[it] + Bag(ss[j])[it]
  {
    var rest := Without(ss, i);
    var j' := if j < i then j else j - 1;
    assert rest[j'] == ss[j];
    TotalWithout(ss, i, Filled);
    TotalWithout(rest, j', Filled);
  }

  lemma StatesDiffer(ss: seq<Sets>, k: nat, i: nat, j: nat)
    requires Live(ss, k) && i < |ss| && j < |ss| && i != j
    ensures ss[i] in ss && ss[j] in ss && ss[i][0] != ss[j][0]
  {
    assert ss[i] in ss && ss[j] in ss;
    if ss[i][0] == ss[j][0] {
      FirstItem(ss[i], k);
      FirstItem(ss[j], k);
      TwoBags(ss, i, j, ss[i][0][0]);
    }
  }

  /** Every other state is strictly greater than the one popped. */
  lemma PopIsDetermined(ss: seq<Sets>, k: nat, j: nat)
    requires Live(ss, k) && j < |ss| && j != Least(ss)
    ensures ss[j] in ss && StateLess(ss[Least(ss)], ss[j]) && !StateLess(ss[j], ss[Least(ss)])
  {
    LeastIsLeast(ss);
    StatesDiffer(ss, k, Least(ss), j);
    StateLessOrder(ss[Least(ss)], ss[j]);
  }

  lemma RoundIsLive(ss: seq<Sets>, k: nat)
    requires Live(ss, k) && |ss| > 1
    ensures Live(Round(ss, k), k)
  {
    RoundBag(ss, k);
    var a, b := FirstPop(ss, k), SecondPop(ss, k);
    FilledFirst(a);
    FilledFirst(b);
    MergeFilled(a, b, k);
    MergeWellFormed(a, b, k);
    FilledFirst(Merge(a, b));
    assert Filled(Merge(a, b)) > 0;
  }

  lemma InitialIsLive(lens: seq<nat>, k: nat, step: nat)
    requires lens != [] && 0 < step <= k
    ensures Live(InitialStates(SortedItems(lens), k, step), k)
  {
    SortedItemsFacts(lens);
    InitialQueue(lens, k, step);
    InitialContents(SortedItems(lens), k, step);
    InitialNonEmpty(SortedItems(lens), k, step);
    forall it ensures multiset(Items(lens))[it] <= 1 { ItemOnce(Items(lens), it); }
  }

  lemma {:induction false} InitialNonEmpty(sorted: seq<Item>, k: nat, step: nat)
    requires 0 < step <= k
    ensures forall s :: s in InitialStates(sorted, k, step) ==> |s| == k && s[0] != []
    decreases |sorted|
  {
    if sorted != [] {
      var c := Min(step, |sorted|);
      NewStateContents(sorted[..c], k);
      FilledFirst(NewState(sorted[..c], k));
      InitialNonEmpty(sorted[c..], k, step);
    }
  }

  lemma {:induction false} ItemOnce(items: seq<Item>, it: Item)
    requires forall i, j :: 0 <= i < j < |items| ==> items[i] != items[j]
    ensures multiset(items)[it] <= 1
  {
    if items != [] {
      ItemOnce(items[1..], it);
      assert items == [items[0]] + items[1..];
      if items[0] == it { assert it !in items[1..]; }
    }
  }

  /** The queue after `m` turns of the loop. */
  function After(ss: seq<Sets>, k: nat, m: nat): (r: seq<Sets>)
    requires Queue(ss, k) && m < |ss|
    ensures Queue(r, k) && |r| == |ss| - m
    decreases m
  {
    if m == 0 then ss else After(Round(ss, k), k, m - 1)
  }

  lemma {:induction false} AfterIsLive(ss: seq<Sets>, k: nat, m: nat)
    requires Live(ss, k) && m < |ss|
    ensures Live(After(ss, k, m), k)
    decreases m
  {
    if m > 0 {
      RoundIsLive(ss, k);
      AfterIsLive(Round(ss, k), k, m - 1);
    }
  }

  lemma LiveWithout(ss: seq<Sets>, k: nat, i: nat)
    requires Live(ss, k) && i < |ss| && |ss| > 1
    ensures Live(Without(ss, i), k)
  {
    TotalWithout(ss, i, Filled);
    var rest := Without(ss, i);
    forall s | s in rest ensures s in ss {}
    forall it ensures TotalBag(rest)[it] <= 1 { assert TotalBag(rest)[it] <= TotalBag(ss)[it]; }
  }

  /** The least state is strictly less than every other, so whatever order a heap keeps, it is popped. */
  ghost predicate PopDetermined(ss: seq<Sets>, k: nat)
    requires Queue(ss, k)
  {
    forall j: nat :: j < |ss| && j != Least(ss) ==> Below(ss[Least(ss)], ss[j]) && !Below(ss[j], ss[Least(ss)])
  }

  ghost predicate Below(a: Sets, b: Sets) { |a| > 0 && |b| > 0 && StateLess(a, b) }

  lemma LiveIsDetermined(ss: seq<Sets>, k: nat)
    requires Live(ss, k)
    ensures PopDetermined(ss, k)
  {
    forall j: nat | j < |ss| && j != Least(ss) ensures Below(ss[Least(ss)], ss[j]) && !Below(ss[j], ss[Least(ss)]) {
      PopIsDetermined(ss, k, j);
      assert ss[j] in ss && WellFormed(ss[j], k);
      assert ss[Least(ss)] in ss && WellFormed(ss[Least(ss)], k);
    }
  }

  /** In every run of the loop, at every turn, both pops are determined by the states alone. */
  lemma EveryPopIsDetermined(lens: seq<nat>, k: nat, step: nat, m: nat)
    requires lens != [] && 0 < step <= k && m < |InitialStates(SortedItems(lens), k, step)|
    ensures Queue(InitialStates(SortedItems(lens), k, step), k)
    ensures var q := After(InitialStates(SortedItems(lens), k, step), k, m);
            && PopDetermined(q, k)
            && (|q| > 1 ==> var rest := Without(q, Least(q)); Queue(rest, k) && PopDetermined(rest, k))
  {
    var ss := InitialStates(SortedItems(lens), k, step);
    InitialIsLive(lens, k, step);
    AfterIsLive(ss, k, m);
    var q := After(ss, k, m);
    LiveIsDetermined(q, k);
    if |q| > 1 {
      LiveWithout(q, k, Least(q));
      LiveIsDetermined(Without(q, Least(q)), k);
    }
  }

  // ---------------------------------------------------------------- which states are popped

  /** State a goes first: it has the larger difference between its heaviest and its lightest set, or as large a
      one and the heavier first set. */
  ghost predicate GoesFirst(a: Sets, b: Sets) {
    && |a| > 0 && |b| > 0
    && var x, y := Sum(a[0]) - Sum(a[|a| - 1]), Sum(b[0]) - Sum(b[|b| - 1]);
       x > y || (x == y && Lighter(b[0], a[0]))
  }

  lemma BelowGoesFirst(a: Sets, b: Sets)
    requires Below(a, b)
    ensures GoesFirst(a, b)
  {
    SetLessIs(b[0], a[0]);
  }

  /** Both pops of a turn: the first goes before all others, the second before all but the first. */
  ghost predicate PopsInOrder(q: seq<Sets>, k: nat)
    requires Queue(q, k)
  {
    && (forall s :: s in q ==> s == FirstPop(q, k) || GoesFirst(FirstPop(q, k), s))
    && (|q| > 1 ==> forall s :: s in q ==> s == FirstPop(q, k) || s == SecondPop(q, k) || GoesFirst(SecondPop(q, k), s))
    && (|q| > 1 ==> GoesFirst(FirstPop(q, k), SecondPop(q, k)))
  }

  lemma FirstGoesFirst(q: seq<Sets>, k: nat, s: Sets)
    requires Live(q, k) && s in q
    ensures s == FirstPop(q, k) || GoesFirst(FirstPop(q, k), s)
  {
    LiveIsDetermined(q, k);
    var j: nat :| j < |q| && q[j] == s;
    if j != Least(q) { BelowGoesFirst(q[Least(q)], s); }
  }

  lemma SecondGoesFirst(q: seq<Sets>, k: nat, s: Sets)
    requires Live(q, k) && |q| > 1 && s in q
    ensures s == FirstPop(q, k) || s == SecondPop(q, k) || GoesFirst(SecondPop(q, k), s)
  {
    var i := Least(q);
    var rest := Without(q, i);
    LiveWithout(q, k, i);
    var j: nat :| j < |q| && q[j] == s;
    if j != i {
      assert rest[if j < i then j else j - 1] == s;
      FirstGoesFirst(rest, k, s);
    }
  }

  lemma PopsDiffer(q: seq<Sets>, k: nat)
    requires Live(q, k) && |q| > 1
    ensures FirstPop(q, k) != SecondPop(q, k)
  {
    var i := Least(q);
    var rest := Without(q, i);
    var j := Least(rest);
    assert SecondPop(q, k) == rest[j] == q[if j < i then j else j + 1];
    StatesDiffer(q, k, i, if j < i then j else j + 1);
  }

  /** At every turn of the loop the two states merged are those with the largest spreads, ties going to the
      heavier first set. */
  lemma PopsAreLargest(lens: seq<nat>, k: nat, step: nat, m: nat)
    requires lens != [] && 0 < step <= k && m < |InitialStates(SortedItems(lens), k, step)|
    ensures Queue(InitialStates(SortedItems(lens), k, step), k)
    ensures PopsInOrder(After(InitialStates(SortedItems(lens), k, step), k, m), k)
  {
    InitialIsLive(lens, k, step);
    AfterIsLive(InitialStates(SortedItems(lens), k, step), k, m);
    LiveInOrder(After(InitialStates(SortedItems(lens), k, step), k, m), k);
  }

  lemma LiveInOrder(q: seq<Sets>, k: nat)
    requires Live(q, k)
    ensures PopsInOrder(q, k)
  {
    forall s | s in q ensures s == FirstPop(q, k) || GoesFirst(FirstPop(q, k), s) { FirstGoesFirst(q, k, s); }
    if |q| > 1 {
      forall s | s in q ensures s == FirstPop(q, k) || s == SecondPop(q, k) || GoesFirst(SecondPop(q, k), s) {
        SecondGoesFirst(q, k, s);
      }
      PopsDiffer(q, k);
      FirstGoesFirst(q, k, SecondPop(q, k));
    }
  }
}
