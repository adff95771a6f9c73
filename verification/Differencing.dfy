/** The k-way largest differencing method as functions on values. */
module Differencing {
  import opened Arith
  import opened Sorting

  datatype Item = Item(idx: nat, len: nat)

  /** The items of one set, in the order they were added. */
  type Part = seq<Item>

  function Sum(p: Part): nat {
    if p == [] then 0 else p[0].len + Sum(p[1..])
  }

  // ---------------------------------------------------------------- the orders

  predicate ItemLess(a: Item, b: Item) { a.idx < b.idx || (a.idx == b.idx && a.len < b.len) }

  predicate ItemsLess(a: Part, b: Part) {
    if b == [] then false
    else if a == [] then true
    else if a[0] != b[0] then ItemLess(a[0], b[0])
    else ItemsLess(a[1..], b[1..])
  }

  /** `Set.__lt__`. */
  predicate SetLess(a: Part, b: Part) {
    if Sum(a) != Sum(b) then Sum(a) < Sum(b)
    else if |a| != |b| then |a| < |b|
    else ItemsLess(a, b)
  }

  /** `a` may stand before `b` in a decreasing list. */
  predicate Heavier(a: Part, b: Part) { !SetLess(a, b) }

  lemma {:induction false} ItemsTrichotomy(a: Part, b: Part)
    ensures ItemsLess(a, b) || ItemsLess(b, a) || a == b
    ensures !(ItemsLess(a, b) && ItemsLess(b, a)) && !ItemsLess(a, a)
  {
    if a != [] && b != [] && a[0] == b[0] {
      ItemsTrichotomy(a[1..], b[1..]);
      assert a == [a[0]] + a[1..] && b == [b[0]] + b[1..];
    }
    if a != [] { ItemsTrichotomy(a[1..], a[1..]); }
  }

  lemma {:induction false} ItemsTransitive(a: Part, b: Part, c: Part)
    requires ItemsLess(a, b) && ItemsLess(b, c)
    ensures ItemsLess(a, c)
  {
    if a != [] && a[0] == b[0] && b[0] == c[0] {
      ItemsTransitive(a[1..], b[1..], c[1..]);
    }
  }

  /** `Set.__lt__` is a strict total order. */
  lemma SetOrder(a: Part, b: Part, c: Part)
    ensures SetLess(a, b) || SetLess(b, a) || a == b
    ensures !(SetLess(a, b) && SetLess(b, a)) && !SetLess(a, a)
    ensures SetLess(a, b) && SetLess(b, c) ==> SetLess(a, c)
  {
    ItemsTrichotomy(a, b);
    ItemsTrichotomy(a, a);
    if ItemsLess(a, b) && ItemsLess(b, c) { ItemsTransitive(a, b, c); }
  }

  /** Before the first difference the items agree; there the smaller index (then length) decides. */
  ghost predicate FirstDiffers(a: Part, b: Part, i: nat) {
    && i < |a| == |b| && a[..i] == b[..i]
    && (a[i].idx < b[i].idx || (a[i].idx == b[i].idx && a[i].len < b[i].len))
  }

  /** Less weight, or as much in fewer items, or as many with a smaller item at the first difference. */
  ghost predicate Lighter(a: Part, b: Part) {
    || Sum(a) < Sum(b)
    || (Sum(a) == Sum(b) && |a| < |b|)
    || (Sum(a) == Sum(b) && |a| == |b| && exists i: nat :: FirstDiffers(a, b, i))
  }

  lemma SameHeads(a: Part, b: Part, i: nat)
    requires 0 < i < |a| == |b| && a[..i] == b[..i]
    ensures a[0] == b[0]
  {
    assert a[0] == a[..i][0] && b[0] == b[..i][0];
  }

  lemma {:induction false} ItemsLessIs(a: Part, b: Part)
    requires |a| == |b|
    ensures ItemsLess(a, b) <==> exists i: nat :: FirstDiffers(a, b, i)
  {
    if a == [] {
    } else if a[0] != b[0] {
      if ItemLess(a[0], b[0]) { assert FirstDiffers(a, b, 0); }
      forall i: nat | FirstDiffers(a, b, i) ensures i == 0 {
        if i > 0 { SameHeads(a, b, i); }
      }
    } else {
      ItemsLessIs(a[1..], b[1..]);
      if ItemsLess(a, b) {
        var i: nat :| FirstDiffers(a[1..], b[1..], i);
        assert a[..i + 1] == [a[0]] + a[1..][..i] && b[..i + 1] == [b[0]] + b[1..][..i];
        assert FirstDiffers(a, b, i + 1);
      }
      forall i: nat | FirstDiffers(a, b, i) ensures i > 0 && FirstDiffers(a[1..], b[1..], i - 1) {
        assert i > 0;
        assert a[1..][..i - 1] == a[..i][1..] && b[1..][..i - 1] == b[..i][1..];
      }
    }
  }

  /** What `Set.__lt__` compares. */
  lemma SetLessIs(a: Part, b: Part)
    ensures SetLess(a, b) <==> Lighter(a, b)
  {
    if |a| == |b| { ItemsLessIs(a, b); }
  }

  lemma HeavierIsPreorder()
    ensures TotalPreorder(Heavier)
  {
    forall a: Part, b: Part ensures Heavier(a, b) || Heavier(b, a) { SetOrder(a, b, a); }
    forall a: Part, b: Part, c: Part | Heavier(a, b) && Heavier(b, c) ensures Heavier(a, c) {
      SetOrder(a, b, c);
      SetOrder(c, b, a);
      SetOrder(a, c, b);
      SetOrder(b, a, c);
      SetOrder(c, a, b);
    }
  }

  // ---------------------------------------------------------------- states

  /** The k sets of a state, heaviest first. */
  type Sets = seq<Part>

  function Spread(s: Sets): int
    requires |s| > 0
  {
    Sum(s[0]) - Sum(s[|s| - 1])
  }

  /** `State.__lt__`: larger spread first, then heavier first set. */
  predicate StateLess(a: Sets, b: Sets)
    requires |a| > 0 && |b| > 0
  {
    if Spread(a) != Spread(b) then Spread(a) > Spread(b) else SetLess(b[0], a[0])
  }

  /** One set per item, the rest empty. */
  function RawState(items: seq<Item>, k: nat): Sets
    requires |items| <= k
  {
    seq(k, i requires 0 <= i < k => if i < |items| then [items[i]] else [])
  }

  /** `State.__init__`. */
  function NewState(items: seq<Item>, k: nat): Sets
    requires |items| <= k
  {
    Sort(RawState(items, k), Heavier)
  }

  /** The heaviest set of one state joins the lightest of the other, and so on. */
  function Fold(a: Sets, b: Sets): Sets
    requires |a| == |b|
  {
    seq(|a|, i requires 0 <= i < |a| => a[i] + b[|a| - 1 - i])
  }

  /** `State.merge`. */
  function Merge(a: Sets, b: Sets): Sets
    requires |a| == |b|
  {
    Sort(Fold(a, b), Heavier)
  }

  /** The sets stand in decreasing order. */
  ghost predicate Decreasing(s: Sets) { forall i, j :: 0 <= i < j < |s| ==> !Lighter(s[i], s[j]) }

  lemma SortDecreases(s: Sets)
    ensures multiset(Sort(s, Heavier)) == multiset(s) && Decreasing(Sort(s, Heavier))
  {
    HeavierIsPreorder();
    SortPermutes(s, Heavier);
    SortSorts(s, Heavier);
    var t := Sort(s, Heavier);
    forall i, j | 0 <= i < j < |t| ensures !Lighter(t[i], t[j]) { SetLessIs(t[i], t[j]); }
  }

  /** A new state has every item in a set of its own, empty sets besides, in decreasing order. */
  lemma NewStateIs(items: seq<Item>, k: nat, raw: Sets)
    requires |items| <= k == |raw| && forall i :: 0 <= i < k ==> raw[i] == if i < |items| then [items[i]] else []
    ensures multiset(NewState(items, k)) == multiset(raw) && Decreasing(NewState(items, k))
  {
    assert raw == RawState(items, k);
    SortDecreases(raw);
  }

  /** A merge appends the lightest set of the second state to the heaviest of the first, the second lightest to
      the second heaviest, and so on, and puts the sets in decreasing order. */
  lemma MergeIs(a: Sets, b: Sets, folded: Sets)
    requires |a| == |b| == |folded| && forall i :: 0 <= i < |a| ==> folded[i] == a[i] + b[|a| - 1 - i]
    ensures multiset(Merge(a, b)) == multiset(folded) && Decreasing(Merge(a, b))
  {
    assert folded == Fold(a, b);
    SortDecreases(folded);
  }

  ghost predicate WellFormed(s: Sets, k: nat) { k > 0 && |s| == k && Sorted(s, Heavier) }

  lemma NewStateWellFormed(items: seq<Item>, k: nat)
    requires |items| <= k && k > 0
    ensures WellFormed(NewState(items, k), k)
  {
    HeavierIsPreorder();
    SortSorts(RawState(items, k), Heavier);
    SortPermutes(RawState(items, k), Heavier);
  }

  lemma MergeWellFormed(a: Sets, b: Sets, k: nat)
    requires WellFormed(a, k) && WellFormed(b, k)
    ensures WellFormed(Merge(a, b), k)
  {
    HeavierIsPreorder();
    SortSorts(Fold(a, b), Heavier);
    SortPermutes(Fold(a, b), Heavier);
  }

  // ---------------------------------------------------------------- balance

  lemma {:induction false} SumConcat(a: Part, b: Part)
    ensures Sum(a + b) == Sum(a) + Sum(b)
  {
    if a == [] {
      assert a + b == b;
    } else {
      assert (a + b)[1..] == a[1..] + b;
      SumConcat(a[1..], b);
    }
  }

  lemma SumsDecrease(s: Sets, k: nat, i: nat, j: nat)
    requires WellFormed(s, k) && i <= j < k
    ensures Sum(s[i]) >= Sum(s[j])
  {
    if i < j { assert Heavier(s[i], s[j]); }
  }

  lemma FoldSum(a: Sets, b: Sets, i: nat)
    requires |a| == |b| && i < |a|
    ensures Sum(Fold(a, b)[i]) == Sum(a[i]) + Sum(b[|a| - 1 - i])
  {
    SumConcat(a[i], b[|a| - 1 - i]);
  }

  /** Sets i and j of a state are no further apart than its spread; the earlier is the heavier. */
  lemma SumsWithinSpread(s: Sets, k: nat, i: nat, j: nat)
    requires WellFormed(s, k) && i < k && j < k
    ensures Sum(s[i]) - Sum(s[j]) <= Spread(s) && (i >= j ==> Sum(s[i]) <= Sum(s[j]))
  {
    SumsDecrease(s, k, 0, i);
    SumsDecrease(s, k, j, k - 1);
    if i >= j { SumsDecrease(s, k, j, i); }
  }

  /** No two of the folded sets are further apart than the wider of the two states. */
  lemma FoldGap(a: Sets, b: Sets, k: nat, i: nat, j: nat)
    requires WellFormed(a, k) && WellFormed(b, k) && i < k && j < k
    ensures Sum(Fold(a, b)[i]) - Sum(Fold(a, b)[j]) <= if Spread(a) < Spread(b) then Spread(b) else Spread(a)
  {
    FoldSum(a, b, i);
    FoldSum(a, b, j);
    SumsWithinSpread(a, k, i, j);
    SumsWithinSpread(b, k, k - 1 - i, k - 1 - j);
  }

  /** Merging never makes the spread larger than it was in one of the two states. */
  lemma MergeSpread(a: Sets, b: Sets, k: nat)
    requires WellFormed(a, k) && WellFormed(b, k)
    ensures WellFormed(Merge(a, b), k)
    ensures 0 <= Spread(Merge(a, b)) <= if Spread(a) < Spread(b) then Spread(b) else Spread(a)
  {
    MergeWellFormed(a, b, k);
    var m := Merge(a, b);
    SortMembers(Fold(a, b), Heavier);
    assert m[0] in Fold(a, b) && m[k - 1] in Fold(a, b);
    var i :| 0 <= i < k && Fold(a, b)[i] == m[0];
    var j :| 0 <= j < k && Fold(a, b)[j] == m[k - 1];
    FoldGap(a, b, k, i, j);
    SumsDecrease(m, k, 0, k - 1);
  }

  // ---------------------------------------------------------------- no item is lost

  ghost function Bag(s: Sets): multiset<Item> {
    if s == [] then multiset{} else multiset(s[0]) + Bag(s[1..])
  }

  lemma {:induction false} BagConcat(a: Sets, b: Sets)
    ensures Bag(a + b) == Bag(a) + Bag(b)
  {
    if a == [] {
      assert a + b == b;
    } else {
      assert (a + b)[1..] == a[1..] + b;
      BagConcat(a[1..], b);
    }
  }

  lemma {:induction false} InsertBag(p: Part, s: Sets)
    ensures Bag(Insert(p, s, Heavier)) == multiset(p) + Bag(s)
  {
    if s == [] || Heavier(p, s[0]) {
      assert ([p] + s)[1..] == s;
    } else {
      InsertBag(p, s[1..]);
      assert ([s[0]] + Insert(p, s[1..], Heavier))[1..] == Insert(p, s[1..], Heavier);
    }
  }

  lemma {:induction false} SortBag(s: Sets)
    ensures Bag(Sort(s, Heavier)) == Bag(s)
  {
    if s != [] {
      SortBag(s[1..]);
      InsertBag(s[0], Sort(s[1..], Heavier));
    }
  }

  lemma BagPush(a: Sets, p: Part)
    ensures Bag(a + [p]) == Bag(a) + multiset(p)
  {
    BagConcat(a, [p]);
    assert Bag([p]) == multiset(p);
  }

  lemma BagHead(s: Sets, p: Part, q: Part)
    requires s != [] && s[0] == p + q
    ensures Bag(s) == multiset(p) + multiset(q) + Bag(s[1..])
  {}

  lemma FoldTail(a: Sets, b: Sets)
    requires a != [] && |a| == |b|
    ensures Fold(a, b)[0] == a[0] + b[|b| - 1] && Fold(a, b)[1..] == Fold(a[1..], b[..|b| - 1])
  {}

  lemma BagSplits(a: Sets, b: Sets)
    requires a != [] && |a| == |b|
    ensures Bag(a) == multiset(a[0]) + Bag(a[1..]) && Bag(b) == Bag(b[..|b| - 1]) + multiset(b[|b| - 1])
  {
    assert b == b[..|b| - 1] + [b[|b| - 1]];
    BagPush(b[..|b| - 1], b[|b| - 1]);
  }

  lemma {:induction false} FoldBag(a: Sets, b: Sets)
    requires |a| == |b|
    ensures Bag(Fold(a, b)) == Bag(a) + Bag(b)
  {
    if a != [] {
      var b', last := b[..|b| - 1], b[|b| - 1];
      FoldBag(a[1..], b');
      FoldTail(a, b);
      BagSplits(a, b);
      BagHead(Fold(a, b), a[0], last);
      Regroup(multiset(a[0]), multiset(last), Bag(a[1..]), Bag(b'));
    }
  }

  lemma Regroup(p: multiset<Item>, q: multiset<Item>, x: multiset<Item>, y: multiset<Item>)
    ensures p + q + (x + y) == (p + x) + (y + q)
  {}

  lemma MergeBag(a: Sets, b: Sets)
    requires |a| == |b|
    ensures Bag(Merge(a, b)) == Bag(a) + Bag(b)
  {
    SortBag(Fold(a, b));
    FoldBag(a, b);
  }

  // ---------------------------------------------------------------- no set stays empty

  /** How many sets have items. */
  function Filled(s: Sets): nat {
    if s == [] then 0 else (if s[0] != [] then 1 else 0) + Filled(s[1..])
  }

  lemma {:induction false} InsertFilled(p: Part, s: Sets)
    ensures Filled(Insert(p, s, Heavier)) == Filled([p]) + Filled(s)
  {
    if s == [] || Heavier(p, s[0]) {
      assert ([p] + s)[1..] == s;
    } else {
      InsertFilled(p, s[1..]);
      assert ([s[0]] + Insert(p, s[1..], Heavier))[1..] == Insert(p, s[1..], Heavier);
    }
  }

  lemma {:induction false} SortFilled(s: Sets)
    ensures Filled(Sort(s, Heavier)) == Filled(s)
  {
    if s != [] {
      SortFilled(s[1..]);
      InsertFilled(s[0], Sort(s[1..], Heavier));
    }
  }

  /** In a decreasing list the empty sets come last: equal sums are ordered by length. */
  lemma {:induction false} FilledFirst(s: Sets)
    requires Sorted(s, Heavier)
    ensures Filled(s) <= |s|
    ensures forall i :: 0 <= i < |s| ==> (s[i] != [] <==> i < Filled(s))
  {
    if s != [] {
      FilledFirst(s[1..]);
      if s[0] == [] && |s| > 1 {
        assert Heavier(s[0], s[1]);
        assert s[1] == [];
        assert s[1..][0] == s[1];
      }
      forall i | 0 <= i < |s| ensures s[i] != [] <==> i < Filled(s) {
        if i > 0 { assert s[i] == s[1..][i - 1]; }
      }
    }
  }

  lemma {:induction false} FilledEnds(f: Sets, p: nat, q: nat)
    requires p <= |f| && q <= |f|
    requires forall i :: 0 <= i < |f| ==> (f[i] != [] <==> i < p || i >= |f| - q)
    ensures Filled(f) == Min(|f|, p + q)
  {
    if f != [] {
      FilledEnds(f[1..], if p > 0 then p - 1 else 0, if q < |f| then q else q - 1);
    }
  }

  /** States with p and q non-empty sets merge into one with min(k, p + q). */
  lemma MergeFilled(a: Sets, b: Sets, k: nat)
    requires WellFormed(a, k) && WellFormed(b, k)
    ensures Filled(Merge(a, b)) == Min(k, Filled(a) + Filled(b))
  {
    FilledFirst(a);
    FilledFirst(b);
    FilledEnds(Fold(a, b), Filled(a), Filled(b));
    SortFilled(Fold(a, b));
  }

  // ---------------------------------------------------------------- equal sizes

  ghost predicate Uniform(s: Sets) { s != [] && forall i :: 0 <= i < |s| ==> |s[i]| == |s[0]| }

  function Size(s: Sets): nat { if s == [] then 0 else |s[0]| }

  lemma SortUniform(s: Sets, m: nat)
    requires s != [] && forall i :: 0 <= i < |s| ==> |s[i]| == m
    ensures Uniform(Sort(s, Heavier)) && Size(Sort(s, Heavier)) == m
  {
    SortMembers(s, Heavier);
    var t := Sort(s, Heavier);
    forall i | 0 <= i < |t| ensures |t[i]| == m { assert t[i] in s; }
  }

  lemma MergeUniform(a: Sets, b: Sets)
    requires |a| == |b| && Uniform(a) && Uniform(b)
    ensures Uniform(Merge(a, b)) && Size(Merge(a, b)) == Size(a) + Size(b)
  {
    SortUniform(Fold(a, b), Size(a) + Size(b));
  }

  // ---------------------------------------------------------------- the priority queue

  /** Where the least state stands: the one popped first. */
  function Least(ss: seq<Sets>): (i: nat)
    requires ss != [] && forall s :: s in ss ==> |s| > 0
    ensures i < |ss|
  {
    if |ss| == 1 then 0
    else
      var j := 1 + Least(ss[1..]);
      if StateLess(ss[j], ss[0]) then j else 0
  }

  lemma {:induction false} LeastIsLeast(ss: seq<Sets>)
    requires ss != [] && forall s :: s in ss ==> |s| > 0
    ensures forall j :: 0 <= j < |ss| ==> !StateLess(ss[j], ss[Least(ss)])
  {
    StateLessOrder(ss[0], ss[0]);
    if |ss| > 1 {
      LeastIsLeast(ss[1..]);
      var j := 1 + Least(ss[1..]);
      forall x | 0 <= x < |ss| ensures !StateLess(ss[x], ss[Least(ss)]) {
        StateLessOrder(ss[j], ss[0]);
        if x > 0 {
          assert ss[x] == ss[1..][x - 1] && !StateLess(ss[x], ss[j]);
          if !StateLess(ss[j], ss[0]) { StateLessNegTransitive(ss[x], ss[j], ss[0]); }
        }
      }
    }
  }

  lemma StateLessOrder(a: Sets, b: Sets)
    requires |a| > 0 && |b| > 0
    ensures !(StateLess(a, b) && StateLess(b, a)) && !StateLess(a, a) && !StateLess(b, b)
    ensures a[0] != b[0] ==> StateLess(a, b) || StateLess(b, a)
  {
    SetOrder(a[0], b[0], a[0]);
    SetOrder(b[0], b[0], b[0]);
  }

  lemma StateLessNegTransitive(a: Sets, b: Sets, c: Sets)
    requires |a| > 0 && |b| > 0 && |c| > 0
    requires !StateLess(a, b) && !StateLess(b, c)
    ensures !StateLess(a, c)
  {
    SetOrder(a[0], b[0], c[0]);
    SetOrder(c[0], b[0], a[0]);
    SetOrder(b[0], a[0], c[0]);
    SetOrder(b[0], c[0], a[0]);
    SetOrder(a[0], c[0], b[0]);
    SetOrder(c[0], a[0], b[0]);
  }
}
