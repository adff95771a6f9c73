/** Tensors along their first dimension: splitting, viewing in equal blocks, and joining again. */
module Tensors {
  import opened Arith
  import opened Seqs

  /** `torch.split(size)`. */
  function Pieces<T>(s: seq<T>, size: nat): seq<seq<T>>
    requires size > 0
  {
    if |s| <= size then [s] else [s[..size]] + Pieces(s[size..], size)
  }

  /** `torch.chunk(n)`: pieces of ceil(|s| / n) rows. */
  function Chunk<T>(s: seq<T>, n: nat): seq<seq<T>>
    requires n > 0
  {
    if |s| == 0 then seq(n, _ => []) else
      assert |s| + n - 1 >= n;
      Pieces(s, (|s| + n - 1) / n)
  }

  /** A Python slice: bounds past the end are clamped. */
  function Slice<T>(s: seq<T>, lo: nat, hi: nat): seq<T> {
    var h := if hi < |s| then hi else |s|;
    if lo < h then s[lo..h] else []
  }

  /** `view([n, u])`: n blocks of u rows. */
  function View<T>(s: seq<T>, u: nat, n: nat): (xs: seq<seq<T>>)
    requires |s| == n * u
    ensures |xs| == n && Even(xs, u)
    decreases n
  {
    if n == 0 then [] else
      Front(|s|, n, u);
      [s[..u]] + View(s[u..], u, n - 1)
  }

  ghost predicate Even<T>(xs: seq<seq<T>>, u: nat) {
    forall j :: 0 <= j < |xs| ==> |xs[j]| == u
  }

  lemma Front(len: nat, n: nat, u: nat)
    requires n > 0 && len == n * u
    ensures u <= len && len - u == (n - 1) * u
  {
    MulGap(n - 1, n, u);
  }

  lemma {:induction false} FlatAppend<T>(xs: seq<seq<T>>, ys: seq<seq<T>>)
    ensures Flat(xs + ys) == Flat(xs) + Flat(ys)
  {
    if xs == [] {
      assert xs + ys == ys;
    } else {
      assert (xs + ys)[1..] == xs[1..] + ys;
      FlatAppend(xs[1..], ys);
      Regroup(xs[0], Flat(xs[1..]), Flat(ys));
    }
  }

  lemma Regroup<T>(x: seq<T>, y: seq<T>, z: seq<T>)
    ensures (x + y) + z == x + (y + z)
  {}

  lemma {:induction false} FlatView<T>(s: seq<T>, u: nat, n: nat)
    requires |s| == n * u
    ensures Flat(View(s, u, n)) == s
    decreases n
  {
    if n > 0 {
      Front(|s|, n, u);
      FlatView(s[u..], u, n - 1);
      assert View(s, u, n)[1..] == View(s[u..], u, n - 1);
      assert s == s[..u] + s[u..];
    }
  }

  lemma EvenTail<T>(xs: seq<seq<T>>, u: nat)
    requires Even(xs, u) && xs != []
    ensures Even(xs[1..], u) && |xs[0]| == u
  {
    assert forall j :: 0 <= j < |xs[1..]| ==> xs[1..][j] == xs[j + 1];
  }

  lemma {:induction false} FlatLength<T>(xs: seq<seq<T>>, u: nat)
    requires Even(xs, u)
    ensures |Flat(xs)| == |xs| * u
    decreases |xs|
  {
    if xs != [] {
      EvenTail(xs, u);
      FlatLength(xs[1..], u);
      NextBlock(|xs| - 1, u);
    }
  }

  lemma {:induction false} ViewFlat<T>(xs: seq<seq<T>>, u: nat)
    requires Even(xs, u)
    ensures |Flat(xs)| == |xs| * u && View(Flat(xs), u, |xs|) == xs
    decreases |xs|
  {
    FlatLength(xs, u);
    if xs != [] {
      EvenTail(xs, u);
      ViewFlat(xs[1..], u);
      assert Flat(xs)[u..] == Flat(xs[1..]) && Flat(xs)[..u] == xs[0];
      assert xs == [xs[0]] + xs[1..];
    }
  }

  lemma {:induction false} PiecesEven<T>(s: seq<T>, u: nat, n: nat)
    requires u > 0 && n > 0 && |s| == n * u
    ensures Pieces(s, u) == View(s, u, n)
    decreases n
  {
    Front(|s|, n, u);
    if n > 1 {
      Front(|s| - u, n - 1, u);
      PiecesEven(s[u..], u, n - 1);
    } else {
      assert s[..u] == s;
    }
  }

  lemma {:induction false} ViewOfNothing<T>(n: nat)
    ensures View<T>([], 0, n) == seq(n, _ => [])
  {
    if n > 0 {
      var none: seq<T> := [];
      assert none[0..] == none;
      ViewOfNothing<T>(n - 1);
    }
  }

  /** Chunking into n pieces is the view with n blocks, when the rows allow it. */
  lemma ChunkIsView<T>(s: seq<T>, u: nat, n: nat)
    requires n > 0 && |s| == n * u
    ensures Chunk(s, n) == View(s, u, n)
  {
    if u > 0 {
      Front(|s|, n, u);
      DivMod(|s| + n - 1, n, u, n - 1);
      PiecesEven(s, u, n);
    } else {
      assert s == [];
      ViewOfNothing<T>(n);
    }
  }

  /** Block i of a view is a slice. */
  lemma {:induction false} ViewAt<T>(s: seq<T>, u: nat, n: nat, i: nat)
    requires |s| == n * u && i < n
    ensures 0 <= i * u <= (i + 1) * u && View(s, u, n)[i] == Slice(s, i * u, (i + 1) * u)
    decreases n
  {
    Front(|s|, n, u);
    NextBlock(i, u);
    if i > 0 {
      NextBlock(i - 1, u);
      ViewAt(s[u..], u, n - 1, i - 1);
      SliceShift(s, u, (i - 1) * u, i * u);
    } else {
      assert Slice(s, 0, u) == s[..u];
    }
  }

  lemma NextBlock(i: nat, u: nat)
    ensures 0 <= i * u && (i + 1) * u == i * u + u
  {}

  lemma SliceShift<T>(s: seq<T>, u: nat, lo: nat, hi: nat)
    requires u <= |s|
    ensures Slice(s[u..], lo, hi) == Slice(s, lo + u, hi + u)
  {}
}
