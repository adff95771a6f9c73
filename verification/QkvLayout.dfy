/** The fused attention layout, cut into its query groups. */
module QkvLayout {
  import opened Seqs
  import opened Tensors

  /** Query group by query group: the rows of q, of k and of v. */
  function Fuse<T>(qs: seq<seq<T>>, ks: seq<seq<T>>, vs: seq<seq<T>>): seq<seq<T>>
    requires |qs| == |ks| == |vs|
  {
    seq(|qs|, j requires 0 <= j < |qs| => qs[j] + ks[j] + vs[j])
  }

  /** `cat([q.view, k.view, v.view], dim=1).view(-1)` over g query groups. */
  function Interleave<T>(q: seq<T>, k: seq<T>, v: seq<T>, a: nat, b: nat, g: nat): seq<T>
    requires |q| == g * a && |k| == g * b && |v| == g * b
  {
    Flat(Fuse(View(q, a, g), View(k, b, g), View(v, b, g)))
  }

  /** Rows lo..hi of every block. */
  function Cut<T>(xs: seq<seq<T>>, lo: nat, hi: nat): (ys: seq<seq<T>>)
    ensures |ys| == |xs| && forall u :: Even(xs, u) && lo <= hi <= u ==> Even(ys, hi - lo)
  {
    seq(|xs|, j requires 0 <= j < |xs| => Slice(xs[j], lo, hi))
  }

  lemma CutAppend<T>(xs: seq<seq<T>>, x: seq<T>, lo: nat, hi: nat)
    ensures Cut(xs + [x], lo, hi) == Cut(xs, lo, hi) + [Slice(x, lo, hi)]
  {}

  /** The blocks of all shards, shard after shard. */
  function Blocks<T>(shards: seq<seq<T>>, u: nat, n: nat): (xs: seq<seq<T>>)
    requires Even(shards, n * u)
    ensures Even(xs, u)
  {
    if shards == [] then []
    else
      assert |shards[0]| == n * u;
      assert forall j :: 0 <= j < |shards[1..]| ==> shards[1..][j] == shards[j + 1];
      View(shards[0], u, n) + Blocks(shards[1..], u, n)
  }

  lemma {:induction false} FlatBlocks<T>(shards: seq<seq<T>>, u: nat, n: nat)
    requires Even(shards, n * u)
    ensures Flat(Blocks(shards, u, n)) == Flat(shards)
    decreases |shards|
  {
    if shards != [] {
      var rest := shards[1..];
      assert forall j :: 0 <= j < |rest| ==> rest[j] == shards[j + 1];
      FlatBlocks(rest, u, n);
      FlatView(shards[0], u, n);
      FlatAppend(View(shards[0], u, n), Blocks(rest, u, n));
    }
  }

  /** Cutting the tensor into tensor-parallel shards and each shard into groups gives the groups of the tensor. */
  lemma ShardedBlocks<T>(xs: seq<seq<T>>, u: nat, n: nat, tp: nat)
    requires Even(xs, u) && |xs| == tp * n
    ensures |Flat(xs)| == tp * (n * u)
    ensures Blocks(View(Flat(xs), n * u, tp), u, n) == xs
  {
    ViewFlat(xs, u);
    assert (tp * n) * u == tp * (n * u);
    var shards := View(Flat(xs), n * u, tp);
    FlatView(Flat(xs), n * u, tp);
    FlatBlocks(shards, u, n);
    BlockCount(shards, u, n);
    SameFlat(Blocks(shards, u, n), xs, u);
  }

  lemma {:induction false} BlockCount<T>(shards: seq<seq<T>>, u: nat, n: nat)
    requires Even(shards, n * u)
    ensures |Blocks(shards, u, n)| == |shards| * n
    decreases |shards|
  {
    if shards != [] {
      var rest := shards[1..];
      assert forall j :: 0 <= j < |rest| ==> rest[j] == shards[j + 1];
      BlockCount(rest, u, n);
      assert |shards| * n == n + |rest| * n;
    }
  }

  lemma SameFlat<T>(xs: seq<seq<T>>, ys: seq<seq<T>>, u: nat)
    requires Even(xs, u) && Even(ys, u) && |xs| == |ys| && Flat(xs) == Flat(ys)
    ensures xs == ys
  {
    ViewFlat(xs, u);
    ViewFlat(ys, u);
  }
}
