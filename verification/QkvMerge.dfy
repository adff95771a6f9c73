/** Building the fused QKV and gate/up weights, and the three places that take them apart again. */
module QkvMerge {
  import opened Arith
  import opened QkvLayout
  import opened Results
  import opened Seqs
  import opened Tensors

  /** r query heads per group, n groups per rank, b rows per key/value head. */
  datatype Heads = Heads(r: nat, n: nat, b: nat) {
    function A(): nat { r * b }
    function U(): nat { r * b + 2 * b }
  }

  /** q, k and v, each the rows of all groups in order. */
  function Separate<T>(xs: seq<seq<T>>, a: nat, b: nat): seq<seq<T>> {
    [Flat(Cut(xs, 0, a)), Flat(Cut(xs, a, a + b)), Flat(Cut(xs, a + b, a + 2 * b))]
  }

  /** The shapes every caller provides: equal shards, whole groups per shard. */
  ghost predicate Fits<T>(h: Heads, shards: seq<seq<T>>, heads: nat, kvHeads: nat, tp: nat) {
    && tp > 0 && h.n > 0 && kvHeads == tp * h.n && heads == h.r * kvHeads
    && shards != [] && Even(shards, h.n * h.U())
  }

  ghost predicate SizesOk(h: Heads, heads: nat, kvHeads: nat, tp: nat, len: nat) {
    && kvHeads > 0 && heads % kvHeads == 0 && heads / kvHeads == h.r && tp > 0 && kvHeads / tp == h.n
    && len % (h.r + 2) == 0
    && var kvSize := len / (h.r + 2); h.n > 0 && kvSize * h.r / h.n == h.A() && kvSize / h.n == h.b
  }

  lemma Sizes(h: Heads, kvHeads: nat, heads: nat, tp: nat, len: nat)
    requires tp > 0 && h.n > 0 && kvHeads == tp * h.n && heads == h.r * kvHeads && len == h.n * h.U()
    ensures SizesOk(h, heads, kvHeads, tp, len)
  {
    MulGap(0, tp, h.n);
    DivMod(heads, kvHeads, h.r, 0);
    DivMod(kvHeads, tp, h.n, 0);
    assert len == (h.n * h.b) * (h.r + 2);
    DivMod(len, h.r + 2, h.n * h.b, 0);
    assert h.n * h.b * h.r == h.A() * h.n;
    DivMod(h.n * h.b * h.r, h.n, h.A(), 0);
    DivMod(h.n * h.b, h.n, h.b, 0);
  }

  /** The three lists hold the q, k and v parts of the chunks seen so far. */
  ghost predicate Collected<T>(lists: (seq<seq<T>>, seq<seq<T>>, seq<seq<T>>), xs: seq<seq<T>>, a: nat, b: nat) {
    lists.0 == Cut(xs, 0, a) && lists.1 == Cut(xs, a, a + b) && lists.2 == Cut(xs, a + b, a + 2 * b)
  }

  /** `torch.split` of one chunk into q, k and v. */
  function Split3<T>(chunk: seq<T>, a: nat, b: nat): Result<(seq<T>, seq<T>, seq<T>)> {
    if |chunk| != a + b + b then Raise(ShapeError) else Ok((chunk[..a], chunk[a..a + b], chunk[a + b..]))
  }

  /** The inner loop of the merge, over the chunks of one shard. */
  method SplitShard<T>(chunks: seq<seq<T>>, a: nat, b: nat, ghost seen: seq<seq<T>>, lists: (seq<seq<T>>, seq<seq<T>>, seq<seq<T>>))
    returns (r: Result<(seq<seq<T>>, seq<seq<T>>, seq<seq<T>>)>)
    requires Collected(lists, seen, a, b)
    ensures r.Ok? <==> Even(chunks, a + 2 * b)
    ensures r.Ok? || r == Raise(ShapeError)
    ensures r.Ok? ==> Collected(r.value, seen + chunks, a, b)
  {
    var (q, k, v) := lists;
    var j := 0;
    assert seen + chunks[..0] == seen;
    while j < |chunks|
      invariant j <= |chunks| && Even(chunks[..j], a + 2 * b)
      invariant Collected((q, k, v), seen + chunks[..j], a, b)
    {
      var split := Split3(chunks[j], a, b);
      if split.Raise? {
        assert |chunks[j]| != a + 2 * b;
        return Raise(split.error);
      }
      q, k, v := q + [split.value.0], k + [split.value.1], v + [split.value.2];
      CollectedMore(seen + chunks[..j], chunks[j], a, b);
      assert seen + chunks[..j + 1] == (seen + chunks[..j]) + [chunks[j]];
      j := j + 1;
    }
    assert chunks[..|chunks|] == chunks;
    return Ok((q, k, v));
  }

  lemma CollectedMore<T>(xs: seq<seq<T>>, x: seq<T>, a: nat, b: nat)
    requires |x| == a + 2 * b
    ensures Cut(xs + [x], 0, a) == Cut(xs, 0, a) + [x[..a]]
    ensures Cut(xs + [x], a, a + b) == Cut(xs, a, a + b) + [x[a..a + b]]
    ensures Cut(xs + [x], a + b, a + 2 * b) == Cut(xs, a + b, a + 2 * b) + [x[a + b..]]
  {
    CutAppend(xs, x, 0, a);
    CutAppend(xs, x, a, a + b);
    CutAppend(xs, x, a + b, a + 2 * b);
    assert x[a + b..a + 2 * b] == x[a + b..];
    if a == 0 { assert x[..a] == []; }
    if b == 0 { assert x[a..a + b] == []; }
  }

  /** `seen` holds the blocks of the first i shards, if the shards are whole groups. */
  ghost predicate SeenAll<T>(shards: seq<seq<T>>, i: nat, seen: seq<seq<T>>, u: nat, groups: nat) {
    i <= |shards| && (Even(shards, groups * u) ==> seen == Blocks(shards[..i], u, groups))
  }

  lemma SeenNext<T>(shards: seq<seq<T>>, i: nat, seen: seq<seq<T>>, u: nat, groups: nat)
    requires SeenAll(shards, i, seen, u, groups) && i < |shards| && groups > 0
    ensures SeenAll(shards, i + 1, seen + Chunk(shards[i], groups), u, groups)
    ensures Even(shards, groups * u) ==> Even(Chunk(shards[i], groups), u)
  {
    if Even(shards, groups * u) {
      ChunkIsView(shards[i], u, groups);
      assert shards[..i + 1] == shards[..i] + [shards[i]];
      BlocksAppend(shards[..i], shards[i], u, groups);
    }
  }

  /** What the three lists amount to at the end. */
  ghost predicate Parts<T>(shards: seq<seq<T>>, groups: nat, a: nat, b: nat, parts: Result<seq<seq<T>>>) {
    Even(shards, groups * (a + 2 * b)) ==> parts == Ok(Separate(Blocks(shards, a + 2 * b, groups), a, b))
  }

  lemma SeenEnd<T>(shards: seq<seq<T>>, seen: seq<seq<T>>, groups: nat, a: nat, b: nat, lists: (seq<seq<T>>, seq<seq<T>>, seq<seq<T>>))
    requires SeenAll(shards, |shards|, seen, a + 2 * b, groups) && Collected(lists, seen, a, b)
    ensures Parts(shards, groups, a, b, Ok([Flat(lists.0), Flat(lists.1), Flat(lists.2)]))
  {
    assert shards[..|shards|] == shards;
  }

  /** The outer loop of the merge, over the shards. */
  method SplitShards<T>(shards: seq<seq<T>>, groups: nat, a: nat, b: nat) returns (r: Result<seq<seq<T>>>)
    requires groups > 0
    ensures Parts(shards, groups, a, b, r)
    ensures r.Ok? || r == Raise(ShapeError)
  {
    var lists: (seq<seq<T>>, seq<seq<T>>, seq<seq<T>>) := ([], [], []);
    ghost var seen: seq<seq<T>> := [];
    var i := 0;
    while i < |shards|
      invariant i <= |shards| && SeenAll(shards, i, seen, a + 2 * b, groups)
      invariant Collected(lists, seen, a, b)
    {
      var chunks := Chunk(shards[i], groups);
      SeenNext(shards, i, seen, a + 2 * b, groups);
      var split := SplitShard(chunks, a, b, seen, lists);
      if split.Raise? { return Raise(split.error); }
      lists := split.value;
      seen := seen + chunks;
      i := i + 1;
    }
    SeenEnd(shards, seen, groups, a, b, lists);
    return Ok([Flat(lists.0), Flat(lists.1), Flat(lists.2)]);
  }

  /** The assertions and sizes ahead of the loop: groups per rank, q rows and k/v rows per group. */
  function Plan(heads: nat, kvHeads: nat, tp: nat, len: nat): (r: Result<(nat, nat, nat)>)
    ensures kvHeads > 0 && (heads % kvHeads != 0 || len % (heads / kvHeads + 2) != 0) ==> r == Raise(AssertionError)
    ensures r.Ok? ==> r.value.0 > 0
  {
    if kvHeads == 0 then Raise(ZeroDivisionError)
    else if heads % kvHeads != 0 then Raise(AssertionError)
    else
      var perKv := heads / kvHeads;
      if len % (perKv + 2) != 0 then Raise(AssertionError)
      else
        var kvSize := len / (perKv + 2);
        if tp == 0 then Raise(ZeroDivisionError)
        else
          var groups := kvHeads / tp;
          if groups == 0 then Raise(ShapeError) else Ok((groups, kvSize * perKv / groups, kvSize / groups))
  }

  lemma PlanFits<T>(h: Heads, shards: seq<seq<T>>, heads: nat, kvHeads: nat, tp: nat)
    requires Fits(h, shards, heads, kvHeads, tp)
    ensures Plan(heads, kvHeads, tp, |shards[0]|) == Ok((h.n, h.A(), h.b))
  {
    Sizes(h, kvHeads, heads, tp, |shards[0]|);
  }

  /** q, k and v of all shards, when the shards fit. */
  ghost predicate Merged<T>(h: Heads, shards: seq<seq<T>>, heads: nat, kvHeads: nat, tp: nat, r: Result<seq<seq<T>>>) {
    Fits(h, shards, heads, kvHeads, tp) ==> r == Ok(Separate(Blocks(shards, h.U(), h.n), h.A(), h.b))
  }

  lemma PlanMerges<T>(h: Heads, shards: seq<seq<T>>, heads: nat, kvHeads: nat, tp: nat, p: (nat, nat, nat), r: Result<seq<seq<T>>>)
    requires shards != [] && Plan(heads, kvHeads, tp, |shards[0]|) == Ok(p) && Parts(shards, p.0, p.1, p.2, r)
    ensures Merged(h, shards, heads, kvHeads, tp, r)
  {
    if Fits(h, shards, heads, kvHeads, tp) { PlanFits(h, shards, heads, kvHeads, tp); }
  }

  lemma PlanRaises<T>(h: Heads, shards: seq<seq<T>>, heads: nat, kvHeads: nat, tp: nat)
    requires shards == [] || Plan(heads, kvHeads, tp, |shards[0]|).Raise?
    ensures !Fits(h, shards, heads, kvHeads, tp)
  {
    if Fits(h, shards, heads, kvHeads, tp) { PlanFits(h, shards, heads, kvHeads, tp); }
  }

  /** `_merge_across_tp` for the QKV weight, and the same loop in `default_tp_concat_fn`. */
  method MergeQkv<T>(shards: seq<seq<T>>, heads: nat, kvHeads: nat, tp: nat, ghost h: Heads) returns (r: Result<seq<seq<T>>>)
    ensures Merged(h, shards, heads, kvHeads, tp, r)
    ensures shards != [] && Plan(heads, kvHeads, tp, |shards[0]|).Raise? ==> r.Raise? && r.error == Plan(heads, kvHeads, tp, |shards[0]|).error
  {
    if |shards| == 0 {
      PlanRaises(h, shards, heads, kvHeads, tp);
      return Raise(if kvHeads == 0 then ZeroDivisionError else if heads % kvHeads != 0 then AssertionError else IndexError);
    }
    var plan := Plan(heads, kvHeads, tp, |shards[0]|);
    if plan.Raise? {
      PlanRaises(h, shards, heads, kvHeads, tp);
      return Raise(plan.error);
    }
    r := SplitShards(shards, plan.value.0, plan.value.1, plan.value.2);
    PlanMerges(h, shards, heads, kvHeads, tp, plan.value, r);
  }

  /** `default_tp_concat_fn` for the QKV weight: one tensor, unless the caller splits it itself. */
  method DefaultTpConcatQkv<T>(shards: seq<seq<T>>, heads: nat, kvHeads: nat, tp: nat, simpleSplit: bool, ghost h: Heads)
    returns (r: Result<seq<seq<T>>>)
    ensures Fits(h, shards, heads, kvHeads, tp) ==>
              var parts := Separate(Blocks(shards, h.U(), h.n), h.A(), h.b);
              r == Ok(if simpleSplit then parts else [parts[0] + parts[1] + parts[2]])
  {
    r := MergeQkv(shards, heads, kvHeads, tp, h);
    if r.Ok? && !simpleSplit && |r.value| == 3 {
      r := Ok([r.value[0] + r.value[1] + r.value[2]]);
    }
  }

  lemma {:induction false} BlocksAppend<T>(shards: seq<seq<T>>, s: seq<T>, u: nat, n: nat)
    requires Even(shards, n * u) && |s| == n * u
    ensures Blocks(shards + [s], u, n) == Blocks(shards, u, n) + View(s, u, n)
    decreases |shards|
  {
    if shards == [] {
      assert shards + [s] == [s];
    } else {
      var rest := shards[1..];
      assert forall j :: 0 <= j < |rest| ==> rest[j] == shards[j + 1];
      assert (shards + [s])[1..] == rest + [s];
      BlocksAppend(rest, s, u, n);
    }
  }

  // ---------------------------------------------------------------- convert_qkv_shard

  /** Python's `//` on natural numbers. */
  function Quotient(x: nat, n: nat): nat
    requires n > 0
  {
    x / n
  }

  function RowsPerRank(headDim: nat, heads: nat, tp: nat): nat
    requires tp > 0
  {
    MulLe(0, headDim, heads);
    Quotient(headDim * heads, tp)
  }

  /** Sizes per rank and per chunk: rows of a rank, groups per rank, q rows and k/v rows per chunk. */
  function ConvertPlan(heads: nat, kvHeads: nat, headDim: nat, tp: nat, queryGroups: nat): (r: Result<(nat, nat, nat, nat)>)
    ensures r.Ok? ==> r.value.1 > 0
  {
    if tp == 0 then Raise(ZeroDivisionError)
    else
      var qTp := RowsPerRank(headDim, heads, tp);
      var kvTp := if kvHeads >= tp then RowsPerRank(headDim, kvHeads, tp) else headDim;
      var groups := Quotient(queryGroups, tp);
      if groups == 0 then Raise(ZeroDivisionError)
      else Ok((qTp + 2 * kvTp, groups, Quotient(qTp, groups), Quotient(kvTp, groups)))
  }

  /** The shapes of a gathered QKV weight. */
  ghost predicate FitsFull<T>(h: Heads, full: seq<T>, heads: nat, kvHeads: nat, headDim: nat, tp: nat, queryGroups: nat) {
    && tp > 0 && h.n > 0 && kvHeads == tp * h.n && queryGroups == kvHeads && heads == h.r * kvHeads && headDim == h.b
    && |full| == tp * (h.n * h.U())
  }

  lemma ConvertPlanFits<T>(h: Heads, full: seq<T>, heads: nat, kvHeads: nat, headDim: nat, tp: nat, queryGroups: nat)
    requires FitsFull(h, full, heads, kvHeads, headDim, tp, queryGroups)
    ensures kvHeads >= tp
    ensures ConvertPlan(heads, kvHeads, headDim, tp, queryGroups) == Ok((h.n * h.U(), h.n, h.A(), h.b))
  {
    var q, kv := h.A() * h.n, h.b * h.n;
    MulLe(1, h.n, tp);
    assert headDim * heads == q * tp by {
      assert h.b * (h.r * (tp * h.n)) == ((h.r * h.b) * h.n) * tp;
    }
    assert headDim * kvHeads == kv * tp by { assert h.b * (tp * h.n) == (h.b * h.n) * tp; }
    DivMod(headDim * heads, tp, q, 0);
    DivMod(headDim * kvHeads, tp, kv, 0);
    DivMod(queryGroups, tp, h.n, 0);
    DivMod(q, h.n, h.A(), 0);
    DivMod(kv, h.n, h.b, 0);
    assert h.n * h.U() == q + 2 * kv;
  }

  /** The inner loop: cut every chunk of one rank's part; k and v are kept if `whole`. */
  method CutChunks<T>(chunks: seq<seq<T>>, a: nat, b: nat, whole: bool, ghost seen: seq<seq<T>>,
                      lists: (seq<seq<T>>, seq<seq<T>>, seq<seq<T>>))
    returns (out: (seq<seq<T>>, seq<seq<T>>, seq<seq<T>>))
    ensures whole && Even(chunks, a + 2 * b) && Collected(lists, seen, a, b) ==> Collected(out, seen + chunks, a, b)
    ensures whole && Even(chunks, a + 2 * b) ==>
              out.1 == lists.1 + Cut(chunks, a, a + b) && out.2 == lists.2 + Cut(chunks, a + b, a + 2 * b)
    ensures out.0 == lists.0 + Cut(chunks, 0, a) && (!whole ==> out.1 == lists.1 && out.2 == lists.2)
  {
    var (q, k, v) := lists;
    ghost var fits := whole && Even(chunks, a + 2 * b) && Collected(lists, seen, a, b);
    var j := 0;
    assert seen + chunks[..0] == seen;
    while j < |chunks|
      invariant j <= |chunks| && q == lists.0 + Cut(chunks[..j], 0, a) && (!whole ==> k == lists.1 && v == lists.2)
      invariant fits ==> Collected((q, k, v), seen + chunks[..j], a, b)
      invariant whole && Even(chunks, a + 2 * b) ==>
                  k == lists.1 + Cut(chunks[..j], a, a + b) && v == lists.2 + Cut(chunks[..j], a + b, a + 2 * b)
    {
      var chunk := chunks[j];
      if Even(chunks, a + 2 * b) { CollectedSlices(chunks[..j], chunk, a, b); }
      q := q + [Slice(chunk, 0, a)];
      if whole {
        k := k + [Slice(chunk, a, a + b)];
        v := v + [Slice(chunk, a + b, |chunk|)];
      }
      assert chunks[..j + 1] == chunks[..j] + [chunk];
      CutAppend(chunks[..j], chunk, 0, a);
      if fits { CollectedSlices(seen + chunks[..j], chunk, a, b); }
      assert seen + chunks[..j + 1] == (seen + chunks[..j]) + [chunk];
      j := j + 1;
    }
    assert chunks[..|chunks|] == chunks;
    return (q, k, v);
  }

  lemma CollectedSlices<T>(xs: seq<seq<T>>, x: seq<T>, a: nat, b: nat)
    requires |x| == a + 2 * b
    ensures Cut(xs + [x], 0, a) == Cut(xs, 0, a) + [Slice(x, 0, a)]
    ensures Cut(xs + [x], a, a + b) == Cut(xs, a, a + b) + [Slice(x, a, a + b)]
    ensures Cut(xs + [x], a + b, a + 2 * b) == Cut(xs, a + b, a + 2 * b) + [Slice(x, a + b, |x|)]
  {
    CutAppend(xs, x, 0, a);
    CutAppend(xs, x, a, a + b);
    CutAppend(xs, x, a + b, a + 2 * b);
  }

  /** `convert_qkv_shard` on the gathered tensor. */
  method ConvertQkvShard<T>(full: seq<T>, heads: nat, kvHeads: nat, headDim: nat, tp: nat, queryGroups: nat, ghost h: Heads)
    returns (r: Result<seq<seq<T>>>)
    ensures FitsFull(h, full, heads, kvHeads, headDim, tp, queryGroups) ==>
              r == Ok(Separate(Blocks(View(full, h.n * h.U(), tp), h.U(), h.n), h.A(), h.b))
    ensures FitsReplicated(h, full, heads, kvHeads, headDim, tp, queryGroups) ==>
              r == Ok(SeparateKept(View(full, h.U(), tp), kvHeads, h.A(), h.b))
    ensures r.Raise? <==> tp == 0 || queryGroups < tp
    ensures r.Raise? ==> r.error == ZeroDivisionError
  {
    var plan := ConvertPlan(heads, kvHeads, headDim, tp, queryGroups);
    ghost var fits := FitsFull(h, full, heads, kvHeads, headDim, tp, queryGroups);
    if fits { ConvertPlanFits(h, full, heads, kvHeads, headDim, tp, queryGroups); }
    if FitsReplicated(h, full, heads, kvHeads, headDim, tp, queryGroups) {
      ReplicatedPlan(h, full, heads, kvHeads, headDim, tp, queryGroups);
    }
    PlanFailure(heads, kvHeads, headDim, tp, queryGroups);
    if plan.Raise? {
      return Raise(plan.error);
    }
    ghost var parts := if |full| == tp * plan.value.0 then View(full, plan.value.0, tp) else seq(tp, _ => []);
    r := ConvertLoop(full, kvHeads, tp, plan.value.0, plan.value.1, plan.value.2, plan.value.3, parts);
  }

  lemma PlanFailure(heads: nat, kvHeads: nat, headDim: nat, tp: nat, queryGroups: nat)
    ensures ConvertPlan(heads, kvHeads, headDim, tp, queryGroups).Raise? <==> tp == 0 || queryGroups < tp
    ensures var plan := ConvertPlan(heads, kvHeads, headDim, tp, queryGroups); plan.Raise? ==> plan.error == ZeroDivisionError
  {
    if tp > 0 { QuotientZero(queryGroups, tp); }
  }

  lemma QuotientZero(x: nat, n: nat)
    requires n > 0
    ensures x / n == 0 <==> x < n
  {}

  /** Fewer key/value heads than ranks: every rank holds one query group and a copy of its key/value head. */
  ghost predicate FitsReplicated<T>(h: Heads, full: seq<T>, heads: nat, kvHeads: nat, headDim: nat, tp: nat, queryGroups: nat) {
    kvHeads < tp && queryGroups == tp && heads == h.r * tp && headDim == h.b && |full| == tp * h.U()
  }

  lemma ReplicatedPlan<T>(h: Heads, full: seq<T>, heads: nat, kvHeads: nat, headDim: nat, tp: nat, queryGroups: nat)
    requires FitsReplicated(h, full, heads, kvHeads, headDim, tp, queryGroups)
    ensures ConvertPlan(heads, kvHeads, headDim, tp, queryGroups) == Ok((h.U(), 1, h.A(), h.b))
  {
    RowsOfRank(h.b, h.r, tp);
    DivMod(queryGroups, tp, 1, 0);
    ConvertPlanIs(heads, kvHeads, headDim, tp, queryGroups, h.A());
  }

  lemma RowsOfRank(b: nat, r: nat, tp: nat)
    requires tp > 0
    ensures RowsPerRank(b, r * tp, tp) == r * b
  {
    assert b * (r * tp) == (r * b) * tp;
    DivMod(b * (r * tp), tp, r * b, 0);
  }

  lemma ConvertPlanIs(heads: nat, kvHeads: nat, headDim: nat, tp: nat, queryGroups: nat, rows: nat)
    requires tp > 0 && kvHeads < tp && RowsPerRank(headDim, heads, tp) == rows && Quotient(queryGroups, tp) == 1
    ensures ConvertPlan(heads, kvHeads, headDim, tp, queryGroups) == Ok((rows + 2 * headDim, 1, rows, headDim))
  {}

  /** The parts of the first i ranks whose k and v are kept. */
  function Kept<T>(parts: seq<seq<T>>, kvHeads: nat, i: nat): seq<seq<T>>
    requires i <= |parts|
  {
    if i == 0 then []
    else Kept(parts, kvHeads, i - 1) + (if ((i - 1) * kvHeads) % |parts| == 0 then [parts[i - 1]] else [])
  }

  /** q of every rank, k and v of the ranks that are kept. */
  function SeparateKept<T>(parts: seq<seq<T>>, kvHeads: nat, a: nat, b: nat): seq<seq<T>> {
    var kept := Kept(parts, kvHeads, |parts|);
    [Flat(Cut(parts, 0, a)), Flat(Cut(kept, a, a + b)), Flat(Cut(kept, a + b, a + 2 * b))]
  }

  ghost predicate KeptSoFar<T>(lists: (seq<seq<T>>, seq<seq<T>>, seq<seq<T>>), parts: seq<seq<T>>, i: nat, kvHeads: nat, a: nat, b: nat)
    requires i <= |parts|
  {
    var kept := Kept(parts, kvHeads, i);
    lists.0 == Cut(parts[..i], 0, a) && lists.1 == Cut(kept, a, a + b) && lists.2 == Cut(kept, a + b, a + 2 * b)
  }

  /** A rank's part with several groups, and with one. */
  lemma WholePart<T>(full: seq<T>, total: nat, tp: nat, shards: seq<seq<T>>, i: nat, seen: seq<seq<T>>, u: nat, groups: nat)
    requires |full| == tp * total && total == groups * u && shards == View(full, total, tp) && i < tp && groups > 0
    requires SeenAll(shards, i, seen, u, groups)
    ensures var chunks := Chunk(Slice(full, i * total, (i + 1) * total), groups);
            SeenAll(shards, i + 1, seen + chunks, u, groups) && Even(chunks, u)
  {
    ViewAt(full, total, tp, i);
    SeenNext(shards, i, seen, u, groups);
  }

  lemma SinglePart<T>(full: seq<T>, total: nat, tp: nat, i: nat)
    requires |full| == tp * total && i < tp
    ensures Chunk(Slice(full, i * total, (i + 1) * total), 1) == [View(full, total, tp)[i]] && |View(full, total, tp)[i]| == total
  {
    ViewAt(full, total, tp, i);
  }

  lemma KeptOne<T>(before: (seq<seq<T>>, seq<seq<T>>, seq<seq<T>>), after: (seq<seq<T>>, seq<seq<T>>, seq<seq<T>>),
                   parts: seq<seq<T>>, i: nat, kvHeads: nat, a: nat, b: nat)
    requires i < |parts| && KeptSoFar(before, parts, i, kvHeads, a, b) && after.0 == before.0 + Cut([parts[i]], 0, a)
    requires if (i * kvHeads) % |parts| == 0
             then after.1 == before.1 + Cut([parts[i]], a, a + b) && after.2 == before.2 + Cut([parts[i]], a + b, a + 2 * b)
             else after.1 == before.1 && after.2 == before.2
    ensures KeptSoFar(after, parts, i + 1, kvHeads, a, b)
  {
    assert parts[..i + 1] == parts[..i] + [parts[i]];
    CutMore(parts[..i], parts[i], 0, a);
    if (i * kvHeads) % |parts| == 0 {
      CutMore(Kept(parts, kvHeads, i), parts[i], a, a + b);
      CutMore(Kept(parts, kvHeads, i), parts[i], a + b, a + 2 * b);
    }
  }

  lemma CutMore<T>(xs: seq<seq<T>>, x: seq<T>, lo: nat, hi: nat)
    ensures Cut(xs + [x], lo, hi) == Cut(xs, lo, hi) + Cut([x], lo, hi)
  {
    CutAppend(xs, x, lo, hi);
    CutOne(x, lo, hi);
  }

  lemma CutOne<T>(x: seq<T>, lo: nat, hi: nat)
    ensures Cut([x], lo, hi) == [Slice(x, lo, hi)]
  {}

  /** Whole groups per rank, the shards given. */
  ghost predicate WholeRanks<T>(full: seq<T>, shards: seq<seq<T>>, kvHeads: nat, tp: nat, total: nat, groups: nat, u: nat) {
    kvHeads >= tp && |full| == tp * total && total == groups * u && shards == View(full, total, tp)
  }

  /** One group per rank, the parts given. */
  ghost predicate SingleRanks<T>(full: seq<T>, parts: seq<seq<T>>, kvHeads: nat, tp: nat, total: nat, groups: nat, u: nat) {
    kvHeads < tp && groups == 1 && |full| == tp * total && total == u && parts == View(full, total, tp)
  }

  /** One rank's part of the loop. */
  method ConvertRank<T>(full: seq<T>, kvHeads: nat, tp: nat, total: nat, groups: nat, a: nat, b: nat, i: nat, ghost parts: seq<seq<T>>,
                        lists: (seq<seq<T>>, seq<seq<T>>, seq<seq<T>>), ghost seen: seq<seq<T>>)
    returns (out: (seq<seq<T>>, seq<seq<T>>, seq<seq<T>>), ghost chunks: seq<seq<T>>)
    requires i < tp && groups > 0
    ensures WholeRanks(full, parts, kvHeads, tp, total, groups, a + 2 * b) && SeenAll(parts, i, seen, a + 2 * b, groups)
            && Collected(lists, seen, a, b) ==>
              SeenAll(parts, i + 1, seen + chunks, a + 2 * b, groups) && Collected(out, seen + chunks, a, b)
    ensures SingleRanks(full, parts, kvHeads, tp, total, groups, a + 2 * b) && KeptSoFar(lists, parts, i, kvHeads, a, b) ==>
              KeptSoFar(out, parts, i + 1, kvHeads, a, b)
  {
    var part := Slice(full, i * total, (i + 1) * total);
    var pieces := Chunk(part, groups);
    chunks := pieces;
    if WholeRanks(full, parts, kvHeads, tp, total, groups, a + 2 * b) && SeenAll(parts, i, seen, a + 2 * b, groups) {
      WholePart(full, total, tp, parts, i, seen, a + 2 * b, groups);
    }
    out := CutChunks(pieces, a, b, kvHeads >= tp || (i * kvHeads) % tp == 0, seen, lists);
    if SingleRanks(full, parts, kvHeads, tp, total, groups, a + 2 * b) && KeptSoFar(lists, parts, i, kvHeads, a, b) {
      SinglePart(full, total, tp, i);
      KeptOne(lists, out, parts, i, kvHeads, a, b);
    }
  }

  /** The loop over the ranks' parts. */
  method ConvertLoop<T>(full: seq<T>, kvHeads: nat, tp: nat, total: nat, groups: nat, a: nat, b: nat, ghost parts: seq<seq<T>>)
    returns (r: Result<seq<seq<T>>>)
    requires tp > 0 && groups > 0 && |parts| == tp
    ensures r.Ok?
    ensures WholeRanks(full, parts, kvHeads, tp, total, groups, a + 2 * b) ==>
              r == Ok(Separate(Blocks(parts, a + 2 * b, groups), a, b))
    ensures SingleRanks(full, parts, kvHeads, tp, total, groups, a + 2 * b) ==> r == Ok(SeparateKept(parts, kvHeads, a, b))
  {
    var lists: (seq<seq<T>>, seq<seq<T>>, seq<seq<T>>) := ([], [], []);
    ghost var seen: seq<seq<T>> := [];
    ghost var whole := WholeRanks(full, parts, kvHeads, tp, total, groups, a + 2 * b);
    ghost var single := SingleRanks(full, parts, kvHeads, tp, total, groups, a + 2 * b);
    var i := 0;
    while i < tp
      invariant i <= tp
      invariant whole ==> SeenAll(parts, i, seen, a + 2 * b, groups) && Collected(lists, seen, a, b)
      invariant single ==> KeptSoFar(lists, parts, i, kvHeads, a, b)
    {
      ghost var chunks;
      lists, chunks := ConvertRank(full, kvHeads, tp, total, groups, a, b, i, parts, lists, seen);
      seen := seen + chunks;
      i := i + 1;
    }
    if single { assert parts[..tp] == parts; }
    if whole { SeenEnd(parts, seen, groups, a, b, lists); }
    return Ok([Flat(lists.0), Flat(lists.1), Flat(lists.2)]);
  }

  // ---------------------------------------------------------------- the round trips

  /** Converting, sharding over any number of ranks and taking the shards apart gives back q, k and v. */
  lemma QkvRoundTrip<T>(h: Heads, tp: nat, q: seq<T>, k: seq<T>, v: seq<T>)
    requires tp > 0 && h.n > 0
    requires |q| == (tp * h.n) * h.A() && |k| == (tp * h.n) * h.b && |v| == (tp * h.n) * h.b
    ensures var full := Interleave(q, k, v, h.A(), h.b, tp * h.n);
            && |full| == tp * (h.n * h.U())
            && Separate(Blocks(View(full, h.n * h.U(), tp), h.U(), h.n), h.A(), h.b) == [q, k, v]
  {
    InterleavedParts(q, k, v, h.A(), h.b, tp * h.n);
    ShardedBlocks(Fuse(View(q, h.A(), tp * h.n), View(k, h.b, tp * h.n), View(v, h.b, tp * h.n)), h.U(), h.n, tp);
  }

  lemma InterleavedParts<T>(q: seq<T>, k: seq<T>, v: seq<T>, a: nat, b: nat, g: nat)
    requires |q| == g * a && |k| == g * b && |v| == g * b
    ensures var xs := Fuse(View(q, a, g), View(k, b, g), View(v, b, g));
            |xs| == g && Even(xs, a + 2 * b) && Flat(xs) == Interleave(q, k, v, a, b, g) && Separate(xs, a, b) == [q, k, v]
  {
    CutFused(View(q, a, g), View(k, b, g), View(v, b, g), a, b);
    FlatView(q, a, g);
    FlatView(k, b, g);
    FlatView(v, b, g);
  }

  lemma CutFused<T>(qs: seq<seq<T>>, ks: seq<seq<T>>, vs: seq<seq<T>>, a: nat, b: nat)
    requires |qs| == |ks| == |vs| && Even(qs, a) && Even(ks, b) && Even(vs, b)
    ensures var xs := Fuse(qs, ks, vs);
            Cut(xs, 0, a) == qs && Cut(xs, a, a + b) == ks && Cut(xs, a + b, a + 2 * b) == vs
  {
    var xs := Fuse(qs, ks, vs);
    forall j | 0 <= j < |qs|
      ensures Slice(xs[j], 0, a) == qs[j] && Slice(xs[j], a, a + b) == ks[j] && Slice(xs[j], a + b, a + 2 * b) == vs[j]
    {
      SliceParts(qs[j], ks[j], vs[j], a, b);
    }
  }

  lemma SliceParts<T>(q: seq<T>, k: seq<T>, v: seq<T>, a: nat, b: nat)
    requires |q| == a && |k| == b && |v| == b
    ensures Slice(q + k + v, 0, a) == q && Slice(q + k + v, a, a + b) == k && Slice(q + k + v, a + b, a + 2 * b) == v
  {}

  /** Conversely, every fused tensor is the interleaving of the parts it is taken apart into. */
  lemma SeparateThenInterleave<T>(full: seq<T>, a: nat, b: nat, g: nat)
    requires |full| == g * (a + 2 * b)
    ensures var parts := Separate(View(full, a + 2 * b, g), a, b);
            && |parts[0]| == g * a && |parts[1]| == g * b && |parts[2]| == g * b
            && Interleave(parts[0], parts[1], parts[2], a, b, g) == full
  {
    var xs := View(full, a + 2 * b, g);
    var qs, ks, vs := Cut(xs, 0, a), Cut(xs, a, a + b), Cut(xs, a + b, a + 2 * b);
    ViewFlat(qs, a);
    ViewFlat(ks, b);
    ViewFlat(vs, b);
    forall j | 0 <= j < g ensures Fuse(qs, ks, vs)[j] == xs[j] {
      SliceJoin(xs[j], a, b);
    }
    assert Fuse(qs, ks, vs) == xs;
    FlatView(full, a + 2 * b, g);
  }

  lemma SliceJoin<T>(x: seq<T>, a: nat, b: nat)
    requires |x| == a + 2 * b
    ensures Slice(x, 0, a) + Slice(x, a, a + b) + Slice(x, a + b, a + 2 * b) == x
  {}

  // ---------------------------------------------------------------- key/value heads shared by ranks

  /** Each head m times in a row. */
  function Repeated<T>(xs: seq<T>, m: nat): (ys: seq<T>)
    requires m > 0
    ensures |ys| == |xs| * m
  {
    seq(|xs| * m, i requires 0 <= i < |xs| * m => HeadOf(i, |xs|, m); xs[i / m])
  }

  lemma HeadOf(i: nat, n: nat, m: nat)
    requires m > 0 && i < n * m
    ensures 0 <= i / m < n
  {
    assert i == m * (i / m) + i % m && m * (i / m) == i / m * m;
    if n <= i / m { MulLe(n, i / m, m); }
  }

  /** Which ranks are kept: the first of every m. */
  lemma FirstOfEvery(i: nat, kv: nat, m: nat)
    requires kv > 0 && m > 0 && i < kv * m
    ensures kv * m > 0 && ((i * kv) % (kv * m) == 0 <==> i % m == 0)
  {
    var q, r := i / m, i % m;
    assert i == m * q + r;
    MulGap(r, m, kv);
    assert r * kv + kv <= m * kv == kv * m;
    assert i * kv == q * (kv * m) + r * kv;
    DivMod(i * kv, kv * m, q, r * kv);
    if r > 0 { MulLe(1, r, kv); }
  }

  /** Every m-th part, g of them. */
  ghost predicate EveryMth<T>(kept: seq<seq<T>>, parts: seq<seq<T>>, m: nat, g: nat) {
    |kept| == g && forall t: nat :: t < g ==> t * m < |parts| && kept[t] == parts[t * m]
  }

  lemma OneMorePart<T>(kept: seq<seq<T>>, parts: seq<seq<T>>, m: nat, g: nat)
    requires EveryMth(kept, parts, m, g) && g * m < |parts|
    ensures EveryMth(kept + [parts[g * m]], parts, m, g + 1)
  {}

  lemma KeptStep<T>(parts: seq<seq<T>>, kv: nat, m: nat, i: nat)
    requires kv > 0 && m > 0 && |parts| == kv * m && i < |parts|
    ensures Kept(parts, kv, i + 1) == Kept(parts, kv, i) + if i % m == 0 then [parts[i]] else []
  {
    FirstOfEvery(i, kv, m);
  }

  /** The first g * m + r ranks, r of them with the head of the last one kept. */
  lemma {:induction false} KeptAre<T>(parts: seq<seq<T>>, kv: nat, m: nat, g: nat, r: nat)
    requires kv > 0 && m > 0 && |parts| == kv * m && r < m && g * m + r <= |parts|
    ensures EveryMth(Kept(parts, kv, g * m + r), parts, m, if r > 0 then g + 1 else g)
    decreases g, 1, r
  {
    if r > 0 {
      KeptAre(parts, kv, m, g, r - 1);
      KeptStep(parts, kv, m, g * m + (r - 1));
      DivMod(g * m + (r - 1), m, g, r - 1);
      if r == 1 { OneMorePart(Kept(parts, kv, g * m), parts, m, g); }
    } else if g > 0 {
      KeptRound(parts, kv, m, g);
    }
  }

  lemma {:induction false} KeptRound<T>(parts: seq<seq<T>>, kv: nat, m: nat, g: nat)
    requires kv > 0 && m > 0 && |parts| == kv * m && g > 0 && g * m <= |parts|
    ensures EveryMth(Kept(parts, kv, g * m), parts, m, g)
    decreases g, 0
  {
    var i := (g - 1) * m + (m - 1);
    assert g * m == i + 1;
    KeptAre(parts, kv, m, g - 1, m - 1);
    KeptStep(parts, kv, m, i);
    DivMod(i, m, g - 1, m - 1);
    if m == 1 { OneMorePart(Kept(parts, kv, i), parts, m, g - 1); }
  }

  lemma KeptHead<T>(qs: seq<seq<T>>, ks: seq<seq<T>>, vs: seq<seq<T>>, m: nat, a: nat, b: nat, t: nat)
    requires m > 0 && |ks| == |vs| && |qs| == |ks| * m && t < |ks| && Even(qs, a) && Even(ks, b) && Even(vs, b)
    ensures t * m < |qs|
    ensures var x := Fuse(qs, Repeated(ks, m), Repeated(vs, m))[t * m];
            Slice(x, a, a + b) == ks[t] && Slice(x, a + b, a + 2 * b) == vs[t]
  {
    MulGap(t, |ks|, m);
    DivMod(t * m, m, t, 0);
    var x := Fuse(qs, Repeated(ks, m), Repeated(vs, m))[t * m];
    assert x == qs[t * m] + ks[t] + vs[t];
  }

  /** With key/value heads repeated over m ranks each, taking the gathered tensor apart gives back every
      rank's q and every key/value head once. */
  lemma ReplicatedRoundTrip<T>(qs: seq<seq<T>>, ks: seq<seq<T>>, vs: seq<seq<T>>, m: nat, a: nat, b: nat)
    requires m > 0 && ks != [] && |ks| == |vs| && |qs| == |ks| * m && Even(qs, a) && Even(ks, b) && Even(vs, b)
    ensures SeparateKept(Fuse(qs, Repeated(ks, m), Repeated(vs, m)), |ks|, a, b) == [Flat(qs), Flat(ks), Flat(vs)]
  {
    var parts := Fuse(qs, Repeated(ks, m), Repeated(vs, m));
    MulLe(1, |ks|, m);
    KeptRound(parts, |ks|, m, |ks|);
    var kept := Kept(parts, |ks|, |parts|);
    forall t: nat | t < |ks| ensures Slice(kept[t], a, a + b) == ks[t] && Slice(kept[t], a + b, a + 2 * b) == vs[t] {
      KeptHead(qs, ks, vs, m, a, b, t);
    }
    assert Cut(kept, a, a + b) == ks && Cut(kept, a + b, a + 2 * b) == vs;
    forall i | 0 <= i < |qs| ensures Slice(parts[i], 0, a) == qs[i] {
      assert parts[i][..a] == qs[i];
    }
    assert Cut(parts, 0, a) == qs;
  }
}
