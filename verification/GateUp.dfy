/** The fused gate/up weight of the MLP: its sharding and the three places that take it apart. */
module GateUp {
  import opened Arith
  import opened QkvLayout
  import opened Results
  import opened Seqs
  import opened Tensors

  /** A rank's shard: its rows of gate, then its rows of up. */
  function Fused<T>(gates: seq<seq<T>>, ups: seq<seq<T>>): seq<seq<T>>
    requires |gates| == |ups|
  {
    seq(|gates|, i requires 0 <= i < |gates| => gates[i] + ups[i])
  }

  /** `chunk(2)` unpacked into two: the first piece has the odd row. */
  function Halves<T>(s: seq<T>): Result<(seq<T>, seq<T>)> {
    if |Chunk(s, 2)| != 2 then Raise(ShapeError) else Ok((Chunk(s, 2)[0], Chunk(s, 2)[1]))
  }

  /** Rows of the first half. */
  function Upper<T>(s: seq<T>): (h: nat)
    ensures h <= |s|
  {
    (|s| + 1) / 2
  }

  lemma HalvesEven<T>(s: seq<T>, m: nat)
    requires |s| == 2 * m
    ensures Halves(s) == Ok((Slice(s, 0, m), Slice(s, m, 2 * m)))
  {
    ChunkIsView(s, m, 2);
    ViewAt(s, m, 2, 0);
    ViewAt(s, m, 2, 1);
  }

  /** The first half has the odd row. */
  lemma HalvesAre<T>(s: seq<T>)
    requires |s| != 1
    ensures var h := (|s| + 1) / 2; Halves(s) == Ok((s[..h], s[h..]))
  {
    if |s| > 1 {
      var h := (|s| + 1) / 2;
      assert h < |s| <= 2 * h;
      assert Pieces(s[h..], h) == [s[h..]];
      assert Chunk(s, 2) == [s[..h]] + [s[h..]];
    }
  }

  lemma HalvesFail<T>(s: seq<T>)
    ensures Halves(s).Raise? <==> |s| == 1
  {
    if |s| > 1 {
      var size := (|s| + 1) / 2;
      assert size < |s| <= 2 * size;
      assert |Pieces(s[size..], size)| == 1;
    }
  }

  /** The first and the second halves of all shards. */
  function Firsts<T>(shards: seq<seq<T>>): seq<seq<T>> {
    seq(|shards|, i requires 0 <= i < |shards| => shards[i][..Upper(shards[i])])
  }

  function Seconds<T>(shards: seq<seq<T>>): seq<seq<T>> {
    seq(|shards|, i requires 0 <= i < |shards| => shards[i][Upper(shards[i])..])
  }

  lemma EvenHalves<T>(shards: seq<seq<T>>, m: nat)
    requires Even(shards, 2 * m)
    ensures Firsts(shards) == Cut(shards, 0, m) && Seconds(shards) == Cut(shards, m, 2 * m)
  {
    forall j | 0 <= j < |shards| ensures Firsts(shards)[j] == Slice(shards[j], 0, m) && Seconds(shards)[j] == Slice(shards[j], m, 2 * m) {
      assert Upper(shards[j]) == m;
    }
  }

  /** `_merge_across_tp` for the gate/up weight, and the same loop in `default_tp_concat_fn`. */
  method MergeGateUp<T>(shards: seq<seq<T>>, ghost m: nat) returns (r: Result<seq<seq<T>>>)
    ensures r.Ok? <==> forall i :: 0 <= i < |shards| ==> |shards[i]| != 1
    ensures r.Ok? || r == Raise(ShapeError)
    ensures r.Ok? ==> r.value == [Flat(Firsts(shards)), Flat(Seconds(shards))]
    ensures Even(shards, 2 * m) ==> r == Ok([Flat(Cut(shards, 0, m)), Flat(Cut(shards, m, 2 * m))])
  {
    var gates: seq<seq<T>>, ups: seq<seq<T>> := [], [];
    var i := 0;
    while i < |shards|
      invariant i <= |shards| && forall j :: 0 <= j < i ==> |shards[j]| != 1
      invariant gates == Firsts(shards)[..i] && ups == Seconds(shards)[..i]
    {
      HalvesFail(shards[i]);
      var halves := Halves(shards[i]);
      if halves.Raise? {
        return Raise(halves.error);
      }
      HalvesAre(shards[i]);
      gates, ups := gates + [halves.value.0], ups + [halves.value.1];
      i := i + 1;
    }
    assert Firsts(shards)[..|shards|] == Firsts(shards) && Seconds(shards)[..|shards|] == Seconds(shards);
    if Even(shards, 2 * m) { EvenHalves(shards, m); }
    return Ok([Flat(gates), Flat(ups)]);
  }

  /** `convert_gate_up_shard` on the gathered tensor. */
  method ConvertGateUpShard<T>(full: seq<T>, intermediate: nat, tp: nat, ghost m: nat) returns (r: Result<seq<seq<T>>>)
    ensures tp == 0 <==> r == Raise(ZeroDivisionError)
    ensures r.Raise? ==> tp == 0
    ensures tp > 0 && intermediate == tp * m && |full| == tp * (2 * m) ==>
              var shards := View(full, 2 * m, tp); r == Ok([Flat(Cut(shards, 0, m)), Flat(Cut(shards, m, 2 * m))])
  {
    if tp == 0 { return Raise(ZeroDivisionError); }
    var size := intermediate / tp;
    if intermediate == tp * m { DivMod(intermediate, tp, m, 0); }
    r := CutGateUp(full, size, tp);
  }

  /** The loop over the ranks' parts. */
  method CutGateUp<T>(full: seq<T>, size: nat, tp: nat) returns (r: Result<seq<seq<T>>>)
    ensures r.Ok?
    ensures |full| == tp * (2 * size) ==>
              var shards := View(full, 2 * size, tp); r == Ok([Flat(Cut(shards, 0, size)), Flat(Cut(shards, size, 2 * size))])
  {
    ghost var fits := |full| == tp * (2 * size);
    ghost var shards := if fits then View(full, 2 * size, tp) else [];
    var gates: seq<seq<T>>, ups: seq<seq<T>> := [], [];
    var i: nat := 0;
    while i < tp
      invariant i <= tp && (fits ==> gates == Cut(shards[..i], 0, size) && ups == Cut(shards[..i], size, 2 * size))
    {
      RowBounds(size, i);
      var part := Slice(full, size * 2 * i, size * 2 * (i + 1));
      gates := gates + [Slice(part, 0, size)];
      ups := ups + [Slice(part, size, |part|)];
      if fits {
        ViewAt(full, 2 * size, tp, i);
        assert shards[..i + 1] == shards[..i] + [part];
        CutAppend(shards[..i], part, 0, size);
        CutAppend(shards[..i], part, size, 2 * size);
      }
      i := i + 1;
    }
    if fits { assert shards[..tp] == shards; }
    return Ok([Flat(gates), Flat(ups)]);
  }

  lemma RowBounds(size: nat, i: nat)
    ensures 0 <= size * 2 * i == i * (2 * size) && 0 <= size * 2 * (i + 1) == (i + 1) * (2 * size)
  {
    assert size * 2 * i == i * (2 * size);
    assert size * 2 * (i + 1) == (i + 1) * (2 * size);
  }

  /** Sharding gate and up over the ranks and taking the shards apart gives back gate and up. */
  lemma GateUpRoundTrip<T>(gate: seq<T>, up: seq<T>, m: nat, tp: nat)
    requires |gate| == tp * m == |up|
    ensures var shards := Fused(View(gate, m, tp), View(up, m, tp));
            && Even(shards, 2 * m) && |Flat(shards)| == tp * (2 * m) && View(Flat(shards), 2 * m, tp) == shards
            && Flat(Cut(shards, 0, m)) == gate && Flat(Cut(shards, m, 2 * m)) == up
  {
    var gates, ups := View(gate, m, tp), View(up, m, tp);
    var shards := Fused(gates, ups);
    ViewFlat(shards, 2 * m);
    forall i | 0 <= i < tp ensures Slice(shards[i], 0, m) == gates[i] && Slice(shards[i], m, 2 * m) == ups[i] {
      SliceHalves(gates[i], ups[i], m);
    }
    assert Cut(shards, 0, m) == gates;
    assert Cut(shards, m, 2 * m) == ups;
    FlatView(gate, m, tp);
    FlatView(up, m, tp);
  }

  lemma SliceHalves<T>(gate: seq<T>, up: seq<T>, m: nat)
    requires |gate| == m == |up|
    ensures Slice(gate + up, 0, m) == gate && Slice(gate + up, m, 2 * m) == up
  {}
}
