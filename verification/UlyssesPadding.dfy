/** Ragged sequence lengths under Ulysses: padding around the exchange, and pad, slice, gather, unpad of the inputs. */
module UlyssesPadding {
  import opened Arith
  import opened Results
  import opened Seqs
  import opened Tensors
  import opened Ulysses

  /** `x[0:-p]`: everything is dropped when p is 0. */
  function DropLast<T>(s: seq<T>, p: int): seq<T> {
    if p <= 0 then Slice(s, 0, -p) else if p >= |s| then [] else s[..|s| - p]
  }

  function Pad<T>(s: seq<T>, pad: T, n: nat): (out: seq<T>)
    requires n > 0
    ensures |out| == |s| + PadSize(|s|, n) && out[..|s|] == s
  {
    s + seq(PadSize(|s|, n), _ => pad)
  }

  // ---------------------------------------------------------------- padding around the exchange

  function PadRows<T>(x: Matrix<T>, zero: T, n: nat): Matrix<T>
    requires n > 0
  {
    Matrix(x.cols, Pad(x.rows, seq(x.cols, _ => zero), n))
  }

  lemma PadRowsValid<T>(x: Matrix<T>, zero: T, n: nat)
    requires n > 0 && x.Valid()
    ensures PadRows(x, zero, n).Valid()
  {}

  /** `gather_heads_scatter_seq` on every rank. */
  function GatherHeadsScatterSeq<T>(xs: seq<Matrix<T>>, zero: T): Result<seq<Matrix<T>>>
    requires xs != [] && Alike(xs, |xs[0].rows|, xs[0].cols)
  {
    AllToAll(PadAll(xs, |xs[0].rows|, xs[0].cols, zero), SeqDim, HeadDim)
  }

  function PadAll<T>(xs: seq<Matrix<T>>, rows: nat, cols: nat, zero: T): (out: seq<Matrix<T>>)
    requires xs != [] && Alike(xs, rows, cols)
    ensures |out| == |xs| && Alike(out, rows + PadSize(rows, |xs|), cols)
  {
    seq(|xs|, r requires 0 <= r < |xs| => PadRows(xs[r], zero, |xs|))
  }

  /** `gather_seq_scatter_heads` on every rank; 0 asks for no unpadding. */
  function GatherSeqScatterHeads<T>(xs: seq<Matrix<T>>, unpadded: nat): Result<seq<Matrix<T>>>
    requires xs != [] && Alike(xs, |xs[0].rows|, xs[0].cols)
  {
    var ys :- AllToAll(xs, HeadDim, SeqDim);
    if unpadded != 0 && unpadded % |xs| != 0 then Ok(seq(|ys|, r requires 0 <= r < |ys| => Unpadded(ys[r], unpadded)))
    else Ok(ys)
  }

  function Unpadded<T>(y: Matrix<T>, unpadded: nat): Matrix<T> {
    Matrix(y.cols, DropLast(y.rows, |y.rows| - unpadded))
  }

  lemma PadAllMultiple(rows: nat, n: nat)
    requires n > 0
    ensures (rows + PadSize(rows, n)) % n == 0
  {}

  lemma UnpadRestores<T>(x: Matrix<T>, zero: T, n: nat)
    requires n > 0 && |x.rows| % n != 0
    ensures Unpadded(PadRows(x, zero, n), |x.rows|) == x
  {}

  /** Head shards of any sequence length survive the way to sequence shards and back. */
  lemma HeadsThenSeqRestores<T>(xs: seq<Matrix<T>>, zero: T, rows: nat, cols: nat)
    requires xs != [] && Alike(xs, rows, cols)
    ensures var ys := GatherHeadsScatterSeq(xs, zero);
            && ys.Ok? && ys.value != [] && Alike(ys.value, |ys.value[0].rows|, ys.value[0].cols)
            && GatherSeqScatterHeads(ys.value, rows) == Ok(xs)
  {
    var n := |xs|;
    var padded := PadAll(xs, rows, cols, zero);
    PadAllMultiple(rows, n);
    SwappedExchangeInverts(padded, rows + PadSize(rows, n), cols, SeqDim, HeadDim);
    var back := GatherSeqScatterHeads(GatherHeadsScatterSeq(xs, zero).value, rows).value;
    forall r | 0 <= r < n ensures back[r] == xs[r] {
      if rows % n != 0 { UnpadRestores(xs[r], zero, n); } else { assert padded[r] == xs[r]; }
    }
    assert back == xs;
  }

  lemma NothingToPad<T>(x: Matrix<T>, zero: T, n: nat)
    requires n > 0 && |x.rows| % n == 0
    ensures PadRows(x, zero, n) == x
  {}

  /** Sequence shards survive the way to head shards and back, when the ranks divide the heads. */
  lemma SeqThenHeadsRestores<T>(xs: seq<Matrix<T>>, zero: T, rows: nat, cols: nat)
    requires xs != [] && Alike(xs, rows, cols) && cols % |xs| == 0
    ensures var ys := GatherSeqScatterHeads(xs, 0);
            && ys.Ok? && ys.value != [] && Alike(ys.value, |ys.value[0].rows|, ys.value[0].cols)
            && GatherHeadsScatterSeq(ys.value, zero) == Ok(xs)
  {
    var n := |xs|;
    SwappedExchangeInverts(xs, rows, cols, HeadDim, SeqDim);
    var ys := AllToAll(xs, HeadDim, SeqDim).value;
    GatheredRows(xs, rows, cols);
    var padded := PadAll(ys, |ys[0].rows|, ys[0].cols, zero);
    forall r | 0 <= r < n ensures padded[r] == ys[r] { NothingToPad(ys[r], zero, n); }
    assert padded == ys;
  }

  lemma GatheredRows<T>(xs: seq<Matrix<T>>, rows: nat, cols: nat)
    requires xs != [] && Alike(xs, rows, cols) && cols % |xs| == 0
    ensures AllToAll(xs, HeadDim, SeqDim).Ok? && |AllToAll(xs, HeadDim, SeqDim).value| == |xs|
    ensures |AllToAll(xs, HeadDim, SeqDim).value[0].rows| % |xs| == 0
  {
    PartSize(cols, |xs|);
    AllToAllIs(xs, rows, cols, cols / |xs|, HeadDim, SeqDim);
    ExchangedShape(xs, rows, cols, cols / |xs|, HeadDim, SeqDim, 0);
    DivMod(|xs| * rows, |xs|, rows, 0);
  }

  /** The head shards of a tensor become the sequence shards of the tensor padded with zero rows. */
  lemma PaddedShards<T>(g: Matrix<T>, zero: T, h: nat, n: nat, l: nat)
    requires n > 0 && g.Valid() && g.cols == n * h && |g.rows| + PadSize(|g.rows|, n) == n * l
    ensures Alike(SplitCols(g, h, n), |g.rows|, h)
    ensures GatherHeadsScatterSeq(SplitCols(g, h, n), zero) == Ok(SplitRows(PadRows(g, zero, n), l, n))
  {
    SplitColsAlike(g, h, n);
    PadRowsValid(g, zero, n);
    var xs, padded := SplitCols(g, h, n), PadRows(g, zero, n);
    var all := PadAll(xs, |g.rows|, h, zero);
    forall r | 0 <= r < n ensures all[r] == SplitCols(padded, h, n)[r] {
      PadCols(g, zero, h, n, r);
    }
    assert all == SplitCols(padded, h, n);
    ShardsOfOneTensor(padded, l, h, n);
  }

  lemma PadCols<T>(g: Matrix<T>, zero: T, h: nat, n: nat, r: nat)
    requires n > 0 && g.Valid() && g.cols == n * h && r < n && PadRows(g, zero, n).Valid()
    ensures PadRows(Matrix(h, ColsAt(g.rows, h, n, r)), zero, n).rows == ColsAt(PadRows(g, zero, n).rows, h, n, r)
  {
    var zeros := seq(n * h, _ => zero);
    ZeroBlock(zero, h, n, r);
  }

  lemma {:induction false} ZeroBlock<T>(zero: T, h: nat, n: nat, r: nat)
    requires r < n
    ensures 0 <= n * h && View(seq(n * h, _ => zero), h, n)[r] == seq(h, _ => zero)
  {
    MulLe(0, n, h);
    MulGap(r, n, h);
    ViewAt(seq(n * h, _ => zero), h, n, r);
    NextBlock(r, h);
  }

  // ---------------------------------------------------------------- the inputs

  /** `ulysses_pad`: ids with 0, positions with 0, 1, 2, … */
  function UlyssesPad(ids: seq<int>, positions: Option<seq<int>>, sp: nat): Result<(seq<int>, Option<seq<int>>, nat)> {
    if positions.Some? && |positions.value| != |ids| then Raise(AssertionError)
    else if sp <= 1 then Ok((ids, positions, 0))
    else
      var p := PadSize(|ids|, sp);
      Ok((ids + seq(p, _ => 0), if positions.Some? then Some(positions.value + seq(p, i => i)) else None, p))
  }

  /** `slice_input_tensor` on rank r of n. */
  function SliceInput<T>(x: seq<T>, zero: T, padding: bool, n: nat, r: nat): seq<T>
    requires n > 0
  {
    var y := if padding then Pad(x, zero, n) else x;
    var parts := |y| / n;
    MulLe(0, r, parts);
    MulLe(0, r + 1, parts);
    Slice(y, r * parts, (r + 1) * parts)
  }

  /** `ulysses_pad_and_slice_inputs` on rank r. */
  function PadAndSlice(ids: seq<int>, positions: Option<seq<int>>, sp: nat, r: nat): Result<(seq<int>, Option<seq<int>>, nat)>
    requires sp > 0
  {
    var padded :- UlyssesPad(ids, positions, sp);
    Ok((SliceInput(padded.0, 0, false, sp, r),
        if padded.1.Some? then Some(SliceInput(padded.1.value, 0, false, sp, r)) else None,
        padded.2))
  }

  /** `gather_outpus_and_unpad` along the first dimension: every rank gets all parts, without the padding. */
  function GatherAndUnpad<T>(parts: seq<seq<T>>, padding: nat): seq<T> {
    if padding == 0 then Flat(parts) else DropLast(Flat(parts), padding)
  }

  function Map<A, B>(f: A -> B, s: seq<A>): (out: seq<B>)
    ensures |out| == |s|
  {
    seq(|s|, i requires 0 <= i < |s| => f(s[i]))
  }

  /** The slices of a tensor whose length n divides are its n blocks. */
  lemma SlicesAreBlocks<T>(x: seq<T>, zero: T, n: nat, u: nat, r: nat)
    requires n > 0 && |x| == n * u && r < n
    ensures SliceInput(x, zero, false, n, r) == View(x, u, n)[r]
  {
    DivMod(|x|, n, u, 0);
    ViewAt(x, u, n, r);
  }

  lemma {:induction false} MapFlat<A, B>(f: A -> B, xs: seq<seq<A>>)
    ensures Flat(seq(|xs|, r requires 0 <= r < |xs| => Map(f, xs[r]))) == Map(f, Flat(xs))
  {
    var ys := seq(|xs|, r requires 0 <= r < |xs| => Map(f, xs[r]));
    if xs != [] {
      MapFlat(f, xs[1..]);
      assert ys[1..] == seq(|xs| - 1, r requires 0 <= r < |xs| - 1 => Map(f, xs[1..][r]));
      assert Map(f, xs[0] + Flat(xs[1..])) == Map(f, xs[0]) + Map(f, Flat(xs[1..]));
    }
  }

  /** Padding, slicing over the ranks, mapping token by token, gathering and unpadding is mapping token by token. */
  lemma ParallelMapIsMap<B>(f: int -> B, ids: seq<int>, positions: Option<seq<int>>, sp: nat)
    requires sp > 0 && (positions.Some? ==> |positions.value| == |ids|)
    ensures forall r: nat :: r < sp ==> PadAndSlice(ids, positions, sp, r).Ok? && PadAndSlice(ids, positions, sp, r).value.2 == PadSize(|ids|, sp)
    ensures GatherAndUnpad(seq(sp, r requires 0 <= r < sp => Map(f, PadAndSlice(ids, positions, sp, r).value.0)), PadSize(|ids|, sp)) == Map(f, ids)
  {
    OneRankNeedsNoPadding(|ids|);
    var p := PadSize(|ids|, sp);
    var padded := ids + seq(p, _ => 0);
    assert UlyssesPad(ids, positions, sp).value.0 == padded;
    PartSize(|padded|, sp);
    var u := |padded| / sp;
    var blocks := View(padded, u, sp);
    var parts := seq(sp, r requires 0 <= r < sp => Map(f, PadAndSlice(ids, positions, sp, r).value.0));
    forall r | 0 <= r < sp ensures parts[r] == Map(f, blocks[r]) {
      SlicesAreBlocks(padded, 0, sp, u, r);
    }
    assert parts == seq(sp, r requires 0 <= r < sp => Map(f, blocks[r]));
    MapFlat(f, blocks);
    FlatView(padded, u, sp);
    DropPad(f, ids, p);
  }

  lemma OneRankNeedsNoPadding(len: nat)
    ensures PadSize(len, 1) == 0
  {}

  lemma DropPad<B>(f: int -> B, ids: seq<int>, p: nat)
    ensures Map(f, ids + seq(p, _ => 0))[..|ids|] == Map(f, ids)
  {}

  lemma SliceAt<T>(x: seq<T>, zero: T, n: nat, u: nat, r: nat)
    requires n > 0 && |x| == n * u && r < n
    ensures 0 <= r * u && r * u + u <= |x| && SliceInput(x, zero, false, n, r) == x[r * u..r * u + u]
  {
    DivMod(|x|, n, u, 0);
    NextBlock(r, u);
    MulGap(r, n, u);
  }

  /** Every token of a rank's slice stands beside its own position; padding tokens are 0 and count their positions from 0. */
  lemma IdsAndPositionsAligned(ids: seq<int>, positions: seq<int>, sp: nat, u: nat, r: nat, j: nat)
    requires sp > 0 && |positions| == |ids| && |ids| + PadSize(|ids|, sp) == sp * u && r < sp && j < u
    ensures var out, g := PadAndSlice(ids, Some(positions), sp, r), r * u + j;
            && out.Ok? && out.value.1.Some? && |out.value.0| == |out.value.1.value| == u && 0 <= g < sp * u
            && (g < |ids| ==> out.value.0[j] == ids[g] && out.value.1.value[j] == positions[g])
            && (g >= |ids| ==> out.value.0[j] == 0 && out.value.1.value[j] == g - |ids|)
  {
    OneRankNeedsNoPadding(|ids|);
    var p := PadSize(|ids|, sp);
    var padded := UlyssesPad(ids, Some(positions), sp).value;
    assert |padded.0| == |padded.1.value| == |ids| + p;
    SliceAt(padded.0, 0, sp, u, r);
    SliceAt(padded.1.value, 0, sp, u, r);
  }

  /** `Gather.backward` on one slice: a rank's own part of the gradient, scaled by the number of ranks if asked. */
  function SliceBackward(grad: seq<real>, part: nat, n: nat, r: nat, scaler: bool): Result<seq<real>>
    requires part > 0
  {
    var scaled := if scaler then Map((g: real) => g * n as real, grad) else grad;
    var parts := Pieces(scaled, part);
    if r < |parts| then Ok(parts[r]) else Raise(IndexError)
  }

  lemma MapEven<A, B>(f: A -> B, xs: seq<seq<A>>, u: nat)
    requires Even(xs, u)
    ensures Even(seq(|xs|, r requires 0 <= r < |xs| => Map(f, xs[r])), u)
  {}

  lemma SliceIsOwnPart(grads: seq<seq<real>>, part: nat, r: nat, scaler: bool)
    requires part > 0 && Even(grads, part) && r < |grads|
    ensures SliceBackward(Flat(grads), part, |grads|, r, scaler) == Ok(Scaled(grads[r], |grads|, scaler))
  {
    var n := |grads|;
    var f := (g: real) => g * n as real;
    var scaled := seq(n, i requires 0 <= i < n => Map(f, grads[i]));
    MapFlat(f, grads);
    MapEven(f, grads, part);
    var ys := if scaler then scaled else grads;
    ViewFlat(ys, part);
    PiecesEven(Flat(ys), part, n);
  }

  function Scaled(grad: seq<real>, n: nat, scaler: bool): seq<real> {
    if scaler then Map((g: real) => g * n as real, grad) else grad
  }

  /** A tensor seen along one dimension: slice by slice over the dimensions before it, every slice
      flattened.  `Gather.forward` puts the ranks' slices one after the other. */
  function Gathered(locals: seq<seq<seq<real>>>, outer: nat): seq<seq<real>>
    requires forall r :: 0 <= r < |locals| ==> |locals[r]| == outer
  {
    seq(outer, j requires 0 <= j < outer => Flat(SlicesOf(locals, outer, j)))
  }

  function SlicesOf(locals: seq<seq<seq<real>>>, outer: nat, j: nat): seq<seq<real>>
    requires j < outer && forall r :: 0 <= r < |locals| ==> |locals[r]| == outer
  {
    seq(|locals|, r requires 0 <= r < |locals| => locals[r][j])
  }

  /** `Gather.backward` along any dimension, slice by slice. */
  function GatherBackward(grad: seq<seq<real>>, part: nat, n: nat, r: nat, scaler: bool): Result<seq<seq<real>>>
    requires part > 0
  {
    if exists j :: 0 <= j < |grad| && SliceBackward(grad[j], part, n, r, scaler).Raise? then Raise(IndexError)
    else Ok(seq(|grad|, j requires 0 <= j < |grad| => SliceBackward(grad[j], part, n, r, scaler).value))
  }

  /** The gradients of what every rank contributed come back to it, whatever dimension was gathered. */
  lemma GatherBackwardIsOwnPart(grads: seq<seq<seq<real>>>, outer: nat, part: nat, r: nat, scaler: bool)
    requires part > 0 && r < |grads| && forall q :: 0 <= q < |grads| ==> |grads[q]| == outer && Even(grads[q], part)
    ensures var own := GatherBackward(Gathered(grads, outer), part, |grads|, r, scaler);
            own.Ok? && |own.value| == outer && forall j :: 0 <= j < outer ==> own.value[j] == Scaled(grads[r][j], |grads|, scaler)
  {
    var full := Gathered(grads, outer);
    forall j | 0 <= j < outer ensures SliceBackward(full[j], part, |grads|, r, scaler) == Ok(Scaled(grads[r][j], |grads|, scaler)) {
      var slices := SlicesOf(grads, outer, j);
      assert Even(slices, part) by {
        forall q | 0 <= q < |slices| ensures |slices[q]| == part { assert Even(grads[q], part); }
      }
      SliceIsOwnPart(slices, part, r, scaler);
    }
  }
}
