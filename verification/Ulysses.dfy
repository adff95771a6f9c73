/** Ulysses sequence parallelism: the all-to-all between sequence shards and head shards. A collective
    maps the tensors of all ranks to the tensors of all ranks. */
module Ulysses {
  import opened Arith
  import opened Results
  import opened Seqs
  import opened Tensors

  datatype Dim = SeqDim | HeadDim

  /** One rank's tensor: a row for every sequence position, a column for every head. */
  datatype Matrix<T> = Matrix(cols: nat, rows: seq<seq<T>>) {
    ghost predicate Valid() { Even(rows, cols) }

    function Size(d: Dim): nat { if d == SeqDim then |rows| else cols }
  }

  /** All ranks hold valid tensors of one shape. */
  ghost predicate Alike<T>(xs: seq<Matrix<T>>, rows: nat, cols: nat) {
    forall r :: 0 <= r < |xs| ==> xs[r].Valid() && |xs[r].rows| == rows && xs[r].cols == cols
  }

  /** Row blocks: the sequence dimension split into n equal parts. */
  function SplitRows<T>(x: Matrix<T>, u: nat, n: nat): (parts: seq<Matrix<T>>)
    requires |x.rows| == n * u
    ensures |parts| == n
  {
    seq(n, r requires 0 <= r < n => Matrix(x.cols, View(x.rows, u, n)[r]))
  }

  /** Column blocks: the head dimension split into n equal parts. */
  function SplitCols<T>(x: Matrix<T>, u: nat, n: nat): (parts: seq<Matrix<T>>)
    requires x.Valid() && x.cols == n * u
    ensures |parts| == n
  {
    seq(n, r requires 0 <= r < n => Matrix(u, ColsAt(x.rows, u, n, r)))
  }

  function ColsAt<T>(rows: seq<seq<T>>, u: nat, n: nat, r: nat): (out: seq<seq<T>>)
    requires Even(rows, n * u) && r < n
    ensures |out| == |rows| && Even(out, u)
  {
    seq(|rows|, j requires 0 <= j < |rows| => View(rows[j], u, n)[r])
  }

  function RowsOf<T>(parts: seq<Matrix<T>>): seq<seq<seq<T>>> {
    seq(|parts|, r requires 0 <= r < |parts| => parts[r].rows)
  }

  function CatRows<T>(parts: seq<Matrix<T>>): Matrix<T>
    requires parts != []
  {
    Matrix(parts[0].cols, Flat(RowsOf(parts)))
  }

  /** Row j of every part. */
  function RowAcross<T>(parts: seq<Matrix<T>>, j: nat): (out: seq<seq<T>>)
    requires forall r :: 0 <= r < |parts| ==> j < |parts[r].rows|
  {
    seq(|parts|, r requires 0 <= r < |parts| => parts[r].rows[j])
  }

  function CatCols<T>(parts: seq<Matrix<T>>, rows: nat): Matrix<T>
    requires parts != [] && forall r :: 0 <= r < |parts| ==> |parts[r].rows| == rows
  {
    MulLe(0, |parts|, parts[0].cols);
    Matrix(|parts| * parts[0].cols, seq(rows, j requires 0 <= j < rows => Flat(RowAcross(parts, j))))
  }

  // ---------------------------------------------------------------- splitting and joining are inverse

  lemma SplitRowsAlike<T>(x: Matrix<T>, u: nat, n: nat)
    requires x.Valid() && |x.rows| == n * u
    ensures Alike(SplitRows(x, u, n), u, x.cols)
  {
    forall r | 0 <= r < n ensures Even(View(x.rows, u, n)[r], x.cols) {
      ViewAt(x.rows, u, n, r);
    }
  }

  lemma RowsOfSplit<T>(x: Matrix<T>, u: nat, n: nat)
    requires |x.rows| == n * u
    ensures RowsOf(SplitRows(x, u, n)) == View(x.rows, u, n)
  {}

  lemma CatSplitRows<T>(x: Matrix<T>, u: nat, n: nat)
    requires n > 0 && |x.rows| == n * u
    ensures CatRows(SplitRows(x, u, n)) == x
  {
    RowsOfSplit(x, u, n);
    FlatView(x.rows, u, n);
  }

  lemma SplitCatRows<T>(parts: seq<Matrix<T>>, u: nat, cols: nat)
    requires parts != [] && Alike(parts, u, cols)
    ensures var x := CatRows(parts); |x.rows| == |parts| * u && x.Valid() && x.cols == cols && SplitRows(x, u, |parts|) == parts
  {
    ViewFlat(RowsOf(parts), u);
    FlatEven(RowsOf(parts), cols);
    var back := SplitRows(CatRows(parts), u, |parts|);
    forall r | 0 <= r < |parts| ensures back[r] == parts[r] {
      assert RowsOf(parts)[r] == parts[r].rows;
    }
  }

  /** Joining blocks of rows keeps the rows' width. */
  lemma {:induction false} FlatEven<T>(blocks: seq<seq<seq<T>>>, cols: nat)
    requires forall r :: 0 <= r < |blocks| ==> Even(blocks[r], cols)
    ensures Even(Flat(blocks), cols)
  {
    if blocks != [] {
      FlatEven(blocks[1..], cols);
    }
  }

  lemma SplitColsAlike<T>(x: Matrix<T>, u: nat, n: nat)
    requires x.Valid() && x.cols == n * u
    ensures Alike(SplitCols(x, u, n), |x.rows|, u)
  {}

  lemma RowOfSplit<T>(x: Matrix<T>, u: nat, n: nat, j: nat)
    requires x.Valid() && x.cols == n * u && j < |x.rows|
    ensures RowAcross(SplitCols(x, u, n), j) == View(x.rows[j], u, n)
  {}

  lemma CatSplitCols<T>(x: Matrix<T>, u: nat, n: nat)
    requires n > 0 && x.Valid() && x.cols == n * u
    ensures CatCols(SplitCols(x, u, n), |x.rows|) == x
  {
    forall j | 0 <= j < |x.rows| ensures CatCols(SplitCols(x, u, n), |x.rows|).rows[j] == x.rows[j] {
      RowOfSplit(x, u, n, j);
      FlatView(x.rows[j], u, n);
    }
  }

  lemma CatColsValid<T>(parts: seq<Matrix<T>>, rows: nat, u: nat)
    requires parts != [] && Alike(parts, rows, u)
    ensures var x := CatCols(parts, rows); x.Valid() && x.cols == |parts| * u && |x.rows| == rows
    ensures forall j :: 0 <= j < rows ==> View(CatCols(parts, rows).rows[j], u, |parts|) == RowAcross(parts, j)
  {
    forall j | 0 <= j < rows
      ensures var row := CatCols(parts, rows).rows[j]; |row| == |parts| * u && View(row, u, |parts|) == RowAcross(parts, j)
    {
      ViewFlat(RowAcross(parts, j), u);
    }
  }

  lemma SplitCatCols<T>(parts: seq<Matrix<T>>, rows: nat, u: nat)
    requires parts != [] && Alike(parts, rows, u)
    ensures var x := CatCols(parts, rows); x.Valid() && x.cols == |parts| * u && SplitCols(x, u, |parts|) == parts
  {
    CatColsValid(parts, rows, u);
    var x := CatCols(parts, rows);
    var back := SplitCols(x, u, |parts|);
    forall r | 0 <= r < |parts| ensures back[r] == parts[r] {
      assert back[r].rows == parts[r].rows;
    }
  }

  // ---------------------------------------------------------------- the all-to-all

  /** Parts of u rows or columns. */
  function Split<T>(x: Matrix<T>, u: nat, n: nat, d: Dim): (parts: seq<Matrix<T>>)
    requires x.Valid() && x.Size(d) == n * u
    ensures |parts| == n
  {
    if d == SeqDim then SplitRows(x, u, n) else SplitCols(x, u, n)
  }

  function Cat<T>(parts: seq<Matrix<T>>, rows: nat, d: Dim): Matrix<T>
    requires parts != [] && forall r :: 0 <= r < |parts| ==> |parts[r].rows| == rows
  {
    if d == SeqDim then CatRows(parts) else CatCols(parts, rows)
  }

  lemma SplitAlike<T>(x: Matrix<T>, u: nat, n: nat, d: Dim)
    requires x.Valid() && x.Size(d) == n * u
    ensures Alike(Split(x, u, n, d), if d == SeqDim then u else |x.rows|, if d == SeqDim then x.cols else u)
  {
    if d == SeqDim { SplitRowsAlike(x, u, n); } else { SplitColsAlike(x, u, n); }
  }

  lemma CatSplit<T>(x: Matrix<T>, u: nat, n: nat, d: Dim)
    requires n > 0 && x.Valid() && x.Size(d) == n * u
    ensures Alike(Split(x, u, n, d), if d == SeqDim then u else |x.rows|, if d == SeqDim then x.cols else u)
    ensures Cat(Split(x, u, n, d), if d == SeqDim then u else |x.rows|, d) == x
  {
    SplitAlike(x, u, n, d);
    if d == SeqDim { CatSplitRows(x, u, n); } else { CatSplitCols(x, u, n); }
  }

  lemma SplitCat<T>(parts: seq<Matrix<T>>, rows: nat, cols: nat, d: Dim)
    requires parts != [] && Alike(parts, rows, cols)
    ensures var x, u := Cat(parts, rows, d), if d == SeqDim then rows else cols;
            && x.Valid() && x.Size(d) == |parts| * u && Split(x, u, |parts|, d) == parts
            && (d == SeqDim ==> x.cols == cols) && (d == HeadDim ==> |x.rows| == rows)
  {
    if d == SeqDim { SplitCatRows(parts, rows, cols); } else { SplitCatCols(parts, rows, cols); }
  }

  /** What rank r receives: part r of every rank. */
  function Received<T>(xs: seq<Matrix<T>>, u: nat, d: Dim, r: nat): (parts: seq<Matrix<T>>)
    requires r < |xs| && forall i :: 0 <= i < |xs| ==> xs[i].Valid() && xs[i].Size(d) == |xs| * u
    ensures |parts| == |xs|
  {
    seq(|xs|, i requires 0 <= i < |xs| => Split(xs[i], u, |xs|, d)[r])
  }

  lemma ReceivedAlike<T>(xs: seq<Matrix<T>>, rows: nat, cols: nat, u: nat, d: Dim, r: nat)
    requires r < |xs| && Alike(xs, rows, cols) && (if d == SeqDim then rows else cols) == |xs| * u
    ensures Alike(Received(xs, u, d, r), if d == SeqDim then u else rows, if d == SeqDim then cols else u)
  {
    forall i | 0 <= i < |xs|
      ensures var x := Received(xs, u, d, r)[i];
              x.Valid() && |x.rows| == (if d == SeqDim then u else rows) && x.cols == if d == SeqDim then cols else u
    {
      SplitAlike(xs[i], u, |xs|, d);
    }
  }

  /** Rank r's result of the exchange. */
  function Exchanged<T>(xs: seq<Matrix<T>>, rows: nat, cols: nat, u: nat, scatter: Dim, gather: Dim, r: nat): Matrix<T>
    requires r < |xs| && Alike(xs, rows, cols) && (if scatter == SeqDim then rows else cols) == |xs| * u
  {
    ReceivedAlike(xs, rows, cols, u, scatter, r);
    Cat(Received(xs, u, scatter, r), if scatter == SeqDim then u else rows, gather)
  }

  /** `all_to_all_tensor` on every rank at once. */
  function AllToAll<T>(xs: seq<Matrix<T>>, scatter: Dim, gather: Dim): Result<seq<Matrix<T>>>
    requires xs != [] && Alike(xs, |xs[0].rows|, xs[0].cols)
  {
    var n, size := |xs|, xs[0].Size(scatter);
    if size % n != 0 then Raise(ShapeError)
    else
      PartSize(size, n);
      Ok(seq(n, r requires 0 <= r < n => Exchanged(xs, |xs[0].rows|, xs[0].cols, size / n, scatter, gather, r)))
  }

  lemma PartSize(size: nat, n: nat)
    requires n > 0 && size % n == 0
    ensures size == n * (size / n) && size / n >= 0
  {}

  /** The exchange with known part size. */
  lemma AllToAllIs<T>(xs: seq<Matrix<T>>, rows: nat, cols: nat, u: nat, scatter: Dim, gather: Dim)
    requires xs != [] && Alike(xs, rows, cols) && (if scatter == SeqDim then rows else cols) == |xs| * u
    ensures AllToAll(xs, scatter, gather)
         == Ok(seq(|xs|, r requires 0 <= r < |xs| => Exchanged(xs, rows, cols, u, scatter, gather, r)))
  {
    var size := xs[0].Size(scatter);
    DivMod(size, |xs|, u, 0);
  }

  /** Shape of the exchanged tensors. */
  lemma ExchangedShape<T>(xs: seq<Matrix<T>>, rows: nat, cols: nat, u: nat, scatter: Dim, gather: Dim, r: nat)
    requires scatter != gather && r < |xs| && Alike(xs, rows, cols) && (if scatter == SeqDim then rows else cols) == |xs| * u
    ensures var y := Exchanged(xs, rows, cols, u, scatter, gather, r);
            && y.Valid() && y.Size(scatter) == u && y.Size(gather) == |xs| * (if gather == SeqDim then rows else cols)
            && Split(y, if gather == SeqDim then rows else cols, |xs|, gather) == Received(xs, u, scatter, r)
  {
    ReceivedAlike(xs, rows, cols, u, scatter, r);
    SplitCat(Received(xs, u, scatter, r), if scatter == SeqDim then u else rows, if scatter == SeqDim then cols else u, gather);
  }

  /** Exchanging back along the swapped dimensions (which is what the backward pass does) restores every rank's tensor. */
  lemma SwappedExchangeInverts<T>(xs: seq<Matrix<T>>, rows: nat, cols: nat, scatter: Dim, gather: Dim)
    requires scatter != gather && xs != [] && Alike(xs, rows, cols) && (if scatter == SeqDim then rows else cols) % |xs| == 0
    ensures var ys := AllToAll(xs, scatter, gather);
            && ys.Ok? && |ys.value| == |xs| && Alike(ys.value, |ys.value[0].rows|, ys.value[0].cols)
            && AllToAll(ys.value, gather, scatter) == Ok(xs)
  {
    var n, size := |xs|, if scatter == SeqDim then rows else cols;
    PartSize(size, n);
    var u := size / n;
    AllToAllIs(xs, rows, cols, u, scatter, gather);
    var ys := AllToAll(xs, scatter, gather).value;
    var u' := if gather == SeqDim then rows else cols;
    var rows', cols' := if scatter == SeqDim then u else n * rows, if scatter == SeqDim then n * cols else u;
    ExchangedAlike(xs, rows, cols, u, scatter, gather, ys, rows', cols');
    AllToAllIs(ys, rows', cols', u', gather, scatter);
    var back := AllToAll(ys, gather, scatter).value;
    forall i | 0 <= i < n ensures back[i] == xs[i] {
      BackAt(xs, rows, cols, u, scatter, gather, ys, rows', cols', i);
    }
    assert back == xs;
  }

  lemma ExchangedAlike<T>(xs: seq<Matrix<T>>, rows: nat, cols: nat, u: nat, scatter: Dim, gather: Dim, ys: seq<Matrix<T>>, rows': nat, cols': nat)
    requires scatter != gather && xs != [] && Alike(xs, rows, cols) && (if scatter == SeqDim then rows else cols) == |xs| * u
    requires |ys| == |xs| && forall r :: 0 <= r < |xs| ==> ys[r] == Exchanged(xs, rows, cols, u, scatter, gather, r)
    requires rows' == (if scatter == SeqDim then u else |xs| * rows) && cols' == if scatter == SeqDim then |xs| * cols else u
    ensures Alike(ys, rows', cols')
  {
    forall r | 0 <= r < |xs| ensures ys[r].Valid() && |ys[r].rows| == rows' && ys[r].cols == cols' {
      ExchangedShape(xs, rows, cols, u, scatter, gather, r);
    }
  }

  lemma BackAt<T>(xs: seq<Matrix<T>>, rows: nat, cols: nat, u: nat, scatter: Dim, gather: Dim, ys: seq<Matrix<T>>, rows': nat, cols': nat, i: nat)
    requires scatter != gather && i < |xs| && Alike(xs, rows, cols) && (if scatter == SeqDim then rows else cols) == |xs| * u
    requires |ys| == |xs| && forall r :: 0 <= r < |xs| ==> ys[r] == Exchanged(xs, rows, cols, u, scatter, gather, r)
    requires rows' == (if scatter == SeqDim then u else |xs| * rows) && cols' == if scatter == SeqDim then |xs| * cols else u
    requires Alike(ys, rows', cols')
    ensures Exchanged(ys, rows', cols', if gather == SeqDim then rows else cols, gather, scatter, i) == xs[i]
  {
    var u' := if gather == SeqDim then rows else cols;
    var got, sent := Received(ys, u', gather, i), Split(xs[i], u, |xs|, scatter);
    forall r | 0 <= r < |xs| ensures got[r] == sent[r] {
      ExchangedShape(xs, rows, cols, u, scatter, gather, r);
    }
    assert got == sent;
    CatSplit(xs[i], u, |xs|, scatter);
  }

  // ---------------------------------------------------------------- both layouts hold the same tensor

  /** Column block r of a tensor is column block r of its row blocks, one below the other. */
  lemma ColsOfRows<T>(g: Matrix<T>, l: nat, h: nat, n: nat, r: nat)
    requires n > 0 && g.Valid() && |g.rows| == n * l && g.cols == n * h && r < n
    requires Alike(SplitRows(g, l, n), l, g.cols)
    ensures CatRows(Received(SplitRows(g, l, n), h, HeadDim, r)) == SplitCols(g, h, n)[r]
  {
    var blocks := View(g.rows, l, n);
    var xs := SplitRows(g, l, n);
    var got := RowsOf(Received(xs, h, HeadDim, r));
    assert forall i :: 0 <= i < n ==> Even(blocks[i], n * h) by { assert forall i :: 0 <= i < n ==> xs[i].rows == blocks[i]; }
    assert got == seq(n, i requires 0 <= i < n => ColsAt(blocks[i], h, n, r)) by {
      forall i | 0 <= i < n ensures got[i] == ColsAt(blocks[i], h, n, r) {}
    }
    ColsOfFlat(blocks, h, n, r);
    FlatView(g.rows, l, n);
  }

  lemma {:induction false} ColsOfFlat<T>(blocks: seq<seq<seq<T>>>, h: nat, n: nat, r: nat)
    requires r < n && forall i :: 0 <= i < |blocks| ==> Even(blocks[i], n * h)
    ensures Even(Flat(blocks), n * h)
    ensures ColsAt(Flat(blocks), h, n, r) == Flat(seq(|blocks|, i requires 0 <= i < |blocks| => ColsAt(blocks[i], h, n, r)))
  {
    FlatEven(blocks, n * h);
    var cut := seq(|blocks|, i requires 0 <= i < |blocks| => ColsAt(blocks[i], h, n, r));
    if blocks != [] {
      ColsOfFlat(blocks[1..], h, n, r);
      assert cut[1..] == seq(|blocks| - 1, i requires 0 <= i < |blocks| - 1 => ColsAt(blocks[1..][i], h, n, r));
      ColsAppend(blocks[0], Flat(blocks[1..]), h, n, r);
    }
  }

  lemma ColsAppend<T>(a: seq<seq<T>>, b: seq<seq<T>>, h: nat, n: nat, r: nat)
    requires r < n && Even(a, n * h) && Even(b, n * h)
    ensures Even(a + b, n * h) && ColsAt(a + b, h, n, r) == ColsAt(a, h, n, r) + ColsAt(b, h, n, r)
  {}

  /** Gathering the sequence and scattering the heads turns the sequence shards of a tensor into its head shards, and back. */
  lemma ShardsOfOneTensor<T>(g: Matrix<T>, l: nat, h: nat, n: nat)
    requires n > 0 && g.Valid() && |g.rows| == n * l && g.cols == n * h
    ensures Alike(SplitRows(g, l, n), l, g.cols) && Alike(SplitCols(g, h, n), |g.rows|, h)
    ensures AllToAll(SplitRows(g, l, n), HeadDim, SeqDim) == Ok(SplitCols(g, h, n))
    ensures AllToAll(SplitCols(g, h, n), SeqDim, HeadDim) == Ok(SplitRows(g, l, n))
  {
    SplitRowsAlike(g, l, n);
    SplitColsAlike(g, h, n);
    var xs := SplitRows(g, l, n);
    AllToAllIs(xs, l, g.cols, h, HeadDim, SeqDim);
    var ys := AllToAll(xs, HeadDim, SeqDim).value;
    forall r | 0 <= r < n ensures ys[r] == SplitCols(g, h, n)[r] {
      ColsOfRows(g, l, h, n, r);
    }
    assert ys == SplitCols(g, h, n);
    DivMod(n * h, n, h, 0);
    SwappedExchangeInverts(xs, l, g.cols, HeadDim, SeqDim);
  }
}
