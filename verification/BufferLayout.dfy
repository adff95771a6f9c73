/** Where the tensors of a memory buffer lie. */
module BufferLayout {
  import opened Arith
  import opened Results

  datatype DType = Float8 | BFloat16 | Float16 | Float32 | Float64 | Integer

  /** `torch.finfo(dtype).bits`; there is none for integers. */
  function Bits(d: DType): Result<nat> {
    match d
    case Float8 => Ok(8)
    case BFloat16 => Ok(16)
    case Float16 => Ok(16)
    case Float32 => Ok(32)
    case Float64 => Ok(64)
    case Integer => Raise(TypeError)
  }

  /** Number of elements and type of a tensor. */
  datatype Meta = Meta(numel: nat, dtype: DType)

  /** `calc_padded_numel`. */
  function CalcPaddedNumel(m: Meta): Result<nat> {
    var bits :- Bits(m.dtype);
    var align := 128 / bits;
    MulLe(0, (m.numel + align - 1) / align, align);
    Ok((m.numel + align - 1) / align * align)
  }

  function Align(d: DType): (a: nat)
    ensures a > 0 && (d != Integer ==> a == 128 / Bits(d).value && a * Bits(d).value == 128)
  {
    match d
    case Float8 => 16
    case BFloat16 => 8
    case Float16 => 8
    case Float32 => 4
    case Float64 => 2
    case Integer => 1
  }

  /** The elements reserved for a tensor. */
  function Reserved(m: Meta): nat { if m.dtype == Integer then 0 else CalcPaddedNumel(m).value }

  /** The padded size holds the tensor, is a whole number of 128-bit words and the smallest such. */
  lemma PaddedHolds(m: Meta)
    requires m.dtype != Integer
    ensures CalcPaddedNumel(m) == Ok(Reserved(m))
    ensures m.numel <= Reserved(m) < m.numel + Align(m.dtype) && Reserved(m) % Align(m.dtype) == 0
  {
    var a := Align(m.dtype);
    var q, r := (m.numel + a - 1) / a, (m.numel + a - 1) % a;
    assert m.numel + a - 1 == q * a + r;
    DivMod(q * a, a, q, 0);
  }

  /** The elements reserved in the buffer of type d. */
  function Total(metas: seq<Meta>, d: DType): nat {
    if metas == [] then 0
    else
      var last := metas[|metas| - 1];
      Total(metas[..|metas| - 1], d) + if last.dtype == d then Reserved(last) else 0
  }

  /** Where tensor i starts in the buffer of its type. */
  function StartOf(metas: seq<Meta>, i: nat): nat
    requires i < |metas|
  {
    Total(metas[..i], metas[i].dtype)
  }

  lemma {:induction false} TotalGrows(metas: seq<Meta>, i: nat, d: DType)
    requires i <= |metas|
    ensures Total(metas[..i], d) <= Total(metas, d)
    decreases |metas|
  {
    if i < |metas| {
      var n := |metas| - 1;
      TotalGrows(metas[..n], i, d);
      assert metas[..n][..i] == metas[..i];
    } else {
      assert metas[..i] == metas;
    }
  }

  lemma TotalNext(metas: seq<Meta>, i: nat, d: DType)
    requires i < |metas|
    ensures Total(metas[..i + 1], d) == Total(metas[..i], d) + if metas[i].dtype == d then Reserved(metas[i]) else 0
  {
    assert metas[..i + 1][..i] == metas[..i];
  }

  /** Every tensor lies within the buffer. */
  lemma InBounds(metas: seq<Meta>, i: nat)
    requires i < |metas| && metas[i].dtype != Integer
    ensures StartOf(metas, i) + metas[i].numel <= StartOf(metas, i) + Reserved(metas[i]) <= Total(metas, metas[i].dtype)
  {
    PaddedHolds(metas[i]);
    TotalNext(metas, i, metas[i].dtype);
    TotalGrows(metas, i + 1, metas[i].dtype);
  }

  /** A later tensor of the same type starts after an earlier one ends. */
  lemma Disjoint(metas: seq<Meta>, i: nat, j: nat)
    requires i < j < |metas| && metas[i].dtype == metas[j].dtype != Integer
    ensures StartOf(metas, i) + metas[i].numel <= StartOf(metas, j)
  {
    assert metas[..j][..i] == metas[..i];
    InBounds(metas[..j], i);
  }

  /** Every tensor starts on a multiple of 128 bits. */
  lemma StartsAligned(metas: seq<Meta>, i: nat)
    requires i < |metas| && metas[i].dtype != Integer
    ensures StartOf(metas, i) % Align(metas[i].dtype) == 0
    ensures (StartOf(metas, i) * Bits(metas[i].dtype).value) % 128 == 0
  {
    TotalAligned(metas[..i], metas[i].dtype);
    var a, s, b := Align(metas[i].dtype), StartOf(metas, i), Bits(metas[i].dtype).value;
    var q := s / a;
    assert s == q * a;
    assert s * b == q * 128 by { assert (q * a) * b == q * (a * b); }
    DivMod(s * b, 128, q, 0);
  }

  lemma {:induction false} TotalAligned(metas: seq<Meta>, d: DType)
    requires d != Integer
    ensures Total(metas, d) % Align(d) == 0
  {
    if metas != [] {
      var n := |metas| - 1;
      TotalAligned(metas[..n], d);
      if metas[n].dtype == d {
        PaddedHolds(metas[n]);
        SumAligned(Total(metas[..n], d), Reserved(metas[n]), Align(d));
      }
    }
  }

  lemma SumAligned(x: nat, y: nat, a: nat)
    requires a > 0 && x % a == 0 && y % a == 0
    ensures (x + y) % a == 0
  {
    var p, q := x / a, y / a;
    assert x + y == (p + q) * a by { assert (p + q) * a == p * a + q * a; }
    DivMod(x + y, a, p + q, 0);
  }

  // ---------------------------------------------------------------- no gaps

  /** Exponent and fraction bits of a floating-point format, beside the sign. */
  function FormatBits(d: DType): (nat, nat)
    requires d != Integer
  {
    match d
    case Float8 => (4, 3)
    case BFloat16 => (8, 7)
    case Float16 => (5, 10)
    case Float32 => (8, 23)
    case Float64 => (11, 52)
  }

  lemma BitsAreFormat(d: DType)
    requires d != Integer
    ensures Bits(d) == Ok(1 + FormatBits(d).0 + FormatBits(d).1)
  {}

  lemma {:induction false} TotalSkips(metas: seq<Meta>, i: nat, j: nat, d: DType)
    requires i <= j <= |metas| && forall k :: i <= k < j ==> metas[k].dtype != d
    ensures Total(metas[..j], d) == Total(metas[..i], d)
  {
    if i < j {
      TotalSkips(metas, i, j - 1, d);
      TotalNext(metas, j - 1, d);
    }
  }

  /** A type's first tensor starts at 0, each next one where the one before it ends, and the last ends the buffer: no
      element of a buffer is reserved for nothing. */
  lemma TensorsAdjoin(metas: seq<Meta>, i: nat, j: nat)
    requires i < j <= |metas| && metas[i].dtype != Integer && forall k :: i < k < j ==> metas[k].dtype != metas[i].dtype
    ensures (forall k :: 0 <= k < i ==> metas[k].dtype != metas[i].dtype) ==> StartOf(metas, i) == 0
    ensures j < |metas| && metas[j].dtype == metas[i].dtype ==> StartOf(metas, j) == StartOf(metas, i) + Reserved(metas[i])
    ensures j == |metas| ==> Total(metas, metas[i].dtype) == StartOf(metas, i) + Reserved(metas[i])
  {
    var d := metas[i].dtype;
    TotalNext(metas, i, d);
    TotalSkips(metas, i + 1, j, d);
    if forall k :: 0 <= k < i ==> metas[k].dtype != d { TotalSkips(metas, 0, i, d); }
    assert metas[..|metas|] == metas;
  }
}
