/** DataProto: a store of aligned columns that behaves like a list of rows. */
module DataProtos {
  import opened Arith
  import opened Results
  import opened Seqs
  import opened Tensors

  /** A column is a tensor of `batch` or an array of `non_tensor_batch`. */
  datatype Name = Tensor(key: string) | Array(key: string)

  type Columns<T> = map<Name, seq<T>>

  /** `size` is `len(data)`. */
  datatype Proto<T> = Proto(size: nat, cols: Columns<T>) {
    ghost predicate Valid() { forall k :: k in cols ==> |cols[k]| == size }
  }

  // ---------------------------------------------------------------- selection by index

  ghost predicate InRange(idxs: seq<nat>, n: nat) { forall i :: 0 <= i < |idxs| ==> idxs[i] < n }

  function Pick<T>(col: seq<T>, idxs: seq<nat>): (out: seq<T>)
    requires InRange(idxs, |col|)
    ensures |out| == |idxs|
  {
    seq(|idxs|, i requires 0 <= i < |idxs| => col[idxs[i]])
  }

  /** `select_idxs`: row i of the result is row idxs[i]. */
  function SelectIdxs<T>(p: Proto<T>, idxs: seq<nat>): (q: Proto<T>)
    requires p.Valid() && InRange(idxs, p.size)
    ensures q.Valid()
  {
    Proto(|idxs|, map k | k in p.cols :: Pick(p.cols[k], idxs))
  }

  /** The indices lo, …, hi - 1. */
  lemma SelectAll<T>(p: Proto<T>)
    requires p.Valid()
    ensures SelectIdxs(p, Range(0, p.size)) == p
  {
    var q := SelectIdxs(p, Range(0, p.size));
    forall k | k in p.cols ensures q.cols[k] == p.cols[k] {}
    assert q.cols == p.cols;
  }

  lemma PickTwice<T>(col: seq<T>, a: seq<nat>, b: seq<nat>)
    requires InRange(a, |col|) && InRange(b, |a|)
    ensures InRange(Pick(a, b), |col|) && Pick(Pick(col, a), b) == Pick(col, Pick(a, b))
  {}

  /** Selecting from a selection. */
  lemma SelectTwice<T>(p: Proto<T>, a: seq<nat>, b: seq<nat>)
    requires p.Valid() && InRange(a, p.size) && InRange(b, |a|)
    ensures InRange(Pick(a, b), p.size) && SelectIdxs(SelectIdxs(p, a), b) == SelectIdxs(p, Pick(a, b))
  {
    var q, r := SelectIdxs(SelectIdxs(p, a), b), SelectIdxs(p, Pick(a, b));
    forall k | k in p.cols ensures q.cols[k] == r.cols[k] { PickTwice(p.cols[k], a, b); }
    assert q.cols == r.cols;
  }

  // ---------------------------------------------------------------- slices

  /** `data[lo:hi]`. */
  function SliceRows<T>(p: Proto<T>, lo: nat, hi: nat): Proto<T> {
    var h := if hi < p.size then hi else p.size;
    Proto(if lo <= h then h - lo else 0, map k | k in p.cols :: Slice(p.cols[k], lo, hi))
  }

  lemma SliceIsSelect<T>(p: Proto<T>, lo: nat, hi: nat)
    requires p.Valid() && lo <= hi <= p.size
    ensures InRange(Range(lo, hi), p.size) && SliceRows(p, lo, hi) == SelectIdxs(p, Range(lo, hi))
  {
    var q, r := SliceRows(p, lo, hi), SelectIdxs(p, Range(lo, hi));
    forall k | k in p.cols ensures q.cols[k] == r.cols[k] { SliceIsPick(p.cols[k], lo, hi); }
    assert q.cols == r.cols;
  }

  lemma SliceIsPick<T>(col: seq<T>, lo: nat, hi: nat)
    requires lo <= hi <= |col|
    ensures Slice(col, lo, hi) == Pick(col, Range(lo, hi))
  {}

  // ---------------------------------------------------------------- concatenation

  function ColumnOf<T>(list: seq<Proto<T>>, k: Name): seq<T> {
    if list == [] then []
    else (if k in list[0].cols then list[0].cols[k] else []) + ColumnOf(list[1..], k)
  }

  function TotalSize<T>(list: seq<Proto<T>>): nat {
    if list == [] then 0 else list[0].size + TotalSize(list[1..])
  }

  /** `DataProto.concat`: column by column, for the columns of the first. */
  function Concat<T>(list: seq<Proto<T>>): Proto<T>
    requires list != []
  {
    Proto(TotalSize(list), map k | k in list[0].cols :: ColumnOf(list, k))
  }

  /** One selection per list of indices. */
  function Selections<T>(p: Proto<T>, parts: seq<seq<nat>>): (out: seq<Proto<T>>)
    requires p.Valid() && AllInRange(parts, p.size)
    ensures |out| == |parts|
  {
    seq(|parts|, i requires 0 <= i < |parts| => SelectIdxs(p, parts[i]))
  }

  ghost predicate AllInRange(parts: seq<seq<nat>>, n: nat) { forall i :: 0 <= i < |parts| ==> InRange(parts[i], n) }

  lemma {:induction false} FlatInRange(parts: seq<seq<nat>>, n: nat)
    requires AllInRange(parts, n)
    ensures InRange(Flat(parts), n)
  {
    if parts != [] { FlatInRange(parts[1..], n); }
  }

  lemma PickAppend<T>(col: seq<T>, a: seq<nat>, b: seq<nat>)
    requires InRange(a, |col|) && InRange(b, |col|)
    ensures InRange(a + b, |col|) && Pick(col, a + b) == Pick(col, a) + Pick(col, b)
  {}

  lemma {:induction false} ColumnOfSelections<T>(p: Proto<T>, parts: seq<seq<nat>>, k: Name)
    requires p.Valid() && AllInRange(parts, p.size) && k in p.cols
    ensures InRange(Flat(parts), p.size) && ColumnOf(Selections(p, parts), k) == Pick(p.cols[k], Flat(parts))
  {
    FlatInRange(parts, p.size);
    if parts != [] {
      ColumnOfSelections(p, parts[1..], k);
      assert Selections(p, parts)[1..] == Selections(p, parts[1..]);
      PickAppend(p.cols[k], parts[0], Flat(parts[1..]));
    }
  }

  lemma {:induction false} SizeOfSelections<T>(p: Proto<T>, parts: seq<seq<nat>>)
    requires p.Valid() && AllInRange(parts, p.size)
    ensures TotalSize(Selections(p, parts)) == |Flat(parts)|
  {
    if parts != [] {
      SizeOfSelections(p, parts[1..]);
      assert Selections(p, parts)[1..] == Selections(p, parts[1..]);
    }
  }

  /** Concatenating selections is selecting the concatenated indices. */
  lemma ConcatSelections<T>(p: Proto<T>, parts: seq<seq<nat>>)
    requires p.Valid() && parts != [] && AllInRange(parts, p.size)
    ensures InRange(Flat(parts), p.size) && Concat(Selections(p, parts)) == SelectIdxs(p, Flat(parts))
  {
    FlatInRange(parts, p.size);
    SizeOfSelections(p, parts);
    var q, r := Concat(Selections(p, parts)), SelectIdxs(p, Flat(parts));
    forall k | k in p.cols ensures q.cols[k] == r.cols[k] { ColumnOfSelections(p, parts, k); }
    assert q.cols == r.cols;
  }

  // ---------------------------------------------------------------- padding to a divisor

  /** Index i of the padded data is i mod n. */
  function Wrapped(n: nat, len: nat): (idxs: seq<nat>)
    requires n > 0
    ensures |idxs| == len && InRange(idxs, n)
  {
    seq(len, i requires 0 <= i < len => i % n)
  }

  lemma WrapMore(n: nat, len: nat, take: nat)
    requires n > 0 && len % n == 0 && take <= n
    ensures Wrapped(n, len + take) == Wrapped(n, len) + Range(0, take)
  {
    forall i | len <= i < len + take ensures i % n == if i - len < n then i - len else 0 {
      var q := len / n;
      assert i == q * n + (i - len);
      if i - len < n { DivMod(i, n, q, i - len); }
    }
  }

  /** What the copying loop has gathered: the data and copies of its beginning, `len` rows in all. */
  ghost predicate Padding<T>(p: Proto<T>, protos: seq<Proto<T>>, parts: seq<seq<nat>>, len: nat) {
    && p.Valid() && p.size > 0 && parts != [] && AllInRange(parts, p.size)
    && protos == Selections(p, parts) && Flat(parts) == Wrapped(p.size, len)
  }

  lemma PaddingStart<T>(p: Proto<T>)
    requires p.Valid() && p.size > 0
    ensures Padding(p, [p], [Range(0, p.size)], p.size)
  {
    SelectAll(p);
    WrapMore(p.size, 0, p.size);
    assert Wrapped(p.size, 0) == [];
    assert Flat([Range(0, p.size)]) == Range(0, p.size) + Flat<nat>([]);
  }

  lemma PaddingMore<T>(p: Proto<T>, protos: seq<Proto<T>>, parts: seq<seq<nat>>, len: nat, take: nat)
    requires Padding(p, protos, parts, len) && len % p.size == 0 && take <= p.size
    ensures Padding(p, protos + [SliceRows(p, 0, take)], parts + [Range(0, take)], len + take)
  {
    SliceIsSelect(p, 0, take);
    WrapMore(p.size, len, take);
    FlatAppend(parts, [Range(0, take)]);
    assert Flat([Range(0, take)]) == Range(0, take) + Flat<nat>([]);
    assert Selections(p, parts + [Range(0, take)]) == Selections(p, parts) + [SelectIdxs(p, Range(0, take))];
  }

  lemma FullCopies(len: nat, n: nat)
    requires n > 0 && len % n == 0
    ensures (len + n) % n == 0
  {
    OneMore(len, n);
    DivMod(len + n, n, len / n + 1, 0);
  }

  /** The copying loop: as many rows as asked for, from the beginning over and over. */
  method CopyRows<T>(p: Proto<T>, padSize: nat) returns (all: seq<Proto<T>>, ghost parts: seq<seq<nat>>)
    requires p.Valid() && p.size > 0
    ensures Padding(p, all, parts, p.size + padSize)
  {
    var protos: seq<Proto<T>> := [p];
    var remaining: nat := padSize;
    parts := [Range(0, p.size)];
    PaddingStart(p);
    DivMod(p.size, p.size, 1, 0);
    ghost var len := p.size;
    while remaining > 0
      invariant len + remaining == p.size + padSize && Padding(p, protos, parts, len)
      invariant remaining > 0 ==> len % p.size == 0
    {
      var take := if remaining < p.size then remaining else p.size;
      PaddingMore(p, protos, parts, len, take);
      FullCopies(len, p.size);
      parts := parts + [Range(0, take)];
      protos := protos + [SliceRows(p, 0, take)];
      remaining := remaining - take;
      len := len + take;
    }
    all := protos;
  }

  /** `pad_dataproto_to_divisor`: row i of the result is row i mod n. */
  method PadToDivisor<T>(p: Proto<T>, divisor: nat) returns (r: Result<(Proto<T>, nat)>)
    requires p.Valid()
    ensures divisor == 0 <==> r == Raise(ZeroDivisionError)
    ensures r.Raise? ==> divisor == 0
    ensures r.Ok? ==> r.value.1 == PadSize(p.size, divisor) && r.value.0 == Padded(p, divisor)
  {
    if divisor == 0 { return Raise(ZeroDivisionError); }
    if p.size % divisor == 0 { return Ok((p, 0)); }
    SomeRows(p.size, divisor);
    var padSize := divisor - p.size % divisor;
    var protos, parts := CopyRows(p, padSize);
    ConcatSelections(p, parts);
    return Ok((Concat(protos), padSize));
  }

  lemma SomeRows(n: nat, divisor: nat)
    requires divisor > 0 && n % divisor != 0
    ensures n > 0
  {}

  /** The data, repeated from its beginning up to the next multiple of the divisor. */
  function Padded<T>(p: Proto<T>, divisor: nat): Proto<T>
    requires p.Valid() && divisor > 0
  {
    if p.size % divisor == 0 then p
    else
      SomeRows(p.size, divisor);
      SelectIdxs(p, Wrapped(p.size, p.size + PadSize(p.size, divisor)))
  }

  lemma OneMore(x: nat, n: nat)
    requires n > 0 && x % n == 0
    ensures x + n == (x / n + 1) * n
  {
    assert x == (x / n) * n;
  }

  /** Row i of the padded data is row i mod n, in every column, and the divisor divides the length. */
  lemma PaddedRows<T>(p: Proto<T>, divisor: nat, k: Name, i: nat)
    requires p.Valid() && divisor > 0 && k in p.cols && i < Padded(p, divisor).size
    ensures var q := Padded(p, divisor);
            && q.Valid() && q.cols.Keys == p.cols.Keys && q.size % divisor == 0 && q.size == p.size + PadSize(p.size, divisor)
            && p.size > 0 && q.cols[k][i] == p.cols[k][i % p.size]
  {
    if p.size % divisor == 0 { DivMod(i, p.size, 0, i); }
  }

  // ---------------------------------------------------------------- padded, chunked processing

  /** `unpad_dataproto`. */
  function Unpad<T>(p: Proto<T>, padSize: nat): Proto<T> {
    if padSize != 0 then SliceRows(p, 0, if padSize <= p.size then p.size - padSize else 0) else p
  }

  /** `chunk`, when automatic padding is off. */
  function Chunks<T>(p: Proto<T>, chunks: nat): Result<seq<Proto<T>>> {
    if chunks == 0 then Raise(ZeroDivisionError)
    else if p.size % chunks != 0 then Raise(AssertionError)
    else
      var u := p.size / chunks;
      Ok(seq(chunks, i requires 0 <= i < chunks => ChunkAt(p, u, i)))
  }

  function ChunkAt<T>(p: Proto<T>, u: nat, i: nat): Proto<T> {
    NextBlock(i, u);
    SliceRows(p, i * u, (i + 1) * u)
  }

  type Row<T> = map<Name, T>

  function RowAt<T>(p: Proto<T>, i: nat): Row<T>
    requires p.Valid() && i < p.size
  {
    map k | k in p.cols :: p.cols[k][i]
  }

  /** Work that treats every row by itself: output column k of row i is f(k, row i). */
  function RowWise<T, U>(p: Proto<T>, keys: set<Name>, f: (Name, Row<T>) -> U): (q: Proto<U>)
    requires p.Valid()
    ensures q.Valid()
  {
    Proto(p.size, map k | k in keys :: seq(p.size, i requires 0 <= i < p.size => f(k, RowAt(p, i))))
  }

  lemma RowWiseSelect<T, U>(p: Proto<T>, idxs: seq<nat>, keys: set<Name>, f: (Name, Row<T>) -> U)
    requires p.Valid() && InRange(idxs, p.size)
    ensures RowWise(SelectIdxs(p, idxs), keys, f) == SelectIdxs(RowWise(p, keys, f), idxs)
  {
    var s := SelectIdxs(p, idxs);
    var q, r := RowWise(s, keys, f), SelectIdxs(RowWise(p, keys, f), idxs);
    forall i | 0 <= i < |idxs| ensures RowAt(s, i) == RowAt(p, idxs[i]) {}
    forall k | k in keys ensures q.cols[k] == r.cols[k] {}
    assert q.cols == r.cols;
  }

  /** The indices of the chunks. */
  function ChunkRanges(u: nat, chunks: nat): (parts: seq<seq<nat>>)
    ensures |parts| == chunks
  {
    seq(chunks, i requires 0 <= i < chunks => RangeAt(u, i))
  }

  function RangeAt(u: nat, i: nat): (r: seq<nat>)
    ensures |r| == u
  {
    NextBlock(i, u);
    Range(i * u, (i + 1) * u)
  }

  lemma {:induction false} ChunkRangesCover(u: nat, chunks: nat)
    ensures AllInRange(ChunkRanges(u, chunks), chunks * u) && Flat(ChunkRanges(u, chunks)) == Range(0, chunks * u)
  {
    if chunks > 0 {
      var n := chunks - 1;
      ChunkRangesCover(u, n);
      assert ChunkRanges(u, chunks) == ChunkRanges(u, n) + [RangeAt(u, n)];
      FlatAppend(ChunkRanges(u, n), [RangeAt(u, n)]);
      NextBlock(n, u);
      assert Flat([RangeAt(u, n)]) == RangeAt(u, n) + Flat<nat>([]);
      assert Range(0, chunks * u) == Range(0, n * u) + RangeAt(u, n);
    }
  }

  /** Chunks are selections of consecutive rows. */
  lemma ChunksAreSelections<T>(p: Proto<T>, chunks: nat, u: nat)
    requires p.Valid() && chunks > 0 && p.size == chunks * u
    ensures AllInRange(ChunkRanges(u, chunks), p.size) && Chunks(p, chunks) == Ok(Selections(p, ChunkRanges(u, chunks)))
  {
    DivMod(p.size, chunks, u, 0);
    ChunkRangesCover(u, chunks);
    var parts := ChunkRanges(u, chunks);
    forall i | 0 <= i < chunks ensures ChunkAt(p, u, i) == SelectIdxs(p, parts[i]) {
      NextBlock(i, u);
      MulGap(i, chunks, u);
      SliceIsSelect(p, i * u, (i + 1) * u);
    }
    assert Chunks(p, chunks).value == Selections(p, parts);
  }

  /** Every chunk worked on by itself. */
  function EachRowWise<T, U>(list: seq<Proto<T>>, keys: set<Name>, f: (Name, Row<T>) -> U): (out: seq<Proto<U>>)
    requires forall i :: 0 <= i < |list| ==> list[i].Valid()
    ensures |out| == |list|
  {
    seq(|list|, i requires 0 <= i < |list| => RowWise(list[i], keys, f))
  }

  /** Chunking, working row by row and concatenating is working row by row. */
  lemma ChunkedWork<T, U>(p: Proto<T>, chunks: nat, u: nat, keys: set<Name>, f: (Name, Row<T>) -> U)
    requires p.Valid() && chunks > 0 && p.size == chunks * u
    ensures var list := Chunks(p, chunks);
            && list.Ok? && |list.value| == chunks && (forall i :: 0 <= i < chunks ==> list.value[i].Valid())
            && Concat(EachRowWise(list.value, keys, f)) == RowWise(p, keys, f)
  {
    ChunksAreSelections(p, chunks, u);
    ChunkRangesCover(u, chunks);
    var parts, m := ChunkRanges(u, chunks), RowWise(p, keys, f);
    var list := Chunks(p, chunks).value;
    var worked := EachRowWise(list, keys, f);
    forall i | 0 <= i < chunks ensures worked[i] == Selections(m, parts)[i] {
      RowWiseSelect(p, parts[i], keys, f);
    }
    assert worked == Selections(m, parts);
    ConcatSelections(m, parts);
    SelectAll(m);
  }

  /** The first n of the wrapped rows are the rows. */
  lemma UnwrapRows<T>(m: Proto<T>, len: nat)
    requires m.Valid() && 0 < m.size <= len
    ensures SliceRows(SelectIdxs(m, Wrapped(m.size, len)), 0, m.size) == m
  {
    var n, idxs := m.size, Wrapped(m.size, len);
    SliceIsSelect(SelectIdxs(m, idxs), 0, n);
    SelectTwice(m, idxs, Range(0, n));
    forall i | 0 <= i < n ensures idxs[i] == i { DivMod(i, n, 0, i); }
    assert Pick(idxs, Range(0, n)) == Range(0, n);
    SelectAll(m);
  }

  /** Unpadding takes back the padding of data that was worked on row by row. */
  lemma UnpadPadded<T, U>(p: Proto<T>, divisor: nat, keys: set<Name>, f: (Name, Row<T>) -> U)
    requires p.Valid() && divisor > 0
    ensures Padded(p, divisor).Valid()
    ensures Unpad(RowWise(Padded(p, divisor), keys, f), PadSize(p.size, divisor)) == RowWise(p, keys, f)
  {
    if p.size % divisor != 0 {
      SomeRows(p.size, divisor);
      var len := p.size + PadSize(p.size, divisor);
      RowWiseSelect(p, Wrapped(p.size, len), keys, f);
      UnwrapRows(RowWise(p, keys, f), len);
    }
  }

  lemma PaddedSize<T>(p: Proto<T>, divisor: nat)
    requires p.Valid() && divisor > 0
    ensures Padded(p, divisor).size == divisor * (Padded(p, divisor).size / divisor)
  {
    PartSizeOf(p.size + PadSize(p.size, divisor), divisor);
  }

  /** Padding, chunking over the workers, working row by row, concatenating and unpadding is working row by row. */
  lemma PaddedChunkedWork<T, U>(p: Proto<T>, chunks: nat, keys: set<Name>, f: (Name, Row<T>) -> U)
    requires p.Valid() && chunks > 0
    ensures var list := Chunks(Padded(p, chunks), chunks);
            && list.Ok? && |list.value| == chunks && (forall i :: 0 <= i < chunks ==> list.value[i].Valid())
            && Unpad(Concat(EachRowWise(list.value, keys, f)), PadSize(p.size, chunks)) == RowWise(p, keys, f)
  {
    UnpadPadded(p, chunks, keys, f);
    PaddedSize(p, chunks);
    ChunkedWork(Padded(p, chunks), chunks, Padded(p, chunks).size / chunks, keys, f);
  }

  lemma PartSizeOf(len: nat, n: nat)
    requires n > 0 && len % n == 0
    ensures len == n * (len / n)
  {}

  // ---------------------------------------------------------------- adjust_batch

  /** `adjust_batch` in copy mode. */
  function AdjustBatch<T>(p: Proto<T>, divisor: nat): Result<Proto<T>>
    requires p.Valid()
  {
    if divisor == 0 then Raise(ZeroDivisionError)
    else
      var remainder := p.size % divisor;
      if remainder == 0 then Ok(p)
      else
        var toAdd := Missing(p.size, divisor);
        var dup := Range(0, if toAdd < p.size then toAdd else p.size);
        Ok(Concat([p, SelectIdxs(p, dup)]))
  }

  /** The data followed by its first rows. */
  lemma OneMoreCopy<T>(p: Proto<T>, take: nat)
    requires p.Valid() && 0 < p.size && take <= p.size
    ensures Concat([p, SelectIdxs(p, Range(0, take))]) == SelectIdxs(p, Wrapped(p.size, p.size + take))
  {
    PaddingStart(p);
    DivMod(p.size, p.size, 1, 0);
    PaddingMore(p, [p], [Range(0, p.size)], p.size, take);
    SliceIsSelect(p, 0, take);
    assert [p] + [SelectIdxs(p, Range(0, take))] == [p, SelectIdxs(p, Range(0, take))];
    ConcatSelections(p, [Range(0, p.size)] + [Range(0, take)]);
  }

  function Missing(n: nat, divisor: nat): (m: nat)
    requires divisor > 0
  {
    divisor - n % divisor
  }

  lemma AdjustIsSelect<T>(p: Proto<T>, divisor: nat, take: nat)
    requires p.Valid() && divisor > 0 && p.size % divisor != 0
    requires take == if Missing(p.size, divisor) < p.size then Missing(p.size, divisor) else p.size
    ensures p.size > 0 && AdjustBatch(p, divisor) == Ok(SelectIdxs(p, Wrapped(p.size, p.size + take)))
  {
    SomeRows(p.size, divisor);
    OneMoreCopy(p, take);
  }

  lemma EnoughRows<T>(p: Proto<T>, divisor: nat)
    requires p.Valid() && divisor > 0 && p.size % divisor != 0 && Missing(p.size, divisor) <= p.size
    ensures AdjustBatch(p, divisor) == Ok(Padded(p, divisor)) && Padded(p, divisor).size % divisor == 0
  {
    var m := Missing(p.size, divisor);
    assert PadSize(p.size, divisor) == m;
    AdjustIsSelect(p, divisor, m);
  }

  lemma TooFewRows<T>(p: Proto<T>, divisor: nat)
    requires p.Valid() && divisor > 0 && p.size % divisor != 0 && Missing(p.size, divisor) > p.size
    ensures AdjustBatch(p, divisor).Ok? && AdjustBatch(p, divisor).value.size == p.size + p.size
  {
    AdjustIsSelect(p, divisor, p.size);
  }

  /** When rows are missing, the copy mode pads to a multiple, and exactly as `pad_dataproto_to_divisor` does,
      if and only if the batch has as many rows as are missing. */
  lemma AdjustPadsIffEnoughRows<T>(p: Proto<T>, divisor: nat)
    requires p.Valid() && divisor > 0 && p.size % divisor != 0
    ensures AdjustBatch(p, divisor).Ok?
    ensures AdjustBatch(p, divisor).value.size % divisor == 0 <==> Missing(p.size, divisor) <= p.size
    ensures AdjustBatch(p, divisor).value == Padded(p, divisor) <==> Missing(p.size, divisor) <= p.size
  {
    if Missing(p.size, divisor) <= p.size {
      EnoughRows(p, divisor);
    } else {
      TooFewRows(p, divisor);
      Doubled(p.size, divisor);
    }
  }

  lemma Doubled(n: nat, d: nat)
    requires d > 0 && n % d != 0 && Missing(n, d) > n
    ensures (n + n) % d != 0 && PadSize(n, d) > n
  {
    if n < d {
      DivMod(n, d, 0, n);
      DivMod(n + n, d, 0, n + n);
    }
  }
}
