/** Memory buffers: one allocation per type, parameters re-pointed into it without losing a weight. */
module MemoryBuffers {
  import opened BufferLayout
  import opened Results
  import opened Seqs

  /** A tensor as a window into one-dimensional storage. */
  datatype View = View(data: array<real>, start: nat, len: nat) {
    predicate InBounds() { start + len <= data.Length }
  }

  function Read(v: View): seq<real>
    reads v.data
  {
    if v.InBounds() then v.data[v.start..v.start + v.len] else []
  }

  class MemoryBuffer {
    const numel: nat
    const data: array<real>

    constructor (numel: nat)
      ensures this.numel == numel && fresh(data) && data.Length == numel
      ensures forall i :: 0 <= i < numel ==> data[i] == 0.0
    {
      this.numel := numel;
      data := new real[numel](_ => 0.0);
    }

    /** `get`: a window of n elements, or the range assertion. */
    method Get(n: nat, start: nat) returns (r: Result<View>)
      ensures start + n <= numel ==> r == Ok(View(data, start, n))
      ensures start + n > numel ==> r == Raise(AssertionError)
    {
      if start + n > numel { return Raise(AssertionError); }
      return Ok(View(data, start, n));
    }
  }

  class Parameter {
    const meta: Meta
    var view: View

    constructor (meta: Meta, view: View)
      requires view.len == meta.numel && view.InBounds()
      ensures this.meta == meta && this.view == view && Valid()
    {
      this.meta := meta;
      this.view := view;
    }

    predicate Valid()
      reads this
    {
      view.len == meta.numel && view.InBounds()
    }

    /** The weights, as seen through the view. */
    function Contents(): seq<real>
      requires Valid()
      reads this, view.data
    {
      Read(view)
    }
  }

  /** `copy_`. */
  method CopyInto(dst: View, src: View)
    requires dst.InBounds() && src.InBounds() && dst.len == src.len && dst.data != src.data
    modifies dst.data
    ensures Read(dst) == old(Read(src))
    ensures dst.data[..dst.start] == old(dst.data[..dst.start]) && dst.data[dst.start + dst.len..] == old(dst.data[dst.start + dst.len..])
  {
    ghost var values := Read(src);
    var j := 0;
    while j < dst.len
      invariant j <= dst.len && Read(src) == values
      invariant dst.data[dst.start..dst.start + j] == values[..j]
      invariant forall i :: 0 <= i < dst.data.Length && !(dst.start <= i < dst.start + j) ==> dst.data[i] == old(dst.data[i])
    {
      assert src.data[src.start + j] == values[j];
      dst.data[dst.start + j] := src.data[src.start + j];
      assert dst.data[dst.start..dst.start + j + 1] == dst.data[dst.start..dst.start + j] + [values[j]];
      j := j + 1;
    }
  }

  function Metas(params: seq<Parameter>): (metas: seq<Meta>)
    ensures |metas| == |params| && forall i :: 0 <= i < |params| ==> metas[i] == params[i].meta
  {
    seq(|params|, i requires 0 <= i < |params| => params[i].meta)
  }

  ghost predicate AllFloat(metas: seq<Meta>) { forall i :: 0 <= i < |metas| ==> metas[i].dtype != Integer }

  ghost predicate Used(metas: seq<Meta>, d: DType) { exists i :: 0 <= i < |metas| && metas[i].dtype == d }

  /** The first loop of `build_memory_buffer`: the total per type. */
  method Totals(metas: seq<Meta>) returns (r: Result<map<DType, nat>>)
    ensures r.Ok? <==> AllFloat(metas)
    ensures r.Ok? || r == Raise(TypeError)
    ensures r.Ok? ==> forall d :: d in r.value <==> Used(metas, d)
    ensures r.Ok? ==> forall d :: d in r.value ==> r.value[d] == Total(metas, d)
  {
    var totals: map<DType, nat> := map[];
    var i := 0;
    while i < |metas|
      invariant i <= |metas| && AllFloat(metas[..i])
      invariant forall d :: d in totals <==> Used(metas[..i], d)
      invariant forall d :: Total(metas[..i], d) == if d in totals then totals[d] else 0
    {
      var m := metas[i];
      ghost var before := totals;
      if m.dtype !in totals { totals := totals[m.dtype := 0]; }
      var padded := CalcPaddedNumel(m);
      if padded.Raise? { return Raise(padded.error); }
      totals := totals[m.dtype := totals[m.dtype] + padded.value];
      forall d ensures Total(metas[..i + 1], d) == if d in totals then totals[d] else 0 {
        TotalNext(metas, i, d);
      }
      forall d ensures d in totals <==> Used(metas[..i + 1], d) {
        UsedNext(metas, i, d);
      }
      i := i + 1;
    }
    assert metas[..|metas|] == metas;
    return Ok(totals);
  }

  lemma UsedNext(metas: seq<Meta>, i: nat, d: DType)
    requires i < |metas|
    ensures Used(metas[..i + 1], d) <==> Used(metas[..i], d) || metas[i].dtype == d
  {
    if Used(metas[..i], d) {
      var j :| 0 <= j < i && metas[..i][j].dtype == d;
      assert metas[..i + 1][j].dtype == d;
    }
    if metas[i].dtype == d { assert metas[..i + 1][i].dtype == d; }
  }

  // ---------------------------------------------------------------- one buffer per type

  /** A buffer for every type in use, each as large as its tensors need, and no two sharing memory. */
  ghost predicate Fits(buffers: map<DType, MemoryBuffer>, metas: seq<Meta>) {
    && (forall d :: d in buffers <==> Used(metas, d))
    && (forall d :: d in buffers ==> buffers[d].numel == Total(metas, d) == buffers[d].data.Length)
    && (forall d, e :: d in buffers && e in buffers && d != e ==> buffers[d].data != buffers[e].data)
  }

  /** `build_memory_buffer`. */
  method BuildMemoryBuffer(metas: seq<Meta>) returns (r: Result<map<DType, MemoryBuffer>>)
    ensures r.Ok? <==> AllFloat(metas)
    ensures r.Ok? || r == Raise(TypeError)
    ensures r.Ok? ==> Fits(r.value, metas) && forall d :: d in r.value ==> fresh(r.value[d].data)
  {
    var totals := Totals(metas);
    if totals.Raise? { return Raise(totals.error); }
    var buffers: map<DType, MemoryBuffer> := map[];
    var left := totals.value.Keys;
    while left != {}
      invariant left <= totals.value.Keys && buffers.Keys == totals.value.Keys - left
      invariant forall d :: d in buffers ==>
                  && fresh(buffers[d].data) && allocated(buffers[d].data)
                  && buffers[d].numel == totals.value[d] == buffers[d].data.Length
      invariant forall d, e :: d in buffers && e in buffers && d != e ==> buffers[d].data != buffers[e].data
      decreases |left|
    {
      var d :| d in left;
      var buffer := new MemoryBuffer(totals.value[d]);
      buffers := buffers[d := buffer];
      left := left - {d};
    }
    return Ok(buffers);
  }

  // ---------------------------------------------------------------- re-pointing the parameters

  /** The buffer dictionary's arrays. */
  ghost function Storage(buffers: map<DType, MemoryBuffer>): set<array<real>> {
    set d | d in buffers :: buffers[d].data
  }

  /** One parameter: take its window, copy its weights there and point it there. */
  method Repoint(p: Parameter, buffer: MemoryBuffer, start: nat, maintain: bool) returns (r: Result<()>)
    requires p.Valid() && p.view.data != buffer.data && buffer.numel == buffer.data.Length
    modifies p, buffer.data
    ensures start + p.meta.numel <= buffer.numel ==> r == Ok(())
    ensures start + p.meta.numel > buffer.numel ==> r == Raise(AssertionError) && p.view == old(p.view) && buffer.data[..] == old(buffer.data[..])
    ensures r.Ok? ==> p.view == View(buffer.data, start, p.meta.numel) && p.Valid()
    ensures r.Ok? && maintain ==> p.Contents() == old(p.Contents())
    ensures !maintain ==> buffer.data[..] == old(buffer.data[..])
    ensures r.Ok? ==> buffer.data[start + p.meta.numel..] == old(buffer.data[start + p.meta.numel..])
    ensures start <= buffer.numel ==> buffer.data[..start] == old(buffer.data[..start])
  {
    var view := buffer.Get(p.meta.numel, start);
    if view.Raise? { return Raise(view.error); }
    if maintain {
      CopyInto(view.value, p.view);
    }
    p.view := view.value;
    return Ok(());
  }

  /** Where parameter k looks once it is re-pointed. */
  ghost function PlaceOf(metas: seq<Meta>, buffers: map<DType, MemoryBuffer>, k: nat): View
    requires k < |metas| && metas[k].dtype in buffers
  {
    View(buffers[metas[k].dtype].data, StartOf(metas, k), metas[k].numel)
  }

  /** The places of two parameters share no element. */
  lemma PlacesApart(metas: seq<Meta>, buffers: map<DType, MemoryBuffer>, j: nat, k: nat)
    requires AllFloat(metas) && Fits(buffers, metas) && j < k < |metas|
    requires metas[j].dtype in buffers && metas[k].dtype in buffers
    ensures var a, b := PlaceOf(metas, buffers, j), PlaceOf(metas, buffers, k);
            a.InBounds() && b.InBounds() && (a.data != b.data || a.start + a.len <= b.start)
  {
    InBounds(metas, j);
    InBounds(metas, k);
    if metas[j].dtype == metas[k].dtype { Disjoint(metas, j, k); }
  }

  /** `start_index` after i parameters. */
  ghost function StartsAt(types: set<DType>, metas: seq<Meta>, i: nat): map<DType, nat>
    requires i <= |metas|
  {
    map d | d in types :: Total(metas[..i], d)
  }

  lemma StartsNext(types: set<DType>, metas: seq<Meta>, i: nat)
    requires i < |metas| && metas[i].dtype in types
    ensures var starts, d := StartsAt(types, metas, i), metas[i].dtype;
            starts[d := starts[d] + Reserved(metas[i])] == StartsAt(types, metas, i + 1)
  {
    forall d | d in types
      ensures Total(metas[..i + 1], d) == Total(metas[..i], d) + if d == metas[i].dtype then Reserved(metas[i]) else 0
    {
      TotalNext(metas, i, d);
    }
  }

  /** The buffer for parameter i is there and large enough. */
  lemma RoomFor(metas: seq<Meta>, buffers: map<DType, MemoryBuffer>, i: nat)
    requires AllFloat(metas) && Fits(buffers, metas) && i < |metas|
    ensures metas[i].dtype in buffers
    ensures var b := buffers[metas[i].dtype];
            StartOf(metas, i) + metas[i].numel <= b.numel == b.data.Length && b.data in Storage(buffers)
    ensures CalcPaddedNumel(metas[i]) == Ok(Reserved(metas[i]))
  {
    assert Used(metas, metas[i].dtype);
    InBounds(metas, i);
    PaddedHolds(metas[i]);
  }

  /** Every parameter's place. */
  ghost function Places(metas: seq<Meta>, buffers: map<DType, MemoryBuffer>): (places: seq<View>)
    requires AllFloat(metas) && Fits(buffers, metas)
    ensures |places| == |metas|
  {
    seq(|metas|, k requires 0 <= k < |metas| => PlaceAt(metas, buffers, k))
  }

  ghost function PlaceAt(metas: seq<Meta>, buffers: map<DType, MemoryBuffer>, k: nat): View
    requires AllFloat(metas) && Fits(buffers, metas) && k < |metas|
  {
    RoomFor(metas, buffers, k);
    PlaceOf(metas, buffers, k)
  }

  /** No two windows overlap, and all lie in their storage. */
  ghost predicate Apart(places: seq<View>) {
    && (forall k: nat :: k < |places| ==> places[k].InBounds())
    && (forall j: nat, k: nat :: j < k < |places| && places[j].data == places[k].data ==> places[j].start + places[j].len <= places[k].start)
  }

  /** The places are in bounds and pairwise disjoint. */
  lemma PlacesAreApart(metas: seq<Meta>, buffers: map<DType, MemoryBuffer>)
    requires AllFloat(metas) && Fits(buffers, metas)
    ensures Apart(Places(metas, buffers))
  {
    var places := Places(metas, buffers);
    forall k: nat | k < |places| ensures places[k].InBounds() { RoomFor(metas, buffers, k); }
    forall j: nat, k: nat | j < k < |places| && places[j].data == places[k].data ensures places[j].start + places[j].len <= places[k].start {
      RoomFor(metas, buffers, j);
      RoomFor(metas, buffers, k);
      PlacesApart(metas, buffers, j, k);
    }
  }

  lemma FrontOf(s: seq<real>, n: nat, lo: nat, hi: nat)
    requires lo <= hi <= n <= |s|
    ensures s[lo..hi] == s[..n][lo..hi]
  {}

  /** Moves parameter i; what was moved before stays readable. */
  method MoveOne(p: Parameter, buffer: MemoryBuffer, start: nat, maintain: bool, ghost places: seq<View>, ghost i: nat)
    returns (r: Result<()>)
    requires p.Valid() && p.view.data != buffer.data && buffer.numel == buffer.data.Length
    requires Apart(places) && i < |places| && places[i] == View(buffer.data, start, p.meta.numel)
    modifies p, buffer.data
    ensures r == Ok(()) && p.view == places[i]
    ensures if maintain then Read(places[i]) == old(Read(p.view)) else buffer.data[..] == old(buffer.data[..])
    ensures forall k: nat :: k < i ==> Read(places[k]) == old(Read(places[k]))
  {
    r := Repoint(p, buffer, start, maintain);
    forall k: nat | k < i ensures Read(places[k]) == old(Read(places[k])) {
      if places[k].data == buffer.data {
        var v := places[k];
        FrontOf(v.data[..], start, v.start, v.start + v.len);
        FrontOf(old(v.data[..]), start, v.start, v.start + v.len);
      }
    }
  }

  /** Every parameter's buffer and offset, as the loop will find them. */
  ghost predicate Sited(metas: seq<Meta>, buffers: map<DType, MemoryBuffer>, places: seq<View>) {
    |places| == |metas| && forall k: nat :: k < |metas| ==> SitedAt(metas, buffers, k, places[k])
  }

  ghost predicate SitedAt(metas: seq<Meta>, buffers: map<DType, MemoryBuffer>, k: nat, place: View)
    requires k < |metas|
  {
    && CalcPaddedNumel(metas[k]) == Ok(Reserved(metas[k])) && metas[k].dtype in buffers
    && buffers[metas[k].dtype].numel == buffers[metas[k].dtype].data.Length && place == PlaceOf(metas, buffers, k)
  }

  lemma PlacesAreSited(metas: seq<Meta>, buffers: map<DType, MemoryBuffer>)
    requires AllFloat(metas) && Fits(buffers, metas)
    ensures Sited(metas, buffers, Places(metas, buffers))
    ensures forall k: nat :: k < |metas| ==> Places(metas, buffers)[k].data in Storage(buffers)
  {
    forall k: nat | k < |metas|
      ensures SitedAt(metas, buffers, k, Places(metas, buffers)[k]) && Places(metas, buffers)[k].data in Storage(buffers)
    {
      RoomFor(metas, buffers, k);
    }
  }

  /** One turn of that loop: moves parameter i, counts its padded size in and touches nothing else. */
  method MoveNext(params: seq<Parameter>, buffers: map<DType, MemoryBuffer>, starts: map<DType, nat>, maintain: bool,
                  ghost metas: seq<Meta>, ghost places: seq<View>, ghost views: seq<View>, i: nat)
    returns (next: map<DType, nat>)
    requires Distinct(params) && i < |params| == |metas| == |places| == |views| && Apart(places)
    requires params[i].meta == metas[i] && SitedAt(metas, buffers, i, places[i]) && starts == StartsAt(buffers.Keys, metas, i)
    requires params[i].Valid() && params[i].view == views[i] && forall k: nat :: k < |views| ==> views[k].data != places[i].data
    modifies params[i], places[i].data
    ensures next == StartsAt(buffers.Keys, metas, i + 1)
    ensures params[i].view == places[i]
    ensures maintain ==> Read(places[i]) == old(Read(views[i]))
    ensures !maintain ==> forall k: nat :: k < |places| ==> places[k].data[..] == old(places[k].data[..])
    ensures forall k: nat :: k < i ==> Read(places[k]) == old(Read(places[k]))
    ensures forall k: nat :: k < |views| ==> Read(views[k]) == old(Read(views[k]))
    ensures forall k: nat :: k < |params| && k != i ==> params[k].view == old(params[k].view)
  {
    var d := params[i].meta.dtype;
    var moved := MoveOne(params[i], buffers[d], starts[d], maintain, places, i);
    StartsNext(buffers.Keys, metas, i);
    next := starts[d := starts[d] + CalcPaddedNumel(params[i].meta).value];
    forall k: nat | k < |params| && k != i ensures params[k].view == old(params[k].view) {
      assert params[k] != params[i];
    }
  }

  /** The loop of `build_memory_reference_from_module`, over parameters with known views and weights. */
  method RepointAll(params: seq<Parameter>, buffers: map<DType, MemoryBuffer>, maintain: bool, ghost metas: seq<Meta>,
                    ghost views: seq<View>, ghost weights: seq<seq<real>>, ghost places: seq<View>)
    returns (r: Result<()>)
    requires Distinct(params) && |views| == |weights| == |params| == |metas| && Sited(metas, buffers, places) && Apart(places)
    requires forall k: nat :: k < |params| ==> params[k].Valid() && params[k].meta == metas[k]
    requires forall k: nat, m: nat :: k < |params| && m < |places| ==> views[k].data != places[m].data
    requires forall k: nat :: k < |params| ==> params[k].view == views[k] && Read(views[k]) == weights[k]
    modifies set k | 0 <= k < |params| :: params[k], set k | 0 <= k < |places| :: places[k].data
    ensures r == Ok(())
    ensures forall k: nat :: k < |params| ==> params[k].view == places[k]
    ensures maintain ==> forall k: nat :: k < |params| ==> Read(places[k]) == weights[k]
    ensures !maintain ==> forall k: nat :: k < |places| ==> places[k].data[..] == old(places[k].data[..])
  {
    var starts: map<DType, nat> := map d | d in buffers :: 0;
    assert metas[..0] == [];
    var i: nat := 0;
    while i < |params|
      invariant i <= |params| && starts == StartsAt(buffers.Keys, metas, i)
      invariant forall k: nat :: k < i ==> params[k].view == places[k]
      invariant maintain ==> forall k: nat :: k < i ==> Read(places[k]) == weights[k]
      invariant forall k: nat :: i <= k < |params| ==> params[k].view == views[k]
      invariant forall k: nat :: i <= k < |params| ==> Read(views[k]) == weights[k]
      invariant !maintain ==> forall k: nat :: k < |places| ==> places[k].data[..] == old(places[k].data[..])
    {
      assert SitedAt(metas, buffers, i, places[i]);
      starts := MoveNext(params, buffers, starts, maintain, metas, places, views, i);
      i := i + 1;
    }
    r := Ok(());
  }

  /** `build_memory_reference_from_module`: never out of range; no weight changes when the weights are kept, and
      no buffer when they are not. */
  method BuildMemoryReferenceFromModule(params: seq<Parameter>, buffers: map<DType, MemoryBuffer>, maintain: bool) returns (r: Result<()>)
    requires Distinct(params) && AllFloat(Metas(params)) && Fits(buffers, Metas(params))
    requires forall k: nat :: k < |params| ==> params[k].Valid() && params[k].view.data !in Storage(buffers)
    modifies set k | 0 <= k < |params| :: params[k], Storage(buffers)
    ensures r == Ok(())
    ensures forall k: nat :: k < |params| ==> params[k].view == Places(Metas(params), buffers)[k]
    ensures maintain ==> forall k: nat :: k < |params| ==> Read(params[k].view) == old(Read(params[k].view))
    ensures !maintain ==> forall d :: d in buffers ==> buffers[d].data[..] == old(buffers[d].data[..])
  {
    ghost var views, weights := Recorded(params);
    ghost var metas := Metas(params);
    PlacesAreSited(metas, buffers);
    PlacesAreApart(metas, buffers);
    ghost var places := Places(metas, buffers);
    r := RepointAll(params, buffers, maintain, metas, views, weights, places);
    if !maintain {
      forall d | d in buffers ensures buffers[d].data[..] == old(buffers[d].data[..]) {
        if k: nat :| k < |places| && places[k].data == buffers[d].data {
          assert places[k].data[..] == old(places[k].data[..]);
        }
      }
    }
  }

  /** The views and weights of all parameters at this point. */
  ghost method Recorded(params: seq<Parameter>) returns (views: seq<View>, weights: seq<seq<real>>)
    ensures |views| == |weights| == |params|
    ensures forall k: nat :: k < |params| ==> params[k].view == views[k] && Read(views[k]) == weights[k]
  {
    views, weights := [], [];
    while |views| < |params|
      invariant |views| == |weights| <= |params|
      invariant forall k: nat :: k < |views| ==> params[k].view == views[k] && Read(views[k]) == weights[k]
      decreases |params| - |views|
    {
      var p := params[|views|];
      views, weights := views + [p.view], weights + [Read(p.view)];
    }
  }

  /** `MemoryBufferModuleWrapper`: build the buffers for the module's parameters and move the parameters there. */
  method WrapModule(params: seq<Parameter>) returns (r: Result<map<DType, MemoryBuffer>>)
    requires Distinct(params) && forall k: nat :: k < |params| ==> params[k].Valid()
    modifies set k | 0 <= k < |params| :: params[k]
    ensures r.Ok? <==> AllFloat(Metas(params))
    ensures r.Raise? ==> r.error == TypeError && forall k: nat :: k < |params| ==> params[k].view == old(params[k].view)
    ensures r.Ok? ==> Fits(r.value, Metas(params)) && forall k: nat :: k < |params| ==> params[k].view == Places(Metas(params), r.value)[k]
    ensures r.Ok? ==> forall k: nat :: k < |params| ==> Read(params[k].view) == old(Read(params[k].view))
  {
    r := BuildMemoryBuffer(Metas(params));
    if r.Raise? { return; }
    var moved := BuildMemoryReferenceFromModule(params, r.value, true);
  }
}
