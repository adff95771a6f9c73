/** Global layer numbers from pipeline and virtual-pipeline ranks. */
module LayerOffsets {
  import opened Arith
  import opened Results

  /** Sizes of a pipeline split; `vp` is the number of virtual stages per rank. */
  datatype Split = Split(layers: nat, pp: nat, first: Option<nat>, last: Option<nat>, vp: Option<nat>, embedding: bool, loss: bool) {
    predicate Uneven() { first.Some? || last.Some? }

    /** Stages that share what the first and the last stage leave. */
    function Middle(): int { pp - (if first.Some? then 1 else 0) - (if last.Some? then 1 else 0) }
  }

  /** `get_transformer_layer_offset`; `onFirstStage` is what the process itself reports. */
  function Offset(c: Split, rank: nat, vpRank: nat, onFirstStage: bool): Result<int> {
    if c.pp <= 1 then Ok(0)
    else if c.Uneven() then
      var middle := c.layers - c.first.Or(0) - c.last.Or(0);
      if c.vp.Some? then UnevenVirtual(c, middle, rank, vpRank) else Ok(UnevenPlain(c, middle, rank))
    else
      var n := c.layers + (if c.embedding then 1 else 0) + (if c.loss then 1 else 0);
      var minus := if c.embedding && !onFirstStage then 1 else 0;
      if c.vp.Some? then
        if c.vp.value == 0 then Raise(ZeroDivisionError)
        else Ok(vpRank * (n / c.vp.value) + rank * (n / c.pp / c.vp.value) - minus)
      else Ok(rank * (n / c.pp) - minus)
  }

  /** Uneven stages with virtual stages. */
  function UnevenVirtual(c: Split, middle: int, rank: nat, vpRank: nat): Result<int>
    requires c.pp > 1 && c.vp.Some?
  {
    var vp := c.vp.value;
    if vp == 0 then Raise(ZeroDivisionError)
    else
      var f, m, l := c.first.Or(0) / vp, middle / vp, c.last.Or(0) / vp;
      if rank == 0 then Ok(vpRank * (f + m + l))
      else if c.Middle() == 0 then Raise(ZeroDivisionError)
      else Ok(vpRank * (f + m + l) + f + (rank - 1) * (m / c.Middle()))
  }

  /** Uneven stages without virtual stages. */
  function UnevenPlain(c: Split, middle: int, rank: nat): int
    requires c.pp > 1
  {
    var per := if c.Middle() > 0 then middle / c.Middle() else 0;
    if rank == 0 then 0 else (if c.first.None? then rank else rank - 1) * per + c.first.Or(0)
  }

  // ---------------------------------------------------------------- the stages themselves

  /** Layers of one (virtual) stage: of the first, a middle and the last pipeline rank. */
  datatype Sizes = Sizes(f: nat, m: nat, l: nat)

  function Vp(c: Split): nat { c.vp.Or(1) }

  function Over(x: nat, n: nat): nat
    requires n > 0
  {
    x / n
  }

  function SizesOf(c: Split): Sizes
    requires Vp(c) > 0 && c.Middle() >= 0 && c.first.Or(0) + c.last.Or(0) <= c.layers
  {
    var v := Vp(c);
    var middle := c.layers - c.first.Or(0) - c.last.Or(0);
    Sizes(Over(c.first.Or(0), v), if c.Middle() == 0 then 0 else Over(Over(middle, v), c.Middle()), Over(c.last.Or(0), v))
  }

  /** Layers that each virtual stage of `rank` holds. */
  function SizeAt(c: Split, s: Sizes, rank: nat): nat {
    if c.first.Some? && rank == 0 then s.f
    else if c.last.Some? && rank == c.pp - 1 then s.l
    else s.m
  }

  /** Layers of all ranks in one virtual round. */
  function Round(c: Split, s: Sizes): int { s.f + c.Middle() * s.m + s.l }

  /** Every split is exact and every stage has a layer. */
  predicate Regular(c: Split) {
    && c.pp > 0 && !c.embedding && !c.loss && Vp(c) > 0
    && (c.pp == 1 ==> !c.Uneven() && c.vp.None?)
    && c.first.Or(0) + c.last.Or(0) <= c.layers
    && var s := SizesOf(c);
       && c.first.Or(0) == s.f * Vp(c) && c.last.Or(0) == s.l * Vp(c) && c.layers == Round(c, s) * Vp(c)
       && (c.first.Some? ==> s.f > 0) && (c.last.Some? ==> s.l > 0) && (c.Middle() > 0 ==> s.m > 0)
  }

  /** The offset the stage before `rank` in the round ends at. */
  function Start(c: Split, s: Sizes, rank: nat): nat {
    if rank == 0 then 0 else Start(c, s, rank - 1) + SizeAt(c, s, rank - 1)
  }

  /** Layers of the first `vpRank` virtual rounds. */
  function Rounds(c: Split, s: Sizes, vpRank: nat): nat {
    if vpRank == 0 then 0 else Rounds(c, s, vpRank - 1) + Start(c, s, c.pp)
  }

  /** Stage (rank, vpRank) of a layout without gaps, virtual round by virtual round. */
  function Place(c: Split, s: Sizes, rank: nat, vpRank: nat): nat { Rounds(c, s, vpRank) + Start(c, s, rank) }

  /** `Place` with the round length in closed form. */
  lemma {:induction false} RoundsAre(c: Split, s: Sizes, vpRank: nat, round: int)
    requires Start(c, s, c.pp) == round
    ensures Rounds(c, s, vpRank) == vpRank * round
  {
    if vpRank > 0 {
      RoundsAre(c, s, vpRank - 1, round);
      assert (vpRank - 1) * round + round == vpRank * round;
    }
  }

  /** `Start` in closed form. */
  lemma {:induction false} StartIs(c: Split, s: Sizes, rank: nat)
    requires c.pp > 1 && rank < c.pp && (c.first.None? ==> s.f == 0)
    ensures Start(c, s, rank) == if rank == 0 then 0 else if c.first.Some? then s.f + (rank - 1) * s.m else rank * s.m
  {
    if rank > 1 {
      StartIs(c, s, rank - 1);
      assert SizeAt(c, s, rank - 1) == s.m;
      assert (rank - 2) * s.m + s.m == (rank - 1) * s.m && (rank - 1) * s.m + s.m == rank * s.m;
    }
  }

  /** The stages of one round hold the round's layers. */
  lemma RoundIsFull(c: Split, s: Sizes)
    requires c.pp > 0 && (c.pp == 1 ==> !c.Uneven()) && (c.first.None? ==> s.f == 0) && (c.last.None? ==> s.l == 0)
    ensures Start(c, s, c.pp) == Round(c, s)
  {
    assert Start(c, s, c.pp) == Start(c, s, c.pp - 1) + SizeAt(c, s, c.pp - 1);
    if c.pp > 1 {
      StartIs(c, s, c.pp - 1);
      FullSum(c.first.Some?, c.last.Some?, c.pp - 1, c.Middle(), s);
    }
  }

  lemma FullSum(first: bool, last: bool, r: nat, k: int, s: Sizes)
    requires r > 0 && k == r + 1 - (if first then 1 else 0) - (if last then 1 else 0)
    ensures (if first then s.f + (r - 1) * s.m else r * s.m) + (if last then s.l else s.m)
         == (if first then s.f else 0) + k * s.m + (if last then s.l else 0)
  {
    assert (r - 1) * s.m + s.m == r * s.m;
    assert r * s.m + s.m == (r + 1) * s.m;
  }

  /** Where the formula lays the stages out without gaps: not for virtual stages whose uneven split
      leaves the first rank's count open or has no middle rank. */
  predicate Placed(c: Split) { !c.Uneven() || c.vp.None? || (c.first.Some? && c.Middle() > 0) }

  lemma PlaceIs(c: Split, rank: nat, vpRank: nat)
    requires Regular(c)
    ensures Place(c, SizesOf(c), rank, vpRank) == vpRank * Round(c, SizesOf(c)) + Start(c, SizesOf(c), rank)
  {
    RegularFacts(c);
    RoundIsFull(c, SizesOf(c));
    RoundsAre(c, SizesOf(c), vpRank, Round(c, SizesOf(c)));
  }

  lemma EvenQuotients(n: nat, pp: nat, m: nat, v: nat)
    requires pp > 0 && v > 0 && n == (pp * m) * v
    ensures n / v == pp * m && n / pp == m * v && n / pp / v == m
  {
    DivMod(n, v, pp * m, 0);
    assert n == (m * v) * pp;
    DivMod(n, pp, m * v, 0);
    DivMod(m * v, v, m, 0);
  }

  lemma EvenIsPlace(c: Split, rank: nat, vpRank: nat, onFirstStage: bool)
    requires Regular(c) && c.pp > 1 && !c.Uneven() && rank < c.pp && vpRank < Vp(c)
    ensures Offset(c, rank, vpRank, onFirstStage) == Ok(Place(c, SizesOf(c), rank, vpRank))
  {
    PlaceIs(c, rank, vpRank);
    var s := SizesOf(c);
    ZeroQuotient(Vp(c));
    StartIs(c, s, rank);
    EvenQuotients(c.layers, c.pp, s.m, Vp(c));
  }

  lemma ZeroQuotient(v: nat)
    requires v > 0
    ensures 0 / v == 0
  {}

  lemma MiddleQuotients(c: Split)
    requires Regular(c) && c.Uneven()
    ensures var s, middle := SizesOf(c), c.layers - c.first.Or(0) - c.last.Or(0);
            && middle / Vp(c) == c.Middle() * s.m && (c.Middle() > 0 ==> c.Middle() * s.m / c.Middle() == s.m)
  {
    var s, v, k := SizesOf(c), Vp(c), c.Middle();
    MiddleIs(c.layers, s, v, k, c.first.Or(0), c.last.Or(0));
    MulLe(0, k, s.m);
    DivMod(c.layers - c.first.Or(0) - c.last.Or(0), v, k * s.m, 0);
    if k > 0 {
      assert k * s.m == s.m * k;
      DivMod(k * s.m, k, s.m, 0);
    }
  }

  lemma MiddleIs(layers: nat, s: Sizes, v: nat, k: int, first: nat, last: nat)
    requires first == s.f * v && last == s.l * v && layers == (s.f + k * s.m + s.l) * v
    ensures layers - first - last == (k * s.m) * v
  {
    assert (s.f + k * s.m + s.l) * v == s.f * v + (k * s.m) * v + s.l * v;
  }

  lemma UnevenVirtualIsPlace(c: Split, rank: nat, vpRank: nat)
    requires Regular(c) && c.Uneven() && c.vp.Some? && c.first.Some? && c.Middle() > 0 && rank < c.pp
    ensures UnevenVirtual(c, c.layers - c.first.Or(0) - c.last.Or(0), rank, vpRank) == Ok(Place(c, SizesOf(c), rank, vpRank))
  {
    PlaceIs(c, rank, vpRank);
    MiddleQuotients(c);
    StartIs(c, SizesOf(c), rank);
  }

  lemma UnevenPlainIsPlace(c: Split, rank: nat)
    requires Regular(c) && c.Uneven() && c.vp.None? && rank < c.pp
    ensures UnevenPlain(c, c.layers - c.first.Or(0) - c.last.Or(0), rank) == Place(c, SizesOf(c), rank, 0)
  {
    PlaceIs(c, rank, 0);
    var s := SizesOf(c);
    MiddleQuotients(c);
    ZeroQuotient(1);
    StartIs(c, s, rank);
  }

  /** On regular splits the two functions of the layout agree everywhere exactly when it is `Placed`. */
  lemma OffsetIsPlace(c: Split, rank: nat, vpRank: nat, onFirstStage: bool)
    requires Regular(c) && Placed(c) && rank < c.pp && vpRank < Vp(c)
    ensures Offset(c, rank, vpRank, onFirstStage) == Ok(Place(c, SizesOf(c), rank, vpRank))
  {
    if c.pp > 1 {
      if !c.Uneven() {
        EvenIsPlace(c, rank, vpRank, onFirstStage);
      } else if c.vp.Some? {
        UnevenVirtualIsPlace(c, rank, vpRank);
      } else {
        UnevenPlainIsPlace(c, rank);
      }
    }
  }

  /** Otherwise rank 1 collides with rank 0, or raises. */
  lemma NotPlacedFails(c: Split, onFirstStage: bool)
    requires Regular(c) && !Placed(c)
    ensures Offset(c, 1, 0, onFirstStage) != Ok(Place(c, SizesOf(c), 1, 0))
    ensures c.Middle() > 0 ==> Offset(c, 1, 0, onFirstStage) == Offset(c, 0, 0, onFirstStage) == Ok(0)
    ensures c.Middle() == 0 ==> Offset(c, 1, 0, onFirstStage) == Raise(ZeroDivisionError)
  {
    ZeroQuotient(Vp(c));
    assert Start(c, SizesOf(c), 1) == Start(c, SizesOf(c), 0) + SizeAt(c, SizesOf(c), 0);
  }

  // ---------------------------------------------------------------- tiling

  /** The offset of a stage, asked for on that stage. */
  function At(c: Split, rank: nat, vpRank: nat): Result<int> { Offset(c, rank, vpRank, rank == 0 && vpRank == 0) }

  /** Where the next stage starts: the next rank, or the next virtual round, or the end of the model. */
  function NextAt(c: Split, rank: nat, vpRank: nat): Result<int> {
    if rank + 1 < c.pp then At(c, rank + 1, vpRank)
    else if vpRank + 1 < Vp(c) then At(c, 0, vpRank + 1)
    else Ok(c.layers)
  }

  predicate Touch(a: Result<int>, size: nat, b: Result<int>) { a.Ok? && b.Ok? && a.value + size == b.value }

  predicate StageTouches(c: Split, s: Sizes, rank: nat, vpRank: nat) {
    Touch(At(c, rank, vpRank), SizeAt(c, s, rank), NextAt(c, rank, vpRank))
  }

  /** The first stage starts at 0 and every stage ends where the next one starts. */
  ghost predicate Tiles(c: Split, s: Sizes) {
    && At(c, 0, 0) == Ok(0)
    && forall rank: nat, vpRank: nat :: rank < c.pp && vpRank < Vp(c) ==> StageTouches(c, s, rank, vpRank)
  }

  lemma RegularFacts(c: Split)
    requires Regular(c)
    ensures c.first.None? ==> SizesOf(c).f == 0
    ensures c.last.None? ==> SizesOf(c).l == 0
  {
    ZeroQuotient(Vp(c));
  }

  /** The offsets tile the layers exactly when the split is `Placed`. */
  lemma TilesIffPlaced(c: Split)
    requires Regular(c)
    ensures Tiles(c, SizesOf(c)) <==> Placed(c)
  {
    if Placed(c) {
      PlacedTiles(c);
    } else {
      NotPlacedFails(c, false);
      assert !StageTouches(c, SizesOf(c), 0, 0);
    }
  }

  lemma PlacedTiles(c: Split)
    requires Regular(c) && Placed(c)
    ensures Tiles(c, SizesOf(c))
  {
    OffsetIsPlace(c, 0, 0, true);
    forall rank: nat, vpRank: nat | rank < c.pp && vpRank < Vp(c) ensures StageTouches(c, SizesOf(c), rank, vpRank) {
      PlacedTouches(c, rank, vpRank);
    }
  }

  function NextPlace(c: Split, s: Sizes, rank: nat, vpRank: nat): int {
    if rank + 1 < c.pp then Place(c, s, rank + 1, vpRank)
    else if vpRank + 1 < Vp(c) then Place(c, s, 0, vpRank + 1)
    else c.layers
  }

  lemma EndOfRound(c: Split, vpRank: nat)
    requires Regular(c) && vpRank < Vp(c)
    ensures Place(c, SizesOf(c), c.pp, vpRank) == if vpRank + 1 < Vp(c) then Place(c, SizesOf(c), 0, vpRank + 1) else c.layers
  {
    var s := SizesOf(c);
    NextRound(c, s, vpRank);
    if vpRank + 1 == Vp(c) {
      PlaceIs(c, 0, vpRank + 1);
      Commute(vpRank + 1, Round(c, s));
    }
  }

  lemma Commute(a: int, b: int)
    ensures a * b == b * a
  {}

  lemma PlacesTouch(c: Split, s: Sizes, rank: nat, vpRank: nat)
    requires rank < c.pp
    requires Place(c, s, c.pp, vpRank) == if vpRank + 1 < Vp(c) then Place(c, s, 0, vpRank + 1) else c.layers
    ensures Place(c, s, rank, vpRank) + SizeAt(c, s, rank) == NextPlace(c, s, rank, vpRank)
  {
    StartStep(c, s, rank, vpRank);
  }

  lemma NextAtIsPlace(c: Split, rank: nat, vpRank: nat)
    requires Regular(c) && Placed(c) && rank < c.pp && vpRank < Vp(c)
    ensures NextAt(c, rank, vpRank) == Ok(NextPlace(c, SizesOf(c), rank, vpRank))
  {
    if rank + 1 < c.pp {
      OffsetIsPlace(c, rank + 1, vpRank, false);
    } else if vpRank + 1 < Vp(c) {
      OffsetIsPlace(c, 0, vpRank + 1, false);
    }
  }

  lemma PlacedTouches(c: Split, rank: nat, vpRank: nat)
    requires Regular(c) && Placed(c) && rank < c.pp && vpRank < Vp(c)
    ensures StageTouches(c, SizesOf(c), rank, vpRank)
  {
    OffsetIsPlace(c, rank, vpRank, rank == 0 && vpRank == 0);
    NextAtIsPlace(c, rank, vpRank);
    EndOfRound(c, vpRank);
    PlacesTouch(c, SizesOf(c), rank, vpRank);
  }

  lemma StartStep(c: Split, s: Sizes, rank: nat, vpRank: nat)
    ensures Place(c, s, rank, vpRank) + SizeAt(c, s, rank) == Place(c, s, rank + 1, vpRank)
  {}

  lemma NextRound(c: Split, s: Sizes, vpRank: nat)
    ensures Place(c, s, c.pp, vpRank) == Place(c, s, 0, vpRank + 1)
  {}

  // ---------------------------------------------------------------- embedding and loss in the split

  /** Even virtual stages of q units, embedding and loss counted as one unit each where the split counts them. */
  ghost predicate Evened(c: Split, q: nat) {
    && c.pp > 1 && !c.Uneven() && Vp(c) > 0 && q > 0
    && c.layers + (if c.embedding then 1 else 0) + (if c.loss then 1 else 0) == (c.pp * q) * Vp(c)
  }

  /** Transformer layers of a stage: the first gives one unit to the embedding, the last one to the loss. */
  function LayersAt(c: Split, q: nat, rank: nat, vpRank: nat): int {
    q - (if c.embedding && rank == 0 && vpRank == 0 then 1 else 0)
      - (if c.loss && rank + 1 == c.pp && vpRank + 1 == Vp(c) then 1 else 0)
  }

  lemma EvenedOffset(c: Split, q: nat, rank: nat, vpRank: nat, onFirstStage: bool)
    requires Evened(c, q) && rank < c.pp && vpRank < Vp(c)
    ensures Offset(c, rank, vpRank, onFirstStage)
         == Ok(vpRank * (c.pp * q) + rank * q - if c.embedding && !onFirstStage then 1 else 0)
  {
    EvenQuotients((c.pp * q) * Vp(c), c.pp, q, Vp(c));
  }

  lemma RoundUnits(pp: nat, q: nat, rank: nat, vpRank: nat)
    ensures (rank + 1) * q == rank * q + q
    ensures vpRank * (pp * q) + pp * q == (vpRank + 1) * (pp * q) == (pp * q) * (vpRank + 1)
  {}

  lemma StageEnds(c: Split, q: nat, rank: nat, vpRank: nat)
    requires Evened(c, q) && rank < c.pp && vpRank < Vp(c)
    ensures Touch(At(c, rank, vpRank), LayersAt(c, q, rank, vpRank), NextAt(c, rank, vpRank))
  {
    EvenedOffset(c, q, rank, vpRank, rank == 0 && vpRank == 0);
    RoundUnits(c.pp, q, rank, vpRank);
    if rank + 1 < c.pp {
      EvenedOffset(c, q, rank + 1, vpRank, false);
    } else if vpRank + 1 < Vp(c) {
      EvenedOffset(c, q, 0, vpRank + 1, false);
    }
  }

  /** Counted into the split, embedding and loss leave no gap: every stage asking for itself starts where the one before
      it ends, the first at 0, and the last ends at the number of layers. */
  lemma EndsTile(c: Split, q: nat)
    requires Evened(c, q)
    ensures At(c, 0, 0) == Ok(0)
    ensures forall rank: nat, vpRank: nat :: rank < c.pp && vpRank < Vp(c) ==>
              Touch(At(c, rank, vpRank), LayersAt(c, q, rank, vpRank), NextAt(c, rank, vpRank))
  {
    EvenedOffset(c, q, 0, 0, true);
    forall rank: nat, vpRank: nat | rank < c.pp && vpRank < Vp(c)
      ensures Touch(At(c, rank, vpRank), LayersAt(c, q, rank, vpRank), NextAt(c, rank, vpRank))
    {
      StageEnds(c, q, rank, vpRank);
    }
  }

  /** Asked on behalf of another stage, the formula is right if and only if the embedding is not counted or the asking
      process is on the first stage just when that stage is the first. */
  lemma AskedForAnother(c: Split, q: nat, rank: nat, vpRank: nat, onFirstStage: bool)
    requires Evened(c, q) && rank < c.pp && vpRank < Vp(c)
    ensures Offset(c, rank, vpRank, onFirstStage) == At(c, rank, vpRank) <==>
            !c.embedding || (onFirstStage <==> rank == 0 && vpRank == 0)
  {
    EvenedOffset(c, q, rank, vpRank, onFirstStage);
    EvenedOffset(c, q, rank, vpRank, rank == 0 && vpRank == 0);
  }
}
