/** Merging the pipeline stages' state dictionaries: every layer gets its global number. */
module StateDicts {
  import opened LayerOffsets
  import opened Results

  /** A parameter name: `decoder.layers.<no>.<param>`, `output_layer…`, `…extra_state…`, or another one. */
  datatype Key = DecoderLayer(no: nat, param: string) | OutputLayer(param: string) | ExtraState(param: string) | Plain(param: string)

  /** One (virtual) stage's dictionary, in its order; the values are merged over the tensor-parallel ranks. */
  type Stage<V> = seq<(Key, V)>

  predicate Skipped(k: Key, tie: bool) { k.ExtraState? || (tie && k.OutputLayer?) }

  function Renumbered(k: Key, before: nat): Key {
    if k.DecoderLayer? then DecoderLayer(k.no + before, k.param) else k
  }

  /** `layers_handled`. */
  function Handled<V>(items: Stage<V>, tie: bool): nat {
    if items == [] then 0
    else
      var n := |items| - 1;
      var k, h := items[n].0, Handled(items[..n], tie);
      if k.DecoderLayer? && k.no > h then k.no else h
  }

  /** The entries a stage writes. */
  function Entries<V>(items: Stage<V>, before: nat, tie: bool): map<Key, V> {
    if items == [] then map[]
    else
      var n := |items| - 1;
      var m := Entries(items[..n], before, tie);
      if Skipped(items[n].0, tie) then m else m[Renumbered(items[n].0, before) := items[n].1]
  }

  /** `layers_cum` after the visited stages. */
  function Cum<V>(visited: seq<Stage<V>>, tie: bool): nat {
    if visited == [] then 0
    else Cum(visited[..|visited| - 1], tie) + Handled(visited[|visited| - 1], tie) + 1
  }

  function Merged<V>(visited: seq<Stage<V>>, tie: bool): map<Key, V> {
    if visited == [] then map[]
    else
      var n := |visited| - 1;
      Merged(visited[..n], tie) + Entries(visited[n], Cum(visited[..n], tie), tie)
  }

  /** Every rank has a stage in every virtual round. */
  predicate Rectangular<V>(model: seq<seq<Stage<V>>>, pp: nat, vpp: nat) {
    vpp == 0 || (|model| >= pp && forall rank :: 0 <= rank < pp ==> |model[rank]| >= vpp)
  }

  function StageAt<V>(model: seq<seq<Stage<V>>>, rank: nat, vpRank: nat): Stage<V> {
    if rank < |model| && vpRank < |model[rank]| then model[rank][vpRank] else []
  }

  /** The first ranks of one virtual round. */
  function RoundOf<V>(model: seq<seq<Stage<V>>>, vpRank: nat, ranks: nat): seq<Stage<V>> {
    if ranks == 0 then [] else RoundOf(model, vpRank, ranks - 1) + [StageAt(model, ranks - 1, vpRank)]
  }

  /** Virtual round after virtual round, rank after rank. */
  function Visit<V>(model: seq<seq<Stage<V>>>, pp: nat, rounds: nat): seq<Stage<V>> {
    if rounds == 0 then [] else Visit(model, pp, rounds - 1) + RoundOf(model, rounds - 1, pp)
  }

  /** The loop over one stage's keys. */
  method MergeStage<V>(items: Stage<V>, cum: nat, tie: bool, dict: map<Key, V>) returns (out: map<Key, V>, handled: nat)
    ensures handled == Handled(items, tie) && out == dict + Entries(items, cum, tie)
  {
    out, handled := dict, 0;
    var i := 0;
    while i < |items|
      invariant i <= |items| && handled == Handled(items[..i], tie) && out == dict + Entries(items[..i], cum, tie)
    {
      assert items[..i + 1][..i] == items[..i];
      var (key, value) := items[i];
      if !key.ExtraState? && !(tie && key.OutputLayer?) {
        var newKey := key;
        if key.DecoderLayer? {
          handled := if key.no > handled then key.no else handled;
          newKey := DecoderLayer(key.no + cum, key.param);
        }
        out := out[newKey := value];
      }
      i := i + 1;
    }
    assert items[..|items|] == items;
  }

  lemma VisitMore<V>(visited: seq<Stage<V>>, items: Stage<V>, tie: bool)
    ensures Cum(visited + [items], tie) == Cum(visited, tie) + Handled(items, tie) + 1
    ensures Merged(visited + [items], tie) == Merged(visited, tie) + Entries(items, Cum(visited, tie), tie)
  {
    assert (visited + [items])[..|visited|] == visited;
  }

  /** The loops' state after the visited stages. */
  ghost predicate Reached<V>(visited: seq<Stage<V>>, tie: bool, cum: nat, dict: map<Key, V>) {
    cum == Cum(visited, tie) && dict == Merged(visited, tie)
  }

  lemma ReachedMore<V>(visited: seq<Stage<V>>, tie: bool, cum: nat, dict: map<Key, V>, items: Stage<V>)
    requires Reached(visited, tie, cum, dict)
    ensures Reached(visited + [items], tie, cum + Handled(items, tie) + 1, dict + Entries(items, cum, tie))
  {
    VisitMore(visited, items, tie);
  }

  /** The loop over the ranks of one virtual round. */
  method MergeRound<V>(model: seq<seq<Stage<V>>>, pp: nat, vpRank: nat, tie: bool, cum: nat, dict: map<Key, V>, ghost before: seq<Stage<V>>)
    returns (r: Result<(nat, map<Key, V>)>)
    requires Reached(before, tie, cum, dict)
    ensures r.Ok? <==> Rectangular(model, pp, vpRank + 1)
    ensures r.Ok? || r == Raise(IndexError)
    ensures r.Ok? ==> Reached(before + RoundOf(model, vpRank, pp), tie, r.value.0, r.value.1)
  {
    var cum': nat, dict': map<Key, V> := cum, dict;
    var rank: nat := 0;
    ghost var visited := before;
    assert before + [] == before;
    while rank < pp
      invariant rank <= pp && Rectangular(model, rank, vpRank + 1) && visited == before + RoundOf(model, vpRank, rank)
      invariant Reached(visited, tie, cum', dict')
    {
      if rank >= |model| { return Raise(IndexError); }
      if vpRank >= |model[rank]| { return Raise(IndexError); }
      assert StageAt(model, rank, vpRank) == model[rank][vpRank];
      ReachedMore(visited, tie, cum', dict', model[rank][vpRank]);
      visited := visited + [model[rank][vpRank]];
      var handled: nat;
      dict', handled := MergeStage(model[rank][vpRank], cum', tie, dict');
      cum' := cum' + handled + 1;
      rank := rank + 1;
    }
    return Ok((cum', dict'));
  }

  /** `_merge_state_dicts`; `model[rank][vpRank]` is a stage. */
  method MergeStateDicts<V>(model: seq<seq<Stage<V>>>, pp: nat, tie: bool) returns (r: Result<map<Key, V>>)
    ensures r.Ok? <==> |model| > 0 && Rectangular(model, pp, |model[0]|)
    ensures r.Ok? ==> r.value == Merged(Visit(model, pp, |model[0]|), tie)
    ensures r.Raise? ==> r.error == IndexError
  {
    if |model| == 0 { return Raise(IndexError); }
    var vpp := |model[0]|;
    var dict: map<Key, V>, cum, vpRank: nat := map[], 0, 0;
    while vpRank < vpp
      invariant vpRank <= vpp && Rectangular(model, pp, vpRank) && Reached(Visit(model, pp, vpRank), tie, cum, dict)
    {
      var round := MergeRound(model, pp, vpRank, tie, cum, dict, Visit(model, pp, vpRank));
      if round.Raise? {
        NarrowRound(model, pp, vpRank + 1, vpp);
        return Raise(round.error);
      }
      cum, dict := round.value.0, round.value.1;
      vpRank := vpRank + 1;
    }
    return Ok(dict);
  }

  lemma NarrowRound<V>(model: seq<seq<Stage<V>>>, pp: nat, n: nat, vpp: nat)
    requires n <= vpp && !Rectangular(model, pp, n)
    ensures !Rectangular(model, pp, vpp)
  {}

  // ---------------------------------------------------------------- the numbers are the global ones

  /** A stage that holds exactly the layers 0..n-1 (each under some name) and no name twice. */
  ghost predicate Holds<V>(items: Stage<V>, n: nat, tie: bool) {
    && DistinctKeys(items)
    && (forall i :: 0 <= i < |items| && items[i].0.DecoderLayer? ==> items[i].0.no < n)
    && (exists i :: 0 <= i < |items| && items[i].0.DecoderLayer? && items[i].0.no == n - 1)
  }

  lemma {:induction false} HandledBounds<V>(items: Stage<V>, tie: bool, n: nat)
    requires n > 0 && forall i :: 0 <= i < |items| && items[i].0.DecoderLayer? ==> items[i].0.no < n
    ensures Handled(items, tie) < n
    ensures forall i :: 0 <= i < |items| && items[i].0.DecoderLayer? ==> items[i].0.no <= Handled(items, tie)
  {
    if items != [] {
      var before := items[..|items| - 1];
      assert forall i :: 0 <= i < |before| ==> before[i] == items[i];
      HandledBounds(before, tie, n);
      forall i | 0 <= i < |items| && items[i].0.DecoderLayer? ensures items[i].0.no <= Handled(items, tie) {
        if i < |before| { assert before[i] == items[i]; }
      }
    }
  }

  /** A stage counts as many layers as it holds. */
  lemma HandledIs<V>(items: Stage<V>, tie: bool, n: nat)
    requires Holds(items, n, tie)
    ensures Handled(items, tie) + 1 == n
  {
    HandledBounds(items, tie, n);
  }

  /** Every stage of the model holds its share of the split. */
  ghost predicate Shaped<V>(model: seq<seq<Stage<V>>>, c: Split, s: Sizes, tie: bool) {
    && |model| == c.pp > 0 && Rectangular(model, c.pp, Vp(c)) && |model[0]| == Vp(c)
    && forall rank: nat, vpRank: nat :: rank < c.pp && vpRank < Vp(c) ==> Holds(StageAt(model, rank, vpRank), SizeAt(c, s, rank), tie)
  }

  /** Every stage is counted as its share of the split. */
  ghost predicate Counted<V>(model: seq<seq<Stage<V>>>, c: Split, s: Sizes, tie: bool) {
    forall rank: nat, vpRank: nat :: rank < c.pp && vpRank < Vp(c) ==>
      Handled(StageAt(model, rank, vpRank), tie) + 1 == SizeAt(c, s, rank)
  }

  lemma ShapedIsCounted<V>(model: seq<seq<Stage<V>>>, c: Split, s: Sizes, tie: bool)
    requires Shaped(model, c, s, tie)
    ensures Counted(model, c, s, tie)
  {
    forall rank: nat, vpRank: nat | rank < c.pp && vpRank < Vp(c)
      ensures Handled(StageAt(model, rank, vpRank), tie) + 1 == SizeAt(c, s, rank)
    {
      HandledIs(StageAt(model, rank, vpRank), tie, SizeAt(c, s, rank));
    }
  }

  /** What is visited before stage (rank, vpRank). */
  function Before<V>(model: seq<seq<Stage<V>>>, pp: nat, rank: nat, vpRank: nat): seq<Stage<V>> {
    Visit(model, pp, vpRank) + RoundOf(model, vpRank, rank)
  }

  lemma BeforeNextRank<V>(model: seq<seq<Stage<V>>>, pp: nat, rank: nat, vpRank: nat)
    ensures Before(model, pp, rank + 1, vpRank) == Before(model, pp, rank, vpRank) + [StageAt(model, rank, vpRank)]
  {}

  lemma BeforeNextRound<V>(model: seq<seq<Stage<V>>>, pp: nat, vpRank: nat)
    ensures Before(model, pp, 0, vpRank + 1) == Before(model, pp, pp, vpRank) == Visit(model, pp, vpRank + 1)
  {
    assert Visit(model, pp, vpRank + 1) + [] == Visit(model, pp, vpRank + 1);
  }

  lemma CumNextStage<V>(before: seq<Stage<V>>, stage: Stage<V>, after: seq<Stage<V>>, tie: bool, n: nat)
    requires after == before + [stage] && Handled(stage, tie) + 1 == n
    ensures Cum(after, tie) == Cum(before, tie) + n
  {
    VisitMore(before, stage, tie);
  }

  /** The running count at a stage is where the layout puts the stage. */
  ghost predicate CountsTo<V>(model: seq<seq<Stage<V>>>, c: Split, s: Sizes, tie: bool, rank: nat, vpRank: nat) {
    Cum(Before(model, c.pp, rank, vpRank), tie) == Place(c, s, rank, vpRank)
  }

  lemma CountsToNextRank<V>(model: seq<seq<Stage<V>>>, c: Split, s: Sizes, tie: bool, rank: nat, vpRank: nat)
    requires CountsTo(model, c, s, tie, rank, vpRank) && Handled(StageAt(model, rank, vpRank), tie) + 1 == SizeAt(c, s, rank)
    ensures CountsTo(model, c, s, tie, rank + 1, vpRank)
  {
    var before, after := Before(model, c.pp, rank, vpRank), Before(model, c.pp, rank + 1, vpRank);
    BeforeNextRank(model, c.pp, rank, vpRank);
    CumNextStage(before, StageAt(model, rank, vpRank), after, tie, SizeAt(c, s, rank));
    StartStep(c, s, rank, vpRank);
  }

  lemma CountsToNextRound<V>(model: seq<seq<Stage<V>>>, c: Split, s: Sizes, tie: bool, vpRank: nat)
    requires CountsTo(model, c, s, tie, c.pp, vpRank)
    ensures CountsTo(model, c, s, tie, 0, vpRank + 1)
  {
    BeforeNextRound(model, c.pp, vpRank);
    NextRound(c, s, vpRank);
  }

  lemma {:induction false} CumIsPlace<V>(model: seq<seq<Stage<V>>>, c: Split, s: Sizes, tie: bool, rank: nat, vpRank: nat)
    requires Counted(model, c, s, tie) && rank <= c.pp && vpRank < Vp(c)
    ensures CountsTo(model, c, s, tie, rank, vpRank)
    decreases vpRank, rank
  {
    if rank > 0 {
      CumIsPlace(model, c, s, tie, rank - 1, vpRank);
      assert Handled(StageAt(model, rank - 1, vpRank), tie) + 1 == SizeAt(c, s, rank - 1);
      CountsToNextRank(model, c, s, tie, rank - 1, vpRank);
    } else if vpRank > 0 {
      CumIsPlace(model, c, s, tie, c.pp, vpRank - 1);
      CountsToNextRound(model, c, s, tie, vpRank - 1);
    }
  }

  // ---------------------------------------------------------------- what the merged dictionary holds

  ghost predicate DistinctKeys<V>(items: Stage<V>) { forall i, j :: 0 <= i < j < |items| ==> items[i].0 != items[j].0 }

  lemma {:induction false} EntriesAt<V>(items: Stage<V>, before: nat, tie: bool, i: nat)
    requires DistinctKeys(items) && i < |items| && !Skipped(items[i].0, tie)
    ensures var key := Renumbered(items[i].0, before);
            key in Entries(items, before, tie) && Entries(items, before, tie)[key] == items[i].1
  {
    var n := |items| - 1;
    if i < n {
      assert items[..n][i] == items[i];
      EntriesAt(items[..n], before, tie, i);
    }
  }

  lemma {:induction false} EntriesFrom<V>(items: Stage<V>, before: nat, tie: bool, key: Key) returns (i: nat)
    requires key in Entries(items, before, tie)
    ensures i < |items| && !Skipped(items[i].0, tie) && key == Renumbered(items[i].0, before)
  {
    var n := |items| - 1;
    if !Skipped(items[n].0, tie) && key == Renumbered(items[n].0, before) {
      i := n;
    } else {
      i := EntriesFrom(items[..n], before, tie, key);
    }
  }

  lemma {:induction false} CumGrows<V>(v: seq<Stage<V>>, w: seq<Stage<V>>, tie: bool)
    ensures Cum(v, tie) <= Cum(v + w, tie)
    decreases |w|
  {
    if w == [] {
      assert v + w == v;
    } else {
      var m := |w| - 1;
      CumGrows(v, w[..m], tie);
      VisitMore(v + w[..m], w[m], tie);
      assert v + w == (v + w[..m]) + [w[m]];
    }
  }

  /** Later stages do not touch the layers counted so far. */
  lemma {:induction false} LayersKept<V>(v: seq<Stage<V>>, w: seq<Stage<V>>, tie: bool, key: Key)
    requires key.DecoderLayer? && key.no < Cum(v, tie) && key in Merged(v, tie)
    ensures key in Merged(v + w, tie) && Merged(v + w, tie)[key] == Merged(v, tie)[key]
    decreases |w|
  {
    if w == [] {
      assert v + w == v;
    } else {
      var m := |w| - 1;
      var x := v + w[..m];
      LayersKept(v, w[..m], tie, key);
      CumGrows(v, w[..m], tie);
      VisitMore(x, w[m], tie);
      assert v + w == x + [w[m]];
      if key in Entries(w[m], Cum(x, tie), tie) {
        var i := EntriesFrom(w[m], Cum(x, tie), tie, key);
        assert false;
      }
    }
  }

  lemma {:induction false} RoundSplits<V>(model: seq<seq<Stage<V>>>, vpRank: nat, rank: nat, ranks: nat) returns (rest: seq<Stage<V>>)
    requires rank <= ranks
    ensures RoundOf(model, vpRank, ranks) == RoundOf(model, vpRank, rank) + rest
    decreases ranks
  {
    if rank == ranks {
      rest := [];
    } else {
      rest := RoundSplits(model, vpRank, rank, ranks - 1);
      rest := rest + [StageAt(model, ranks - 1, vpRank)];
    }
  }

  lemma {:induction false} VisitSplits<V>(model: seq<seq<Stage<V>>>, pp: nat, rank: nat, vpRank: nat, rounds: nat) returns (rest: seq<Stage<V>>)
    requires rank <= pp && vpRank < rounds
    ensures Visit(model, pp, rounds) == Before(model, pp, rank, vpRank) + rest
    decreases rounds
  {
    if vpRank + 1 == rounds {
      rest := RoundSplits(model, vpRank, rank, pp);
    } else {
      rest := VisitSplits(model, pp, rank, vpRank, rounds - 1);
      rest := rest + RoundOf(model, rounds - 1, pp);
    }
  }

  lemma HoldsFacts<V>(items: Stage<V>, n: nat, tie: bool, i: nat)
    requires Holds(items, n, tie) && i < |items| && items[i].0.DecoderLayer?
    ensures DistinctKeys(items) && items[i].0.no < n && Handled(items, tie) + 1 == n
  {
    HandledIs(items, tie, n);
  }

  lemma LandsIn<V>(visited: seq<Stage<V>>, before: seq<Stage<V>>, stage: Stage<V>, after: seq<Stage<V>>, rest: seq<Stage<V>>,
                   tie: bool, i: nat, n: nat, place: nat)
    requires Cum(before, tie) == place && after == before + [stage] && visited == after + rest
    requires i < |stage| && stage[i].0.DecoderLayer? && DistinctKeys(stage) && stage[i].0.no < n && Handled(stage, tie) + 1 == n
    ensures Lands(Merged(visited, tie), stage[i], Ok(place), Cum(visited, tie))
  {
    CumNextStage(before, stage, after, tie, n);
    LandsInRest(before, stage, rest, tie, i, n);
    CumGrows(after, rest, tie);
  }

  /** Every layer of every stage is in the merged dictionary, at the stage's place. */
  lemma LayerLands<V>(model: seq<seq<Stage<V>>>, c: Split, s: Sizes, tie: bool, rank: nat, vpRank: nat, i: nat)
    requires Counted(model, c, s, tie) && rank < c.pp && vpRank < Vp(c)
    requires Holds(StageAt(model, rank, vpRank), SizeAt(c, s, rank), tie)
    requires i < |StageAt(model, rank, vpRank)| && StageAt(model, rank, vpRank)[i].0.DecoderLayer?
    ensures var visited := Visit(model, c.pp, Vp(c));
            Lands(Merged(visited, tie), StageAt(model, rank, vpRank)[i], Ok(Place(c, s, rank, vpRank)), Cum(visited, tie))
  {
    var stage, n := StageAt(model, rank, vpRank), SizeAt(c, s, rank);
    HoldsFacts(stage, n, tie, i);
    CumIsPlace(model, c, s, tie, rank, vpRank);
    BeforeNextRank(model, c.pp, rank, vpRank);
    var rest := VisitSplits(model, c.pp, rank + 1, vpRank, Vp(c));
    LandsIn(Visit(model, c.pp, Vp(c)), Before(model, c.pp, rank, vpRank), stage, Before(model, c.pp, rank + 1, vpRank), rest,
            tie, i, n, Place(c, s, rank, vpRank));
  }

  lemma CountsAll<V>(model: seq<seq<Stage<V>>>, c: Split, s: Sizes, tie: bool)
    requires Counted(model, c, s, tie) && Vp(c) > 0
    ensures Cum(Visit(model, c.pp, Vp(c)), tie) == Place(c, s, c.pp, Vp(c) - 1)
  {
    CumIsPlace(model, c, s, tie, c.pp, Vp(c) - 1);
    BeforeNextRound(model, c.pp, Vp(c) - 1);
  }

  /** Every layer of every stage is in the merged dictionary under the number `get_transformer_layer_offset` gives it. */
  lemma LayerLandsAtOffset<V>(model: seq<seq<Stage<V>>>, c: Split, tie: bool, rank: nat, vpRank: nat, i: nat, on: bool)
    requires Regular(c) && Placed(c) && Shaped(model, c, SizesOf(c), tie) && rank < c.pp && vpRank < Vp(c)
    requires i < |StageAt(model, rank, vpRank)| && StageAt(model, rank, vpRank)[i].0.DecoderLayer?
    ensures Lands(Merged(Visit(model, c.pp, Vp(c)), tie), StageAt(model, rank, vpRank)[i], Offset(c, rank, vpRank, on), c.layers)
  {
    OffsetIsPlace(c, rank, vpRank, on);
    ShapedIsCounted(model, c, SizesOf(c), tie);
    assert Holds(StageAt(model, rank, vpRank), SizeAt(c, SizesOf(c), rank), tie);
    LayerLands(model, c, SizesOf(c), tie, rank, vpRank, i);
    CountsAll(model, c, SizesOf(c), tie);
    EndOfRound(c, Vp(c) - 1);
  }

  /** The entry is in the dictionary, renumbered by the offset, below the number of layers. */
  predicate Lands<V(==)>(dict: map<Key, V>, item: (Key, V), offset: Result<int>, layers: nat)
    requires item.0.DecoderLayer?
  {
    && offset.Ok? && 0 <= offset.value && offset.value + item.0.no < layers
    && DecoderLayer(offset.value + item.0.no, item.0.param) in dict
    && dict[DecoderLayer(offset.value + item.0.no, item.0.param)] == item.1
  }

  lemma LandsInRest<V>(before: seq<Stage<V>>, stage: Stage<V>, rest: seq<Stage<V>>, tie: bool, i: nat, n: nat)
    requires DistinctKeys(stage) && i < |stage| && stage[i].0.DecoderLayer? && stage[i].0.no < n
    requires Cum(before + [stage], tie) == Cum(before, tie) + n
    ensures var key := DecoderLayer(Cum(before, tie) + stage[i].0.no, stage[i].0.param);
            var dict := Merged((before + [stage]) + rest, tie);
            key in dict && dict[key] == stage[i].1
  {
    EntriesAt(stage, Cum(before, tie), tie, i);
    VisitMore(before, stage, tie);
    LayersKept(before + [stage], rest, tie, DecoderLayer(Cum(before, tie) + stage[i].0.no, stage[i].0.param));
  }

  /** Conversely, every layer of the merged dictionary comes from a stage, renumbered by what was counted before it. */
  lemma {:induction false} LayerComesFrom<V>(visited: seq<Stage<V>>, tie: bool, key: Key) returns (t: nat, i: nat)
    requires key in Merged(visited, tie)
    ensures t < |visited| && i < |visited[t]| && key == Renumbered(visited[t][i].0, Cum(visited[..t], tie))
    ensures !key.ExtraState? && !(tie && key.OutputLayer?)
  {
    var n := |visited| - 1;
    if key in Entries(visited[n], Cum(visited[..n], tie), tie) {
      t := n;
      i := EntriesFrom(visited[n], Cum(visited[..n], tie), tie, key);
    } else {
      t, i := LayerComesFrom(visited[..n], tie, key);
      assert visited[..n][..t] == visited[..t];
    }
  }

  // ---------------------------------------------------------------- exactly what the merged dictionary is

  /** Entry i of visited stage t is written under this key: neither an extra state nor, with tied embeddings, an
      output layer; layers are renumbered by what was counted before the stage. */
  ghost predicate Writes<V>(visited: seq<Stage<V>>, tie: bool, t: nat, i: nat, key: Key) {
    && t < |visited| && i < |visited[t]|
    && var k := visited[t][i].0;
       && !k.ExtraState? && !(tie && k.OutputLayer?)
       && key == if k.DecoderLayer? then DecoderLayer(k.no + Cum(visited[..t], tie), k.param) else k
  }

  /** No later entry is written under the key. */
  ghost predicate LastWrite<V>(visited: seq<Stage<V>>, tie: bool, t: nat, i: nat, key: Key) {
    && Writes(visited, tie, t, i, key)
    && forall u: nat, j: nat :: Writes(visited, tie, u, j, key) ==> u < t || (u == t && j <= i)
  }

  /** Where the key is last written within one stage. */
  lemma {:induction false} EntriesLast<V>(items: Stage<V>, before: nat, tie: bool, key: Key) returns (i: nat)
    requires key in Entries(items, before, tie)
    ensures i < |items| && !items[i].0.ExtraState? && !(tie && items[i].0.OutputLayer?) && Renumbered(items[i].0, before) == key
    ensures Entries(items, before, tie)[key] == items[i].1
    ensures forall j :: i < j < |items| && !items[j].0.ExtraState? && !(tie && items[j].0.OutputLayer?) ==>
                      Renumbered(items[j].0, before) != key
  {
    var n := |items| - 1;
    if !items[n].0.ExtraState? && !(tie && items[n].0.OutputLayer?) && Renumbered(items[n].0, before) == key {
      i := n;
    } else {
      i := EntriesLast(items[..n], before, tie, key);
      assert forall j :: 0 <= j < n ==> items[..n][j] == items[j];
    }
  }

  lemma {:induction false} EntryWritten<V>(items: Stage<V>, before: nat, tie: bool, i: nat)
    requires i < |items| && !items[i].0.ExtraState? && !(tie && items[i].0.OutputLayer?)
    ensures Renumbered(items[i].0, before) in Entries(items, before, tie)
  {
    var n := |items| - 1;
    if i < n {
      assert items[..n][i] == items[i];
      EntryWritten(items[..n], before, tie, i);
    }
  }

  lemma WritesBefore<V>(visited: seq<Stage<V>>, tie: bool, n: nat, t: nat, i: nat, key: Key)
    requires n <= |visited| && t < n
    ensures Writes(visited[..n], tie, t, i, key) <==> Writes(visited, tie, t, i, key)
  {
    assert visited[..n][..t] == visited[..t];
  }

  /** Every written key is in the merged dictionary. */
  lemma {:induction false} WrittenIsMerged<V>(visited: seq<Stage<V>>, tie: bool, t: nat, i: nat, key: Key)
    requires Writes(visited, tie, t, i, key)
    ensures key in Merged(visited, tie)
  {
    var n := |visited| - 1;
    if t < n {
      WritesBefore(visited, tie, n, t, i, key);
      WrittenIsMerged(visited[..n], tie, t, i, key);
    } else {
      EntryWritten(visited[n], Cum(visited[..n], tie), tie, i);
    }
  }

  /** Every merged key was written, and has the value written last. */
  lemma {:induction false} MergedIsWritten<V>(visited: seq<Stage<V>>, tie: bool, key: Key) returns (t: nat, i: nat)
    requires key in Merged(visited, tie)
    ensures LastWrite(visited, tie, t, i, key) && Merged(visited, tie)[key] == visited[t][i].1
  {
    var n := |visited| - 1;
    var before := Cum(visited[..n], tie);
    if key in Entries(visited[n], before, tie) {
      t := n;
      i := EntriesLast(visited[n], before, tie, key);
    } else {
      t, i := MergedIsWritten(visited[..n], tie, key);
      forall u: nat, j: nat | Writes(visited, tie, u, j, key) ensures u < t || (u == t && j <= i) {
        if u < n { WritesBefore(visited, tie, n, u, j, key); } else { EntryWritten(visited[n], before, tie, j); }
      }
      WritesBefore(visited, tie, n, t, i, key);
    }
  }

  /** The merged dictionary, exactly: its keys are the written ones, each with the value written last. */
  lemma MergedExactly<V>(visited: seq<Stage<V>>, tie: bool, key: Key)
    ensures key in Merged(visited, tie) <==> exists t: nat, i: nat :: Writes(visited, tie, t, i, key)
    ensures forall t: nat, i: nat :: LastWrite(visited, tie, t, i, key) ==>
              key in Merged(visited, tie) && Merged(visited, tie)[key] == visited[t][i].1
  {
    if key in Merged(visited, tie) {
      var t, i := MergedIsWritten(visited, tie, key);
      assert Writes(visited, tie, t, i, key);
    }
    forall t: nat, i: nat | Writes(visited, tie, t, i, key) ensures key in Merged(visited, tie) {
      WrittenIsMerged(visited, tie, t, i, key);
    }
  }

  /** A stage counts up to its highest layer number, or as one layer if it has none. */
  lemma {:induction false} HandledIsTop<V>(items: Stage<V>, tie: bool)
    ensures forall i :: 0 <= i < |items| && items[i].0.DecoderLayer? ==> items[i].0.no <= Handled(items, tie)
    ensures Handled(items, tie) == 0 || exists i :: 0 <= i < |items| && items[i].0.DecoderLayer? && items[i].0.no == Handled(items, tie)
  {
    if items == [] {
    } else {
      var n := |items| - 1;
      HandledIsTop(items[..n], tie);
      assert forall i :: 0 <= i < n ==> items[..n][i] == items[i];
    }
  }
}
