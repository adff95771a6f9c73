/** Where every saved tensor is at every point of a run, read off the window formula. */
module OffloadPlaces {
  import opened Arith
  import opened OffloadModel
  import opened OffloadOrder
  import opened OffloadProof
  import opened OffloadSafety
  import opened OffloadStreams
  import opened Results

  /** The windows split the layers evenly, the longer ones first. */
  lemma WindowGaps(n: nat, l: nat, c: nat)
    requires c < n
    ensures WindowAt(n, l, c) - (if c == 0 then -1 else WindowAt(n, l, c - 1)) == l / n + (if c < l % n then 1 else 0)
  {
    var q := l / n;
    assert q * (c + 1) == q * c + q;
  }

  /** The counter counts the windows that have closed. */
  lemma CounterIs(s: Async, phase: Phase, c: nat)
    requires Schedule(s) && Progress(s, phase) && c < Min(s.n, s.l) && (phase == Backward ==> Pending(s))
    ensures c < s.offloaded <==> s.window[c] < s.group
  {
    var off, m := s.offloaded, Min(s.n, s.l);
    if c < off {
      if c < off - 1 { assert s.window[c] < s.window[off - 1]; }
    } else {
      if off < c { assert s.window[off] < s.window[c]; }
    }
  }

  // ---------------------------------------------------------------- the double-buffered handler

  /** Whether a save of this group has left the device: in forward from the first commit on, if its group is the first or
      the window before its own has closed; in backward until the phase at which its own window closed begins. */
  predicate IsAway(n: nat, l: nat, phase: Phase, current: nat, group: nat)
    requires n > 0
  {
    && group < n
    && if phase == Forward then current > 0 && (group == 0 || WindowAt(n, l, group - 1) < current)
       else WindowAt(n, l, group) < current
  }

  lemma SlotIsAway(s: Async, phase: Phase, tag: Tag)
    requires Control(s, phase) && Strict(s) && Lean(s, phase) && tag in s.slots && s.window == WindowMap(s.n, s.l)
    ensures s.slots[tag].Evicted? <==> IsAway(s.n, s.l, phase, s.group, tag.group)
  {
    var g := tag.group;
    if phase == Forward {
      ForwardAway(s, tag);
    } else if Pending(s) {
      if g < s.n { CounterIs(s, Backward, g); }
    } else {
      if 0 < g < s.n { assert s.window[0] < s.window[g]; }
    }
  }

  lemma ForwardAway(s: Async, tag: Tag)
    requires Control(s, Forward) && Strict(s) && Lean(s, Forward) && tag in s.slots && s.window == WindowMap(s.n, s.l)
    ensures s.slots[tag].Evicted? <==> IsAway(s.n, s.l, Forward, s.group, tag.group)
  {
    var g := tag.group;
    if s.group > 0 && 0 < g < s.n { CounterIs(s, Forward, g - 1); }
  }

  lemma {:induction false} RunKeepsWindows(x: Session<Async>, p: Tape, es: seq<Event>)
    requires AsyncRun(x, p, es).Ok?
    ensures AsyncRun(x, p, es).value.0.h.window == x.h.window
    decreases |es|
  {
    if es == [] {
    } else {
      WindowStays(x, p, es[0]);
      RunKeepsWindows(AsyncStep(x, p, es[0]).value.0, Advance(p, es[0]), es[1..]);
    }
  }

  /** With fewer offload groups than layers: at every point of every legal run each tracked save that is still to be
      fetched is away exactly as the window formula says, and otherwise on the device; in forward it is then the very
      tensor that was saved. */
  lemma WhereSavesAre(n: nat, l: nat, es: seq<Event>, id: SaveId)
    requires 0 < n < l && LegalRun(l, BLANK, es) && id in Replay(BLANK, es).0.live
    requires var t := Replay(BLANK, es).0.live[id]; !t.stray && t.wanted
    ensures AsyncRun(Session(AsyncInit(n, l), map[]), BLANK, es).Ok?
    ensures var x, p := AsyncRun(Session(AsyncInit(n, l), map[]), BLANK, es).value.0, Replay(BLANK, es).0;
            && id in x.tokens && x.tokens[id].Tagged? && x.tokens[id].tag in x.h.slots
            && var slot := x.h.slots[x.tokens[id].tag];
               && (slot.Evicted? <==> IsAway(n, l, p.phase, p.group, id.group))
               && (slot.Device? ==> slot.tensor.Val() == p.live[id].Val() && (p.phase == Forward ==> slot.tensor == p.live[id]))
  {
    var x0 := Session(AsyncInit(n, l), map[]);
    InitOrder(n, l);
    var own := RunInOrder(x0, IDLE, BLANK, es, map[]);
    RunKeepsWindows(x0, BLANK, es);
    SaveIsPlaced(AsyncRun(x0, BLANK, es).value.0, Replay(BLANK, es).0, own, id);
  }

  lemma SaveIsPlaced(x: Session<Async>, p: Tape, own: map<Tag, SaveId>, id: SaveId)
    requires Inv(x, p, own) && Strict(x.h) && Lean(x.h, p.phase) && x.h.window == WindowMap(x.h.n, x.h.l)
    requires id in p.live && p.live[id].Tracked()
    ensures id in x.tokens && x.tokens[id].Tagged? && x.tokens[id].tag in x.h.slots
    ensures var slot := x.h.slots[x.tokens[id].tag];
            && (slot.Evicted? <==> IsAway(x.h.n, x.h.l, p.phase, p.group, id.group))
            && (slot.Device? ==> slot.tensor.Val() == p.live[id].Val() && (p.phase == Forward ==> slot.tensor == p.live[id]))
  {
    var tag := x.tokens[id].tag;
    assert own[tag] == id;
    SlotIsAway(x.h, p.phase, tag);
    assert Holds(x.h.slots[tag], x.h.host, tag.group, p.live[own[tag]], p.phase == Forward);
  }

  // ---------------------------------------------------------------- the synchronous handler

  /** The synchronous handler keeps a wanted tensor of an offloaded group as a host value, any other as it is. */
  ghost predicate SyncPlacedAt(x: Session<Sync>, p: Tape, id: SaveId)
    requires id in p.live
  {
    && id in x.tokens && x.tokens[id] == Tagged(Tag(id.group, id.idx)) && Tag(id.group, id.idx) in x.h.slots
    && x.h.slots[Tag(id.group, id.idx)] ==
       if id.group < x.h.n && p.live[id].wanted then OnHost(p.live[id].Val()) else SyncSlot.OnDevice(p.live[id])
  }

  ghost predicate SyncPlaced(x: Session<Sync>, p: Tape) { forall id :: id in p.live ==> SyncPlacedAt(x, p, id) }

  lemma SyncSavePlaces(x: Session<Sync>, p: Tape, t: Tensor)
    requires SyncInv(x, p) && SyncPlaced(x, p) && SyncStep(x, p, Save(t)).Ok?
    ensures SyncPlaced(SyncStep(x, p, Save(t)).value.0, Advance(p, Save(t)))
  {
    var y, q, new_ := SyncStep(x, p, Save(t)).value.0, Advance(p, Save(t)), SaveId(p.group, p.saves);
    assert Tag(new_.group, new_.idx) !in x.h.slots;
    forall id | id in q.live ensures SyncPlacedAt(y, q, id) {
      if id != new_ { assert SyncPlacedAt(x, p, id); }
    }
  }

  lemma SyncFetchPlaces(x: Session<Sync>, p: Tape, id: SaveId)
    requires SyncInv(x, p) && SyncPlaced(x, p) && id in p.live && SyncStep(x, p, Fetch(id)).Ok?
    ensures SyncPlaced(SyncStep(x, p, Fetch(id)).value.0, Advance(p, Fetch(id)))
  {}

  lemma SyncStepPlaces(l: nat, x: Session<Sync>, p: Tape, e: Event)
    requires SyncInv(x, p) && SyncPlaced(x, p) && Legal(l, p, e) && SyncStep(x, p, e).Ok?
    ensures SyncPlaced(SyncStep(x, p, e).value.0, Advance(p, e))
  {
    match e
    case Save(t) => SyncSavePlaces(x, p, t);
    case Fetch(id) => SyncFetchPlaces(x, p, id);
    case EndForward =>
    case BeginBackward(_) =>
    case NextRound =>
  }

  lemma {:induction false} SyncRunPlaces(l: nat, x: Session<Sync>, p: Tape, es: seq<Event>)
    requires SyncInv(x, p) && TapeOk(l, p) && SyncPlaced(x, p) && LegalRun(l, p, es)
    ensures SyncRun(x, p, es).Ok? && SyncPlaced(SyncRun(x, p, es).value.0, Replay(p, es).0)
    ensures SyncRun(x, p, es).value.0.h.n == x.h.n
    decreases |es|
  {
    if es == [] {
    } else {
      SyncStepKeeps(l, x, p, es[0]);
      SyncStepPlaces(l, x, p, es[0]);
      TapeKeeps(l, p, es[0]);
      SyncRunPlaces(l, SyncStep(x, p, es[0]).value.0, Advance(p, es[0]), es[1..]);
    }
  }

  /** At every point of every legal run. */
  lemma WhereSyncSavesAre(n: nat, l: nat, es: seq<Event>)
    requires LegalRun(l, BLANK, es)
    ensures SyncRun(Session(SyncInit(n), map[]), BLANK, es).Ok?
    ensures var x := SyncRun(Session(SyncInit(n), map[]), BLANK, es).value.0;
            x.h.n == n && SyncPlaced(x, Replay(BLANK, es).0)
  {
    SyncRunPlaces(l, Session(SyncInit(n), map[]), BLANK, es);
  }
}
