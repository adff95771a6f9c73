/** The point of the second stream: compute never waits for a copy out before the window of its group closes. */
module OffloadOverlap {
  import opened OffloadModel
  import opened OffloadProof
  import opened OffloadStreams

  /** A copy out of group g that found tensors has not been followed by the drop of g. */
  ghost predicate Flying(trace: seq<Op>, i: nat, g: nat) { Done(trace, i, |trace|, CopyOut, Drop, g) }

  /** Operation j waits for the copy out i only if the group is dropped in between, or is the drop itself. */
  ghost predicate Unhurried(trace: seq<Op>, i: nat, j: nat)
    requires i < j < |trace|
  {
    trace[i].kind == CopyOut && trace[i].live && StreamOf(trace[j].kind) == Compute && HappensBefore(trace[i], trace[j]) ==>
      exists k: nat :: DropBetween(trace, i, j, k)
  }

  ghost predicate DropBetween(trace: seq<Op>, i: nat, j: nat, k: nat)
    requires i < j < |trace|
  {
    i < k <= j && trace[k].kind == Drop && trace[k].group == trace[i].group
  }

  ghost predicate Overlaps(trace: seq<Op>) { forall i: nat, j: nat :: i < j < |trace| ==> Unhurried(trace, i, j) }

  /** No copy in flight, except that of group `but`, is known to be complete outside its stream, and none is of another
      group than `only`. */
  ghost predicate Ahead(st: Streams, only: int, but: int) {
    && Overlaps(st.trace) && st.compute.d2h <= st.d2h.d2h && st.h2d.d2h <= st.d2h.d2h
    && forall i: nat, g: nat :: Flying(st.trace, i, g) ==>
         g == only && (g == but || (st.compute.d2h <= st.trace[i].idx && st.h2d.d2h <= st.trace[i].idx))
  }

  lemma FlyingEarlier(st: Streams, kind: OpKind, h: nat, live: bool, i: nat, g: nat)
    requires Flying(st.Issue(kind, h, live).trace, i, g)
    ensures !(kind == Drop && h == g)
    ensures i < |st.trace| ==> Flying(st.trace, i, g) && st.Issue(kind, h, live).trace[i] == st.trace[i]
    ensures i >= |st.trace| ==> i == |st.trace| && kind == CopyOut && live && g == h
  {
    var t, n := st.Issue(kind, h, live).trace, |st.trace|;
    assert t[n].kind == kind && t[n].group == h && t[n].live == live;
    assert forall x :: 0 <= x < n ==> t[x] == st.trace[x];
  }

  /** A copy out that no drop follows up to j is still flying there. */
  lemma FlyingOrDropped(trace: seq<Op>, i: nat)
    requires i < |trace| && trace[i].kind == CopyOut && trace[i].live
    ensures Flying(trace, i, trace[i].group) || exists k: nat :: i < k < |trace| && trace[k].kind == Drop && trace[k].group == trace[i].group
  {}

  lemma OverlapsMore(st: Streams, kind: OpKind, h: nat, live: bool, only: int, but: int)
    requires Ahead(st, only, but) && (but == -1 || (kind == Drop && h == but) || StreamOf(kind) != Compute)
    ensures Overlaps(st.Issue(kind, h, live).trace)
  {
    var t, n := st.Issue(kind, h, live).trace, |st.trace|;
    assert forall x :: 0 <= x < n ==> t[x] == st.trace[x];
    forall i: nat, j: nat | i < j < |t| ensures Unhurried(t, i, j) {
      if j < n {
        EarlierUnhurried(st.trace, t, i, j);
      } else {
        LastUnhurried(st, kind, h, live, only, but, i);
      }
    }
  }

  lemma EarlierUnhurried(trace: seq<Op>, t: seq<Op>, i: nat, j: nat)
    requires i < j < |trace| <= |t| && Unhurried(trace, i, j) && forall x :: 0 <= x < |trace| ==> t[x] == trace[x]
    ensures Unhurried(t, i, j)
  {
    if t[i].kind == CopyOut && t[i].live && StreamOf(t[j].kind) == Compute && HappensBefore(t[i], t[j]) {
      var k: nat :| DropBetween(trace, i, j, k);
      assert DropBetween(t, i, j, k);
    }
  }

  lemma LastUnhurried(st: Streams, kind: OpKind, h: nat, live: bool, only: int, but: int, i: nat)
    requires Ahead(st, only, but) && (but == -1 || (kind == Drop && h == but) || StreamOf(kind) != Compute) && i < |st.trace|
    ensures Unhurried(st.Issue(kind, h, live).trace, i, |st.trace|)
  {
    var t, n := st.Issue(kind, h, live).trace, |st.trace|;
    assert forall x :: 0 <= x < n ==> t[x] == st.trace[x];
    assert t[n].kind == kind && t[n].group == h && t[n].at == st.Of(StreamOf(kind));
    if t[i].kind == CopyOut && t[i].live && StreamOf(kind) == Compute && HappensBefore(t[i], t[n]) {
      FlyingOrDropped(st.trace, i);
      if Flying(st.trace, i, t[i].group) {
        assert DropBetween(t, i, n, n);
      } else {
        var k: nat :| i < k < n && st.trace[k].kind == Drop && st.trace[k].group == st.trace[i].group;
        assert DropBetween(t, i, n, k);
      }
    }
  }

  // ---------------------------------------------------------------- waits and operations

  /** Anything but a copy out and a drop leaves what is in flight alone. */
  lemma OtherAhead(st: Streams, kind: OpKind, h: nat, live: bool, only: int)
    requires Ahead(st, only, -1) && kind != Drop && (kind == CopyOut ==> !live)
    ensures Ahead(st.Issue(kind, h, live), only, -1)
  {
    OverlapsMore(st, kind, h, live, only, -1);
    var r := st.Issue(kind, h, live);
    forall i: nat, g: nat | Flying(r.trace, i, g) ensures g == only && r.compute.d2h <= r.trace[i].idx && r.h2d.d2h <= r.trace[i].idx {
      FlyingEarlier(st, kind, h, live, i, g);
    }
  }

  lemma CopyAhead(st: Streams, h: nat)
    requires Ahead(st, -1, -1)
    ensures Ahead(st.Issue(CopyOut, h, true), h, -1)
  {
    OverlapsMore(st, CopyOut, h, true, -1, -1);
    var r := st.Issue(CopyOut, h, true);
    forall i: nat, g: nat | Flying(r.trace, i, g) ensures g == h && r.compute.d2h <= r.trace[i].idx && r.h2d.d2h <= r.trace[i].idx {
      FlyingEarlier(st, CopyOut, h, true, i, g);
    }
  }

  /** The drop lands the copy of its group. */
  lemma DropAhead(st: Streams, h: nat, live: bool)
    requires Ahead(st, h, h)
    ensures Ahead(st.Issue(Drop, h, live), -1, -1)
  {
    OverlapsMore(st, Drop, h, live, h, h);
    var r := st.Issue(Drop, h, live);
    forall i: nat, g: nat | Flying(r.trace, i, g) ensures false {
      FlyingEarlier(st, Drop, h, live, i, g);
    }
  }

  lemma OutWaitsAhead(st: Streams, only: int)
    requires Ahead(st, only, -1)
    ensures Ahead(st.Wait(D2H, Compute), only, -1)
  {
    FlyingSame(st, st.Wait(D2H, Compute), only);
  }

  lemma FlyingSame(st: Streams, r: Streams, only: int)
    requires Ahead(st, only, -1) && r.trace == st.trace
    requires r.compute.d2h <= st.compute.d2h && r.h2d.d2h <= Max(st.h2d.d2h, st.compute.d2h) && r.d2h.d2h >= st.d2h.d2h
    ensures Ahead(r, only, -1)
  {
    forall i: nat, g: nat | Flying(r.trace, i, g) ensures g == only && r.compute.d2h <= r.trace[i].idx && r.h2d.d2h <= r.trace[i].idx {
      assert Flying(st.trace, i, g);
    }
  }

  lemma ComputeWaitsAhead(st: Streams, only: int)
    requires Ahead(st, only, -1)
    ensures Ahead(st.Wait(D2H, Compute).Wait(Compute, D2H), only, only)
  {
    var r := st.Wait(D2H, Compute).Wait(Compute, D2H);
    forall i: nat, g: nat | Flying(r.trace, i, g) ensures g == only {
      assert Flying(st.trace, i, g);
    }
  }

  lemma NoneFlying(st: Streams, i: nat, g: nat)
    requires Ahead(st, -1, -1)
    ensures !Flying(st.trace, i, g)
  {}

  /** Waits between compute and the reload stream; nothing is in flight in backward. */
  lemma BackwardWaits(st: Streams, r: Streams)
    requires Ahead(st, -1, -1) && r.trace == st.trace && r.compute.d2h <= r.d2h.d2h && r.h2d.d2h <= r.d2h.d2h
    ensures Ahead(r, -1, -1)
  {
    forall i: nat, g: nat ensures !Flying(r.trace, i, g) { NoneFlying(st, i, g); }
  }

  // ---------------------------------------------------------------- one step

  lemma NothingAhead(st: Streams, only: int)
    requires Ahead(st, -1, -1)
    ensures Ahead(st, only, -1)
  {
    forall i: nat, g: nat ensures !Flying(st.trace, i, g) { NoneFlying(st, i, g); }
  }

  lemma RotateAhead(s: Async, st: Streams, only: int)
    requires Ahead(st, only, -1) && (only == -1 || only == s.offloaded)
    requires s.n >= s.l && s.offloaded + 1 < s.n ==> !HasGroup(s.slots, s.offloaded + 1)
    ensures Ahead(RotateStreams(s, st), if s.n < s.l && s.offloaded + 1 < s.n then s.offloaded + 1 else -1, -1)
  {
    var c := s.offloaded;
    var w := st.Wait(D2H, Compute).Wait(Compute, D2H);
    if only == -1 { NothingAhead(st, c); }
    ComputeWaitsAhead(st, c);
    DropAhead(w, c, HasHeld(s.bufs, c));
    var r := w.Issue(Drop, c, HasHeld(s.bufs, c));
    if c + 1 < s.n {
      if HasGroup(s.slots, c + 1) {
        CopyAhead(r, c + 1);
      } else {
        OtherAhead(r, CopyOut, c + 1, false, -1);
        NothingAhead(r.Issue(CopyOut, c + 1, false), c + 1);
      }
    }
  }

  lemma ForwardAhead(s: Async, st: Streams, off: nat)
    requires Windowed(s) && Progress(s, Forward) && s.group < s.l && NoneAhead(s) && s.offloaded < s.n && s.offloaded < s.l
    requires Ahead(st, OutInFlight(s, Forward), -1)
    requires off == if s.window[s.offloaded] == s.group then s.offloaded + 1 else s.offloaded
    ensures Ahead(ForwardStreams(s, st), if s.n < s.l && off < s.n then off else -1, -1)
  {
    var st1, only := st, OutInFlight(s, Forward);
    if s.group == 0 {
      FirstAhead(s, st);
      st1, only := st.Wait(D2H, Compute).Issue(CopyOut, 0, HasGroup(s.slots, 0)), 0;
    }
    if s.n >= s.l { TightWindows(s.window, s.n, s.l, s.offloaded); }
    if s.window[s.offloaded] == s.group { RotateAhead(s, st1, only); }
  }

  lemma FirstAhead(s: Async, st: Streams)
    requires Ahead(st, -1, -1)
    ensures Ahead(st.Wait(D2H, Compute).Issue(CopyOut, 0, HasGroup(s.slots, 0)), 0, -1)
  {
    OutWaitsAhead(st, -1);
    var w := st.Wait(D2H, Compute);
    if HasGroup(s.slots, 0) {
      CopyAhead(w, 0);
    } else {
      OtherAhead(w, CopyOut, 0, false, -1);
      NothingAhead(w.Issue(CopyOut, 0, false), 0);
    }
  }

  lemma BackwardAhead(s: Async, st: Streams)
    requires s.group > 0 && Ahead(st, -1, -1)
    ensures Ahead(BackwardStreams(s, st), -1, -1)
  {
    var st1 := st;
    if s.offloaded > 0 && s.offloaded - 1 in s.window && s.window[s.offloaded - 1] == s.group - 1 {
      var c := s.offloaded - 1;
      var w := st.Wait(H2D, Compute).Wait(Compute, H2D);
      BackwardWaits(st, w);
      OtherAhead(w, CopyIn, c, c in s.host && |s.host[c]| > 0, -1);
      st1 := ReloadStreams(s, st, c);
    }
    if s.group == 1 { BackwardWaits(st1, st1.Wait(Compute, H2D)); }
  }

  lemma NoneAtTurn(s: Async, phase: Phase)
    requires Schedule(s) && Progress(s, phase) && s.group > 0 && (phase == Forward ==> s.group == s.l)
    ensures OutInFlight(s, phase) == -1
  {
    BackwardFollows(s.window, s.n, s.l, phase, s.group, s.offloaded);
  }

  lemma StepAhead(x: Session<Async>, st: Streams, p: Tape, e: Event)
    requires StepFits(x, p, e) && Windowed(x.h) && Ahead(st, OutInFlight(x.h, p.phase), -1)
    ensures Ahead(StreamStep(x, st, e), OutInFlight(AsyncStep(x, p, e).value.0.h, Advance(p, e).phase), -1)
  {
    match e
    case Save(t) => if t.Tracked() { OtherAhead(st, Produce, x.h.group, true, OutInFlight(x.h, Forward)); }
    case Fetch(id) => if x.tokens[id].Tagged? { OtherAhead(st, Read, x.tokens[id].tag.group, true, -1); }
    case EndForward =>
      ForwardFollows(x.h.window, x.h.n, x.h.l, x.h.group, x.h.offloaded);
      ForwardShape(x.h);
      ForwardAhead(x.h, st, CommitForward(x.h).value.offloaded);
    case BeginBackward(alloc) =>
      NoneAtTurn(x.h, p.phase);
      BackwardAhead(x.h, st);
    case NextRound =>
  }

  // ---------------------------------------------------------------- whole runs

  lemma {:induction false} RunAhead(x: Session<Async>, st: Streams, p: Tape, es: seq<Event>, own: map<Tag, SaveId>)
    requires Inv(x, p, own) && StreamInv(x.h, st, p.phase) && LegalRun(x.h.l, p, es)
    requires Ahead(st, OutInFlight(x.h, p.phase), -1)
    ensures Overlaps(StreamRun(x, st, p, es).trace)
    decreases |es|
  {
    if es == [] {
    } else {
      var own1 := StepKeeps(x, p, es[0], own);
      StepsFit(x, p, es[0], own);
      StreamStepKeeps(x, st, p, es[0]);
      StepAhead(x, st, p, es[0]);
      RunAhead(AsyncStep(x, p, es[0]).value.0, StreamStep(x, st, es[0]), Advance(p, es[0]), es[1..], own1);
    }
  }

  /** For every number of offload groups and layers, at every point of every legal run: what compute does between a
      group's copy out and the drop of its buffers never waits for that copy. */
  lemma CopiesOverlapCompute(n: nat, l: nat, es: seq<Event>)
    requires n > 0 && l > 0 && LegalRun(l, BLANK, es)
    ensures Overlaps(StreamRun(Session(AsyncInit(n, l), map[]), IDLE, BLANK, es).trace)
  {
    InitInv(n, l);
    InitStreams(n, l);
    RunAhead(Session(AsyncInit(n, l), map[]), IDLE, BLANK, es, map[]);
  }
}
