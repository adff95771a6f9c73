/** What the double-buffered handler enqueues on its three streams, and that no two operations on one
    group's memory race, for every number of offload groups and layers. */
module OffloadStreams {
  import opened Arith
  import opened OffloadModel
  import opened OffloadProof

  // ---------------------------------------------------------------- runs with streams

  ghost function StreamStep(x: Session<Async>, st: Streams, e: Event): Streams {
    match e
    case Save(t) => PushStreams(x.h, st, t)
    case EndForward => ForwardStreams(x.h, st)
    case BeginBackward(_) => if x.h.group > 0 then BackwardStreams(x.h, st) else st
    case Fetch(id) => if id in x.tokens then PopStreams(st, x.tokens[id]) else st
    case NextRound => st
  }

  ghost function StreamRun(x: Session<Async>, st: Streams, p: Tape, es: seq<Event>): Streams
    decreases |es|
  {
    if es == [] || AsyncStep(x, p, es[0]).Raise? then st
    else StreamRun(AsyncStep(x, p, es[0]).value.0, StreamStep(x, st, es[0]), Advance(p, es[0]), es[1..])
  }

  // ---------------------------------------------------------------- ordering

  /** Every operation is numbered within its stream. */
  ghost predicate Numbered(st: Streams) {
    forall i :: 0 <= i < |st.trace| ==>
      st.trace[i].idx < st.Of(StreamOf(st.trace[i].kind)).Of(StreamOf(st.trace[i].kind))
  }

  /** The compute stream has waited for every copy of this kind, except those of group `g`. */
  ghost predicate SawAllBut(st: Streams, kind: OpKind, g: int) {
    forall i :: 0 <= i < |st.trace| && st.trace[i].live && st.trace[i].kind == kind && st.trace[i].group != g ==>
      st.trace[i].idx < st.compute.Of(StreamOf(kind))
  }

  /** Stream `s` has waited for every operation of group `g` on the other streams. */
  ghost predicate SawGroup(st: Streams, s: Stream, g: nat) {
    forall i :: 0 <= i < |st.trace| && st.trace[i].live && st.trace[i].group == g && StreamOf(st.trace[i].kind) != s ==>
      st.trace[i].idx < st.Of(s).Of(StreamOf(st.trace[i].kind))
  }

  /** The group whose copy out may still be running: with as many offload groups as layers, only
      group 0 is ever copied, and its copies are waited for in the same commit. */
  function OutInFlight(s: Async, phase: Phase): int {
    if s.n < s.l && phase == Forward && s.group > 0 && s.offloaded < s.n then s.offloaded else -1
  }

  /** The group whose reload may still be running. */
  function InInFlight(s: Async, phase: Phase): int {
    if phase == Forward || s.group == 0 || s.n >= s.l then -1
    else if 0 in s.window && s.group > s.window[0] then s.offloaded
    else 0
  }

  ghost predicate StreamsOk(st: Streams, out: int, in_: int) {
    && Numbered(st) && RaceFree(st.trace)
    && SawAllBut(st, CopyOut, out) && SawAllBut(st, CopyIn, in_)
  }

  /** Issuing an operation whose stream has waited for its group keeps the trace race free. */
  lemma IssueSafe(st: Streams, kind: OpKind, g: nat, live: bool)
    requires Numbered(st) && RaceFree(st.trace) && (live ==> SawGroup(st, StreamOf(kind), g))
    ensures Numbered(st.Issue(kind, g, live)) && RaceFree(st.Issue(kind, g, live).trace)
  {
    var r := st.Issue(kind, g, live);
    forall i, j | 0 <= i < j < |r.trace| && Conflict(r.trace[i], r.trace[j]) ensures HappensBefore(r.trace[i], r.trace[j]) {
      assert r.trace[i] == st.trace[i];
      if j < |st.trace| { assert r.trace[j] == st.trace[j]; }
    }
  }

  /** Issuing on the compute stream leaves what it has waited for unchanged. */
  lemma IssueCompute(st: Streams, kind: OpKind, g: nat, live: bool, out: int, in_: int)
    requires StreamsOk(st, out, in_) && StreamOf(kind) == Compute && g != out && g != in_
    ensures StreamsOk(st.Issue(kind, g, live), out, in_)
  {
    assert SawGroup(st, Compute, g);
    IssueSafe(st, kind, g, live);
  }

  /** A side stream that has waited for the compute stream has seen everything but its own
      operations; what it issues becomes the group in flight. */
  lemma IssueCopy(st: Streams, kind: OpKind, g: nat, live: bool, out: int, in_: int)
    requires kind == CopyOut || kind == CopyIn
    requires StreamsOk(st, out, in_)
    requires SawGroup(st, StreamOf(kind), g)
    requires if kind == CopyOut then out == -1 || out == g else in_ == -1 || in_ == g
    ensures StreamsOk(st.Issue(kind, g, live), if kind == CopyOut then g else out, if kind == CopyIn then g else in_)
  {
    IssueSafe(st, kind, g, live);
  }

  /** A bulk call that finds no tensor puts nothing in flight. */
  lemma IssueIdle(st: Streams, kind: OpKind, g: nat, out: int, in_: int)
    requires StreamsOk(st, out, in_)
    ensures StreamsOk(st.Issue(kind, g, false), out, in_)
  {
    IssueSafe(st, kind, g, false);
  }

  lemma WaitKeeps(st: Streams, a: Stream, b: Stream, out: int, in_: int)
    requires StreamsOk(st, out, in_)
    ensures StreamsOk(st.Wait(a, b), out, in_)
  {}

  /** `d2h.wait(compute)`: the copy-out stream has seen all work, if no reload is running. */
  lemma OutWaits(st: Streams, out: int)
    requires StreamsOk(st, out, -1)
    ensures StreamsOk(st.Wait(D2H, Compute), out, -1)
    ensures forall g: nat :: SawGroup(st.Wait(D2H, Compute), D2H, g)
  {
    WaitKeeps(st, D2H, Compute, out, -1);
  }

  lemma OutWaitsBoth(st: Streams, out: int)
    requires StreamsOk(st, out, -1)
    ensures var r := st.Wait(D2H, Compute).Wait(Compute, D2H);
            StreamsOk(r, -1, -1) && forall g: nat :: SawGroup(r, D2H, g)
  {
    var r := st.Wait(D2H, Compute);
    OutWaits(st, out);
    var r2 := r.Wait(Compute, D2H);
    WaitKeeps(r, Compute, D2H, out, -1);
    assert SawAllBut(r2, CopyOut, -1);
    forall g: nat ensures SawGroup(r2, D2H, g) { assert SawGroup(r, D2H, g); }
  }

  lemma InWaitsBoth(st: Streams, in_: int)
    requires StreamsOk(st, -1, in_)
    ensures var r := st.Wait(H2D, Compute).Wait(Compute, H2D);
            StreamsOk(r, -1, -1) && forall g: nat :: SawGroup(r, H2D, g)
  {
    var r := st.Wait(H2D, Compute);
    WaitKeeps(st, H2D, Compute, -1, in_);
    assert forall g: nat :: SawGroup(r, H2D, g);
    var r2 := r.Wait(Compute, H2D);
    WaitKeeps(r, Compute, H2D, -1, in_);
    assert SawAllBut(r2, CopyIn, -1);
    forall g: nat ensures SawGroup(r2, H2D, g) { assert SawGroup(r, H2D, g); }
  }

  /** Waiting for the reloads ends whatever was in flight. */
  lemma ReloadsDone(st: Streams, out: int, in_: int)
    requires StreamsOk(st, out, in_)
    ensures StreamsOk(st.Wait(Compute, H2D), out, -1)
  {
    WaitKeeps(st, Compute, H2D, out, in_);
    assert SawAllBut(st.Wait(Compute, H2D), CopyIn, -1);
  }

  lemma RotateOk(s: Async, st: Streams, out: int)
    requires StreamsOk(st, out, -1)
    requires s.n >= s.l && s.offloaded + 1 < s.n ==> !HasGroup(s.slots, s.offloaded + 1)
    ensures StreamsOk(RotateStreams(s, st), if s.n < s.l && s.offloaded + 1 < s.n then s.offloaded + 1 else -1, -1)
  {
    var c, held := s.offloaded, HasHeld(s.bufs, s.offloaded);
    DropOk(st, out, c, held);
    var r := st.Wait(D2H, Compute).Wait(Compute, D2H).Issue(Drop, c, held);
    if c + 1 < s.n {
      if s.n < s.l {
        IssueCopy(r, CopyOut, c + 1, HasGroup(s.slots, c + 1), -1, -1);
      } else {
        IssueIdle(r, CopyOut, c + 1, -1, -1);
      }
    }
  }

  lemma DropOk(st: Streams, out: int, c: nat, held: bool)
    requires StreamsOk(st, out, -1)
    ensures var r := st.Wait(D2H, Compute).Wait(Compute, D2H).Issue(Drop, c, held);
            StreamsOk(r, -1, -1) && SawGroup(r, D2H, c + 1)
  {
    var w := st.Wait(D2H, Compute).Wait(Compute, D2H);
    OutWaitsBoth(st, out);
    IssueCompute(w, Drop, c, held, -1, -1);
    assert SawGroup(w, D2H, c + 1);
  }

  // ---------------------------------------------------------------- one step

  /** Every group's window closes at or, with fewer offload groups than layers, after its own commit. */
  ghost predicate Windowed(s: Async) {
    Schedule(s) && (s.n < s.l ==> forall c: nat :: c < s.n ==> c + 1 <= s.window[c])
  }

  /** With as many offload groups as layers every window closes at its own group's commit. */
  lemma TightWindows(w: map<nat, int>, n: nat, l: nat, c: nat)
    requires Sched(w, n, l) && n >= l && c < l
    ensures w[c] == c
    decreases l - c
  {
    if c + 1 < l {
      TightWindows(w, n, l, c + 1);
    }
  }

  /** Then no group but group 0 has a host copy to reload. */
  ghost predicate OnlyFirstCopied(s: Async) {
    s.n >= s.l ==> forall g: nat :: g in s.host && g > 0 ==> |s.host[g]| == 0
  }

  /** During forward no group after the current one has tensors. */
  ghost predicate NoneAhead(s: Async) { forall tag :: tag in s.slots ==> tag.group <= s.group }

  lemma ForwardStreamsOk(s: Async, st: Streams, off: nat)
    requires Windowed(s) && Progress(s, Forward) && s.group < s.l && NoneAhead(s) && s.offloaded < Min(s.n, s.l)
    requires StreamsOk(st, OutInFlight(s, Forward), -1)
    requires off == if s.window[s.offloaded] == s.group then s.offloaded + 1 else s.offloaded
    ensures StreamsOk(ForwardStreams(s, st), if s.n < s.l && off < s.n then off else -1, -1)
  {
    var st1, out := st, OutInFlight(s, Forward);
    if s.group == 0 {
      OutWaits(st, -1);
      st1, out := st.Wait(D2H, Compute).Issue(CopyOut, 0, HasGroup(s.slots, 0)), 0;
      IssueCopy(st.Wait(D2H, Compute), CopyOut, 0, HasGroup(s.slots, 0), -1, -1);
    }
    if s.n >= s.l { TightWindows(s.window, s.n, s.l, s.offloaded); }
    if s.window[s.offloaded] == s.group { RotateOk(s, st1, out); }
  }

  lemma BackwardStreamsOk(s: Async, st: Streams, phase: Phase, off: nat, pending: bool)
    requires Windowed(s) && s.n < s.l && s.group > 0 && s.offloaded > 0 && s.offloaded <= s.n
    requires StreamsOk(st, -1, InInFlight(s, phase))
    requires s.window[s.offloaded - 1] != s.group - 1 ==>
               phase == Backward && off == s.offloaded && (pending <==> s.group > s.window[0])
    requires s.window[s.offloaded - 1] == s.group - 1 ==>
               if pending then off == s.offloaded - 1 else s.offloaded == 1
    ensures StreamsOk(BackwardStreams(s, st), -1, if s.group == 1 then -1 else if pending then off else 0)
  {
    var in_ := InInFlight(s, phase);
    var st1 := st;
    if s.window[s.offloaded - 1] == s.group - 1 {
      var g := s.offloaded - 1;
      InWaitsBoth(st, in_);
      IssueCopy(st.Wait(H2D, Compute).Wait(Compute, H2D), CopyIn, g, g in s.host && |s.host[g]| > 0, -1, -1);
      st1 := ReloadStreams(s, st, g);
      in_ := g;
    }
    assert StreamsOk(st1, -1, in_);
    if s.group == 1 { ReloadsDone(st1, -1, in_); }
  }

  /** With as many offload groups as layers only the last reload copies anything. */
  lemma BackwardStreamsTight(s: Async, st: Streams)
    requires s.n >= s.l && OnlyFirstCopied(s) && s.group > 0 && s.offloaded == s.group && s.offloaded - 1 in s.window
    requires s.window[s.offloaded - 1] == s.group - 1 && StreamsOk(st, -1, -1)
    ensures StreamsOk(BackwardStreams(s, st), -1, -1)
  {
    var g := s.offloaded - 1;
    InWaitsBoth(st, -1);
    var w := st.Wait(H2D, Compute).Wait(Compute, H2D);
    if g == 0 {
      IssueCopy(w, CopyIn, 0, 0 in s.host && |s.host[0]| > 0, -1, -1);
      ReloadsDone(ReloadStreams(s, st, 0), -1, 0);
    } else {
      IssueIdle(w, CopyIn, g, -1, -1);
    }
  }

  ghost predicate StreamInv(s: Async, st: Streams, phase: Phase) {
    Windowed(s) && OnlyFirstCopied(s) && StreamsOk(st, OutInFlight(s, phase), InInFlight(s, phase))
  }

  lemma NothingOfThisGroupInFlight(s: Async, phase: Phase)
    requires Windowed(s) && Progress(s, phase)
    ensures OutInFlight(s, phase) != s.group && InInFlight(s, phase) != s.group
    ensures phase == Backward ==> OutInFlight(s, phase) == -1
  {
    if s.offloaded > 0 && s.offloaded - 1 < s.n && s.n < s.l {
      assert s.offloaded <= s.window[s.offloaded - 1];
    }
  }

  lemma FirstCopyKeeps(s: Async)
    requires BulkOffload(s, 0).Ok? && OnlyFirstCopied(s)
    ensures OnlyFirstCopied(BulkOffload(s, 0).value)
  {}

  lemma ClosingKeeps(s: Async)
    requires CloseWindow(s).Ok? && OnlyFirstCopied(s) && s.window[s.offloaded] == s.group
    requires forall tag :: tag in s.slots ==> tag.group != s.offloaded + 1
    ensures OnlyFirstCopied(CloseWindow(s).value)
  {
    if s.offloaded + 1 < s.n {
      NoKeysAhead(s, s.offloaded + 1);
      CloseWindowHit(s, s.(bufs := FreeGroup(s.bufs, s.offloaded)));
    } else {
      CloseWindowMiss(s);
    }
  }

  lemma TightForward(s: Async)
    requires Schedule(s) && s.n >= s.l && Progress(s, Forward) && s.group < s.l
    ensures s.offloaded == s.group && s.window[s.offloaded] == s.group
  {
    ForwardFollows(s.window, s.n, s.l, s.group, s.offloaded);
    TightWindows(s.window, s.n, s.l, s.offloaded);
    if s.offloaded > 0 { TightWindows(s.window, s.n, s.l, s.offloaded - 1); }
  }

  lemma ForwardCopies(s: Async)
    requires Windowed(s) && OnlyFirstCopied(s) && Progress(s, Forward) && s.group < s.l && NoneAhead(s) && CommitForward(s).Ok?
    ensures OnlyFirstCopied(CommitForward(s).value)
  {
    var s1 := s;
    if s.group == 0 {
      FirstCopyKeeps(s);
      s1 := BulkOffload(s, 0).value;
    }
    ForwardSplit(s, s1);
    CloseWindowFrame(s1);
    if s.n >= s.l {
      TightForward(s);
      ClosingKeeps(s1);
    }
  }

  lemma NoKeysAhead(s: Async, g: nat)
    requires forall tag :: tag in s.slots ==> tag.group != g
    ensures KeysOf(s.slots, g) == {}
  {}

  lemma ForwardStreamInv(s: Async, st: Streams)
    requires StreamInv(s, st, Forward) && Progress(s, Forward) && s.group < s.l && NoneAhead(s) && CommitForward(s).Ok?
    ensures StreamInv(CommitForward(s).value, ForwardStreams(s, st), Forward)
  {
    ForwardFollows(s.window, s.n, s.l, s.group, s.offloaded);
    ForwardShape(s);
    ForwardCopies(s);
    ForwardStreamsOk(s, st, CommitForward(s).value.offloaded);
  }

  /** With as many offload groups as layers the counter follows the current group. */
  lemma TightFollows(s: Async, phase: Phase)
    requires Schedule(s) && s.n >= s.l && Progress(s, phase) && s.group > 0 && (phase == Forward ==> s.group == s.l)
    ensures s.offloaded == s.group && s.window[s.offloaded - 1] == s.group - 1
  {
    BackwardFollows(s.window, s.n, s.l, phase, s.group, s.offloaded);
    TightWindows(s.window, s.n, s.l, 0);
    TightWindows(s.window, s.n, s.l, s.offloaded - 1);
    if s.offloaded < s.l { TightWindows(s.window, s.n, s.l, s.offloaded); }
  }

  lemma BackwardHost(s: Async, alloc: Key -> Key)
    requires CommitBackward(s, alloc).Ok? && OnlyFirstCopied(s)
    ensures OnlyFirstCopied(CommitBackward(s, alloc).value)
  {
    if s.window[s.offloaded - 1] == s.group - 1 { BackwardHit(s, alloc); } else { BackwardMiss(s, alloc); }
  }

  lemma BackwardStreamInv(s: Async, st: Streams, phase: Phase, alloc: Key -> Key)
    requires StreamInv(s, st, phase) && Progress(s, phase) && s.group > 0 && (phase == Forward ==> s.group == s.l)
    requires CommitBackward(s, alloc).Ok?
    ensures StreamInv(CommitBackward(s, alloc).value, BackwardStreams(s, st), Backward)
  {
    BackwardFollows(s.window, s.n, s.l, phase, s.group, s.offloaded);
    BackwardShape(s, alloc);
    BackwardHost(s, alloc);
    if s.n < s.l {
      var off := if s.group == 1 then s.offloaded else CommitBackward(s, alloc).value.offloaded;
      BackwardStreamsOk(s, st, phase, off, s.group - 1 > s.window[0]);
    } else {
      TightFollows(s, phase);
      BackwardStreamsTight(s, st);
    }
  }

  lemma SaveStreamInv(s: Async, st: Streams, t: Tensor)
    requires Push(s, t).Ok? && StreamInv(s, st, Forward) && Progress(s, Forward)
    ensures StreamInv(Push(s, t).value.0, PushStreams(s, st, t), Forward)
  {
    NothingOfThisGroupInFlight(s, Forward);
    if t.Tracked() { IssueCompute(st, Produce, s.group, true, OutInFlight(s, Forward), -1); }
  }

  lemma FetchStreamInv(s: Async, st: Streams, token: Token)
    requires Pop(s, token).Ok? && StreamInv(s, st, Backward) && Progress(s, Backward)
    requires token.Tagged? ==> token.tag.group == s.group
    ensures StreamInv(Pop(s, token).value.0, PopStreams(st, token), Backward)
  {
    NothingOfThisGroupInFlight(s, Backward);
    if token.Tagged? { IssueCompute(st, Read, s.group, true, -1, InInFlight(s, Backward)); }
  }

  /** What the stream invariant needs to know of a step. */
  ghost predicate StepFits(x: Session<Async>, p: Tape, e: Event)
  {
    && Schedule(x.h) && Progress(x.h, p.phase) && x.h.group == p.group && AsyncStep(x, p, e).Ok?
    && match e
       case Save(_) => p.phase == Forward && x.h.group < x.h.l
       case Fetch(id) => p.phase == Backward && id in x.tokens && (x.tokens[id].Tagged? ==> x.tokens[id].tag.group == x.h.group)
       case EndForward => p.phase == Forward && x.h.group < x.h.l && NoneAhead(x.h)
       case BeginBackward(_) => x.h.group > 0 && (p.phase == Forward ==> x.h.group == x.h.l)
       case NextRound => p.phase == Backward && x.h.group == 0
  }

  lemma StepsFit(x: Session<Async>, p: Tape, e: Event, own: map<Tag, SaveId>)
    requires Inv(x, p, own) && Legal(x.h.l, p, e) && AsyncStep(x, p, e).Ok?
    ensures StepFits(x, p, e)
  {}

  lemma StreamStepKeeps(x: Session<Async>, st: Streams, p: Tape, e: Event)
    requires StepFits(x, p, e) && StreamInv(x.h, st, p.phase)
    ensures StreamInv(AsyncStep(x, p, e).value.0.h, StreamStep(x, st, e), Advance(p, e).phase)
  {
    match e
    case Save(t) => SaveStreamInv(x.h, st, t);
    case Fetch(id) => FetchStreamInv(x.h, st, x.tokens[id]);
    case EndForward => ForwardStreamInv(x.h, st);
    case BeginBackward(alloc) => BackwardStreamInv(x.h, st, p.phase, alloc);
    case NextRound =>
  }

  lemma ForwardShape(s: Async)
    requires CommitForward(s).Ok?
    ensures s.offloaded in s.window
    ensures var r := CommitForward(s).value;
            && r.n == s.n && r.l == s.l && r.window == s.window && r.group == s.group + 1
            && r.offloaded == (if s.window[s.offloaded] == s.group then s.offloaded + 1 else s.offloaded)
  {
    var s1 := if s.group == 0 then BulkOffload(s, 0).value else s;
    ForwardSplit(s, s1);
    CloseWindowFrame(s1);
  }

  lemma BackwardShape(s: Async, alloc: Key -> Key)
    requires CommitBackward(s, alloc).Ok?
    ensures s.group > 0 && s.offloaded > 0 && s.offloaded - 1 in s.window
    ensures var r := CommitBackward(s, alloc).value;
            && r.n == s.n && r.l == s.l && r.window == s.window && r.group == s.group - 1
            && r.offloaded == (if s.group == 1 then 0
                               else if s.window[s.offloaded - 1] == s.group - 1 && s.offloaded > 1 then s.offloaded - 1
                               else s.offloaded)
  {
    if s.window[s.offloaded - 1] == s.group - 1 {
      BackwardHit(s, alloc);
      ReloadControl(s.(group := s.group - 1), s.offloaded - 1, alloc);
    } else {
      BackwardMiss(s, alloc);
    }
  }

  // ---------------------------------------------------------------- whole runs

  lemma InitStreams(n: nat, l: nat)
    requires n > 0 && l > 0
    ensures StreamInv(AsyncInit(n, l), IDLE, Forward)
  {
    InitSchedule(n, l);
    AllBounds(n, l, AsyncInit(n, l).window);
  }

  lemma {:induction false} StreamsOfRun(x: Session<Async>, st: Streams, p: Tape, es: seq<Event>, own: map<Tag, SaveId>)
    returns (own': map<Tag, SaveId>)
    requires Inv(x, p, own) && StreamInv(x.h, st, p.phase) && LegalRun(x.h.l, p, es)
    ensures AsyncRun(x, p, es).Ok? && Inv(AsyncRun(x, p, es).value.0, Replay(p, es).0, own')
    ensures StreamInv(AsyncRun(x, p, es).value.0.h, StreamRun(x, st, p, es), Replay(p, es).0.phase)
    decreases |es|
  {
    own' := own;
    if es != [] {
      var own1 := StepKeeps(x, p, es[0], own);
      StepsFit(x, p, es[0], own);
      StreamStepKeeps(x, st, p, es[0]);
      own' := StreamsOfRun(AsyncStep(x, p, es[0]).value.0, StreamStep(x, st, es[0]), Advance(p, es[0]), es[1..], own1);
    }
  }

  /** For every number of offload groups and layers, at every point of every legal run, the operations
      enqueued so far are free of races: any two operations on one group's memory on different streams
      are ordered by waits. */
  lemma RunsAreRaceFree(n: nat, l: nat, es: seq<Event>)
    requires n > 0 && l > 0 && LegalRun(l, BLANK, es)
    ensures RaceFree(StreamRun(Session(AsyncInit(n, l), map[]), IDLE, BLANK, es).trace)
  {
    InitInv(n, l);
    InitStreams(n, l);
    var _ := StreamsOfRun(Session(AsyncInit(n, l), map[]), IDLE, BLANK, es, map[]);
  }
}
