/** With fewer offload groups than layers: one bulk copy out and one bulk reload per group and round, and the
    bound on what stays on the device. */
module OffloadSafety {
  import opened Arith
  import opened OffloadModel
  import opened OffloadProof
  import opened OffloadStreams

  /** Each offload group is freed strictly after its own commit. */
  ghost predicate Strict(s: Async) {
    Schedule(s) && s.n < s.l && forall c: nat :: c < s.n ==> c + 1 <= s.window[c]
  }

  // ---------------------------------------------------------------- how often, and in what order

  /** `log` repeats 0, 1, .., n - 1 (or the reverse) and stands `done` entries into a cycle. */
  ghost predicate Cycling(log: seq<nat>, n: nat, rounds: nat, done: nat, reverse: bool)
    requires n > 0
  {
    && |log| == rounds * n + done
    && forall i :: 0 <= i < |log| ==> log[i] == if reverse then n - 1 - i % n else i % n
  }

  lemma CycleOn(log: seq<nat>, n: nat, rounds: nat, done: nat, reverse: bool)
    requires done < n && Cycling(log, n, rounds, done, reverse)
    ensures Cycling(log + [if reverse then n - 1 - done else done], n, rounds, done + 1, reverse)
  {
    DivMod(rounds * n + done, n, rounds, done);
  }

  lemma CycleDone(log: seq<nat>, n: nat, rounds: nat, reverse: bool)
    requires n > 0 && Cycling(log, n, rounds, n, reverse)
    ensures Cycling(log, n, rounds + 1, 0, reverse)
  {
    assert (rounds + 1) * n == rounds * n + n;
  }

  lemma IssueLog(st: Streams, kind: OpKind, g: nat, live: bool, k: OpKind)
    ensures GroupsOf(st.Issue(kind, g, live).trace, k) == GroupsOf(st.trace, k) + if kind == k then [g] else []
  {
    var r := st.Issue(kind, g, live).trace;
    assert r[..|r| - 1] == st.trace;
  }

  function OutsDone(s: Async, phase: Phase): nat {
    if phase == Backward then s.n else if s.group == 0 then 0 else Min(s.offloaded + 1, s.n)
  }

  function InsDone(s: Async, phase: Phase): nat {
    if phase == Forward then 0
    else if 0 in s.window && s.group > s.window[0] && s.offloaded <= s.n then s.n - s.offloaded
    else s.n
  }

  ghost predicate LogInv(s: Async, st: Streams, phase: Phase, rounds: nat)
    requires s.n > 0
  {
    && Cycling(GroupsOf(st.trace, CopyOut), s.n, rounds, OutsDone(s, phase), false)
    && Cycling(GroupsOf(st.trace, CopyIn), s.n, rounds, InsDone(s, phase), true)
  }

  lemma CopyOutLog(st: Streams, g: nat, live: bool, n: nat, rounds: nat, ins: nat)
    requires g < n && Cycling(GroupsOf(st.trace, CopyOut), n, rounds, g, false) && Cycling(GroupsOf(st.trace, CopyIn), n, rounds, ins, true)
    ensures var r := st.Issue(CopyOut, g, live);
            && Cycling(GroupsOf(r.trace, CopyOut), n, rounds, g + 1, false)
            && Cycling(GroupsOf(r.trace, CopyIn), n, rounds, ins, true)
  {
    IssueLog(st, CopyOut, g, live, CopyOut);
    IssueLog(st, CopyOut, g, live, CopyIn);
    CycleOn(GroupsOf(st.trace, CopyOut), n, rounds, g, false);
  }

  lemma ComputeLog(st: Streams, kind: OpKind, g: nat, live: bool)
    requires StreamOf(kind) == Compute
    ensures GroupsOf(st.Issue(kind, g, live).trace, CopyOut) == GroupsOf(st.trace, CopyOut)
    ensures GroupsOf(st.Issue(kind, g, live).trace, CopyIn) == GroupsOf(st.trace, CopyIn)
  {
    IssueLog(st, kind, g, live, CopyOut);
    IssueLog(st, kind, g, live, CopyIn);
  }

  lemma RotateLog(s: Async, st: Streams, rounds: nat, ins: nat)
    requires s.offloaded < s.n && Cycling(GroupsOf(st.trace, CopyOut), s.n, rounds, s.offloaded + 1, false)
    requires Cycling(GroupsOf(st.trace, CopyIn), s.n, rounds, ins, true)
    ensures var r := RotateStreams(s, st);
            && Cycling(GroupsOf(r.trace, CopyOut), s.n, rounds, Min(s.offloaded + 2, s.n), false)
            && Cycling(GroupsOf(r.trace, CopyIn), s.n, rounds, ins, true)
  {
    var c := s.offloaded;
    var a := st.Wait(D2H, Compute).Wait(Compute, D2H);
    ComputeLog(a, Drop, c, HasHeld(s.bufs, c));
    if c + 1 < s.n {
      CopyOutLog(a.Issue(Drop, c, HasHeld(s.bufs, c)), c + 1, HasGroup(s.slots, c + 1), s.n, rounds, ins);
    }
  }

  lemma ForwardLogs(s: Async, st: Streams, rounds: nat)
    requires Strict(s) && Progress(s, Forward) && s.group < s.l && CommitForward(s).Ok?
    requires LogInv(s, st, Forward, rounds)
    ensures CommitForward(s).value.n == s.n
    ensures LogInv(CommitForward(s).value, ForwardStreams(s, st), Forward, rounds)
  {
    ForwardFollows(s.window, s.n, s.l, s.group, s.offloaded);
    ForwardShape(s);
    if s.group == 0 {
      CopyOutLog(st.Wait(D2H, Compute), 0, HasGroup(s.slots, 0), s.n, rounds, 0);
    } else if s.window[s.offloaded] == s.group {
      RotateLog(s, st, rounds, 0);
    }
  }

  lemma ReloadLog(s: Async, st: Streams, c: nat, rounds: nat)
    requires c < s.n && Cycling(GroupsOf(st.trace, CopyIn), s.n, rounds, s.n - 1 - c, true)
    requires Cycling(GroupsOf(st.trace, CopyOut), s.n, rounds, s.n, false)
    ensures var r := ReloadStreams(s, st, c);
            && Cycling(GroupsOf(r.trace, CopyIn), s.n, rounds, s.n - c, true)
            && Cycling(GroupsOf(r.trace, CopyOut), s.n, rounds, s.n, false)
  {
    var a, live := st.Wait(H2D, Compute).Wait(Compute, H2D), c in s.host && |s.host[c]| > 0;
    IssueLog(a, CopyIn, c, live, CopyOut);
    IssueLog(a, CopyIn, c, live, CopyIn);
    CycleOn(GroupsOf(st.trace, CopyIn), s.n, rounds, s.n - 1 - c, true);
  }

  ghost predicate LogsAt(trace: seq<Op>, n: nat, rounds: nat, outs: nat, ins: nat) {
    && n > 0
    && Cycling(GroupsOf(trace, CopyOut), n, rounds, outs, false)
    && Cycling(GroupsOf(trace, CopyIn), n, rounds, ins, true)
  }

  lemma HitTrace(s: Async, st: Streams, rounds: nat)
    requires s.group > 0 && 1 <= s.offloaded <= s.n && s.offloaded - 1 in s.window
    requires s.window[s.offloaded - 1] == s.group - 1
    requires LogsAt(st.trace, s.n, rounds, s.n, s.n - s.offloaded)
    ensures LogsAt(BackwardStreams(s, st).trace, s.n, rounds, s.n, s.n - s.offloaded + 1)
  {
    ReloadLog(s, st, s.offloaded - 1, rounds);
    assert BackwardStreams(s, st).trace == ReloadStreams(s, st, s.offloaded - 1).trace;
  }

  lemma MissTrace(s: Async, st: Streams)
    requires s.group > 0 && s.offloaded > 0 && s.offloaded - 1 in s.window
    requires s.window[s.offloaded - 1] != s.group - 1
    ensures BackwardStreams(s, st).trace == st.trace
  {}

  /** How the number of reloads moves. */
  lemma InsAfter(s: Async, phase: Phase, r: Async)
    requires Strict(s) && Progress(s, phase) && s.group > 0 && (phase == Forward ==> s.group == s.l)
    requires r.n == s.n && r.l == s.l && r.window == s.window && r.group == s.group - 1 && 1 <= s.offloaded <= s.n
    requires r.offloaded == (if s.group == 1 then 0
                             else if s.window[s.offloaded - 1] == s.group - 1 && s.offloaded > 1 then s.offloaded - 1
                             else s.offloaded)
    ensures s.window[s.offloaded - 1] == s.group - 1 ==>
              InsDone(s, phase) == s.n - s.offloaded && InsDone(r, Backward) == s.n - s.offloaded + 1
    ensures s.window[s.offloaded - 1] != s.group - 1 ==> phase == Backward && InsDone(r, Backward) == InsDone(s, phase)
    ensures OutsDone(s, phase) == s.n == OutsDone(r, Backward)
  {
    BackwardFollows(s.window, s.n, s.l, phase, s.group, s.offloaded);
  }

  lemma BackwardLogs(s: Async, st: Streams, phase: Phase, alloc: Key -> Key, rounds: nat)
    requires Strict(s) && Progress(s, phase) && s.group > 0 && (phase == Forward ==> s.group == s.l)
    requires CommitBackward(s, alloc).Ok? && LogInv(s, st, phase, rounds)
    ensures CommitBackward(s, alloc).value.n == s.n
    ensures LogInv(CommitBackward(s, alloc).value, BackwardStreams(s, st), Backward, rounds)
  {
    BackwardFollows(s.window, s.n, s.l, phase, s.group, s.offloaded);
    BackwardShape(s, alloc);
    BackwardLogsOf(s, CommitBackward(s, alloc).value, st, phase, rounds);
  }

  lemma BackwardLogsOf(s: Async, r: Async, st: Streams, phase: Phase, rounds: nat)
    requires Strict(s) && Progress(s, phase) && s.group > 0 && (phase == Forward ==> s.group == s.l)
    requires r.n == s.n && r.l == s.l && r.window == s.window && r.group == s.group - 1 && 1 <= s.offloaded <= s.n
    requires r.offloaded == (if s.group == 1 then 0
                             else if s.window[s.offloaded - 1] == s.group - 1 && s.offloaded > 1 then s.offloaded - 1
                             else s.offloaded)
    requires LogsAt(st.trace, s.n, rounds, OutsDone(s, phase), InsDone(s, phase))
    ensures LogsAt(BackwardStreams(s, st).trace, r.n, rounds, OutsDone(r, Backward), InsDone(r, Backward))
  {
    InsAfter(s, phase, r);
    if s.window[s.offloaded - 1] == s.group - 1 {
      HitTrace(s, st, rounds);
    } else {
      MissTrace(s, st);
    }
  }

  lemma TouchLog(s: Async, st: Streams, kind: OpKind, g: nat, phase: Phase, rounds: nat)
    requires s.n > 0 && LogInv(s, st, phase, rounds) && StreamOf(kind) == Compute
    ensures LogInv(s, st.Issue(kind, g, true), phase, rounds)
  {
    ComputeLog(st, kind, g, true);
  }

  lemma NextRoundLogs(s: Async, st: Streams, rounds: nat)
    requires Strict(s) && s.group == 0 && LogInv(s, st, Backward, rounds)
    ensures LogInv(s, st, Forward, rounds + 1)
  {
    CycleDone(GroupsOf(st.trace, CopyOut), s.n, rounds, false);
    CycleDone(GroupsOf(st.trace, CopyIn), s.n, rounds, true);
  }

  lemma SaveLogs(s: Async, st: Streams, t: Tensor, rounds: nat)
    requires s.n > 0 && Push(s, t).Ok? && LogInv(s, st, Forward, rounds)
    ensures Push(s, t).value.0.n == s.n
    ensures LogInv(Push(s, t).value.0, PushStreams(s, st, t), Forward, rounds)
  {
    TouchLog(s, st, Produce, s.group, Forward, rounds);
  }

  lemma FetchLogs(s: Async, st: Streams, token: Token, rounds: nat)
    requires s.n > 0 && Pop(s, token).Ok? && LogInv(s, st, Backward, rounds)
    ensures Pop(s, token).value.0.n == s.n
    ensures LogInv(Pop(s, token).value.0, PopStreams(st, token), Backward, rounds)
  {
    if token.Tagged? { TouchLog(s, st, Read, token.tag.group, Backward, rounds); }
  }

  lemma LogStepKeeps(x: Session<Async>, st: Streams, p: Tape, e: Event)
    requires StepFits(x, p, e) && p.group == x.h.group
    requires Strict(x.h) && LogInv(x.h, st, p.phase, p.rounds)
    ensures AsyncStep(x, p, e).value.0.h.n == x.h.n
    ensures LogInv(AsyncStep(x, p, e).value.0.h, StreamStep(x, st, e), Advance(p, e).phase, Advance(p, e).rounds)
  {
    match e
    case Save(t) => SaveLogs(x.h, st, t, p.rounds);
    case Fetch(id) => FetchLogs(x.h, st, x.tokens[id], p.rounds);
    case EndForward => ForwardLogs(x.h, st, p.rounds); EndForwardStep(x, p);
    case BeginBackward(alloc) => BackwardLogs(x.h, st, p.phase, alloc, p.rounds); BeginBackwardStep(x, p, alloc);
    case NextRound => NextRoundLogs(x.h, st, p.rounds);
  }

  // ---------------------------------------------------------------- what stays on the device

  /** Group `g` has a tensor on the device. */
  ghost predicate OnDevice(s: Async, g: nat) {
    || (exists tag :: tag in s.slots && tag.group == g && s.slots[tag].Device?)
    || (exists tag :: tag in s.bufs && tag.group == g && s.bufs[tag].Held?)
  }

  ghost predicate Lean(s: Async, phase: Phase)
    requires Schedule(s)
  {
    && (forall tag :: tag in s.bufs ==> tag.group < s.n)
    && (phase == Forward ==> forall tag :: tag in s.bufs && s.bufs[tag].Held? ==> tag.group >= s.offloaded)
    && (phase == Backward ==> forall tag :: tag in s.bufs ==> s.bufs[tag].Freed?)
    && (phase == Forward && s.group > 0 ==>
          forall tag :: tag in s.slots && s.slots[tag].Device? ==> tag.group > s.offloaded || tag.group >= s.n)
    && (phase == Backward && Pending(s) ==>
          forall tag :: tag in s.slots && s.slots[tag].Device? ==> tag.group >= s.offloaded)
  }

  lemma SaveLean(s: Async, t: Tensor)
    requires Strict(s) && Progress(s, Forward) && s.group < s.l && Lean(s, Forward) && Push(s, t).Ok?
    ensures Schedule(Push(s, t).value.0) && Lean(Push(s, t).value.0, Forward)
  {
    if s.offloaded > 0 { assert s.offloaded <= s.window[s.offloaded - 1]; }
  }

  lemma FetchLean(s: Async, token: Token)
    requires Schedule(s) && Lean(s, Backward) && Pop(s, token).Ok?
    ensures Schedule(Pop(s, token).value.0) && Lean(Pop(s, token).value.0, Backward)
  {}

  lemma CloseWindowLean(s: Async)
    requires CloseWindow(s).Ok? && s.offloaded < s.n
    requires forall tag :: tag in s.bufs ==> tag.group < s.n && (s.bufs[tag].Held? ==> tag.group >= s.offloaded)
    requires forall tag :: tag in s.slots && s.slots[tag].Device? ==> tag.group > s.offloaded || tag.group >= s.n
    ensures var r := CloseWindow(s).value;
            && (forall tag :: tag in r.bufs ==> tag.group < s.n && (r.bufs[tag].Held? ==> tag.group >= r.offloaded))
            && (forall tag :: tag in r.slots && r.slots[tag].Device? ==> tag.group > r.offloaded || tag.group >= s.n)
  {
    if s.window[s.offloaded] == s.group && s.offloaded + 1 < s.n {
      var s1 := s.(bufs := FreeGroup(s.bufs, s.offloaded));
      CloseWindowHit(s, s1);
      OffloadEvicts(s1, s.offloaded + 1);
    }
  }

  lemma OffloadEvicts(s: Async, g: nat)
    requires BulkOffload(s, g).Ok?
    ensures var r := BulkOffload(s, g).value;
            && r == s.(slots := r.slots, host := r.host) && r.slots.Keys == s.slots.Keys
            && forall tag :: tag in s.slots ==> (r.slots[tag].Device? <==> s.slots[tag].Device? && tag.group != g)
  {}

  lemma ForwardLean(s: Async)
    requires Strict(s) && Progress(s, Forward) && s.group < s.l && Lean(s, Forward) && CommitForward(s).Ok?
    ensures Schedule(CommitForward(s).value) && Lean(CommitForward(s).value, Forward)
  {
    ForwardFollows(s.window, s.n, s.l, s.group, s.offloaded);
    var s1 := s;
    if s.group == 0 {
      OffloadEvicts(s, 0);
      s1 := BulkOffload(s, 0).value;
    }
    ForwardSplit(s, s1);
    CloseWindowFrame(s1);
    CloseWindowLean(s1);
  }

  /** What a backward commit does to the device side. */
  lemma BackwardDevice(s: Async, alloc: Key -> Key)
    requires CommitBackward(s, alloc).Ok?
    ensures s.offloaded > 0 && s.offloaded - 1 in s.window
    ensures var r := CommitBackward(s, alloc).value;
            && r.bufs == s.bufs && r.slots.Keys == s.slots.Keys
            && forall tag :: tag in s.slots && r.slots[tag].Device? && s.slots[tag].Evicted? ==>
                 s.window[s.offloaded - 1] == s.group - 1 && tag.group == s.offloaded - 1
  {
    if s.window[s.offloaded - 1] == s.group - 1 {
      BackwardHit(s, alloc);
      ReloadControl(s.(group := s.group - 1), s.offloaded - 1, alloc);
    } else {
      BackwardMiss(s, alloc);
    }
  }

  lemma BackwardLean(s: Async, phase: Phase, alloc: Key -> Key)
    requires Strict(s) && Progress(s, phase) && s.group > 0 && (phase == Forward ==> s.group == s.l)
    requires Lean(s, phase) && CommitBackward(s, alloc).Ok?
    ensures Schedule(CommitBackward(s, alloc).value) && Lean(CommitBackward(s, alloc).value, Backward)
  {
    BackwardFollows(s.window, s.n, s.l, phase, s.group, s.offloaded);
    BackwardShape(s, alloc);
    BackwardDevice(s, alloc);
  }

  lemma LeanStepKeeps(x: Session<Async>, p: Tape, e: Event, own: map<Tag, SaveId>)
    requires Inv(x, p, own) && Legal(x.h.l, p, e) && AsyncStep(x, p, e).Ok?
    requires Strict(x.h) && Lean(x.h, p.phase)
    ensures var r := AsyncStep(x, p, e).value.0.h; Schedule(r) && Lean(r, Advance(p, e).phase)
  {
    match e
    case Save(t) => SaveLean(x.h, t);
    case Fetch(id) => FetchLean(x.h, x.tokens[id]);
    case EndForward =>
      ForwardLean(x.h);
      EndForwardStep(x, p);
    case BeginBackward(alloc) =>
      BackwardLean(x.h, p.phase, alloc);
      BeginBackwardStep(x, p, alloc);
    case NextRound => EmptyLean(x, p, own);
  }

  lemma EmptyLean(x: Session<Async>, p: Tape, own: map<Tag, SaveId>)
    requires Inv(x, p, own) && p.live == map[] && p.group == 0
    ensures Lean(x.h, Forward)
  {
    assert x.h.slots.Keys <= {};
  }

  // ---------------------------------------------------------------- whole runs

  ghost predicate SafetyInv(x: Session<Async>, st: Streams, p: Tape, own: map<Tag, SaveId>) {
    Inv(x, p, own) && Strict(x.h) && StreamInv(x.h, st, p.phase) && LogInv(x.h, st, p.phase, p.rounds) && Lean(x.h, p.phase)
  }

  lemma InitSafety(n: nat, l: nat)
    requires 0 < n < l
    ensures SafetyInv(Session(AsyncInit(n, l), map[]), IDLE, BLANK, map[])
  {
    InitInv(n, l);
    InitStreams(n, l);
  }

  lemma StepSafe(x: Session<Async>, st: Streams, p: Tape, e: Event, own: map<Tag, SaveId>) returns (own': map<Tag, SaveId>)
    requires SafetyInv(x, st, p, own) && Legal(x.h.l, p, e)
    ensures AsyncStep(x, p, e).Ok?
    ensures var y := AsyncStep(x, p, e).value.0;
            SafetyInv(y, StreamStep(x, st, e), Advance(p, e), own') && y.h.n == x.h.n && y.h.l == x.h.l
  {
    own' := StepKeeps(x, p, e, own);
    StepsFit(x, p, e, own);
    StreamStepKeeps(x, st, p, e);
    LogStepKeeps(x, st, p, e);
    LeanStepKeeps(x, p, e, own);
  }

  lemma {:induction false} RunSafe(x: Session<Async>, st: Streams, p: Tape, es: seq<Event>, own: map<Tag, SaveId>)
    returns (own': map<Tag, SaveId>)
    requires SafetyInv(x, st, p, own) && LegalRun(x.h.l, p, es)
    ensures AsyncRun(x, p, es).Ok?
    ensures var y := AsyncRun(x, p, es).value.0;
            SafetyInv(y, StreamRun(x, st, p, es), Replay(p, es).0, own') && y.h.n == x.h.n && y.h.l == x.h.l
    decreases |es|
  {
    own' := own;
    if es != [] {
      var own1 := StepSafe(x, st, p, es[0], own);
      own' := RunSafe(AsyncStep(x, p, es[0]).value.0, StreamStep(x, st, es[0]), Advance(p, es[0]), es[1..], own1);
    }
  }

  lemma LogsOfRound(s: Async, st: Streams, rounds: nat)
    requires Strict(s) && s.group == 0 && LogInv(s, st, Backward, rounds)
    ensures Cycling(GroupsOf(st.trace, CopyOut), s.n, rounds + 1, 0, false)
    ensures Cycling(GroupsOf(st.trace, CopyIn), s.n, rounds + 1, 0, true)
  {
    NextRoundLogs(s, st, rounds);
  }

  lemma RunLogs(n: nat, l: nat, es: seq<Event>) returns (s: Async, st: Streams)
    requires 0 < n < l && LegalRun(l, BLANK, es)
    ensures st == StreamRun(Session(AsyncInit(n, l), map[]), IDLE, BLANK, es)
    ensures var q := Replay(BLANK, es).0; s.n == n && Strict(s) && s.group == q.group && LogInv(s, st, q.phase, q.rounds)
  {
    var x := Session(AsyncInit(n, l), map[]);
    InitSafety(n, l);
    var own := RunSafe(x, IDLE, BLANK, es, map[]);
    s, st := AsyncRun(x, BLANK, es).value.0.h, StreamRun(x, IDLE, BLANK, es);
  }

  /** In every round each group below n is copied out once, in ascending order, and copied back
      once, in descending order; no other group ever moves. */
  lemma EachGroupMovesOncePerRound(n: nat, l: nat, es: seq<Event>)
    requires 0 < n < l && LegalRun(l, BLANK, es)
    requires var q := Replay(BLANK, es).0; q.phase == Backward && q.group == 0
    ensures var trace := StreamRun(Session(AsyncInit(n, l), map[]), IDLE, BLANK, es).trace;
            var rounds := Replay(BLANK, es).0.rounds;
            && Cycling(GroupsOf(trace, CopyOut), n, rounds + 1, 0, false)
            && Cycling(GroupsOf(trace, CopyIn), n, rounds + 1, 0, true)
  {
    var s, st := RunLogs(n, l, es);
    LogsOfRound(s, st, Replay(BLANK, es).0.rounds);
  }

  /** The setting the caller chooses, n = l - 1: at every point of every legal run only two
      consecutive groups, the current one and the one before it, hold device memory. */
  lemma AtMostTwoGroupsOnDevice(n: nat, l: nat, es: seq<Event>, g: nat)
    requires 0 < n == l - 1 && LegalRun(l, BLANK, es)
    ensures var a := AsyncRun(Session(AsyncInit(n, l), map[]), BLANK, es);
            a.Ok? && (OnDevice(a.value.0.h, g) ==> a.value.0.h.group - 1 <= g <= a.value.0.h.group)
  {
    InitSafety(n, l);
    var x := Session(AsyncInit(n, l), map[]);
    var own := RunSafe(x, IDLE, BLANK, es, map[]);
    var y := AsyncRun(x, BLANK, es).value.0;
    if OnDevice(y.h, g) { DeviceBound(y, Replay(BLANK, es).0, own, g); }
  }

  lemma TightWindow(w: map<nat, int>, n: nat, l: nat, c: nat)
    requires Sched(w, n, l) && n == l - 1 && c < n
    ensures w[c] <= c + 1
    decreases n - c
  {
    if c + 1 < n {
      TightWindow(w, n, l, c + 1);
    }
  }

  lemma DeviceBound(x: Session<Async>, p: Tape, own: map<Tag, SaveId>, g: nat)
    requires Inv(x, p, own) && Strict(x.h) && Lean(x.h, p.phase) && x.h.n == x.h.l - 1
    requires OnDevice(x.h, g)
    ensures p.group - 1 <= g <= p.group
  {
    var s := x.h;
    var tag :| tag in s.slots && tag.group == g
               && (s.slots[tag].Device? || (tag in s.bufs && s.bufs[tag].Held?));
    assert own[tag] in p.live && own[tag].group == g;
    if s.offloaded < s.n { TightWindow(s.window, s.n, s.l, s.offloaded); }
    TightWindow(s.window, s.n, s.l, 0);
  }
}
