/** With fewer offload groups than layers, or one layer: a buffer is dropped only after its copy out, a group
    is read only after its reload, and what counts as offloaded is off the device. */
module OffloadOrder {
  import opened Arith
  import opened OffloadModel
  import opened OffloadProof
  import opened OffloadSafety
  import opened OffloadStreams

  /** The group's last such operation is still good at the end of the trace. */
  ghost predicate Fresh(st: Streams, kind: OpKind, undo: OpKind, g: nat) {
    exists i: nat :: Done(st.trace, i, |st.trace|, kind, undo, g)
  }

  lemma FreshKeeps(st: Streams, kind: OpKind, undo: OpKind, g: nat, k: OpKind, h: nat, live: bool)
    requires Fresh(st, kind, undo, g) && !(k == undo && h == g)
    ensures Fresh(st.Issue(k, h, live), kind, undo, g)
  {
    var i: nat :| Done(st.trace, i, |st.trace|, kind, undo, g);
    var t := st.Issue(k, h, live).trace;
    assert forall x :: 0 <= x < |st.trace| ==> t[x] == st.trace[x];
    assert Done(t, i, |t|, kind, undo, g);
  }

  lemma FreshNow(st: Streams, kind: OpKind, undo: OpKind, g: nat)
    ensures Fresh(st.Issue(kind, g, true), kind, undo, g)
  {
    var t := st.Issue(kind, g, true).trace;
    assert Done(t, |st.trace|, |t|, kind, undo, g);
  }

  /** What an operation must find done, and seen by its stream, when it is enqueued. */
  ghost predicate Ready(st: Streams, kind: OpKind, g: nat, live: bool, n: nat) {
    live ==>
      && (kind == Drop ==> Fresh(st, CopyOut, Produce, g) && SawAllBut(st, CopyOut, -1))
      && (kind == Read && g < n ==> Fresh(st, CopyIn, CopyOut, g) && exists in_: int :: in_ != g && SawAllBut(st, CopyIn, in_))
  }

  lemma IssueInTime(st: Streams, kind: OpKind, g: nat, live: bool, n: nat)
    requires CopiesInTime(st.trace, n) && Ready(st, kind, g, live, n)
    ensures CopiesInTime(st.Issue(kind, g, live).trace, n)
  {
    var t := st.Issue(kind, g, live).trace;
    assert forall x :: 0 <= x < |st.trace| ==> t[x] == st.trace[x];
    forall j: nat | j < |t| && t[j].live ensures CopyInTime(t, j, n) {
      if j < |st.trace| {
        EarlierInTime(st.trace, t, j, n);
      } else {
        LastInTime(st, kind, g, live, n);
      }
    }
  }

  lemma EarlierInTime(trace: seq<Op>, t: seq<Op>, j: nat, n: nat)
    requires j < |trace| <= |t| && CopyInTime(trace, j, n) && forall x :: 0 <= x < |trace| ==> t[x] == trace[x]
    ensures CopyInTime(t, j, n)
  {
    var g := trace[j].group;
    if trace[j].kind == Drop {
      var i: nat :| Done(trace, i, j, CopyOut, Produce, g) && HappensBefore(trace[i], trace[j]);
      assert Done(t, i, j, CopyOut, Produce, g);
    }
    if trace[j].kind == Read && g < n {
      var i: nat :| Done(trace, i, j, CopyIn, CopyOut, g) && HappensBefore(trace[i], trace[j]);
      assert Done(t, i, j, CopyIn, CopyOut, g);
    }
  }

  lemma LastInTime(st: Streams, kind: OpKind, g: nat, live: bool, n: nat)
    requires Ready(st, kind, g, live, n) && live
    ensures var t := st.Issue(kind, g, live).trace; CopyInTime(t, |st.trace|, n)
  {
    var t := st.Issue(kind, g, live).trace;
    var j := |st.trace|;
    assert forall x :: 0 <= x < j ==> t[x] == st.trace[x];
    if kind == Drop {
      var i: nat :| Done(st.trace, i, j, CopyOut, Produce, g);
      assert Done(t, i, j, CopyOut, Produce, g) && HappensBefore(t[i], t[j]);
    }
    if kind == Read && g < n {
      var i: nat :| Done(st.trace, i, j, CopyIn, CopyOut, g);
      assert Done(t, i, j, CopyIn, CopyOut, g) && HappensBefore(t[i], t[j]);
    }
  }

  // ---------------------------------------------------------------- what every step keeps

  /** In backward: the first group whose reload has been enqueued. */
  ghost function FirstBack(s: Async): nat
    requires Schedule(s)
  {
    if Pending(s) then s.offloaded else 0
  }

  /** Every group with tensors, from `lo` on and below n, is reloaded. */
  ghost predicate BackFrom(st: Streams, slots: map<Tag, Slot>, lo: nat, n: nat) {
    forall g: nat :: lo <= g < n && HasGroup(slots, g) ==> Fresh(st, CopyIn, CopyOut, g)
  }

  /** The group that is dropped next is copied out; the groups that may be read are reloaded. */
  ghost predicate OrderInv(s: Async, st: Streams, phase: Phase)
    requires Schedule(s)
  {
    && CopiesInTime(st.trace, s.n)
    && (phase == Forward && s.group > 0 && s.offloaded < s.n && HasGroup(s.slots, s.offloaded) ==>
          Fresh(st, CopyOut, Produce, s.offloaded))
    && (phase == Backward ==> BackFrom(st, s.slots, FirstBack(s), s.n))
  }

  lemma SaveOrder(s: Async, st: Streams, t: Tensor)
    requires Windowed(s) && (s.n < s.l || s.group == 0) && Progress(s, Forward) && Push(s, t).Ok? && OrderInv(s, st, Forward)
    ensures Schedule(Push(s, t).value.0) && OrderInv(Push(s, t).value.0, PushStreams(s, st, t), Forward)
  {
    if t.Tracked() {
      IssueInTime(st, Produce, s.group, true, s.n);
      if s.group > 0 && s.offloaded < s.n {
        if s.offloaded > 0 { assert s.offloaded <= s.window[s.offloaded - 1]; }
        if HasGroup(Push(s, t).value.0.slots, s.offloaded) {
          FreshKeeps(st, CopyOut, Produce, s.offloaded, Produce, s.group, true);
        }
      }
    }
  }

  lemma FetchOrder(s: Async, st: Streams, token: Token)
    requires Schedule(s) && FirstBack(s) <= s.group && Pop(s, token).Ok? && OrderInv(s, st, Backward)
    requires token.Tagged? ==> token.tag.group == s.group
    requires StreamsOk(st, -1, InInFlight(s, Backward)) && InInFlight(s, Backward) != s.group
    ensures Schedule(Pop(s, token).value.0) && OrderInv(Pop(s, token).value.0, PopStreams(st, token), Backward)
  {
    if token.Tagged? {
      var g := token.tag.group;
      assert HasGroup(s.slots, g);
      IssueInTime(st, Read, g, true, s.n);
      forall h: nat | FirstBack(s) <= h < s.n && HasGroup(Pop(s, token).value.0.slots, h)
        ensures Fresh(PopStreams(st, token), CopyIn, CopyOut, h)
      {
        FreshKeeps(st, CopyIn, CopyOut, h, Read, g, true);
      }
    }
  }

  lemma HeldIsKnown(s: Async, g: nat)
    requires s.bufs.Keys <= s.slots.Keys && HasHeld(s.bufs, g)
    ensures HasGroup(s.slots, g)
  {
    var tag :| tag in s.bufs && tag.group == g;
    assert tag in s.slots;
  }

  lemma DropInTime(s: Async, st: Streams, out: int)
    requires CopiesInTime(st.trace, s.n) && StreamsOk(st, out, -1) && s.bufs.Keys <= s.slots.Keys
    requires HasGroup(s.slots, s.offloaded) ==> Fresh(st, CopyOut, Produce, s.offloaded)
    ensures CopiesInTime(st.Wait(D2H, Compute).Wait(Compute, D2H).Issue(Drop, s.offloaded, HasHeld(s.bufs, s.offloaded)).trace, s.n)
  {
    var w := st.Wait(D2H, Compute).Wait(Compute, D2H);
    OutWaitsBoth(st, out);
    if HasHeld(s.bufs, s.offloaded) {
      HeldIsKnown(s, s.offloaded);
      assert w.trace == st.trace;
      assert Fresh(w, CopyOut, Produce, s.offloaded);
    }
    IssueInTime(w, Drop, s.offloaded, HasHeld(s.bufs, s.offloaded), s.n);
  }

  lemma RotateOrder(s: Async, st: Streams, out: int)
    requires CopiesInTime(st.trace, s.n) && StreamsOk(st, out, -1) && s.bufs.Keys <= s.slots.Keys
    requires HasGroup(s.slots, s.offloaded) ==> Fresh(st, CopyOut, Produce, s.offloaded)
    ensures CopiesInTime(RotateStreams(s, st).trace, s.n)
    ensures s.offloaded + 1 < s.n && HasGroup(s.slots, s.offloaded + 1) ==>
              Fresh(RotateStreams(s, st), CopyOut, Produce, s.offloaded + 1)
  {
    var c, held := s.offloaded, HasHeld(s.bufs, s.offloaded);
    var w := st.Wait(D2H, Compute).Wait(Compute, D2H);
    DropInTime(s, st, out);
    if c + 1 < s.n { NextInTime(w.Issue(Drop, c, held), c + 1, HasGroup(s.slots, c + 1), s.n); }
  }

  lemma NextInTime(st: Streams, g: nat, has: bool, n: nat)
    requires CopiesInTime(st.trace, n)
    ensures CopiesInTime(st.Issue(CopyOut, g, has).trace, n)
    ensures has ==> Fresh(st.Issue(CopyOut, g, has), CopyOut, Produce, g)
  {
    IssueInTime(st, CopyOut, g, has, n);
    if has { FreshNow(st, CopyOut, Produce, g); }
  }

  lemma SameTags(s: Async, r: Async, g: nat)
    requires r.slots.Keys == s.slots.Keys
    ensures HasGroup(r.slots, g) <==> HasGroup(s.slots, g)
  {
    assert forall tag :: tag in r.slots <==> tag in s.slots;
  }

  lemma ForwardTags(s: Async)
    requires CommitForward(s).Ok?
    ensures CommitForward(s).value.slots.Keys == s.slots.Keys
  {
    var s1 := s;
    if s.group == 0 {
      OffloadEvicts(s, 0);
      s1 := BulkOffload(s, 0).value;
    }
    ForwardSplit(s, s1);
    CloseWindowFrame(s1);
  }

  lemma ForwardOrder(s: Async, st: Streams)
    requires Strict(s) && Progress(s, Forward) && s.group < s.l && CommitForward(s).Ok? && s.bufs.Keys <= s.slots.Keys
    requires OrderInv(s, st, Forward) && StreamsOk(st, OutInFlight(s, Forward), -1)
    ensures Schedule(CommitForward(s).value) && OrderInv(CommitForward(s).value, ForwardStreams(s, st), Forward)
  {
    ForwardFollows(s.window, s.n, s.l, s.group, s.offloaded);
    ForwardShape(s);
    ForwardTags(s);
    var r := CommitForward(s).value;
    if s.group == 0 {
      var w, has := st.Wait(D2H, Compute), HasGroup(s.slots, 0);
      IssueInTime(w, CopyOut, 0, has, s.n);
      SameTags(s, r, 0);
      if has { FreshNow(w, CopyOut, Produce, 0); }
    } else if s.window[s.offloaded] == s.group {
      RotateOrder(s, st, s.offloaded);
      SameTags(s, r, s.offloaded + 1);
    } else {
      SameTags(s, r, s.offloaded);
    }
  }

  lemma ReloadFinds(s: Async, g: nat, alloc: Key -> Key)
    requires BulkReload(s, g, alloc).Ok? && HasGroup(s.slots, g)
    requires forall tag :: tag in s.slots && tag.group == g ==> s.slots[tag].Evicted?
    ensures g in s.host && |s.host[g]| > 0
  {
    var tag :| tag in s.slots && tag.group == g;
    assert s.slots[tag].key in s.host[g];
  }

  lemma ReloadInTime(s: Async, st: Streams, g: nat)
    requires CopiesInTime(st.trace, s.n)
    ensures CopiesInTime(ReloadStreams(s, st, g).trace, s.n)
  {
    IssueInTime(st.Wait(H2D, Compute).Wait(Compute, H2D), CopyIn, g, g in s.host && |s.host[g]| > 0, s.n);
  }

  /** The reload of group g on top of the reloads so far. */
  lemma ReloadOrder(s: Async, st: Streams, g: nat)
    requires BackFrom(st, s.slots, g + 1, s.n) && (HasGroup(s.slots, g) ==> g in s.host && |s.host[g]| > 0)
    ensures BackFrom(ReloadStreams(s, st, g), s.slots, g, s.n)
  {
    var w, live := st.Wait(H2D, Compute).Wait(Compute, H2D), g in s.host && |s.host[g]| > 0;
    forall h: nat | g <= h < s.n && HasGroup(s.slots, h) ensures Fresh(ReloadStreams(s, st, g), CopyIn, CopyOut, h) {
      if h == g {
        FreshNow(w, CopyIn, CopyOut, g);
      } else {
        assert Fresh(st, CopyIn, CopyOut, h);
        FreshKeeps(w, CopyIn, CopyOut, h, CopyIn, g, live);
      }
    }
  }

  /** Before a reload the group's tensors are all labels. */
  lemma NextIsOut(s: Async, phase: Phase)
    requires Strict(s) && Progress(s, phase) && s.group > 0 && (phase == Forward ==> s.group == s.l) && Lean(s, phase)
    requires 1 <= s.offloaded <= s.n && (phase == Forward || Pending(s))
    ensures forall tag :: tag in s.slots && tag.group == s.offloaded - 1 ==> s.slots[tag].Evicted?
  {}

  lemma BackKeys(st: Streams, s: Async, r: Async, lo: nat, n: nat)
    requires BackFrom(st, s.slots, lo, n) && r.slots.Keys == s.slots.Keys
    ensures BackFrom(st, r.slots, lo, n)
  {
    forall h: nat | lo <= h < n && HasGroup(r.slots, h) ensures Fresh(st, CopyIn, CopyOut, h) {
      SameTags(s, r, h);
    }
  }

  lemma BackTrace(st: Streams, st1: Streams, slots: map<Tag, Slot>, lo: nat, n: nat)
    requires BackFrom(st, slots, lo, n) && st1.trace == st.trace
    ensures BackFrom(st1, slots, lo, n)
  {
    forall h: nat | lo <= h < n && HasGroup(slots, h) ensures Fresh(st1, CopyIn, CopyOut, h) {
      assert Fresh(st, CopyIn, CopyOut, h);
    }
  }

  lemma BackwardTrace(s: Async, st: Streams, c: nat)
    requires s.group > 0 && s.offloaded == c + 1 && c in s.window && s.window[c] == s.group - 1
    ensures BackwardStreams(s, st).trace == ReloadStreams(s, st, c).trace
  {}

  /** A window opens: the next group is reloaded. */
  lemma BackwardHitOrder(s: Async, st: Streams, r: Async, c: nat)
    requires s.group > 0 && s.offloaded == c + 1 && c in s.window && s.window[c] == s.group - 1
    requires r.slots.Keys == s.slots.Keys && (HasGroup(s.slots, c) ==> c in s.host && |s.host[c]| > 0)
    requires CopiesInTime(st.trace, s.n) && BackFrom(st, s.slots, c + 1, s.n)
    ensures CopiesInTime(BackwardStreams(s, st).trace, s.n) && BackFrom(BackwardStreams(s, st), r.slots, c, s.n)
  {
    ReloadInTime(s, st, c);
    ReloadOrder(s, st, c);
    BackwardTrace(s, st, c);
    HitKept(s, r, ReloadStreams(s, st, c), BackwardStreams(s, st), c);
  }

  lemma HitKept(s: Async, r: Async, st1: Streams, st2: Streams, c: nat)
    requires r.slots.Keys == s.slots.Keys && st2.trace == st1.trace && BackFrom(st1, s.slots, c, s.n)
    ensures BackFrom(st2, r.slots, c, s.n)
  {
    BackKeys(st1, s, r, c, s.n);
    BackTrace(st1, st2, r.slots, c, s.n);
  }

  lemma HitFinds(s: Async, alloc: Key -> Key, c: nat)
    requires s.group > 0 && s.offloaded == c + 1 && c in s.window && s.window[c] == s.group - 1 && CommitBackward(s, alloc).Ok?
    requires forall tag :: tag in s.slots && tag.group == c ==> s.slots[tag].Evicted?
    ensures HasGroup(s.slots, c) ==> c in s.host && |s.host[c]| > 0
  {
    if HasGroup(s.slots, c) { ReloadFinds(s.(group := s.group - 1), c, alloc); }
  }

  lemma BackwardMissOrder(s: Async, st: Streams, r: Async, lo: nat)
    requires s.group > 0 && (s.offloaded > 0 && s.offloaded - 1 in s.window ==> s.window[s.offloaded - 1] != s.group - 1)
    requires r.slots.Keys == s.slots.Keys && CopiesInTime(st.trace, s.n) && BackFrom(st, s.slots, lo, s.n)
    ensures CopiesInTime(BackwardStreams(s, st).trace, s.n) && BackFrom(BackwardStreams(s, st), r.slots, lo, s.n)
  {
    BackKeys(st, s, r, lo, s.n);
    BackTrace(st, BackwardStreams(s, st), r.slots, lo, s.n);
  }

  /** What the counter says in backward about the reloads enqueued so far. */
  lemma FirstBackMoves(s: Async, phase: Phase, r: Async)
    requires Windowed(s) && Progress(s, phase) && s.group > 0 && (phase == Forward ==> s.group == s.l)
    requires r.n == s.n && r.l == s.l && r.window == s.window && r.group == s.group - 1
    requires 1 <= s.offloaded && s.offloaded - 1 in s.window
    requires r.offloaded == if r.group == 0 then 0
                            else if s.window[s.offloaded - 1] == r.group && s.offloaded > 1 then s.offloaded - 1
                            else s.offloaded
    ensures Schedule(r) && s.offloaded <= s.n
    ensures s.window[s.offloaded - 1] == s.group - 1 ==>
              && FirstBack(r) == s.offloaded - 1
              && (phase == Forward ==> s.offloaded == Min(s.n, s.l)) && (phase == Backward ==> Pending(s))
    ensures s.window[s.offloaded - 1] != s.group - 1 ==> phase == Backward && FirstBack(r) == FirstBack(s)
  {
    BackwardFollows(s.window, s.n, s.l, phase, s.group, s.offloaded);
  }

  lemma BackwardOrder(s: Async, st: Streams, phase: Phase, alloc: Key -> Key)
    requires Strict(s) && Progress(s, phase) && s.group > 0 && (phase == Forward ==> s.group == s.l)
    requires CommitBackward(s, alloc).Ok? && Lean(s, phase) && OrderInv(s, st, phase)
    ensures Schedule(CommitBackward(s, alloc).value) && OrderInv(CommitBackward(s, alloc).value, BackwardStreams(s, st), Backward)
  {
    BackwardShape(s, alloc);
    BackwardDevice(s, alloc);
    var r := CommitBackward(s, alloc).value;
    FirstBackMoves(s, phase, r);
    if s.window[s.offloaded - 1] == s.group - 1 {
      NextIsOut(s, phase);
      HitFinds(s, alloc, s.offloaded - 1);
      BackwardHitOrder(s, st, r, s.offloaded - 1);
    } else {
      BackwardMissOrder(s, st, r, FirstBack(s));
    }
  }

  // ---------------------------------------------------------------- a model of one layer

  /** With one layer everything is on the host as soon as its forward is over. */
  ghost predicate OneOut(s: Async, phase: Phase) {
    s.l == 1 && (phase == Forward && s.group > 0 ==> forall tag :: tag in s.slots ==> s.slots[tag].Evicted?)
  }

  /** The device side that the order of copies rests on. */
  ghost predicate DeviceSide(s: Async, phase: Phase)
    requires Schedule(s)
  {
    if s.n < s.l then Strict(s) && Lean(s, phase) else OneOut(s, phase)
  }

  lemma OneForward(s: Async)
    requires Control(s, Forward) && s.l == 1 && s.group == 0 && CommitForward(s).Ok?
    ensures OneOut(CommitForward(s).value, Forward)
  {
    OffloadEvicts(s, 0);
    var s1 := BulkOffload(s, 0).value;
    ForwardSplit(s, s1);
    ClosedSlots(s1);
  }

  /** A closing window touches no group but the next one. */
  lemma ClosedSlots(s: Async)
    requires CloseWindow(s).Ok?
    ensures CloseWindow(s).value.slots.Keys == s.slots.Keys && CloseWindow(s).value.l == s.l
    ensures forall tag :: tag in s.slots && (tag.group != s.offloaded + 1 || s.slots[tag].Evicted?) ==>
              CloseWindow(s).value.slots[tag] == s.slots[tag]
  {
    if s.window[s.offloaded] == s.group && s.offloaded + 1 < s.n {
      CloseWindowHit(s, s.(bufs := FreeGroup(s.bufs, s.offloaded)));
    } else {
      CloseWindowMiss(s);
    }
  }

  lemma OneForwardOrder(s: Async, st: Streams)
    requires Control(s, Forward) && s.l == 1 && s.group == 0 && CommitForward(s).Ok? && s.bufs.Keys <= s.slots.Keys
    requires OrderInv(s, st, Forward) && StreamsOk(st, -1, -1)
    ensures Schedule(CommitForward(s).value) && OrderInv(CommitForward(s).value, ForwardStreams(s, st), Forward)
  {
    ForwardFollows(s.window, s.n, s.l, s.group, s.offloaded);
    ForwardShape(s);
    ForwardTags(s);
    var w, has := st.Wait(D2H, Compute), HasGroup(s.slots, 0);
    OutWaits(st, -1);
    IssueCopy(w, CopyOut, 0, has, -1, -1);
    IssueInTime(w, CopyOut, 0, has, s.n);
    if has { FreshNow(w, CopyOut, Produce, 0); }
    TightForward(s);
    RotateOrder(s, w.Issue(CopyOut, 0, has), 0);
    SameTags(s, CommitForward(s).value, 1);
  }

  lemma OneBackwardOrder(s: Async, st: Streams, phase: Phase, alloc: Key -> Key)
    requires Control(s, phase) && s.n >= s.l && s.group > 0 && (phase == Forward ==> s.group == s.l)
    requires CommitBackward(s, alloc).Ok? && OneOut(s, phase) && OrderInv(s, st, phase)
    ensures Schedule(CommitBackward(s, alloc).value) && OrderInv(CommitBackward(s, alloc).value, BackwardStreams(s, st), Backward)
  {
    BackwardShape(s, alloc);
    BackwardDevice(s, alloc);
    TightFollows(s, phase);
    var r := CommitBackward(s, alloc).value;
    FirstBackMoves(s, phase, r);
    HitFinds(s, alloc, 0);
    BackwardHitOrder(s, st, r, 0);
  }

  // ---------------------------------------------------------------- whole runs

  lemma ReadsReloaded(s: Async)
    requires Windowed(s) && (s.n < s.l || s.l == 1) && Progress(s, Backward)
    ensures FirstBack(s) <= s.group
  {
    if Pending(s) && s.n < s.l { assert s.offloaded <= s.window[s.offloaded - 1]; }
  }

  lemma FetchInOrder(s: Async, st: Streams, token: Token)
    requires Schedule(s) && Progress(s, Backward) && StreamInv(s, st, Backward) && (s.n < s.l || s.l == 1) && OrderInv(s, st, Backward)
    requires Pop(s, token).Ok? && (token.Tagged? ==> token.tag.group == s.group)
    ensures Schedule(Pop(s, token).value.0) && OrderInv(Pop(s, token).value.0, PopStreams(st, token), Backward)
  {
    NothingOfThisGroupInFlight(s, Backward);
    ReadsReloaded(s);
    FetchOrder(s, st, token);
  }

  lemma EndForwardOrder(s: Async, st: Streams)
    requires Control(s, Forward) && s.group < s.l && CommitForward(s).Ok? && s.bufs.Keys <= s.slots.Keys
    requires StreamInv(s, st, Forward) && DeviceSide(s, Forward) && OrderInv(s, st, Forward)
    ensures Schedule(CommitForward(s).value) && OrderInv(CommitForward(s).value, ForwardStreams(s, st), Forward)
  {
    if s.n < s.l { ForwardOrder(s, st); } else { OneForwardOrder(s, st); }
  }

  lemma BeginBackwardOrder(s: Async, st: Streams, phase: Phase, alloc: Key -> Key)
    requires Control(s, phase) && s.group > 0 && (phase == Forward ==> s.group == s.l) && CommitBackward(s, alloc).Ok?
    requires Windowed(s) && DeviceSide(s, phase) && OrderInv(s, st, phase)
    ensures Schedule(CommitBackward(s, alloc).value) && OrderInv(CommitBackward(s, alloc).value, BackwardStreams(s, st), Backward)
  {
    if s.n < s.l { BackwardOrder(s, st, phase, alloc); } else { OneBackwardOrder(s, st, phase, alloc); }
  }

  lemma OrderStepKeeps(x: Session<Async>, st: Streams, p: Tape, e: Event)
    requires StepFits(x, p, e) && Control(x.h, p.phase) && x.h.bufs.Keys <= x.h.slots.Keys
    requires StreamInv(x.h, st, p.phase) && DeviceSide(x.h, p.phase) && OrderInv(x.h, st, p.phase)
    ensures Schedule(AsyncStep(x, p, e).value.0.h)
    ensures OrderInv(AsyncStep(x, p, e).value.0.h, StreamStep(x, st, e), Advance(p, e).phase)
  {
    match e
    case Save(t) => SaveOrder(x.h, st, t);
    case Fetch(id) => FetchInOrder(x.h, st, x.tokens[id]);
    case EndForward => EndForwardOrder(x.h, st);
    case BeginBackward(alloc) => BeginBackwardOrder(x.h, st, p.phase, alloc);
    case NextRound =>
  }

  lemma WindowStays(x: Session<Async>, p: Tape, e: Event)
    requires AsyncStep(x, p, e).Ok?
    ensures var r := AsyncStep(x, p, e).value.0.h; r.window == x.h.window && r.n == x.h.n && r.l == x.h.l
  {
    match e
    case Save(t) =>
    case Fetch(id) =>
    case EndForward => ForwardShape(x.h);
    case BeginBackward(alloc) => BackwardShape(x.h, alloc);
    case NextRound =>
  }

  lemma OneStepKeeps(x: Session<Async>, p: Tape, e: Event)
    requires StepFits(x, p, e) && Control(x.h, p.phase) && OneOut(x.h, p.phase) && AsyncStep(x, p, e).value.0.h.l == 1
    ensures OneOut(AsyncStep(x, p, e).value.0.h, Advance(p, e).phase)
  {
    match e
    case Save(t) =>
    case Fetch(id) =>
    case EndForward => OneForward(x.h);
    case BeginBackward(alloc) =>
    case NextRound =>
  }

  lemma DeviceStepKeeps(x: Session<Async>, p: Tape, e: Event, own: map<Tag, SaveId>)
    requires Inv(x, p, own) && Legal(x.h.l, p, e) && AsyncStep(x, p, e).Ok? && DeviceSide(x.h, p.phase)
    ensures var r := AsyncStep(x, p, e).value.0.h; Schedule(r) && DeviceSide(r, Advance(p, e).phase)
  {
    WindowStays(x, p, e);
    if x.h.n < x.h.l {
      LeanStepKeeps(x, p, e, own);
    } else {
      StepsFit(x, p, e, own);
      OneStepKeeps(x, p, e);
    }
  }

  ghost predicate InOrder(x: Session<Async>, st: Streams, p: Tape, own: map<Tag, SaveId>) {
    Inv(x, p, own) && StreamInv(x.h, st, p.phase) && DeviceSide(x.h, p.phase) && OrderInv(x.h, st, p.phase)
  }

  lemma StepInOrder(x: Session<Async>, st: Streams, p: Tape, e: Event, own: map<Tag, SaveId>) returns (own': map<Tag, SaveId>)
    requires InOrder(x, st, p, own) && Legal(x.h.l, p, e)
    ensures AsyncStep(x, p, e).Ok?
    ensures var y := AsyncStep(x, p, e).value.0;
            InOrder(y, StreamStep(x, st, e), Advance(p, e), own') && y.h.n == x.h.n && y.h.l == x.h.l
  {
    own' := StepKeeps(x, p, e, own);
    StepsFit(x, p, e, own);
    StreamStepKeeps(x, st, p, e);
    OrderStepKeeps(x, st, p, e);
    DeviceStepKeeps(x, p, e, own);
  }

  lemma {:induction false} RunInOrder(x: Session<Async>, st: Streams, p: Tape, es: seq<Event>, own: map<Tag, SaveId>)
    returns (own': map<Tag, SaveId>)
    requires InOrder(x, st, p, own) && LegalRun(x.h.l, p, es)
    ensures AsyncRun(x, p, es).Ok?
    ensures var y := AsyncRun(x, p, es).value.0;
            InOrder(y, StreamRun(x, st, p, es), Replay(p, es).0, own') && y.h.n == x.h.n && y.h.l == x.h.l
    decreases |es|
  {
    own' := own;
    if es != [] {
      var own1 := StepInOrder(x, st, p, es[0], own);
      own' := RunInOrder(AsyncStep(x, p, es[0]).value.0, StreamStep(x, st, es[0]), Advance(p, es[0]), es[1..], own1);
    }
  }

  lemma InitOrder(n: nat, l: nat)
    requires n > 0 && l > 0 && (n < l || l == 1)
    ensures var s := AsyncInit(n, l);
            && Inv(Session(s, map[]), BLANK, map[]) && StreamInv(s, IDLE, Forward) && Schedule(s)
            && DeviceSide(s, Forward) && OrderInv(s, IDLE, Forward)
  {
    InitInv(n, l);
    InitStreams(n, l);
    if n < l { InitSafety(n, l); }
  }

  /** At every point of every legal run a group's buffers are dropped only after its copy out is complete,
      and a group is read only after its reload is complete. */
  lemma CopiesAreInTime(n: nat, l: nat, es: seq<Event>)
    requires n > 0 && l > 0 && (n < l || l == 1) && LegalRun(l, BLANK, es)
    ensures CopiesInTime(StreamRun(Session(AsyncInit(n, l), map[]), IDLE, BLANK, es).trace, n)
  {
    InitOrder(n, l);
    var own := RunInOrder(Session(AsyncInit(n, l), map[]), IDLE, BLANK, es, map[]);
  }

  // ---------------------------------------------------------------- full offloading

  /** The saved tensor has left the device and is recoverable from its group's host copies. */
  ghost predicate IsOut(x: Session<Async>, p: Tape, id: SaveId) {
    && id in x.tokens && id in p.live && x.tokens[id].Tagged? && x.tokens[id].tag in x.h.slots
    && var slot := x.h.slots[x.tokens[id].tag];
       && slot.Evicted? && slot.shape == p.live[id].shape
       && id.group in x.h.host && slot.key in x.h.host[id.group] && x.h.host[id.group][slot.key] == p.live[id].flat
  }

  /** In forward, after the first commit, every tracked save of the groups the handler counts as offloaded,
      and of the one being copied, is out. */
  ghost predicate FullyOut(x: Session<Async>, p: Tape) {
    p.phase == Forward && p.group > 0 ==>
      forall id :: id in p.live && p.live[id].Tracked() && id.group <= x.h.offloaded && id.group < x.h.n ==> IsOut(x, p, id)
  }

  lemma DeviceSideIsOut(x: Session<Async>, p: Tape, own: map<Tag, SaveId>)
    requires Inv(x, p, own) && DeviceSide(x.h, p.phase)
    ensures FullyOut(x, p)
  {
    if p.phase == Forward && p.group > 0 {
      forall id | id in p.live && p.live[id].Tracked() && id.group <= x.h.offloaded && id.group < x.h.n ensures IsOut(x, p, id) {
        SaveIsOut(x, p, own, id);
      }
    }
  }

  lemma SaveIsOut(x: Session<Async>, p: Tape, own: map<Tag, SaveId>, id: SaveId)
    requires Linked(x.tokens, p.live, own) && Contents(x.h, p.live, own, true) && id in p.live && p.live[id].Tracked()
    requires forall tag :: tag in x.h.slots && tag.group == id.group ==> x.h.slots[tag].Evicted?
    ensures IsOut(x, p, id)
  {
    var tag := x.tokens[id].tag;
    assert Holds(x.h.slots[tag], x.h.host, tag.group, p.live[own[tag]], true);
  }

  /** With fewer offload groups than layers (or with one layer) every save of an offloaded group has left
      the device, at every forward point of every legal run. */
  lemma OffloadedSavesAreOut(n: nat, l: nat, es: seq<Event>)
    requires n > 0 && l > 0 && (n < l || l == 1) && LegalRun(l, BLANK, es)
    ensures var a := AsyncRun(Session(AsyncInit(n, l), map[]), BLANK, es);
            a.Ok? && FullyOut(a.value.0, Replay(BLANK, es).0)
  {
    InitOrder(n, l);
    var own := RunInOrder(Session(AsyncInit(n, l), map[]), IDLE, BLANK, es, map[]);
    DeviceSideIsOut(AsyncRun(Session(AsyncInit(n, l), map[]), BLANK, es).value.0, Replay(BLANK, es).0, own);
  }
}
