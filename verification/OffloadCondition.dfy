/** Exactly when the double-buffered handler offloads fully and drops buffers in time: with fewer offload
    groups than layers, or with one layer.  Otherwise group 1 is copied out before its forward. */
module OffloadCondition {
  import opened OffloadModel
  import opened OffloadOrder
  import opened OffloadProof
  import opened OffloadStreams

  /** After the run every save that the handler counts as offloaded is out. */
  ghost predicate OutAfter(n: nat, l: nat, es: seq<Event>) {
    var a := AsyncRun(Session(AsyncInit(n, l), map[]), BLANK, es);
    a.Ok? && FullyOut(a.value.0, Replay(BLANK, es).0)
  }

  /** During the run buffers are dropped after their copy out and groups read after their reload. */
  ghost predicate InTimeDuring(n: nat, l: nat, es: seq<Event>) {
    CopiesInTime(StreamRun(Session(AsyncInit(n, l), map[]), IDLE, BLANK, es).trace, n)
  }

  const SAVED := Tensor(0, [], [0], false, true)

  /** The shortest run that saves a tensor in group 1 and commits it. */
  const SHORT := [EndForward, Save(SAVED), EndForward]

  lemma ShortIsLegal(l: nat)
    requires l >= 2
    ensures LegalRun(l, BLANK, SHORT)
    ensures Replay(BLANK, SHORT).0 == Tape(Forward, 2, 0, map[SaveId(1, 0) := SAVED], 0)
  {
    var p1 := Advance(BLANK, EndForward);
    var p2 := Advance(p1, Save(SAVED));
    assert SHORT[1..] == [Save(SAVED), EndForward] && SHORT[1..][1..] == [EndForward] && SHORT[1..][1..][1..] == [];
    assert LegalRun(l, Advance(p2, EndForward), []);
    assert LegalRun(l, p2, [EndForward]);
    assert LegalRun(l, p1, SHORT[1..]);
    assert Replay(p2, [EndForward]).0 == Advance(p2, EndForward);
  }

  /** One event off a run. */
  lemma RunOne(x: Session<Async>, st: Streams, p: Tape, es: seq<Event>)
    requires es != [] && AsyncRun(x, p, es).Ok?
    ensures AsyncStep(x, p, es[0]).Ok?
    ensures var y, q := AsyncStep(x, p, es[0]).value.0, Advance(p, es[0]);
            && AsyncRun(y, q, es[1..]).Ok? && AsyncRun(x, p, es).value.0 == AsyncRun(y, q, es[1..]).value.0
            && StreamRun(x, st, p, es) == StreamRun(y, StreamStep(x, st, es[0]), q, es[1..])
  {}

  /** After the first commit, with nothing saved: the counter already stands at group 1. */
  ghost predicate AfterFirst(s: Async, n: nat, l: nat) {
    && s.n == n && s.l == l && s.window == WindowMap(n, l) && s.group == 1 && s.count == 0 && s.offloaded == 1
    && s.slots == map[] && s.bufs == map[]
  }

  lemma FirstCommit(n: nat, l: nat)
    requires n >= l >= 2 && CommitForward(AsyncInit(n, l)).Ok?
    ensures AfterFirst(CommitForward(AsyncInit(n, l)).value, n, l)
  {
    var s := AsyncInit(n, l);
    InitSchedule(n, l);
    TightWindows(s.window, n, l, 0);
    ForwardShape(s);
    ForwardTags(s);
    FirstBuffers(s);
  }

  lemma FirstBuffers(s: Async)
    requires CommitForward(s).Ok?
    ensures CommitForward(s).value.count == 0 && CommitForward(s).value.bufs.Keys == s.bufs.Keys
  {
    var s1 := if s.group == 0 then BulkOffload(s, 0).value else s;
    ForwardSplit(s, s1);
    if s1.window[s1.offloaded] == s1.group && s1.offloaded + 1 < s1.n {
      CloseWindowHit(s1, s1.(bufs := FreeGroup(s1.bufs, s1.offloaded)));
    } else {
      CloseWindowMiss(s1);
    }
  }

  lemma SecondCommit(s: Async, n: nat, l: nat)
    requires n >= l >= 2 && AfterFirst(s, n, l)
    requires Push(s, SAVED).Ok? && CommitForward(Push(s, SAVED).value.0).Ok?
    ensures var r := CommitForward(Push(s, SAVED).value.0).value;
            r.offloaded == 2 && r.n == n && Tag(1, 0) in r.slots && r.slots[Tag(1, 0)].Device?
  {
    InitSchedule(n, l);
    TightWindows(s.window, n, l, 1);
    var s1 := Push(s, SAVED).value.0;
    ForwardShape(s1);
    ForwardSplit(s1, s1);
    ClosedSlots(s1);
  }

  // ---------------------------------------------------------------- the stream work of that run

  /** No copy out of group 1 has found a tensor. */
  ghost predicate NoneCopied(trace: seq<Op>) {
    forall i :: 0 <= i < |trace| && trace[i].kind == CopyOut && trace[i].group == 1 ==> !trace[i].live
  }

  lemma FirstStreams(n: nat, l: nat)
    requires n >= l >= 2
    ensures NoneCopied(ForwardStreams(AsyncInit(n, l), IDLE).trace)
  {
    assert forall g: nat :: !HasGroup(map[], g);
  }

  lemma SecondStreams(s: Async, st: Streams, n: nat, l: nat)
    requires n >= l >= 2 && AfterFirst(s, n, l) && NoneCopied(st.trace) && Push(s, SAVED).Ok?
    ensures !CopiesInTime(ForwardStreams(Push(s, SAVED).value.0, PushStreams(s, st, SAVED)).trace, n)
  {
    InitSchedule(n, l);
    TightWindows(s.window, n, l, 1);
    var s1, st1 := Push(s, SAVED).value.0, PushStreams(s, st, SAVED);
    var t, j := ForwardStreams(s1, st1).trace, |st1.trace|;
    assert s1.bufs[Tag(1, 0)].Held?;
    assert j < |t| && t[j].kind == Drop && t[j].group == 1 && t[j].live;
    assert forall i :: 0 <= i < j ==> t[i] == st1.trace[i];
    assert !DropFollowsCopy(t, j);
    assert !CopyInTime(t, j, n);
  }

  lemma ShortFails(n: nat, l: nat)
    requires n >= l >= 2
    ensures LegalRun(l, BLANK, SHORT) && !OutAfter(n, l, SHORT) && !InTimeDuring(n, l, SHORT)
  {
    var x := Session(AsyncInit(n, l), map[]);
    ShortIsLegal(l);
    InitInv(n, l);
    var own := RunDelivers(x, BLANK, SHORT, map[]);
    RunOne(x, IDLE, BLANK, SHORT);
    FirstCommit(n, l);
    FirstStreams(n, l);
    var x1, st1, p1 := AsyncStep(x, BLANK, EndForward).value.0, ForwardStreams(x.h, IDLE), Advance(BLANK, EndForward);
    ShortFailsFrom(x1, st1, p1, n, l);
    var y, q := AsyncRun(x, BLANK, SHORT).value.0, Replay(BLANK, SHORT).0;
    NotOut(y, q);
  }

  lemma NotOut(y: Session<Async>, q: Tape)
    requires y.h.offloaded == 2 <= y.h.n && SaveId(1, 0) in y.tokens && y.tokens[SaveId(1, 0)] == Tagged(Tag(1, 0))
    requires Tag(1, 0) in y.h.slots && y.h.slots[Tag(1, 0)].Device?
    requires q == Tape(Forward, 2, 0, map[SaveId(1, 0) := SAVED], 0)
    ensures !FullyOut(y, q)
  {
    assert SaveId(1, 0) in q.live && !IsOut(y, q, SaveId(1, 0));
  }

  lemma ShortFailsFrom(x: Session<Async>, st: Streams, p: Tape, n: nat, l: nat)
    requires n >= l >= 2 && AfterFirst(x.h, n, l) && NoneCopied(st.trace) && p == Tape(Forward, 1, 0, map[], 0)
    requires AsyncRun(x, p, SHORT[1..]).Ok?
    ensures var y := AsyncRun(x, p, SHORT[1..]).value.0;
            && y.h.offloaded == 2 && y.h.n == n && SaveId(1, 0) in y.tokens && y.tokens[SaveId(1, 0)] == Tagged(Tag(1, 0))
            && Tag(1, 0) in y.h.slots && y.h.slots[Tag(1, 0)].Device?
    ensures !CopiesInTime(StreamRun(x, st, p, SHORT[1..]).trace, n)
  {
    RunOne(x, st, p, SHORT[1..]);
    var x1, st1, p1 := AsyncStep(x, p, Save(SAVED)).value.0, PushStreams(x.h, st, SAVED), Advance(p, Save(SAVED));
    assert SHORT[1..][1..] == [EndForward];
    RunOne(x1, st1, p1, [EndForward]);
    SecondCommit(x.h, n, l);
    SecondStreams(x.h, st, n, l);
  }

  // ---------------------------------------------------------------- the conditions

  /** Every legal run keeps every save of the offloaded groups off the device, if and only if there are
      fewer offload groups than layers or only one layer. */
  lemma OffloadsFullyIff(n: nat, l: nat)
    requires n > 0 && l > 0
    ensures (forall es :: LegalRun(l, BLANK, es) ==> OutAfter(n, l, es)) <==> n < l || l == 1
  {
    if n < l || l == 1 {
      forall es | LegalRun(l, BLANK, es) ensures OutAfter(n, l, es) { OffloadedSavesAreOut(n, l, es); }
    } else {
      ShortFails(n, l);
    }
  }

  /** In every legal run every drop follows its copy out and every read its reload, if and only if there are
      fewer offload groups than layers or only one layer. */
  lemma CopiesInTimeIff(n: nat, l: nat)
    requires n > 0 && l > 0
    ensures (forall es :: LegalRun(l, BLANK, es) ==> InTimeDuring(n, l, es)) <==> n < l || l == 1
  {
    if n < l || l == 1 {
      forall es | LegalRun(l, BLANK, es) ensures InTimeDuring(n, l, es) { CopiesAreInTime(n, l, es); }
    } else {
      ShortFails(n, l);
    }
  }
}
