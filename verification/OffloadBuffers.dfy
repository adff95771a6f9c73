/** What the double-buffered handler holds on to, for every number of offload groups and layers: which tensors it
    buffers and for how long, and which of its stream operations find tensors. */
module OffloadBuffers {
  import opened Arith
  import opened OffloadModel
  import opened OffloadProof
  import opened OffloadSafety
  import opened OffloadStreams

  // ---------------------------------------------------------------- one commit

  lemma ForwardBuffers(s: Async)
    requires CommitForward(s).Ok?
    ensures s.offloaded in s.window
    ensures CommitForward(s).value.bufs == if s.window[s.offloaded] == s.group then FreeGroup(s.bufs, s.offloaded) else s.bufs
  {
    var s1 := s;
    if s.group == 0 {
      OffloadEvicts(s, 0);
      s1 := BulkOffload(s, 0).value;
    }
    ForwardSplit(s, s1);
    CloseBuffers(s1);
  }

  lemma CloseBuffers(s: Async)
    requires CloseWindow(s).Ok?
    ensures s.offloaded in s.window
    ensures CloseWindow(s).value.bufs == if s.window[s.offloaded] == s.group then FreeGroup(s.bufs, s.offloaded) else s.bufs
  {
    var s1 := s.(bufs := FreeGroup(s.bufs, s.offloaded));
    if s.window[s.offloaded] == s.group && s.offloaded + 1 < s.n {
      CloseWindowHit(s, s1);
      OffloadEvicts(s1, s.offloaded + 1);
    } else {
      CloseWindowMiss(s);
    }
  }

  // ---------------------------------------------------------------- the buffers

  /** A tracked save is buffered exactly if its group is offloaded at all: the tensor itself from its save until the
      window of its group closes, nothing from then on. */
  ghost predicate Buffered(s: Async, phase: Phase, tag: Tag, t: Tensor, group: nat) {
    && (tag in s.bufs <==> group < s.n)
    && (tag in s.bufs ==> s.bufs[tag] == if phase == Forward && group >= s.offloaded then Held(t) else Freed)
  }

  ghost predicate BufInv(x: Session<Async>, p: Tape) {
    forall id :: id in p.live && p.live[id].Tracked() ==>
      id in x.tokens && x.tokens[id].Tagged? && Buffered(x.h, p.phase, x.tokens[id].tag, p.live[id], id.group)
  }

  lemma PushBuffered(s: Async, t: Tensor, tag: Tag, u: Tensor, group: nat)
    requires Push(s, t).Ok? && Buffered(s, Forward, tag, u, group) && tag in s.slots
    ensures Buffered(Push(s, t).value.0, Forward, tag, u, group)
  {}

  lemma NewBuffered(s: Async, t: Tensor)
    requires Push(s, t).Ok? && t.Tracked() && s.bufs.Keys <= s.slots.Keys && s.offloaded <= s.group
    ensures Push(s, t).value.1.Tagged? && Buffered(Push(s, t).value.0, Forward, Push(s, t).value.1.tag, t, s.group)
  {}

  lemma SaveBuffers(x: Session<Async>, p: Tape, t: Tensor, own: map<Tag, SaveId>)
    requires x.h.bufs.Keys <= x.h.slots.Keys == own.Keys && Linked(x.tokens, p.live, own) && x.h.offloaded <= x.h.group == p.group
    requires p.phase == Forward && BufInv(x, p) && AsyncStep(x, p, Save(t)).Ok?
    ensures BufInv(AsyncStep(x, p, Save(t)).value.0, Advance(p, Save(t)))
  {
    var y, q, new_ := AsyncStep(x, p, Save(t)).value.0, Advance(p, Save(t)), SaveId(p.group, p.saves);
    forall id | id in q.live && q.live[id].Tracked()
      ensures id in y.tokens && y.tokens[id].Tagged? && Buffered(y.h, q.phase, y.tokens[id].tag, q.live[id], id.group)
    {
      if id == new_ {
        NewBuffered(x.h, t);
      } else {
        PushBuffered(x.h, t, x.tokens[id].tag, p.live[id], id.group);
      }
    }
  }

  /** In forward the counter is not ahead of the current group. */
  lemma CounterBehind(s: Async)
    requires Schedule(s) && Progress(s, Forward)
    ensures s.offloaded <= s.group
  {
    if s.offloaded > 0 { assert s.offloaded - 1 <= s.window[s.offloaded - 1]; }
  }

  lemma PopBuffered(s: Async, token: Token, phase: Phase, tag: Tag, u: Tensor, group: nat)
    requires Pop(s, token).Ok? && Buffered(s, phase, tag, u, group) && (token.Tagged? ==> token.tag != tag)
    ensures Buffered(Pop(s, token).value.0, phase, tag, u, group)
  {}

  lemma OtherTag(tokens: map<SaveId, Token>, live: map<SaveId, Tensor>, own: map<Tag, SaveId>, id: SaveId, other: SaveId)
    requires Linked(tokens, live, own) && id in live && other in live && id != other && live[other].Tracked()
    ensures tokens[other].Tagged? && (tokens[id].Tagged? ==> tokens[id].tag != tokens[other].tag)
  {
    assert own[tokens[other].tag] == other;
    if live[id].Tracked() { assert own[tokens[id].tag] == id; }
  }

  lemma FetchBuffers(x: Session<Async>, p: Tape, id: SaveId, own: map<Tag, SaveId>)
    requires Linked(x.tokens, p.live, own) && id in p.live && BufInv(x, p) && AsyncStep(x, p, Fetch(id)).Ok?
    ensures BufInv(AsyncStep(x, p, Fetch(id)).value.0, Advance(p, Fetch(id)))
  {
    var y, q := AsyncStep(x, p, Fetch(id)).value.0, Advance(p, Fetch(id));
    forall other | other in q.live && q.live[other].Tracked()
      ensures other in y.tokens && y.tokens[other].Tagged? && Buffered(y.h, q.phase, y.tokens[other].tag, q.live[other], other.group)
    {
      OtherTag(x.tokens, p.live, own, id, other);
      PopBuffered(x.h, x.tokens[id], p.phase, x.tokens[other].tag, p.live[other], other.group);
    }
  }

  lemma CommitBuffered(s: Async, tag: Tag, u: Tensor, group: nat)
    requires CommitForward(s).Ok? && Buffered(s, Forward, tag, u, group) && tag.group == group
    ensures Buffered(CommitForward(s).value, Forward, tag, u, group)
  {
    ForwardBuffers(s);
    ForwardShape(s);
  }

  lemma EndForwardBuffers(x: Session<Async>, p: Tape, own: map<Tag, SaveId>)
    requires Linked(x.tokens, p.live, own) && p.phase == Forward && BufInv(x, p) && AsyncStep(x, p, EndForward).Ok?
    ensures BufInv(AsyncStep(x, p, EndForward).value.0, Advance(p, EndForward))
  {
    var y, q := AsyncStep(x, p, EndForward).value.0, Advance(p, EndForward);
    forall id | id in q.live && q.live[id].Tracked()
      ensures id in y.tokens && y.tokens[id].Tagged? && Buffered(y.h, q.phase, y.tokens[id].tag, q.live[id], id.group)
    {
      assert own[x.tokens[id].tag] == id;
      CommitBuffered(x.h, x.tokens[id].tag, p.live[id], id.group);
    }
  }

  lemma ReopenBuffered(s: Async, phase: Phase, alloc: Key -> Key, tag: Tag, u: Tensor, group: nat)
    requires CommitBackward(s, alloc).Ok? && Buffered(s, phase, tag, u, group)
    requires phase == Forward && group < s.n ==> group < s.offloaded
    ensures Buffered(CommitBackward(s, alloc).value, Backward, tag, u, group)
  {
    BackwardDevice(s, alloc);
    BackwardShape(s, alloc);
  }

  /** When the first backward phase begins the counter has passed every group that has tensors. */
  lemma CounterAtEnd(s: Async, phase: Phase)
    requires Schedule(s) && Progress(s, phase) && s.group > 0 && (phase == Forward ==> s.group == s.l)
    ensures phase == Forward ==> s.offloaded == Min(s.n, s.l)
  {
    BackwardFollows(s.window, s.n, s.l, phase, s.group, s.offloaded);
  }

  lemma BeginBackwardBuffers(x: Session<Async>, p: Tape, alloc: Key -> Key)
    requires BufInv(x, p) && AsyncStep(x, p, BeginBackward(alloc)).Ok? && p.group > 0
    requires p.phase == Forward ==> forall id :: id in p.live && id.group < x.h.n ==> id.group < x.h.offloaded
    ensures BufInv(AsyncStep(x, p, BeginBackward(alloc)).value.0, Advance(p, BeginBackward(alloc)))
  {
    var y, q := AsyncStep(x, p, BeginBackward(alloc)).value.0, Advance(p, BeginBackward(alloc));
    forall id | id in q.live && q.live[id].Tracked()
      ensures id in y.tokens && y.tokens[id].Tagged? && Buffered(y.h, q.phase, y.tokens[id].tag, q.live[id], id.group)
    {
      ReopenBuffered(x.h, p.phase, alloc, x.tokens[id].tag, p.live[id], id.group);
    }
  }

  lemma BuffersKept(x: Session<Async>, p: Tape, e: Event, own: map<Tag, SaveId>)
    requires Inv(x, p, own) && Legal(x.h.l, p, e) && BufInv(x, p) && AsyncStep(x, p, e).Ok?
    ensures BufInv(AsyncStep(x, p, e).value.0, Advance(p, e))
  {
    match e
    case Save(t) =>
      CounterBehind(x.h);
      SaveBuffers(x, p, t, own);
    case Fetch(id) => FetchBuffers(x, p, id, own);
    case EndForward => EndForwardBuffers(x, p, own);
    case BeginBackward(alloc) =>
      CounterAtEnd(x.h, p.phase);
      BeginBackwardBuffers(x, p, alloc);
    case NextRound =>
  }

  // ---------------------------------------------------------------- which operations find tensors

  /** Something was produced in group g after the last drop of g. */
  ghost predicate Undropped(trace: seq<Op>, g: nat) {
    exists i: nat :: LastBefore(trace, i, |trace|, Produce, Drop, g)
  }

  /** A copy out of group g found tensors after the last reload of g. */
  ghost predicate AwaitsReload(trace: seq<Op>, g: nat) {
    exists i: nat :: Done(trace, i, |trace|, CopyOut, CopyIn, g)
  }

  /** Operation j finds tensors exactly when it should: a drop or a copy out if something was produced in its group since
      the last drop, a reload if a copy out of its group is not reloaded yet. */
  ghost predicate LiveAsNeeded(trace: seq<Op>, j: nat)
    requires j < |trace|
  {
    match trace[j].kind
    case Drop => trace[j].live <==> Undropped(trace[..j], trace[j].group)
    case CopyOut => trace[j].live <==> Undropped(trace[..j], trace[j].group)
    case CopyIn => trace[j].live <==> AwaitsReload(trace[..j], trace[j].group)
    case Produce => trace[j].live
    case Read => trace[j].live
  }

  ghost predicate AllAsNeeded(trace: seq<Op>) { forall j: nat :: j < |trace| ==> LiveAsNeeded(trace, j) }

  lemma UndroppedMore(st: Streams, kind: OpKind, h: nat, live: bool, g: nat)
    ensures Undropped(st.Issue(kind, h, live).trace, g) <==>
            if h == g && kind == Produce then true else if h == g && kind == Drop then false else Undropped(st.trace, g)
  {
    var t, n := st.Issue(kind, h, live).trace, |st.trace|;
    assert forall x :: 0 <= x < n ==> t[x] == st.trace[x];
    assert t[n].kind == kind && t[n].group == h && t[n].live == live;
    if Undropped(t, g) {
      var i: nat :| LastBefore(t, i, |t|, Produce, Drop, g);
      if i < n && !(h == g && kind == Drop) { assert LastBefore(st.trace, i, n, Produce, Drop, g); }
    }
    if Undropped(st.trace, g) && !(h == g && kind == Drop) {
      var i: nat :| LastBefore(st.trace, i, n, Produce, Drop, g);
      assert LastBefore(t, i, |t|, Produce, Drop, g);
    }
    if h == g && kind == Produce { assert LastBefore(t, n, |t|, Produce, Drop, g); }
  }

  lemma AwaitsMore(st: Streams, kind: OpKind, h: nat, live: bool, g: nat)
    ensures AwaitsReload(st.Issue(kind, h, live).trace, g) <==>
            if h == g && kind == CopyIn then false else AwaitsReload(st.trace, g) || (h == g && kind == CopyOut && live)
  {
    var t, n := st.Issue(kind, h, live).trace, |st.trace|;
    assert forall x :: 0 <= x < n ==> t[x] == st.trace[x];
    assert t[n].kind == kind && t[n].group == h && t[n].live == live;
    if AwaitsReload(t, g) {
      var i: nat :| Done(t, i, |t|, CopyOut, CopyIn, g);
      if i < n && !(h == g && kind == CopyIn) { assert Done(st.trace, i, n, CopyOut, CopyIn, g); }
    }
    if AwaitsReload(st.trace, g) && !(h == g && kind == CopyIn) {
      var i: nat :| Done(st.trace, i, n, CopyOut, CopyIn, g);
      assert Done(t, i, |t|, CopyOut, CopyIn, g);
    }
    if h == g && kind == CopyOut && live { assert Done(t, n, |t|, CopyOut, CopyIn, g); }
  }

  /** What the next operation must be. */
  ghost predicate Needed(st: Streams, kind: OpKind, g: nat, live: bool) {
    match kind
    case Drop => live <==> Undropped(st.trace, g)
    case CopyOut => live <==> Undropped(st.trace, g)
    case CopyIn => live <==> AwaitsReload(st.trace, g)
    case Produce => live
    case Read => live
  }

  lemma IssueNeeded(st: Streams, kind: OpKind, g: nat, live: bool)
    requires AllAsNeeded(st.trace) && Needed(st, kind, g, live)
    ensures AllAsNeeded(st.Issue(kind, g, live).trace)
  {
    var t := st.Issue(kind, g, live).trace;
    forall j: nat | j < |t| ensures LiveAsNeeded(t, j) {
      if j < |st.trace| {
        assert t[..j] == st.trace[..j] && LiveAsNeeded(st.trace, j);
      } else {
        assert t[..j] == st.trace;
      }
    }
  }

  /** The handler's maps mirror the trace: a group holds buffers while it is undropped, and host copies while they
      await their reload. */
  ghost predicate Mirrors(s: Async, st: Streams) {
    && AllAsNeeded(st.trace)
    && (forall g: nat :: g < s.n ==> (HasHeld(s.bufs, g) <==> Undropped(st.trace, g)))
    && (forall g: nat :: HasHost(s.host, g) <==> AwaitsReload(st.trace, g))
  }

  ghost predicate HasHost(host: map<nat, map<Key, seq<int>>>, g: nat) { g in host && |host[g]| > 0 }

  /** In forward, from the counter on, a group has tags exactly when it has buffers. */
  ghost predicate TagsAreHeld(s: Async) {
    forall g: nat :: s.offloaded <= g < s.n ==> (HasGroup(s.slots, g) <==> HasHeld(s.bufs, g))
  }

  lemma ForwardTagsHeld(x: Session<Async>, p: Tape, own: map<Tag, SaveId>)
    requires Inv(x, p, own) && BufInv(x, p) && p.phase == Forward
    ensures TagsAreHeld(x.h)
  {
    forall g: nat | x.h.offloaded <= g < x.h.n ensures HasGroup(x.h.slots, g) <==> HasHeld(x.h.bufs, g) {
      if HasGroup(x.h.slots, g) {
        var tag :| tag in x.h.slots && tag.group == g;
        HeldTag(x, p, own, tag);
      }
      if HasHeld(x.h.bufs, g) {
        var tag :| tag in x.h.bufs && tag.group == g;
        assert tag in x.h.slots;
      }
    }
  }

  lemma HeldTag(x: Session<Async>, p: Tape, own: map<Tag, SaveId>, tag: Tag)
    requires Inv(x, p, own) && BufInv(x, p) && tag in x.h.slots
    ensures tag in x.h.bufs <==> tag.group < x.h.n
    ensures tag in x.h.bufs ==> (x.h.bufs[tag].Held? <==> p.phase == Forward && tag.group >= x.h.offloaded)
  {
    assert tag in own;
    var id := own[tag];
    assert x.tokens[id] == Tagged(tag) && id.group == tag.group;
    assert Buffered(x.h, p.phase, tag, p.live[id], id.group);
  }

  lemma NothingHeldBehind(x: Session<Async>, p: Tape, own: map<Tag, SaveId>)
    requires Inv(x, p, own) && BufInv(x, p) && p.phase == Backward
    ensures forall tag :: tag in x.h.bufs ==> x.h.bufs[tag].Freed?
  {
    forall tag | tag in x.h.bufs ensures x.h.bufs[tag].Freed? { HeldTag(x, p, own, tag); }
  }

  // ---------------------------------------------------------------- every step keeps the mirror

  lemma SaveMirrors(s: Async, st: Streams, t: Tensor)
    requires Mirrors(s, st) && Push(s, t).Ok? && s.bufs.Keys <= s.slots.Keys
    ensures Mirrors(Push(s, t).value.0, PushStreams(s, st, t))
  {
    if t.Tracked() {
      var r, r' := Push(s, t).value.0, PushStreams(s, st, t);
      IssueNeeded(st, Produce, s.group, true);
      forall g: nat | g < s.n ensures HasHeld(r.bufs, g) <==> Undropped(r'.trace, g) {
        UndroppedMore(st, Produce, s.group, true, g);
        HeldAfterPush(s, t, g);
      }
      forall g: nat ensures HasHost(r.host, g) <==> AwaitsReload(r'.trace, g) { AwaitsMore(st, Produce, s.group, true, g); }
    }
  }

  lemma HeldAfterPush(s: Async, t: Tensor, g: nat)
    requires Push(s, t).Ok? && t.Tracked() && g < s.n && s.bufs.Keys <= s.slots.Keys
    ensures HasHeld(Push(s, t).value.0.bufs, g) <==> HasHeld(s.bufs, g) || g == s.group
  {
    var r, new_ := Push(s, t).value.0, Tag(s.group, s.count);
    if g == s.group { assert r.bufs[new_].Held?; }
    if HasHeld(s.bufs, g) {
      var tag :| tag in s.bufs && tag.group == g && s.bufs[tag].Held?;
      assert r.bufs[tag].Held?;
    }
  }

  lemma FetchMirrors(s: Async, st: Streams, token: Token)
    requires Mirrors(s, st) && Pop(s, token).Ok? && forall tag :: tag in s.bufs ==> s.bufs[tag].Freed?
    ensures Mirrors(Pop(s, token).value.0, PopStreams(st, token))
  {
    if token.Tagged? {
      var h, r, r' := token.tag.group, Pop(s, token).value.0, PopStreams(st, token);
      IssueNeeded(st, Read, h, true);
      forall g: nat | g < s.n ensures HasHeld(r.bufs, g) <==> Undropped(r'.trace, g) { UndroppedMore(st, Read, h, true, g); }
      forall g: nat ensures HasHost(r.host, g) <==> AwaitsReload(r'.trace, g) { AwaitsMore(st, Read, h, true, g); }
    }
  }

  /** A bulk copy out leaves host copies exactly if it found tensors. */
  lemma OffloadHosts(s: Async, c: nat)
    requires BulkOffload(s, c).Ok?
    ensures var r := BulkOffload(s, c).value;
            && r == s.(slots := r.slots, host := r.host) && r.slots.Keys == s.slots.Keys
            && (HasHost(r.host, c) <==> HasGroup(s.slots, c))
            && forall g: nat :: g != c ==> (HasHost(r.host, g) <==> HasHost(s.host, g))
  {
    OffloadEvicts(s, c);
    KeysOfGroup(s.slots, c);
    var m := map k | k in KeysOf(s.slots, c) :: FlatOf(s.slots, c, k);
    assert m.Keys == KeysOf(s.slots, c) && |m| == |m.Keys|;
    assert BulkOffload(s, c).value.host == s.host[c := m];
  }

  lemma CopyMirrors(s: Async, st: Streams, c: nat)
    requires Mirrors(s, st) && BulkOffload(s, c).Ok? && (HasGroup(s.slots, c) <==> Undropped(st.trace, c))
    requires !HasHost(s.host, c)
    ensures Mirrors(BulkOffload(s, c).value, st.Issue(CopyOut, c, HasGroup(s.slots, c)))
  {
    var has := HasGroup(s.slots, c);
    var r, r' := BulkOffload(s, c).value, st.Issue(CopyOut, c, has);
    OffloadHosts(s, c);
    IssueNeeded(st, CopyOut, c, has);
    forall g: nat | g < s.n ensures HasHeld(r.bufs, g) <==> Undropped(r'.trace, g) { UndroppedMore(st, CopyOut, c, has, g); }
    forall g: nat ensures HasHost(r.host, g) <==> AwaitsReload(r'.trace, g) { AwaitsMore(st, CopyOut, c, has, g); }
  }

  lemma DropMirrors(s: Async, st: Streams, c: nat)
    requires Mirrors(s, st) && c < s.n
    ensures Mirrors(s.(bufs := FreeGroup(s.bufs, c)), st.Issue(Drop, c, HasHeld(s.bufs, c)))
  {
    var held := HasHeld(s.bufs, c);
    var r, r' := FreeGroup(s.bufs, c), st.Issue(Drop, c, held);
    IssueNeeded(st, Drop, c, held);
    forall g: nat | g < s.n ensures HasHeld(r, g) <==> Undropped(r'.trace, g) {
      UndroppedMore(st, Drop, c, held, g);
      HeldAfterFree(s.bufs, c, g);
    }
    forall g: nat ensures HasHost(s.host, g) <==> AwaitsReload(r'.trace, g) { AwaitsMore(st, Drop, c, held, g); }
  }

  lemma HeldAfterFree(bufs: map<Tag, Buf>, c: nat, g: nat)
    ensures HasHeld(FreeGroup(bufs, c), g) <==> g != c && HasHeld(bufs, g)
  {
    if g != c && HasHeld(bufs, g) {
      var tag :| tag in bufs && tag.group == g && bufs[tag].Held?;
      assert FreeGroup(bufs, c)[tag].Held?;
    }
  }

  lemma SameMirror(s: Async, st: Streams, st': Streams)
    requires Mirrors(s, st) && st'.trace == st.trace
    ensures Mirrors(s, st')
  {}

  lemma CloseMirrors(s: Async, st: Streams)
    requires Mirrors(s, st) && TagsAreHeld(s) && CloseWindow(s).Ok? && s.offloaded < s.n
    requires !HasHost(s.host, s.offloaded + 1)
    ensures s.offloaded in s.window && Mirrors(CloseWindow(s).value, WindowStreams(s, st))
  {
    var c := s.offloaded;
    var s1 := s.(bufs := FreeGroup(s.bufs, c));
    if s.window[c] == s.group {
      var w := st.Wait(D2H, Compute).Wait(Compute, D2H);
      SameMirror(s, st, w);
      DropMirrors(s, w, c);
      if c + 1 < s.n {
        HeldAfterFree(s.bufs, c, c + 1);
        CopyMirrors(s1, w.Issue(Drop, c, HasHeld(s.bufs, c)), c + 1);
        CloseWindowHit(s, s1);
      } else {
        CloseWindowMiss(s);
      }
    } else {
      CloseWindowMiss(s);
    }
  }

  /** What the forward commit relies on: the groups copied next have no host copy yet. */
  ghost predicate NothingAhead(s: Async) {
    if s.group == 0 then s.offloaded == 0 && forall g: nat :: !HasHost(s.host, g) else !HasHost(s.host, s.offloaded + 1)
  }

  lemma ForwardMirrors(s: Async, st: Streams)
    requires Mirrors(s, st) && TagsAreHeld(s) && CommitForward(s).Ok? && s.offloaded < s.n && NothingAhead(s)
    ensures Mirrors(CommitForward(s).value, ForwardStreams(s, st))
  {
    var s1, st1 := s, st;
    if s.group == 0 {
      var w := st.Wait(D2H, Compute);
      SameMirror(s, st, w);
      CopyMirrors(s, w, 0);
      OffloadHosts(s, 0);
      s1, st1 := BulkOffload(s, 0).value, w.Issue(CopyOut, 0, HasGroup(s.slots, 0));
      SameHeld(s, s1);
      SameTag(s, s1, s.offloaded + 1);
    }
    ForwardSplit(s, s1);
    CloseMirrors(s1, st1);
    SameWindow(s, s1, st1);
  }

  lemma SameTag(s: Async, r: Async, g: nat)
    requires r.slots.Keys == s.slots.Keys
    ensures HasGroup(r.slots, g) <==> HasGroup(s.slots, g)
  {
    assert forall tag :: tag in r.slots <==> tag in s.slots;
  }

  lemma SameHeld(s: Async, s1: Async)
    requires TagsAreHeld(s) && s1.slots.Keys == s.slots.Keys && s1.bufs == s.bufs && s1.offloaded == s.offloaded && s1.n == s.n
    ensures TagsAreHeld(s1)
  {
    forall g: nat | s1.offloaded <= g < s1.n ensures HasGroup(s1.slots, g) <==> HasHeld(s1.bufs, g) { SameTag(s, s1, g); }
  }

  lemma SameWindow(s: Async, s1: Async, st: Streams)
    requires s.offloaded in s.window && s1 == s.(slots := s1.slots, host := s1.host) && s1.slots.Keys == s.slots.Keys
    ensures WindowStreams(s1, st) == WindowStreams(s, st)
  {
    SameTag(s, s1, s.offloaded + 1);
  }

  lemma BackwardMirrors(s: Async, st: Streams, alloc: Key -> Key)
    requires Mirrors(s, st) && CommitBackward(s, alloc).Ok?
    ensures s.group > 0 && Mirrors(CommitBackward(s, alloc).value, BackwardStreams(s, st))
  {
    BackwardShape(s, alloc);
    BackwardDevice(s, alloc);
    var r := CommitBackward(s, alloc).value;
    if s.window[s.offloaded - 1] == s.group - 1 {
      ReloadHosts(s, alloc);
      ReloadMirrors(s, st, r, s.offloaded - 1);
    } else {
      BackwardMiss(s, alloc);
    }
  }

  lemma ReloadHosts(s: Async, alloc: Key -> Key)
    requires CommitBackward(s, alloc).Ok? && s.offloaded > 0 && s.offloaded - 1 in s.window && s.window[s.offloaded - 1] == s.group - 1
    ensures CommitBackward(s, alloc).value.host == s.host - {s.offloaded - 1}
  {
    BackwardHit(s, alloc);
  }

  lemma ReloadMirrors(s: Async, st: Streams, r: Async, c: nat)
    requires Mirrors(s, st) && s.group > 0 && s.offloaded == c + 1 && c in s.window && s.window[c] == s.group - 1
    requires r.n == s.n && r.bufs == s.bufs && r.host == s.host - {c}
    ensures Mirrors(r, BackwardStreams(s, st))
  {
    var w, live := st.Wait(H2D, Compute).Wait(Compute, H2D), c in s.host && |s.host[c]| > 0;
    var st1 := w.Issue(CopyIn, c, live);
    SameMirror(s, st, w);
    assert HasHost(s.host, c) <==> live;
    IssueNeeded(w, CopyIn, c, live);
    forall g: nat | g < r.n ensures HasHeld(r.bufs, g) <==> Undropped(st1.trace, g) { UndroppedMore(w, CopyIn, c, live, g); }
    forall g: nat ensures HasHost(r.host, g) <==> AwaitsReload(st1.trace, g) { AwaitsMore(w, CopyIn, c, live, g); }
    SameMirror(r, st1, BackwardStreams(s, st));
  }

  // ---------------------------------------------------------------- whole runs

  /** Host entries stand only for groups copied out and not yet reloaded; that of group l, if l < n, is empty. */
  ghost predicate HostInv(s: Async) { s.l < s.n ==> !HasHost(s.host, s.l) }

  lemma HostKept(x: Session<Async>, p: Tape, e: Event)
    requires InLayers(x.h) && x.h.l > 0 && AsyncStep(x, p, e).Ok? && HostInv(x.h)
    ensures HostInv(AsyncStep(x, p, e).value.0.h)
  {
    match e
    case Save(t) =>
    case Fetch(id) =>
    case EndForward =>
      ForwardShape(x.h);
      if x.h.l < x.h.n { ForwardHost(x.h); }
    case BeginBackward(alloc) =>
      BackwardShape(x.h, alloc);
      if x.h.l < x.h.n { BackwardHostKept(x.h, alloc); }
    case NextRound =>
  }

  lemma NoTagOf(s: Async, g: nat)
    requires forall tag :: tag in s.slots ==> tag.group != g
    ensures !HasGroup(s.slots, g)
  {}

  lemma ForwardHost(s: Async)
    requires CommitForward(s).Ok? && InLayers(s) && !HasHost(s.host, s.l) && s.l > 0
    ensures CommitForward(s).value.l == s.l && !HasHost(CommitForward(s).value.host, s.l)
  {
    var s1 := s;
    if s.group == 0 {
      OffloadHosts(s, 0);
      s1 := BulkOffload(s, 0).value;
    }
    ForwardSplit(s, s1);
    ForwardShape(s);
    CloseHost(s1);
  }

  lemma CloseHost(s: Async)
    requires CloseWindow(s).Ok? && InLayers(s) && !HasHost(s.host, s.l)
    ensures !HasHost(CloseWindow(s).value.host, s.l)
  {
    var s1 := s.(bufs := FreeGroup(s.bufs, s.offloaded));
    if s.window[s.offloaded] == s.group && s.offloaded + 1 < s.n {
      CloseWindowHit(s, s1);
      OffloadHosts(s1, s.offloaded + 1);
      NoTagOf(s, s.l);
    } else {
      CloseWindowMiss(s);
    }
  }

  lemma BackwardHostKept(s: Async, alloc: Key -> Key)
    requires CommitBackward(s, alloc).Ok? && !HasHost(s.host, s.l)
    ensures CommitBackward(s, alloc).value.l == s.l && !HasHost(CommitBackward(s, alloc).value.host, s.l)
  {
    BackwardShape(s, alloc);
    if s.window[s.offloaded - 1] == s.group - 1 { BackwardHit(s, alloc); } else { BackwardMiss(s, alloc); }
  }

  lemma AheadIsEmpty(s: Async)
    requires Control(s, Forward) && HostInv(s) && s.group < s.l
    ensures NothingAhead(s) && s.offloaded < s.n
  {
    ForwardFollows(s.window, s.n, s.l, s.group, s.offloaded);
    if s.group == 0 { CounterBehind(s); }
  }

  ghost predicate Mirrored(x: Session<Async>, st: Streams, p: Tape, own: map<Tag, SaveId>) {
    Inv(x, p, own) && BufInv(x, p) && HostInv(x.h) && Mirrors(x.h, st)
  }

  lemma MirrorStep(x: Session<Async>, st: Streams, p: Tape, e: Event, own: map<Tag, SaveId>)
    requires Mirrored(x, st, p, own) && Legal(x.h.l, p, e) && AsyncStep(x, p, e).Ok?
    ensures Mirrors(AsyncStep(x, p, e).value.0.h, StreamStep(x, st, e))
  {
    match e
    case Save(t) => SaveMirrors(x.h, st, t);
    case Fetch(id) =>
      NothingHeldBehind(x, p, own);
      FetchMirrors(x.h, st, x.tokens[id]);
    case EndForward =>
      ForwardTagsHeld(x, p, own);
      AheadIsEmpty(x.h);
      ForwardMirrors(x.h, st);
    case BeginBackward(alloc) => BackwardMirrors(x.h, st, alloc);
    case NextRound =>
  }

  lemma StepMirrored(x: Session<Async>, st: Streams, p: Tape, e: Event, own: map<Tag, SaveId>) returns (own': map<Tag, SaveId>)
    requires Mirrored(x, st, p, own) && Legal(x.h.l, p, e)
    ensures AsyncStep(x, p, e).Ok?
    ensures var y := AsyncStep(x, p, e).value.0;
            Mirrored(y, StreamStep(x, st, e), Advance(p, e), own') && y.h.n == x.h.n && y.h.l == x.h.l
  {
    own' := StepKeeps(x, p, e, own);
    BuffersKept(x, p, e, own);
    HostKept(x, p, e);
    MirrorStep(x, st, p, e, own);
  }

  lemma {:induction false} RunMirrored(x: Session<Async>, st: Streams, p: Tape, es: seq<Event>, own: map<Tag, SaveId>)
    returns (own': map<Tag, SaveId>)
    requires Mirrored(x, st, p, own) && LegalRun(x.h.l, p, es)
    ensures AsyncRun(x, p, es).Ok?
    ensures var y := AsyncRun(x, p, es).value.0;
            Mirrored(y, StreamRun(x, st, p, es), Replay(p, es).0, own') && y.h.n == x.h.n && y.h.l == x.h.l
    decreases |es|
  {
    own' := own;
    if es != [] {
      var own1 := StepMirrored(x, st, p, es[0], own);
      own' := RunMirrored(AsyncStep(x, p, es[0]).value.0, StreamStep(x, st, es[0]), Advance(p, es[0]), es[1..], own1);
    }
  }

  lemma InitMirrored(n: nat, l: nat)
    requires n > 0 && l > 0
    ensures Mirrored(Session(AsyncInit(n, l), map[]), IDLE, BLANK, map[])
  {
    InitInv(n, l);
  }

  /** The token of a save, and what the handler buffers for it: a stray or unwanted tensor is handed back as it is and
      never buffered; any other is buffered exactly if its group is offloaded at all, the tensor itself from the save
      until the window of its group closes, and nothing from then on. */
  ghost predicate KeepsBuffer(s: Async, phase: Phase, id: SaveId, token: Token, t: Tensor) {
    if t.stray || !t.wanted then token == Direct(t)
    else
      && token.Tagged? && token.tag.group == id.group
      && (id.group >= s.n ==> token.tag !in s.bufs)
      && (id.group < s.n ==> token.tag in s.bufs)
      && (id.group < s.n ==> s.bufs[token.tag] == if phase == Forward && id.group >= s.offloaded then Held(t) else Freed)
  }

  /** At every point of every legal run, for every number of offload groups and layers. */
  lemma BuffersAreExact(n: nat, l: nat, es: seq<Event>)
    requires n > 0 && l > 0 && LegalRun(l, BLANK, es)
    ensures AsyncRun(Session(AsyncInit(n, l), map[]), BLANK, es).Ok?
    ensures var x, p := AsyncRun(Session(AsyncInit(n, l), map[]), BLANK, es).value.0, Replay(BLANK, es).0;
            x.h.n == n && x.tokens.Keys == p.live.Keys
            && forall id :: id in p.live ==> KeepsBuffer(x.h, p.phase, id, x.tokens[id], p.live[id])
  {
    InitMirrored(n, l);
    var own := RunMirrored(Session(AsyncInit(n, l), map[]), IDLE, BLANK, es, map[]);
    var x, p := AsyncRun(Session(AsyncInit(n, l), map[]), BLANK, es).value.0, Replay(BLANK, es).0;
    forall id | id in p.live ensures KeepsBuffer(x.h, p.phase, id, x.tokens[id], p.live[id]) { KeptFor(x, p, own, id); }
  }

  lemma KeptFor(x: Session<Async>, p: Tape, own: map<Tag, SaveId>, id: SaveId)
    requires Linked(x.tokens, p.live, own) && BufInv(x, p) && id in p.live
    ensures KeepsBuffer(x.h, p.phase, id, x.tokens[id], p.live[id])
  {
    if p.live[id].Tracked() {
      assert own[x.tokens[id].tag] == id;
      assert Buffered(x.h, p.phase, x.tokens[id].tag, p.live[id], id.group);
    }
  }

  /** At every point of every legal run every stream operation so far found tensors exactly when it should: in
      particular the drop of a group is live if anything was produced in the group since its last drop. */
  lemma OperationsAreLive(n: nat, l: nat, es: seq<Event>)
    requires n > 0 && l > 0 && LegalRun(l, BLANK, es)
    ensures AllAsNeeded(StreamRun(Session(AsyncInit(n, l), map[]), IDLE, BLANK, es).trace)
  {
    InitMirrored(n, l);
    var own := RunMirrored(Session(AsyncInit(n, l), map[]), IDLE, BLANK, es, map[]);
  }
}
