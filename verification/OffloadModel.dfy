/** The activation-offload handlers as state machines over values.

    Three machines share the events of an autograd engine: `Tape`, which simply remembers
    every saved tensor; `Sync`, the handler that copies on the compute stream; and `Async`,
    the double-buffered handler with two side streams. */
module OffloadModel {
  import opened Results

  // ---------------------------------------------------------------- tensors

  /** A storage address together with a dtype. */
  type Key = nat

  /** What a reader of a tensor sees. */
  datatype Value = Value(shape: seq<nat>, flat: seq<int>)

  /** `stray`: a fake or functional tensor.  `wanted`: the offloading checker accepts it. */
  datatype Tensor = Tensor(key: Key, shape: seq<nat>, flat: seq<int>, stray: bool, wanted: bool) {
    function Val(): Value { Value(shape, flat) }

    predicate Tracked() { !stray && wanted }

    predicate WellShaped() { |flat| == Numel(shape) }
  }

  function Numel(shape: seq<nat>): nat {
    if shape == [] then 1 else shape[0] * Numel(shape[1..])
  }

  datatype Tag = Tag(group: nat, idx: nat)

  /** What `tensor_push` hands back to autograd. */
  datatype Token = Tagged(tag: Tag) | Direct(tensor: Tensor)

  // ---------------------------------------------------------------- streams

  datatype Stream = Compute | D2H | H2D

  /** How many operations of each stream are known to be complete. */
  datatype Clock = Clock(compute: nat, d2h: nat, h2d: nat) {
    function Of(s: Stream): nat {
      match s case Compute => compute case D2H => d2h case H2D => h2d
    }

    function Join(c: Clock): Clock {
      Clock(Max(compute, c.compute), Max(d2h, c.d2h), Max(h2d, c.h2d))
    }

    function Tick(s: Stream): Clock {
      match s
      case Compute => this.(compute := compute + 1)
      case D2H => this.(d2h := d2h + 1)
      case H2D => this.(h2d := h2d + 1)
    }
  }

  function Max(a: nat, b: nat): nat { if a < b then b else a }

  /** `Produce`, `Read` and `Drop` touch a group's device memory on the compute stream. */
  datatype OpKind = Produce | Read | Drop | CopyOut | CopyIn

  /** The `idx`-th operation of its stream; `at` is what that stream had waited for.  `live` says
      whether it found a tensor to work on: a bulk call on a group without tensors touches no memory. */
  datatype Op = Op(kind: OpKind, group: nat, live: bool, idx: nat, at: Clock)

  function StreamOf(k: OpKind): Stream {
    if k == CopyOut then D2H else if k == CopyIn then H2D else Compute
  }

  datatype Streams = Streams(compute: Clock, d2h: Clock, h2d: Clock, trace: seq<Op>) {
    function Of(s: Stream): Clock {
      match s case Compute => compute case D2H => d2h case H2D => h2d
    }

    function Set(s: Stream, c: Clock): Streams {
      match s
      case Compute => this.(compute := c)
      case D2H => this.(d2h := c)
      case H2D => this.(h2d := c)
    }

    /** `a.wait_stream(b)`. */
    function Wait(a: Stream, b: Stream): Streams { Set(a, Of(a).Join(Of(b))) }

    /** Enqueues one operation on the stream its kind belongs to. */
    function Issue(kind: OpKind, group: nat, live: bool): Streams {
      var s := StreamOf(kind);
      Set(s, Of(s).Tick(s)).(trace := trace + [Op(kind, group, live, Of(s).Of(s), Of(s))])
    }
  }

  const IDLE := Streams(Clock(0, 0, 0), Clock(0, 0, 0), Clock(0, 0, 0), [])

  /** The earlier operation `a` is complete before `b` may start. */
  predicate HappensBefore(a: Op, b: Op) { a.idx < b.at.Of(StreamOf(a.kind)) }

  /** Two operations touch the same group's memory from different streams. */
  predicate Conflict(a: Op, b: Op) {
    a.live && b.live && a.group == b.group && StreamOf(a.kind) != StreamOf(b.kind)
  }

  /** Any two operations on one group's memory, issued on different streams, are ordered. */
  ghost predicate RaceFree(trace: seq<Op>) {
    forall i, j | 0 <= i < j < |trace| && Conflict(trace[i], trace[j]) :: HappensBefore(trace[i], trace[j])
  }

  /** Operation i is of this kind and group, and no operation of kind `undo` on the group lies between it and j. */
  ghost predicate LastBefore(trace: seq<Op>, i: nat, j: nat, kind: OpKind, undo: OpKind, g: nat) {
    && i < j <= |trace| && trace[i].kind == kind && trace[i].group == g
    && forall k :: i < k < j ==> !(trace[k].kind == undo && trace[k].group == g)
  }

  /** Such an operation that found tensors. */
  ghost predicate Done(trace: seq<Op>, i: nat, j: nat, kind: OpKind, undo: OpKind, g: nat) {
    LastBefore(trace, i, j, kind, undo, g) && trace[i].live
  }

  /** A group's buffers are dropped only after a copy out of the group, with everything saved in it, is
      complete. */
  ghost predicate DropFollowsCopy(trace: seq<Op>, j: nat)
    requires j < |trace|
  {
    exists i: nat :: Done(trace, i, j, CopyOut, Produce, trace[j].group) && HappensBefore(trace[i], trace[j])
  }

  /** A group is read only after its reload is complete, which no copy out has undone. */
  ghost predicate ReadFollowsReload(trace: seq<Op>, j: nat)
    requires j < |trace|
  {
    exists i: nat :: Done(trace, i, j, CopyIn, CopyOut, trace[j].group) && HappensBefore(trace[i], trace[j])
  }

  /** Stream safety with n offload groups. */
  ghost predicate CopiesInTime(trace: seq<Op>, n: nat) {
    forall j: nat :: j < |trace| && trace[j].live ==> CopyInTime(trace, j, n)
  }

  ghost predicate CopyInTime(trace: seq<Op>, j: nat, n: nat)
    requires j < |trace|
  {
    && (trace[j].kind == Drop ==> DropFollowsCopy(trace, j))
    && (trace[j].kind == Read && trace[j].group < n ==> ReadFollowsReload(trace, j))
  }

  /** The groups of the operations of one kind, in issue order. */
  function GroupsOf(trace: seq<Op>, kind: OpKind): seq<nat> {
    if trace == [] then []
    else
      var last := trace[|trace| - 1];
      var front := GroupsOf(trace[..|trace| - 1], kind);
      if last.kind == kind then front + [last.group] else front
  }

  // ---------------------------------------------------------------- the asynchronous handler

  datatype Slot = Device(tensor: Tensor) | Evicted(key: Key, shape: seq<nat>)
  datatype Buf = Held(tensor: Tensor) | Freed

  datatype Async = Async(
    n: nat, l: nat, window: map<nat, int>,
    group: nat, count: nat, offloaded: nat,
    slots: map<Tag, Slot>, bufs: map<Tag, Buf>, host: map<nat, map<Key, seq<int>>>)

  /** Entry `i` of the window map: the group at whose commit group `i` is freed. */
  function WindowAt(n: nat, l: nat, i: nat): int
    requires n > 0
  {
    l / n * (i + 1) - 1 + (if i < l % n then i + 1 else l % n)
  }

  function WindowMap(n: nat, l: nat): map<nat, int> {
    map i: nat | 0 <= i < n :: WindowAt(n, l, i)
  }

  function AsyncInit(n: nat, l: nat): Async {
    Async(n, l, WindowMap(n, l), 0, 0, 0, map[], map[], map[])
  }

  function Push(s: Async, t: Tensor): Result<(Async, Token)> {
    if !t.Tracked() then Ok((s, Direct(t)))
    else
      var tag := Tag(s.group, s.count);
      if tag in s.slots then Raise(AssertionError)
      else
        Ok((s.(count := s.count + 1,
               slots := s.slots[tag := Device(t)],
               bufs := if s.group < s.n then s.bufs[tag := Held(t)] else s.bufs),
            Tagged(tag)))
  }

  function Pop(s: Async, token: Token): Result<(Async, Tensor)> {
    match token
    case Direct(t) => Ok((s, t))
    case Tagged(tag) =>
      if tag !in s.slots || s.slots[tag].Evicted? then Raise(AssertionError)
      else
        Ok((s.(slots := s.slots - {tag}, bufs := s.bufs - {tag}), s.slots[tag].tensor))
  }

  /** The distinct keys of the tensors of group `g` that are on the device. */
  ghost function KeysOf(slots: map<Tag, Slot>, g: nat): set<Key> {
    set tag | tag in slots && tag.group == g && slots[tag].Device? :: slots[tag].tensor.key
  }

  /** The content of one tensor of group `g` that has key `k`. */
  ghost function FlatOf(slots: map<Tag, Slot>, g: nat, k: Key): seq<int>
    requires k in KeysOf(slots, g)
  {
    var tag :| tag in slots && tag.group == g && slots[tag].Device? && slots[tag].tensor.key == k;
    slots[tag].tensor.flat
  }

  function Evict(slots: map<Tag, Slot>, g: nat): map<Tag, Slot> {
    map tag | tag in slots ::
      if tag.group == g && slots[tag].Device? then Evicted(slots[tag].tensor.key, slots[tag].tensor.shape)
      else slots[tag]
  }

  ghost function BulkOffload(s: Async, g: nat): Result<Async> {
    if exists tag :: tag in s.slots && tag.group == g && s.slots[tag].Evicted? then Raise(AssertionError)
    else
      Ok(s.(slots := Evict(s.slots, g),
            host := s.host[g := map k | k in KeysOf(s.slots, g) :: FlatOf(s.slots, g, k)]))
  }

  function FreeGroup(bufs: map<Tag, Buf>, g: nat): map<Tag, Buf> {
    map tag | tag in bufs :: if tag.group == g then Freed else bufs[tag]
  }

  /** The part of the forward commit that runs when the window of the oldest group closes. */
  ghost function CloseWindow(s: Async): Result<Async> {
    if s.offloaded !in s.window then Raise(KeyError)
    else if s.window[s.offloaded] != s.group then Ok(s)
    else
      var s1 := s.(bufs := FreeGroup(s.bufs, s.offloaded));
      var s2 :- if s.offloaded + 1 < s.n then BulkOffload(s1, s.offloaded + 1) else Ok(s1);
      Ok(s2.(offloaded := s.offloaded + 1))
  }

  ghost function CommitForward(s: Async): Result<Async> {
    var s1 :- if s.group == 0 then BulkOffload(s, 0) else Ok(s);
    var s2 :- CloseWindow(s1);
    Ok(s2.(group := s.group + 1, count := 0))
  }

  /** A reloaded tensor lives wherever the allocator put the copy: `alloc`. */
  function Recover(slot: Slot, host: map<Key, seq<int>>, alloc: Key -> Key): Slot
    requires slot.Evicted? ==> slot.key in host
  {
    if slot.Device? then slot else Device(Tensor(alloc(slot.key), slot.shape, host[slot.key], false, true))
  }

  ghost function BulkReload(s: Async, g: nat, alloc: Key -> Key): Result<Async> {
    if g >= s.n then Raise(AssertionError)
    else if g !in s.host then Raise(KeyError)
    else if exists tag :: tag in s.slots && tag.group == g && s.slots[tag].Evicted? && s.slots[tag].key !in s.host[g]
    then Raise(KeyError)
    else if exists tag :: tag in s.slots && tag.group == g && s.slots[tag].Evicted?
                          && Numel(s.slots[tag].shape) != |s.host[g][s.slots[tag].key]|
    then Raise(ShapeError)
    else
      Ok(s.(slots := map tag | tag in s.slots ::
                       if tag.group == g then Recover(s.slots[tag], s.host[g], alloc) else s.slots[tag],
            host := s.host - {g}))
  }

  /** The part of the backward commit that runs when a window opens again. */
  ghost function OpenWindow(s: Async, alloc: Key -> Key): Result<Async> {
    if s.offloaded == 0 || s.offloaded - 1 !in s.window then Raise(KeyError)
    else if s.window[s.offloaded - 1] != s.group then Ok(s)
    else
      var s1 :- BulkReload(s, s.offloaded - 1, alloc);
      Ok(s1.(offloaded := if s.offloaded > 1 then s.offloaded - 1 else s.offloaded))
  }

  ghost function CommitBackward(s: Async, alloc: Key -> Key): Result<Async> {
    if s.group == 0 then Raise(AssertionError)
    else
      var s1 :- OpenWindow(s.(group := s.group - 1), alloc);
      Ok(if s1.group == 0 then s1.(offloaded := 0) else s1)
  }

  // ---------------------------------------------------------------- what it enqueues on its streams

  function PushStreams(s: Async, st: Streams, t: Tensor): Streams {
    if t.Tracked() then st.Issue(Produce, s.group, true) else st
  }

  function PopStreams(st: Streams, token: Token): Streams {
    if token.Tagged? then st.Issue(Read, token.tag.group, true) else st
  }

  /** Some tensor of the group is still known by its tag. */
  predicate HasGroup(slots: map<Tag, Slot>, g: nat) { exists tag :: tag in slots && tag.group == g }

  /** Some tensor of the group is still buffered. */
  predicate HasHeld(bufs: map<Tag, Buf>, g: nat) { exists tag :: tag in bufs && tag.group == g && bufs[tag].Held? }

  /** The waits and the drop when the window of the oldest group closes, and the next copy out. */
  function RotateStreams(s: Async, st: Streams): Streams {
    var st1 := st.Wait(D2H, Compute).Wait(Compute, D2H).Issue(Drop, s.offloaded, HasHeld(s.bufs, s.offloaded));
    if s.offloaded + 1 < s.n then st1.Issue(CopyOut, s.offloaded + 1, HasGroup(s.slots, s.offloaded + 1)) else st1
  }

  function WindowStreams(s: Async, st: Streams): Streams
    requires s.offloaded in s.window
  {
    if s.window[s.offloaded] == s.group then RotateStreams(s, st) else st
  }

  function ForwardStreams(s: Async, st: Streams): Streams {
    var st1 := if s.group == 0 then st.Wait(D2H, Compute).Issue(CopyOut, 0, HasGroup(s.slots, 0)) else st;
    if s.offloaded in s.window then WindowStreams(s, st1) else st1
  }

  /** The reload of the last offloaded group. */
  function ReloadStreams(s: Async, st: Streams, g: nat): Streams {
    st.Wait(H2D, Compute).Wait(Compute, H2D).Issue(CopyIn, g, g in s.host && |s.host[g]| > 0)
  }

  function BackwardStreams(s: Async, st: Streams): Streams
    requires s.group > 0
  {
    var st1 := if s.offloaded > 0 && s.offloaded - 1 in s.window && s.window[s.offloaded - 1] == s.group - 1
               then ReloadStreams(s, st, s.offloaded - 1)
               else st;
    if s.group == 1 then st1.Wait(Compute, H2D) else st1
  }

  // ---------------------------------------------------------------- the synchronous handler

  datatype SyncSlot = OnHost(value: Value) | OnDevice(tensor: Tensor) {
    function Val(): Value { if OnHost? then value else tensor.Val() }
  }

  datatype Sync = Sync(n: nat, group: nat, count: nat, slots: map<Tag, SyncSlot>)

  function SyncInit(n: nat): Sync { Sync(n, 0, 0, map[]) }

  function SyncPush(s: Sync, t: Tensor): Result<(Sync, Token)> {
    var tag := Tag(s.group, s.count);
    if tag in s.slots then Raise(AssertionError)
    else
      var slot := if s.group < s.n && t.wanted then OnHost(t.Val()) else OnDevice(t);
      Ok((s.(count := s.count + 1, slots := s.slots[tag := slot]), Tagged(tag)))
  }

  function SyncPop(s: Sync, token: Token): Result<(Sync, Value)> {
    if token.Direct? || token.tag !in s.slots then Raise(AssertionError)
    else Ok((s.(slots := s.slots - {token.tag}), s.slots[token.tag].Val()))
  }

  function SyncCommitForward(s: Sync): Sync { s.(group := s.group + 1, count := 0) }

  function SyncCommitBackward(s: Sync): Result<Sync> {
    if s.group == 0 then Raise(AssertionError) else Ok(s.(group := s.group - 1))
  }

  // ---------------------------------------------------------------- the autograd engine

  /** Names a saved tensor by its layer group and its position among that group's saves. */
  datatype SaveId = SaveId(group: nat, idx: nat)

  datatype Phase = Forward | Backward

  datatype Event =
    | Save(tensor: Tensor)
    | EndForward                        // a layer's forward is over: commit
    | BeginBackward(alloc: Key -> Key)  // a layer's backward starts: commit
    | Fetch(id: SaveId)
    | NextRound                         // a new training step

  /** What autograd itself remembers: the saved tensors not yet fetched. */
  datatype Tape = Tape(phase: Phase, group: nat, saves: nat, live: map<SaveId, Tensor>, rounds: nat)

  const BLANK := Tape(Forward, 0, 0, map[], 0)

  /** `l` forward phases, then `l` backward phases; every save is fetched in its own group's
      backward phase.  Tensors of one group with equal keys are assumed to have equal content. */
  ghost predicate Legal(l: nat, p: Tape, e: Event) {
    match e
    case Save(t) =>
      p.phase == Forward && p.group < l && t.WellShaped()
      && (t.Tracked() ==>
            forall id | id in p.live && id.group == p.group && p.live[id].Tracked() && p.live[id].key == t.key ::
              p.live[id].flat == t.flat)
    case EndForward => p.phase == Forward && p.group < l
    case BeginBackward(_) =>
      p.group > 0
      && (p.phase == Forward ==> p.group == l)
      && (p.phase == Backward ==> forall id :: id in p.live ==> id.group != p.group)
    case Fetch(id) => p.phase == Backward && id in p.live && id.group == p.group
    case NextRound => p.phase == Backward && p.group == 0 && p.live == map[]
  }

  function Advance(p: Tape, e: Event): Tape {
    match e
    case Save(t) => p.(saves := p.saves + 1, live := p.live[SaveId(p.group, p.saves) := t])
    case EndForward => p.(group := p.group + 1, saves := 0)
    case BeginBackward(_) => if p.group == 0 then p else p.(phase := Backward, group := p.group - 1)
    case Fetch(id) => p.(live := p.live - {id})
    case NextRound => p.(phase := Forward, rounds := p.rounds + 1)
  }

  /** The value a fetch must deliver. */
  function Expected(p: Tape, e: Event): seq<Value> {
    if e.Fetch? && e.id in p.live then [p.live[e.id].Val()] else []
  }

  ghost predicate LegalRun(l: nat, p: Tape, es: seq<Event>)
    decreases |es|
  {
    es == [] || (Legal(l, p, es[0]) && LegalRun(l, Advance(p, es[0]), es[1..]))
  }

  function Replay(p: Tape, es: seq<Event>): (Tape, seq<Value>)
    decreases |es|
  {
    if es == [] then (p, [])
    else
      var (q, vs) := Replay(Advance(p, es[0]), es[1..]);
      (q, Expected(p, es[0]) + vs)
  }

  // ---------------------------------------------------------------- handlers driven by autograd

  /** A handler together with the tokens autograd holds for the live saves. */
  datatype Session<H> = Session(h: H, tokens: map<SaveId, Token>)

  ghost function AsyncStep(x: Session<Async>, p: Tape, e: Event): Result<(Session<Async>, seq<Value>)> {
    match e
    case Save(t) =>
      var (h, token) :- Push(x.h, t);
      Ok((Session(h, x.tokens[SaveId(p.group, p.saves) := token]), []))
    case EndForward =>
      var h :- CommitForward(x.h);
      Ok((x.(h := h), []))
    case BeginBackward(alloc) =>
      var h :- CommitBackward(x.h, alloc);
      Ok((x.(h := h), []))
    case Fetch(id) =>
      if id !in x.tokens then Raise(KeyError)
      else
        var (h, t) :- Pop(x.h, x.tokens[id]);
        Ok((Session(h, x.tokens - {id}), [t.Val()]))
    case NextRound => Ok((x, []))
  }

  ghost function AsyncRun(x: Session<Async>, p: Tape, es: seq<Event>): Result<(Session<Async>, seq<Value>)>
    decreases |es|
  {
    if es == [] then Ok((x, []))
    else
      var (y, out) :- AsyncStep(x, p, es[0]);
      var (z, outs) :- AsyncRun(y, Advance(p, es[0]), es[1..]);
      Ok((z, out + outs))
  }

  function SyncStep(x: Session<Sync>, p: Tape, e: Event): Result<(Session<Sync>, seq<Value>)> {
    match e
    case Save(t) =>
      var (h, token) :- SyncPush(x.h, t);
      Ok((Session(h, x.tokens[SaveId(p.group, p.saves) := token]), []))
    case EndForward => Ok((x.(h := SyncCommitForward(x.h)), []))
    case BeginBackward(_) =>
      var h :- SyncCommitBackward(x.h);
      Ok((x.(h := h), []))
    case Fetch(id) =>
      if id !in x.tokens then Raise(KeyError)
      else
        var (h, v) :- SyncPop(x.h, x.tokens[id]);
        Ok((Session(h, x.tokens - {id}), [v]))
    case NextRound => Ok((x, []))
  }

  function SyncRun(x: Session<Sync>, p: Tape, es: seq<Event>): Result<(Session<Sync>, seq<Value>)>
    decreases |es|
  {
    if es == [] then Ok((x, []))
    else
      var (y, out) :- SyncStep(x, p, es[0]);
      var (z, outs) :- SyncRun(y, Advance(p, es[0]), es[1..]);
      Ok((z, out + outs))
  }
}
