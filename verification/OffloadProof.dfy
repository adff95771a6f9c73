/** The asynchronous handler returns every saved tensor, for all n, l >= 1. */
module OffloadProof {
  import opened Arith
  import opened OffloadModel
  import opened Results

  // ---------------------------------------------------------------- the window map

  lemma Scale(k: nat, q: nat, d: nat)
    requires k <= q
    ensures k * d <= q * d
  {}

  lemma Gap(q: nat, a: nat, b: nat)
    requires a <= b
    ensures q * b == q * a + q * (b - a)
  {}

  lemma Division(l: nat, n: nat)
    requires n > 0
    ensures l == l / n * n + l % n && l % n < n
    ensures l < n ==> l / n == 0
    ensures l >= n ==> l / n >= 1
  {}

  /** Group `c` is freed no earlier than its own commit; strictly later when n < l. */
  lemma WindowBounds(n: nat, l: nat, c: nat)
    requires c < Min(n, l)
    ensures c <= WindowAt(n, l, c) < l
    ensures n < l ==> c + 1 <= WindowAt(n, l, c)
    ensures c == Min(n, l) - 1 ==> WindowAt(n, l, c) == l - 1
  {
    Division(l, n);
    var q, r := l / n, l % n;
    if l < n {
      Scale(0, q, c + 1);
    } else {
      Gap(q, c + 1, n);
      Scale(1, q, n - (c + 1));
      Scale(1, q, c + 1);
      if q >= 2 { Scale(2, q, c + 1); }
    }
  }

  lemma WindowMonotone(n: nat, l: nat, c: nat, d: nat)
    requires c < d < Min(n, l)
    ensures WindowAt(n, l, c) < WindowAt(n, l, d)
  {
    Division(l, n);
    var q := l / n;
    Gap(q, c + 1, d + 1);
    if l >= n { Scale(1, q, d - c); }
  }

  // ---------------------------------------------------------------- what the proofs need of it

  /** The window map closes groups in order, never before they are complete, and the last one
      exactly at the last commit. */
  ghost predicate Sched(w: map<nat, int>, n: nat, l: nat) {
    && n > 0 && l > 0
    && (forall c: nat :: c in w <==> c < n)
    && w[Min(n, l) - 1] == l - 1
    && (forall c: nat :: c < Min(n, l) ==> c <= w[c] < l)
    && (forall c: nat, d: nat :: c < d < Min(n, l) ==> w[c] < w[d])
  }

  ghost predicate Schedule(s: Async) { Sched(s.window, s.n, s.l) }

  lemma EntryBounds(n: nat, l: nat, w: map<nat, int>, c: nat)
    requires c < Min(n, l) && w == WindowMap(n, l)
    ensures c in w && c <= w[c] < l
    ensures n < l ==> c + 1 <= w[c]
    ensures c == Min(n, l) - 1 ==> w[c] == l - 1
  {
    WindowBounds(n, l, c);
  }

  lemma EntryMonotone(n: nat, l: nat, w: map<nat, int>, c: nat, d: nat)
    requires c < d < Min(n, l) && w == WindowMap(n, l)
    ensures c in w && d in w && w[c] < w[d]
  {
    WindowMonotone(n, l, c, d);
  }

  lemma WindowDomain(n: nat, l: nat)
    ensures forall c: nat :: c in WindowMap(n, l) <==> c < n
  {}

  lemma AllBounds(n: nat, l: nat, w: map<nat, int>)
    requires n > 0 && l > 0 && w == WindowMap(n, l)
    ensures forall c: nat :: c < Min(n, l) ==> c in w && c <= w[c] < l
    ensures n < l ==> forall c: nat :: c < n ==> c in w && c + 1 <= w[c]
  {
    forall c: nat | c < Min(n, l) ensures c in w && c <= w[c] < l && (n < l ==> c + 1 <= w[c]) {
      EntryBounds(n, l, w, c);
    }
  }

  lemma AllMonotone(n: nat, l: nat, w: map<nat, int>)
    requires n > 0 && l > 0 && w == WindowMap(n, l)
    ensures forall c: nat, d: nat :: c < d < Min(n, l) ==> c in w && d in w && w[c] < w[d]
  {
    var m := Min(n, l);
    forall c: nat, d: nat | c < d < m ensures c in w && d in w && w[c] < w[d] {
      EntryMonotone(n, l, w, c, d);
      assert w[c] < w[d];
    }
    assert forall c: nat, d: nat :: c < d < m ==> c in w && d in w && w[c] < w[d];
  }

  lemma InitSchedule(n: nat, l: nat)
    requires n > 0 && l > 0
    ensures Schedule(AsyncInit(n, l))
  {
    var s := AsyncInit(n, l);
    assert s.window == WindowMap(n, l);
    assert s.n == n && s.l == l;
    assert forall c: nat :: c in s.window <==> c < s.n by { WindowDomain(n, l); }
    assert forall c: nat :: c < Min(s.n, s.l) ==> c <= s.window[c] < s.l by { AllBounds(n, l, s.window); }
    assert forall c: nat, d: nat :: c < d < Min(s.n, s.l) ==> s.window[c] < s.window[d] by {
      AllMonotone(n, l, s.window);
    }
    assert s.window[Min(s.n, s.l) - 1] == s.l - 1 by { EntryBounds(n, l, s.window, Min(n, l) - 1); }
  }

  // ---------------------------------------------------------------- the data invariant

  /** Tensors of one group with equal keys have equal content. */
  ghost predicate KeysFaithful(p: Tape) {
    forall i, j | i in p.live && j in p.live && i.group == j.group && p.live[i].Tracked() && p.live[j].Tracked()
                  && p.live[i].key == p.live[j].key :: p.live[i].flat == p.live[j].flat
  }

  ghost predicate TapeOk(l: nat, p: Tape) {
    && p.group <= l
    && (p.phase == Backward ==> p.group < l)
    && (forall i :: i in p.live ==>
          i.group <= p.group && i.group < l && p.live[i].WellShaped()
          && (p.phase == Forward && i.group == p.group ==> i.idx < p.saves))
  }

  /** `own` names the save behind each stored tag; it is inverse to the tokens. */
  ghost predicate Linked(tokens: map<SaveId, Token>, live: map<SaveId, Tensor>, own: map<Tag, SaveId>) {
    && tokens.Keys == live.Keys
    && (forall tag :: tag in own ==>
          own[tag] in live && live[own[tag]].Tracked() && tokens[own[tag]] == Tagged(tag)
          && own[tag].group == tag.group)
    && (forall i :: i in live ==>
          if live[i].Tracked() then tokens[i].Tagged? && tokens[i].tag in own && own[tokens[i].tag] == i
          else tokens[i] == Direct(live[i]))
  }

  /** A slot still determines the tensor saved in it; during forward a device slot is it. */
  ghost predicate Holds(slot: Slot, host: map<nat, map<Key, seq<int>>>, g: nat, t: Tensor, exact: bool) {
    match slot
    case Device(u) => u.Val() == t.Val() && (exact ==> u == t)
    case Evicted(k, shape) => shape == t.shape && g in host && k in host[g] && host[g][k] == t.flat
  }

  ghost predicate Contents(s: Async, live: map<SaveId, Tensor>, own: map<Tag, SaveId>, exact: bool) {
    && own.Keys == s.slots.Keys
    && (forall tag :: tag in s.slots ==>
          own[tag] in live && Holds(s.slots[tag], s.host, tag.group, live[own[tag]], exact))
  }

  ghost predicate TagsOk(s: Async, phase: Phase) {
    && (phase == Forward ==> forall tag :: tag in s.slots && tag.group == s.group ==> tag.idx < s.count)
    && s.bufs.Keys <= s.slots.Keys
    && (phase == Backward || s.group == s.l ==> s.count == 0)
  }

  /** The number of elements is the product of the dimensions. */
  lemma {:induction false} NumelIsProduct(a: seq<nat>, b: seq<nat>, d: nat)
    ensures Numel([]) == 1 && Numel([d]) == d && Numel(a + b) == Numel(a) * Numel(b)
  {
    if a == [] {
      assert a + b == b;
    } else {
      NumelIsProduct(a[1..], b, d);
      assert (a + b)[1..] == a[1..] + b;
      assert a[0] * (Numel(a[1..]) * Numel(b)) == (a[0] * Numel(a[1..])) * Numel(b);
    }
    assert [d][1..] == [];
  }

  // ---------------------------------------------------------------- the control invariant

  /** In backward: some group is still waiting to be reloaded. */
  ghost predicate Pending(s: Async)
    requires Schedule(s)
  {
    s.group > s.window[0]
  }

  /** The offload counter `off` follows the window map. */
  ghost predicate Follows(w: map<nat, int>, n: nat, l: nat, phase: Phase, group: nat, off: nat)
    requires Sched(w, n, l)
  {
    var m := Min(n, l);
    if phase == Forward then
      group <= l && off <= m && (off > 0 ==> w[off - 1] < group) && (off < m ==> group <= w[off])
    else if group == 0 then
      off == 0
    else
      && group < l && 1 <= off <= m
      && (if group > w[0] then w[off - 1] < group else off == 1)
      && (off < m ==> group <= w[off])
  }

  ghost predicate Progress(s: Async, phase: Phase)
    requires Schedule(s)
  {
    Follows(s.window, s.n, s.l, phase, s.group, s.offloaded)
  }

  /** Every group up to the counter has a host copy, and only those are evicted. */
  ghost predicate Copied(s: Async) {
    && (forall g :: g in s.host ==> g == s.l < s.n || (g <= s.offloaded && g < s.n))
    && (forall g: nat :: g <= s.offloaded && g < s.n ==> g in s.host)
    && (forall tag :: tag in s.slots && s.slots[tag].Evicted? ==> tag.group <= s.offloaded && tag.group < s.n)
  }

  /** Every group below the counter still has its host copy, and only those are evicted. */
  ghost predicate Waiting(s: Async) {
    && (forall g :: g in s.host ==> g == s.l < s.n || g < s.offloaded)
    && (forall g: nat :: g < s.offloaded ==> g in s.host)
    && (forall tag :: tag in s.slots && s.slots[tag].Evicted? ==> tag.group < s.offloaded)
  }

  /** Nothing is evicted and no host copy is left (but for the empty one of group l, if l < n). */
  ghost predicate Resident(s: Async) {
    && (forall g :: g in s.host ==> g == s.l < s.n)
    && (forall tag :: tag in s.slots ==> s.slots[tag].Device?)
  }

  ghost predicate Placed(s: Async, phase: Phase)
    requires Schedule(s)
  {
    if phase == Forward then (if s.group > 0 then Copied(s) else Resident(s))
    else (if Pending(s) then Waiting(s) else Resident(s))
  }

  ghost predicate InLayers(s: Async) {
    forall tag :: tag in s.slots ==> tag.group < s.l
  }

  ghost predicate Control(s: Async, phase: Phase) {
    Schedule(s) && Progress(s, phase) && Placed(s, phase) && InLayers(s)
  }

  ghost predicate Inv(x: Session<Async>, p: Tape, own: map<Tag, SaveId>) {
    && Control(x.h, p.phase)
    && x.h.group == p.group
    && TapeOk(x.h.l, p) && KeysFaithful(p)
    && Linked(x.tokens, p.live, own)
    && Contents(x.h, p.live, own, p.phase == Forward)
    && TagsOk(x.h, p.phase)
  }

  lemma InitInv(n: nat, l: nat)
    requires n > 0 && l > 0
    ensures Inv(Session(AsyncInit(n, l), map[]), BLANK, map[])
  {
    InitSchedule(n, l);
  }

  // ---------------------------------------------------------------- bulk copies

  /** Evicting a whole group loses nothing, because its keys are faithful. */
  lemma OffloadKeeps(s: Async, p: Tape, own: map<Tag, SaveId>, g: nat)
    requires KeysFaithful(p) && Contents(s, p.live, own, true) && Owned(p.live, own)
    requires BulkOffload(s, g).Ok?
    ensures Contents(BulkOffload(s, g).value, p.live, own, true)
  {
    var r := BulkOffload(s, g).value;
    assert forall tag :: tag in s.slots && tag.group == g ==> s.slots[tag].Device?;
    forall tag | tag in s.slots
      ensures Holds(r.slots[tag], r.host, tag.group, p.live[own[tag]], true)
    {
      if tag.group == g {
        var k := s.slots[tag].tensor.key;
        assert k in KeysOf(s.slots, g);
        var other :| other in s.slots && other.group == g && s.slots[other].Device?
                     && s.slots[other].tensor.key == k && FlatOf(s.slots, g, k) == s.slots[other].tensor.flat;
        assert s.slots[other].tensor == p.live[own[other]];
      }
    }
  }

  /** A bulk offload evicts exactly one group and adds exactly its host copy. */
  /** A group with tensors has a key, if none of them is offloaded yet. */
  lemma KeysOfGroup(slots: map<Tag, Slot>, g: nat)
    requires forall tag :: tag in slots && tag.group == g ==> slots[tag].Device?
    ensures HasGroup(slots, g) <==> |KeysOf(slots, g)| > 0
  {
    if HasGroup(slots, g) {
      var tag :| tag in slots && tag.group == g;
      assert slots[tag].tensor.key in KeysOf(slots, g);
    }
  }

  lemma OffloadControl(s: Async, g: nat)
    requires forall tag :: tag in s.slots && tag.group == g ==> s.slots[tag].Device?
    ensures BulkOffload(s, g).Ok?
    ensures var r := BulkOffload(s, g).value;
            && r == s.(slots := r.slots, host := r.host)
            && r.slots.Keys == s.slots.Keys
            && r.host.Keys == s.host.Keys + {g}
            && forall tag :: tag in s.slots ==> (r.slots[tag].Evicted? <==> s.slots[tag].Evicted? || tag.group == g)
  {}

  /** Reloading a group brings back every evicted tensor with its shape and content. */
  lemma ReloadKeeps(s: Async, p: Tape, own: map<Tag, SaveId>, g: nat, alloc: Key -> Key)
    requires Contents(s, p.live, own, false)
    requires forall i :: i in p.live ==> p.live[i].WellShaped()
    requires g < s.n && g in s.host
    ensures BulkReload(s, g, alloc).Ok?
    ensures Contents(BulkReload(s, g, alloc).value, p.live, own, false)
  {
    forall tag | tag in s.slots && tag.group == g && s.slots[tag].Evicted?
      ensures s.slots[tag].key in s.host[g]
      ensures Numel(s.slots[tag].shape) == |s.host[g][s.slots[tag].key]|
    {
      assert Holds(s.slots[tag], s.host, g, p.live[own[tag]], false);
    }
    var r := BulkReload(s, g, alloc).value;
    forall tag | tag in s.slots
      ensures Holds(r.slots[tag], r.host, tag.group, p.live[own[tag]], false)
    {
      assert Holds(s.slots[tag], s.host, tag.group, p.live[own[tag]], false);
    }
  }

  lemma ReloadControl(s: Async, g: nat, alloc: Key -> Key)
    requires BulkReload(s, g, alloc).Ok?
    ensures var r := BulkReload(s, g, alloc).value;
            && r == s.(slots := r.slots, host := r.host)
            && r.slots.Keys == s.slots.Keys
            && r.host.Keys == s.host.Keys - {g}
            && forall tag :: tag in s.slots ==> (r.slots[tag].Evicted? <==> s.slots[tag].Evicted? && tag.group != g)
  {}

  // ---------------------------------------------------------------- commits

  lemma FirstOffload(s: Async)
    requires Control(s, Forward) && s.group == 0
    ensures BulkOffload(s, 0).Ok?
    ensures Copied(BulkOffload(s, 0).value)
    ensures var r := BulkOffload(s, 0).value; r == s.(slots := r.slots, host := r.host)
  {
    OffloadControl(s, 0);
  }

  lemma CloseWindowPlaces(s: Async)
    requires Copied(s) && s.offloaded in s.window && s.offloaded < Min(s.n, s.l)
    ensures CloseWindow(s).Ok?
    ensures Copied(CloseWindow(s).value)
  {
    var c := s.offloaded;
    var s1 := s.(bufs := FreeGroup(s.bufs, c));
    if s.window[c] == s.group && c + 1 < s.n {
      OffloadControl(s1, c + 1);
      assert CloseWindow(s).value.host == BulkOffload(s1, c + 1).value.host;
    }
  }

  lemma ForwardFollows(w: map<nat, int>, n: nat, l: nat, group: nat, off: nat)
    requires Sched(w, n, l) && Follows(w, n, l, Forward, group, off) && group < l
    ensures off < Min(n, l)
    ensures Follows(w, n, l, Forward, group + 1, if w[off] == group then off + 1 else off)
  {
    var m := Min(n, l);
    assert off != m;
    if off + 1 < m { assert w[off] < w[off + 1]; }
  }

  lemma BackwardFollows(w: map<nat, int>, n: nat, l: nat, phase: Phase, group: nat, off: nat)
    requires Sched(w, n, l) && Follows(w, n, l, phase, group, off) && group > 0 && (phase == Forward ==> group == l)
    ensures 1 <= off <= Min(n, l)
    ensures phase == Forward ==> w[off - 1] == group - 1 && off == Min(n, l)
    ensures phase == Backward && group <= w[0] ==> w[off - 1] != group - 1
    ensures w[off - 1] != group - 1 && group > w[0] ==> group - 1 > w[0]
    ensures w[off - 1] == group - 1 ==> (off > 1 <==> group - 1 > w[0])
    ensures Follows(w, n, l, Backward, group - 1,
                    if group == 1 then 0 else if w[off - 1] == group - 1 && off > 1 then off - 1 else off)
  {
    var m := Min(n, l);
    assert off < m ==> w[off] < l;
    if off > 1 {
      assert w[0] < w[off - 1];
      assert w[off - 2] < w[off - 1];
      if off > 2 { assert w[0] < w[off - 2]; }
    }
  }

  lemma CloseWindowFrame(s: Async)
    requires CloseWindow(s).Ok?
    ensures var r := CloseWindow(s).value;
            && s.offloaded in s.window
            && r.n == s.n && r.l == s.l && r.window == s.window && r.group == s.group
            && r.offloaded == (if s.window[s.offloaded] == s.group then s.offloaded + 1 else s.offloaded)
            && r.slots.Keys == s.slots.Keys && r.bufs.Keys == s.bufs.Keys
  {}

  lemma ForwardParts(s: Async, s1: Async)
    requires if s.group == 0 then BulkOffload(s, 0) == Ok(s1) else s1 == s
    requires CloseWindow(s1).Ok?
    ensures CommitForward(s) == Ok(CloseWindow(s1).value.(group := s.group + 1, count := 0))
  {}

  lemma CopiedLater(s: Async, r: Async)
    requires Copied(s) && r == s.(group := r.group, count := r.count)
    ensures Copied(r)
  {}

  /** A forward commit never faults and keeps the control invariant. */
  lemma ForwardControl(s: Async)
    requires Control(s, Forward) && s.group < s.l
    ensures CommitForward(s).Ok?
    ensures Control(CommitForward(s).value, Forward)
  {
    var s1 := s;
    if s.group == 0 {
      FirstOffload(s);
      s1 := BulkOffload(s, 0).value;
    }
    ForwardFollows(s.window, s.n, s.l, s.group, s.offloaded);
    CloseWindowPlaces(s1);
    CloseWindowFrame(s1);
    ForwardParts(s, s1);
    CopiedLater(CloseWindow(s1).value, CommitForward(s).value);
  }

  lemma OpenWindowPlaces(s: Async, alloc: Key -> Key)
    requires Waiting(s) && InLayers(s) && s.offloaded > 0
    requires BulkReload(s, s.offloaded - 1, alloc).Ok?
    ensures var r := BulkReload(s, s.offloaded - 1, alloc).value;
            && r == s.(slots := r.slots, host := r.host) && InLayers(r)
            && if s.offloaded > 1 then Waiting(r.(offloaded := s.offloaded - 1)) else Resident(r)
  {
    ReloadControl(s, s.offloaded - 1, alloc);
  }

  lemma BackwardHit(s: Async, alloc: Key -> Key)
    requires s.group > 0 && s.offloaded > 0 && s.offloaded - 1 in s.window
    requires s.window[s.offloaded - 1] == s.group - 1
    requires BulkReload(s.(group := s.group - 1), s.offloaded - 1, alloc).Ok?
    ensures CommitBackward(s, alloc) ==
            Ok(BulkReload(s.(group := s.group - 1), s.offloaded - 1, alloc).value.(
               offloaded := if s.group == 1 then 0 else if s.offloaded > 1 then s.offloaded - 1 else s.offloaded))
  {}

  lemma BackwardMiss(s: Async, alloc: Key -> Key)
    requires s.group > 0 && s.offloaded > 0 && s.offloaded - 1 in s.window
    requires s.window[s.offloaded - 1] != s.group - 1
    ensures CommitBackward(s, alloc) ==
            Ok(s.(group := s.group - 1, offloaded := if s.group == 1 then 0 else s.offloaded))
  {}

  lemma ResidentLater(s: Async, r: Async)
    requires Resident(s) && r == s.(group := r.group, offloaded := r.offloaded)
    ensures Resident(r)
  {}

  lemma WaitingLater(s: Async, r: Async)
    requires Waiting(s) && r == s.(group := r.group)
    ensures Waiting(r)
  {}

  lemma AllOut(s: Async)
    requires Copied(s) && InLayers(s) && s.offloaded == Min(s.n, s.l)
    ensures Waiting(s)
  {}

  /** The group whose window opens has its host copy. */
  lemma HostHolds(s: Async, phase: Phase)
    requires Control(s, phase) && s.group > 0 && (phase == Forward ==> s.group == s.l)
    requires 1 <= s.offloaded <= Min(s.n, s.l) && (phase == Forward || Pending(s))
    ensures s.offloaded - 1 in s.host
  {}

  /** The window of the last offloaded group opens again. */
  lemma BackwardReloads(s: Async, phase: Phase, alloc: Key -> Key, r: Async)
    requires Control(s, phase) && s.group > 0 && (phase == Forward ==> s.group == s.l)
    requires 1 <= s.offloaded <= Min(s.n, s.l) && s.window[s.offloaded - 1] == s.group - 1
    requires s.offloaded > 1 <==> s.group - 1 > s.window[0]
    requires if phase == Forward then s.offloaded == Min(s.n, s.l) else Pending(s)
    requires BulkReload(s.(group := s.group - 1), s.offloaded - 1, alloc).Ok?
    requires r == BulkReload(s.(group := s.group - 1), s.offloaded - 1, alloc).value.(
                    offloaded := if s.group == 1 then 0 else if s.offloaded > 1 then s.offloaded - 1 else s.offloaded)
    ensures Schedule(r) && Placed(r, Backward) && InLayers(r)
  {
    var t := s.(group := s.group - 1);
    WaitingBefore(s, phase, t);
    OpenWindowPlaces(t, alloc);
    ReloadedPlaces(BulkReload(t, s.offloaded - 1, alloc).value, r);
  }

  lemma WaitingBefore(s: Async, phase: Phase, t: Async)
    requires Control(s, phase) && (phase == Forward ==> s.group == s.l > 0 && s.offloaded == Min(s.n, s.l))
    requires (phase == Forward || Pending(s)) && t == s.(group := t.group)
    ensures Waiting(t) && InLayers(t)
  {
    if phase == Forward { AllOut(s); }
    WaitingLater(s, t);
  }

  lemma ReloadedPlaces(t: Async, r: Async)
    requires Schedule(t) && t.offloaded > 0 && InLayers(t) && (t.offloaded > 1 <==> t.group > t.window[0])
    requires if t.offloaded > 1 then Waiting(t.(offloaded := t.offloaded - 1)) else Resident(t)
    requires r == t.(offloaded := if t.group == 0 then 0 else if t.offloaded > 1 then t.offloaded - 1 else t.offloaded)
    ensures Schedule(r) && Placed(r, Backward) && InLayers(r)
  {
    if t.offloaded <= 1 { ResidentLater(t, r); }
  }

  /** No window opens. */
  lemma BackwardPasses(s: Async, r: Async)
    requires Control(s, Backward) && s.group > 0 && 1 <= s.offloaded <= Min(s.n, s.l) && s.window[s.offloaded - 1] != s.group - 1
    requires s.group > s.window[0] ==> s.group - 1 > s.window[0]
    requires r == s.(group := s.group - 1, offloaded := if s.group == 1 then 0 else s.offloaded)
    ensures Schedule(r) && Placed(r, Backward) && InLayers(r)
  {
    if Pending(s) { WaitingLater(s, r); } else { ResidentLater(s, r); }
  }

  lemma BackwardHitControl(s: Async, phase: Phase, alloc: Key -> Key)
    requires Control(s, phase) && s.group > 0 && (phase == Forward ==> s.group == s.l)
    requires 1 <= s.offloaded <= Min(s.n, s.l) && s.window[s.offloaded - 1] == s.group - 1
    requires BulkReload(s.(group := s.group - 1), s.offloaded - 1, alloc).Ok?
    ensures CommitBackward(s, alloc).Ok? && Control(CommitBackward(s, alloc).value, Backward)
  {
    BackwardFollows(s.window, s.n, s.l, phase, s.group, s.offloaded);
    BackwardHit(s, alloc);
    BackwardReloads(s, phase, alloc, CommitBackward(s, alloc).value);
  }

  lemma BackwardMissControl(s: Async, phase: Phase, alloc: Key -> Key)
    requires Control(s, phase) && s.group > 0 && (phase == Forward ==> s.group == s.l)
    requires 1 <= s.offloaded <= Min(s.n, s.l) && s.window[s.offloaded - 1] != s.group - 1
    ensures CommitBackward(s, alloc).Ok? && Control(CommitBackward(s, alloc).value, Backward)
  {
    BackwardFollows(s.window, s.n, s.l, phase, s.group, s.offloaded);
    BackwardMiss(s, alloc);
    BackwardPasses(s, CommitBackward(s, alloc).value);
  }

  /** A backward commit never faults and keeps the control invariant. */
  lemma BackwardControl(s: Async, phase: Phase, alloc: Key -> Key)
    requires Control(s, phase) && s.group > 0 && (phase == Forward ==> s.group == s.l)
    requires forall g: nat :: g in s.host && g < s.n ==> BulkReload(s.(group := s.group - 1), g, alloc).Ok?
    ensures CommitBackward(s, alloc).Ok?
    ensures Control(CommitBackward(s, alloc).value, Backward)
  {
    BackwardFollows(s.window, s.n, s.l, phase, s.group, s.offloaded);
    if s.window[s.offloaded - 1] == s.group - 1 {
      HostHolds(s, phase);
      BackwardHitControl(s, phase, alloc);
    } else {
      BackwardMissControl(s, phase, alloc);
    }
  }

  // ---------------------------------------------------------------- one step

  ghost predicate StepGood(x: Session<Async>, p: Tape, e: Event, own: map<Tag, SaveId>) {
    var r := AsyncStep(x, p, e);
    && r.Ok? && r.value.1 == Expected(p, e) && Inv(r.value.0, Advance(p, e), own)
    && r.value.0.h.n == x.h.n && r.value.0.h.l == x.h.l
  }

  lemma LinkedSave(tokens: map<SaveId, Token>, live: map<SaveId, Tensor>, own: map<Tag, SaveId>,
                   id: SaveId, t: Tensor, tag: Tag)
    requires Linked(tokens, live, own) && id !in live && tag !in own && tag.group == id.group
    ensures Linked(tokens[id := if t.Tracked() then Tagged(tag) else Direct(t)], live[id := t],
                   if t.Tracked() then own[tag := id] else own)
  {}

  lemma LinkedFetch(tokens: map<SaveId, Token>, live: map<SaveId, Tensor>, own: map<Tag, SaveId>, id: SaveId)
    requires Linked(tokens, live, own) && id in live
    ensures Linked(tokens - {id}, live - {id}, if tokens[id].Tagged? then own - {tokens[id].tag} else own)
  {}

  lemma PushControl(s: Async, t: Tensor)
    requires Control(s, Forward) && s.group < s.l && Push(s, t).Ok?
    ensures Control(Push(s, t).value.0, Forward)
  {}

  lemma PushContents(s: Async, live: map<SaveId, Tensor>, own: map<Tag, SaveId>, id: SaveId, t: Tensor)
    requires Contents(s, live, own, true) && TagsOk(s, Forward) && id !in live && s.group < s.l
    ensures Push(s, t).Ok? && Tag(s.group, s.count) !in own
    ensures Push(s, t).value.1 == if t.Tracked() then Tagged(Tag(s.group, s.count)) else Direct(t)
    ensures var s' := Push(s, t).value.0;
            && s'.group == s.group && s'.l == s.l && TagsOk(s', Forward)
            && Contents(s', live[id := t], if t.Tracked() then own[Tag(s.group, s.count) := id] else own, true)
  {
    if t.Tracked() {
      TrackedContents(s, live, own, id, t);
    } else {
      DirectSaved(s, live, own, id, t);
    }
  }

  lemma DirectSaved(s: Async, live: map<SaveId, Tensor>, own: map<Tag, SaveId>, id: SaveId, t: Tensor)
    requires Contents(s, live, own, true) && id !in live
    ensures Contents(s, live[id := t], own, true)
  {}

  lemma TrackedContents(s: Async, live: map<SaveId, Tensor>, own: map<Tag, SaveId>, id: SaveId, t: Tensor)
    requires Contents(s, live, own, true) && id !in live && t.Tracked() && Push(s, t).Ok?
    ensures Contents(Push(s, t).value.0, live[id := t], own[Tag(s.group, s.count) := id], true)
  {
    var s', tag' := Push(s, t).value.0, Tag(s.group, s.count);
    forall tag | tag in s'.slots
      ensures own[tag' := id][tag] in live[id := t]
              && Holds(s'.slots[tag], s'.host, tag.group, live[id := t][own[tag' := id][tag]], true)
    {
      if tag != tag' { assert tag in s.slots; }
    }
  }

  lemma SaveGood(x: Session<Async>, p: Tape, t: Tensor, own: map<Tag, SaveId>) returns (own': map<Tag, SaveId>)
    requires Inv(x, p, own) && Legal(x.h.l, p, Save(t))
    ensures StepGood(x, p, Save(t), own')
  {
    var tag := Tag(x.h.group, x.h.count);
    var id := SaveId(p.group, p.saves);
    own' := if t.Tracked() then own[tag := id] else own;
    PushContents(x.h, p.live, own, id, t);
    PushControl(x.h, t);
    LinkedSave(x.tokens, p.live, own, id, t, tag);
    SaveTape(x.h.l, p, t);
  }

  lemma SaveTape(l: nat, p: Tape, t: Tensor)
    requires TapeOk(l, p) && KeysFaithful(p) && Legal(l, p, Save(t))
    ensures TapeOk(l, Advance(p, Save(t))) && KeysFaithful(Advance(p, Save(t)))
  {}

  /** In backward, the group whose tensors are being read is never evicted. */
  lemma NoneEvictedHere(s: Async, tag: Tag)
    requires Control(s, Backward) && tag in s.slots && tag.group == s.group
    ensures s.slots[tag].Device?
  {
    if Pending(s) {
      assert s.offloaded - 1 <= s.window[s.offloaded - 1];
    }
  }

  lemma PopControl(s: Async, tag: Tag)
    requires Control(s, Backward) && Pop(s, Tagged(tag)).Ok?
    ensures Control(Pop(s, Tagged(tag)).value.0, Backward)
  {}

  lemma PopContents(s: Async, live: map<SaveId, Tensor>, own: map<Tag, SaveId>, tag: Tag)
    requires Contents(s, live, own, false) && TagsOk(s, Backward) && tag in own && s.slots[tag].Device?
    requires forall g :: g in own && own[g] == own[tag] ==> g == tag
    ensures Pop(s, Tagged(tag)).Ok? && Pop(s, Tagged(tag)).value.1.Val() == live[own[tag]].Val()
    ensures var s' := Pop(s, Tagged(tag)).value.0;
            && s'.group == s.group && s'.l == s.l && TagsOk(s', Backward)
            && Contents(s', live - {own[tag]}, own - {tag}, false)
  {
    assert Holds(s.slots[tag], s.host, tag.group, live[own[tag]], false);
  }

  lemma FetchStep(x: Session<Async>, p: Tape, id: SaveId)
    requires id in x.tokens && id in p.live && Pop(x.h, x.tokens[id]).Ok? && Pop(x.h, x.tokens[id]).value.1.Val() == p.live[id].Val()
    ensures AsyncStep(x, p, Fetch(id)) == Ok((Session(Pop(x.h, x.tokens[id]).value.0, x.tokens - {id}), Expected(p, Fetch(id))))
  {}

  lemma OwnedOnce(tokens: map<SaveId, Token>, live: map<SaveId, Tensor>, own: map<Tag, SaveId>, tag: Tag)
    requires Linked(tokens, live, own) && tag in own
    ensures forall g :: g in own && own[g] == own[tag] ==> g == tag
  {}

  lemma FetchTracked(x: Session<Async>, p: Tape, id: SaveId, own: map<Tag, SaveId>, tag: Tag)
    requires Inv(x, p, own) && Legal(x.h.l, p, Fetch(id)) && x.tokens[id] == Tagged(tag) && tag in own && own[tag] == id
    ensures StepGood(x, p, Fetch(id), own - {tag})
  {
    LinkedFetch(x.tokens, p.live, own, id);
    FetchTape(x.h.l, p, id);
    NoneEvictedHere(x.h, tag);
    OwnedOnce(x.tokens, p.live, own, tag);
    PopContents(x.h, p.live, own, tag);
    PopControl(x.h, tag);
    FetchStep(x, p, id);
  }

  lemma FetchDirect(x: Session<Async>, p: Tape, id: SaveId, own: map<Tag, SaveId>)
    requires Inv(x, p, own) && Legal(x.h.l, p, Fetch(id)) && x.tokens[id] == Direct(p.live[id])
    ensures StepGood(x, p, Fetch(id), own)
  {
    LinkedFetch(x.tokens, p.live, own, id);
    FetchTape(x.h.l, p, id);
    DirectContents(x.h, p.live, own, id);
  }

  lemma FetchGood(x: Session<Async>, p: Tape, id: SaveId, own: map<Tag, SaveId>) returns (own': map<Tag, SaveId>)
    requires Inv(x, p, own) && Legal(x.h.l, p, Fetch(id))
    ensures StepGood(x, p, Fetch(id), own')
  {
    if x.tokens[id].Tagged? {
      var tag := x.tokens[id].tag;
      own' := own - {tag};
      FetchTracked(x, p, id, own, tag);
    } else {
      own' := own;
      FetchDirect(x, p, id, own);
    }
  }

  lemma DirectContents(s: Async, live: map<SaveId, Tensor>, own: map<Tag, SaveId>, id: SaveId)
    requires Contents(s, live, own, false) && (forall tag :: tag in own ==> own[tag] != id)
    ensures Contents(s, live - {id}, own, false)
  {}

  lemma FetchTape(l: nat, p: Tape, id: SaveId)
    requires TapeOk(l, p) && KeysFaithful(p)
    ensures TapeOk(l, Advance(p, Fetch(id))) && KeysFaithful(Advance(p, Fetch(id)))
  {}

  /** Every owned save is alive, tracked, and in its tag's group. */
  ghost predicate Owned(live: map<SaveId, Tensor>, own: map<Tag, SaveId>) {
    forall tag :: tag in own ==> own[tag] in live && own[tag].group == tag.group && live[own[tag]].Tracked()
  }

  lemma CloseWindowHit(s: Async, s1: Async)
    requires CloseWindow(s).Ok? && s.window[s.offloaded] == s.group && s.offloaded + 1 < s.n
    requires s1 == s.(bufs := FreeGroup(s.bufs, s.offloaded))
    ensures BulkOffload(s1, s.offloaded + 1).Ok?
    ensures CloseWindow(s).value == BulkOffload(s1, s.offloaded + 1).value.(offloaded := s.offloaded + 1)
  {}

  lemma CloseWindowMiss(s: Async)
    requires CloseWindow(s).Ok? && (s.window[s.offloaded] != s.group || s.offloaded + 1 >= s.n)
    ensures CloseWindow(s).value.slots == s.slots && CloseWindow(s).value.host == s.host
  {}

  lemma ContentsSame(s: Async, r: Async, live: map<SaveId, Tensor>, own: map<Tag, SaveId>, exact: bool)
    requires Contents(s, live, own, exact) && r.slots == s.slots && r.host == s.host
    ensures Contents(r, live, own, exact)
  {}

  lemma OffloadThen(s: Async, c: nat, r: Async, p: Tape, own: map<Tag, SaveId>)
    requires KeysFaithful(p) && Contents(s, p.live, own, true) && Owned(p.live, own)
    requires var s1 := s.(bufs := FreeGroup(s.bufs, c));
             BulkOffload(s1, c + 1).Ok? && r == BulkOffload(s1, c + 1).value.(offloaded := c + 1)
    ensures Contents(r, p.live, own, true)
  {
    var s1 := s.(bufs := FreeGroup(s.bufs, c));
    ContentsSame(s, s1, p.live, own, true);
    OffloadKeeps(s1, p, own, c + 1);
    ContentsSame(BulkOffload(s1, c + 1).value, r, p.live, own, true);
  }

  lemma CloseWindowContents(s: Async, p: Tape, own: map<Tag, SaveId>)
    requires KeysFaithful(p) && Contents(s, p.live, own, true) && Owned(p.live, own)
    requires CloseWindow(s).Ok?
    ensures Contents(CloseWindow(s).value, p.live, own, true)
  {
    if s.window[s.offloaded] == s.group && s.offloaded + 1 < s.n {
      CloseWindowHit(s, s.(bufs := FreeGroup(s.bufs, s.offloaded)));
      OffloadThen(s, s.offloaded, CloseWindow(s).value, p, own);
    } else {
      CloseWindowMiss(s);
      ContentsSame(s, CloseWindow(s).value, p.live, own, true);
    }
  }

  lemma ForwardContents(s: Async, p: Tape, own: map<Tag, SaveId>)
    requires KeysFaithful(p) && Contents(s, p.live, own, true) && Owned(p.live, own)
    requires CommitForward(s).Ok?
    requires s.group == 0 ==> forall tag :: tag in s.slots ==> s.slots[tag].Device?
    ensures var r := CommitForward(s).value;
            && Contents(r, p.live, own, true)
            && r.group == s.group + 1 && r.count == 0 && r.l == s.l && r.n == s.n
            && r.slots.Keys == s.slots.Keys && r.bufs.Keys == s.bufs.Keys
  {
    var s1 := s;
    if s.group == 0 {
      OffloadControl(s, 0);
      OffloadKeeps(s, p, own, 0);
      s1 := BulkOffload(s, 0).value;
    }
    ForwardSplit(s, s1);
    CloseWindowFrame(s1);
    CloseWindowContents(s1, p, own);
    ContentsSame(CloseWindow(s1).value, CommitForward(s).value, p.live, own, true);
  }

  lemma EndForwardStep(x: Session<Async>, p: Tape)
    requires CommitForward(x.h).Ok?
    ensures AsyncStep(x, p, EndForward) == Ok((x.(h := CommitForward(x.h).value), Expected(p, EndForward)))
  {}

  lemma EndForwardGood(x: Session<Async>, p: Tape, own: map<Tag, SaveId>)
    requires Inv(x, p, own) && Legal(x.h.l, p, EndForward)
    ensures StepGood(x, p, EndForward, own)
  {
    ForwardControl(x.h);
    ForwardContents(x.h, p, own);
    ForwardTape(x.h.l, p);
    ForwardTagsOk(x.h, CommitForward(x.h).value);
    EndForwardStep(x, p);
  }

  lemma ForwardTagsOk(s: Async, r: Async)
    requires TagsOk(s, Forward) && r.group == s.group + 1 && r.count == 0
    requires forall tag :: tag in s.slots ==> tag.group <= s.group
    requires r.slots.Keys == s.slots.Keys && r.bufs.Keys == s.bufs.Keys
    ensures TagsOk(r, Forward)
  {}

  lemma ForwardSplit(s: Async, s1: Async)
    requires if s.group == 0 then BulkOffload(s, 0) == Ok(s1) else s1 == s
    requires CommitForward(s).Ok?
    ensures CloseWindow(s1).Ok?
    ensures CommitForward(s) == Ok(CloseWindow(s1).value.(group := s.group + 1, count := 0))
  {}

  lemma ForwardTape(l: nat, p: Tape)
    requires TapeOk(l, p) && KeysFaithful(p) && Legal(l, p, EndForward)
    ensures TapeOk(l, Advance(p, EndForward)) && KeysFaithful(Advance(p, EndForward))
  {}

  lemma BeginBackwardGood(x: Session<Async>, p: Tape, alloc: Key -> Key, own: map<Tag, SaveId>)
    requires Inv(x, p, own) && Legal(x.h.l, p, BeginBackward(alloc))
    ensures StepGood(x, p, BeginBackward(alloc), own)
  {
    var s := x.h;
    InexactContents(s, p.live, own, p.phase == Forward);
    AllReloads(s, p, own, alloc);
    BackwardControl(s, p.phase, alloc);
    BackwardContents(s, p.live, own, alloc);
    BackwardTape(s.l, p, alloc);
    BeginBackwardStep(x, p, alloc);
  }

  lemma BeginBackwardStep(x: Session<Async>, p: Tape, alloc: Key -> Key)
    requires CommitBackward(x.h, alloc).Ok?
    ensures AsyncStep(x, p, BeginBackward(alloc))
            == Ok((x.(h := CommitBackward(x.h, alloc).value), Expected(p, BeginBackward(alloc))))
  {}

  lemma AllReloads(s: Async, p: Tape, own: map<Tag, SaveId>, alloc: Key -> Key)
    requires Contents(s, p.live, own, false) && s.group > 0
    requires forall i :: i in p.live ==> p.live[i].WellShaped()
    ensures forall g: nat :: g in s.host && g < s.n ==>
               BulkReload(s.(group := s.group - 1), g, alloc).Ok?
               && Contents(BulkReload(s.(group := s.group - 1), g, alloc).value, p.live, own, false)
  {
    var t := s.(group := s.group - 1);
    ContentsSame(s, t, p.live, own, false);
    forall g: nat | g in s.host && g < s.n
      ensures BulkReload(t, g, alloc).Ok?
      ensures Contents(BulkReload(t, g, alloc).value, p.live, own, false)
    {
      ReloadKeeps(t, p, own, g, alloc);
    }
  }

  lemma InexactContents(s: Async, live: map<SaveId, Tensor>, own: map<Tag, SaveId>, exact: bool)
    requires Contents(s, live, own, exact)
    ensures Contents(s, live, own, false)
  {}

  /** What a backward commit keeps. */
  ghost predicate BackwardKept(s: Async, r: Async, live: map<SaveId, Tensor>, own: map<Tag, SaveId>) {
    && Contents(r, live, own, false)
    && r.group == s.group - 1 && r.count == s.count && r.l == s.l && r.n == s.n && r.bufs == s.bufs
    && r.slots.Keys == s.slots.Keys
  }

  lemma BackwardHitContents(s: Async, live: map<SaveId, Tensor>, own: map<Tag, SaveId>, alloc: Key -> Key)
    requires CommitBackward(s, alloc).Ok? && s.group > 0 && s.offloaded > 0 && s.offloaded - 1 in s.window
    requires s.window[s.offloaded - 1] == s.group - 1
    requires BulkReload(s.(group := s.group - 1), s.offloaded - 1, alloc).Ok?
    requires Contents(BulkReload(s.(group := s.group - 1), s.offloaded - 1, alloc).value, live, own, false)
    ensures BackwardKept(s, CommitBackward(s, alloc).value, live, own)
  {
    BackwardHit(s, alloc);
    ReloadControl(s.(group := s.group - 1), s.offloaded - 1, alloc);
  }

  lemma BackwardMissContents(s: Async, live: map<SaveId, Tensor>, own: map<Tag, SaveId>, alloc: Key -> Key)
    requires s.group > 0 && s.offloaded > 0 && s.offloaded - 1 in s.window
    requires s.window[s.offloaded - 1] != s.group - 1 && Contents(s, live, own, false)
    ensures CommitBackward(s, alloc).Ok? && BackwardKept(s, CommitBackward(s, alloc).value, live, own)
  {
    BackwardMiss(s, alloc);
  }

  lemma BackwardContents(s: Async, live: map<SaveId, Tensor>, own: map<Tag, SaveId>, alloc: Key -> Key)
    requires CommitBackward(s, alloc).Ok? && Contents(s, live, own, false)
    requires forall g: nat :: g in s.host && g < s.n ==>
               BulkReload(s.(group := s.group - 1), g, alloc).Ok?
               && Contents(BulkReload(s.(group := s.group - 1), g, alloc).value, live, own, false)
    ensures BackwardKept(s, CommitBackward(s, alloc).value, live, own)
  {
    if s.window[s.offloaded - 1] == s.group - 1 {
      BackwardHitContents(s, live, own, alloc);
    } else {
      BackwardMissContents(s, live, own, alloc);
    }
  }

  lemma BackwardTape(l: nat, p: Tape, alloc: Key -> Key)
    requires TapeOk(l, p) && KeysFaithful(p) && Legal(l, p, BeginBackward(alloc))
    ensures TapeOk(l, Advance(p, BeginBackward(alloc))) && KeysFaithful(Advance(p, BeginBackward(alloc)))
  {}

  lemma NextRoundGood(x: Session<Async>, p: Tape, own: map<Tag, SaveId>)
    requires Inv(x, p, own) && Legal(x.h.l, p, NextRound)
    ensures StepGood(x, p, NextRound, own)
  {
    assert forall tag :: tag in x.h.slots ==> own[tag] in p.live;
    assert x.h.slots == map[];
  }

  /** Every legal event succeeds, delivers the saved value, and keeps the invariant. */
  lemma StepKeeps(x: Session<Async>, p: Tape, e: Event, own: map<Tag, SaveId>) returns (own': map<Tag, SaveId>)
    requires Inv(x, p, own) && Legal(x.h.l, p, e)
    ensures StepGood(x, p, e, own')
  {
    own' := own;
    match e
    case Save(t) => own' := SaveGood(x, p, t, own);
    case EndForward => EndForwardGood(x, p, own);
    case BeginBackward(alloc) => BeginBackwardGood(x, p, alloc, own);
    case Fetch(id) => own' := FetchGood(x, p, id, own);
    case NextRound => NextRoundGood(x, p, own);
  }

  // ---------------------------------------------------------------- whole runs

  /** Over any legal run, from any reachable state, every fetch delivers what was saved. */
  lemma {:induction false} RunDelivers(x: Session<Async>, p: Tape, es: seq<Event>, own: map<Tag, SaveId>)
    returns (own': map<Tag, SaveId>)
    requires Inv(x, p, own) && LegalRun(x.h.l, p, es)
    ensures AsyncRun(x, p, es).Ok?
    ensures AsyncRun(x, p, es).value.1 == Replay(p, es).1
    ensures Inv(AsyncRun(x, p, es).value.0, Replay(p, es).0, own')
    ensures AsyncRun(x, p, es).value.0.h.l == x.h.l && AsyncRun(x, p, es).value.0.h.n == x.h.n
    decreases |es|
  {
    own' := own;
    if es != [] {
      var own1 := StepKeeps(x, p, es[0], own);
      var y := AsyncStep(x, p, es[0]).value.0;
      own' := RunDelivers(y, Advance(p, es[0]), es[1..], own1);
    }
  }

  ghost predicate SyncInv(x: Session<Sync>, p: Tape) {
    && x.h.group == p.group && x.h.count == p.saves
    && x.tokens.Keys == p.live.Keys
    && (forall i :: i in p.live ==>
          var tag := Tag(i.group, i.idx);
          x.tokens[i] == Tagged(tag) && tag in x.h.slots && x.h.slots[tag].Val() == p.live[i].Val())
    && (forall tag :: tag in x.h.slots ==> SaveId(tag.group, tag.idx) in p.live)
  }

  lemma SyncSaveKeeps(l: nat, x: Session<Sync>, p: Tape, t: Tensor)
    requires SyncInv(x, p) && TapeOk(l, p) && Legal(l, p, Save(t))
    ensures SyncStep(x, p, Save(t)).Ok?
    ensures SyncInv(SyncStep(x, p, Save(t)).value.0, Advance(p, Save(t)))
  {
    var new_ := SaveId(p.group, p.saves);
    assert new_ !in p.live;
    assert Tag(new_.group, new_.idx) !in x.h.slots;
    var y, q := SyncStep(x, p, Save(t)).value.0, Advance(p, Save(t));
    forall tag | tag in y.h.slots ensures SaveId(tag.group, tag.idx) in q.live {
      if tag != Tag(new_.group, new_.idx) { assert tag in x.h.slots; }
    }
  }

  lemma SyncFetchKeeps(x: Session<Sync>, p: Tape, id: SaveId)
    requires SyncInv(x, p) && id in p.live
    ensures SyncStep(x, p, Fetch(id)).Ok?
    ensures SyncStep(x, p, Fetch(id)).value.1 == Expected(p, Fetch(id))
    ensures SyncInv(SyncStep(x, p, Fetch(id)).value.0, Advance(p, Fetch(id)))
  {}

  lemma TapeKeeps(l: nat, p: Tape, e: Event)
    requires TapeOk(l, p) && Legal(l, p, e)
    ensures TapeOk(l, Advance(p, e))
  {}

  lemma SyncStepKeeps(l: nat, x: Session<Sync>, p: Tape, e: Event)
    requires SyncInv(x, p) && TapeOk(l, p) && Legal(l, p, e)
    ensures SyncStep(x, p, e).Ok?
    ensures SyncStep(x, p, e).value.1 == Expected(p, e)
    ensures SyncInv(SyncStep(x, p, e).value.0, Advance(p, e))
  {
    match e
    case Save(t) => SyncSaveKeeps(l, x, p, t);
    case Fetch(id) => SyncFetchKeeps(x, p, id);
    case EndForward =>
    case BeginBackward(_) =>
    case NextRound =>
  }

  lemma {:induction false} SyncRunDelivers(l: nat, x: Session<Sync>, p: Tape, es: seq<Event>)
    requires SyncInv(x, p) && TapeOk(l, p) && LegalRun(l, p, es)
    ensures SyncRun(x, p, es).Ok?
    ensures SyncRun(x, p, es).value.1 == Replay(p, es).1
    decreases |es|
  {
    if es != [] {
      SyncStepKeeps(l, x, p, es[0]);
      TapeKeeps(l, p, es[0]);
      SyncRunDelivers(l, SyncStep(x, p, es[0]).value.0, Advance(p, es[0]), es[1..]);
    }
  }

  /** The double-buffered handler refines the synchronous one: on every legal run, over any
      number of training steps and for all n, l >= 1, neither faults and both deliver, fetch by
      fetch, exactly the values that were saved. */
  lemma AsyncRefinesSync(n: nat, l: nat, es: seq<Event>)
    requires n > 0 && l > 0 && LegalRun(l, BLANK, es)
    ensures var a := AsyncRun(Session(AsyncInit(n, l), map[]), BLANK, es);
            var b := SyncRun(Session(SyncInit(n), map[]), BLANK, es);
            a.Ok? && b.Ok? && a.value.1 == b.value.1 == Replay(BLANK, es).1
  {
    InitInv(n, l);
    var _ := RunDelivers(Session(AsyncInit(n, l), map[]), BLANK, es, map[]);
    SyncRunDelivers(l, Session(SyncInit(n), map[]), BLANK, es);
  }

  /** Once every save of a round has been fetched the handler is back where it started, except
      that more offload groups than layers leave an (empty) host entry for group l. */
  lemma DrainedIsInitial(n: nat, l: nat, es: seq<Event>)
    requires n > 0 && l > 0 && LegalRun(l, BLANK, es)
    requires var q := Replay(BLANK, es).0; q.phase == Backward && q.group == 0 && q.live == map[]
    ensures var a := AsyncRun(Session(AsyncInit(n, l), map[]), BLANK, es);
            && a.Ok? && a.value.0.tokens == map[]
            && var h := a.value.0.h;
               && h.slots == map[] && h.bufs == map[] && h.group == h.count == h.offloaded == 0
               && h.host.Keys <= {l} && (n <= l ==> h.host == map[])
  {
    InitInv(n, l);
    var own := RunDelivers(Session(AsyncInit(n, l), map[]), BLANK, es, map[]);
    var x := AsyncRun(Session(AsyncInit(n, l), map[]), BLANK, es).value.0;
    assert x.h.slots.Keys <= {};
  }
}
