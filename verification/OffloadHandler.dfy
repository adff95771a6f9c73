/** The two handlers as objects whose methods update their fields, each method tied to the state
    machine it performs. */
module OffloadHandler {
  import opened OffloadModel
  import opened OffloadProof
  import opened Results

  /** Device tensors of the group with equal keys have equal content. */
  ghost predicate Faithful(slots: map<Tag, Slot>, group: nat) {
    forall a, b | a in slots && b in slots && a.group == b.group == group && slots[a].Device? && slots[b].Device?
                  && slots[a].tensor.key == slots[b].tensor.key :: slots[a].tensor.flat == slots[b].tensor.flat
  }

  /** In the forward phases of every legal run the handler's tensors are faithful in every group. */
  lemma ReachableFaithful(n: nat, l: nat, es: seq<Event>, group: nat)
    requires n > 0 && l > 0 && LegalRun(l, BLANK, es) && Replay(BLANK, es).0.phase == Forward
    ensures AsyncRun(Session(AsyncInit(n, l), map[]), BLANK, es).Ok?
    ensures Faithful(AsyncRun(Session(AsyncInit(n, l), map[]), BLANK, es).value.0.h.slots, group)
  {
    InitInv(n, l);
    var own := RunDelivers(Session(AsyncInit(n, l), map[]), BLANK, es, map[]);
    var x, p := AsyncRun(Session(AsyncInit(n, l), map[]), BLANK, es).value.0, Replay(BLANK, es).0;
    forall a, b | a in x.h.slots && b in x.h.slots && a.group == b.group == group && x.h.slots[a].Device? && x.h.slots[b].Device?
                  && x.h.slots[a].tensor.key == x.h.slots[b].tensor.key
      ensures x.h.slots[a].tensor.flat == x.h.slots[b].tensor.flat
    {
      SavedTensor(x.h, x.tokens, p.live, own, a);
      SavedTensor(x.h, x.tokens, p.live, own, b);
    }
  }

  lemma SavedTensor(s: Async, tokens: map<SaveId, Token>, live: map<SaveId, Tensor>, own: map<Tag, SaveId>, tag: Tag)
    requires Linked(tokens, live, own) && Contents(s, live, own, true) && tag in s.slots && s.slots[tag].Device?
    ensures tag in own && own[tag] in live && live[own[tag]].Tracked() && own[tag].group == tag.group
    ensures s.slots[tag].tensor == live[own[tag]]
  {}

  class SynchronizedGroupOffloadHandler {
    const numOffloadGroup: nat
    var currentGroup: nat
    var tensorCountCurrentGroup: nat
    var tensorTagToState: map<Tag, SyncSlot>

    ghost function State(): Sync
      reads this
    {
      Sync(numOffloadGroup, currentGroup, tensorCountCurrentGroup, tensorTagToState)
    }

    constructor (numOffloadGroup: nat)
      ensures State() == SyncInit(numOffloadGroup)
    {
      this.numOffloadGroup := numOffloadGroup;
      currentGroup, tensorCountCurrentGroup, tensorTagToState := 0, 0, map[];
    }

    method OnGroupCommitForward()
      modifies this
      ensures State() == SyncCommitForward(old(State()))
    {
      currentGroup := currentGroup + 1;
      tensorCountCurrentGroup := 0;
    }

    method OnGroupCommitBackward() returns (r: Result<()>)
      modifies this
      ensures r.Ok? <==> SyncCommitBackward(old(State())).Ok?
      ensures r.Ok? ==> State() == SyncCommitBackward(old(State())).value
    {
      if currentGroup == 0 { return Raise(AssertionError); }
      currentGroup := currentGroup - 1;
      r := Ok(());
    }

    method TensorPush(tensor: Tensor) returns (r: Result<Token>)
      modifies this
      ensures r.Ok? <==> SyncPush(old(State()), tensor).Ok?
      ensures r.Ok? ==> SyncPush(old(State()), tensor).value == (State(), r.value)
    {
      var tensorTag := Tag(currentGroup, tensorCountCurrentGroup);
      tensorCountCurrentGroup := tensorCountCurrentGroup + 1;
      if tensorTag in tensorTagToState { return Raise(AssertionError); }
      if currentGroup < numOffloadGroup && tensor.wanted {
        tensorTagToState := tensorTagToState[tensorTag := OnHost(tensor.Val())];
      } else {
        tensorTagToState := tensorTagToState[tensorTag := SyncSlot.OnDevice(tensor)];
      }
      r := Ok(Tagged(tensorTag));
    }

    method TensorPop(token: Token) returns (r: Result<Value>)
      modifies this
      ensures r.Ok? <==> SyncPop(old(State()), token).Ok?
      ensures r.Ok? ==> SyncPop(old(State()), token).value == (State(), r.value)
    {
      if token.Direct? || token.tag !in tensorTagToState { return Raise(AssertionError); }
      var state := tensorTagToState[token.tag];
      tensorTagToState := tensorTagToState - {token.tag};
      r := Ok(state.Val());
    }
  }

  // ---------------------------------------------------------------- loops over the tags

  /** The labelling loop: what is not in `todo` any more is labelled, and its key is kept. */
  ghost predicate Labelled(was: map<Tag, Slot>, now: map<Tag, Slot>, todo: set<Tag>, group: nat, kept: map<Key, Tensor>) {
    && todo <= was.Keys == now.Keys
    && (forall tag :: tag in was && (tag in todo || tag.group != group) ==> now[tag] == was[tag])
    && (forall tag :: tag in was && tag !in todo && tag.group == group ==> LabelledAt(was[tag], now[tag], kept))
    && (forall k :: k in kept ==> exists tag :: tag in was && tag !in todo && KeptFrom(tag, was[tag], group, k, kept[k]))
  }

  ghost predicate LabelledAt(was: Slot, now: Slot, kept: map<Key, Tensor>) {
    was.Device? && now == Evicted(was.tensor.key, was.tensor.shape) && was.tensor.key in kept
  }

  ghost predicate KeptFrom(tag: Tag, slot: Slot, group: nat, k: Key, t: Tensor) {
    tag.group == group && slot.Device? && slot.tensor.key == k && slot.tensor == t
  }

  lemma LabelOne(was: map<Tag, Slot>, now: map<Tag, Slot>, todo: set<Tag>, group: nat, kept: map<Key, Tensor>, tag: Tag)
    requires Labelled(was, now, todo, group, kept) && tag in todo && tag.group == group && now[tag].Device?
    ensures var t := now[tag].tensor;
            var kept' := if t.key in kept then kept else kept[t.key := t];
            Labelled(was, now[tag := Evicted(t.key, t.shape)], todo - {tag}, group, kept')
  {
    var t := now[tag].tensor;
    var kept' := if t.key in kept then kept else kept[t.key := t];
    forall k | k in kept' ensures exists x :: x in was && x !in todo - {tag} && KeptFrom(x, was[x], group, k, kept'[k]) {
      if k in kept {
        var x :| x in was && x !in todo && KeptFrom(x, was[x], group, k, kept[k]);
      } else {
        assert KeptFrom(tag, was[tag], group, k, kept'[k]);
      }
    }
  }

  lemma LabelOther(was: map<Tag, Slot>, now: map<Tag, Slot>, todo: set<Tag>, group: nat, kept: map<Key, Tensor>, tag: Tag)
    requires Labelled(was, now, todo, group, kept) && tag in todo && tag.group != group
    ensures Labelled(was, now, todo - {tag}, group, kept)
  {
    forall k | k in kept ensures exists x :: x in was && x !in todo - {tag} && KeptFrom(x, was[x], group, k, kept[k]) {
      var x :| x in was && x !in todo && KeptFrom(x, was[x], group, k, kept[k]);
    }
  }

  lemma LabelledAll(was: map<Tag, Slot>, now: map<Tag, Slot>, group: nat, kept: map<Key, Tensor>)
    requires Labelled(was, now, {}, group, kept) && Faithful(was, group)
    ensures forall tag :: tag in was && tag.group == group ==> was[tag].Device?
    ensures now == Evict(was, group) && kept.Keys == KeysOf(was, group)
    ensures forall k :: k in kept ==> kept[k].flat == FlatOf(was, group, k)
  {
    assert forall tag :: tag in was && tag.group == group ==> LabelledAt(was[tag], now[tag], kept);
    assert now == Evict(was, group);
    forall k | k in kept ensures k in KeysOf(was, group) && kept[k].flat == FlatOf(was, group, k) {
      var tag :| tag in was && KeptFrom(tag, was[tag], group, k, kept[k]);
      assert k in KeysOf(was, group);
    }
  }

  /** A slot of the group that can be restored from the host copies. */
  ghost predicate Restorable(slot: Slot, host: map<Key, seq<int>>) {
    slot.Evicted? ==> slot.key in host && Numel(slot.shape) == |host[slot.key]|
  }

  ghost predicate AllRestorable(slots: map<Tag, Slot>, group: nat, host: map<Key, seq<int>>) {
    forall tag :: tag in slots && tag.group == group ==> Restorable(slots[tag], host)
  }

  /** The restoring loop: what is not in `todo` any more is back on the device. */
  ghost predicate Restored(was: map<Tag, Slot>, now: map<Tag, Slot>, todo: set<Tag>, group: nat, host: map<Key, seq<int>>, alloc: Key -> Key) {
    && todo <= was.Keys == now.Keys
    && (forall tag :: tag in was && (tag in todo || tag.group != group) ==> now[tag] == was[tag])
    && (forall tag :: tag in was && tag !in todo && tag.group == group ==>
          Restorable(was[tag], host) && now[tag] == Recover(was[tag], host, alloc))
  }

  lemma RestoredAll(was: map<Tag, Slot>, now: map<Tag, Slot>, group: nat, host: map<Key, seq<int>>, alloc: Key -> Key)
    requires Restored(was, now, {}, group, host, alloc)
    ensures AllRestorable(was, group, host)
    ensures now == map tag | tag in was :: if tag.group == group then Recover(was[tag], host, alloc) else was[tag]
  {}

  // ---------------------------------------------------------------- the window map

  function WindowUpTo(n: nat, l: nat, i: nat): map<nat, int>
    requires n > 0 || i == 0
  {
    map c: nat | 0 <= c < i :: WindowAt(n, l, c)
  }

  lemma WindowMore(n: nat, l: nat, i: nat, entry: int)
    requires n > 0 && entry == WindowAt(n, l, i)
    ensures WindowUpTo(n, l, i)[i := entry] == WindowUpTo(n, l, i + 1)
  {}

  class AsyncDoubleBufferGroupOffloadHandler {
    const numOffloadGroup: nat
    const numLayers: nat
    var layerWindowMap: map<nat, int>
    var currentGroup: nat
    var tensorCountCurrentGroup: nat
    var offloadedGroupCount: nat
    var tensorTagToState: map<Tag, Slot>
    var tensorTagToBuf: map<Tag, Buf>
    var groupOffloadMapping: map<nat, map<Key, seq<int>>>
    var streams: Streams

    ghost function State(): Async
      reads this
    {
      Async(numOffloadGroup, numLayers, layerWindowMap, currentGroup, tensorCountCurrentGroup, offloadedGroupCount,
            tensorTagToState, tensorTagToBuf, groupOffloadMapping)
    }

    constructor (numOffloadGroup: nat, numModelGroup: nat)
      ensures State() == AsyncInit(numOffloadGroup, numModelGroup)
      ensures streams == IDLE
    {
      this.numOffloadGroup, this.numLayers := numOffloadGroup, numModelGroup;
      currentGroup, tensorCountCurrentGroup, offloadedGroupCount := 0, 0, 0;
      tensorTagToState, tensorTagToBuf, groupOffloadMapping := map[], map[], map[];
      layerWindowMap := map[];
      streams := IDLE;
      new;
      var constant := 0;
      for i := 0 to numOffloadGroup
        invariant i == 0 ==> constant == 0
        invariant i > 0 ==>
                    constant == if i <= numModelGroup % numOffloadGroup then i else numModelGroup % numOffloadGroup
        invariant layerWindowMap == WindowUpTo(numOffloadGroup, numModelGroup, i)
        invariant State() == AsyncInit(numOffloadGroup, numModelGroup).(window := layerWindowMap)
        invariant streams == IDLE
      {
        var entry := numModelGroup / numOffloadGroup * (i + 1) - 1;
        if i < numModelGroup % numOffloadGroup {
          entry := entry + i + 1;
          constant := i + 1;
        } else {
          entry := entry + constant;
        }
        WindowMore(numOffloadGroup, numModelGroup, i, entry);
        layerWindowMap := layerWindowMap[i := entry];
      }
    }

    method TensorPush(tensor: Tensor) returns (r: Result<Token>)
      modifies this
      ensures r.Ok? <==> Push(old(State()), tensor).Ok?
      ensures r.Ok? ==> Push(old(State()), tensor).value == (State(), r.value)
      ensures r.Ok? ==> streams == PushStreams(old(State()), old(streams), tensor)
    {
      if tensor.stray || !tensor.wanted { return Ok(Direct(tensor)); }
      var tensorTag := Tag(currentGroup, tensorCountCurrentGroup);
      tensorCountCurrentGroup := tensorCountCurrentGroup + 1;
      if tensorTag in tensorTagToState { return Raise(AssertionError); }
      streams := streams.Issue(Produce, currentGroup, true);
      tensorTagToState := tensorTagToState[tensorTag := Device(tensor)];
      if currentGroup < numOffloadGroup {
        tensorTagToBuf := tensorTagToBuf[tensorTag := Held(tensor)];
      }
      r := Ok(Tagged(tensorTag));
    }

    method TensorPop(token: Token) returns (r: Result<Tensor>)
      modifies this
      ensures r.Ok? <==> Pop(old(State()), token).Ok?
      ensures r.Ok? ==> Pop(old(State()), token).value == (State(), r.value)
      ensures r.Ok? ==> streams == PopStreams(old(streams), token)
    {
      if token.Direct? { return Ok(token.tensor); }
      var tag := token.tag;
      if tag !in tensorTagToState { return Raise(AssertionError); }
      var slot := tensorTagToState[tag];
      tensorTagToState := tensorTagToState - {tag};
      tensorTagToBuf := tensorTagToBuf - {tag};
      if slot.Evicted? { return Raise(AssertionError); }
      streams := streams.Issue(Read, tag.group, true);
      r := Ok(slot.tensor);
    }

    /** The first loop: labels every device tensor of the group with its key and shape, and keeps
        one tensor per key. */
    method LabelGroup(group: nat) returns (ok: bool, kept: map<Key, Tensor>)
      requires Faithful(tensorTagToState, group)
      modifies this`tensorTagToState
      ensures ok <==> forall tag :: tag in old(tensorTagToState) && tag.group == group ==> old(tensorTagToState)[tag].Device?
      ensures ok ==> tensorTagToState == Evict(old(tensorTagToState), group)
      ensures ok ==> kept.Keys == KeysOf(old(tensorTagToState), group)
      ensures ok ==> forall k :: k in kept ==> kept[k].flat == FlatOf(old(tensorTagToState), group, k)
    {
      ghost var was := tensorTagToState;
      kept := map[];
      var todo := tensorTagToState.Keys;
      while todo != {}
        invariant Labelled(was, tensorTagToState, todo, group, kept)
        decreases |todo|
      {
        var tag :| tag in todo;
        ghost var before, seen, rest := tensorTagToState, kept, todo;
        todo := todo - {tag};
        if tag.group == group {
          var slot := tensorTagToState[tag];
          if slot.Evicted? {
            ok := false;
            return;
          }
          var key := slot.tensor.key;
          if key !in kept { kept := kept[key := slot.tensor]; }
          tensorTagToState := tensorTagToState[tag := Evicted(key, slot.tensor.shape)];
          LabelOne(was, before, rest, group, seen, tag);
        } else {
          LabelOther(was, before, rest, group, seen, tag);
        }
      }
      ok := true;
      LabelledAll(was, tensorTagToState, group, kept);
    }

    /** The second loop: copies the kept tensors to the host. */
    method CopyKept(kept: map<Key, Tensor>) returns (offloadMapping: map<Key, seq<int>>)
      ensures offloadMapping == map k | k in kept :: kept[k].flat
    {
      offloadMapping := map[];
      var todo := kept.Keys;
      while todo != {}
        invariant todo <= kept.Keys
        invariant offloadMapping == map k | k in kept && k !in todo :: kept[k].flat
        decreases |todo|
      {
        var key :| key in todo;
        todo := todo - {key};
        offloadMapping := offloadMapping[key := kept[key].flat];
      }
    }

    method BulkOffloadGroup(groupToOffload: nat) returns (r: Result<()>)
      requires Faithful(tensorTagToState, groupToOffload)
      modifies this
      ensures r.Ok? <==> BulkOffload(old(State()), groupToOffload).Ok?
      ensures r.Ok? ==> State() == BulkOffload(old(State()), groupToOffload).value
      ensures r.Ok? ==> streams == old(streams).Issue(CopyOut, groupToOffload, HasGroup(old(tensorTagToState), groupToOffload))
    {
      ghost var s := State();
      var ok, kept := LabelGroup(groupToOffload);
      if !ok {
        OffloadRefused(s, groupToOffload);
        return Raise(AssertionError);
      }
      var offloadMapping := CopyKept(kept);
      OffloadIs(s, groupToOffload, tensorTagToState, offloadMapping);
      streams := streams.Issue(CopyOut, groupToOffload, |offloadMapping| > 0);
      groupOffloadMapping := groupOffloadMapping[groupToOffload := offloadMapping];
      r := Ok(());
    }

    /** Lets go of the buffered tensors of one group. */
    method FreeBuffers(group: nat) returns (freed: bool)
      modifies this`tensorTagToBuf
      ensures tensorTagToBuf == FreeGroup(old(tensorTagToBuf), group)
      ensures freed == HasHeld(old(tensorTagToBuf), group)
    {
      ghost var was := tensorTagToBuf;
      freed := false;
      var todo := tensorTagToBuf.Keys;
      while todo != {}
        invariant todo <= was.Keys
        invariant freed <==> exists tag :: tag in was && tag !in todo && tag.group == group && was[tag].Held?
        invariant tensorTagToBuf == map tag | tag in was :: if tag.group == group && tag !in todo then Freed else was[tag]
        decreases |todo|
      {
        var tag :| tag in todo;
        todo := todo - {tag};
        if tag.group == group {
          assert tensorTagToBuf[tag] == was[tag];
          freed := freed || tensorTagToBuf[tag].Held?;
          tensorTagToBuf := tensorTagToBuf[tag := Freed];
        }
      }
    }

    /** Waits for the copies of the oldest offloaded group and frees its buffers. */
    method DropOldest()
      modifies this`streams, this`tensorTagToBuf
      ensures tensorTagToBuf == FreeGroup(old(tensorTagToBuf), offloadedGroupCount)
      ensures streams == old(streams).Wait(D2H, Compute).Wait(Compute, D2H)
                         .Issue(Drop, offloadedGroupCount, HasHeld(old(tensorTagToBuf), offloadedGroupCount))
    {
      streams := streams.Wait(D2H, Compute);
      streams := streams.Wait(Compute, D2H);
      var freed := FreeBuffers(offloadedGroupCount);
      streams := streams.Issue(Drop, offloadedGroupCount, freed);
    }

    /** Starts copying out the next group, if there is one. */
    method StartNextCopy() returns (r: Result<()>)
      requires Faithful(tensorTagToState, offloadedGroupCount + 1)
      modifies this
      ensures r.Ok? <==> NextCopy(old(State())).Ok?
      ensures r.Ok? ==> State() == NextCopy(old(State())).value
      ensures r.Ok? ==> streams == NextStreams(old(State()), old(streams))
    {
      if offloadedGroupCount + 1 < numOffloadGroup {
        r := BulkOffloadGroup(offloadedGroupCount + 1);
      } else {
        r := Ok(());
      }
    }

    /** Frees the buffers of the oldest offloaded group and starts copying out the next one. */
    method RotateBuffers() returns (r: Result<()>)
      requires Faithful(tensorTagToState, offloadedGroupCount + 1)
      modifies this
      ensures r.Ok? <==> Rotate(old(State())).Ok?
      ensures r.Ok? ==> State() == Rotate(old(State())).value
      ensures r.Ok? ==> streams == RotateStreams(old(State()), old(streams))
    {
      ghost var s0, st := State(), streams;
      DropOldest();
      RotateParts(s0, State(), st, streams);
      r := StartNextCopy();
      if r.Ok? {
        ghost var s2 := State();
        offloadedGroupCount := offloadedGroupCount + 1;
        assert State() == s2.(offloaded := s2.offloaded + 1);
      }
    }

    method CloseOldestWindow() returns (r: Result<()>)
      requires Faithful(tensorTagToState, offloadedGroupCount + 1)
      modifies this
      ensures r.Ok? <==> CloseWindow(old(State())).Ok?
      ensures r.Ok? ==> State() == CloseWindow(old(State())).value
      ensures r.Ok? ==> old(offloadedGroupCount) in old(layerWindowMap)
      ensures r.Ok? ==> streams == WindowStreams(old(State()), old(streams))
    {
      CloseWindowRotates(State());
      if offloadedGroupCount !in layerWindowMap { return Raise(KeyError); }
      if layerWindowMap[offloadedGroupCount] == currentGroup {
        r := RotateBuffers();
      } else {
        r := Ok(());
      }
    }

    /** The first commit starts the first copy. */
    method KickStart() returns (r: Result<()>)
      requires Faithful(tensorTagToState, 0) && Faithful(tensorTagToState, offloadedGroupCount + 1)
      modifies this
      ensures r.Ok? <==> BulkOffload(old(State()), 0).Ok?
      ensures r.Ok? ==> State() == BulkOffload(old(State()), 0).value && Faithful(tensorTagToState, offloadedGroupCount + 1)
      ensures r.Ok? ==> streams == old(streams).Wait(D2H, Compute).Issue(CopyOut, 0, HasGroup(old(tensorTagToState), 0))
    {
      ghost var s := State();
      streams := streams.Wait(D2H, Compute);
      assert State() == s;
      r := BulkOffloadGroup(0);
      if r.Ok? { StillFaithful(s, 0, s.offloaded + 1); }
    }

    method SynchronizeOnGroupCommitForward(currentGroup: nat) returns (r: Result<()>)
      requires currentGroup == this.currentGroup
      requires currentGroup == 0 ==> Faithful(tensorTagToState, 0)
      requires Faithful(tensorTagToState, offloadedGroupCount + 1)
      modifies this
      ensures r.Ok? <==> CommitForward(old(State())).Ok?
      ensures r.Ok? ==> CommitForward(old(State())).value == State().(group := currentGroup + 1, count := 0)
      ensures r.Ok? ==> streams == ForwardStreams(old(State()), old(streams)) && this.currentGroup == currentGroup
    {
      ghost var s, st := State(), streams;
      if currentGroup == 0 {
        r := KickStart();
        if r.Raise? { return; }
      }
      ghost var s1 := State();
      CommitParts(s, s1);
      CommitStreams(s, s1, st);
      r := CloseOldestWindow();
    }

    method OnGroupCommitForward() returns (r: Result<()>)
      requires currentGroup == 0 ==> Faithful(tensorTagToState, 0)
      requires Faithful(tensorTagToState, offloadedGroupCount + 1)
      modifies this
      ensures r.Ok? <==> CommitForward(old(State())).Ok?
      ensures r.Ok? ==> State() == CommitForward(old(State())).value
      ensures r.Ok? ==> streams == ForwardStreams(old(State()), old(streams))
    {
      r := SynchronizeOnGroupCommitForward(currentGroup);
      if r.Raise? { return; }
      currentGroup := currentGroup + 1;
      tensorCountCurrentGroup := 0;
    }

    /** The reload's loop over the tags: every label of the group becomes a tensor again. */
    method RestoreGroup(group: nat, host: map<Key, seq<int>>, alloc: Key -> Key) returns (r: Result<()>)
      modifies this`tensorTagToState
      ensures r.Ok? <==> AllRestorable(old(tensorTagToState), group, host)
      ensures r.Ok? ==> Restored(old(tensorTagToState), tensorTagToState, {}, group, host, alloc)
    {
      ghost var was := tensorTagToState;
      var todo := tensorTagToState.Keys;
      while todo != {}
        invariant Restored(was, tensorTagToState, todo, group, host, alloc)
        decreases |todo|
      {
        var tag :| tag in todo;
        todo := todo - {tag};
        var slot := tensorTagToState[tag];
        if tag.group == group && slot.Evicted? {
          assert slot == was[tag];
          if slot.key !in host { return Raise(KeyError); }
          if Numel(slot.shape) != |host[slot.key]| { return Raise(ShapeError); }
          tensorTagToState := tensorTagToState[tag := Device(Tensor(alloc(slot.key), slot.shape, host[slot.key], false, true))];
        }
      }
      RestoredAll(was, tensorTagToState, group, host, alloc);
      r := Ok(());
    }

    method BulkReloadGroup(groupToReload: nat, alloc: Key -> Key) returns (r: Result<()>)
      modifies this
      ensures r.Ok? <==> BulkReload(old(State()), groupToReload, alloc).Ok?
      ensures r.Ok? ==> State() == BulkReload(old(State()), groupToReload, alloc).value
      ensures r.Ok? ==> streams == old(streams).Issue(CopyIn, groupToReload, |old(groupOffloadMapping)[groupToReload]| > 0)
    {
      if groupToReload >= numOffloadGroup { return Raise(AssertionError); }
      if groupToReload !in groupOffloadMapping { return Raise(KeyError); }
      var offloadMapping := groupOffloadMapping[groupToReload];
      ReloadableIff(State(), groupToReload, alloc);
      groupOffloadMapping := groupOffloadMapping - {groupToReload};
      streams := streams.Issue(CopyIn, groupToReload, |offloadMapping| > 0);
      r := RestoreGroup(groupToReload, offloadMapping, alloc);
      if r.Ok? { RestoredAll(old(tensorTagToState), tensorTagToState, groupToReload, offloadMapping, alloc); }
    }

    /** Waits for the compute stream and starts the reload of the last offloaded group. */
    method ReloadBuffers(alloc: Key -> Key) returns (r: Result<()>)
      requires offloadedGroupCount > 0
      modifies this
      ensures r.Ok? <==> BulkReload(old(State()), old(offloadedGroupCount) - 1, alloc).Ok?
      ensures r.Ok? ==> State() == CountDown(BulkReload(old(State()), old(offloadedGroupCount) - 1, alloc).value)
      ensures r.Ok? ==> streams == ReloadStreams(old(State()), old(streams), old(offloadedGroupCount) - 1)
    {
      ghost var s := State();
      streams := streams.Wait(H2D, Compute);
      streams := streams.Wait(Compute, H2D);
      assert State() == s;
      r := BulkReloadGroup(offloadedGroupCount - 1, alloc);
      if r.Raise? { return; }
      offloadedGroupCount := offloadedGroupCount - if offloadedGroupCount > 1 then 1 else 0;
    }

    /** Reloads the last offloaded group if its window opens at the current group. */
    method OpenNewestWindow(alloc: Key -> Key) returns (r: Result<()>)
      modifies this
      ensures r.Ok? <==> OpenWindow(old(State()), alloc).Ok?
      ensures r.Ok? ==> State() == OpenWindow(old(State()), alloc).value
      ensures r.Ok? ==> streams == OpenStreams(old(State()), old(streams))
    {
      OpenParts(State(), alloc);
      if offloadedGroupCount == 0 || offloadedGroupCount - 1 !in layerWindowMap { return Raise(KeyError); }
      if layerWindowMap[offloadedGroupCount - 1] == currentGroup {
        r := ReloadBuffers(alloc);
      } else {
        r := Ok(());
      }
    }

    method OnGroupCommitBackward(alloc: Key -> Key) returns (r: Result<()>)
      modifies this
      ensures r.Ok? <==> CommitBackward(old(State()), alloc).Ok?
      ensures r.Ok? ==> State() == CommitBackward(old(State()), alloc).value
      ensures r.Ok? ==> old(currentGroup) > 0 && streams == BackwardStreams(old(State()), old(streams))
    {
      ghost var s, st := State(), streams;
      if currentGroup == 0 { return Raise(AssertionError); }
      currentGroup := currentGroup - 1;
      ghost var t := State();
      BackwardParts(s, t, st, alloc);
      r := OpenNewestWindow(alloc);
      if r.Raise? { return; }
      ghost var t1 := State();
      if currentGroup == 0 {
        streams := streams.Wait(Compute, H2D);
        offloadedGroupCount := 0;
      }
      assert State() == AtStart(t1);
    }
  }

  // ---------------------------------------------------------------- how the commits fall into parts

  ghost function NextCopy(s: Async): Result<Async> {
    if s.offloaded + 1 < s.n then BulkOffload(s, s.offloaded + 1) else Ok(s)
  }

  function NextStreams(s: Async, st: Streams): Streams {
    if s.offloaded + 1 < s.n then st.Issue(CopyOut, s.offloaded + 1, HasGroup(s.slots, s.offloaded + 1)) else st
  }

  /** A closing window: free the oldest group, copy out the next, count on. */
  ghost function Rotate(s: Async): Result<Async> {
    var s1 :- NextCopy(s.(bufs := FreeGroup(s.bufs, s.offloaded)));
    Ok(s1.(offloaded := s.offloaded + 1))
  }

  lemma OffloadRefused(s: Async, g: nat)
    requires !forall tag :: tag in s.slots && tag.group == g ==> s.slots[tag].Device?
    ensures BulkOffload(s, g).Raise?
  {}

  lemma OffloadIs(s: Async, g: nat, slots: map<Tag, Slot>, mapping: map<Key, seq<int>>)
    requires forall tag :: tag in s.slots && tag.group == g ==> s.slots[tag].Device?
    requires slots == Evict(s.slots, g) && mapping.Keys == KeysOf(s.slots, g)
    requires forall k :: k in mapping ==> mapping[k] == FlatOf(s.slots, g, k)
    ensures BulkOffload(s, g) == Ok(s.(slots := slots, host := s.host[g := mapping]))
    ensures HasGroup(s.slots, g) <==> |mapping| > 0
  {
    assert mapping == map k | k in KeysOf(s.slots, g) :: FlatOf(s.slots, g, k);
    assert |mapping| == |mapping.Keys|;
    KeysOfGroup(s.slots, g);
  }

  lemma CloseWindowRotates(s: Async)
    ensures CloseWindow(s) == if s.offloaded !in s.window then Raise(KeyError)
                              else if s.window[s.offloaded] != s.group then Ok(s)
                              else Rotate(s)
  {}

  /** After the drop: the copy of the next group, if there is one. */
  lemma RotateParts(s: Async, s1: Async, st: Streams, st1: Streams)
    requires s1 == s.(bufs := FreeGroup(s.bufs, s.offloaded))
    requires st1 == st.Wait(D2H, Compute).Wait(Compute, D2H).Issue(Drop, s.offloaded, HasHeld(s.bufs, s.offloaded))
    ensures Rotate(s).Ok? <==> NextCopy(s1).Ok?
    ensures Rotate(s).Ok? ==> Rotate(s).value == NextCopy(s1).value.(offloaded := NextCopy(s1).value.offloaded + 1)
    ensures RotateStreams(s, st) == NextStreams(s1, st1)
  {}

  lemma CommitParts(s: Async, s1: Async)
    requires if s.group == 0 then BulkOffload(s, 0) == Ok(s1) else s1 == s
    ensures CommitForward(s).Ok? <==> CloseWindow(s1).Ok?
    ensures CommitForward(s).Ok? ==> CommitForward(s).value == CloseWindow(s1).value.(group := s.group + 1, count := 0)
  {}

  /** The first copy changes nothing that the closing window's stream work depends on. */
  lemma CommitStreams(s: Async, s1: Async, st: Streams)
    requires if s.group == 0 then BulkOffload(s, 0) == Ok(s1) else s1 == s
    ensures s.offloaded in s.window ==>
              s1.offloaded == s.offloaded && s1.window == s.window
              && ForwardStreams(s, st) ==
                 WindowStreams(s1, if s.group == 0 then st.Wait(D2H, Compute).Issue(CopyOut, 0, HasGroup(s.slots, 0)) else st)
  {
    if s.group == 0 {
      SameKeys(s.slots, s1.slots, s.offloaded + 1);
    }
  }

  lemma SameKeys(a: map<Tag, Slot>, b: map<Tag, Slot>, g: nat)
    requires a.Keys == b.Keys
    ensures HasGroup(a, g) <==> HasGroup(b, g)
  {
    assert forall tag :: tag in a <==> tag in b;
  }

  /** The backward commit: the window that may open, and the end of the round. */
  lemma BackwardParts(s: Async, t: Async, st: Streams, alloc: Key -> Key)
    requires s.group > 0 && t == s.(group := s.group - 1)
    ensures CommitBackward(s, alloc).Ok? <==> OpenWindow(t, alloc).Ok?
    ensures CommitBackward(s, alloc).Ok? ==> CommitBackward(s, alloc).value == AtStart(OpenWindow(t, alloc).value)
    ensures BackwardStreams(s, st) == if t.group == 0 then OpenStreams(t, st).Wait(Compute, H2D) else OpenStreams(t, st)
  {}

  function OpenStreams(s: Async, st: Streams): Streams {
    if s.offloaded > 0 && s.offloaded - 1 in s.window && s.window[s.offloaded - 1] == s.group
    then ReloadStreams(s, st, s.offloaded - 1)
    else st
  }

  /** A window opens, or does not. */
  lemma OpenParts(s: Async, alloc: Key -> Key)
    ensures if s.offloaded == 0 || s.offloaded - 1 !in s.window then OpenWindow(s, alloc).Raise?
            else if s.window[s.offloaded - 1] != s.group then OpenWindow(s, alloc) == Ok(s)
            else if BulkReload(s, s.offloaded - 1, alloc).Raise? then OpenWindow(s, alloc).Raise?
            else OpenWindow(s, alloc) == Ok(CountDown(BulkReload(s, s.offloaded - 1, alloc).value))
  {
    if s.offloaded > 0 && s.offloaded - 1 in s.window && BulkReload(s, s.offloaded - 1, alloc).Ok? {
      ReloadControl(s, s.offloaded - 1, alloc);
    }
  }

  function CountDown(s: Async): Async { if s.offloaded > 1 then s.(offloaded := s.offloaded - 1) else s }

  function AtStart(s: Async): Async { if s.group == 0 then s.(offloaded := 0) else s }

  /** Offloading one group leaves the others faithful. */
  lemma StillFaithful(s: Async, g: nat, group: nat)
    requires Faithful(s.slots, group) && BulkOffload(s, g).Ok?
    ensures Faithful(BulkOffload(s, g).value.slots, group)
    ensures BulkOffload(s, g).value.offloaded == s.offloaded
  {}

  lemma ReloadableIff(s: Async, g: nat, alloc: Key -> Key)
    requires g < s.n && g in s.host
    ensures BulkReload(s, g, alloc).Ok? <==> AllRestorable(s.slots, g, s.host[g])
  {}
}
