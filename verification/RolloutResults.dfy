/** Success rates, credit assignment and data collection on the records of a rollout. */
module RolloutResults {
  import opened Credit
  import opened Results
  import Rollout
  import opened RolloutHistory
  import opened RolloutModel

  // ---------------------------------------------------------------- success

  /** Attempt k or an earlier one was won in a play step. */
  ghost predicate WonUpTo(recs: seq<Record>, infos: seq<Info>, k: int) {
    exists t: nat :: t < |recs| && WinAt(recs, infos, t) && recs[t].traj <= k
  }

  predicate WinAt(recs: seq<Record>, infos: seq<Info>, t: nat)
    requires t < |recs|
  {
    recs[t].active && recs[t].phase == Play && t < |infos| && infos[t].won
  }

  /** What was noted for a reflection, or for an inactive record, does not count. */
  lemma OnlyActivePlaysCount(recs: seq<Record>, infos: seq<Info>, k: int, t: nat, other: Info)
    requires t < |recs| && t < |infos| && (recs[t].phase == Reflect || !recs[t].active)
    ensures WonUpTo(recs, infos[t := other], k) <==> WonUpTo(recs, infos, k)
  {
    forall u: nat | u < |recs| ensures WinAt(recs, infos[t := other], u) <==> WinAt(recs, infos, u) {}
  }

  ghost predicate WonIn(recs: seq<Record>, infos: seq<Info>, from: nat, k: nat) {
    exists t: nat :: from <= t < |recs| && WinAt(recs, infos, t) && recs[t].traj == k
  }

  /** What the evaluator looks up exists. */
  ghost predicate Indexed(numAttempts: nat, recs: seq<Record>, infos: seq<Info>) {
    forall t: nat :: t < |recs| && recs[t].active ==> t < |infos| && (recs[t].phase == Play ==> recs[t].traj < numAttempts)
  }

  /** `wons` of one environment. */
  method WinsOf(numAttempts: nat, recs: seq<Record>, infos: seq<Info>) returns (r: Result<seq<bool>>)
    ensures r.Ok? <==> Indexed(numAttempts, recs, infos)
    ensures r.Raise? ==> r.error == IndexError
    ensures r.Ok? ==> |r.value| == numAttempts && forall k: nat :: k < numAttempts ==> (r.value[k] <==> WonIn(recs, infos, 0, k))
  {
    var wons := seq(numAttempts, _ => false);
    var i: nat := |recs|;
    while i > 0
      invariant i <= |recs| && |wons| == numAttempts
      invariant forall t: nat :: i <= t < |recs| && recs[t].active ==> t < |infos| && (recs[t].phase == Play ==> recs[t].traj < numAttempts)
      invariant forall k: nat :: k < numAttempts ==> (wons[k] <==> WonIn(recs, infos, i, k))
    {
      i := i - 1;
      ghost var before := wons;
      if recs[i].active {
        if i >= |infos| { return Raise(IndexError); }
        if recs[i].phase == Play {
          if recs[i].traj >= numAttempts { return Raise(IndexError); }
          wons := wons[recs[i].traj := wons[recs[i].traj] || infos[i].won];
        }
      }
      forall k: nat | k < numAttempts ensures wons[k] <==> WonIn(recs, infos, i, k) {
        WonInStep(recs, infos, i, k);
      }
    }
    return Ok(wons);
  }

  lemma WonInStep(recs: seq<Record>, infos: seq<Info>, i: nat, k: nat)
    requires i < |recs|
    ensures WonIn(recs, infos, i, k) <==> WonIn(recs, infos, i + 1, k) || (WinAt(recs, infos, i) && recs[i].traj == k)
  {}

  lemma WonUpToStep(recs: seq<Record>, infos: seq<Info>, k: nat)
    ensures WonUpTo(recs, infos, k) <==> WonUpTo(recs, infos, k - 1) || WonIn(recs, infos, 0, k)
  {}

  /** `success_rate[k]` lists, environment by environment, whether an attempt up to k was won. */
  method SuccessEvaluator(numAttempts: nat, recs: seq<seq<Record>>, infos: seq<seq<Info>>) returns (r: Result<seq<seq<bool>>>)
    requires |infos| == |recs|
    ensures r.Ok? <==> forall i: nat :: i < |recs| ==> Indexed(numAttempts, recs[i], infos[i])
    ensures r.Raise? ==> r.error == IndexError
    ensures r.Ok? ==> |r.value| == numAttempts && forall k: nat :: k < numAttempts ==>
              |r.value[k]| == |recs| && forall i: nat :: i < |recs| ==> (r.value[k][i] <==> WonUpTo(recs[i], infos[i], k))
  {
    var success: seq<seq<bool>> := seq(numAttempts, _ => []);
    var i := 0;
    while i < |recs|
      invariant i <= |recs| && |success| == numAttempts
      invariant forall b: nat :: b < i ==> Indexed(numAttempts, recs[b], infos[b])
      invariant forall k: nat :: k < numAttempts ==>
                  |success[k]| == i && forall b: nat :: b < i ==> (success[k][b] <==> WonUpTo(recs[b], infos[b], k))
    {
      var wons := WinsOf(numAttempts, recs[i], infos[i]);
      if wons.Raise? { return Raise(wons.error); }
      success := AppendRunning(success, wons.value, recs[i], infos[i]);
      i := i + 1;
    }
    return Ok(success);
  }

  /** Appends the running disjunction of `wons`, one value per attempt. */
  method AppendRunning(success: seq<seq<bool>>, wons: seq<bool>, ghost recs: seq<Record>, ghost infos: seq<Info>)
    returns (out: seq<seq<bool>>)
    requires |success| == |wons| && forall k: nat :: k < |wons| ==> (wons[k] <==> WonIn(recs, infos, 0, k))
    ensures |out| == |success|
    ensures forall k: nat :: k < |out| ==>
              |out[k]| == |success[k]| + 1 && out[k][..|success[k]|] == success[k] && (out[k][|success[k]|] <==> WonUpTo(recs, infos, k))
  {
    out := success;
    var won, k := false, 0;
    while k < |wons|
      invariant k <= |wons| && |out| == |success| && (won <==> WonUpTo(recs, infos, k - 1))
      invariant forall q: nat :: k <= q < |out| ==> out[q] == success[q]
      invariant forall q: nat :: q < k ==>
                  |out[q]| == |success[q]| + 1 && out[q][..|success[q]|] == success[q] && (out[q][|success[q]|] <==> WonUpTo(recs, infos, q))
    {
      WonUpToStep(recs, infos, k);
      won := won || wons[k];
      out := out[k := out[k] + [won]];
      k := k + 1;
    }
  }

  // ---------------------------------------------------------------- credit assignment

  /** The backward loop over one environment's steps. */
  method DiscountedReturns(steps: seq<Record>, sg: real, tg: real) returns (r: Result<seq<real>>)
    ensures r == Raise(IndexError) <==> steps == []
    ensures r.Ok? || r == Raise(IndexError)
    ensures r.Ok? ==> |r.value| == |steps| && forall t: nat :: t < |steps| ==> r.value[t] == Return(steps, t, sg, tg)
  {
    if |steps| == 0 { return Raise(IndexError); }
    var running := 0.0;
    var returns_ := seq(|steps|, _ => 0.0);
    var cur := steps[|steps| - 1].traj;
    var t: nat := |steps|;
    while t > 0
      invariant t <= |steps| == |returns_|
      invariant Carry(running, cur) == Scan(steps[t..], sg, tg, Last(steps))
      invariant forall u: nat :: t <= u < |steps| ==> returns_[u] == Return(steps, u, sg, tg)
    {
      t := t - 1;
      var step := steps[t];
      assert steps[t..][1..] == steps[t + 1..] && steps[t..][0] == step;
      ghost var next := Carry(running, cur);
      if step.phase == Play {
        if step.traj == cur {
          running := step.reward + sg * running;
        } else {
          running := step.reward + tg * running;
        }
        cur := step.traj;
      }
      assert Carry(running, cur) == Back(step, next, sg, tg);
      returns_ := returns_[t := running];
    }
    return Ok(returns_);
  }

  /** The undiscounted play reward of attempt k. */
  function AttemptReward(steps: seq<Record>, k: nat): real {
    if steps == [] then 0.0
    else
      var n := |steps| - 1;
      AttemptReward(steps[..n], k) + (if steps[n].phase == Play && steps[n].traj == k then steps[n].reward else 0.0)
  }

  ghost predicate AttemptsBelow(steps: seq<Record>, n: nat) {
    forall t: nat :: t < |steps| && steps[t].phase == Play ==> steps[t].traj < n
  }

  /** Every play step gets the reward of its whole attempt, every reflection 0. */
  method EpisodeRewards(steps: seq<Record>, numAttempts: nat) returns (r: Result<seq<real>>)
    ensures r.Ok? <==> AttemptsBelow(steps, numAttempts)
    ensures r.Ok? || r == Raise(IndexError)
    ensures r.Ok? ==> |r.value| == |steps| && forall t: nat :: t < |steps| ==>
              r.value[t] == if steps[t].phase == Play then AttemptReward(steps, steps[t].traj) else 0.0
  {
    var cumulative := seq(numAttempts, _ => 0.0);
    var t := 0;
    while t < |steps|
      invariant t <= |steps| && |cumulative| == numAttempts
      invariant forall u: nat :: u < t && steps[u].phase == Play ==> steps[u].traj < numAttempts
      invariant forall k: nat :: k < numAttempts ==> cumulative[k] == AttemptReward(steps[..t], k)
    {
      assert steps[..t + 1][..t] == steps[..t];
      if steps[t].phase == Play {
        if steps[t].traj >= numAttempts { return Raise(IndexError); }
        cumulative := cumulative[steps[t].traj := cumulative[steps[t].traj] + steps[t].reward];
      }
      t := t + 1;
    }
    assert steps[..|steps|] == steps;
    var rewards: seq<real> := [];
    t := 0;
    while t < |steps|
      invariant t <= |steps| && |rewards| == t
      invariant forall u: nat :: u < t ==> rewards[u] == if steps[u].phase == Play then AttemptReward(steps, steps[u].traj) else 0.0
    {
      rewards := rewards + [if steps[t].phase == Play then cumulative[steps[t].traj] else 0.0];
      t := t + 1;
    }
    return Ok(rewards);
  }

  function RewardUpTo(steps: seq<Record>, n: nat): real {
    if n == 0 then 0.0 else RewardUpTo(steps, n - 1) + AttemptReward(steps, n - 1)
  }

  function PlayReward(steps: seq<Record>): real {
    if steps == [] then 0.0
    else PlayReward(steps[..|steps| - 1]) + (if steps[|steps| - 1].phase == Play then steps[|steps| - 1].reward else 0.0)
  }

  lemma {:induction false} LastCounts(steps: seq<Record>, n: nat)
    requires steps != []
    ensures var last := steps[|steps| - 1];
            RewardUpTo(steps, n) == RewardUpTo(steps[..|steps| - 1], n)
                                    + (if last.phase == Play && last.traj < n then last.reward else 0.0)
  {
    if n > 0 { LastCounts(steps, n - 1); }
  }

  /** No play reward is lost or counted twice over the attempts. */
  lemma {:induction false} AttemptsConserveReward(steps: seq<Record>, n: nat)
    requires AttemptsBelow(steps, n)
    ensures RewardUpTo(steps, n) == PlayReward(steps)
    decreases |steps|
  {
    if steps == [] {
      NothingUpTo(n);
    } else {
      var before := steps[..|steps| - 1];
      assert forall t: nat :: t < |before| ==> before[t] == steps[t];
      AttemptsConserveReward(before, n);
      LastCounts(steps, n);
    }
  }

  /** The records of one attempt, in order. */
  function AttemptOf(steps: seq<Record>, k: nat): seq<Record> {
    if steps == [] then []
    else AttemptOf(steps[..|steps| - 1], k) + (if steps[|steps| - 1].traj == k then [steps[|steps| - 1]] else [])
  }

  /** An attempt's reward is what its own play records earned. */
  lemma {:induction false} AttemptRewardIsOwn(steps: seq<Record>, k: nat)
    ensures AttemptReward(steps, k) == PlayReward(AttemptOf(steps, k))
  {
    if steps == [] {
    } else {
      var n := |steps| - 1;
      AttemptRewardIsOwn(steps[..n], k);
      PlayPush(AttemptOf(steps[..n], k), steps[n]);
      assert AttemptOf(steps[..n], k) + [] == AttemptOf(steps[..n], k);
    }
  }

  lemma PlayPush(steps: seq<Record>, r: Record)
    ensures PlayReward(steps + [r]) == PlayReward(steps) + if r.phase == Play then r.reward else 0.0
  {
    assert (steps + [r])[..|steps|] == steps;
  }

  lemma {:induction false} NothingUpTo(n: nat)
    ensures RewardUpTo([], n) == 0.0
  {
    if n > 0 { NothingUpTo(n - 1); }
  }

  method CreditAssignment(recs: seq<seq<Record>>, numAttempts: nat, sg: real, tg: real)
    returns (r: Result<(seq<seq<real>>, seq<seq<real>>)>)
    ensures r.Ok? <==> forall i: nat :: i < |recs| ==> recs[i] != [] && AttemptsBelow(recs[i], numAttempts)
    ensures r.Ok? || r == Raise(IndexError)
    ensures r.Ok? ==> |r.value.0| == |r.value.1| == |recs|
    ensures r.Ok? ==> forall i: nat :: i < |recs| ==> Assigned(recs[i], sg, tg, r.value.0[i], r.value.1[i])
  {
    var returns_: seq<seq<real>> := [];
    var i := 0;
    while i < |recs|
      invariant i <= |recs| && |returns_| == i && forall b: nat :: b < i ==> recs[b] != []
      invariant forall b: nat :: b < i ==> ReturnsOf(recs[b], sg, tg, returns_[b])
    {
      var steps := DiscountedReturns(recs[i], sg, tg);
      if steps.Raise? { return Raise(IndexError); }
      returns_ := returns_ + [steps.value];
      i := i + 1;
    }
    var rewards: seq<seq<real>> := [];
    i := 0;
    while i < |recs|
      invariant i <= |recs| && |rewards| == i && forall b: nat :: b < i ==> AttemptsBelow(recs[b], numAttempts)
      invariant forall b: nat :: b < i ==> RewardsOf(recs[b], rewards[b])
    {
      var steps := EpisodeRewards(recs[i], numAttempts);
      if steps.Raise? { return Raise(IndexError); }
      rewards := rewards + [steps.value];
      i := i + 1;
    }
    return Ok((rewards, returns_));
  }

  ghost predicate ReturnsOf(steps: seq<Record>, sg: real, tg: real, returns_: seq<real>) {
    |returns_| == |steps| && forall t: nat :: t < |steps| ==> returns_[t] == Return(steps, t, sg, tg)
  }

  ghost predicate RewardsOf(steps: seq<Record>, rewards: seq<real>) {
    && |rewards| == |steps|
    && forall t: nat :: t < |steps| ==>
         rewards[t] == if steps[t].phase == Play then AttemptReward(steps, steps[t].traj) else 0.0
  }

  ghost predicate Assigned(steps: seq<Record>, sg: real, tg: real, rewards: seq<real>, returns_: seq<real>) {
    RewardsOf(steps, rewards) && ReturnsOf(steps, sg, tg, returns_)
  }

  // ---------------------------------------------------------------- the collected batch

  /** One row of the training batch. */
  datatype Row = Row(record: Record, episodeReward: real, stepReturn: real, length: nat)

  /** The rows of one environment's first n records. */
  function RowsOf(steps: seq<Record>, rewards: seq<real>, returns_: seq<real>, length: nat, n: nat): seq<Row>
    requires n <= |steps| && |rewards| == |returns_| == |steps|
  {
    if n == 0 then []
    else RowsOf(steps, rewards, returns_, length, n - 1)
         + (if steps[n - 1].active then [Row(steps[n - 1], rewards[n - 1], returns_[n - 1], length)] else [])
  }

  function AllRows(recs: seq<seq<Record>>, rewards: seq<seq<real>>, returns_: seq<seq<real>>, lengths: seq<nat>, n: nat): seq<Row>
    requires n <= |recs| == |rewards| == |returns_| == |lengths|
    requires forall i: nat :: i < |recs| ==> |rewards[i]| == |returns_[i]| == |recs[i]|
  {
    if n == 0 then []
    else AllRows(recs, rewards, returns_, lengths, n - 1) + RowsOf(recs[n - 1], rewards[n - 1], returns_[n - 1], lengths[n - 1], |recs[n - 1]|)
  }

  /** Record t's row. */
  ghost predicate RowIs(row: Row, steps: seq<Record>, rewards: seq<real>, returns_: seq<real>, length: nat, t: nat)
    requires t < |steps| == |rewards| == |returns_|
  {
    row == Row(steps[t], rewards[t], returns_[t], length)
  }

  /** Row r stands for one of the first n records, an active one. */
  ghost predicate FromRecord(row: Row, steps: seq<Record>, rewards: seq<real>, returns_: seq<real>, length: nat, n: nat)
    requires n <= |steps| == |rewards| == |returns_|
  {
    exists t: nat :: t < n && steps[t].active && RowIs(row, steps, rewards, returns_, length, t)
  }

  ghost predicate HasRow(rows: seq<Row>, steps: seq<Record>, rewards: seq<real>, returns_: seq<real>, length: nat, t: nat)
    requires t < |steps| == |rewards| == |returns_|
  {
    exists r: nat :: r < |rows| && RowIs(rows[r], steps, rewards, returns_, length, t)
  }

  /** Exactly the active records have rows: every row stands for one, and every one has its row. */
  lemma {:induction false} RowsAreActive(steps: seq<Record>, rewards: seq<real>, returns_: seq<real>, length: nat, n: nat)
    requires n <= |steps| == |rewards| == |returns_|
    ensures var rows := RowsOf(steps, rewards, returns_, length, n);
            && (forall r: nat :: r < |rows| ==> FromRecord(rows[r], steps, rewards, returns_, length, n))
            && (forall t: nat :: t < n && steps[t].active ==> HasRow(rows, steps, rewards, returns_, length, t))
  {
    if n == 0 {
    } else {
      RowsAreActive(steps, rewards, returns_, length, n - 1);
      var before, rows := RowsOf(steps, rewards, returns_, length, n - 1), RowsOf(steps, rewards, returns_, length, n);
      assert forall r: nat :: r < |before| ==> rows[r] == before[r];
      forall t: nat | t < n && steps[t].active ensures HasRow(rows, steps, rewards, returns_, length, t) {
        if t < n - 1 {
          StillHasRow(before, rows, steps, rewards, returns_, length, t);
        } else {
          assert RowIs(rows[|before|], steps, rewards, returns_, length, t);
        }
      }
      forall r: nat | r < |rows| ensures FromRecord(rows[r], steps, rewards, returns_, length, n) {
        if r < |before| {
          assert FromRecord(before[r], steps, rewards, returns_, length, n - 1);
        } else {
          assert RowIs(rows[r], steps, rewards, returns_, length, n - 1);
        }
      }
    }
  }

  lemma StillHasRow(before: seq<Row>, rows: seq<Row>, steps: seq<Record>, rewards: seq<real>, returns_: seq<real>, length: nat, t: nat)
    requires t < |steps| == |rewards| == |returns_| && before <= rows && HasRow(before, steps, rewards, returns_, length, t)
    ensures HasRow(rows, steps, rewards, returns_, length, t)
  {
    var r: nat :| r < |before| && RowIs(before[r], steps, rewards, returns_, length, t);
    assert rows[r] == before[r];
  }

  ghost predicate SameUid(steps: seq<Record>, uid: int, n: nat)
    requires n <= |steps|
  {
    forall t: nat :: t < n ==> steps[t].uid == uid
  }

  /** Collects the active records of all environments; every record must belong to its environment. */
  method GatherRolloutData(recs: seq<seq<Record>>, rewards: seq<seq<real>>, returns_: seq<seq<real>>, lengths: seq<nat>, uids: seq<int>)
    returns (r: Result<seq<Row>>)
    requires |recs| == |rewards| == |returns_| == |lengths| == |uids|
    requires forall i: nat :: i < |recs| ==> |rewards[i]| == |returns_[i]| == |recs[i]|
    ensures r.Ok? <==> forall i: nat :: i < |recs| ==> SameUid(recs[i], uids[i], |recs[i]|)
    ensures r.Ok? || r == Raise(AssertionError)
    ensures r.Ok? ==> r.value == AllRows(recs, rewards, returns_, lengths, |recs|)
  {
    var rows: seq<Row> := [];
    var bs := 0;
    while bs < |recs|
      invariant bs <= |recs| && rows == AllRows(recs, rewards, returns_, lengths, bs)
      invariant forall i: nat :: i < bs ==> SameUid(recs[i], uids[i], |recs[i]|)
    {
      var steps := recs[bs];
      ghost var before := rows;
      var t := 0;
      while t < |steps|
        invariant t <= |steps| && SameUid(steps, uids[bs], t)
        invariant rows == before + RowsOf(steps, rewards[bs], returns_[bs], lengths[bs], t)
      {
        if uids[bs] != steps[t].uid { return Raise(AssertionError); }
        if steps[t].active {
          rows := rows + [Row(steps[t], rewards[bs][t], returns_[bs][t], lengths[bs])];
        }
        t := t + 1;
      }
      bs := bs + 1;
    }
    return Ok(rows);
  }

  // ---------------------------------------------------------------- the whole rollout

  function RowAt(steps: seq<Record>, t: nat, sg: real, tg: real): Row
    requires t < |steps|
  {
    Row(steps[t], if steps[t].phase == Play then AttemptReward(steps, steps[t].traj) else 0.0, Return(steps, t, sg, tg), |steps|)
  }

  function MemberRows(steps: seq<Record>, sg: real, tg: real): seq<Row> {
    seq(|steps|, t requires 0 <= t < |steps| => RowAt(steps, t, sg, tg))
  }

  /** All rows of the first n environments, environment by environment. */
  function Collected(c: Config, env: Oracle, uids: seq<int>, ran: seq<nat>, sg: real, tg: real, n: nat): seq<Row>
    requires ran != [] && |ran| == |Schedule(c, c.numAttempts)| && n <= |uids|
  {
    if n == 0 then []
    else Collected(c, env, uids, ran, sg, tg, n - 1) + MemberRows(Final(c, env, n - 1, uids[n - 1], ran).recs, sg, tg)
  }

  lemma {:induction false} RowsAreMemberRows(steps: seq<Record>, rewards: seq<real>, returns_: seq<real>, sg: real, tg: real, n: nat)
    requires n <= |steps| && Assigned(steps, sg, tg, rewards, returns_) && forall t: nat :: t < |steps| ==> steps[t].active
    ensures RowsOf(steps, rewards, returns_, |steps|, n) == MemberRows(steps, sg, tg)[..n]
  {
    if n > 0 {
      RowsAreMemberRows(steps, rewards, returns_, sg, tg, n - 1);
      assert MemberRows(steps, sg, tg)[n - 1] == Row(steps[n - 1], rewards[n - 1], returns_[n - 1], |steps|);
    }
  }

  /** What the loop hands to credit assignment and collection. */
  ghost predicate Rolled(c: Config, env: Oracle, uids: seq<int>, ran: seq<nat>, i: nat, steps: seq<Record>, length: nat)
    requires ran != [] && |ran| == |Schedule(c, c.numAttempts)| && i < |uids|
  {
    && steps == Final(c, env, i, uids[i], ran).recs && length == |steps| && steps != []
    && AttemptsBelow(steps, c.numAttempts) && SameUid(steps, uids[i], |steps|)
    && forall t: nat :: t < |steps| ==> steps[t].active
  }

  /** Some phase of the schedule has a step, so every environment gets a record. */
  predicate Fruitful(c: Config) { c.numAttempts > 0 && (c.maxTurns > 0 || (c.doReflection && c.numAttempts > 1)) }

  /** A step has been taken. */
  ghost predicate Begun(ran: seq<nat>, j: nat) { j > 0 || exists p: nat :: p < |ran| && ran[p] > 0 }

  /** What holds of a member at every point of every rollout, with any number of turns. */
  ghost predicate Plain(m: Member, uid: int, attempts: nat, begun: bool) {
    && |m.infos| == |m.recs| == m.length && (m.recs != [] <==> begun) && (begun || (!m.done && !m.won))
    && AttemptsBelow(m.recs, attempts) && SameUid(m.recs, uid, |m.recs|) && forall t: nat :: t < |m.recs| ==> m.recs[t].active
  }

  lemma BegunBefore(ran: seq<nat>)
    requires ran != []
    ensures Begun(ran, 0) <==> Begun(ran[..|ran| - 1], ran[|ran| - 1])
  {
    var p, before := |ran| - 1, ran[..|ran| - 1];
    if Begun(ran, 0) {
      var q: nat :| q < |ran| && ran[q] > 0;
      if q < p { assert before[q] > 0; }
    }
    if Begun(before, ran[p]) && ran[p] == 0 {
      var q: nat :| q < p && before[q] > 0;
      assert ran[q] > 0;
    }
  }

  lemma {:induction false} HistoryIsPlain(sched: seq<Entry>, env: Oracle, i: nat, uid: int, ran: seq<nat>, j: nat, attempts: nat)
    requires |ran| < |sched| && forall p: nat :: p < |sched| ==> sched[p].attempt < attempts
    ensures Plain(History(sched, env, i, uid, ran, j), uid, attempts, Begun(ran, j))
    decreases |ran|, j
  {
    if j > 0 {
      HistoryIsPlain(sched, env, i, uid, ran, j - 1, attempts);
    } else if ran != [] {
      HistoryIsPlain(sched, env, i, uid, ran[..|ran| - 1], ran[|ran| - 1], attempts);
      BegunBefore(ran);
    }
  }

  /** A rollout takes a step exactly when its schedule has one. */
  lemma BegunIffFruitful(c: Config, env: Oracle, uids: seq<int>, ran: seq<nat>)
    requires |ran| == |Schedule(c, c.numAttempts)| && Ran(Schedule(c, c.numAttempts), env, uids, ran)
    ensures Fruitful(c) <==> exists p: nat :: p < |ran| && ran[p] > 0
  {
    var sched := Schedule(c, c.numAttempts);
    if c.numAttempts > 0 {
      ScheduleEntries(c, c.numAttempts);
      forall p: nat | p < |ran| ensures ran[p] > 0 <==> sched[p].steps > 0 {
        assert StopsAt(sched, env, uids, ran[..p], ran[p]);
      }
      if Fruitful(c) {
        var p := if c.maxTurns > 0 then 0 else 1;
        assert sched[p].steps > 0 && ran[p] > 0;
      }
    }
  }

  lemma RolloutIsRolled(c: Config, env: Oracle, uids: seq<int>, ran: seq<nat>, i: nat)
    requires |ran| == |Schedule(c, c.numAttempts)| && Ran(Schedule(c, c.numAttempts), env, uids, ran) && i < |uids| && ran != []
    ensures var m := Final(c, env, i, uids[i], ran);
            && Indexed(c.numAttempts, m.recs, m.infos) && (Fruitful(c) <==> m.recs != [])
            && (Fruitful(c) ==> Rolled(c, env, uids, ran, i, m.recs, m.length))
  {
    ScheduleEntries(c, c.numAttempts);
    HistoryIsPlain(Schedule(c, c.numAttempts), env, i, uids[i], ran[..|ran| - 1], ran[|ran| - 1], c.numAttempts);
    BegunIffFruitful(c, env, uids, ran);
    BegunBefore(ran);
  }

  lemma {:induction false} AllRowsAreCollected(c: Config, env: Oracle, uids: seq<int>, ran: seq<nat>, sg: real, tg: real,
                              recs: seq<seq<Record>>, rewards: seq<seq<real>>, returns_: seq<seq<real>>, lengths: seq<nat>, n: nat)
    requires ran != [] && |ran| == |Schedule(c, c.numAttempts)|
    requires n <= |uids| == |recs| == |rewards| == |returns_| == |lengths|
    requires forall i: nat :: i < |uids| ==> Rolled(c, env, uids, ran, i, recs[i], lengths[i])
    requires forall i: nat :: i < |uids| ==> Assigned(recs[i], sg, tg, rewards[i], returns_[i])
    requires forall i: nat :: i < |recs| ==> |rewards[i]| == |returns_[i]| == |recs[i]|
    ensures AllRows(recs, rewards, returns_, lengths, n) == Collected(c, env, uids, ran, sg, tg, n)
  {
    if n > 0 {
      AllRowsAreCollected(c, env, uids, ran, sg, tg, recs, rewards, returns_, lengths, n - 1);
      var steps := recs[n - 1];
      RowsAreMemberRows(steps, rewards[n - 1], returns_[n - 1], sg, tg, |steps|);
      assert MemberRows(steps, sg, tg)[..|steps|] == MemberRows(steps, sg, tg);
    }
  }

  /** The rollout raises nothing exactly when its schedule has a step (or there is no environment); then it
      returns every record once, in order, with its episode reward and its return. */
  method MultiTurnLoop(c: Config, env: Oracle, uids: seq<int>, sg: real, tg: real)
    returns (r: Result<seq<Row>>, success: Result<seq<seq<bool>>>, ghost ran: seq<nat>)
    ensures |ran| == |Schedule(c, c.numAttempts)| && Ran(Schedule(c, c.numAttempts), env, uids, ran)
    ensures r.Ok? <==> Fruitful(c) || uids == []
    ensures r.Ok? || r == Raise(IndexError)
    ensures r.Ok? ==> if uids == [] then r.value == [] else ran != [] && r.value == Collected(c, env, uids, ran, sg, tg, |uids|)
    ensures success.Ok? && |success.value| == c.numAttempts
    ensures forall k: nat :: k < c.numAttempts ==>
              ran != [] && |success.value[k]| == |uids| && forall i: nat :: i < |uids| ==>
                (success.value[k][i] <==> var m := Final(c, env, i, uids[i], ran); WonUpTo(m.recs, m.infos, k))
  {
    var recs, infos, lengths;
    recs, infos, lengths, ran := Rollout.VanillaMultiTurnLoop(c, env, uids);
    if c.numAttempts > 0 { ScheduleEntries(c, c.numAttempts); }
    forall i: nat | i < |uids|
      ensures Indexed(c.numAttempts, recs[i], infos[i]) && (Fruitful(c) <==> recs[i] != [])
      ensures Fruitful(c) ==> ran != [] && Rolled(c, env, uids, ran, i, recs[i], lengths[i])
    {
      if ran != [] { RolloutIsRolled(c, env, uids, ran, i); }
    }
    success := SuccessEvaluator(c.numAttempts, recs, infos);
    var credit := CreditAssignment(recs, c.numAttempts, sg, tg);
    if credit.Raise? { return Raise(credit.error), success, ran; }
    r := GatherRolloutData(recs, credit.value.0, credit.value.1, lengths, uids);
    if uids != [] {
      AllRowsAreCollected(c, env, uids, ran, sg, tg, recs, credit.value.0, credit.value.1, lengths, |uids|);
    }
  }
}
