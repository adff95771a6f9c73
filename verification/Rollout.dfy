/** The rollout loop of metarl_rollout_loop.py and what is read off its records. */
module Rollout {
  import opened RolloutHistory
  import opened RolloutModel

  /** The loop's per-environment arrays and lists, read for one environment. */
  function At(recs: seq<seq<Record>>, infos: seq<seq<Info>>, lengths: seq<nat>, done: seq<bool>, won: seq<bool>, i: nat): Member
    requires i < |recs| == |infos| == |lengths| == |done| == |won|
  {
    Member(recs[i], infos[i], lengths[i], done[i], won[i])
  }

  /** Every environment's data is its history. */
  ghost predicate Tracks(sched: seq<Entry>, env: Oracle, uids: seq<int>, ran: seq<nat>, j: nat, recs: seq<seq<Record>>,
                         infos: seq<seq<Info>>, lengths: seq<nat>, done: seq<bool>, won: seq<bool>)
  {
    && |ran| < |sched| && |recs| == |infos| == |lengths| == |done| == |won| == |uids|
    && forall i: nat :: i < |uids| ==> At(recs, infos, lengths, done, won, i) == History(sched, env, i, uids[i], ran, j)
  }

  method BuildSchedule(c: Config) returns (sched: seq<Entry>)
    ensures sched == Schedule(c, c.numAttempts)
  {
    sched := [];
    var attempt := 0;
    while attempt < c.numAttempts
      invariant attempt <= c.numAttempts && sched == Schedule(c, attempt)
    {
      if attempt == 0 {
        sched := sched + [Entry(attempt, Play, c.maxTurns)];
      } else {
        if c.doReflection {
          sched := sched + [Entry(attempt, Reflect, 1)];
        }
        sched := sched + [Entry(attempt, Play, c.maxTurns)];
      }
      attempt := attempt + 1;
    }
  }

  /** One step of a phase: record the active environments, then take in what was reported. */
  method StepAll(sched: seq<Entry>, e: Entry, env: Oracle, uids: seq<int>, ghost ran: seq<nat>, p: nat, j: nat,
                 recs: seq<seq<Record>>, infos: seq<seq<Info>>, lengths: seq<nat>, done: seq<bool>, won: seq<bool>)
    returns (recs': seq<seq<Record>>, infos': seq<seq<Info>>, lengths': seq<nat>, done': seq<bool>, won': seq<bool>)
    requires Tracks(sched, env, uids, ran, j, recs, infos, lengths, done, won) && p == |ran| && e == sched[p]
    ensures Tracks(sched, env, uids, ran, j + 1, recs', infos', lengths', done', won')
  {
    var n := |uids|;
    var active := seq(n, i requires 0 <= i < n => !done[i]);
    lengths' := seq(n, i requires 0 <= i < n => if active[i] then lengths[i] + 1 else lengths[i]);
    recs', infos' := recs, infos;
    var i := 0;
    while i < n
      invariant i <= n && |recs'| == |infos'| == n
      invariant forall k: nat :: k < n ==>
                  && recs'[k] == (if k < i && active[k] then recs[k] + [Noted(e, j, uids[k], env(p, j, k))] else recs[k])
                  && infos'[k] == (if k < i && active[k] then infos[k] + [Info(Reported(env(p, j, k), e.phase).won)] else infos[k])
    {
      if active[i] {
        recs' := recs'[i := recs'[i] + [Record(e.attempt, e.phase, j, env(p, j, i).reward, active[i], uids[i])]];
        infos' := infos'[i := infos'[i] + [Info(Reported(env(p, j, i), e.phase).won)]];
      }
      i := i + 1;
    }
    done' := seq(n, i requires 0 <= i < n => done[i] || Reported(env(p, j, i), e.phase).done);
    won' := seq(n, i requires 0 <= i < n => won[i] || Reported(env(p, j, i), e.phase).won);
    forall k: nat | k < n
      ensures At(recs', infos', lengths', done', won', k) == History(sched, env, k, uids[k], ran, j + 1)
    {
      assert At(recs, infos, lengths, done, won, k) == History(sched, env, k, uids[k], ran, j);
    }
  }

  /** `is_done.all()`. */
  method All(done: seq<bool>) returns (all: bool)
    ensures all <==> forall i: nat :: i < |done| ==> done[i]
  {
    var i := 0;
    while i < |done|
      invariant i <= |done| && forall k: nat :: k < i ==> done[k]
    {
      if !done[i] { return false; }
      i := i + 1;
    }
    return true;
  }

  /** One phase: steps until everyone is done. */
  method RunPhase(sched: seq<Entry>, e: Entry, env: Oracle, uids: seq<int>, ghost ran: seq<nat>, p: nat,
                  recs: seq<seq<Record>>, infos: seq<seq<Info>>, lengths: seq<nat>, done: seq<bool>, won: seq<bool>)
    returns (recs': seq<seq<Record>>, infos': seq<seq<Info>>, lengths': seq<nat>, done': seq<bool>, won': seq<bool>, j: nat)
    requires Tracks(sched, env, uids, ran, 0, recs, infos, lengths, done, won) && p == |ran| && e == sched[p]
    ensures Tracks(sched, env, uids, ran, j, recs', infos', lengths', done', won') && StopsAt(sched, env, uids, ran, j)
  {
    recs', infos', lengths', done', won' := recs, infos, lengths, done, won;
    j := 0;
    while j < e.steps
      invariant j <= e.steps && Tracks(sched, env, uids, ran, j, recs', infos', lengths', done', won')
      invariant forall s: nat :: 0 < s <= j ==> !AllDone(sched, env, uids, ran, s)
    {
      recs', infos', lengths', done', won' := StepAll(sched, e, env, uids, ran, p, j, recs', infos', lengths', done', won');
      j := j + 1;
      var all := All(done');
      SameDone(sched, env, uids, ran, j, recs', infos', lengths', done', won');
      if all { break; }
    }
  }

  lemma SameDone(sched: seq<Entry>, env: Oracle, uids: seq<int>, ran: seq<nat>, j: nat, recs: seq<seq<Record>>,
                 infos: seq<seq<Info>>, lengths: seq<nat>, done: seq<bool>, won: seq<bool>)
    requires Tracks(sched, env, uids, ran, j, recs, infos, lengths, done, won)
    ensures AllDone(sched, env, uids, ran, j) <==> forall i: nat :: i < |done| ==> done[i]
  {
    assert forall i: nat :: i < |uids| ==> At(recs, infos, lengths, done, won, i).done == done[i];
  }

  lemma RanMore(sched: seq<Entry>, env: Oracle, uids: seq<int>, ran: seq<nat>, steps: nat)
    requires Ran(sched, env, uids, ran) && |ran| < |sched| && StopsAt(sched, env, uids, ran, steps)
    ensures Ran(sched, env, uids, ran + [steps])
  {
    var ran' := ran + [steps];
    forall p: nat | p < |ran'| ensures StopsAt(sched, env, uids, ran'[..p], ran'[p]) {
      assert ran'[..p] == if p < |ran| then ran[..p] else ran;
    }
  }

  /** `is_done = is_won.copy()` where the phase calls for it. */
  lemma EnterAll(sched: seq<Entry>, env: Oracle, uids: seq<int>, ran: seq<nat>, j: nat, recs: seq<seq<Record>>,
                 infos: seq<seq<Info>>, lengths: seq<nat>, done: seq<bool>, done': seq<bool>, won: seq<bool>)
    requires Tracks(sched, env, uids, ran, j, recs, infos, lengths, done, won) && |ran| + 1 < |sched|
    requires var e := sched[|ran| + 1]; done' == if e.phase == Reflect || e.attempt > 0 then won else done
    ensures Tracks(sched, env, uids, ran + [j], 0, recs, infos, lengths, done', won)
  {
    assert (ran + [j])[..|ran|] == ran;
    forall i: nat | i < |uids|
      ensures At(recs, infos, lengths, done', won, i) == History(sched, env, i, uids[i], ran + [j], 0)
    {
      assert At(recs, infos, lengths, done, won, i) == History(sched, env, i, uids[i], ran, j);
    }
  }

  /** The whole rollout; `ran` says how many steps every phase took. */
  method VanillaMultiTurnLoop(c: Config, env: Oracle, uids: seq<int>)
    returns (recs: seq<seq<Record>>, infos: seq<seq<Info>>, lengths: seq<nat>, ghost ran: seq<nat>)
    ensures |recs| == |infos| == |lengths| == |uids|
    ensures |ran| == |Schedule(c, c.numAttempts)| && Ran(Schedule(c, c.numAttempts), env, uids, ran)
    ensures forall i: nat :: i < |uids| ==>
              if ran == [] then recs[i] == [] && infos[i] == [] && lengths[i] == 0
              else
                var m := Final(c, env, i, uids[i], ran);
                recs[i] == m.recs && infos[i] == m.infos && lengths[i] == m.length
  {
    var sched := BuildSchedule(c);
    var n := |uids|;
    recs, infos, lengths := seq(n, i => []), seq(n, i => []), seq(n, i => 0);
    var done, won := seq(n, i => false), seq(n, i => false);
    var p, j := 0, 0;
    ran := [];
    while p < |sched|
      invariant p <= |sched| && |ran| == p && Ran(sched, env, uids, ran)
      invariant p == 0 ==> recs == seq(n, i => []) && infos == seq(n, i => []) && lengths == seq(n, i => 0) && done == won == seq(n, i => false)
      invariant p > 0 ==> j == ran[p - 1] && Tracks(sched, env, uids, ran[..p - 1], j, recs, infos, lengths, done, won)
    {
      var e := sched[p];
      ghost var done0 := done;
      if e.phase == Reflect {
        done := won;
      }
      if e.phase == Play && e.attempt > 0 {
        done := won;
      }
      if p > 0 {
        EnterAll(sched, env, uids, ran[..p - 1], j, recs, infos, lengths, done0, done, won);
        assert ran[..p - 1] + [j] == ran;
      }
      recs, infos, lengths, done, won, j := RunPhase(sched, e, env, uids, ran, p, recs, infos, lengths, done, won);
      RanMore(sched, env, uids, ran, j);
      assert (ran + [j])[..p] == ran;
      ran := ran + [j];
      p := p + 1;
    }
    assert forall i: nat :: i < |uids| && ran != [] ==> At(recs, infos, lengths, done, won, i) == Final(c, env, i, uids[i], ran);
  }

}
