/** When a rollout counts an environment as won without recording its success: exactly when the environment
    first reports a win in a play step that it sits out. */
module RolloutWins {
  import opened RolloutHistory
  import opened RolloutModel
  import opened RolloutResults

  /** In step s of phase |ran| the environment, done but not counted as won, reports a win. */
  ghost predicate LateWin(sched: seq<Entry>, env: Oracle, i: nat, uid: int, ran: seq<nat>, s: nat)
    requires |ran| < |sched|
  {
    var m := History(sched, env, i, uid, ran, s);
    sched[|ran|].phase == Play && m.done && !m.won && env(|ran|, s, i).won
  }

  /** One of the steps taken so far was such a step. */
  ghost predicate LateBy(sched: seq<Entry>, env: Oracle, i: nat, uid: int, ran: seq<nat>, j: nat)
    requires |ran| < |sched|
  {
    exists q: nat, s: nat :: Taken(ran, j, q, s) && LateWin(sched, env, i, uid, ran[..q], s)
  }

  /** A win stands in the records. */
  ghost predicate Recorded(m: Member) {
    exists t: nat :: t < |m.recs| && WinAt(m.recs, m.infos, t)
  }

  /** Late wins are the wins without a record, and whoever had one sits out from then on. */
  ghost predicate LateIffUnrecorded(m: Member, late: bool) {
    && |m.infos| == |m.recs| && (Recorded(m) ==> m.won) && (late ==> m.done)
    && (late <==> m.won && !Recorded(m))
  }

  lemma RecordedPush(m: Member, e: Entry, turn: nat, uid: int, o: Outcome)
    requires |m.infos| == |m.recs| && !m.done
    ensures Recorded(Advance(e, turn, uid, o, m)) <==> Recorded(m) || (e.phase == Play && o.won)
  {
    var m' := Advance(e, turn, uid, o, m);
    var n := |m.recs|;
    assert forall t: nat :: t < n ==> m'.recs[t] == m.recs[t] && m'.infos[t] == m.infos[t];
    assert WinAt(m'.recs, m'.infos, n) <==> e.phase == Play && o.won;
    if Recorded(m) {
      var t: nat :| t < n && WinAt(m.recs, m.infos, t);
      assert WinAt(m'.recs, m'.infos, t);
    }
    if Recorded(m') {
      var t: nat :| t <= n && WinAt(m'.recs, m'.infos, t);
      if t < n { assert WinAt(m.recs, m.infos, t); }
    }
  }

  lemma StepLate(m: Member, e: Entry, turn: nat, uid: int, o: Outcome, late: bool)
    requires LateIffUnrecorded(m, late)
    ensures LateIffUnrecorded(Advance(e, turn, uid, o, m), late || (e.phase == Play && m.done && !m.won && o.won))
  {
    if !m.done { RecordedPush(m, e, turn, uid, o); }
  }

  lemma LateOneMore(sched: seq<Entry>, env: Oracle, i: nat, uid: int, ran: seq<nat>, j: nat)
    requires |ran| < |sched| && j > 0
    ensures LateBy(sched, env, i, uid, ran, j) <==>
            LateBy(sched, env, i, uid, ran, j - 1) || LateWin(sched, env, i, uid, ran, j - 1)
  {
    assert ran[..|ran|] == ran;
    if LateBy(sched, env, i, uid, ran, j) {
      var q: nat, s: nat :| Taken(ran, j, q, s) && LateWin(sched, env, i, uid, ran[..q], s);
      if q == |ran| && s == j - 1 {
        assert LateWin(sched, env, i, uid, ran, j - 1);
      } else {
        assert Taken(ran, j - 1, q, s);
      }
    }
    if LateBy(sched, env, i, uid, ran, j - 1) {
      var q: nat, s: nat :| Taken(ran, j - 1, q, s) && LateWin(sched, env, i, uid, ran[..q], s);
      assert Taken(ran, j, q, s);
    }
    if LateWin(sched, env, i, uid, ran, j - 1) {
      assert Taken(ran, j, |ran|, j - 1) && LateWin(sched, env, i, uid, ran[..|ran|], j - 1);
    }
  }

  lemma LateNextPhase(sched: seq<Entry>, env: Oracle, i: nat, uid: int, ran: seq<nat>)
    requires 0 < |ran| < |sched|
    ensures LateBy(sched, env, i, uid, ran, 0) <==> LateBy(sched, env, i, uid, ran[..|ran| - 1], ran[|ran| - 1])
  {
    var p := |ran|;
    var before := ran[..p - 1];
    assert forall q: nat :: q < p ==> before[..q] == ran[..q];
    if LateBy(sched, env, i, uid, ran, 0) {
      var q: nat, s: nat :| Taken(ran, 0, q, s) && LateWin(sched, env, i, uid, ran[..q], s);
      assert Taken(before, ran[p - 1], q, s) && LateWin(sched, env, i, uid, before[..q], s);
    }
    if LateBy(sched, env, i, uid, before, ran[p - 1]) {
      var q: nat, s: nat :| Taken(before, ran[p - 1], q, s) && LateWin(sched, env, i, uid, before[..q], s);
      assert Taken(ran, 0, q, s) && LateWin(sched, env, i, uid, ran[..q], s);
    }
  }

  lemma {:induction false} HistoryLate(sched: seq<Entry>, env: Oracle, i: nat, uid: int, ran: seq<nat>, j: nat)
    requires |ran| < |sched| && Resets(sched)
    ensures LateIffUnrecorded(History(sched, env, i, uid, ran, j), LateBy(sched, env, i, uid, ran, j))
    decreases |ran|, j
  {
    var p := |ran|;
    if j > 0 {
      HistoryLate(sched, env, i, uid, ran, j - 1);
      LateOneMore(sched, env, i, uid, ran, j);
      StepLate(History(sched, env, i, uid, ran, j - 1), sched[p], j - 1, uid, env(p, j - 1, i), LateBy(sched, env, i, uid, ran, j - 1));
    } else if p > 0 {
      HistoryLate(sched, env, i, uid, ran[..p - 1], ran[p - 1]);
      LateNextPhase(sched, env, i, uid, ran);
      EnterLate(sched[p], History(sched, env, i, uid, ran[..p - 1], ran[p - 1]), LateBy(sched, env, i, uid, ran, 0));
    }
  }

  lemma EnterLate(e: Entry, m: Member, late: bool)
    requires LateIffUnrecorded(m, late) && (e.phase == Reflect || e.attempt > 0)
    ensures LateIffUnrecorded(Enter(e, m), late)
  {
    assert Recorded(Enter(e, m)) <==> Recorded(m);
  }

  lemma RecordedIsWonUpTo(c: Config, m: Member)
    requires Chained(c, m.recs) && c.numAttempts > 0
    ensures Recorded(m) <==> WonUpTo(m.recs, m.infos, c.numAttempts - 1)
  {
    if Recorded(m) {
      var t: nat :| t < |m.recs| && WinAt(m.recs, m.infos, t);
      assert Proper(c, m.recs[t]);
    }
  }

  /** At the end of every rollout an environment counts as won exactly when its success is recorded, if and
      only if it never first reported a win in a play step it sat out. */
  lemma WonIffRecorded(c: Config, env: Oracle, uids: seq<int>, ran: seq<nat>, i: nat)
    requires c.Sane() && |ran| == |Schedule(c, c.numAttempts)| && Ran(Schedule(c, c.numAttempts), env, uids, ran) && i < |uids|
    ensures ran != []
    ensures var m := Final(c, env, i, uids[i], ran);
            (m.won <==> WonUpTo(m.recs, m.infos, c.numAttempts - 1)) <==>
            !LateBy(Schedule(c, c.numAttempts), env, i, uids[i], ran[..|ran| - 1], ran[|ran| - 1])
  {
    RolloutIsFinished(c, env, uids, ran, i);
    ScheduleResets(c);
    HistoryLate(Schedule(c, c.numAttempts), env, i, uids[i], ran[..|ran| - 1], ran[|ran| - 1]);
    RecordedIsWonUpTo(c, Final(c, env, i, uids[i], ran));
  }

  // ---------------------------------------------------------------- a rollout in which they differ

  const TWO_ATTEMPTS := Config(2, 2, false)

  /** Environment 0 is done at once and reports a win afterwards; environment 1 keeps the phases going. */
  function LateOracle(p: nat, j: nat, i: nat): Outcome {
    if i == 0 then Outcome(0.0, true, j > 0) else Outcome(0.0, j > 0, false)
  }

  lemma LateSchedule()
    ensures Schedule(TWO_ATTEMPTS, 2) == [Entry(0, Play, 2), Entry(1, Play, 2)]
  {
    assert Schedule(TWO_ATTEMPTS, 1) == [Entry(0, Play, 2)];
  }

  lemma LateHistory(i: nat, uid: int)
    requires i < 2
    ensures var sched := Schedule(TWO_ATTEMPTS, 2);
            && |sched| == 2
            && (History(sched, LateOracle, i, uid, [], 1).done <==> i == 0)
            && History(sched, LateOracle, i, uid, [], 2).done
            && (History(sched, LateOracle, i, uid, [2], 1).done <==> i == 0)
            && History(sched, LateOracle, i, uid, [2], 2).done
            && (i == 0 ==> var m := History(sched, LateOracle, 0, uid, [2], 2);
                           m.won && m.recs == [Record(0, Play, 0, 0.0, true, uid)] && m.infos == [Info(false)])
  {
    LateSchedule();
    var sched := Schedule(TWO_ATTEMPTS, 2);
    var a := History(sched, LateOracle, i, uid, [], 0);
    var b := History(sched, LateOracle, i, uid, [], 1);
    var d := History(sched, LateOracle, i, uid, [], 2);
    assert a == NEW && b == Advance(sched[0], 0, uid, LateOracle(0, 0, i), a) && d == Advance(sched[0], 1, uid, LateOracle(0, 1, i), b);
    assert [2][..0] == [] && [2][0] == 2;
    var a' := History(sched, LateOracle, i, uid, [2], 0);
    var b' := History(sched, LateOracle, i, uid, [2], 1);
    assert a' == Enter(sched[1], d) && b' == Advance(sched[1], 0, uid, LateOracle(1, 0, i), a');
    assert History(sched, LateOracle, i, uid, [2], 2) == Advance(sched[1], 1, uid, LateOracle(1, 1, i), b');
  }

  /** Environment 0 ends as won and plays no second attempt, though no success is recorded for it. */
  lemma WonWithoutRecord(uids: seq<int>)
    requires |uids| == 2
    ensures Ran(Schedule(TWO_ATTEMPTS, 2), LateOracle, uids, [2, 2])
    ensures |Schedule(TWO_ATTEMPTS, 2)| == 2
    ensures var m := Final(TWO_ATTEMPTS, LateOracle, 0, uids[0], [2, 2]);
            m.won && !WonUpTo(m.recs, m.infos, 1) && |m.recs| == 1
  {
    var sched := Schedule(TWO_ATTEMPTS, 2);
    LateSchedule();
    LateHistory(0, uids[0]);
    LateHistory(1, uids[1]);
    assert [2, 2][..0] == [] && [2, 2][..1] == [2];
    LateStops(uids, []);
    LateStops(uids, [2]);
  }

  lemma LateStops(uids: seq<int>, ran: seq<nat>)
    requires |uids| == 2 && (ran == [] || ran == [2])
    ensures |Schedule(TWO_ATTEMPTS, 2)| == 2 && StopsAt(Schedule(TWO_ATTEMPTS, 2), LateOracle, uids, ran, 2)
  {
    var sched := Schedule(TWO_ATTEMPTS, 2);
    LateSchedule();
    LateHistory(1, uids[1]);
    assert !History(sched, LateOracle, 1, uids[1], ran, 1).done;
    assert !AllDone(sched, LateOracle, uids, ran, 1);
  }
}
