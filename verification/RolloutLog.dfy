/** What the records of a rollout are, in terms of what the environments reported: exactly one record for every
    step an environment takes part in, with the reward and the win it reported there. */
module RolloutLog {
  import opened RolloutHistory
  import opened RolloutModel
  import opened RolloutResults

  /** The environment reports a win in step s of the play phase q. */
  predicate Wins(sched: seq<Entry>, env: Oracle, i: nat, q: nat, s: nat) {
    q < |sched| && sched[q].phase == Play && env(q, s, i).won
  }

  /** It reported one in a step taken before phase q. */
  ghost predicate WonBefore(sched: seq<Entry>, env: Oracle, i: nat, ran: seq<nat>, q: nat) {
    exists p: nat, s: nat :: p < q && p < |ran| && s < ran[p] && Wins(sched, env, i, p, s)
  }

  /** It reported to be done in an earlier step of the play phase q. */
  ghost predicate DoneBefore(sched: seq<Entry>, env: Oracle, i: nat, q: nat, s: nat) {
    exists u: nat :: u < s && q < |sched| && sched[q].phase == Play && env(q, u, i).done
  }

  /** It takes part in step s of phase q. */
  ghost predicate TakesPart(sched: seq<Entry>, env: Oracle, i: nat, ran: seq<nat>, q: nat, s: nat) {
    !WonBefore(sched, env, i, ran, q) && !DoneBefore(sched, env, i, q, s)
  }

  /** It has reported a win in some step taken. */
  ghost predicate WonBy(sched: seq<Entry>, env: Oracle, i: nat, ran: seq<nat>, j: nat) {
    exists q: nat, s: nat :: Taken(ran, j, q, s) && Wins(sched, env, i, q, s)
  }

  /** The record and the info of step s of phase q, for the reported outcome. */
  predicate Describes(r: Record, info: Info, e: Entry, s: nat, o: Outcome, uid: int) {
    r == Record(e.attempt, e.phase, s, o.reward, true, uid) && info.won == (e.phase == Play && o.won)
  }

  /** Record t is that of step s of phase q, which was taken with the environment taking part. */
  ghost predicate Logs(sched: seq<Entry>, env: Oracle, i: nat, uid: int, ran: seq<nat>, j: nat, m: Member, t: nat, q: nat, s: nat) {
    && t < |m.recs| == |m.infos| && q < |sched| && Taken(ran, j, q, s) && TakesPart(sched, env, i, ran, q, s)
    && Describes(m.recs[t], m.infos[t], sched[q], s, env(q, s, i), uid)
  }

  ghost predicate HasStep(sched: seq<Entry>, env: Oracle, i: nat, uid: int, ran: seq<nat>, j: nat, m: Member, t: nat) {
    exists q: nat, s: nat :: Logs(sched, env, i, uid, ran, j, m, t, q, s)
  }

  ghost predicate HasRecord(sched: seq<Entry>, env: Oracle, i: nat, uid: int, ran: seq<nat>, j: nat, m: Member, q: nat, s: nat) {
    exists t: nat :: Logs(sched, env, i, uid, ran, j, m, t, q, s)
  }

  /** Every record is such a record, and every step taken with the environment taking part has one. */
  ghost predicate Logged(sched: seq<Entry>, env: Oracle, i: nat, uid: int, ran: seq<nat>, j: nat, m: Member) {
    && |m.infos| == |m.recs|
    && (forall t: nat :: t < |m.recs| ==> HasStep(sched, env, i, uid, ran, j, m, t))
    && (forall q: nat, s: nat :: q < |sched| && Taken(ran, j, q, s) && TakesPart(sched, env, i, ran, q, s) ==>
          HasRecord(sched, env, i, uid, ran, j, m, q, s))
  }

  /** The flags: won when a win was reported in any step taken, done when sitting out the next one. */
  ghost predicate Flagged(sched: seq<Entry>, env: Oracle, i: nat, ran: seq<nat>, j: nat, m: Member) {
    (m.won <==> WonBy(sched, env, i, ran, j)) && (m.done <==> !TakesPart(sched, env, i, ran, |ran|, j))
  }

  // ---------------------------------------------------------------- one step

  lemma TakenMore(ran: seq<nat>, j: nat, q: nat, s: nat)
    requires j > 0
    ensures Taken(ran, j, q, s) <==> Taken(ran, j - 1, q, s) || (q == |ran| && s == j - 1)
  {}

  lemma WonByMore(sched: seq<Entry>, env: Oracle, i: nat, ran: seq<nat>, j: nat)
    requires j > 0
    ensures WonBy(sched, env, i, ran, j) <==> WonBy(sched, env, i, ran, j - 1) || Wins(sched, env, i, |ran|, j - 1)
  {
    if WonBy(sched, env, i, ran, j) {
      var q: nat, s: nat :| Taken(ran, j, q, s) && Wins(sched, env, i, q, s);
      TakenMore(ran, j, q, s);
    }
    if WonBy(sched, env, i, ran, j - 1) {
      var q: nat, s: nat :| Taken(ran, j - 1, q, s) && Wins(sched, env, i, q, s);
      assert Taken(ran, j, q, s);
    }
    if Wins(sched, env, i, |ran|, j - 1) { assert Taken(ran, j, |ran|, j - 1); }
  }

  lemma DoneMore(sched: seq<Entry>, env: Oracle, i: nat, q: nat, j: nat)
    requires j > 0 && q < |sched|
    ensures DoneBefore(sched, env, i, q, j) <==>
            DoneBefore(sched, env, i, q, j - 1) || (sched[q].phase == Play && env(q, j - 1, i).done)
  {}

  lemma StepFlags(sched: seq<Entry>, env: Oracle, i: nat, uid: int, ran: seq<nat>, j: nat, m: Member)
    requires |ran| < |sched| && j > 0 && Flagged(sched, env, i, ran, j - 1, m)
    ensures Flagged(sched, env, i, ran, j, Advance(sched[|ran|], j - 1, uid, env(|ran|, j - 1, i), m))
  {
    WonByMore(sched, env, i, ran, j);
    DoneMore(sched, env, i, |ran|, j);
  }

  lemma LogsMore(sched: seq<Entry>, env: Oracle, i: nat, uid: int, ran: seq<nat>, j: nat, m: Member, m': Member, t: nat, q: nat, s: nat)
    requires j > 0 && Logs(sched, env, i, uid, ran, j - 1, m, t, q, s)
    requires |m'.infos| == |m'.recs| && m.recs <= m'.recs && m.infos <= m'.infos
    ensures Logs(sched, env, i, uid, ran, j, m', t, q, s)
  {
    assert m'.recs[t] == m.recs[t] && m'.infos[t] == m.infos[t];
  }

  lemma StepLogs(sched: seq<Entry>, env: Oracle, i: nat, uid: int, ran: seq<nat>, j: nat, m: Member)
    requires |ran| < |sched| && j > 0 && Logged(sched, env, i, uid, ran, j - 1, m)
    requires m.done <==> !TakesPart(sched, env, i, ran, |ran|, j - 1)
    ensures Logged(sched, env, i, uid, ran, j, Advance(sched[|ran|], j - 1, uid, env(|ran|, j - 1, i), m))
  {
    var p, n := |ran|, |m.recs|;
    var m' := Advance(sched[p], j - 1, uid, env(p, j - 1, i), m);
    assert m.recs <= m'.recs && m.infos <= m'.infos;
    if !m.done { assert Logs(sched, env, i, uid, ran, j, m', n, p, j - 1); }
    forall t: nat | t < |m'.recs| ensures HasStep(sched, env, i, uid, ran, j, m', t) {
      if t < n {
        assert HasStep(sched, env, i, uid, ran, j - 1, m, t);
        var q: nat, s: nat :| Logs(sched, env, i, uid, ran, j - 1, m, t, q, s);
        LogsMore(sched, env, i, uid, ran, j, m, m', t, q, s);
      }
    }
    forall q: nat, s: nat | q < |sched| && Taken(ran, j, q, s) && TakesPart(sched, env, i, ran, q, s)
      ensures HasRecord(sched, env, i, uid, ran, j, m', q, s)
    {
      TakenMore(ran, j, q, s);
      if Taken(ran, j - 1, q, s) {
        assert HasRecord(sched, env, i, uid, ran, j - 1, m, q, s);
        var t: nat :| Logs(sched, env, i, uid, ran, j - 1, m, t, q, s);
        LogsMore(sched, env, i, uid, ran, j, m, m', t, q, s);
      }
    }
  }

  // ---------------------------------------------------------------- entering a phase

  lemma TakenBefore(ran: seq<nat>, q: nat, s: nat)
    requires ran != []
    ensures Taken(ran, 0, q, s) <==> Taken(ran[..|ran| - 1], ran[|ran| - 1], q, s)
  {}

  lemma WonBeforeSame(sched: seq<Entry>, env: Oracle, i: nat, ran: seq<nat>, q: nat)
    requires ran != [] && q < |ran|
    ensures WonBefore(sched, env, i, ran, q) <==> WonBefore(sched, env, i, ran[..|ran| - 1], q)
  {
    var before := ran[..|ran| - 1];
    assert forall p: nat :: p < q ==> before[p] == ran[p];
    if WonBefore(sched, env, i, before, q) {
      var p: nat, s: nat :| p < q && p < |before| && s < before[p] && Wins(sched, env, i, p, s);
      assert s < ran[p];
    }
  }

  lemma WonByBefore(sched: seq<Entry>, env: Oracle, i: nat, ran: seq<nat>)
    requires ran != []
    ensures WonBy(sched, env, i, ran, 0) <==> WonBy(sched, env, i, ran[..|ran| - 1], ran[|ran| - 1])
    ensures WonBy(sched, env, i, ran, 0) <==> WonBefore(sched, env, i, ran, |ran|)
  {
    var before, last := ran[..|ran| - 1], ran[|ran| - 1];
    if WonBy(sched, env, i, ran, 0) {
      var q: nat, s: nat :| Taken(ran, 0, q, s) && Wins(sched, env, i, q, s);
      TakenBefore(ran, q, s);
    }
    if WonBy(sched, env, i, before, last) {
      var q: nat, s: nat :| Taken(before, last, q, s) && Wins(sched, env, i, q, s);
      TakenBefore(ran, q, s);
    }
    if WonBefore(sched, env, i, ran, |ran|) {
      var p: nat, s: nat :| p < |ran| && s < ran[p] && Wins(sched, env, i, p, s);
      assert Taken(ran, 0, p, s);
    }
  }

  lemma EnterFlags(sched: seq<Entry>, env: Oracle, i: nat, ran: seq<nat>, m: Member)
    requires 0 < |ran| < |sched| && Flagged(sched, env, i, ran[..|ran| - 1], ran[|ran| - 1], m)
    requires sched[|ran|].phase == Reflect || sched[|ran|].attempt > 0
    ensures Flagged(sched, env, i, ran, 0, Enter(sched[|ran|], m))
  {
    WonByBefore(sched, env, i, ran);
  }

  lemma EnterLogs(sched: seq<Entry>, env: Oracle, i: nat, uid: int, ran: seq<nat>, m: Member)
    requires 0 < |ran| < |sched| && Logged(sched, env, i, uid, ran[..|ran| - 1], ran[|ran| - 1], m)
    ensures Logged(sched, env, i, uid, ran, 0, Enter(sched[|ran|], m))
  {
    var before, last, m' := ran[..|ran| - 1], ran[|ran| - 1], Enter(sched[|ran|], m);
    forall t: nat | t < |m'.recs| ensures HasStep(sched, env, i, uid, ran, 0, m', t) {
      assert HasStep(sched, env, i, uid, before, last, m, t);
      var q: nat, s: nat :| Logs(sched, env, i, uid, before, last, m, t, q, s);
      TakenBefore(ran, q, s);
      WonBeforeSame(sched, env, i, ran, q);
      assert Logs(sched, env, i, uid, ran, 0, m', t, q, s);
    }
    forall q: nat, s: nat | q < |sched| && Taken(ran, 0, q, s) && TakesPart(sched, env, i, ran, q, s)
      ensures HasRecord(sched, env, i, uid, ran, 0, m', q, s)
    {
      TakenBefore(ran, q, s);
      WonBeforeSame(sched, env, i, ran, q);
      assert HasRecord(sched, env, i, uid, before, last, m, q, s);
      var t: nat :| Logs(sched, env, i, uid, before, last, m, t, q, s);
      assert Logs(sched, env, i, uid, ran, 0, m', t, q, s);
    }
  }

  // ---------------------------------------------------------------- whole rollouts

  /** At every point of every rollout. */
  lemma {:induction false} HistoryIsLogged(sched: seq<Entry>, env: Oracle, i: nat, uid: int, ran: seq<nat>, j: nat)
    requires |ran| < |sched| && Resets(sched)
    requires sched[0].phase == Play && sched[0].attempt == 0
    ensures var m := History(sched, env, i, uid, ran, j);
            Logged(sched, env, i, uid, ran, j, m) && Flagged(sched, env, i, ran, j, m)
    decreases |ran|, j
  {
    var p := |ran|;
    if j > 0 {
      HistoryIsLogged(sched, env, i, uid, ran, j - 1);
      StepLogs(sched, env, i, uid, ran, j, History(sched, env, i, uid, ran, j - 1));
      StepFlags(sched, env, i, uid, ran, j, History(sched, env, i, uid, ran, j - 1));
    } else if p > 0 {
      HistoryIsLogged(sched, env, i, uid, ran[..p - 1], ran[p - 1]);
      EnterLogs(sched, env, i, uid, ran, History(sched, env, i, uid, ran[..p - 1], ran[p - 1]));
      EnterFlags(sched, env, i, ran, History(sched, env, i, uid, ran[..p - 1], ran[p - 1]));
    } else {
      assert Enter(sched[0], NEW) == NEW;
    }
  }

  lemma FirstEntry(c: Config)
    requires c.numAttempts > 0
    ensures |Schedule(c, c.numAttempts)| > 0
    ensures Schedule(c, c.numAttempts)[0].phase == Play && Schedule(c, c.numAttempts)[0].attempt == 0
  {
    ScheduleEntries(c, c.numAttempts);
  }

  /** Every environment of every rollout, of any configuration with an attempt, ends with exactly one record for
      each step it took part in, and counts as won exactly when it reported a win in a play step. */
  lemma RecordsAreReports(c: Config, env: Oracle, i: nat, uid: int, ran: seq<nat>)
    requires c.numAttempts > 0 && |ran| == |Schedule(c, c.numAttempts)|
    ensures ran != []
    ensures var sched, m := Schedule(c, c.numAttempts), Final(c, env, i, uid, ran);
            && Logged(sched, env, i, uid, ran[..|ran| - 1], ran[|ran| - 1], m)
            && (m.won <==> WonBy(sched, env, i, ran[..|ran| - 1], ran[|ran| - 1]))
  {
    FirstEntry(c);
    ScheduleResets(c);
    HistoryIsLogged(Schedule(c, c.numAttempts), env, i, uid, ran[..|ran| - 1], ran[|ran| - 1]);
  }

  /** A record's reward, and its win, are what the environment reported in that step of that phase. */
  lemma RewardsAreReported(c: Config, env: Oracle, i: nat, uid: int, ran: seq<nat>, t: nat)
    requires c.numAttempts > 0 && |ran| == |Schedule(c, c.numAttempts)| && ran != [] && t < |Final(c, env, i, uid, ran).recs|
    ensures var m := Final(c, env, i, uid, ran);
            && |m.infos| == |m.recs| && m.recs[t].reward == env(Slot(c, m.recs[t]), m.recs[t].turn, i).reward
            && (m.infos[t].won <==> m.recs[t].phase == Play && env(Slot(c, m.recs[t]), m.recs[t].turn, i).won)
  {
    var sched, m := Schedule(c, c.numAttempts), Final(c, env, i, uid, ran);
    RecordsAreReports(c, env, i, uid, ran);
    ScheduleEntries(c, c.numAttempts);
    assert HasStep(sched, env, i, uid, ran[..|ran| - 1], ran[|ran| - 1], m, t);
    var q: nat, s: nat :| Logs(sched, env, i, uid, ran[..|ran| - 1], ran[|ran| - 1], m, t, q, s);
    assert SlotOf(c, sched[q].attempt, sched[q].phase) == q;
  }

  /** Success up to attempt k: in some attempt up to k the environment reported a win in a play step it took part in. */
  lemma SuccessIsReported(c: Config, env: Oracle, i: nat, uid: int, ran: seq<nat>, k: int)
    requires c.numAttempts > 0 && |ran| == |Schedule(c, c.numAttempts)| && ran != []
    ensures var sched, m := Schedule(c, c.numAttempts), Final(c, env, i, uid, ran);
            WonUpTo(m.recs, m.infos, k) <==>
            exists q: nat, s: nat :: WinsUpTo(sched, env, i, ran, q, s, k)
  {
    var sched, m, before, last := Schedule(c, c.numAttempts), Final(c, env, i, uid, ran), ran[..|ran| - 1], ran[|ran| - 1];
    RecordsAreReports(c, env, i, uid, ran);
    if WonUpTo(m.recs, m.infos, k) {
      var t: nat :| t < |m.recs| && WinAt(m.recs, m.infos, t) && m.recs[t].traj <= k;
      assert HasStep(sched, env, i, uid, before, last, m, t);
      var q: nat, s: nat :| Logs(sched, env, i, uid, before, last, m, t, q, s);
      SamePart(sched, env, i, ran, q, s);
      assert WinsUpTo(sched, env, i, ran, q, s, k);
    }
    forall q: nat, s: nat | WinsUpTo(sched, env, i, ran, q, s, k) ensures WonUpTo(m.recs, m.infos, k) {
      SamePart(sched, env, i, ran, q, s);
      assert HasRecord(sched, env, i, uid, before, last, m, q, s);
      var t: nat :| Logs(sched, env, i, uid, before, last, m, t, q, s);
      assert WinAt(m.recs, m.infos, t) && m.recs[t].traj <= k;
    }
  }

  /** A win reported in a step of an attempt up to k, taken with the environment taking part. */
  ghost predicate WinsUpTo(sched: seq<Entry>, env: Oracle, i: nat, ran: seq<nat>, q: nat, s: nat, k: int) {
    && q < |sched| && q < |ran| && s < ran[q] && sched[q].attempt <= k
    && TakesPart(sched, env, i, ran, q, s) && Wins(sched, env, i, q, s)
  }

  lemma SamePart(sched: seq<Entry>, env: Oracle, i: nat, ran: seq<nat>, q: nat, s: nat)
    requires ran != []
    ensures Taken(ran[..|ran| - 1], ran[|ran| - 1], q, s) <==> q < |ran| && s < ran[q]
    ensures q < |ran| ==> (TakesPart(sched, env, i, ran, q, s) <==> TakesPart(sched, env, i, ran[..|ran| - 1], q, s))
  {
    if q < |ran| { WonBeforeSame(sched, env, i, ran, q); }
  }
}
