/** One environment's part of the rollout loop, as a function of what the environments report. */
module RolloutHistory {
  import opened RolloutModel

  /** What the rollout loop keeps for one environment. */
  datatype Member = Member(recs: seq<Record>, infos: seq<Info>, length: nat, done: bool, won: bool)

  const NEW := Member([], [], 0, false, false)

  /** Entering a phase: from the first reflection or restart on, whoever has won sits out. */
  function Enter(e: Entry, m: Member): Member {
    if e.phase == Reflect || e.attempt > 0 then m.(done := m.won) else m
  }

  function Noted(e: Entry, turn: nat, uid: int, o: Outcome): Record {
    Record(e.attempt, e.phase, turn, o.reward, true, uid)
  }

  /** One step: a member that is not done gets a record; a report of done or won counts in any case. */
  function Advance(e: Entry, turn: nat, uid: int, o: Outcome, m: Member): Member {
    var r := Reported(o, e.phase);
    if m.done then m.(won := m.won || r.won)
    else Member(m.recs + [Noted(e, turn, uid, o)], m.infos + [Info(r.won)], m.length + 1, r.done, m.won || r.won)
  }

  /** `env(p, j, i)` is what environment i reports in step j of phase p. */
  type Oracle = (nat, nat, nat) -> Outcome

  /** Environment i after the phases that took `ran` steps and then `j` steps of the next one. */
  function History(sched: seq<Entry>, env: Oracle, i: nat, uid: int, ran: seq<nat>, j: nat): Member
    requires |ran| < |sched|
    decreases |ran|, j
  {
    var p := |ran|;
    if j > 0 then Advance(sched[p], j - 1, uid, env(p, j - 1, i), History(sched, env, i, uid, ran, j - 1))
    else if p == 0 then Enter(sched[0], NEW)
    else Enter(sched[p], History(sched, env, i, uid, ran[..p - 1], ran[p - 1]))
  }

  ghost predicate AllDone(sched: seq<Entry>, env: Oracle, uids: seq<int>, ran: seq<nat>, j: nat)
    requires |ran| < |sched|
  {
    forall i: nat :: i < |uids| ==> History(sched, env, i, uids[i], ran, j).done
  }

  /** `steps` is where phase |ran| stops: as soon as everyone is done, and at the latest when it is over. */
  ghost predicate StopsAt(sched: seq<Entry>, env: Oracle, uids: seq<int>, ran: seq<nat>, steps: nat)
    requires |ran| < |sched|
  {
    && steps <= sched[|ran|].steps && (steps == 0 ==> sched[|ran|].steps == 0)
    && (steps == sched[|ran|].steps || AllDone(sched, env, uids, ran, steps))
    && (forall s: nat :: 0 < s < steps ==> !AllDone(sched, env, uids, ran, s))
  }

  /** The steps every phase takes. */
  ghost predicate Ran(sched: seq<Entry>, env: Oracle, uids: seq<int>, ran: seq<nat>) {
    |ran| <= |sched| && forall p: nat :: p < |ran| ==> StopsAt(sched, env, uids, ran[..p], ran[p])
  }

  ghost predicate Positive(ran: seq<nat>) { forall p: nat :: p < |ran| ==> ran[p] > 0 }

  /** Whether environment i counted as won when each phase up to phase |ran| began. */
  function WonAtStart(sched: seq<Entry>, env: Oracle, i: nat, uid: int, ran: seq<nat>): seq<bool>
    requires |ran| < |sched|
  {
    var p := |ran|;
    if p == 0 then [false]
    else WonAtStart(sched, env, i, uid, ran[..p - 1]) + [History(sched, env, i, uid, ran[..p - 1], ran[p - 1]).won]
  }

  // ---------------------------------------------------------------- every run keeps the invariant

  ghost predicate Kept(c: Config, m: Member, w: seq<bool>, p: nat, j: nat, uid: int) {
    && EnvInv(c, m.recs, m.infos, w, p, j, m.done, m.won) && m.length == |m.recs|
    && forall t: nat :: t < |m.recs| ==> m.recs[t].uid == uid
  }

  lemma AdvanceKeeps(c: Config, e: Entry, m: Member, w: seq<bool>, p: nat, j: nat, uid: int, o: Outcome)
    requires Kept(c, m, w, p, j, uid) && SlotOf(c, e.attempt, e.phase) == p && e.attempt < c.numAttempts && j < e.steps
    requires e.steps == (if e.phase == Play then c.maxTurns else 1)
    requires e.phase == (if c.doReflection && p % 2 == 1 then Reflect else Play) && (e.phase == Reflect ==> e.attempt > 0)
    ensures Kept(c, Advance(e, j, uid, o, m), w, p, j + 1, uid)
  {
    var r := Reported(o, e.phase);
    EnvStep(c, m.recs, m.infos, w, p, j, m.done, m.won, Noted(e, j, uid, o), r);
  }

  /** Every environment, at every point of every run. */
  lemma {:induction false} HistoryKeeps(c: Config, env: Oracle, i: nat, uid: int, ran: seq<nat>, j: nat)
    requires c.Sane() && |ran| < |Schedule(c, c.numAttempts)| && Positive(ran)
    requires forall p: nat :: p < |ran| ==> ran[p] <= Schedule(c, c.numAttempts)[p].steps
    requires j <= Schedule(c, c.numAttempts)[|ran|].steps
    ensures var sched := Schedule(c, c.numAttempts);
            Kept(c, History(sched, env, i, uid, ran, j), WonAtStart(sched, env, i, uid, ran), |ran|, j, uid)
    decreases |ran|, j
  {
    var sched := Schedule(c, c.numAttempts);
    ScheduleEntries(c, c.numAttempts);
    var p := |ran|;
    var w := WonAtStart(sched, env, i, uid, ran);
    if j > 0 {
      HistoryKeeps(c, env, i, uid, ran, j - 1);
      AdvanceKeeps(c, sched[p], History(sched, env, i, uid, ran, j - 1), w, p, j - 1, uid, env(p, j - 1, i));
    } else if p == 0 {
      EnvStart(c);
    } else {
      var before, steps := ran[..p - 1], ran[p - 1];
      HistoryKeeps(c, env, i, uid, before, steps);
      var m := History(sched, env, i, uid, before, steps);
      EnvNextPhase(c, m.recs, m.infos, WonAtStart(sched, env, i, uid, before), p - 1, steps, m.done, m.won);
      LaterEntry(c, sched[p], p);
    }
  }

  lemma LaterEntry(c: Config, e: Entry, p: nat)
    requires SlotOf(c, e.attempt, e.phase) == p && p > 0
    ensures e.phase == Reflect || e.attempt > 0
  {}

  /** An environment only ever counts as won because it reported so in a step that was taken, and
      not while reflecting. */
  lemma {:induction false} WonWasReported(sched: seq<Entry>, env: Oracle, i: nat, uid: int, ran: seq<nat>, j: nat)
    returns (q: nat, s: nat)
    requires |ran| < |sched| && History(sched, env, i, uid, ran, j).won
    ensures q <= |ran| && s < (if q == |ran| then j else ran[q])
    ensures sched[q].phase == Play && env(q, s, i).won
    decreases |ran|, j
  {
    var p := |ran|;
    if j > 0 {
      if History(sched, env, i, uid, ran, j - 1).won {
        q, s := WonWasReported(sched, env, i, uid, ran, j - 1);
      } else {
        q, s := p, j - 1;
      }
    } else {
      q, s := WonWasReported(sched, env, i, uid, ran[..p - 1], ran[p - 1]);
    }
  }

  /** The rollout of a sane configuration leaves every environment with a finished record list. */
  lemma RunIsFinished(c: Config, env: Oracle, i: nat, uid: int, ran: seq<nat>, j: nat)
    requires c.Sane() && |ran| + 1 == |Schedule(c, c.numAttempts)| && Positive(ran) && j > 0
    requires forall p: nat :: p < |ran| ==> ran[p] <= Schedule(c, c.numAttempts)[p].steps
    requires j <= Schedule(c, c.numAttempts)[|ran|].steps
    ensures var m := History(Schedule(c, c.numAttempts), env, i, uid, ran, j);
            && Finished(c, m.recs, m.infos, WonAtStart(Schedule(c, c.numAttempts), env, i, uid, ran))
            && m.length == |m.recs| && forall t: nat :: t < |m.recs| ==> m.recs[t].uid == uid
  {
    HistoryKeeps(c, env, i, uid, ran, j);
    var sched := Schedule(c, c.numAttempts);
    var m := History(sched, env, i, uid, ran, j);
    EnvFinished(c, m.recs, m.infos, WonAtStart(sched, env, i, uid, ran), |ran|, j, m.done, m.won);
  }

  /** The last phase's last step. */
  function Final(c: Config, env: Oracle, i: nat, uid: int, ran: seq<nat>): Member
    requires ran != [] && |ran| == |Schedule(c, c.numAttempts)|
  {
    History(Schedule(c, c.numAttempts), env, i, uid, ran[..|ran| - 1], ran[|ran| - 1])
  }

  /** Every environment of every rollout ends with a finished record list. */
  lemma RolloutIsFinished(c: Config, env: Oracle, uids: seq<int>, ran: seq<nat>, i: nat)
    requires c.Sane() && |ran| == |Schedule(c, c.numAttempts)| && Ran(Schedule(c, c.numAttempts), env, uids, ran) && i < |uids|
    ensures ran != []
    ensures var m := Final(c, env, i, uids[i], ran);
            && Finished(c, m.recs, m.infos, WonAtStart(Schedule(c, c.numAttempts), env, i, uids[i], ran[..|ran| - 1]))
            && m.length == |m.recs| && forall t: nat :: t < |m.recs| ==> m.recs[t].uid == uids[i]
  {
    var sched := Schedule(c, c.numAttempts);
    ScheduleEntries(c, c.numAttempts);
    forall p: nat | p < |ran| ensures 0 < ran[p] <= sched[p].steps {
      assert StopsAt(sched, env, uids, ran[..p], ran[p]);
    }
    RunIsFinished(c, env, i, uids[i], ran[..|ran| - 1], ran[|ran| - 1]);
  }

  // ---------------------------------------------------------------- the steps of a rollout

  /** Step s of phase q is one of those taken so far. */
  predicate Taken(ran: seq<nat>, j: nat, q: nat, s: nat) {
    q <= |ran| && s < if q == |ran| then j else ran[q]
  }

  /** From the second phase on every entry resets who sits out. */
  ghost predicate Resets(sched: seq<Entry>) { forall p: nat :: 0 < p < |sched| ==> sched[p].phase == Reflect || sched[p].attempt > 0 }

  lemma ScheduleResets(c: Config)
    requires c.numAttempts > 0
    ensures Resets(Schedule(c, c.numAttempts))
  {
    var sched := Schedule(c, c.numAttempts);
    ScheduleEntries(c, c.numAttempts);
    forall p: nat | 0 < p < |sched| ensures sched[p].phase == Reflect || sched[p].attempt > 0 {
      LaterEntry(c, sched[p], p);
    }
  }
}
