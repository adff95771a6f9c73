/** The multi-attempt rollout: its schedule and what every environment's records look like. */
module RolloutModel {

  datatype Phase = Play | Reflect

  datatype Entry = Entry(attempt: nat, phase: Phase, steps: nat)

  datatype Config = Config(numAttempts: nat, maxTurns: nat, doReflection: bool) {
    predicate Sane() { numAttempts > 0 && maxTurns > 0 }
  }

  /** `phase_and_steps`: play, then (reflect and) play for every further attempt. */
  function Schedule(c: Config, attempts: nat): seq<Entry> {
    if attempts == 0 then []
    else if attempts == 1 then [Entry(0, Play, c.maxTurns)]
    else Schedule(c, attempts - 1)
         + (if c.doReflection then [Entry(attempts - 1, Reflect, 1)] else [])
         + [Entry(attempts - 1, Play, c.maxTurns)]
  }

  /** Where an attempt's phase stands in the schedule. */
  function SlotOf(c: Config, attempt: nat, phase: Phase): nat {
    if !c.doReflection then attempt
    else if phase == Play then 2 * attempt
    else if attempt > 0 then 2 * attempt - 1 else 0
  }

  /** The schedule, entry by entry. */
  lemma {:induction false} ScheduleEntries(c: Config, attempts: nat)
    requires attempts > 0
    ensures |Schedule(c, attempts)| == if c.doReflection then 2 * attempts - 1 else attempts
    ensures forall p :: 0 <= p < |Schedule(c, attempts)| ==>
              var e := Schedule(c, attempts)[p];
              && SlotOf(c, e.attempt, e.phase) == p && e.attempt < attempts
              && e.steps == (if e.phase == Play then c.maxTurns else 1)
              && e.phase == (if c.doReflection && p % 2 == 1 then Reflect else Play)
              && (e.phase == Reflect ==> e.attempt > 0)
  {
    if attempts > 1 { ScheduleEntries(c, attempts - 1); }
  }

  /** What the environment reports for one step of one environment. */
  datatype Outcome = Outcome(reward: real, done: bool, won: bool)

  /** During reflection the managers report neither done nor won. */
  function Reported(o: Outcome, phase: Phase): Outcome {
    if phase == Reflect then o.(done := false, won := false) else o
  }

  datatype Record = Record(traj: nat, phase: Phase, turn: nat, reward: real, active: bool, uid: int)

  datatype Info = Info(won: bool)

  function Slot(c: Config, r: Record): nat { SlotOf(c, r.traj, r.phase) }

  ghost predicate Proper(c: Config, r: Record) {
    && r.active && r.traj < c.numAttempts
    && (r.phase == Reflect ==> c.doReflection && r.traj > 0 && r.turn == 0)
    && (r.phase == Play ==> r.turn < c.maxTurns)
  }

  /** Turns count up from 0 within a phase, and no phase is skipped. */
  ghost predicate Chained(c: Config, recs: seq<Record>) {
    && (forall t :: 0 <= t < |recs| ==> Proper(c, recs[t]))
    && (recs != [] ==> Slot(c, recs[0]) == 0 && recs[0].turn == 0)
    && (forall t :: 0 < t < |recs| ==>
          if Slot(c, recs[t]) == Slot(c, recs[t - 1]) then recs[t].turn == recs[t - 1].turn + 1
          else Slot(c, recs[t]) == Slot(c, recs[t - 1]) + 1 && recs[t].turn == 0)
  }

  function LastSlot(c: Config, recs: seq<Record>): nat
    requires recs != []
  {
    Slot(c, recs[|recs| - 1])
  }

  /** How the flags evolve: `w[q]` says whether the environment counted as won when phase q began,
      `done` and `won` hold after `j` steps of phase `p`. */
  ghost predicate FlagsOk(c: Config, w: seq<bool>, p: nat, j: nat, done: bool, won: bool) {
    && |w| == p + 1 && !w[0]
    && (forall q, q' :: 0 <= q <= q' <= p && w[q] ==> w[q'])
    && (w[p] ==> won && done)
    && (j == 0 ==> done == w[p])
    && (c.doReflection ==> (forall q :: 0 <= q < p && q % 2 == 1 ==> w[q + 1] == w[q]) && (p % 2 == 1 ==> won == w[p]))
  }

  /** Where the records stand: an environment has records in exactly the phases it entered unwon. */
  ghost predicate PlacedOk(c: Config, recs: seq<Record>, w: seq<bool>, p: nat, j: nat, done: bool)
    requires |w| == p + 1
  {
    && (forall t :: 0 <= t < |recs| ==> Slot(c, recs[t]) <= p && !w[Slot(c, recs[t])])
    && (recs == [] ==> p == 0 && j == 0)
    && (recs != [] ==> forall q :: 0 <= q < p + (if j > 0 then 1 else 0) ==> (w[q] <==> q > LastSlot(c, recs)))
    && (j == 0 && recs != [] ==> LastSlot(c, recs) < p)
    && (j > 0 && !done ==> recs != [] && LastSlot(c, recs) == p && recs[|recs| - 1].turn == j - 1)
  }

  /** A win is recorded in a play phase and closes all later phases. */
  ghost predicate WinsOk(c: Config, recs: seq<Record>, infos: seq<Info>, w: seq<bool>, p: nat, won: bool)
    requires |w| == p + 1 && |infos| == |recs|
  {
    forall t :: 0 <= t < |recs| && infos[t].won ==>
      recs[t].phase == Play && won && forall q :: Slot(c, recs[t]) < q <= p ==> w[q]
  }

  /** The records of one environment when `p` phases are over and `j` steps of phase p have run. */
  ghost predicate EnvInv(c: Config, recs: seq<Record>, infos: seq<Info>, w: seq<bool>, p: nat, j: nat, done: bool, won: bool) {
    && |infos| == |recs| && Chained(c, recs)
    && FlagsOk(c, w, p, j, done, won) && PlacedOk(c, recs, w, p, j, done) && WinsOk(c, recs, infos, w, p, won)
  }

  lemma EnvStart(c: Config)
    ensures EnvInv(c, [], [], [false], 0, 0, false, false)
  {}

  lemma ChainPush(c: Config, recs: seq<Record>, r: Record)
    requires Chained(c, recs) && Proper(c, r)
    requires recs == [] ==> Slot(c, r) == 0 && r.turn == 0
    requires recs != [] ==>
               var last := recs[|recs| - 1];
               if Slot(c, r) == Slot(c, last) then r.turn == last.turn + 1 else Slot(c, r) == Slot(c, last) + 1 && r.turn == 0
    ensures Chained(c, recs + [r])
  {
    var s := recs + [r];
    forall t | 0 < t < |s|
      ensures if Slot(c, s[t]) == Slot(c, s[t - 1]) then s[t].turn == s[t - 1].turn + 1
              else Slot(c, s[t]) == Slot(c, s[t - 1]) + 1 && s[t].turn == 0
    {
      if t < |recs| { assert s[t] == recs[t] && s[t - 1] == recs[t - 1]; }
    }
  }

  lemma FlagsStep(c: Config, w: seq<bool>, p: nat, j: nat, done: bool, won: bool, o: Outcome)
    requires FlagsOk(c, w, p, j, done, won) && (c.doReflection && p % 2 == 1 ==> !o.done && !o.won)
    ensures FlagsOk(c, w, p, j + 1, done || o.done, won || o.won)
  {}

  lemma PlacedStep(c: Config, recs: seq<Record>, w: seq<bool>, p: nat, j: nat, done: bool, won: bool, r: Record, o: Outcome)
    requires FlagsOk(c, w, p, j, done, won) && PlacedOk(c, recs, w, p, j, done)
    requires Slot(c, r) == p && r.turn == j
    ensures PlacedOk(c, if done then recs else recs + [r], w, p, j + 1, done || o.done)
  {
    if !done {
      var s := recs + [r];
      forall t | 0 <= t < |s| ensures Slot(c, s[t]) <= p && !w[Slot(c, s[t])] {
        if t < |recs| { assert s[t] == recs[t]; }
      }
    }
  }

  lemma PlacedLast(c: Config, recs: seq<Record>, w: seq<bool>, p: nat, j: nat, won: bool)
    requires FlagsOk(c, w, p, j, false, won) && PlacedOk(c, recs, w, p, j, false)
    ensures recs == [] ==> p == 0 && j == 0
    ensures recs != [] && j == 0 ==> p > 0 && LastSlot(c, recs) == p - 1
    ensures recs != [] && j > 0 ==> LastSlot(c, recs) == p && recs[|recs| - 1].turn == j - 1
  {
    if recs != [] && j == 0 && p > 0 {
      assert !w[p - 1];
    }
  }

  lemma WinsStep(c: Config, recs: seq<Record>, infos: seq<Info>, w: seq<bool>, p: nat, won: bool, r: Record, o: Outcome)
    requires |w| == p + 1 && |infos| == |recs| && WinsOk(c, recs, infos, w, p, won)
    requires Slot(c, r) == p && (o.won ==> r.phase == Play)
    ensures WinsOk(c, recs, infos, w, p, won || o.won)
    ensures WinsOk(c, recs + [r], infos + [Info(o.won)], w, p, won || o.won)
  {}

  /** One step of phase p keeps an environment's records in order. */
  lemma EnvStep(c: Config, recs: seq<Record>, infos: seq<Info>, w: seq<bool>, p: nat, j: nat, done: bool, won: bool,
                r: Record, o: Outcome)
    requires EnvInv(c, recs, infos, w, p, j, done, won)
    requires Proper(c, r) && Slot(c, r) == p && r.turn == j
    requires r.phase == Reflect ==> !o.done && !o.won
    requires r.phase == (if c.doReflection && p % 2 == 1 then Reflect else Play)
    ensures EnvInv(c, if done then recs else recs + [r], if done then infos else infos + [Info(o.won)], w, p, j + 1,
                   done || o.done, won || o.won)
  {
    FlagsStep(c, w, p, j, done, won, o);
    PlacedStep(c, recs, w, p, j, done, won, r, o);
    WinsStep(c, recs, infos, w, p, won, r, o);
    if !done {
      PlacedLast(c, recs, w, p, j, won);
      ChainPush(c, recs, r);
    }
  }

  lemma FlagsNext(c: Config, w: seq<bool>, p: nat, j: nat, done: bool, won: bool)
    requires FlagsOk(c, w, p, j, done, won)
    ensures FlagsOk(c, w + [won], p + 1, 0, won, won)
  {
    var w' := w + [won];
    forall q, q' | 0 <= q <= q' <= p + 1 && w'[q] ensures w'[q'] {
      if q' == p + 1 && q <= p { assert w[q] ==> w[p]; }
    }
  }

  /** Entering the next phase: whoever has won sits it out. */
  lemma EnvNextPhase(c: Config, recs: seq<Record>, infos: seq<Info>, w: seq<bool>, p: nat, j: nat, done: bool, won: bool)
    requires EnvInv(c, recs, infos, w, p, j, done, won) && j > 0
    ensures EnvInv(c, recs, infos, w + [won], p + 1, 0, won, won)
  {
    FlagsNext(c, w, p, j, done, won);
    var w' := w + [won];
    assert forall q :: 0 <= q <= p ==> w'[q] == w[q];
    assert PlacedOk(c, recs, w', p + 1, 0, won);
    assert WinsOk(c, recs, infos, w', p + 1, won);
  }

  // ---------------------------------------------------------------- a finished rollout

  /** What is known of one environment after the last phase; `w` as above, `last` phases in all. */
  ghost predicate Finished(c: Config, recs: seq<Record>, infos: seq<Info>, w: seq<bool>) {
    && |infos| == |recs| && recs != [] && Chained(c, recs) && recs[|recs| - 1].phase == Play
    && |w| == |Schedule(c, c.numAttempts)|
    && (forall q :: 0 <= q < |w| ==> (w[q] <==> q > LastSlot(c, recs)))
    && (forall t :: 0 <= t < |recs| ==> Slot(c, recs[t]) < |w| && !w[Slot(c, recs[t])])
    && (forall t :: 0 <= t < |recs| && infos[t].won ==>
          recs[t].phase == Play && forall q :: Slot(c, recs[t]) < q < |w| ==> w[q])
  }

  lemma EnvFinished(c: Config, recs: seq<Record>, infos: seq<Info>, w: seq<bool>, p: nat, j: nat, done: bool, won: bool)
    requires EnvInv(c, recs, infos, w, p, j, done, won) && j > 0 && c.Sane()
    requires p + 1 == |Schedule(c, c.numAttempts)|
    ensures Finished(c, recs, infos, w)
  {
    ScheduleEntries(c, c.numAttempts);
    var q := LastSlot(c, recs);
    var last := recs[|recs| - 1];
    if last.phase == Reflect {
      OddSlot(c, last);
      if q < p { NextAfterOdd(w, p, q); }
    }
  }

  lemma NextAfterOdd(w: seq<bool>, p: nat, q: nat)
    requires |w| == p + 1 && q < p && q % 2 == 1 && forall x :: 0 <= x < p && x % 2 == 1 ==> w[x + 1] == w[x]
    ensures w[q + 1] == w[q]
  {}

  lemma OddSlot(c: Config, r: Record)
    requires c.doReflection && r.phase == Reflect && r.traj > 0
    ensures Slot(c, r) == 2 * r.traj - 1 && Slot(c, r) % 2 == 1
  {}

  lemma {:induction false} SlotsAscend(c: Config, recs: seq<Record>, t: nat, u: nat)
    requires Chained(c, recs) && t <= u < |recs|
    ensures Slot(c, recs[t]) <= Slot(c, recs[u])
    decreases u
  {
    if t < u { SlotsAscend(c, recs, t, u - 1); }
  }

  /** No phase below a visited one is skipped. */
  lemma {:induction false} VisitsAll(c: Config, recs: seq<Record>, u: nat, q: nat) returns (t: nat)
    requires Chained(c, recs) && u < |recs| && q <= Slot(c, recs[u])
    ensures t <= u && Slot(c, recs[t]) == q
    decreases u
  {
    if Slot(c, recs[u]) == q {
      t := u;
    } else {
      t := VisitsAll(c, recs, u - 1, q);
    }
  }

  /** An environment has records in exactly the phases that began before it had won. */
  lemma RecordsIffNotWon(c: Config, recs: seq<Record>, infos: seq<Info>, w: seq<bool>, q: nat)
    requires Finished(c, recs, infos, w) && q < |w|
    ensures (exists t :: 0 <= t < |recs| && Slot(c, recs[t]) == q) <==> !w[q]
  {
    if !w[q] {
      var t := VisitsAll(c, recs, |recs| - 1, q);
    }
  }

  /** A reflection is never the last record: it is followed by a play step of the same attempt. */
  lemma ReflectThenPlay(c: Config, recs: seq<Record>, infos: seq<Info>, w: seq<bool>, t: nat)
    requires Finished(c, recs, infos, w) && t < |recs| && recs[t].phase == Reflect && c.Sane()
    ensures t + 1 < |recs| && recs[t + 1].phase == Play && recs[t + 1].traj == recs[t].traj && recs[t + 1].turn == 0
  {
    var r := recs[t + 1];
    OddSlot(c, recs[t]);
    if r.phase == Reflect { OddSlot(c, r); }
  }

  /** The number of the attempt never jumps between consecutive records. */
  lemma AttemptsAdvanceByOne(c: Config, recs: seq<Record>, t: nat)
    requires Chained(c, recs) && 0 < t < |recs|
    ensures recs[t - 1].traj <= recs[t].traj <= recs[t - 1].traj + 1
    ensures recs[t - 1].phase == Reflect && recs[t].phase == Play ==> recs[t].traj == recs[t - 1].traj
  {}

  /** After a won step no later phase is recorded. */
  lemma NothingAfterWin(c: Config, recs: seq<Record>, infos: seq<Info>, w: seq<bool>, t: nat, u: nat)
    requires Finished(c, recs, infos, w) && t < |recs| && u < |recs| && infos[t].won
    ensures Slot(c, recs[u]) <= Slot(c, recs[t]) && recs[u].traj <= recs[t].traj
  {
    assert !w[Slot(c, recs[u])];
    if c.doReflection && recs[u].phase == Reflect { OddSlot(c, recs[u]); }
  }
}
