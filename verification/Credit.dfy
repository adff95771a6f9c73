/** Two-rate discounted credit assignment and what it adds up to. */
module Credit {
  import opened RolloutModel

  /** What the backward scan carries: the running return and the attempt of the last play it saw. */
  datatype Carry = Carry(total: real, attempt: nat)

  /** One step of the scan. */
  function Back(r: Record, next: Carry, sg: real, tg: real): Carry {
    if r.phase == Reflect then next
    else Carry(r.reward + (if r.traj == next.attempt then sg else tg) * next.total, r.traj)
  }

  /** The backward scan over `recs`, started at attempt `last`. */
  function Scan(recs: seq<Record>, sg: real, tg: real, last: nat): Carry {
    if recs == [] then Carry(0.0, last)
    else Back(recs[0], Scan(recs[1..], sg, tg, last), sg, tg)
  }

  function Last(recs: seq<Record>): nat
    requires recs != []
  {
    recs[|recs| - 1].traj
  }

  /** The discounted return of record t. */
  function Return(recs: seq<Record>, t: nat, sg: real, tg: real): real
    requires t < |recs|
  {
    Scan(recs[t..], sg, tg, Last(recs)).total
  }

  // ---------------------------------------------------------------- the closed form

  /** `r` discounted n times at rate c. */
  function Discount(r: real, c: real, n: nat): real {
    if n == 0 then r else c * Discount(r, c, n - 1)
  }

  /** A reward `a` steps within attempts and `b` attempt changes away. */
  function Term(r: real, sg: real, tg: real, a: nat, b: nat): real { Discount(Discount(r, tg, b), sg, a) }

  /** The later play rewards, each weighted by `sg` per step within an attempt and by `tg` per
      attempt crossed; `steps` plays and `traj - from` crossings lie before the first of them. */
  function Weighted(recs: seq<Record>, steps: nat, from: nat, sg: real, tg: real): real
    requires Reaches(recs, steps, from)
  {
    if recs == [] then 0.0
    else if recs[0].phase == Reflect then Weighted(recs[1..], steps, from, sg, tg)
    else
      var crossed := recs[0].traj - from;
      Term(recs[0].reward, sg, tg, steps - crossed, crossed) + Weighted(recs[1..], steps + 1, from, sg, tg)
  }

  /** No play lies further in attempts than in steps: attempts advance one play at a time. */
  ghost predicate Reaches(recs: seq<Record>, steps: nat, from: nat) {
    recs == [] ||
    if recs[0].phase == Reflect then Reaches(recs[1..], steps, from)
    else from <= recs[0].traj <= from + steps && Reaches(recs[1..], steps + 1, from)
  }

  /** Attempts never jump, and after a reflection its own attempt is played. */
  ghost predicate Steady(recs: seq<Record>) {
    forall t :: 0 < t < |recs| ==>
      && recs[t - 1].traj <= recs[t].traj <= recs[t - 1].traj + 1
      && (recs[t - 1].phase == Reflect ==> recs[t].phase == Play && recs[t].traj == recs[t - 1].traj)
  }

  lemma SteadyTail(recs: seq<Record>)
    requires Steady(recs) && recs != []
    ensures Steady(recs[1..])
  {
    var s := recs[1..];
    forall t | 0 < t < |s|
      ensures s[t - 1].traj <= s[t].traj <= s[t - 1].traj + 1
              && (s[t - 1].phase == Reflect ==> s[t].phase == Play && s[t].traj == s[t - 1].traj)
    {
      assert s[t] == recs[t + 1] && s[t - 1] == recs[t];
    }
  }

  /** `slack` attempts of head start per step taken: holds along any steady list. */
  lemma {:induction false} SteadyReaches(recs: seq<Record>, steps: nat, from: nat)
    requires Steady(recs)
    requires recs != [] ==> from <= recs[0].traj <= from + steps
    ensures Reaches(recs, steps, from)
    decreases |recs|
  {
    if recs != [] {
      SteadyTail(recs);
      if |recs| > 1 { assert recs[1..][0] == recs[1]; }
      SteadyReaches(recs[1..], if recs[0].phase == Reflect then steps else steps + 1, from);
    }
  }

  lemma WeightedPlay(recs: seq<Record>, steps: nat, from: nat, sg: real, tg: real, a: nat, b: nat, term: real)
    requires Reaches(recs, steps, from) && recs != [] && recs[0].phase == Play
    requires b == recs[0].traj - from && a == steps - b && term == Term(recs[0].reward, sg, tg, a, b)
    ensures Weighted(recs, steps, from, sg, tg) == term + Weighted(recs[1..], steps + 1, from, sg, tg)
  {}

  lemma StepTerm(r: real, sg: real, tg: real, a: nat, b: nat)
    ensures Term(r, sg, tg, a + 1, b) == sg * Term(r, sg, tg, a, b)
  {}

  lemma {:induction false} AttemptTerm(r: real, sg: real, tg: real, a: nat, b: nat)
    ensures Term(r, sg, tg, a, b + 1) == tg * Term(r, sg, tg, a, b)
  {
    if a > 0 {
      AttemptTerm(r, sg, tg, a - 1, b);
      Swap(sg, tg, Term(r, sg, tg, a - 1, b));
    }
  }

  lemma Swap(x: real, y: real, z: real)
    ensures x * (y * z) == y * (x * z)
  {}

  lemma Scaled(w: real, w': real, c: real, t: real, t': real, rest: real, rest': real)
    requires w == t + rest && w' == t' + rest' && t' == c * t && rest' == c * rest
    ensures w' == c * w
  {}

  /** One more step within the attempt scales every weight by `sg`. */
  lemma {:induction false} OneStepMore(recs: seq<Record>, steps: nat, from: nat, sg: real, tg: real)
    requires Reaches(recs, steps, from) && Reaches(recs, steps + 1, from)
    ensures Weighted(recs, steps + 1, from, sg, tg) == sg * Weighted(recs, steps, from, sg, tg)
    decreases |recs|
  {
    if recs != [] {
      var rest := recs[1..];
      if recs[0].phase == Reflect {
        OneStepMore(rest, steps, from, sg, tg);
      } else {
        OneStepMore(rest, steps + 1, from, sg, tg);
        var b := recs[0].traj - from;
        var a := steps - b;
        ghost var t, t' := Term(recs[0].reward, sg, tg, a, b), Term(recs[0].reward, sg, tg, a + 1, b);
        StepTerm(recs[0].reward, sg, tg, a, b);
        StepSum(recs, steps, from, steps + 1, from, sg, tg, sg, t, t', a, b, a + 1, b);
      }
    }
  }

  lemma StepSum(recs: seq<Record>, steps: nat, from: nat, steps': nat, from': nat, sg: real, tg: real,
                c: real, t: real, t': real, a: nat, b: nat, a': nat, b': nat)
    requires Reaches(recs, steps, from) && Reaches(recs, steps', from') && recs != [] && recs[0].phase == Play
    requires b == recs[0].traj - from && a == steps - b && t == Term(recs[0].reward, sg, tg, a, b)
    requires b' == recs[0].traj - from' && a' == steps' - b' && t' == Term(recs[0].reward, sg, tg, a', b')
    requires t' == c * t
    requires Weighted(recs[1..], steps' + 1, from', sg, tg) == c * Weighted(recs[1..], steps + 1, from, sg, tg)
    ensures Weighted(recs, steps', from', sg, tg) == c * Weighted(recs, steps, from, sg, tg)
  {
    WeightedPlay(recs, steps, from, sg, tg, a, b, t);
    WeightedPlay(recs, steps', from', sg, tg, a', b', t');
    Scaled(Weighted(recs, steps, from, sg, tg), Weighted(recs, steps', from', sg, tg), c, t, t',
           Weighted(recs[1..], steps + 1, from, sg, tg), Weighted(recs[1..], steps' + 1, from', sg, tg));
  }

  /** Starting one attempt earlier scales every weight by `tg`. */
  lemma {:induction false} OneAttemptMore(recs: seq<Record>, steps: nat, from: nat, sg: real, tg: real)
    requires Reaches(recs, steps, from + 1) && Reaches(recs, steps + 1, from)
    ensures Weighted(recs, steps + 1, from, sg, tg) == tg * Weighted(recs, steps, from + 1, sg, tg)
    decreases |recs|
  {
    if recs != [] {
      var rest := recs[1..];
      if recs[0].phase == Reflect {
        OneAttemptMore(rest, steps, from, sg, tg);
      } else {
        OneAttemptMore(rest, steps + 1, from, sg, tg);
        var b := recs[0].traj - (from + 1);
        var a := steps - b;
        ghost var t, t' := Term(recs[0].reward, sg, tg, a, b), Term(recs[0].reward, sg, tg, a, b + 1);
        AttemptTerm(recs[0].reward, sg, tg, a, b);
        StepSum(recs, steps, from + 1, steps + 1, from, sg, tg, tg, t, t', a, b, a, b + 1);
      }
    }
  }

  /** The play records, in order. */
  function Plays(recs: seq<Record>): seq<Record> {
    if recs == [] then []
    else (if recs[0].phase == Play then [recs[0]] else []) + Plays(recs[1..])
  }

  /** The backward scan passes over reflections: it carries the same return over the plays alone. */
  lemma {:induction false} ScanOfPlays(recs: seq<Record>, sg: real, tg: real, last: nat)
    ensures Scan(recs, sg, tg, last) == Scan(Plays(recs), sg, tg, last)
  {
    if recs != [] {
      ScanOfPlays(recs[1..], sg, tg, last);
      if recs[0].phase == Play {
        assert Plays(recs)[1..] == Plays(recs[1..]);
      } else {
        assert Plays(recs) == Plays(recs[1..]);
      }
    }
  }

  /** Deleting the reflections changes no return. */
  lemma ReflectionsDoNotMatter(recs: seq<Record>, t: nat, sg: real, tg: real)
    requires t < |recs| && recs[|recs| - 1].phase == Play
    ensures var k := |Plays(recs[..t])|;
            && k < |Plays(recs)| && Plays(recs)[k..] == Plays(recs[t..])
            && Return(recs, t, sg, tg) == Return(Plays(recs), k, sg, tg)
  {
    PlaysSplit(recs[..t], recs[t..]);
    assert recs[..t] + recs[t..] == recs;
    PlaysLast(recs[t..]);
    var k := |Plays(recs[..t])|;
    assert Plays(recs)[k..] == Plays(recs[t..]);
    ScanOfPlays(recs[t..], sg, tg, Last(recs));
  }

  lemma Regroup(x: seq<Record>, y: seq<Record>, z: seq<Record>)
    ensures x + (y + z) == (x + y) + z
  {}

  lemma {:induction false} PlaysSplit(a: seq<Record>, b: seq<Record>)
    ensures Plays(a + b) == Plays(a) + Plays(b)
  {
    if a == [] {
      assert a + b == b;
    } else {
      PlaysSplit(a[1..], b);
      assert (a + b)[1..] == a[1..] + b;
      var x := if a[0].phase == Play then [a[0]] else [];
      Regroup(x, Plays(a[1..]), Plays(b));
    }
  }

  lemma {:induction false} PlaysLast(recs: seq<Record>)
    requires recs != [] && recs[|recs| - 1].phase == Play
    ensures Plays(recs) != [] && Last(Plays(recs)) == Last(recs)
  {
    if |recs| > 1 { PlaysLast(recs[1..]); }
  }

  // ---------------------------------------------------------------- the main results

  /** The return of a record is the sum of the play rewards from it on, each discounted by `sg` for every
      play step within an attempt and by `tg` for every change of attempt since that record. */
  lemma {:induction false} ScanClosedForm(s: seq<Record>, sg: real, tg: real)
    requires Steady(s) && s != [] && s[|s| - 1].phase == Play
    ensures Reaches(s, 0, s[0].traj)
    ensures Scan(s, sg, tg, Last(s)).total == Weighted(s, 0, s[0].traj, sg, tg)
    ensures Scan(s, sg, tg, Last(s)).attempt == s[0].traj
    decreases |s|
  {
    SteadyReaches(s, 0, s[0].traj);
    if |s| > 1 {
      SteadyTail(s);
      ScanClosedForm(s[1..], sg, tg);
      assert s[1..][0] == s[1] && Last(s[1..]) == Last(s);
      if s[0].phase == Play {
        ScanPlay(s, sg, tg, Scan(s[1..], sg, tg, Last(s)));
      }
    } else {
      WeightedPlay(s, 0, s[0].traj, sg, tg, 0, 0, s[0].reward);
    }
  }

  lemma ScanPlay(s: seq<Record>, sg: real, tg: real, next: Carry)
    requires |s| > 1 && s[0].phase == Play && s[0].traj <= s[1].traj <= s[0].traj + 1
    requires Reaches(s, 0, s[0].traj) && Reaches(s[1..], 0, s[1].traj)
    requires next == Carry(Weighted(s[1..], 0, s[1].traj, sg, tg), s[1].traj)
    ensures Back(s[0], next, sg, tg).total == Weighted(s, 0, s[0].traj, sg, tg)
  {
    var f := s[0].traj;
    WeightedPlay(s, 0, f, sg, tg, 0, 0, s[0].reward);
    if s[1].traj == f {
      OneStepMore(s[1..], 0, f, sg, tg);
    } else {
      OneAttemptMore(s[1..], 0, f, sg, tg);
    }
  }

  lemma SteadySuffix(recs: seq<Record>, t: nat)
    requires Steady(recs) && t <= |recs|
    ensures Steady(recs[t..])
  {
    var s := recs[t..];
    forall u | 0 < u < |s|
      ensures s[u - 1].traj <= s[u].traj <= s[u - 1].traj + 1
              && (s[u - 1].phase == Reflect ==> s[u].phase == Play && s[u].traj == s[u - 1].traj)
    {
      assert s[u] == recs[t + u] && s[u - 1] == recs[t + u - 1];
    }
  }

  /** What a finished rollout hands to the credit assignment. */
  lemma FinishedIsSteady(c: Config, recs: seq<Record>, infos: seq<Info>, w: seq<bool>)
    requires Finished(c, recs, infos, w) && c.Sane()
    ensures Steady(recs) && recs != [] && recs[|recs| - 1].phase == Play
  {
    forall t | 0 < t < |recs|
      ensures recs[t - 1].traj <= recs[t].traj <= recs[t - 1].traj + 1
              && (recs[t - 1].phase == Reflect ==> recs[t].phase == Play && recs[t].traj == recs[t - 1].traj)
    {
      AttemptsAdvanceByOne(c, recs, t);
      if recs[t - 1].phase == Reflect { ReflectThenPlay(c, recs, infos, w, t - 1); }
    }
  }

  /** On every finished rollout, the return of record t has the closed form. */
  lemma ReturnClosedForm(c: Config, recs: seq<Record>, infos: seq<Info>, w: seq<bool>, t: nat, sg: real, tg: real)
    requires Finished(c, recs, infos, w) && c.Sane() && t < |recs|
    ensures Reaches(recs[t..], 0, recs[t].traj)
    ensures Return(recs, t, sg, tg) == Weighted(recs[t..], 0, recs[t].traj, sg, tg)
  {
    FinishedIsSteady(c, recs, infos, w);
    SteadySuffix(recs, t);
    ScanClosedForm(recs[t..], sg, tg);
  }

  /** A reflection gets the return of the play that follows it, and deleting every reflection
      changes the return of no record. */
  lemma ReflectionsOnlyInherit(c: Config, recs: seq<Record>, infos: seq<Info>, w: seq<bool>, t: nat, sg: real, tg: real)
    requires Finished(c, recs, infos, w) && c.Sane() && t < |recs|
    ensures recs[t].phase == Reflect ==>
              t + 1 < |recs| && recs[t + 1].phase == Play && Return(recs, t, sg, tg) == Return(recs, t + 1, sg, tg)
    ensures var k := |Plays(recs[..t])|;
            && k < |Plays(recs)| && Plays(recs)[k..] == Plays(recs[t..])
            && Return(recs, t, sg, tg) == Return(Plays(recs), k, sg, tg)
  {
    FinishedIsSteady(c, recs, infos, w);
    ReflectionsDoNotMatter(recs, t, sg, tg);
    if recs[t].phase == Reflect {
      ReflectThenPlay(c, recs, infos, w, t);
      assert recs[t..][1..] == recs[t + 1..];
    }
  }
}
