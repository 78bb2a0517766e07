/** How many battles there were, and how many have ended. */
module Reckoning {
  import opened Protocol
  import opened ServerSpec
  import opened Invariants
  import opened Ledger
  import opened Moves
  import opened Trace
  import opened Chronicle

  /** Every battle that began is running or over. */
  ghost predicate Reckoned(s: State) {
    |s.hist.begun| == s.hist.over + |Fights(s.chs)|
  }

  lemma FightBegins(chs: map<nat, Challenge>, k: nat)
    requires k in chs && chs[k].state == Asking
    ensures |Fights(chs[k := Begun(chs[k])])| == |Fights(chs)| + 1
  {
    EngageFights(chs, k);
    assert Fights(chs[k := Begun(chs[k])]).Keys == Fights(chs).Keys + {k};
  }

  lemma FightEnds(chs: map<nat, Challenge>, k: nat)
    requires k in chs && chs[k].state == Started
    ensures |Fights(chs - {k})| == |Fights(chs)| - 1
  {
    EndFights(chs, k);
    assert Fights(chs).Keys == Fights(chs - {k}).Keys + {k};
  }

  lemma BeginReckons(s: State, v: Move)
    requires Can(s, v) && v.Begin? && Remembered(s) && Reckoned(s)
    ensures Reckoned(Do(s, v))
  {
    BeginNames(s, v);
    EngageReckons(s, v.c);
  }

  lemma EngageReckons(s: State, c: ChallengeMsg)
    requires c.id1 in s.users && c.id2 in s.users && AskingAt(s, c.chid) && c.chid !in s.hist.begun && Reckoned(s)
    ensures Reckoned(Engage(s, c))
  {
    FightBegins(s.chs, c.chid);
  }

  lemma JudgeReckons(s: State, v: Move)
    requires Can(s, v) && v.Judge? && Reckoned(s)
    ensures Reckoned(Do(s, v))
  {
    JudgeShape(s, v.k, v.loser, v.r);
    UpdateFights(s.chs, v.k, Advance(s.chs[v.k], v.r.damage));
    FightEnds(s.chs, v.k);
  }

  lemma OtherReckons(s: State, v: Move)
    requires Can(s, v) && !v.Begin? && !v.Judge? && Reckoned(s)
    ensures Reckoned(Do(s, v))
  {
    match v
    case Open(c, k) => assert Fights(s.chs[k := NewChallenge(c.id1, c.id2)]) == Fights(s.chs);
    case Withdraw(c) => DropAsking(s.chs, s.users[c.id1].chid);
    case TurnDown(c) => DropAsking(s.chs, c.chid);
    case File(k, user, action) => UpdateFights(s.chs, k, Mark(s.chs[k], user, action));
    case _ =>
  }

  lemma {:induction false} MovesReckon(s: State, vs: seq<Move>)
    requires CanAll(s, vs) && FreshAll(s, vs) && Remembered(s) && Reckoned(s)
    ensures Remembered(DoAll(s, vs)) && Reckoned(DoAll(s, vs))
    decreases |vs|
  {
    if vs == [] {
    } else {
      var v := vs[0];
      MoveRemembers(s, v);
      if v.Begin? {
        BeginReckons(s, v);
      } else if v.Judge? {
        JudgeReckons(s, v);
      } else {
        OtherReckons(s, v);
      }
      MovesReckon(Do(s, v), vs[1..]);
    }
  }

  lemma {:induction false} RunReckons(s: State, es: seq<Event>)
    requires Inv(s) && Remembered(s) && Reckoned(s) && ConformingRun(s, es) && FreshRun(s, es)
    ensures Run(s, es).Next? && Reckoned(Run(s, es).s)
    decreases |es|
  {
    if es == [] {
    } else {
      StepKeeps(s, es[0]);
      StepIsPlan(s, es[0]);
      FreshPlan(s, es[0]);
      MovesReckon(s, Plan(s, es[0]));
      RunReckons(Step(s, es[0]).s, es[1..]);
    }
  }

  /** On every run the wins, and the losses, of all users ever present are as many as the battles that were started and
      removed: those that began less those that are running. */
  lemma WinsAreBattles(es: seq<Event>)
    requires ConformingRun(INITIAL, es) && FreshRun(INITIAL, es)
    ensures Run(INITIAL, es).Next?
    ensures
      var s := Run(INITIAL, es).s;
      && Tally(s.users).wins + s.hist.pastWins == |s.hist.begun| - |Fights(s.chs)|
      && Tally(s.users).losses + s.hist.pastLosses == |s.hist.begun| - |Fights(s.chs)|
  {
    assert Fights(INITIAL.chs) == map[];
    RunReckons(INITIAL, es);
    ScoreLedger(es);
  }
}
