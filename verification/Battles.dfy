/** What one step of the server can do to a running battle. */
module Battles {
  import opened Protocol
  import opened ServerSpec
  import opened Walk
  import opened Invariants
  import opened Moves
  import opened Leaving

  /** The battle goes on: nobody's hit points rise, and they fall, one user's by 1 to 5, exactly on a damaging turn. */
  predicate GoesOn(was: Challenge, now: Challenge) {
    && now.state == Started && now.user1 == was.user1 && now.user2 == was.user2
    && was.turns <= now.turns <= was.turns + 1
    && (now.hits == was.hits || (now.hits == was.hits + 1 && now.turns == was.turns + 1))
    && (now.hits == was.hits ==> now.hp1 == was.hp1 && now.hp2 == was.hp2)
    && (now.hits != was.hits ==>
          || (now.hp1 == was.hp1 && 1 <= was.hp2 - now.hp2 <= 5)
          || (now.hp2 == was.hp2 && 1 <= was.hp1 - now.hp1 <= 5))
  }

  /** The last word on battle `k`, sent to one of its users: with the loser gone both stood; otherwise exactly the
      loser's hit points are used up. */
  predicate Verdict(x: Sent, k: nat, was: Challenge, winner: nat, gone: bool) {
    && (x.fd == was.user1 || x.fd == was.user2)
    && x.msg.TurnR? && x.msg.battle == k && x.msg.fin && x.msg.winner == winner
    && (winner == was.user1 || winner == was.user2)
    && if gone then x.msg.hp1 == was.hp1 && x.msg.hp2 == was.hp2
       else if winner == was.user1 then -4 <= x.msg.hp2 <= 0 < x.msg.hp1 == was.hp1
       else -4 <= x.msg.hp1 <= 0 < x.msg.hp2 == was.hp2
  }

  /** The battle is over: `winner` is credited with it, gains 1 to 4 points by `r`, and is back online; a loser who
      stays loses 0 to 3 points; and both users' last word says so. */
  ghost predicate IsOver(s: State, t: State, k: nat, was: Challenge, winner: nat, gone: bool, r: Rolls) {
    var loser := Opponent(was, winner);
    && k !in t.chs && (winner == was.user1 || winner == was.user2)
    && winner in s.users && winner in t.users && t.users[winner].state == Online
    && t.users[winner].wins == s.users[winner].wins + 1 && t.users[winner].losses == s.users[winner].losses
    && t.users[winner].score == s.users[winner].score + r.bonus % 4 + 1
    && (gone <==> loser !in t.users)
    && (!gone ==>
          && loser in s.users && t.users[loser].state == Online
          && t.users[loser].losses == s.users[loser].losses + 1 && t.users[loser].wins == s.users[loser].wins
          && t.users[loser].score == s.users[loser].score - r.penalty % 4)
    && |s.out| + 2 <= |t.out|
    && t.out[|s.out|].fd == was.user1 && Verdict(t.out[|s.out|], k, was, winner, gone)
    && t.out[|s.out| + 1].fd == was.user2 && Verdict(t.out[|s.out| + 1], k, was, winner, gone)
  }

  /** What a judged turn does to a challenge, and what its report says. */
  lemma AdvanceOutcome(k: nat, was: Challenge, damage: nat, loser: int, fd: nat)
    requires was.state == Started && was.user1 != was.user2 && Healthy(was.(acted1 := false, acted2 := false))
    requires loser != -1 ==> (loser == was.user1 || loser == was.user2) && !(was.acted1 && was.acted2)
    requires fd == was.user1 || fd == was.user2
    ensures
      var ch := Advance(was, damage);
      var d := Decide(ch, loser);
      && (d.Undecided? ==> loser == -1 && GoesOn(was, ch))
      && (d.Decided? ==> Verdict(Sent(fd, TurnReport(k, ch, d)), k, was, d.winner, loser != -1)
                         && (loser != -1 ==> d.winner != loser))
  {
  }

  /** One judged turn, either way it goes. */
  lemma JudgeBattle(s: State, k: nat, loser: int, r: Rolls)
    requires Can(s, Judge(k, loser, r))
    ensures
      var t, was := Do(s, Judge(k, loser, r)), s.chs[k];
      && (k in t.chs ==> loser == -1 && GoesOn(was, t.chs[k]))
      && (k !in t.chs ==>
            var w := Decide(Advance(was, r.damage), loser).winner;
            && (w == was.user1 || w == was.user2) && (loser != -1 ==> w != loser)
            && Credited(s, t, was, w, r) && Announced(s, t, k, was, w, loser != -1))
  {
    JudgeShape(s, k, loser, r);
    var ch := Advance(s.chs[k], r.damage);
    var d := Decide(ch, loser);
    AdvanceOutcome(k, s.chs[k], r.damage, loser, ch.user1);
    AdvanceOutcome(k, s.chs[k], r.damage, loser, ch.user2);
    if d.Decided? {
      SettleCredits(s.users, s.chs[k], d.winner, r);
      var m := TurnReport(k, ch, d);
      var t := Do(s, Judge(k, loser, r));
      FirstTwo(s.out, Sent(ch.user1, m), Sent(ch.user2, m),
               Broadcast(t.users, -1, PairRows(t.users, ch.user1, ch.user2)));
    }
  }

  lemma FirstTwo(out: seq<Sent>, a: Sent, b: Sent, rest: seq<Sent>)
    ensures
      var all := out + [a] + [b] + rest;
      |out| + 2 <= |all| && all[|out|] == a && all[|out| + 1] == b
  {
  }

  lemma JudgeLeavesOthers(s: State, k: nat, loser: int, r: Rolls, j: nat)
    requires Can(s, Judge(k, loser, r)) && j != k && j in s.chs
    ensures var t := Do(s, Judge(k, loser, r)); j in t.chs && t.chs[j] == s.chs[j]
  {
    JudgeShape(s, k, loser, r);
  }

  /** Winner and loser are credited and back online. */
  ghost predicate Credited(s: State, t: State, was: Challenge, w: nat, r: Rolls) {
    var l := Opponent(was, w);
    && w in s.users && l in s.users && w in t.users && l in t.users && l != w
    && t.users[w].state == Online && t.users[w].wins == s.users[w].wins + 1 && t.users[w].losses == s.users[w].losses
    && t.users[l].state == Online && t.users[l].losses == s.users[l].losses + 1 && t.users[l].wins == s.users[l].wins
    && t.users[w].score == s.users[w].score + r.bonus % 4 + 1 && t.users[l].score == s.users[l].score - r.penalty % 4
  }

  ghost predicate Announced(s: State, t: State, k: nat, was: Challenge, w: nat, gone: bool) {
    && |s.out| + 2 <= |t.out|
    && t.out[|s.out|].fd == was.user1 && Verdict(t.out[|s.out|], k, was, w, gone)
    && t.out[|s.out| + 1].fd == was.user2 && Verdict(t.out[|s.out| + 1], k, was, w, gone)
  }

  lemma SettleCredits(users: map<nat, User>, ch: Challenge, w: nat, r: Rolls)
    requires ch.user1 in users && ch.user2 in users && ch.user1 != ch.user2 && (w == ch.user1 || w == ch.user2)
    requires AllFine(users)
    ensures
      var users' := Settle(users, ch.user1, ch.user2, w, r);
      var l := Opponent(ch, w);
      && l in users' && w in users' && l != w
      && users'[w].state == Online && users'[w].wins == users[w].wins + 1 && users'[w].losses == users[w].losses
      && users'[l].state == Online && users'[l].losses == users[l].losses + 1 && users'[l].wins == users[l].wins
      && users'[w].score == users[w].score + r.bonus % 4 + 1 && users'[l].score == users[l].score - r.penalty % 4
  {
    assert Fine(ch.user1, users[ch.user1]) && Fine(ch.user2, users[ch.user2]);
  }

  // ---- one step ----

  lemma LeaveEnds(s: State, t: State, k: nat, was: Challenge, w: nat, id: nat, r: Rolls)
    requires Credited(s, t, was, w, r) && Announced(s, t, k, was, w, true) && k !in t.chs
    requires (w == was.user1 || w == was.user2) && id == Opponent(was, w)
    ensures IsOver(s, Leave(t, id), k, was, w, true, r)
  {
    assert t.out <= Leave(t, id).out;
  }

  lemma QuitEnds(s: State, id: nat, r: Rolls)
    requires Inv(s) && id in s.users && s.users[id].state == Battling
    ensures StartedAt(s, s.users[id].chid)
    ensures
      var o, k := QuitUser(s, id, r), s.users[id].chid;
      o.Next? && IsOver(s, o.s, k, s.chs[k], Opponent(s.chs[k], id), true, r)
  {
    var k := s.users[id].chid;
    BattlerHasFight(s.users, s.chs, id);
    assert Healthy(s.chs[k]);
    JudgeAgainst(s, id, r);
    JudgeBattle(s, k, id, r);
    var t := JudgeTurn(s, k, id, r).s;
    assert Do(s, Judge(k, id, r)) == t;
    LeaveEnds(s, t, k, s.chs[k], Opponent(s.chs[k], id), id, r);
  }

  /** Leaving ends the battle of whoever leaves, and no other. */
  lemma QuitBattle(s: State, id: nat, r: Rolls, k: nat)
    requires Inv(s) && id in s.users && StartedAt(s, k)
    ensures
      var o := QuitUser(s, id, r);
      && o.Next?
      && if s.users[id].state == Battling && s.users[id].chid == k then
           IsOver(s, o.s, k, s.chs[k], Opponent(s.chs[k], id), true, r)
         else k in o.s.chs && o.s.chs[k] == s.chs[k]
  {
    if s.users[id].state == Battling && s.users[id].chid == k {
      QuitEnds(s, id, r);
    } else {
      QuitLeavesOthers(s, id, r, k);
    }
  }

  lemma QuitLeavesOthers(s: State, id: nat, r: Rolls, k: nat)
    requires Inv(s) && id in s.users && StartedAt(s, k) && (s.users[id].state == Battling ==> s.users[id].chid != k)
    ensures var o := QuitUser(s, id, r); o.Next? && k in o.s.chs && o.s.chs[k] == s.chs[k]
  {
    QuitIsPlan(s, id, r);
    MovesAreQuiet(s, QuitPlan(s, id, r), k);
  }

  /** A TURN of battle `k`. */
  lemma TurnBattle(s: State, t: TurnMsg, r: Rolls)
    requires Inv(s) && StartedAt(s, t.chid)
    ensures
      var o, k := HandleTurn(s, t, r), t.chid;
      && o.Next?
      && if k in o.s.chs then GoesOn(s.chs[k], o.s.chs[k])
         else exists w: nat :: IsOver(s, o.s, k, s.chs[k], w, false, r)
  {
    InvIsSteady(s);
    InvFights(s, t.chid);
    FightTurn(s, t, r);
  }

  lemma FightTurn(s: State, t: TurnMsg, r: Rolls)
    requires Steady(s) && AllHealthy(s.chs) && FightsAt(s, t.chid)
    ensures
      var o, k := HandleTurn(s, t, r), t.chid;
      && o.Next?
      && if k in o.s.chs then GoesOn(s.chs[k], o.s.chs[k])
         else exists w: nat :: IsOver(s, o.s, k, s.chs[k], w, false, r)
  {
    if t.user in s.users && s.users[t.user].key == t.key {
      var k := t.chid;
      var ch := Mark(s.chs[k], t.user, t.action);
      assert Healthy(s.chs[k]);
      FileIsPlan(s, k, t.user, t.action, r);
      if ch.acted1 && ch.acted2 {
        PairJudged(s, s.(chs := s.chs[k := ch]), k, ch, r);
      }
    }
  }

  lemma PairJudged(s: State, s1: State, k: nat, ch: Challenge, r: Rolls)
    requires k in s.chs && s1 == s.(chs := s.chs[k := ch]) && Can(s1, Judge(k, -1, r))
    requires ch == s.chs[k].(acted1 := ch.acted1, acted2 := ch.acted2, act1 := ch.act1, act2 := ch.act2)
    ensures
      var o := JudgeTurn(s1, k, -1, r);
      && o.Next?
      && if k in o.s.chs then GoesOn(s.chs[k], o.s.chs[k])
         else exists w: nat :: IsOver(s, o.s, k, s.chs[k], w, false, r)
  {
    JudgeShape(s1, k, -1, r);
    JudgeBattle(s1, k, -1, r);
    var u := JudgeTurn(s1, k, -1, r).s;
    assert Do(s1, Judge(k, -1, r)) == u;
    if k !in u.chs {
      TurnEnds(s, s1, u, k, ch, Decide(Advance(ch, r.damage), -1).winner, r);
    }
  }

  lemma TurnEnds(s: State, s1: State, u: State, k: nat, ch: Challenge, w: nat, r: Rolls)
    requires k in s.chs && s1 == s.(chs := s.chs[k := ch]) && k !in u.chs
    requires ch == s.chs[k].(acted1 := ch.acted1, acted2 := ch.acted2, act1 := ch.act1, act2 := ch.act2)
    requires (w == ch.user1 || w == ch.user2) && Credited(s1, u, ch, w, r) && Announced(s1, u, k, ch, w, false)
    ensures IsOver(s, u, k, s.chs[k], w, false, r)
  {
  }

  /** What random() gave the handler of `e`. */
  function RollsOf(e: Event): Rolls {
    match e
    case EvJoin(_, _, _, _) => Rolls(0, 0, 0)
    case EvQuit(_, _, r) => r
    case EvDisconnect(_, r) => r
    case EvChallenge(_, _, _, r) => r
    case EvTurn(_, r) => r
  }

  /** What became of battle `k`: it goes on, or it is over with a winner, by a leave or not. */
  ghost predicate Became(s: State, t: State, k: nat, byTurn: bool, r: Rolls)
    requires k in s.chs
  {
    if k in t.chs then GoesOn(s.chs[k], t.chs[k])
    else exists w: nat, gone: bool :: IsOver(s, t, k, s.chs[k], w, gone, r) && (!gone ==> byTurn)
  }

  lemma QuitBecomes(s: State, id: nat, r: Rolls, k: nat)
    requires Inv(s) && id in s.users && StartedAt(s, k)
    ensures var o := QuitUser(s, id, r); o.Next? && Became(s, o.s, k, false, r)
  {
    QuitBattle(s, id, r, k);
    var t := QuitUser(s, id, r).s;
    if s.users[id].state == Battling && s.users[id].chid == k {
      assert IsOver(s, t, k, s.chs[k], Opponent(s.chs[k], id), true, r);
    }
  }

  lemma DisconnectBecomes(s: State, fd: nat, r: Rolls, k: nat)
    requires Inv(s) && StartedAt(s, k)
    ensures var o := HandleDisconnect(s, fd, r); o.Next? && Became(s, o.s, k, false, r)
  {
    if fd in Fds(s.users) {
      OwnerIsRegistered(s.users, fd);
      QuitBecomes(s, Least(Owners(s.users, fd)), r, k);
    }
  }

  /** One step of the server does to a running battle one of three things: it goes on, nobody's hit points rising; it
      ends by exactly one user's hit points being used up; or it ends by one user leaving, whatever the hit points. The
      scores change at the end, by what random() gave, and only then. */
  lemma StepBattle(s: State, e: Event, k: nat)
    requires Inv(s) && Conforms(s, e) && StartedAt(s, k)
    ensures var o := Step(s, e); o.Next? && Became(s, o.s, k, e.EvTurn? && e.t.chid == k, RollsOf(e))
  {
    match e
    case EvTurn(t, r) =>
      if t.chid == k {
        TurnBattle(s, t, r);
      } else {
        QuietStep(s, e, k);
      }
    case EvQuit(id, key, r) =>
      if id in s.users {
        QuitBecomes(s, id, r, k);
      }
    case EvDisconnect(fd, r) => DisconnectBecomes(s, fd, r, k);
    case _ => QuietStep(s, e, k);
  }

  /** Joins, challenges and other battles' TURNs do not touch battle `k`. */
  lemma QuietStep(s: State, e: Event, k: nat)
    requires Inv(s) && Conforms(s, e) && StartedAt(s, k)
    requires e.EvJoin? || e.EvChallenge? || (e.EvTurn? && e.t.chid != k)
    ensures Step(s, e).Next? && k in Step(s, e).s.chs && Step(s, e).s.chs[k] == s.chs[k]
  {
    StepIsPlan(s, e);
    PlanIsQuiet(s, e, k);
    MovesAreQuiet(s, Plan(s, e), k);
  }

  /** The move does not act on battle `k`. */
  predicate Quiet(v: Move, k: nat) {
    match v
    case File(j, _, _) => j != k
    case Judge(j, _, _) => j != k
    case _ => true
  }

  lemma PlanIsQuiet(s: State, e: Event, k: nat)
    requires StartedAt(s, k) && (e.EvJoin? || e.EvChallenge? || (e.EvTurn? && e.t.chid != k))
    ensures forall v | v in Plan(s, e) :: Quiet(v, k)
  {
  }

  lemma QuietMove(s: State, v: Move, k: nat)
    requires Can(s, v) && StartedAt(s, k) && Quiet(v, k)
    ensures k in Do(s, v).chs && Do(s, v).chs[k] == s.chs[k]
  {
    if v.Judge? {
      JudgeLeavesOthers(s, v.k, v.loser, v.r, k);
    }
  }

  lemma {:induction false} MovesAreQuiet(s: State, vs: seq<Move>, k: nat)
    requires CanAll(s, vs) && StartedAt(s, k) && forall v | v in vs :: Quiet(v, k)
    ensures k in DoAll(s, vs).chs && DoAll(s, vs).chs[k] == s.chs[k]
    decreases |vs|
  {
    if vs == [] {
    } else {
      assert vs[0] in vs;
      QuietMove(s, vs[0], k);
      MovesAreQuiet(Do(s, vs[0]), vs[1..], k);
    }
  }
}
