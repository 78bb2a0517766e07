/** What the invariants mean for a battle, for whoever leaves, and for the environment. */
module Properties {
  import opened Protocol
  import opened ServerSpec
  import opened Invariants

  // ---- pairing ----

  lemma {:induction false} TwoPerFight(battlers: map<nat, nat>, fights: map<nat, (nat, nat)>)
    requires Matched(battlers, fights)
    ensures |battlers| == 2 * |fights|
    decreases |fights|
  {
    if fights == map[] {
      assert battlers.Keys == {};
    } else {
      var k :| k in fights;
      var pair := {fights[k].0, fights[k].1};
      MatchedRemove(battlers, fights, k);
      TwoPerFight(battlers - pair, fights - {k});
      assert battlers.Keys == (battlers - pair).Keys + pair;
      assert fights.Keys == (fights - {k}).Keys + {k};
    }
  }

  /** On every conforming run the BATTLING users and the STARTED challenges are in two-to-one correspondence. */
  lemma BattleBijection(es: seq<Event>)
    requires ConformingRun(INITIAL, es)
    ensures Run(INITIAL, es).Next?
    ensures
      var s := Run(INITIAL, es).s;
      && (forall k | k in s.chs && s.chs[k].state == Started ::
            var ch := s.chs[k];
            && ch.user1 != ch.user2
            && ch.user1 in s.users && s.users[ch.user1].state == Battling && s.users[ch.user1].chid == k
            && ch.user2 in s.users && s.users[ch.user2].state == Battling && s.users[ch.user2].chid == k)
      && (forall id | id in s.users && s.users[id].state == Battling ::
            var k := s.users[id].chid;
            k in s.chs && s.chs[k].state == Started && (id == s.chs[k].user1 || id == s.chs[k].user2))
      && |Battlers(s.users)| == 2 * |Fights(s.chs)|
  {
    EveryRunIsSafe(es);
    var s := Run(INITIAL, es).s;
    TwoPerFight(Battlers(s.users), Fights(s.chs));
    forall k | k in s.chs && s.chs[k].state == Started
      ensures FightIsListed(s, k)
    {
      FightHasBoth(s.users, s.chs, k);
    }
    forall id | id in s.users && s.users[id].state == Battling
      ensures BattlerIsListed(s, id)
    {
      BattlerHasFight(s.users, s.chs, id);
    }
  }

  ghost predicate FightIsListed(s: State, k: nat)
    requires k in s.chs
  {
    var ch := s.chs[k];
    && ch.user1 != ch.user2
    && ch.user1 in s.users && s.users[ch.user1].state == Battling && s.users[ch.user1].chid == k
    && ch.user2 in s.users && s.users[ch.user2].state == Battling && s.users[ch.user2].chid == k
  }

  ghost predicate BattlerIsListed(s: State, id: nat)
    requires id in s.users
  {
    var k := s.users[id].chid;
    k in s.chs && s.chs[k].state == Started && (id == s.chs[k].user1 || id == s.chs[k].user2)
  }

  /** Nobody but the two users an accept names can end up listed in its challenge. */
  lemma EngagedAreNamed(s: State, c: ChallengeMsg)
    requires Paired(s) && c.chid in s.chs && s.chs[c.chid].state == Asking
    requires c.id1 in s.users && s.users[c.id1].state == Online
    requires c.id2 in s.users && s.users[c.id2].state == Online
    ensures forall id | id in Battlers(Engage(s, c).users) && Battlers(Engage(s, c).users)[id] == c.chid ::
              id == c.id1 || id == c.id2
  {
    assert Battlers(Engage(s, c).users) == Battlers(s.users)[c.id1 := c.chid][c.id2 := c.chid];
  }

  /** After an accept, the first turn is judged undecided: only the log and the challenge's counters move. */
  lemma FirstTurnUndecided(s: State, c: ChallengeMsg, r: Rolls)
    requires c.id1 in s.users && c.id2 in s.users && c.chid in s.chs && Healthy(s.chs[c.chid])
    requires s.chs[c.chid].state == Asking
    ensures
      var t := Engage(s, c);
      var o := JudgeTurn(t, c.chid, -1, r);
      && (o.Next? <==> s.chs[c.chid].user1 in t.users && s.chs[c.chid].user2 in t.users)
      && (o.Next? ==> o.s.users == t.users && Fights(o.s.chs) == Fights(t.chs))
  {
    var t := Engage(s, c);
    UpdateFights(t.chs, c.chid, Advance(t.chs[c.chid], r.damage));
  }

  /** An accept keeps the pairing exactly when it names the two users of the challenge, in either order. */
  lemma AcceptExactly(s: State, fd: nat, c: ChallengeMsg, r: Rolls)
    requires Inv(s) && c.chid in s.chs && s.chs[c.chid].state == Asking
    requires c.id1 in s.users && s.users[c.id1].state == Online
    requires c.id2 in s.users && s.users[c.id2].state == Online
    ensures
      var o := AcceptChallenge(s, fd, c, r);
      (o.Next? && Paired(o.s)) <==> {c.id1, c.id2} == {s.chs[c.chid].user1, s.chs[c.chid].user2}
  {
    var k, ch, t := c.chid, s.chs[c.chid], Engage(s, c);
    var o := AcceptChallenge(s, fd, c, r);
    assert Healthy(ch) && ch.user1 != ch.user2;
    FirstTurnUndecided(s, c, r);
    if {c.id1, c.id2} == {ch.user1, ch.user2} {
      assert ch.user1 in {c.id1, c.id2} && ch.user2 in {c.id1, c.id2};
      EngageMatches(s.users, s.chs, ch.user1, ch.user2, k);
      assert t.users == s.users[ch.user1 := Fighting(s.users[ch.user1], k)][ch.user2 := Fighting(s.users[ch.user2], k)];
    }
    if o.Next? && Paired(o.s) {
      FightHasBoth(t.users, t.chs, k);
      EngagedAreNamed(s, c);
      assert ch.user1 in Battlers(t.users) && ch.user2 in Battlers(t.users);
    }
  }

  // ---- one judged turn ----

  /** Of two known actions that differ exactly one beats the other: each beats the one before it, in a ring of three.
      The same action twice, or one that is not known, is a draw. */
  lemma OutcomeExactly(a: nat, b: nat)
    ensures TurnOutcome(a, b) == Win <==> a < 3 && b < 3 && (a - b) % 3 == 1
    ensures TurnOutcome(a, b) == Lose <==> a < 3 && b < 3 && (b - a) % 3 == 1
    ensures TurnOutcome(a, b) == Even <==> a == b || a >= 3 || b >= 3
  {
  }

  /** The pair of actions counts unless `turn_no` has just wrapped to 0. */
  lemma TurnCounts(ch: Challenge, damage: nat)
    requires ch.state == Started && ch.acted1 && ch.acted2
    requires ch.turnNo == ch.turns % TURN_MODULUS
    ensures
      var ch' := Advance(ch, damage);
      var loss1, loss2 := ch.hp1 - ch'.hp1, ch.hp2 - ch'.hp2;
      if ch.turns % TURN_MODULUS == 0 then loss1 == 0 && loss2 == 0
      else
        && loss1 == (if Beats(ch.act2, ch.act1) then damage % 5 + 1 else 0)
        && loss2 == (if Beats(ch.act1, ch.act2) then damage % 5 + 1 else 0)
        && ch'.hits == ch.hits + (if loss1 + loss2 > 0 then 1 else 0)
  {
  }

  /** How a battle ends: by a user leaving, both still standing, or by exactly one user at -4..0, who loses. */
  lemma BattleEnds(ch: Challenge, damage: nat, loser: int)
    requires ch.state == Started && ch.user1 != ch.user2 && Healthy(ch.(acted1 := false, acted2 := false))
    requires loser != -1 ==> (loser == ch.user1 || loser == ch.user2) && !(ch.acted1 && ch.acted2)
    ensures
      var ch' := Advance(ch, damage);
      var v := Decide(ch', loser);
      && ch'.hits + max(ch'.hp1, 1) + max(ch'.hp2, 1) <= 2 * MAXHP + 1
      && ch'.hits <= 19
      && (v.Undecided? <==> loser == -1 && ch'.hp1 > 0 && ch'.hp2 > 0)
      && (v.Decided? ==>
            && (v.winner == ch.user1 || v.winner == ch.user2)
            && if loser != -1 then ch'.hp1 == ch.hp1 && ch'.hp2 == ch.hp2 && v.winner != loser
               else if v.winner == ch.user1 then -4 <= ch'.hp2 <= 0 < ch'.hp1
               else -4 <= ch'.hp1 <= 0 < ch'.hp2)
  {
  }

  function max(a: int, b: int): int {
    if a < b then b else a
  }

  /** Between handlers a running battle has had at most 18 damaging turns. */
  lemma RunningBattleIsShort(s: State, k: nat)
    requires Inv(s) && k in s.chs && s.chs[k].state == Started
    ensures s.chs[k].hits <= 18
  {
    assert Healthy(s.chs[k]);
  }

  // ---- two actions in either order ----

  /** When neither player has acted, the order in which the two TURNs arrive makes no difference. */
  lemma TurnsCommute(s: State, t1: TurnMsg, t2: TurnMsg, r1: Rolls, r2: Rolls, r: Rolls)
    requires TwoSided(s.chs) && t1.chid == t2.chid && t1.chid in s.chs
    requires t1.user == s.chs[t1.chid].user1 && t2.user == s.chs[t1.chid].user2
    requires !s.chs[t1.chid].acted1 && !s.chs[t1.chid].acted2
    ensures Run(s, [EvTurn(t1, r1), EvTurn(t2, r)]) == Run(s, [EvTurn(t2, r2), EvTurn(t1, r)])
  {
    var k, ch := t1.chid, s.chs[t1.chid];
    RunTwo(s, EvTurn(t1, r1), EvTurn(t2, r));
    RunTwo(s, EvTurn(t2, r2), EvTurn(t1, r));
    assert ch.user1 != ch.user2;
    var ch1, ch2 := Mark(ch, t1.user, t1.action), Mark(ch, t2.user, t2.action);
    assert Mark(ch1, t2.user, t2.action) == Mark(ch2, t1.user, t1.action);
    var both := Mark(ch1, t2.user, t2.action);
    assert s.chs[k := ch1][k := both] == s.chs[k := both] == s.chs[k := ch2][k := both];
    var ok1 := t1.user in s.users && s.users[t1.user].key == t1.key;
    var ok2 := t2.user in s.users && s.users[t2.user].key == t2.key;
    assert Step(s, EvTurn(t1, r1)) == Next(if ok1 then s.(chs := s.chs[k := ch1]) else s);
    assert Step(s, EvTurn(t2, r2)) == Next(if ok2 then s.(chs := s.chs[k := ch2]) else s);
  }

  // ---- whose requests count ----

  /** The user that a request acts for, and the key it shows. */
  predicate Authorised(users: map<nat, User>, id: nat, key: nat) {
    id in users && users[id].key == key
  }

  /** Nothing changes but the log unless the user that the request acts for is registered and the key is its own: the
      challenger for starting and cancelling, the challenged user for accepting and rejecting. */
  lemma KeysGuard(s: State, e: Event)
    ensures
      var o := Step(s, e);
      o.Next? && (o.s.users != s.users || o.s.chs != s.chs || o.s.hist != s.hist) ==>
        match e
        case EvQuit(id, key, _) => Authorised(s.users, id, key)
        case EvTurn(t, _) => Authorised(s.users, t.user, t.key)
        case EvChallenge(_, c, _, _) =>
          && c.id1 in s.users && c.id2 in s.users && c.action != CInvalid
          && Authorised(s.users, if c.action == CStart || c.action == CCancel then c.id1 else c.id2, c.key)
        case EvJoin(fd, nick, _, _) => !NickTaken(s.users, nick) && |s.users| < MAX_USER_COUNT
        case EvDisconnect(fd, _) => fd in Fds(s.users)
  {
    match e
    case EvTurn(t, r) =>
    case _ =>
  }
}
