/** Exactly when the server fails, and what its environment must not do. */
module Failures {
  import opened Protocol
  import opened ServerSpec
  import opened Walk
  import opened Invariants
  import opened Moves

  // ---- every way to fail ----

  /** Both users of a challenge are registered. */
  predicate BothThere(s: State, k: nat)
    requires k in s.chs
  {
    s.chs[k].user1 in s.users && s.chs[k].user2 in s.users
  }

  /** The user's battle is filed but lacks one of its users. */
  predicate BattleIsBroken(s: State, id: nat)
    requires id in s.users
  {
    s.users[id].state == Battling && s.users[id].chid in s.chs && !BothThere(s, s.users[id].chid)
  }

  /** The guard of each way to fail. */
  predicate Fails(s: State, e: Event) {
    match e
    case EvJoin(fd, nick, key, garbage) =>
      JoinError(s, nick, garbage) == MeOk && (fd % ID_MODULUS in s.users || fd in Fds(s.users))
    case EvQuit(id, key, r) => id in s.users && s.users[id].key == key && BattleIsBroken(s, id)
    case EvDisconnect(fd, r) =>
      Owners(s.users, fd) != {} && Least(Owners(s.users, fd)) in s.users
      && BattleIsBroken(s, Least(Owners(s.users, fd)))
    case EvChallenge(fd, c, draws, r) =>
      && c.id1 in s.users && c.id2 in s.users
      && s.users[c.id1].state == Online && s.users[c.id2].state == Online
      && ((c.action == CStart && c.key == s.users[c.id1].key && c.id1 != c.id2 && FirstFree(draws, s.chs.Keys).NoChid?)
          || (c.action == CAccept && c.key == s.users[c.id2].key && c.chid in s.chs && s.chs[c.chid].state == Asking
              && !BothThere(s, c.chid)))
    case EvTurn(t, r) =>
      && t.chid in s.chs && t.user in s.users && s.users[t.user].key == t.key && !BothThere(s, t.chid)
      && var ch := Mark(s.chs[t.chid], t.user, t.action); ch.acted1 && ch.acted2
  }

  lemma JudgeFailsExactly(s: State, k: nat, loser: int, r: Rolls)
    requires k in s.chs
    ensures JudgeTurn(s, k, loser, r).Crash? <==> !BothThere(s, k)
  {
  }

  lemma ChallengeFailsExactly(s: State, fd: nat, c: ChallengeMsg, draws: Draws, r: Rolls)
    ensures HandleChallenge(s, fd, c, draws, r).Crash? <==> Fails(s, EvChallenge(fd, c, draws, r))
  {
    if c.id1 in s.users && c.id2 in s.users && c.chid in s.chs {
      JudgeFailsExactly(Engage(s, c), c.chid, -1, r);
    }
  }

  lemma DisconnectFailsExactly(s: State, fd: nat, r: Rolls)
    ensures HandleDisconnect(s, fd, r).Crash? <==> Fails(s, EvDisconnect(fd, r))
  {
    if fd in Fds(s.users) {
      OwnerIsRegistered(s.users, fd);
    } else {
      assert Owners(s.users, fd) == {};
    }
  }

  /** In any state whatever, a handler fails exactly when one of these guards holds. */
  lemma StepFailsExactly(s: State, e: Event)
    ensures Step(s, e).Crash? <==> Fails(s, e)
  {
    match e
    case EvJoin(_, _, _, _) =>
    case EvQuit(id, key, r) =>
    case EvDisconnect(fd, r) => DisconnectFailsExactly(s, fd, r);
    case EvChallenge(fd, c, draws, r) => ChallengeFailsExactly(s, fd, c, draws, r);
    case EvTurn(t, r) =>
  }

  /** In any state whatever, a TURN makes the server judge a challenge that is still being asked exactly when it is the
      second action on it: nothing else that a TURN does to such a challenge is heard by anybody. */
  lemma JudgedEarlyExactly(s: State, t: TurnMsg, r: Rolls)
    requires t.chid in s.chs && s.chs[t.chid].state == Asking
    ensures var o := HandleTurn(s, t, r); (o.Crash? || o.s.out != s.out) <==> CompletesEarly(s, t)
  {
    if CompletesEarly(s, t) {
      var s1 := s.(chs := s.chs[t.chid := Mark(s.chs[t.chid], t.user, t.action)]);
      JudgeSays(s1, t.chid, -1, r);
    }
  }

  lemma JudgeSays(s: State, k: nat, loser: int, r: Rolls)
    requires k in s.chs
    ensures var o := JudgeTurn(s, k, loser, r); o.Next? ==> |o.s.out| > |s.out|
  {
  }

  // ---- turns before the accept ----

  /** Why TURN must not reach a challenge that is still ASKING: the handler records it, and if the challenged
      user has acted and left, the challenger's action makes judge_turn use a user that is gone. */
  lemma EarlyTurnCanFail(s: State, k: nat, a1: nat, a2: nat, n: nat, r: Rolls)
    requires k in s.chs && s.chs[k] == NewChallenge(s.chs[k].user1, s.chs[k].user2)
    requires s.chs[k].user1 != s.chs[k].user2
    requires s.chs[k].user1 in s.users && s.chs[k].user2 in s.users
    requires s.users[s.chs[k].user2].state == Online
    ensures
      var id1, id2 := s.chs[k].user1, s.chs[k].user2;
      Run(s, [EvTurn(TurnMsg(id2, k, s.users[id2].key, n, a2), r),
              EvQuit(id2, s.users[id2].key, r),
              EvTurn(TurnMsg(id1, k, s.users[id1].key, n, a1), r)]) == Crash
  {
    var id1, id2 := s.chs[k].user1, s.chs[k].user2;
    var e1, e2, e3 := EvTurn(TurnMsg(id2, k, s.users[id2].key, n, a2), r), EvQuit(id2, s.users[id2].key, r),
                      EvTurn(TurnMsg(id1, k, s.users[id1].key, n, a1), r);
    var s1 := s.(chs := s.chs[k := Mark(s.chs[k], id2, a2)]);
    var s2 := Leave(s1, id2);
    assert Step(s, e1) == Next(s1);
    assert Step(s1, e2) == Next(s2);
    LeftBehind(s2, e3, k, id1);
    RunThree(s, e1, e2, e3);
  }

  lemma LeftBehind(s: State, e: Event, k: nat, id: nat)
    requires e.EvTurn? && e.t.chid == k && e.t.user == id && id in s.users && e.t.key == s.users[id].key
    requires k in s.chs && s.chs[k].user1 == id && s.chs[k].acted2 && s.chs[k].user2 !in s.users
    ensures Step(s, e) == Crash
  {
  }

  /** The first early action does no harm; the second is judged at once, and breaks the invariants or fails. */
  lemma TurnExactly(s: State, t: TurnMsg, r: Rolls)
    requires Inv(s)
    ensures var o := HandleTurn(s, t, r); (o.Next? && Inv(o.s)) <==> !CompletesEarly(s, t)
  {
    if CompletesEarly(s, t) {
      EarlyJudge(s, t, r);
    } else {
      TurnKeeps(s, t, r);
    }
  }

  /** A challenge that is still being asked is judged for the first time. */
  lemma EarlyAdvance(ch: Challenge, damage: nat)
    requires Healthy(ch.(acted1 := false, acted2 := false)) && ch.state == Asking && ch.user1 != ch.user2
    ensures
      var ch' := Advance(ch, damage);
      && Decide(ch', -1) == Undecided && ch'.turnNo == 1 && ch'.state == Asking && !Healthy(ch')
      && ch'.user1 == ch.user1 && ch'.user2 == ch.user2
  {
  }

  /** What the second action on a challenge that is still being asked does: if both users are there, both are sent the
      report of a turn of a battle that has not begun; if one is gone, the server fails. */
  lemma EarlyJudge(s: State, t: TurnMsg, r: Rolls)
    requires Inv(s) && CompletesEarly(s, t)
    ensures
      var o := HandleTurn(s, t, r);
      && (o.Crash? <==> !BothThere(s, t.chid))
      && (o.Next? ==>
            && t.chid in o.s.chs && o.s.chs[t.chid].state == Asking && !Healthy(o.s.chs[t.chid])
            && EarlyReports(s.out, o.s.out, t.chid))
  {
    var ch := Mark(s.chs[t.chid], t.user, t.action);
    assert Healthy(s.chs[t.chid]) && s.chs[t.chid].user1 != s.chs[t.chid].user2;
    EarlyReport(s.(chs := s.chs[t.chid := ch]), t.chid, r);
  }

  lemma EarlyReport(s: State, k: nat, r: Rolls)
    requires k in s.chs && s.chs[k].state == Asking && s.chs[k].user1 != s.chs[k].user2
    requires Healthy(s.chs[k].(acted1 := false, acted2 := false))
    ensures
      var o := JudgeTurn(s, k, -1, r);
      && (o.Crash? <==> !BothThere(s, k))
      && (o.Next? ==>
            && k in o.s.chs && o.s.chs[k].state == Asking && !Healthy(o.s.chs[k])
            && EarlyReports(s.out, o.s.out, k))
  {
    EarlyAdvance(s.chs[k], r.damage);
  }

  /** Two reports of the first turn of `k` were sent. */
  ghost predicate EarlyReports(before: seq<Sent>, after: seq<Sent>, k: nat) {
    && |after| == |before| + 2
    && forall i | |before| <= i < |after| :: after[i].msg.TurnR? && after[i].msg.battle == k && after[i].msg.turnNo == 1
  }

  /** Exactly when a registered id equals fd modulo 65535 do the tree insertions of an otherwise valid join collide. */
  lemma JoinExactly(s: State, fd: nat, nick: Nick, key: nat, garbage: nat)
    requires Registry(s.users)
    ensures HandleJoin(s, fd, nick, key, garbage).Crash? <==>
              JoinError(s, nick, garbage) == MeOk && fd % ID_MODULUS in s.users
  {
    if fd in Fds(s.users) {
      var id :| id in s.users && s.users[id].fd == fd;
    }
  }

  /** The check against joining twice reads an unset field, so it can let a second join on a live connection
      through, which then fails an assert; with the check on the connection itself it would not. */
  lemma SecondJoinExactly(s: State, fd: nat, nick: Nick, key: nat, garbage: nat)
    requires Inv(s) && fd in Fds(s.users) && |s.users| < MAX_USER_COUNT && !NickTaken(s.users, nick)
    ensures HandleJoin(s, fd, nick, key, garbage).Crash? <==> garbage !in Fds(s.users)
  {
    var id :| id in s.users && s.users[id].fd == fd;
    assert Fine(id, s.users[id]);
    forall j | j in s.users
      ensures j != 0
    {
      assert Fine(j, s.users[j]);
    }
    JoinExactly(s, fd, nick, key, garbage);
  }

  // ---- a run from the start ----

  const ANY_ROLLS := Rolls(0, 0, 0)
  const SEVENS: Draws := seq(16, _ => 7)

  const ANN_JOINS := EvJoin(4, "a", 100, 0)
  const BOB_JOINS := EvJoin(5, "b", 200, 0)
  const ANN_ASKS := EvChallenge(4, ChallengeMsg(4, 5, 100, 0, CStart), SEVENS, ANY_ROLLS)
  const BOB_ACTS := EvTurn(TurnMsg(5, 7, 200, 0, B_ROCK), ANY_ROLLS)
  const BOB_QUITS := EvQuit(5, 200, ANY_ROLLS)
  const ANN_ACTS := EvTurn(TurnMsg(4, 7, 100, 0, B_PAPER), ANY_ROLLS)

  lemma AnnIn()
    ensures Step(INITIAL, ANN_JOINS).Next? && Inv(Step(INITIAL, ANN_JOINS).s)
    ensures
      var s := Step(INITIAL, ANN_JOINS).s;
      s.users == map[4 := NewUser(4, "a", 100)] && s.chs == map[]
  {
    JoinKeeps(INITIAL, 4, "a", 100, 0);
    JoinShape(INITIAL, 4, "a", 100, 0);
  }

  lemma BobIn(s: State)
    requires Inv(s) && s.users == map[4 := NewUser(4, "a", 100)] && s.chs == map[]
    ensures Step(s, BOB_JOINS).Next? && Inv(Step(s, BOB_JOINS).s)
    ensures
      var t := Step(s, BOB_JOINS).s;
      t.users == map[4 := NewUser(4, "a", 100), 5 := NewUser(5, "b", 200)] && t.chs == map[]
  {
    JoinKeeps(s, 5, "b", 200, 0);
    assert FoldString("a") == "a" && FoldString("b") == "b";
    assert |s.users| == 1;
    assert !NickTaken(s.users, "b");
    JoinShape(s, 5, "b", 200, 0);
  }

  lemma Asked(s: State)
    requires Inv(s) && s.chs == map[]
    requires s.users == map[4 := NewUser(4, "a", 100), 5 := NewUser(5, "b", 200)]
    ensures Step(s, ANN_ASKS).Next? && Inv(Step(s, ANN_ASKS).s)
    ensures
      var t := Step(s, ANN_ASKS).s;
      && t.chs == map[7 := NewChallenge(4, 5)]
      && 4 in t.users && t.users[4].key == 100 && 5 in t.users && t.users[5].key == 200 && t.users[5].state == Online
  {
    AnnOpens(s);
    OpenKeeps(s, ANN_ASKS.c, 7);
  }

  lemma AnnOpens(s: State)
    requires s.chs == map[] && s.users == map[4 := NewUser(4, "a", 100), 5 := NewUser(5, "b", 200)]
    ensures Step(s, ANN_ASKS) == Next(OpenChallenge(s, ANN_ASKS.c, 7))
  {
    assert SEVENS[0] == 7 && FirstFree(SEVENS, s.chs.Keys) == Chid(7);
  }

  /** Two joins, a challenge, an action of the challenged user before accepting, its quit, and the challenger's action:
      six events from the start, each of them possible for a client that sends what it likes. */
  lemma EarlyTurnRun()
    ensures Run(INITIAL, [ANN_JOINS, BOB_JOINS, ANN_ASKS] + [BOB_ACTS, BOB_QUITS, ANN_ACTS]) == Crash
  {
    AnnIn();
    var s1 := Step(INITIAL, ANN_JOINS).s;
    BobIn(s1);
    var s2 := Step(s1, BOB_JOINS).s;
    Asked(s2);
    var s3 := Step(s2, ANN_ASKS).s;
    RunThree(INITIAL, ANN_JOINS, BOB_JOINS, ANN_ASKS);
    RunAppend(INITIAL, [ANN_JOINS, BOB_JOINS, ANN_ASKS], [BOB_ACTS, BOB_QUITS, ANN_ACTS]);
    EarlyTurnCanFail(s3, 7, B_PAPER, B_ROCK, 0, ANY_ROLLS);
  }
}
