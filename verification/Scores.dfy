/** When scores change, and by how much. */
module Scores {
  import opened Protocol
  import opened ServerSpec
  import opened Walk
  import opened Invariants
  import opened Logs
  import opened Moves
  import opened Leaving
  import opened Battles
  import opened Properties

  predicate SameRecord(u: User, v: User) {
    v.score == u.score && v.wins == u.wins && v.losses == u.losses
  }

  /** One battle more, won or lost. */
  predicate OneMore(u: User, v: User, r: Rolls) {
    || (v.wins == u.wins + 1 && v.losses == u.losses && v.score == u.score + r.bonus % 4 + 1)
    || (v.losses == u.losses + 1 && v.wins == u.wins && v.score == u.score - r.penalty % 4)
  }

  /** The record of a user who stays changes exactly when its battle is over; who is new has none. `chs` are the
      challenges afterwards. */
  predicate RecordMoved(users: map<nat, User>, users': map<nat, User>, chs: map<nat, Challenge>, id: nat, r: Rolls)
    requires id in users'
  {
    var v := users'[id];
    if id !in users then v.score == 0 && v.wins == 0 && v.losses == 0
    else if users[id].state == Battling && users[id].chid !in chs then OneMore(users[id], v, r)
    else SameRecord(users[id], v)
  }

  ghost predicate Recorded(s: State, t: State, r: Rolls) {
    forall id | id in t.users :: RecordMoved(s.users, t.users, t.chs, id, r)
  }

  /** Whoever is in battle `k` is one of its two users, and every battler's battle is there. */
  ghost predicate OnlyTwo(s: State, k: nat, a: nat, b: nat) {
    forall j | j in s.users && s.users[j].state == Battling ::
      s.users[j].chid in s.chs && (s.users[j].chid == k ==> j == a || j == b)
  }

  lemma FightIsOfTwo(s: State, k: nat)
    requires Paired(s) && StartedAt(s, k)
    ensures OnlyTwo(s, k, s.chs[k].user1, s.chs[k].user2)
  {
    forall j | j in s.users && s.users[j].state == Battling
      ensures s.users[j].chid in s.chs && (s.users[j].chid == k ==> j == s.chs[k].user1 || j == s.chs[k].user2)
    {
      BattlerHasFight(s.users, s.chs, j);
    }
  }

  /** Nobody's record changes, and no running battle is over. */
  ghost predicate Still(s: State, t: State) {
    && (forall id | id in t.users :: id in s.users && SameRecord(s.users[id], t.users[id]))
    && (forall k | StartedAt(s, k) :: k in t.chs)
  }

  lemma StillRecords(s: State, t: State, r: Rolls)
    requires Paired(s) && Still(s, t)
    ensures Recorded(s, t, r)
  {
    forall j | j in t.users
      ensures RecordMoved(s.users, t.users, t.chs, j, r)
    {
      if s.users[j].state == Battling {
        BattlerHasFight(s.users, s.chs, j);
      }
    }
  }

  lemma LeaverRecords(s: State, t: State, id: nat, other: nat, k: nat, r: Rolls)
    requires id in s.users && other in s.users && id != other && OnlyTwo(s, k, id, other)
    requires s.users[other].state == Battling && s.users[other].chid == k
    requires t.chs == s.chs - {k} && t.users == (s.users - {id})[other := Rewarded(s.users[other], r.bonus % 4 + 1)]
    ensures Recorded(s, t, r)
  {
    forall j | j in t.users
      ensures RecordMoved(s.users, t.users, t.chs, j, r)
    {
      if j == other {
        assert OneMore(s.users[j], t.users[j], r);
      } else {
        assert t.users[j] == s.users[j];
      }
    }
  }

  lemma QuitRecords(s: State, id: nat, r: Rolls)
    requires Inv(s) && id in s.users
    ensures var o := QuitUser(s, id, r); o.Next? && Recorded(s, o.s, r)
  {
    LeavingIsSafe(s, id, r);
    var t := QuitUser(s, id, r).s;
    if s.users[id].state == Battling {
      var k := s.users[id].chid;
      BattlerHasFight(s.users, s.chs, id);
      FightHasBoth(s.users, s.chs, k);
      FightIsOfTwo(s, k);
      LeaverRecords(s, t, id, Opponent(s.chs[k], id), k, r);
    } else {
      StillRecords(s, t, r);
    }
  }

  /** A battle judged in a state with the same users and challenge ids. */
  lemma JudgeRecords(s: State, s1: State, k: nat, r: Rolls)
    requires Can(s1, Judge(k, -1, r)) && s1.users == s.users && s1.chs.Keys == s.chs.Keys
    requires OnlyTwo(s, k, s1.chs[k].user1, s1.chs[k].user2)
    ensures var o := JudgeTurn(s1, k, -1, r); o.Next? && Recorded(s, o.s, r)
  {
    JudgeShape(s1, k, -1, r);
    var ch := Advance(s1.chs[k], r.damage);
    var d := Decide(ch, -1);
    var t := JudgeTurn(s1, k, -1, r).s;
    if d.Decided? {
      SettleRecords(s.users, ch, d.winner, r);
      forall j | j in t.users
        ensures RecordMoved(s.users, t.users, t.chs, j, r)
      {
        assert j == ch.user1 || j == ch.user2 || t.users[j] == s.users[j];
      }
    }
  }

  lemma SettleRecords(users: map<nat, User>, ch: Challenge, w: nat, r: Rolls)
    requires ch.user1 in users && ch.user2 in users && ch.user1 != ch.user2 && (w == ch.user1 || w == ch.user2)
    ensures
      var users' := Settle(users, ch.user1, ch.user2, w, r);
      && OneMore(users[ch.user1], users'[ch.user1], r) && OneMore(users[ch.user2], users'[ch.user2], r)
      && users'.Keys == users.Keys
      && forall j | j in users && j != ch.user1 && j != ch.user2 :: users'[j] == users[j]
  {
  }

  lemma PairRecords(s: State, t: TurnMsg, r: Rolls)
    requires Steady(s) && Paired(s) && StartedAt(s, t.chid) && Healthy(s.chs[t.chid]) && t.user in s.users
    requires FightsAt(s, t.chid)
    requires var ch := Mark(s.chs[t.chid], t.user, t.action); ch.acted1 && ch.acted2
    ensures
      var o := JudgeTurn(s.(chs := s.chs[t.chid := Mark(s.chs[t.chid], t.user, t.action)]), t.chid, -1, r);
      o.Next? && Recorded(s, o.s, r)
  {
    FightIsOfTwo(s, t.chid);
    FileIsPlan(s, t.chid, t.user, t.action, r);
    JudgeRecords(s, s.(chs := s.chs[t.chid := Mark(s.chs[t.chid], t.user, t.action)]), t.chid, r);
  }

  lemma TurnRecords(s: State, t: TurnMsg, r: Rolls)
    requires Inv(s) && Conforms(s, EvTurn(t, r))
    ensures var o := HandleTurn(s, t, r); o.Next? && Recorded(s, o.s, r)
  {
    InvIsSteady(s);
    if CompletesPair(s, t) {
      InvFights(s, t.chid);
      PairRecords(s, t, r);
    } else {
      StillRecords(s, HandleTurn(s, t, r).s, r);
    }
  }

  /** The TURN is the second action of its turn. */
  predicate CompletesPair(s: State, t: TurnMsg) {
    && t.chid in s.chs && t.user in s.users && s.users[t.user].key == t.key
    && var ch := Mark(s.chs[t.chid], t.user, t.action); ch.acted1 && ch.acted2
  }

  lemma AcceptIsStill(s: State, fd: nat, c: ChallengeMsg, r: Rolls)
    requires AskingAt(s, c.chid) && Healthy(s.chs[c.chid]) && c.id1 in s.users && c.id2 in s.users
    ensures var o := AcceptChallenge(s, fd, c, r); o.Next? ==> Still(s, o.s)
  {
    FirstTurnUndecided(s, c, r);
    JudgeFirst(Engage(s, c), c.chid, r);
  }

  /** The first turn of a battle keeps all challenges. */
  lemma JudgeFirst(s: State, k: nat, r: Rolls)
    requires k in s.chs
    ensures
      var o := JudgeTurn(s, k, -1, r);
      o.Next? ==> forall j | j in s.chs && j != k :: j in o.s.chs
  {
  }

  lemma StartIsStill(s: State, fd: nat, c: ChallengeMsg, draws: Draws)
    requires c.id1 in s.users && c.id2 in s.users
    ensures var o := StartChallenge(s, fd, c, draws); o.Next? ==> Still(s, o.s)
  {
  }

  lemma CancelIsStill(s: State, c: ChallengeMsg)
    requires c.id1 in s.users
    ensures Still(s, CancelChallenge(s, c))
  {
  }

  lemma RejectIsStill(s: State, c: ChallengeMsg)
    requires c.id1 in s.users && AskingAt(s, c.chid)
    ensures Still(s, RejectChallenge(s, c))
  {
  }

  lemma AnswerIsStill(s: State, fd: nat, c: ChallengeMsg, r: Rolls)
    requires AskingAt(s, c.chid) && Healthy(s.chs[c.chid]) && c.id1 in s.users && c.id2 in s.users
    ensures
      var o := if c.action == CAccept then AcceptChallenge(s, fd, c, r) else Next(RejectChallenge(s, c));
      o.Next? ==> Still(s, o.s)
  {
    if c.action == CAccept {
      AcceptIsStill(s, fd, c, r);
    } else {
      RejectIsStill(s, c);
    }
  }

  lemma ChallengeIsStill(s: State, fd: nat, c: ChallengeMsg, draws: Draws, r: Rolls)
    requires AllHealthy(s.chs)
    ensures var o := HandleChallenge(s, fd, c, draws, r); o.Next? ==> Still(s, o.s)
  {
    if c.id1 !in s.users || c.id2 !in s.users {
    } else if c.action == CStart {
      StartIsStill(s, fd, c, draws);
    } else if c.action == CCancel {
      CancelIsStill(s, c);
    } else if AskingAt(s, c.chid) {
      assert Healthy(s.chs[c.chid]);
      AnswerIsStill(s, fd, c, r);
    }
  }

  /** One step changes nobody's wins, losses or score, except that when a battle is over, by a second action or by a
      leave, the user who wins it gains 1 to 4 points and one who stays and loses it loses 0 to 3, as random() has it;
      a newcomer starts with nothing. */
  lemma StepRecords(s: State, e: Event)
    requires Inv(s) && Conforms(s, e)
    ensures Step(s, e).Next? && Recorded(s, Step(s, e).s, RollsOf(e))
  {
    StepKeeps(s, e);
    InvIsSteady(s);
    match e
    case EvJoin(fd, nick, key, garbage) =>
      JoinAdds(s, fd, nick, key, garbage);
      JoinRecords(s, Step(s, e).s, fd, NewUser(fd, nick, key));
    case EvQuit(id, key, r) =>
      if Authorised(s.users, id, key) {
        QuitRecords(s, id, r);
      } else {
        StillRecords(s, s, r);
      }
    case EvDisconnect(fd, r) =>
      if fd in Fds(s.users) {
        OwnerIsRegistered(s.users, fd);
        QuitRecords(s, Least(Owners(s.users, fd)), r);
      } else {
        StillRecords(s, s, r);
      }
    case EvChallenge(fd, c, draws, r) =>
      ChallengeIsStill(s, fd, c, draws, r);
      StillRecords(s, Step(s, e).s, r);
    case EvTurn(t, r) => TurnRecords(s, t, r);
  }

  lemma JoinRecords(s: State, t: State, fd: nat, u: User)
    requires Paired(s) && t.chs == s.chs && (t.users == s.users || t.users == s.users[fd := u])
    requires u.score == 0 && u.wins == 0 && u.losses == 0 && fd !in s.users
    ensures Recorded(s, t, Rolls(0, 0, 0))
  {
    StillRecords(s, s, Rolls(0, 0, 0));
    assert forall j | j in s.users :: RecordMoved(s.users, s.users, s.chs, j, Rolls(0, 0, 0));
  }

  // ---- who leaves ----

  /** The last score of a user who leaves: what it loses by leaving a battle included. */
  function LastScore(u: User, r: Rolls): int {
    if u.state == Battling then u.score - r.penalty % 4 else u.score
  }

  /** The last message is the one row. */
  predicate EndsWith(log: seq<Msg>, e: Entry) {
    log != [] && log[|log| - 1] == UChange([e])
  }

  lemma DepartRow(s: State, id: nat, p: nat)
    requires AllFine(s.users) && id in s.users && p in s.users
    ensures EndsWith(Log(Leave(s, id).out, p), EntryOf(id, s.users[id].(state := Offline)))
  {
    LeaveLog(s, id, p);
  }

  lemma BattlerRow(s: State, t: State, id: nat, other: nat, r: Rolls, p: nat)
    requires id in s.users && other in s.users && other != id && s.users[id].state == Battling && p in s.users
    requires t.users == s.users[id := Lost(s.users[id], r.penalty % 4)][other := Won(s.users[other], r.bonus % 4 + 1)]
    requires AllFine(t.users)
    ensures EndsWith(Log(Leave(t, id).out, p), Entry(id, s.users[id].nick, Offline, LastScore(s.users[id], r)))
  {
    DepartRow(t, id, p);
  }

  lemma JudgedAreFine(s: State, id: nat, r: Rolls)
    requires Inv(s) && id in s.users && s.users[id].state == Battling
    ensures s.users[id].chid in s.chs && JudgeTurn(s, s.users[id].chid, id, r).Next?
    ensures AllFine(JudgeTurn(s, s.users[id].chid, id, r).s.users)
  {
    InvIsSteady(s);
    BattlerHasFight(s.users, s.chs, id);
    InvFights(s, s.users[id].chid);
    JudgeLetsGo(s, id, r);
  }

  lemma BattlerLeft(s: State, id: nat, r: Rolls, p: nat)
    requires Inv(s) && id in s.users && p in s.users && s.users[id].state == Battling
    ensures
      var o := QuitUser(s, id, r);
      o.Next? && EndsWith(Log(o.s.out, p), Entry(id, s.users[id].nick, Offline, LastScore(s.users[id], r)))
  {
    JudgeAgainst(s, id, r);
    JudgedAreFine(s, id, r);
    var k := s.users[id].chid;
    var t := JudgeTurn(s, k, id, r).s;
    QuitsAs(s, id, r);
    BattlerRow(s, t, id, Opponent(s.chs[k], id), r, p);
  }

  lemma QuitsAs(s: State, id: nat, r: Rolls)
    requires id in s.users && s.users[id].state == Battling && s.users[id].chid in s.chs
    requires JudgeTurn(s, s.users[id].chid, id, r).Next? && id in JudgeTurn(s, s.users[id].chid, id, r).s.users
    ensures QuitUser(s, id, r) == Next(Leave(JudgeTurn(s, s.users[id].chid, id, r).s, id))
  {
  }

  /** The last that everybody hears of a user who leaves: offline, with that score. */
  lemma LeaverRow(s: State, id: nat, r: Rolls, p: nat)
    requires Inv(s) && id in s.users && p in s.users
    ensures
      var o := QuitUser(s, id, r);
      o.Next? && EndsWith(Log(o.s.out, p), Entry(id, s.users[id].nick, Offline, LastScore(s.users[id], r)))
  {
    InvIsSteady(s);
    if s.users[id].state == Battling {
      BattlerLeft(s, id, r, p);
    } else {
      DepartRow(s, id, p);
    }
  }
}
