/** What holds on every run of the server that does not fail, whatever the clients send: the registry, and the
    books of wins, losses and scores. */
module Ledger {
  import opened Protocol
  import opened ServerSpec
  import opened Walk
  import opened Invariants

  /** Wins and losses together. */
  datatype Books = Books(wins: nat, losses: nat)

  function Plus(u: User, b: Books): Books {
    Books(u.wins + b.wins, u.losses + b.losses)
  }

  ghost function Tally(users: map<nat, User>): Books {
    if users == map[] then Books(0, 0)
    else
      var id :| id in users;
      Plus(users[id], Tally(users - {id}))
  }

  /** The totals do not depend on the order in which users are counted. */
  lemma {:induction false} TallyOne(users: map<nat, User>, id: nat)
    requires id in users
    ensures Tally(users) == Plus(users[id], Tally(users - {id}))
    decreases |users|
  {
    var j: nat :| j in users && Tally(users) == Plus(users[j], Tally(users - {j}));
    if j == id {
    } else {
      TallyOne(users - {j}, id);
      TallyOne(users - {id}, j);
      assert users - {j} - {id} == users - {id} - {j};
      var rest := Tally(users - {j} - {id});
      assert Tally(users) == Plus(users[j], Plus(users[id], rest)) == Plus(users[id], Plus(users[j], rest));
    }
  }

  lemma TallyAdd(users: map<nat, User>, id: nat, u: User)
    requires id !in users
    ensures Tally(users[id := u]) == Plus(u, Tally(users))
  {
    TallyOne(users[id := u], id);
    assert users[id := u] - {id} == users;
  }

  lemma TallyUpdate(users: map<nat, User>, id: nat, u: User)
    requires id in users
    ensures Tally(users[id := u]).wins == Tally(users).wins - users[id].wins + u.wins
    ensures Tally(users[id := u]).losses == Tally(users).losses - users[id].losses + u.losses
  {
    TallyOne(users, id);
    TallyAdd(users - {id}, id, u);
    assert (users - {id})[id := u] == users[id := u];
  }

  ghost predicate FairScores(users: map<nat, User>) {
    forall id | id in users :: FairScore(users[id])
  }

  /** Every battle that ended gave one win and one loss. */
  ghost predicate Balanced(s: State) {
    && Tally(s.users).wins + s.hist.pastWins == s.hist.over
    && Tally(s.users).losses + s.hist.pastLosses == s.hist.over
  }

  ghost predicate Always(s: State) {
    Registry(s.users) && Charted(s.chs) && FairScores(s.users) && Balanced(s)
  }

  lemma SettleBooks(users: map<nat, User>, id1: nat, id2: nat, winner: nat, r: Rolls)
    requires id1 in users && id2 in users && id1 != id2
    ensures
      var users' := Settle(users, id1, id2, winner, r);
      Tally(users').wins == Tally(users).wins + 1 && Tally(users').losses == Tally(users).losses + 1
  {
    var users' := Settle(users, id1, id2, winner, r);
    TallyUpdate(users, id1, users'[id1]);
    TallyUpdate(users[id1 := users'[id1]], id2, users'[id2]);
    assert users[id1 := users'[id1]][id2 := users'[id2]] == users';
  }

  lemma SettleFair(users: map<nat, User>, id1: nat, id2: nat, winner: nat, r: Rolls)
    requires id1 in users && id2 in users && id1 != id2 && FairScores(users)
    ensures FairScores(Settle(users, id1, id2, winner, r))
  {
  }

  lemma JudgeAlways(s: State, k: nat, loser: int, r: Rolls)
    requires Always(s) && k in s.chs
    ensures var o := JudgeTurn(s, k, loser, r); o.Next? ==> Always(o.s)
  {
    JudgeTurnFrame(s, k, loser, r);
    var o := JudgeTurn(s, k, loser, r);
    if o.Next? {
      SameKeysRegistry(s.users, o.s.users);
      var ch := Advance(s.chs[k], r.damage);
      var v := Decide(ch, loser);
      if v.Decided? {
        SettleBooks(s.users, ch.user1, ch.user2, v.winner, r);
        SettleFair(s.users, ch.user1, ch.user2, v.winner, r);
      }
    }
  }

  lemma LeaveAlways(s: State, id: nat)
    requires Always(s) && id in s.users
    ensures Always(Leave(s, id))
  {
    LeaveKeepsRegistry(s, id);
    TallyOne(s.users, id);
  }

  lemma QuitAlways(s: State, id: nat, r: Rolls)
    requires Always(s) && id in s.users
    ensures var o := QuitUser(s, id, r); o.Next? ==> Always(o.s)
  {
    var u := s.users[id];
    if u.state == Battling && u.chid in s.chs {
      JudgeAlways(s, u.chid, id, r);
      JudgeTurnFrame(s, u.chid, id, r);
      var o := JudgeTurn(s, u.chid, id, r);
      if o.Next? {
        LeaveAlways(o.s, id);
      }
    } else {
      LeaveAlways(s, id);
    }
  }

  lemma AdmitAlways(s: State, id: nat, u: User)
    requires Always(s) && id !in s.users && Registry(s.users[id := u]) && FairScore(u) && u.wins == u.losses == 0
    ensures Always(Admit(s, id, u))
  {
    TallyAdd(s.users, id, u);
  }

  lemma JoinAlways(s: State, fd: nat, nick: Nick, key: nat, garbage: nat)
    requires Always(s)
    ensures var o := HandleJoin(s, fd, nick, key, garbage); o.Next? ==> Always(o.s)
  {
    JoinKeepsRegistry(s, fd, nick, key, garbage);
    var id, u, o := fd % ID_MODULUS, NewUser(fd, nick, key), HandleJoin(s, fd, nick, key, garbage);
    if o.Next? && o.s.users != s.users {
      assert o.s == Admit(s, id, u);
      AdmitAlways(s, id, u);
    }
  }

  /** A change to one user that is not a result of battle. */
  lemma RecordAlways(users: map<nat, User>, id: nat, u: User)
    requires Registry(users) && FairScores(users) && id in users
    requires u == users[id].(state := u.state, chid := u.chid)
    ensures Registry(users[id := u]) && FairScores(users[id := u])
    ensures Tally(users[id := u]) == Tally(users)
  {
    RecordTally(users, id, u);
    RecordKeeps(users, id, u);
  }

  lemma RecordKeeps(users: map<nat, User>, id: nat, u: User)
    requires Registry(users) && FairScores(users) && id in users
    requires u == users[id].(state := u.state, chid := u.chid)
    ensures Registry(users[id := u]) && FairScores(users[id := u])
  {
    RecordFair(users, id, u);
    assert SameKeys(users, users[id := u]);
    SameKeysRegistry(users, users[id := u]);
  }

  lemma RecordFair(users: map<nat, User>, id: nat, u: User)
    requires FairScores(users) && FairScore(u)
    ensures FairScores(users[id := u])
  {
  }

  lemma RecordTally(users: map<nat, User>, id: nat, u: User)
    requires id in users && u.wins == users[id].wins && u.losses == users[id].losses
    ensures Tally(users[id := u]) == Tally(users)
  {
    TallyUpdate(users, id, u);
  }

  lemma EngageAlways(s: State, c: ChallengeMsg)
    requires Always(s) && c.id1 in s.users && c.id2 in s.users && c.chid in s.chs
    ensures Always(Engage(s, c))
  {
    var users := s.users[c.id1 := Fighting(s.users[c.id1], c.chid)];
    RecordAlways(s.users, c.id1, Fighting(s.users[c.id1], c.chid));
    RecordAlways(users, c.id2, Fighting(s.users[c.id2], c.chid));
  }

  lemma OpenAlways(s: State, c: ChallengeMsg, k: nat)
    requires Always(s) && c.id1 in s.users && c.id2 in s.users && c.id1 != c.id2 && 0 < k < ID_MODULUS
    ensures Always(OpenChallenge(s, c, k))
  {
    RecordAlways(s.users, c.id1, s.users[c.id1].(chid := k));
  }

  lemma StartAlways(s: State, fd: nat, c: ChallengeMsg, draws: Draws)
    requires Always(s) && c.id1 in s.users && c.id2 in s.users
    ensures var o := StartChallenge(s, fd, c, draws); o.Next? ==> Always(o.s)
  {
    FirstFreeIsFree(draws, s.chs.Keys);
    var m := FirstFree(draws, s.chs.Keys);
    if m.Chid? && c.id1 != c.id2 {
      OpenAlways(s, c, m.k);
    }
  }

  lemma CancelAlways(s: State, c: ChallengeMsg)
    requires Always(s) && c.id1 in s.users
    ensures Always(CancelChallenge(s, c))
  {
    RecordAlways(s.users, c.id1, s.users[c.id1].(chid := 0));
  }

  lemma AnswerAlways(s: State, fd: nat, c: ChallengeMsg, r: Rolls)
    requires Always(s) && c.id1 in s.users && c.id2 in s.users && c.chid in s.chs
    ensures Always(RejectChallenge(s, c))
    ensures var o := AcceptChallenge(s, fd, c, r); o.Next? ==> Always(o.s)
  {
    EngageAlways(s, c);
    JudgeAlways(Engage(s, c), c.chid, -1, r);
  }

  lemma ChallengeAlways(s: State, fd: nat, c: ChallengeMsg, draws: Draws, r: Rolls)
    requires Always(s)
    ensures var o := HandleChallenge(s, fd, c, draws, r); o.Next? ==> Always(o.s)
  {
    var o := HandleChallenge(s, fd, c, draws, r);
    if o == Refuse(s, fd, c, NxId) || o == Refuse(s, fd, c, InvArg) || o == Refuse(s, fd, c, IcKey) {
    } else if c.action == CStart {
      StartAlways(s, fd, c, draws);
    } else if c.action == CCancel {
      CancelAlways(s, c);
    } else if c.chid in s.chs {
      AnswerAlways(s, fd, c, r);
    }
  }

  lemma TurnAlways(s: State, t: TurnMsg, r: Rolls)
    requires Always(s)
    ensures var o := HandleTurn(s, t, r); o.Next? ==> Always(o.s)
  {
    if t.chid in s.chs {
      var s1 := s.(chs := s.chs[t.chid := Mark(s.chs[t.chid], t.user, t.action)]);
      JudgeAlways(s1, t.chid, -1, r);
    }
  }

  lemma DisconnectAlways(s: State, fd: nat, r: Rolls)
    requires Always(s)
    ensures var o := HandleDisconnect(s, fd, r); o.Next? ==> Always(o.s)
  {
    if fd in Fds(s.users) {
      OwnerIsRegistered(s.users, fd);
      QuitAlways(s, Least(Owners(s.users, fd)), r);
    }
  }

  lemma StepAlways(s: State, e: Event)
    requires Always(s)
    ensures Step(s, e).Next? ==> Always(Step(s, e).s)
  {
    match e
    case EvJoin(fd, nick, key, garbage) => JoinAlways(s, fd, nick, key, garbage);
    case EvQuit(id, key, r) => if id in s.users { QuitAlways(s, id, r); }
    case EvDisconnect(fd, r) => DisconnectAlways(s, fd, r);
    case EvChallenge(fd, c, draws, r) => ChallengeAlways(s, fd, c, draws, r);
    case EvTurn(t, r) => TurnAlways(s, t, r);
  }

  lemma {:induction false} RunAlways(s: State, es: seq<Event>)
    requires Always(s)
    ensures Run(s, es).Next? ==> Always(Run(s, es).s)
    decreases |es|
  {
    if es == [] {
    } else {
      StepAlways(s, es[0]);
      if Step(s, es[0]).Next? {
        RunAlways(Step(s, es[0]).s, es[1..]);
      }
    }
  }

  /** On every run: unique keys, scores within what the wins and losses allow, and balanced books. */
  lemma ScoreLedger(es: seq<Event>)
    ensures
      var o := Run(INITIAL, es);
      o.Next? ==>
        && Registry(o.s.users)
        && (forall id | id in o.s.users ::
              var u := o.s.users[id]; u.wins - 3 * u.losses <= u.score <= 4 * u.wins)
        && Tally(o.s.users).wins + o.s.hist.pastWins == o.s.hist.over
        && Tally(o.s.users).losses + o.s.hist.pastLosses == o.s.hist.over
  {
    RunAlways(INITIAL, es);
    if Run(INITIAL, es).Next? {
      assert forall id | id in Run(INITIAL, es).s.users :: FairScore(Run(INITIAL, es).s.users[id]);
    }
  }
}
