/** What every handler keeps, and what every run therefore satisfies. */
module Invariants {
  import opened Protocol
  import opened ServerSpec
  import opened Walk

  // ---- the registry ----

  ghost predicate DistinctFds(users: map<nat, User>) {
    forall i, j | i in users && j in users :: users[i].fd == users[j].fd ==> i == j
  }

  ghost predicate DistinctNicks(users: map<nat, User>) {
    forall i, j | i in users && j in users :: FoldNick(users[i].nick) == FoldNick(users[j].nick) ==> i == j
  }

  /** Each tree key belongs to one user, and a user's id comes from its connection. */
  ghost predicate Registry(users: map<nat, User>) {
    && DistinctFds(users) && DistinctNicks(users)
    && |users| <= MAX_USER_COUNT
    && (forall id | id in users :: users[id].fd % ID_MODULUS == id)
  }

  ghost predicate Charted(chs: map<nat, Challenge>) {
    forall k | k in chs :: 0 < k < ID_MODULUS && chs[k].user1 != chs[k].user2
  }

  // ---- users and challenges ----

  /** Who is BATTLING, and in which challenge. */
  function Battlers(users: map<nat, User>): map<nat, nat> {
    map id | id in users && users[id].state == Battling :: users[id].chid
  }

  /** Which challenges are STARTED, and between whom. */
  function Fights(chs: map<nat, Challenge>): map<nat, (nat, nat)> {
    map k | k in chs && chs[k].state == Started :: (chs[k].user1, chs[k].user2)
  }

  /** Every fight has its two battlers, and every battler has its fight. */
  ghost predicate Matched(battlers: map<nat, nat>, fights: map<nat, (nat, nat)>) {
    && (forall k | k in fights ::
          && fights[k].0 != fights[k].1
          && fights[k].0 in battlers && battlers[fights[k].0] == k
          && fights[k].1 in battlers && battlers[fights[k].1] == k)
    && (forall id | id in battlers ::
          battlers[id] in fights && (id == fights[battlers[id]].0 || id == fights[battlers[id]].1))
  }

  ghost predicate Paired(s: State) {
    Matched(Battlers(s.users), Fights(s.chs))
  }

  /** A challenge between handlers. While it is being asked, one of its users may have acted already. */
  ghost predicate Healthy(ch: Challenge) {
    if ch.state == Asking then
      && ch == NewChallenge(ch.user1, ch.user2).(acted1 := ch.acted1, acted2 := ch.acted2,
                                                 act1 := ch.act1, act2 := ch.act2)
      && !(ch.acted1 && ch.acted2)
    else
      && 1 <= ch.hp1 <= MAXHP && 1 <= ch.hp2 <= MAXHP && ch.maxhp1 == ch.maxhp2 == MAXHP
      && !(ch.acted1 && ch.acted2)
      && ch.turnNo == ch.turns % TURN_MODULUS
      && ch.hits + ch.hp1 + ch.hp2 <= 2 * MAXHP
  }

  ghost predicate AllHealthy(chs: map<nat, Challenge>) {
    forall k | k in chs :: Healthy(chs[k])
  }

  ghost predicate FairScore(u: User) {
    u.wins - 3 * u.losses <= u.score <= 4 * u.wins
  }

  /** A registered user between handlers. Connections come from accept(2), within the range in which a
      connection is its own user id. */
  ghost predicate Fine(id: nat, u: User) {
    u.fd == id && 0 < id < ID_MODULUS && u.state != Offline && FairScore(u)
  }

  ghost predicate AllFine(users: map<nat, User>) {
    forall id | id in users :: Fine(id, users[id])
  }

  ghost predicate Inv(s: State) {
    Paired(s) && Sound(s)
  }

  /** The pointwise invariants. */
  ghost predicate Sound(s: State) {
    Registry(s.users) && AllFine(s.users) && Charted(s.chs) && AllHealthy(s.chs)
  }

  /** What the handlers rely on their environment for. */
  ghost predicate Conforms(s: State, e: Event) {
    match e
    case EvJoin(fd, nick, key, garbage) => 0 < fd < ID_MODULUS && fd !in Fds(s.users)
    case EvQuit(id, key, r) => true
    case EvDisconnect(fd, r) => true
    case EvChallenge(fd, c, draws, r) =>
      && (c.action == CStart ==> FirstFree(draws, s.chs.Keys) != NoChid)
      && (c.action == CAccept && c.chid in s.chs ==> NamesPair(s.chs[c.chid], c))
    case EvTurn(t, r) => !CompletesEarly(s, t)
  }

  /** The TURN is the second action on a challenge that is still being asked. */
  predicate CompletesEarly(s: State, t: TurnMsg) {
    && t.chid in s.chs && s.chs[t.chid].state == Asking
    && t.user in s.users && s.users[t.user].key == t.key
    && var ch := Mark(s.chs[t.chid], t.user, t.action); ch.acted1 && ch.acted2
  }

  ghost predicate NamesPair(ch: Challenge, c: ChallengeMsg) {
    c.id1 == ch.user1 && c.id2 == ch.user2
  }

  // ---- judging ----

  lemma AdvanceHealthy(ch: Challenge, damage: nat, loser: int)
    requires ch.state == Started && ch.user1 != ch.user2
    requires 1 <= ch.hp1 <= MAXHP && 1 <= ch.hp2 <= MAXHP && ch.maxhp1 == ch.maxhp2 == MAXHP
    requires ch.turnNo == ch.turns % TURN_MODULUS && ch.hits + ch.hp1 + ch.hp2 <= 2 * MAXHP
    ensures
      var ch' := Advance(ch, damage);
      && ch'.turns == ch.turns + 1 && ch'.turnNo == ch'.turns % TURN_MODULUS
      && !ch'.acted1 && !ch'.acted2 && ch'.state == Started
      && ch'.user1 == ch.user1 && ch'.user2 == ch.user2
      && (Decide(ch', loser).Undecided? ==> Healthy(ch'))
  {
  }

  lemma SettleKeeps(users: map<nat, User>, id1: nat, id2: nat, winner: nat, r: Rolls)
    requires id1 in users && id2 in users && id1 != id2 && AllFine(users)
    ensures AllFine(Settle(users, id1, id2, winner, r))
    ensures SameKeys(users, Settle(users, id1, id2, winner, r))
  {
  }

  lemma MatchedAdd(battlers: map<nat, nat>, fights: map<nat, (nat, nat)>, k: nat, id1: nat, id2: nat)
    requires Matched(battlers, fights) && k !in fights && id1 !in battlers && id2 !in battlers && id1 != id2
    ensures Matched(battlers[id1 := k][id2 := k], fights[k := (id1, id2)])
  {
  }

  /** The end of fight `k` frees exactly its two battlers. */
  lemma MatchedRemove(battlers: map<nat, nat>, fights: map<nat, (nat, nat)>, k: nat)
    requires Matched(battlers, fights) && k in fights
    ensures Matched(battlers - {fights[k].0, fights[k].1}, fights - {k})
  {
  }

  lemma EngageBattlers(users: map<nat, User>, id1: nat, id2: nat, k: nat)
    requires id1 in users && id2 in users && id1 != id2
    ensures Battlers(users[id1 := Fighting(users[id1], k)][id2 := Fighting(users[id2], k)])
         == Battlers(users)[id1 := k][id2 := k]
  {
  }

  lemma EngageFights(chs: map<nat, Challenge>, k: nat)
    requires k in chs
    ensures Fights(chs[k := Begun(chs[k])]) == Fights(chs)[k := (chs[k].user1, chs[k].user2)]
  {
  }

  lemma EngageMatches(users: map<nat, User>, chs: map<nat, Challenge>, id1: nat, id2: nat, k: nat)
    requires Matched(Battlers(users), Fights(chs))
    requires id1 in users && users[id1].state == Online && id2 in users && users[id2].state == Online && id1 != id2
    requires k in chs && chs[k].state == Asking && chs[k].user1 == id1 && chs[k].user2 == id2
    ensures Matched(Battlers(users[id1 := Fighting(users[id1], k)][id2 := Fighting(users[id2], k)]),
                    Fights(chs[k := Begun(chs[k])]))
  {
    MatchedAdd(Battlers(users), Fights(chs), k, id1, id2);
    EngageBattlers(users, id1, id2, k);
    EngageFights(chs, k);
  }

  lemma FightHasBoth(users: map<nat, User>, chs: map<nat, Challenge>, k: nat)
    requires Matched(Battlers(users), Fights(chs)) && k in chs && chs[k].state == Started
    ensures chs[k].user1 != chs[k].user2
    ensures chs[k].user1 in users && users[chs[k].user1].state == Battling && users[chs[k].user1].chid == k
    ensures chs[k].user2 in users && users[chs[k].user2].state == Battling && users[chs[k].user2].chid == k
  {
    assert Fights(chs)[k] == (chs[k].user1, chs[k].user2);
  }

  lemma BattlerHasFight(users: map<nat, User>, chs: map<nat, Challenge>, id: nat)
    requires Matched(Battlers(users), Fights(chs)) && id in users && users[id].state == Battling
    ensures users[id].chid in chs && chs[users[id].chid].state == Started
    ensures id == chs[users[id].chid].user1 || id == chs[users[id].chid].user2
  {
    assert Battlers(users)[id] == users[id].chid;
  }

  lemma EndMatches(users: map<nat, User>, chs: map<nat, Challenge>, k: nat, winner: nat, r: Rolls)
    requires Matched(Battlers(users), Fights(chs)) && k in chs && chs[k].state == Started
    requires chs[k].user1 in users && chs[k].user2 in users
    ensures Matched(Battlers(Settle(users, chs[k].user1, chs[k].user2, winner, r)), Fights(chs - {k}))
  {
    var id1, id2 := chs[k].user1, chs[k].user2;
    FightHasBoth(users, chs, k);
    MatchedRemove(Battlers(users), Fights(chs), k);
    EndFights(chs, k);
    SettleBattlers(users, id1, id2, winner, r);
  }

  lemma EndFights(chs: map<nat, Challenge>, k: nat)
    requires k in chs && chs[k].state == Started
    ensures Fights(chs - {k}) == Fights(chs) - {k}
    ensures Fights(chs)[k] == (chs[k].user1, chs[k].user2)
  {
  }

  lemma SettleBattlers(users: map<nat, User>, id1: nat, id2: nat, winner: nat, r: Rolls)
    requires id1 in users && id2 in users && id1 != id2
    ensures Battlers(Settle(users, id1, id2, winner, r)) == Battlers(users) - {id1, id2}
  {
  }

  lemma UpdateFights(chs: map<nat, Challenge>, k: nat, ch: Challenge)
    requires k in chs && ch.state == chs[k].state && ch.user1 == chs[k].user1 && ch.user2 == chs[k].user2
    ensures Fights(chs[k := ch]) == Fights(chs)
  {
  }

  lemma UpdateBattlers(users: map<nat, User>, id: nat, u: User)
    requires id in users ==> users[id].state != Battling
    requires u.state != Battling
    ensures Battlers(users[id := u]) == Battlers(users)
  {
  }

  lemma DropAsking(chs: map<nat, Challenge>, k: nat)
    requires k in chs && chs[k].state == Asking
    ensures Fights(chs - {k}) == Fights(chs)
  {
  }

  // ---- judging ----

  lemma JudgeKeepsPaired(s: State, k: nat, loser: int, r: Rolls)
    requires Paired(s) && k in s.chs && s.chs[k].state == Started
    ensures var o := JudgeTurn(s, k, loser, r); o.Next? && Paired(o.s)
  {
    var ch := Advance(s.chs[k], r.damage);
    UpdateFights(s.chs, k, ch);
    FightHasBoth(s.users, s.chs, k);
    var v := Decide(ch, loser);
    EndMatches(s.users, s.chs[k := ch], k, if v.Decided? then v.winner else 0, r);
  }

  lemma SameKeysRegistry(users: map<nat, User>, users': map<nat, User>)
    requires Registry(users) && SameKeys(users, users')
    ensures Registry(users')
  {
  }

  /** A user record is updated, keeping the keys it is filed under. */
  lemma UserUpdate(users: map<nat, User>, id: nat, u: User)
    requires Registry(users) && AllFine(users) && id in users
    requires u.fd == users[id].fd && u.nick == users[id].nick && u.state != Offline && FairScore(u)
    ensures Registry(users[id := u]) && AllFine(users[id := u])
  {
    assert Fine(id, users[id]);
    SameKeysRegistry(users, users[id := u]);
  }

  lemma JudgeKeepsSound(s: State, k: nat, loser: int, r: Rolls)
    requires Registry(s.users) && AllFine(s.users) && Charted(s.chs)
    requires forall j | j in s.chs && j != k :: Healthy(s.chs[j])
    requires k in s.chs && s.chs[k].state == Started && Healthy(s.chs[k].(acted1 := false, acted2 := false))
    requires s.chs[k].user1 in s.users && s.chs[k].user2 in s.users
    ensures Sound(JudgeTurn(s, k, loser, r).s)
  {
    var ch := Advance(s.chs[k], r.damage);
    AdvanceHealthy(s.chs[k], r.damage, loser);
    var v := Decide(ch, loser);
    if v.Decided? {
      SettleKeeps(s.users, ch.user1, ch.user2, v.winner, r);
      SameKeysRegistry(s.users, Settle(s.users, ch.user1, ch.user2, v.winner, r));
    }
  }

  /** Judging a started challenge that both users could act in. */
  lemma JudgeKeeps(s: State, k: nat, loser: int, r: Rolls)
    requires Registry(s.users) && AllFine(s.users) && Charted(s.chs) && Paired(s)
    requires forall j | j in s.chs && j != k :: Healthy(s.chs[j])
    requires k in s.chs && s.chs[k].state == Started && Healthy(s.chs[k].(acted1 := false, acted2 := false))
    ensures var o := JudgeTurn(s, k, loser, r); o.Next? && Inv(o.s)
  {
    JudgeKeepsPaired(s, k, loser, r);
    FightHasBoth(s.users, s.chs, k);
    JudgeKeepsSound(s, k, loser, r);
  }

  // ---- leaving ----

  lemma LeaveKeepsRegistry(s: State, id: nat)
    requires Registry(s.users) && id in s.users
    ensures Registry(s.users - {id})
  {
    assert (s.users - {id}).Keys == s.users.Keys - {id};
  }

  lemma LeaveKeepsPaired(s: State, id: nat)
    requires Paired(s) && id in s.users && s.users[id].state != Battling
    ensures Paired(Leave(s, id))
  {
    assert Battlers(s.users - {id}) == Battlers(s.users);
  }

  lemma LeaveKeeps(s: State, id: nat)
    requires Inv(s) && id in s.users && s.users[id].state != Battling
    ensures Inv(Leave(s, id))
  {
    LeaveKeepsRegistry(s, id);
    LeaveKeepsPaired(s, id);
  }

  /** After its battle is judged against it, a leaving user is no longer battling. */
  lemma JudgeFrees(s: State, id: nat, r: Rolls)
    requires Paired(s) && id in s.users && s.users[id].state == Battling
    ensures s.users[id].chid in s.chs
    ensures
      var o := JudgeTurn(s, s.users[id].chid, id, r);
      o.Next? && id in o.s.users && o.s.users[id].state == Online
  {
    BattlerHasFight(s.users, s.chs, id);
    FightHasBoth(s.users, s.chs, s.users[id].chid);
  }

  lemma QuitKeeps(s: State, id: nat, r: Rolls)
    requires Inv(s) && id in s.users
    ensures var o := QuitUser(s, id, r); o.Next? && Inv(o.s)
  {
    if s.users[id].state == Battling {
      var k := s.users[id].chid;
      JudgeFrees(s, id, r);
      BattlerHasFight(s.users, s.chs, id);
      JudgeKeeps(s, k, id, r);
      LeaveKeeps(JudgeTurn(s, k, id, r).s, id);
    } else {
      LeaveKeeps(s, id);
    }
  }

  lemma OwnerIsRegistered(users: map<nat, User>, fd: nat)
    requires fd in Fds(users)
    ensures Owners(users, fd) != {} && Least(Owners(users, fd)) in users
    ensures users[Least(Owners(users, fd))].fd == fd
  {
    var id :| id in users && users[id].fd == fd;
    assert id in Owners(users, fd);
    assert Least(Owners(users, fd)) in Owners(users, fd);
  }

  lemma DisconnectKeeps(s: State, fd: nat, r: Rolls)
    requires Inv(s)
    ensures var o := HandleDisconnect(s, fd, r); o.Next? && Inv(o.s)
  {
    if fd in Fds(s.users) {
      OwnerIsRegistered(s.users, fd);
      QuitKeeps(s, Least(Owners(s.users, fd)), r);
    }
  }

  // ---- joining ----

  lemma RegistryJoin(users: map<nat, User>, id: nat, u: User)
    requires Registry(users) && |users| < MAX_USER_COUNT && id !in users && u.fd !in Fds(users)
    requires !NickTaken(users, u.nick) && u.fd % ID_MODULUS == id
    ensures Registry(users[id := u])
  {
  }

  lemma JoinKeepsRegistry(s: State, fd: nat, nick: Nick, key: nat, garbage: nat)
    requires Registry(s.users)
    ensures var o := HandleJoin(s, fd, nick, key, garbage); o.Next? ==> Registry(o.s.users)
  {
    var o := HandleJoin(s, fd, nick, key, garbage);
    if JoinError(s, nick, garbage) == MeOk && o.Next? {
      RegistryJoin(s.users, fd % ID_MODULUS, NewUser(fd, nick, key));
    }
  }

  lemma JoinKeepsPaired(s: State, fd: nat, nick: Nick, key: nat, garbage: nat)
    requires Paired(s)
    ensures var o := HandleJoin(s, fd, nick, key, garbage); o.Next? ==> Paired(o.s)
  {
    if fd % ID_MODULUS !in s.users {
      UpdateBattlers(s.users, fd % ID_MODULUS, NewUser(fd, nick, key));
    }
  }

  /** In range, a join on a fresh connection cannot fail an assert, and adds at most that one user. */
  lemma JoinAdds(s: State, fd: nat, nick: Nick, key: nat, garbage: nat)
    requires AllFine(s.users) && 0 < fd < ID_MODULUS && fd !in Fds(s.users)
    ensures
      var o := HandleJoin(s, fd, nick, key, garbage);
      && o.Next? && o.s.chs == s.chs
      && (o.s.users == s.users || o.s.users == s.users[fd := NewUser(fd, nick, key)])
  {
    FreeFdIsFreeId(s.users, fd);
  }

  lemma JoinKeeps(s: State, fd: nat, nick: Nick, key: nat, garbage: nat)
    requires Inv(s) && 0 < fd < ID_MODULUS && fd !in Fds(s.users)
    ensures var o := HandleJoin(s, fd, nick, key, garbage); o.Next? && Inv(o.s)
  {
    JoinKeepsRegistry(s, fd, nick, key, garbage);
    JoinKeepsPaired(s, fd, nick, key, garbage);
    JoinAdds(s, fd, nick, key, garbage);
    assert Fine(fd, NewUser(fd, nick, key));
    assert AllFine(HandleJoin(s, fd, nick, key, garbage).s.users);
  }

  lemma FreeFdIsFreeId(users: map<nat, User>, fd: nat)
    requires AllFine(users)
    ensures fd !in Fds(users) ==> fd !in users
  {
    if fd in users {
      assert Fine(fd, users[fd]);
      assert users[fd].fd in Fds(users);
    }
  }

  lemma FdsAreIds(users: map<nat, User>, p: nat)
    requires AllFine(users)
    ensures p in Fds(users) <==> p in users
  {
    FreeFdIsFreeId(users, p);
    if p in Fds(users) {
      var id :| id in users && users[id].fd == p;
      assert Fine(id, users[id]);
    }
  }

  // ---- challenging ----

  lemma {:induction false} FirstFreeIsFree(draws: seq<nat>, used: set<nat>)
    ensures var m := FirstFree(draws, used); m.Chid? ==> m.k !in used && 0 < m.k < ID_MODULUS
    decreases |draws|
  {
    if draws == [] {
    } else {
      FirstFreeIsFree(draws[1..], used);
    }
  }

  /** A new challenge `k` by `id1`. */
  lemma StartKeepsPaired(s: State, id1: nat, id2: nat, k: nat)
    requires Paired(s) && id1 in s.users && s.users[id1].state != Battling && k !in s.chs
    ensures Matched(Battlers(s.users[id1 := s.users[id1].(chid := k)]), Fights(s.chs[k := NewChallenge(id1, id2)]))
  {
    UpdateBattlers(s.users, id1, s.users[id1].(chid := k));
    assert Fights(s.chs[k := NewChallenge(id1, id2)]) == Fights(s.chs);
  }

  lemma StartKeepsUsers(users: map<nat, User>, id1: nat, k: nat)
    requires Registry(users) && AllFine(users) && id1 in users
    ensures Registry(users[id1 := users[id1].(chid := k)]) && AllFine(users[id1 := users[id1].(chid := k)])
  {
    assert Fine(id1, users[id1]);
    UserUpdate(users, id1, users[id1].(chid := k));
  }

  lemma OpenKeeps(s: State, c: ChallengeMsg, k: nat)
    requires Inv(s) && c.id1 in s.users && c.id2 in s.users && c.id1 != c.id2
    requires s.users[c.id1].state == Online && k !in s.chs && 0 < k < ID_MODULUS
    ensures Inv(OpenChallenge(s, c, k))
  {
    StartKeepsPaired(s, c.id1, c.id2, k);
    OpenKeepsSound(s, c, k);
  }

  lemma OpenKeepsSound(s: State, c: ChallengeMsg, k: nat)
    requires Sound(s) && c.id1 in s.users && c.id2 in s.users && c.id1 != c.id2 && 0 < k < ID_MODULUS
    requires s.users[c.id1].state == Online
    ensures Sound(OpenChallenge(s, c, k))
  {
    StartKeepsUsers(s.users, c.id1, k);
  }

  lemma StartKeeps(s: State, fd: nat, c: ChallengeMsg, draws: Draws)
    requires Inv(s) && c.id1 in s.users && c.id2 in s.users
    requires FirstFree(draws, s.chs.Keys) != NoChid
    ensures var o := StartChallenge(s, fd, c, draws); o.Next? && Inv(o.s)
  {
    if s.users[c.id1].state == Online && s.users[c.id2].state == Online && c.id1 != c.id2 {
      FirstFreeIsFree(draws, s.chs.Keys);
      OpenKeeps(s, c, FirstFree(draws, s.chs.Keys).k);
    }
  }

  lemma CancelKeeps(s: State, c: ChallengeMsg)
    requires Inv(s) && c.id1 in s.users
    ensures Inv(CancelChallenge(s, c))
  {
    var u1 := s.users[c.id1];
    if u1.state == Online && u1.chid in s.chs && s.chs[u1.chid].state == Asking {
      DropAsking(s.chs, u1.chid);
      UpdateBattlers(s.users, c.id1, u1.(chid := 0));
      UserUpdate(s.users, c.id1, u1.(chid := 0));
    }
  }

  lemma RejectKeeps(s: State, c: ChallengeMsg)
    requires Inv(s) && c.id1 in s.users && c.chid in s.chs && s.chs[c.chid].state == Asking
    ensures Inv(RejectChallenge(s, c))
  {
    DropAsking(s.chs, c.chid);
  }

  lemma EngageKeepsUsers(users: map<nat, User>, id1: nat, id2: nat, k: nat)
    requires Registry(users) && AllFine(users) && id1 in users && id2 in users && id1 != id2
    ensures
      var users' := users[id1 := Fighting(users[id1], k)][id2 := Fighting(users[id2], k)];
      Registry(users') && AllFine(users')
  {
    assert Fine(id1, users[id1]) && Fine(id2, users[id2]);
    UserUpdate(users, id1, Fighting(users[id1], k));
    UserUpdate(users[id1 := Fighting(users[id1], k)], id2, Fighting(users[id2], k));
  }

  lemma EngageKeepsSound(s: State, c: ChallengeMsg)
    requires Sound(s) && c.chid in s.chs && s.chs[c.chid].state == Asking
    requires c.id1 in s.users && c.id2 in s.users && c.id1 != c.id2
    ensures Sound(Engage(s, c))
  {
    EngageKeepsUsers(s.users, c.id1, c.id2, c.chid);
    assert Healthy(s.chs[c.chid]);
  }

  lemma AcceptKeeps(s: State, fd: nat, c: ChallengeMsg, r: Rolls)
    requires Inv(s) && c.chid in s.chs && s.chs[c.chid].state == Asking && NamesPair(s.chs[c.chid], c)
    requires c.id1 in s.users && c.id2 in s.users
    ensures var o := AcceptChallenge(s, fd, c, r); o.Next? && Inv(o.s)
  {
    if s.users[c.id1].state == Online && s.users[c.id2].state == Online {
      EngageMatches(s.users, s.chs, c.id1, c.id2, c.chid);
      EngageKeepsSound(s, c);
      JudgeKeeps(Engage(s, c), c.chid, -1, r);
    }
  }

  lemma AnswerKeeps(s: State, fd: nat, c: ChallengeMsg, r: Rolls)
    requires Inv(s) && c.id1 in s.users && c.id2 in s.users && c.chid in s.chs && s.chs[c.chid].state == Asking
    requires c.action == CAccept ==> NamesPair(s.chs[c.chid], c)
    ensures
      var o := if c.action == CAccept then AcceptChallenge(s, fd, c, r) else Next(RejectChallenge(s, c));
      o.Next? && Inv(o.s)
  {
    if c.action == CAccept {
      AcceptKeeps(s, fd, c, r);
    } else {
      RejectKeeps(s, c);
    }
  }

  lemma ChallengeKeeps(s: State, fd: nat, c: ChallengeMsg, draws: Draws, r: Rolls)
    requires Inv(s) && Conforms(s, EvChallenge(fd, c, draws, r))
    ensures var o := HandleChallenge(s, fd, c, draws, r); o.Next? && Inv(o.s)
  {
    var o := HandleChallenge(s, fd, c, draws, r);
    if c.id1 !in s.users || c.id2 !in s.users || c.action == CInvalid || o == Refuse(s, fd, c, IcKey) {
    } else if c.action == CStart {
      StartKeeps(s, fd, c, draws);
    } else if c.action == CCancel {
      CancelKeeps(s, c);
    } else if c.chid in s.chs && s.chs[c.chid].state == Asking {
      AnswerKeeps(s, fd, c, r);
    }
  }

  // ---- playing ----

  lemma TurnKeeps(s: State, t: TurnMsg, r: Rolls)
    requires Inv(s) && Conforms(s, EvTurn(t, r))
    ensures var o := HandleTurn(s, t, r); o.Next? && Inv(o.s)
  {
    if t.chid in s.chs && t.user in s.users && s.users[t.user].key == t.key {
      var ch := Mark(s.chs[t.chid], t.user, t.action);
      var s1 := s.(chs := s.chs[t.chid := ch]);
      if ch.acted1 && ch.acted2 {
        SecondKeeps(s, t.chid, t.user, t.action);
        JudgeKeeps(s1, t.chid, -1, r);
      } else {
        FirstKeeps(s, t.chid, t.user, t.action);
      }
    }
  }

  /** The first action of a turn. */
  lemma FirstKeeps(s: State, k: nat, user: nat, action: nat)
    requires Inv(s) && k in s.chs && var ch := Mark(s.chs[k], user, action); !(ch.acted1 && ch.acted2)
    ensures Inv(s.(chs := s.chs[k := Mark(s.chs[k], user, action)]))
  {
    assert Healthy(s.chs[k]);
    UpdateFights(s.chs, k, Mark(s.chs[k], user, action));
  }

  /** The second action of a turn: all but that the challenge now has both. */
  lemma SecondKeeps(s: State, k: nat, user: nat, action: nat)
    requires Inv(s) && k in s.chs && s.chs[k].state == Started
    ensures
      var s1 := s.(chs := s.chs[k := Mark(s.chs[k], user, action)]);
      && Registry(s1.users) && AllFine(s1.users) && Charted(s1.chs) && Paired(s1)
      && (forall j | j in s1.chs && j != k :: Healthy(s1.chs[j]))
      && s1.chs[k].state == Started && Healthy(s1.chs[k].(acted1 := false, acted2 := false))
  {
    assert Healthy(s.chs[k]);
    UpdateFights(s.chs, k, Mark(s.chs[k], user, action));
  }

  // ---- every step, every run ----

  /** No conforming event makes the server fail, and every invariant survives it. */
  lemma StepKeeps(s: State, e: Event)
    requires Inv(s) && Conforms(s, e)
    ensures Step(s, e).Next? && Inv(Step(s, e).s)
  {
    match e
    case EvJoin(fd, nick, key, garbage) => JoinKeeps(s, fd, nick, key, garbage);
    case EvQuit(id, key, r) => AskedToQuitKeeps(s, id, key, r);
    case EvDisconnect(fd, r) => DisconnectKeeps(s, fd, r);
    case EvChallenge(fd, c, draws, r) => ChallengeKeeps(s, fd, c, draws, r);
    case EvTurn(t, r) => TurnKeeps(s, t, r);
  }

  lemma AskedToQuitKeeps(s: State, id: nat, key: nat, r: Rolls)
    requires Inv(s)
    ensures var o := HandleQuit(s, id, key, r); o.Next? && Inv(o.s)
  {
    if id in s.users {
      QuitKeeps(s, id, r);
    }
  }

  ghost predicate ConformingRun(s: State, es: seq<Event>)
    decreases |es|
  {
    es == [] || (Conforms(s, es[0]) && (Step(s, es[0]).Next? ==> ConformingRun(Step(s, es[0]).s, es[1..])))
  }

  lemma {:induction false} RunKeeps(s: State, es: seq<Event>)
    requires Inv(s) && ConformingRun(s, es)
    ensures Run(s, es).Next? && Inv(Run(s, es).s)
    decreases |es|
  {
    if es == [] {
    } else {
      StepKeeps(s, es[0]);
      RunKeeps(Step(s, es[0]).s, es[1..]);
    }
  }

  /** Safety from the start: a conforming environment never sees an assertion failure or a null dereference. */
  lemma EveryRunIsSafe(es: seq<Event>)
    requires ConformingRun(INITIAL, es)
    ensures Run(INITIAL, es).Next? && Inv(Run(INITIAL, es).s)
  {
    RunKeeps(INITIAL, es);
  }
}
