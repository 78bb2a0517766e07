/** Handlers taken apart: every conforming step of the server is one or two of the moves below, and each move
    sends every connection a message list that can be written down. */
module Moves {
  import opened Protocol
  import opened ServerSpec
  import opened Walk
  import opened Invariants
  import opened Logs

  datatype Move =
    | Tell(fd: nat, m: Msg)
    | Enter(id: nat, u: User)
    | Open(c: ChallengeMsg, k: nat)
    | Withdraw(c: ChallengeMsg)
    | TurnDown(c: ChallengeMsg)
    | Begin(c: ChallengeMsg)
    | File(k: nat, user: nat, action: nat)
    | Judge(k: nat, loser: int, r: Rolls)
    | Depart(id: nat)

  /** A message that tells a client only that its request failed. */
  predicate Refusal(m: Msg) {
    (m.JoinR? || m.ChallengeR?) && m.error != MeOk
  }

  ghost predicate Steady(s: State) {
    AllFine(s.users) && TwoSided(s.chs)
  }

  /** Challenge `k` runs, between two users who are both in it. */
  predicate FightsAt(s: State, k: nat) {
    && StartedAt(s, k)
    && var ch := s.chs[k];
       && ch.user1 != ch.user2
       && ch.user1 in s.users && s.users[ch.user1].state == Battling && s.users[ch.user1].chid == k
       && ch.user2 in s.users && s.users[ch.user2].state == Battling && s.users[ch.user2].chid == k
  }

  predicate Online2(s: State, c: ChallengeMsg) {
    && c.id1 in s.users && c.id2 in s.users && c.id1 != c.id2
    && s.users[c.id1].state == Online && s.users[c.id2].state == Online
  }

  predicate AskingAt(s: State, k: nat) {
    k in s.chs && s.chs[k].state == Asking
  }

  predicate StartedAt(s: State, k: nat) {
    k in s.chs && s.chs[k].state == Started
  }

  /** Cancelling finds the sender's own last challenge, still unanswered. */
  predicate Cancels(s: State, c: ChallengeMsg) {
    && c.id1 in s.users && s.users[c.id1].state == Online
    && AskingAt(s, s.users[c.id1].chid) && s.chs[s.users[c.id1].chid].user1 == c.id1
  }

  /** When a move is judged: the first time, with both actions in, or because a user leaves. */
  predicate Due(ch: Challenge, loser: int) {
    if loser == -1 then (ch.acted1 && ch.acted2) || ch.turns == 0
    else (loser == ch.user1 || loser == ch.user2) && !(ch.acted1 && ch.acted2)
  }

  ghost predicate Can(s: State, v: Move) {
    && Steady(s)
    && match v
       case Tell(fd, m) => Refusal(m)
       case Enter(id, u) => id !in s.users && Fine(id, u) && u == NewUser(u.fd, u.nick, u.key)
       case Open(c, k) => c.action == CStart && Online2(s, c) && k !in s.chs
       case Withdraw(c) => Cancels(s, c)
       case TurnDown(c) => AskingAt(s, c.chid) && c.id1 in s.users
       case Begin(c) => Online2(s, c) && AskingAt(s, c.chid) && NamesPair(s.chs[c.chid], c) && Healthy(s.chs[c.chid])
       case File(k, user, action) => k in s.chs && user in s.users
       case Judge(k, loser, r) =>
         FightsAt(s, k) && Due(s.chs[k], loser) && Healthy(s.chs[k].(acted1 := false, acted2 := false))
       case Depart(id) => id in s.users && s.users[id].state == Online
  }

  ghost function Do(s: State, v: Move): State {
    match v
    case Tell(fd, m) => s.(out := s.out + [Sent(fd, m)])
    case Enter(id, u) => Admit(s, id, u)
    case Open(c, k) => if c.id1 in s.users && c.id2 in s.users then OpenChallenge(s, c, k) else s
    case Withdraw(c) => if c.id1 in s.users then CancelChallenge(s, c) else s
    case TurnDown(c) =>
      if c.id1 in s.users then
        s.(chs := s.chs - {c.chid}, out := s.out + [Sent(s.users[c.id1].fd, Reply(c, Rejected, false))])
      else s
    case Begin(c) => if c.id1 in s.users && c.id2 in s.users && c.chid in s.chs then Engage(s, c) else s
    case File(k, user, action) => if k in s.chs then s.(chs := s.chs[k := Mark(s.chs[k], user, action)]) else s
    case Judge(k, loser, r) =>
      if k in s.chs && JudgeTurn(s, k, loser, r).Next? then JudgeTurn(s, k, loser, r).s else s
    case Depart(id) => if id in s.users then Leave(s, id) else s
  }

  ghost predicate CanAll(s: State, vs: seq<Move>)
    decreases |vs|
  {
    vs == [] || (Can(s, vs[0]) && CanAll(Do(s, vs[0]), vs[1..]))
  }

  ghost function DoAll(s: State, vs: seq<Move>): State
    decreases |vs|
  {
    if vs == [] then s else DoAll(Do(s, vs[0]), vs[1..])
  }

  lemma AllOne(s: State, v: Move)
    requires Can(s, v)
    ensures CanAll(s, [v]) && DoAll(s, [v]) == Do(s, v)
  {
    assert [v][1..] == [];
  }

  lemma AllTwo(s: State, v: Move, w: Move)
    requires Can(s, v) && Can(Do(s, v), w)
    ensures CanAll(s, [v, w]) && DoAll(s, [v, w]) == Do(Do(s, v), w)
  {
    assert [v, w][1..] == [w];
    AllOne(Do(s, v), w);
  }

  // ---- which moves a step makes ----

  function JoinPlan(s: State, fd: nat, nick: Nick, key: nat, garbage: nat): seq<Move> {
    var err := JoinError(s, nick, garbage);
    if err != MeOk then [Tell(fd, JoinR(nick, err, 0, 0))] else [Enter(fd, NewUser(fd, nick, key))]
  }

  function QuitPlan(s: State, id: nat, r: Rolls): seq<Move> {
    if id !in s.users then []
    else if s.users[id].state == Battling then [Judge(s.users[id].chid, id, r), Depart(id)]
    else [Depart(id)]
  }

  function StartPlan(s: State, fd: nat, c: ChallengeMsg, draws: Draws): seq<Move>
    requires c.id1 in s.users && c.id2 in s.users
  {
    if s.users[c.id1].state != Online || s.users[c.id2].state != Online then [Tell(fd, Reply(c, Engaged, false))]
    else if c.id1 == c.id2 then [Tell(fd, Reply(c, ChlSelf, false))]
    else
      match FirstFree(draws, s.chs.Keys)
      case NoChid => []
      case Chid(k) => [Open(c, k)]
  }

  function ChallengePlan(s: State, fd: nat, c: ChallengeMsg, draws: Draws, r: Rolls): seq<Move> {
    if c.id1 !in s.users || c.id2 !in s.users then [Tell(fd, Reply(c, NxId, false))]
    else if c.action == CInvalid then [Tell(fd, Reply(c, InvArg, false))]
    else if c.key != (if c.action == CStart || c.action == CCancel then s.users[c.id1].key
                      else s.users[c.id2].key) then [Tell(fd, Reply(c, IcKey, false))]
    else if c.action == CStart then StartPlan(s, fd, c, draws)
    else if c.action == CCancel then (if Cancels(s, c) then [Withdraw(c)] else [])
    else if c.chid !in s.chs then [Tell(fd, Reply(c, NxChid, false))]
    else if s.chs[c.chid].state == Started then []
    else if c.action == CReject then (if s.chs[c.chid].user2 == c.id2 then [TurnDown(c)] else [])
    else if s.users[c.id1].state == Online && s.users[c.id2].state == Online then
      [Begin(c), Judge(c.chid, -1, r)]
    else [Tell(fd, Reply(c, Engaged, false))]
  }

  function TurnPlan(s: State, t: TurnMsg, r: Rolls): seq<Move> {
    if t.chid !in s.chs || t.user !in s.users || s.users[t.user].key != t.key then []
    else
      var ch := Mark(s.chs[t.chid], t.user, t.action);
      [File(t.chid, t.user, t.action)] + if ch.acted1 && ch.acted2 then [Judge(t.chid, -1, r)] else []
  }

  function Plan(s: State, e: Event): seq<Move> {
    match e
    case EvJoin(fd, nick, key, garbage) => JoinPlan(s, fd, nick, key, garbage)
    case EvQuit(id, key, r) => if id in s.users && s.users[id].key == key then QuitPlan(s, id, r) else []
    case EvDisconnect(fd, r) => QuitPlan(s, fd, r)
    case EvChallenge(fd, c, draws, r) => ChallengePlan(s, fd, c, draws, r)
    case EvTurn(t, r) => TurnPlan(s, t, r)
  }

  /** What the plans need of the invariants. */
  lemma InvIsSteady(s: State)
    requires Inv(s)
    ensures Steady(s) && AllHealthy(s.chs)
  {
  }

  lemma InvFights(s: State, k: nat)
    requires Inv(s) && StartedAt(s, k)
    ensures FightsAt(s, k)
  {
    FightHasBoth(s.users, s.chs, k);
  }

  lemma JoinShape(s: State, fd: nat, nick: Nick, key: nat, garbage: nat)
    requires JoinError(s, nick, garbage) == MeOk && fd < ID_MODULUS && fd !in s.users && fd !in Fds(s.users)
    ensures HandleJoin(s, fd, nick, key, garbage) == Next(Admit(s, fd, NewUser(fd, nick, key)))
  {
    assert fd % ID_MODULUS == fd;
  }

  lemma JoinIsPlan(s: State, fd: nat, nick: Nick, key: nat, garbage: nat)
    requires Steady(s) && 0 < fd < ID_MODULUS && fd !in Fds(s.users)
    ensures
      var vs := JoinPlan(s, fd, nick, key, garbage);
      CanAll(s, vs) && HandleJoin(s, fd, nick, key, garbage) == Next(DoAll(s, vs))
  {
    FreeFdIsFreeId(s.users, fd);
    var err := JoinError(s, nick, garbage);
    if err != MeOk {
      AllOne(s, Tell(fd, JoinR(nick, err, 0, 0)));
    } else {
      JoinShape(s, fd, nick, key, garbage);
      assert Fine(fd, NewUser(fd, nick, key));
      AllOne(s, Enter(fd, NewUser(fd, nick, key)));
    }
  }

  /** A battle judged against a user who leaves ends, and both are back online. */
  lemma JudgeLetsGo(s: State, id: nat, r: Rolls)
    requires Steady(s) && id in s.users && FightsAt(s, s.users[id].chid) && Healthy(s.chs[s.users[id].chid])
    requires id == s.chs[s.users[id].chid].user1 || id == s.chs[s.users[id].chid].user2
    ensures
      var v := Judge(s.users[id].chid, id, r);
      Can(s, v) && JudgeTurn(s, v.k, id, r) == Next(Do(s, v)) && Can(Do(s, v), Depart(id))
  {
    var v := Judge(s.users[id].chid, id, r);
    assert Can(s, v);
    JudgeShape(s, v.k, id, r);
    SettleFrees(s.users, Advance(s.chs[v.k], r.damage), id, r);
  }

  lemma SettleFrees(users: map<nat, User>, ch: Challenge, id: nat, r: Rolls)
    requires ch.user1 in users && ch.user2 in users && ch.user1 != ch.user2 && (id == ch.user1 || id == ch.user2)
    requires users[id].state == Battling
    ensures
      var d := Decide(ch, id);
      d.Decided? && id in Settle(users, ch.user1, ch.user2, d.winner, r)
      && Settle(users, ch.user1, ch.user2, d.winner, r)[id].state == Online
  {
  }

  lemma QuitIsPlan(s: State, id: nat, r: Rolls)
    requires Inv(s) && id in s.users
    ensures
      var vs := QuitPlan(s, id, r);
      CanAll(s, vs) && QuitUser(s, id, r) == Next(DoAll(s, vs))
  {
    InvIsSteady(s);
    if s.users[id].state == Battling {
      BattlerHasFight(s.users, s.chs, id);
      InvFights(s, s.users[id].chid);
      BattlerLeaves(s, id, r);
    } else {
      assert Fine(id, s.users[id]);
      AllOne(s, Depart(id));
    }
  }

  lemma BattlerLeaves(s: State, id: nat, r: Rolls)
    requires Steady(s) && AllHealthy(s.chs) && id in s.users && s.users[id].state == Battling
    requires FightsAt(s, s.users[id].chid)
    requires id == s.chs[s.users[id].chid].user1 || id == s.chs[s.users[id].chid].user2
    ensures
      var vs := QuitPlan(s, id, r);
      CanAll(s, vs) && QuitUser(s, id, r) == Next(DoAll(s, vs))
  {
    JudgeLetsGo(s, id, r);
    AllTwo(s, Judge(s.users[id].chid, id, r), Depart(id));
  }

  lemma DisconnectIsPlan(s: State, fd: nat, r: Rolls)
    requires Inv(s)
    ensures
      var vs := QuitPlan(s, fd, r);
      CanAll(s, vs) && HandleDisconnect(s, fd, r) == Next(DoAll(s, vs))
  {
    if fd in Fds(s.users) {
      OwnerIsRegistered(s.users, fd);
      assert Fine(Least(Owners(s.users, fd)), s.users[Least(Owners(s.users, fd))]);
      QuitIsPlan(s, fd, r);
    } else {
      FreeFdIsFreeId(s.users, fd);
    }
  }

  lemma EngageIsSteady(s: State, c: ChallengeMsg)
    requires Can(s, Begin(c))
    ensures Steady(Engage(s, c)) && FightsAt(Engage(s, c), c.chid)
    ensures Due(Engage(s, c).chs[c.chid], -1) && Healthy(Engage(s, c).chs[c.chid].(acted1 := false, acted2 := false))
  {
    assert Fine(c.id1, s.users[c.id1]) && Fine(c.id2, s.users[c.id2]);
  }

  lemma AcceptIsPlan(s: State, fd: nat, c: ChallengeMsg, r: Rolls)
    requires Can(s, Begin(c))
    ensures
      var vs := [Begin(c), Judge(c.chid, -1, r)];
      CanAll(s, vs) && AcceptChallenge(s, fd, c, r) == Next(DoAll(s, vs))
  {
    EngageIsSteady(s, c);
    AllTwo(s, Begin(c), Judge(c.chid, -1, r));
  }

  lemma StartIsPlan(s: State, fd: nat, c: ChallengeMsg, draws: Draws)
    requires Steady(s) && c.action == CStart && c.id1 in s.users && c.id2 in s.users
    requires FirstFree(draws, s.chs.Keys) != NoChid
    ensures
      var vs := StartPlan(s, fd, c, draws);
      CanAll(s, vs) && StartChallenge(s, fd, c, draws) == Next(DoAll(s, vs))
  {
    FirstFreeIsFree(draws, s.chs.Keys);
    var v := StartPlan(s, fd, c, draws)[0];
    AllOne(s, v);
  }

  lemma RequestIsPlan(s: State, c: ChallengeMsg)
    requires Steady(s) && c.id1 in s.users
    ensures
      var vs := if Cancels(s, c) then [Withdraw(c)] else [];
      CanAll(s, vs) && CancelChallenge(s, c) == DoAll(s, vs)
    ensures AskingAt(s, c.chid) ==>
      var vs := if s.chs[c.chid].user2 == c.id2 then [TurnDown(c)] else [];
      CanAll(s, vs) && RejectChallenge(s, c) == DoAll(s, vs)
  {
    if Cancels(s, c) {
      AllOne(s, Withdraw(c));
    }
    if AskingAt(s, c.chid) && s.chs[c.chid].user2 == c.id2 {
      AllOne(s, TurnDown(c));
    }
  }

  lemma TellIsPlan(s: State, fd: nat, c: ChallengeMsg, e: MsgErr)
    requires Steady(s) && e != MeOk
    ensures
      var vs := [Tell(fd, Reply(c, e, false))];
      CanAll(s, vs) && Refuse(s, fd, c, e) == Next(DoAll(s, vs))
  {
    AllOne(s, Tell(fd, Reply(c, e, false)));
  }

  lemma ChallengeIsPlan(s: State, fd: nat, c: ChallengeMsg, draws: Draws, r: Rolls)
    requires Steady(s) && AllHealthy(s.chs) && Conforms(s, EvChallenge(fd, c, draws, r))
    ensures
      var vs := ChallengePlan(s, fd, c, draws, r);
      CanAll(s, vs) && HandleChallenge(s, fd, c, draws, r) == Next(DoAll(s, vs))
  {
    if c.id1 !in s.users || c.id2 !in s.users {
      TellIsPlan(s, fd, c, NxId);
    } else if c.action == CInvalid {
      TellIsPlan(s, fd, c, InvArg);
    } else if c.key != (if c.action == CStart || c.action == CCancel then s.users[c.id1].key
                        else s.users[c.id2].key) {
      TellIsPlan(s, fd, c, IcKey);
    } else if c.action == CStart {
      StartIsPlan(s, fd, c, draws);
    } else if c.action == CCancel {
      RequestIsPlan(s, c);
    } else if c.chid !in s.chs {
      TellIsPlan(s, fd, c, NxChid);
    } else {
      AnswerIsPlan(s, fd, c, draws, r);
    }
  }

  lemma AnswerIsPlan(s: State, fd: nat, c: ChallengeMsg, draws: Draws, r: Rolls)
    requires Steady(s) && AllHealthy(s.chs) && c.id1 in s.users && c.id2 in s.users && c.chid in s.chs
    requires c.action == CAccept || c.action == CReject
    requires c.key == s.users[c.id2].key && (c.action == CAccept ==> NamesPair(s.chs[c.chid], c))
    ensures
      var vs := ChallengePlan(s, fd, c, draws, r);
      CanAll(s, vs) && HandleChallenge(s, fd, c, draws, r) == Next(DoAll(s, vs))
  {
    if s.chs[c.chid].state == Started {
    } else if c.action == CReject {
      RequestIsPlan(s, c);
    } else if Online2(s, c) {
      assert Healthy(s.chs[c.chid]);
      AcceptIsPlan(s, fd, c, r);
    } else {
      TellIsPlan(s, fd, c, Engaged);
    }
  }

  /** A TURN that is filed, and judged if it is the second. */
  lemma FileIsPlan(s: State, k: nat, user: nat, action: nat, r: Rolls)
    requires Steady(s) && k in s.chs && user in s.users && Healthy(s.chs[k])
    requires var ch := Mark(s.chs[k], user, action); ch.acted1 && ch.acted2 ==> FightsAt(s, k)
    ensures
      var ch := Mark(s.chs[k], user, action);
      var s1 := s.(chs := s.chs[k := ch]);
      && Can(s, File(k, user, action)) && Do(s, File(k, user, action)) == s1
      && (ch.acted1 && ch.acted2 ==> Can(s1, Judge(k, -1, r)) && JudgeTurn(s1, k, -1, r).Next?)
  {
  }

  lemma TurnIsPlan(s: State, t: TurnMsg, r: Rolls)
    requires Inv(s) && Conforms(s, EvTurn(t, r))
    ensures
      var vs := TurnPlan(s, t, r);
      CanAll(s, vs) && HandleTurn(s, t, r) == Next(DoAll(s, vs))
  {
    if t.chid in s.chs && t.user in s.users && s.users[t.user].key == t.key {
      InvIsSteady(s);
      if StartedAt(s, t.chid) {
        InvFights(s, t.chid);
      }
      FiledIsPlan(s, t, r);
    }
  }

  lemma FiledIsPlan(s: State, t: TurnMsg, r: Rolls)
    requires Steady(s) && AllHealthy(s.chs)
    requires t.chid in s.chs && t.user in s.users && s.users[t.user].key == t.key
    requires var ch := Mark(s.chs[t.chid], t.user, t.action); ch.acted1 && ch.acted2 ==> FightsAt(s, t.chid)
    ensures
      var vs := TurnPlan(s, t, r);
      CanAll(s, vs) && HandleTurn(s, t, r) == Next(DoAll(s, vs))
  {
    var ch := Mark(s.chs[t.chid], t.user, t.action);
    assert Healthy(s.chs[t.chid]);
    FileIsPlan(s, t.chid, t.user, t.action, r);
    if ch.acted1 && ch.acted2 {
      AllTwo(s, File(t.chid, t.user, t.action), Judge(t.chid, -1, r));
    } else {
      AllOne(s, File(t.chid, t.user, t.action));
    }
  }

  /** A conforming step is exactly its plan, and every move of the plan can be made when its time comes. */
  lemma StepIsPlan(s: State, e: Event)
    requires Inv(s) && Conforms(s, e)
    ensures CanAll(s, Plan(s, e)) && Step(s, e) == Next(DoAll(s, Plan(s, e)))
  {
    InvIsSteady(s);
    match e
    case EvJoin(fd, nick, key, garbage) => JoinIsPlan(s, fd, nick, key, garbage);
    case EvQuit(id, key, r) => if id in s.users { QuitIsPlan(s, id, r); }
    case EvDisconnect(fd, r) => DisconnectIsPlan(s, fd, r);
    case EvChallenge(fd, c, draws, r) => ChallengeIsPlan(s, fd, c, draws, r);
    case EvTurn(t, r) => TurnIsPlan(s, t, r);
  }

  // ---- what a move sends ----

  /** What connection `p` is sent by one move. */
  ghost function Note(s: State, v: Move, p: nat): seq<Msg>
    requires Can(s, v)
  {
    match v
    case Tell(fd, m) => When(p == fd, m)
    case Enter(id, u) =>
      if p == id then [JoinR(u.nick, MeOk, id, u.key)] + Snapshot(s.users[id := u])
      else When(p in s.users, UChange([EntryOf(id, u)]))
    case Open(c, k) => When(p == c.id2, Relay(c.(chid := k)))
    case Withdraw(c) =>
      var id2 := s.chs[s.users[c.id1].chid].user2;
      When(p == id2 && id2 in s.users, Reply(c, Cancelled, false))
    case TurnDown(c) => When(p == c.id1, Reply(c, Rejected, false))
    case Begin(c) => BeginNote(s, c, p)
    case File(k, user, action) => []
    case Judge(k, loser, r) => JudgeNote(s, k, loser, r, p)
    case Depart(id) => When(p in s.users, UChange([EntryOf(id, s.users[id].(state := Offline))]))
  }

  ghost function BeginNote(s: State, c: ChallengeMsg, p: nat): seq<Msg>
    requires Can(s, Begin(c))
  {
    When(p in s.users, PairRows(Engage(s, c).users, c.id1, c.id2))
    + When(p == c.id1 || p == c.id2, Reply(c, MeOk, p == c.id1))
  }

  ghost function JudgeNote(s: State, k: nat, loser: int, r: Rolls, p: nat): seq<Msg>
    requires Can(s, Judge(k, loser, r))
  {
    var ch := Advance(s.chs[k], r.damage);
    var v := Decide(ch, loser);
    When(p == ch.user1 || p == ch.user2, TurnReport(k, ch, v))
    + (if v.Undecided? then []
       else When(p in s.users, PairRows(Settle(s.users, ch.user1, ch.user2, v.winner, r), ch.user1, ch.user2)))
  }

  /** Two letters, or a broadcast. */
  lemma SpreadLog(out: seq<Sent>, users: map<nat, User>, exceptFd: int, m: Msg, p: nat)
    requires AllFine(users)
    ensures Log(out + Broadcast(users, exceptFd, m), p) == Log(out, p) + When(p in users && p != exceptFd, m)
  {
    LogAppend(out, Broadcast(users, exceptFd, m), p);
    LogBroadcast(users, exceptFd, m, p);
  }

  lemma JudgeShape(s: State, k: nat, loser: int, r: Rolls)
    requires Can(s, Judge(k, loser, r))
    ensures
      var ch := Advance(s.chs[k], r.damage);
      var v := Decide(ch, loser);
      var m := TurnReport(k, ch, v);
      var told := s.out + [Sent(ch.user1, m)] + [Sent(ch.user2, m)];
      var o := JudgeTurn(s, k, loser, r);
      && ch.user1 != ch.user2 && ch.user1 in s.users && ch.user2 in s.users
      && ch.user1 == s.chs[k].user1 && ch.user2 == s.chs[k].user2
      && o.Next?
      && if v.Undecided? then o.s == s.(chs := s.chs[k := ch], out := told)
         else
           var users := Settle(s.users, ch.user1, ch.user2, v.winner, r);
           && AllFine(users) && users.Keys == s.users.Keys
           && o.s == State(users, s.chs - {k}, told + Broadcast(users, -1, PairRows(users, ch.user1, ch.user2)),
                           s.hist.(over := s.hist.over + 1))
  {
    var ch := Advance(s.chs[k], r.damage);
    assert Fine(ch.user1, s.users[ch.user1]) && Fine(ch.user2, s.users[ch.user2]);
    var v := Decide(ch, loser);
    if v.Decided? {
      SettleKeeps(s.users, ch.user1, ch.user2, v.winner, r);
      assert s.chs[k := ch] - {k} == s.chs - {k};
    }
  }

  lemma JudgeLog(s: State, k: nat, loser: int, r: Rolls, p: nat)
    requires Can(s, Judge(k, loser, r))
    ensures JudgeTurn(s, k, loser, r).Next?
    ensures Log(JudgeTurn(s, k, loser, r).s.out, p) == Log(s.out, p) + JudgeNote(s, k, loser, r, p)
  {
    JudgeShape(s, k, loser, r);
    var ch := Advance(s.chs[k], r.damage);
    var v := Decide(ch, loser);
    var m := TurnReport(k, ch, v);
    PairLog(s.out, ch.user1, ch.user2, m, p);
    if v.Decided? {
      var users := Settle(s.users, ch.user1, ch.user2, v.winner, r);
      SpreadLog(s.out + [Sent(ch.user1, m)] + [Sent(ch.user2, m)], users, -1, PairRows(users, ch.user1, ch.user2), p);
    }
  }

  lemma LeaveLog(s: State, id: nat, p: nat)
    requires AllFine(s.users) && id in s.users
    ensures Log(Leave(s, id).out, p)
         == Log(s.out, p) + When(p in s.users, UChange([EntryOf(id, s.users[id].(state := Offline))]))
  {
    var m := UChange([EntryOf(id, s.users[id].(state := Offline))]);
    LogAppend(s.out, Broadcast(s.users, -1, m), p);
    LogBroadcast(s.users, -1, m, p);
  }

  lemma WelcomeLog(out: seq<Sent>, users: map<nat, User>, id: nat, answer: Msg, snapshot: seq<Msg>, m: Msg, p: nat)
    requires AllFine(users)
    ensures Log(out + [Sent(id, answer)] + To(id, snapshot) + Broadcast(users, id, m), p)
         == Log(out, p) + (if p == id then [answer] + snapshot else When(p in users, m))
  {
    var a, b, c := [Sent(id, answer)], To(id, snapshot), Broadcast(users, id, m);
    LogAppend3(out, a, b, c, p);
    WelcomeParts(users, id, answer, snapshot, m, p);
    Regroup(Log(out, p), Log(a, p), Log(b, p), Log(c, p));
  }

  lemma WelcomeParts(users: map<nat, User>, id: nat, answer: Msg, snapshot: seq<Msg>, m: Msg, p: nat)
    requires AllFine(users)
    ensures Log([Sent(id, answer)], p) + (Log(To(id, snapshot), p) + Log(Broadcast(users, id, m), p))
         == if p == id then [answer] + snapshot else When(p in users, m)
  {
    LogOne(id, answer, p);
    LogTo(id, snapshot, p);
    LogBroadcast(users, id, m, p);
  }

  lemma Regroup(x: seq<Msg>, a: seq<Msg>, b: seq<Msg>, c: seq<Msg>)
    ensures x + a + b + c == x + (a + (b + c))
  {
  }

  /** A successful join: the answer and the snapshot to the newcomer, the newcomer's row to everyone else. */
  lemma JoinLog(s: State, id: nat, u: User, p: nat)
    requires Can(s, Enter(id, u))
    ensures Log(Admit(s, id, u).out, p) == Log(s.out, p) + Note(s, Enter(id, u), p)
  {
    var users := s.users[id := u];
    var answer, m := JoinR(u.nick, MeOk, id, u.key), UChange([EntryOf(id, u)]);
    assert AllFine(users);
    WelcomeLog(s.out, users, id, answer, Snapshot(users), m, p);
  }

  lemma SpreadPairLog(out: seq<Sent>, users: map<nat, User>, m: Msg, id1: nat, id2: nat, m1: Msg, m2: Msg, p: nat)
    requires AllFine(users) && id1 != id2
    ensures Log(out + Broadcast(users, -1, m) + [Sent(id1, m1)] + [Sent(id2, m2)], p)
         == Log(out, p) + When(p in users, m) + When(p == id1 || p == id2, if p == id1 then m1 else m2)
  {
    var told := out + Broadcast(users, -1, m);
    SpreadLog(out, users, -1, m, p);
    SendLog(told, id1, m1, p);
    SendLog(told + [Sent(id1, m1)], id2, m2, p);
    EitherOne(Log(told, p), id1, id2, m1, m2, p);
  }

  lemma EitherOne(log: seq<Msg>, id1: nat, id2: nat, m1: Msg, m2: Msg, p: nat)
    requires id1 != id2
    ensures log + When(p == id1, m1) + When(p == id2, m2)
         == log + When(p == id1 || p == id2, if p == id1 then m1 else m2)
  {
  }

  lemma EngageLog(s: State, c: ChallengeMsg, p: nat)
    requires Can(s, Begin(c))
    ensures Log(Engage(s, c).out, p) == Log(s.out, p) + BeginNote(s, c, p)
  {
    var users := Engage(s, c).users;
    assert Fine(c.id1, s.users[c.id1]) && Fine(c.id2, s.users[c.id2]);
    assert AllFine(users);
    SpreadPairLog(s.out, users, PairRows(users, c.id1, c.id2), c.id1, c.id2,
                  Reply(c, MeOk, true), Reply(c, MeOk, false), p);
  }

  lemma AnswerLog(s: State, v: Move, p: nat)
    requires Can(s, v) && (v.Open? || v.Withdraw? || v.TurnDown?)
    ensures Log(Do(s, v).out, p) == Log(s.out, p) + Note(s, v, p)
  {
    var u1 := s.users[v.c.id1];
    assert Fine(v.c.id1, u1);
    match v
    case Open(c, k) =>
      assert Fine(c.id2, s.users[c.id2]);
      SendLog(s.out, c.id2, Relay(c.(chid := k)), p);
    case Withdraw(c) =>
      var id2 := s.chs[u1.chid].user2;
      SendLog(s.out, id2, Reply(c, Cancelled, false), p);
      assert id2 in s.users ==> Fine(id2, s.users[id2]);
      assert id2 !in s.users ==> s.out + [] == s.out;
    case TurnDown(c) =>
      SendLog(s.out, c.id1, Reply(c, Rejected, false), p);
  }

  /** Each move appends exactly its note to what each connection has been sent. */
  lemma MoveLog(s: State, v: Move, p: nat)
    requires Can(s, v)
    ensures Log(Do(s, v).out, p) == Log(s.out, p) + Note(s, v, p)
  {
    match v
    case Tell(fd, m) => SendLog(s.out, fd, m, p);
    case Enter(id, u) => JoinLog(s, id, u, p);
    case Open(c, k) => AnswerLog(s, v, p);
    case Withdraw(c) => AnswerLog(s, v, p);
    case TurnDown(c) => AnswerLog(s, v, p);
    case Begin(c) => EngageLog(s, c, p);
    case File(k, user, action) =>
    case Judge(k, loser, r) => JudgeLog(s, k, loser, r, p);
    case Depart(id) => LeaveLog(s, id, p);
  }
}
