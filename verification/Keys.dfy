/** What the other keys come to, and what messages do to a waiting client. */
module Keys {
  import opened Protocol
  import opened ServerSpec
  import opened Invariants
  import opened Logs
  import opened Moves
  import opened Trace
  import opened ClientSpec
  import opened Network
  import opened Links
  import opened System
  import opened Consent
  import opened Leaving

  /** The client is in the game, waits for nothing, and its connection is up. */
  ghost predicate IsFree(y: Sys, p: nat) {
    && Reachable(y) && p in y.links && !y.links[p].cut
    && y.links[p].client.phase == Playing && y.links[p].client.waiting == WNone
  }

  /** Request `r` of registered user `p` is next to be handled. */
  ghost predicate AtHead(z: Sys, p: nat, r: Request) {
    Reachable(z) && p in z.links && z.links[p].up != [] && z.links[p].up[0] == r && p in z.srv.users
  }

  lemma HeadIsProper(z: Sys, p: nat, r: Request)
    requires AtHead(z, p, r)
    ensures Proper(z.srv.hist, p, z.links[p].client, r)
    ensures InGame(z.links[p].client) ==> z.links[p].client.key == z.srv.users[p].key
    ensures Steady(z.srv) && Inv(z.srv)
  {
    ReachableHolds(z);
    ReachableLink(z, p);
    InvIsSteady(z.srv);
    assert r in z.links[p].up;
    if InGame(z.links[p].client) {
      KeyIsRight(z.srv, p, z.links[p]);
    }
  }

  lemma ClientIsOwn(y: Sys, p: nat)
    requires Reachable(y) && p in y.links && InGame(y.links[p].client)
    ensures y.links[p].client.id == p
  {
    ReachableLink(y, p);
  }

  // ---- challenging somebody ----

  /** From `s` to `t` user `a` challenges user `b`: the challenge is filed under an id that was not in use, it is the
      one that `a` may cancel, and `b` alone is told, with that id. */
  ghost predicate Challenges(s: State, t: State, a: nat, b: nat) {
    && |t.chs| == |s.chs| + 1 && a in s.users && a in t.users
    && var k := t.users[a].chid;
       && k !in s.chs && 0 < k < ID_MODULUS && AskingAt(t, k) && t.chs[k].user1 == a && t.chs[k].user2 == b
       && t.chs - {k} == s.chs && t.users == s.users[a := s.users[a].(chid := k)]
       && k in t.hist.pairs && t.hist.pairs[k] == (a, b)
       && forall q: nat ::
            Log(t.out, q) == Log(s.out, q) + When(q == b, Relay(ChallengeMsg(a, b, s.users[a].key, k, CStart)))
  }

  lemma StartServed(s: State, p: nat, c: ChallengeMsg, env: Env)
    requires Steady(s) && c.action == CStart && Online2(s, c) && c.key == s.users[c.id1].key
    requires FirstFree(env.draws, s.chs.Keys).Chid?
    ensures var o := Step(s, EventOf(p, Ask(c), env)); o.Next? && Challenges(s, o.s, c.id1, c.id2)
  {
    var k := FirstFree(env.draws, s.chs.Keys).k;
    FirstFreeIsFree(env.draws, s.chs.Keys);
    var t := OpenChallenge(s, c, k);
    assert Fine(c.id2, s.users[c.id2]);
    assert t.chs - {k} == s.chs;
    forall q: nat
      ensures Log(t.out, q) == Log(s.out, q) + When(q == c.id2, Relay(c.(chid := k)))
    {
      SendLog(s.out, c.id2, Relay(c.(chid := k)), q);
    }
    assert c.(chid := k) == ChallengeMsg(c.id1, c.id2, s.users[c.id1].key, k, CStart);
  }

  /** Only user `p` is told, and only that its request failed. */
  predicate OnlyTold(s: State, o: Outcome, p: nat, e: MsgErr, id1: nat, id2: nat, chid: nat) {
    o == Next(s.(out := s.out + [Sent(p, ChallengeR(e, id1, id2, chid, false))]))
  }

  lemma ChoosingPuts(y: Sys, p: nat, key: char, id: nat)
    requires IsFree(y, p)
    ensures Enabled(y, Press(p, key, ChallengeUser(id)))
    ensures
      if id == p then Evolve(y, Press(p, key, ChallengeUser(id))) == Goes(y)
      else
        && ClientAfter(y, Press(p, key, ChallengeUser(id))) == y.links[p].client.(waiting := WCancel)
        && exists r: Request :: Puts(y, Press(p, key, ChallengeUser(id)), r)
  {
    var l := y.links[p];
    ClientIsOwn(y, p);
    if id == p {
      assert l.up + [] == l.up && y.links[p := l] == y.links;
    } else {
      assert Puts(y, Press(p, key, ChallengeUser(id)), Pressed(l.client, key, ChallengeUser(id)).1[0]);
    }
  }

  /** Choosing a user of the menu challenges exactly that user, if both are online by the time the request is handled;
      otherwise only the chooser is told why not. */
  lemma ChoosingChallenges(y: Sys, p: nat, key: char, id: nat, r: Request, z: Sys, env: Env)
    requires IsFree(y, p) && id != p && Puts(y, Press(p, key, ChallengeUser(id)), r)
    requires AtHead(z, p, r) && Lucky(z.srv, EventOf(p, r, env))
    ensures
      var s, o := z.srv, Step(z.srv, EventOf(p, r, env));
      if id !in s.users then OnlyTold(s, o, p, NxId, p, id, 0)
      else if s.users[p].state == Online && s.users[id].state == Online then o.Next? && Challenges(s, o.s, p, id)
      else OnlyTold(s, o, p, Engaged, p, id, 0)
  {
    ClientIsOwn(y, p);
    SamePut(y.links[p].up, r, Pressed(y.links[p].client, key, ChallengeUser(id)).1[0]);
    HeadIsProper(z, p, r);
    if Online2(z.srv, r.c) {
      StartServed(z.srv, p, r.c, env);
    }
  }

  // ---- withdrawing ----

  /** The client has challenged somebody and waits for the answer. */
  ghost predicate HasAsked(y: Sys, p: nat) {
    && Reachable(y) && p in y.links && !y.links[p].cut
    && y.links[p].client.phase == Playing && y.links[p].client.waiting == WCancel
  }

  /** From `s` to `t` user `a` takes back its last challenge: it goes, whom it was for is told, and nothing else. */
  ghost predicate Withdraws(s: State, t: State, a: nat, named: nat, chid: nat) {
    && a in s.users && s.users[a].chid in s.chs
    && var k := s.users[a].chid;
       && t.chs == s.chs - {k} && t.users == s.users[a := s.users[a].(chid := 0)] && t.hist == s.hist
       && forall q: nat ::
            Log(t.out, q) == Log(s.out, q)
              + When(q == s.chs[k].user2 && q in s.users, ChallengeR(Cancelled, a, named, chid, false))
  }

  lemma CancelServed(s: State, p: nat, c: ChallengeMsg, env: Env)
    requires Steady(s) && c.action == CCancel && c.id1 in s.users && c.id2 in s.users && c.key == s.users[c.id1].key
    requires Cancels(s, c)
    ensures var o := Step(s, EventOf(p, Ask(c), env)); o.Next? && Withdraws(s, o.s, c.id1, c.id2, c.chid)
  {
    var k := s.users[c.id1].chid;
    var t := CancelChallenge(s, c);
    forall q: nat
      ensures Log(t.out, q) == Log(s.out, q)
                + When(q == s.chs[k].user2 && q in s.users, ChallengeR(Cancelled, c.id1, c.id2, c.chid, false))
    {
      AnswerLog(s, Withdraw(c), q);
    }
  }

  lemma CancelAnswered(s: State, p: nat, c: ChallengeMsg, env: Env)
    requires Steady(s) && c.action == CCancel && c.id1 == p && p in s.users && c.key == s.users[p].key && c.chid == 0
    ensures
      var o, k := Step(s, EventOf(p, Ask(c), env)), s.users[p].chid;
      if c.id2 !in s.users then OnlyTold(s, o, p, NxId, p, c.id2, 0)
      else if AskingAt(s, k) && s.chs[k].user1 == p && s.users[p].state == Online then
        o.Next? && Withdraws(s, o.s, p, c.id2, 0)
      else o == Next(s)
  {
    if c.id2 in s.users && Cancels(s, c) {
      CancelServed(s, p, c, env);
    }
  }

  lemma WithdrawingPuts(y: Sys, p: nat, key: char, cmd: Command)
    requires HasAsked(y, p)
    ensures Enabled(y, Press(p, key, cmd))
    ensures ClientAfter(y, Press(p, key, cmd)) == y.links[p].client.(waiting := WNone)
    ensures exists r: Request :: Puts(y, Press(p, key, cmd), r)
  {
    assert Puts(y, Press(p, key, cmd), Pressed(y.links[p].client, key, cmd).1[0]);
  }

  /** Any key takes the challenge back, exactly if it is the user's last one, still unanswered, when the request is
      handled, and the last opponent, whom the client names, is registered. */
  lemma WithdrawingWithdraws(y: Sys, p: nat, key: char, cmd: Command, r: Request, z: Sys, env: Env)
    requires HasAsked(y, p) && Puts(y, Press(p, key, cmd), r) && AtHead(z, p, r)
    ensures
      var s, o, named := z.srv, Step(z.srv, EventOf(p, r, env)), y.links[p].client.opponentId;
      var k := s.users[p].chid;
      if named !in s.users then OnlyTold(s, o, p, NxId, p, named, 0)
      else if AskingAt(s, k) && s.chs[k].user1 == p && s.users[p].state == Online then
        o.Next? && Withdraws(s, o.s, p, named, 0)
      else o == Next(s)
  {
    ClientIsOwn(y, p);
    SamePut(y.links[p].up, r, Pressed(y.links[p].client, key, cmd).1[0]);
    HeadIsProper(z, p, r);
    CancelAnswered(z.srv, p, r.c, env);
  }

  // ---- acting ----

  /** A battle key puts a TURN with exactly that action, for the battle and the turn on the screen, and only while the
      client has leave to act; otherwise it does nothing. */
  lemma ActingPuts(y: Sys, p: nat, key: char, action: nat)
    requires IsFree(y, p)
    ensures Enabled(y, Press(p, key, BattleAct(action)))
    ensures
      var c, a := y.links[p].client, Press(p, key, BattleAct(action));
      if c.state == Battling && !c.acted then
        && ClientAfter(y, a) == c.(acted := true)
        && Puts(y, a, Act(TurnMsg(p, c.chid, c.key, c.turnNo, action)))
      else Evolve(y, a) == Goes(y)
  {
    var l := y.links[p];
    ClientIsOwn(y, p);
    assert l.up + [] == l.up && y.links[p := l] == y.links;
  }

  /** And when it is handled while the battle runs, exactly this action is filed for this user. */
  lemma ActingFiles(y: Sys, p: nat, key: char, action: nat, r: Request, z: Sys, env: Env)
    requires IsFree(y, p) && y.links[p].client.state == Battling && !y.links[p].client.acted
    requires Puts(y, Press(p, key, BattleAct(action)), r) && AtHead(z, p, r)
    requires y.links[p].client.chid in z.srv.chs
    ensures
      var s, k, o := z.srv, y.links[p].client.chid, Step(z.srv, EventOf(p, r, env));
      var ch := s.chs[k];
      var filed := if p == ch.user1 then ch.(act1 := action, acted1 := true) else ch.(act2 := action, acted2 := true);
      && ch.turnNo == y.links[p].client.turnNo && !(if p == ch.user1 then ch.acted1 else ch.acted2)
      && o == if filed.acted1 && filed.acted2 then JudgeTurn(s.(chs := s.chs[k := filed]), k, -1, env.r)
              else Next(s.(chs := s.chs[k := filed]))
  {
    ClientIsOwn(y, p);
    SamePut(y.links[p].up, r, Pressed(y.links[p].client, key, BattleAct(action)).1[0]);
    NoTurnLost(z, p, env.r);
  }

  // ---- leaving ----

  lemma QuittingPuts(y: Sys, p: nat, key: char)
    requires IsFree(y, p)
    ensures Enabled(y, Press(p, key, GoAway)) && ClientAfter(y, Press(p, key, GoAway)).phase == Ended
    ensures Puts(y, Press(p, key, GoAway), Quit(p, y.links[p].client.key))
  {
    ClientIsOwn(y, p);
  }

  lemma LeaverGoes(s: State, id: nat, r: Rolls)
    requires Inv(s) && id in s.users
    ensures var o := QuitUser(s, id, r); o.Next? && o.s.users.Keys == s.users.Keys - {id}
  {
    LeavingIsSafe(s, id, r);
  }

  /** Leaving by key puts a QUIT; when it is handled, this user, and nobody else, is gone. */
  lemma QuittingLeaves(y: Sys, p: nat, key: char, r: Request, z: Sys, env: Env)
    requires IsFree(y, p) && Puts(y, Press(p, key, GoAway), r) && AtHead(z, p, r)
    ensures
      var o := Step(z.srv, EventOf(p, r, env));
      o.Next? && o.s.users.Keys == z.srv.users.Keys - {p}
  {
    QuittingPuts(y, p, key);
    SamePut(y.links[p].up, r, Quit(p, y.links[p].client.key));
    HeadIsProper(z, p, r);
    LeaverGoes(z.srv, p, env.r);
  }

  // ---- messages ----

  /** Client `p` is about to take message `m`. */
  ghost predicate TakesNext(y: Sys, p: nat, m: Msg) {
    Reachable(y) && Enabled(y, Deliver(p)) && Log(y.srv.out, p)[y.links[p].pos] == m
  }

  /** Any CHALLENGE_R ends the wait. A good one puts the client into the battle, knowing which user it is and against
      whom; any other changes nothing else. */
  lemma AnswerEndsWait(y: Sys, p: nat, m: Msg)
    requires TakesNext(y, p, m) && m.ChallengeR? && y.links[p].client.phase == Playing
    ensures
      var c, d := y.links[p].client, ClientAfter(y, Deliver(p));
      && d.waiting == WNone
      && (m.error != MeOk ==> d == c.(waiting := WNone))
      && (m.error == MeOk ==>
            && d.state == Battling && d.acted && d.chid == m.chid && m.id1 != m.id2
            && (p == m.id1 ==> d.isUser1 && d.opponentId == m.id2)
            && (p != m.id1 ==> p == m.id2 && !d.isUser1 && d.opponentId == m.id1))
  {
    ReachableLink(y, p);
    NextFits(y.srv, p, y.links[p], m);
  }

  lemma NextFits(s: State, p: nat, l: Link, m: Msg)
    requires LinkInv(s, p, l) && l.pos < |Log(s.out, p)| && Log(s.out, p)[l.pos] == m
    ensures Fits(s.hist, p, Flow(NoChid, Log(s.out, p)[..l.pos]), m)
  {
    var log := Log(s.out, p);
    assert log == log[..l.pos] + log[l.pos..] && log[l.pos..][0] == m;
    Halves(s, p, log[..l.pos], log[l.pos..]);
  }

  /** A JOIN that is refused leaves the client where it can type another name; one that is not, in the game under its
      connection's number. */
  lemma JoinAnswered(y: Sys, p: nat, m: Msg)
    requires TakesNext(y, p, m) && m.JoinR? && y.links[p].client.phase == Joining
    ensures
      var d := ClientAfter(y, Deliver(p));
      if m.error != MeOk then d == NEWCOMER
      else d.phase == Playing && d.id == p && d.key == m.key && d.waiting == WNone && d.table == map[]
  {
    ReachableLink(y, p);
    NextFits(y.srv, p, y.links[p], m);
    WaitsUnnamed(y.srv, p, y.links[p]);
  }

  lemma WaitsUnnamed(s: State, p: nat, l: Link)
    requires LinkInv(s, p, l) && l.client.phase == Joining
    ensures l.client == NEWCOMER.(phase := Joining)
  {
  }

  /** The rows tell the client to go exactly if one of them is its own and offline. */
  lemma {:induction false} LiveExactly(me: nat, v: View, es: seq<Entry>)
    ensures AbsorbAll(me, v, es).live <==> v.live && forall e | e in es :: !(e.id == me && e.state == Offline)
    decreases |es|
  {
    if es == [] {
    } else {
      LiveExactly(me, Absorb(me, v, es[0]), es[1..]);
    }
  }

  /** A client leaves the game at a message exactly if that says that it is offline, and answers with a QUIT. */
  lemma SentAwayExactly(y: Sys, p: nat, m: Msg)
    requires TakesNext(y, p, m) && y.links[p].client.phase == Playing
    ensures
      ClientAfter(y, Deliver(p)).phase == Ended <==>
        m.UChange? && exists e :: e in m.users && e.id == p && e.state == Offline
    ensures
      ClientAfter(y, Deliver(p)).phase == Ended && !y.links[p].cut ==>
        Puts(y, Deliver(p), Quit(p, y.links[p].client.key))
  {
    ClientIsOwn(y, p);
    if m.UChange? {
      LiveExactly(p, LookOf(y.links[p].client), m.users);
    }
  }

  /** Typing a name puts a JOIN with that name, and only from the login screen. */
  lemma TypingPuts(y: Sys, p: nat, nick: Nick)
    requires p in y.links && !y.links[p].cut && y.links[p].client.phase == Typing
    ensures Enabled(y, TypeName(p, nick)) && Puts(y, TypeName(p, nick), Join(nick))
    ensures ClientAfter(y, TypeName(p, nick)) == y.links[p].client.(phase := Joining)
  {
  }
}
