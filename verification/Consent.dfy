/** What an answer to a challenge comes to: the key, the request it posts, and what handling that request does. */
module Consent {
  import opened Protocol
  import opened ServerSpec
  import opened Invariants
  import opened Logs
  import opened Moves
  import opened Chronicle
  import opened ClientSpec
  import opened Network
  import opened Links
  import opened System

  /** Request `r` of `p` is next to be handled, and the challenge it is about is still being asked, its challenger and
      `p` both registered. */
  ghost predicate Pending(z: Sys, p: nat, r: Request, challenger: nat, k: nat) {
    && p in z.links && z.links[p].up != [] && z.links[p].up[0] == r
    && AskingAt(z.srv, k) && challenger in z.srv.users && p in z.srv.users
  }

  /** From `s` to `t` challenge `k` of `challenger` is refused: it goes, its challenger alone is told so, and nothing
      else happens. */
  ghost predicate Refused(s: State, t: State, k: nat, challenger: nat, challenged: nat) {
    && t.chs == s.chs - {k} && t.users == s.users && t.hist == s.hist
    && forall q: nat ::
         Log(t.out, q) == Log(s.out, q) + When(q == challenger, ChallengeR(Rejected, challenger, challenged, k, false))
  }

  /** From `s` to `t` battle `k` begins: its users are in it, everybody else is where they were, and its first turn is
      on. Both users are told that the other has agreed, which of them is user 1, and the first turn. */
  ghost predicate Starts(s: State, t: State, k: nat, challenger: nat, challenged: nat) {
    && StartedAt(t, k) && t.chs[k].user1 == challenger && t.chs[k].user2 == challenged && t.chs[k].turnNo == 1
    && k in t.hist.begun
    && (forall j | j != k :: (j in t.chs <==> j in s.chs) && (j in s.chs ==> t.chs[j] == s.chs[j]))
    && challenger in s.users && challenged in s.users
    && t.users == s.users[challenger := s.users[challenger].(state := Battling, chid := k)]
                         [challenged := s.users[challenged].(state := Battling, chid := k)]
    && forall q | q == challenger || q == challenged :: HearsStart(s, t, k, challenger, challenged, q)
  }

  ghost predicate HearsStart(s: State, t: State, k: nat, challenger: nat, challenged: nat, q: nat) {
    exists row: Msg, first: Msg ::
      && Log(t.out, q) == Log(s.out, q) + [row, ChallengeR(MeOk, challenger, challenged, k, q == challenger), first]
      && row.UChange? && first.TurnR? && first.battle == k && first.turnNo == 1 && !first.fin
  }

  // ---- requests handled ----

  /** The key that a registered client shows is its own. */
  lemma KeyIsRight(s: State, p: nat, l: Link)
    requires LinkInv(s, p, l) && InGame(l.client) && p in s.users
    ensures l.client.key == s.users[p].key
  {
    var log := Log(s.out, p);
    assert log == log[..l.pos] + log[l.pos..];
    BadgeAppend(NoBadge, log[..l.pos], log[l.pos..]);
    NoJoinRs(BadgeOf(NoBadge, log[..l.pos]), log[l.pos..]);
  }

  /** What is known of an answer when it is handled. */
  lemma AnswerIsProper(z: Sys, p: nat, r: Request, k: nat)
    requires Reachable(z) && r.Ask? && (r.c.action == CAccept || r.c.action == CReject) && r.c.chid == k
    requires Pending(z, p, r, r.c.id1, k)
    ensures
      var ch := z.srv.chs[k];
      && r.c.id2 == p && ch.user1 == r.c.id1 && ch.user2 == p && r.c.id1 != p && r.c.key == z.srv.users[p].key
      && Steady(z.srv) && AllHealthy(z.srv.chs)
  {
    ReachableHolds(z);
    ReachableLink(z, p);
    InvIsSteady(z.srv);
    var l := z.links[p];
    assert r in l.up;
    assert Proper(z.srv.hist, p, l.client, r);
    KeyIsRight(z.srv, p, l);
  }

  lemma RejectServed(s: State, p: nat, c: ChallengeMsg, env: Env)
    requires Steady(s) && c.action == CReject && AskingAt(s, c.chid) && c.id1 in s.users && c.id2 in s.users
    requires c.key == s.users[c.id2].key && s.chs[c.chid].user2 == c.id2
    ensures
      var o := Step(s, EventOf(p, Ask(c), env));
      o.Next? && Refused(s, o.s, c.chid, c.id1, c.id2)
  {
    var t := Step(s, EventOf(p, Ask(c), env)).s;
    assert Fine(c.id1, s.users[c.id1]);
    forall q: nat
      ensures Log(t.out, q) == Log(s.out, q) + When(q == c.id1, ChallengeR(Rejected, c.id1, c.id2, c.chid, false))
    {
      SendLog(s.out, c.id1, Reply(c, Rejected, false), q);
    }
  }

  lemma AcceptServed(s: State, p: nat, c: ChallengeMsg, env: Env)
    requires Steady(s) && AllHealthy(s.chs) && c.action == CAccept && Online2(s, c) && AskingAt(s, c.chid)
    requires c.key == s.users[c.id2].key && NamesPair(s.chs[c.chid], c)
    ensures
      var o := Step(s, EventOf(p, Ask(c), env));
      o.Next? && Starts(s, o.s, c.chid, c.id1, c.id2)
  {
    assert Healthy(s.chs[c.chid]);
    AcceptIsPlan(s, p, c, env.r);
    EngageIsSteady(s, c);
    var s1 := Engage(s, c);
    JudgeShape(s1, c.chid, -1, env.r);
    var t := Step(s, EventOf(p, Ask(c), env)).s;
    assert t == Do(s1, Judge(c.chid, -1, env.r));
    forall q | q == c.id1 || q == c.id2
      ensures HearsStart(s, t, c.chid, c.id1, c.id2, q)
    {
      EngageLog(s, c, q);
      JudgeLog(s1, c.chid, -1, env.r, q);
      FirstTold(s, t, c.chid, c.id1, c.id2, q, PairRows(s1.users, c.id1, c.id2), Report(s1, c.chid, -1, env.r));
    }
  }

  lemma FirstTold(s: State, t: State, k: nat, id1: nat, id2: nat, q: nat, row: Msg, first: Msg)
    requires Log(t.out, q) == Log(s.out, q) + ([row] + [ChallengeR(MeOk, id1, id2, k, q == id1)]) + ([first] + [])
    requires row.UChange? && first.TurnR? && first.battle == k && first.turnNo == 1 && !first.fin
    ensures HearsStart(s, t, k, id1, id2, q)
  {
    assert Log(t.out, q) == Log(s.out, q) + [row, ChallengeR(MeOk, id1, id2, k, q == id1), first];
  }

  // ---- keys ----

  /** Step `a` of client `a.p` puts exactly request `r` on its connection. */
  ghost predicate Puts(y: Sys, a: Action, r: Request) {
    && Enabled(y, a) && a.p in y.links && Evolve(y, a).Goes? && a.p in Evolve(y, a).y.links
    && Evolve(y, a).y.links[a.p].up == y.links[a.p].up + [r]
  }

  ghost function ClientAfter(y: Sys, a: Action): Player
    requires Enabled(y, a)
  {
    if Evolve(y, a).Goes? && a.p in Evolve(y, a).y.links then Evolve(y, a).y.links[a.p].client else NEWCOMER
  }

  /** The client shows a challenge and waits for an answer to it. */
  ghost predicate IsAsked(y: Sys, p: nat) {
    && p in y.links && !y.links[p].cut
    && y.links[p].client.phase == Playing && y.links[p].client.waiting == WAccept
  }

  /** While a challenge is shown, the four keys that answer it put one request each and end the wait; no other key does
      anything. */
  lemma OnlyAnswersAnswer(y: Sys, p: nat, key: char, cmd: Command)
    requires IsAsked(y, p)
    ensures Enabled(y, Press(p, key, cmd))
    ensures
      if key in "yYnN" then
        && ClientAfter(y, Press(p, key, cmd)) == y.links[p].client.(waiting := WNone)
        && exists r: Request :: Puts(y, Press(p, key, cmd), r)
      else Evolve(y, Press(p, key, cmd)) == Goes(y)
  {
    var l := y.links[p];
    if key in "yYnN" {
      assert Puts(y, Press(p, key, cmd), Pressed(l.client, key, cmd).1[0]);
    } else {
      assert l.up + [] == l.up;
      assert y.links[p := l] == y.links;
    }
  }

  lemma SamePut(up: seq<Request>, r: Request, r': Request)
    requires up + [r] == up + [r']
    ensures r == r'
  {
    assert (up + [r])[|up|] == r;
  }

  /** After 'y' or 'Y', with both users online when the answer is handled, the battle starts; otherwise the answer is
      refused and the challenge stays. */
  lemma YesStarts(y: Sys, p: nat, key: char, cmd: Command, r: Request, z: Sys, env: Env)
    requires IsAsked(y, p) && key in "yY" && Puts(y, Press(p, key, cmd), r)
    requires
      var c := y.links[p].client;
      Reachable(z) && Pending(z, p, r, c.opponentId, c.chid)
    ensures
      var c := y.links[p].client;
      var o := Step(z.srv, EventOf(p, r, env));
      && o.Next?
      && if z.srv.users[c.opponentId].state == Online && z.srv.users[p].state == Online then
           Starts(z.srv, o.s, c.chid, c.opponentId, p)
         else
           o.s == z.srv.(out := z.srv.out + [Sent(p, ChallengeR(Engaged, c.opponentId, c.id, c.chid, false))])
  {
    var c := y.links[p].client;
    SamePut(y.links[p].up, r, Pressed(c, key, cmd).1[0]);
    AnswerIsProper(z, p, r, c.chid);
    if Online2(z.srv, r.c) {
      AcceptServed(z.srv, p, r.c, env);
    }
  }

  /** After 'n' or 'N' the challenge is refused. */
  lemma NoRefuses(y: Sys, p: nat, key: char, cmd: Command, r: Request, z: Sys, env: Env)
    requires IsAsked(y, p) && key in "nN" && Puts(y, Press(p, key, cmd), r)
    requires
      var c := y.links[p].client;
      Reachable(z) && Pending(z, p, r, c.opponentId, c.chid)
    ensures
      var c := y.links[p].client;
      var o := Step(z.srv, EventOf(p, r, env));
      o.Next? && Refused(z.srv, o.s, c.chid, c.opponentId, p)
  {
    var c := y.links[p].client;
    SamePut(y.links[p].up, r, Pressed(c, key, cmd).1[0]);
    AnswerIsProper(z, p, r, c.chid);
    RejectServed(z.srv, p, r.c, env);
  }

  // ---- challenges relayed ----

  /** The next message of client `p`, who is in the game, offers it challenge `c`. */
  ghost predicate Offered(y: Sys, p: nat, c: ChallengeMsg) {
    && Enabled(y, Deliver(p)) && y.links[p].client.phase == Playing
    && Log(y.srv.out, p)[y.links[p].pos] == Relay(c)
  }

  /** A client that waits for nothing shows the challenge and its challenger, and puts nothing on its connection; a
      client that waits for anything changes nothing and puts one request. */
  lemma OfferIsTaken(y: Sys, p: nat, c: ChallengeMsg)
    requires Reachable(y) && Offered(y, p, c)
    ensures
      var before, d := y.links[p].client, ClientAfter(y, Deliver(p));
      if before.waiting == WNone then
        && d == before.(waiting := WAccept, chid := c.chid, opponentId := c.id1)
        && Evolve(y, Deliver(p)).y.links[p].up == y.links[p].up
      else
        d == before && (!y.links[p].cut ==> exists r: Request :: Puts(y, Deliver(p), r))
  {
    ReachableLink(y, p);
    OfferIsStart(y.srv, p, y.links[p], c);
    var l := y.links[p];
    assert l.up + [] == l.up;
    if l.client.waiting != WNone && !l.cut {
      assert Puts(y, Deliver(p), Received(l.client, Relay(c)).1[0]);
    }
  }

  lemma OfferIsStart(s: State, p: nat, l: Link, c: ChallengeMsg)
    requires LinkInv(s, p, l) && l.pos < |Log(s.out, p)| && Log(s.out, p)[l.pos] == Relay(c)
    ensures c.action == CStart && c.id2 == p
  {
    var log := Log(s.out, p);
    assert log == log[..l.pos] + log[l.pos..] && log[l.pos..][0] == Relay(c);
    Halves(s, p, log[..l.pos], log[l.pos..]);
  }

  /** What a busy client puts on its connection refuses exactly the challenge it was offered. */
  lemma BusyRefuses(y: Sys, p: nat, c: ChallengeMsg, r: Request, z: Sys, env: Env)
    requires Reachable(y) && Offered(y, p, c) && y.links[p].client.waiting != WNone && !y.links[p].cut
    requires Puts(y, Deliver(p), r)
    requires Reachable(z) && Pending(z, p, r, c.id1, c.chid)
    ensures var o := Step(z.srv, EventOf(p, r, env)); o.Next? && Refused(z.srv, o.s, c.chid, c.id1, p)
  {
    ReachableLink(y, p);
    OfferIsStart(y.srv, p, y.links[p], c);
    SamePut(y.links[p].up, r, Received(y.links[p].client, Relay(c)).1[0]);
    AnswerIsProper(z, p, r, c.chid);
    RejectServed(z.srv, p, r.c, env);
  }
}
