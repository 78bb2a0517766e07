/** Which accepts do what an accept is for, and one that does not. */
module Accepting {
  import opened Protocol
  import opened ServerSpec
  import opened Invariants
  import opened Properties
  import opened Logs
  import opened Moves
  import opened Trace

  // ---- the accept that the challenger sends ----

  /** A C_ACCEPT with the two ids exchanged passes the key check with the challenger's own key: it starts the battle
      without the challenged user, and tells that user that it is user 1. */
  lemma SwappedAccept(s: State, fd: nat, k: nat, draws: Draws, r: Rolls)
    requires Inv(s) && AskingAt(s, k)
    requires s.chs[k].user1 in s.users && s.users[s.chs[k].user1].state == Online
    requires s.chs[k].user2 in s.users && s.users[s.chs[k].user2].state == Online
    ensures
      var id1, id2 := s.chs[k].user1, s.chs[k].user2;
      var c := ChallengeMsg(id2, id1, s.users[id1].key, k, CAccept);
      var o := HandleChallenge(s, fd, c, draws, r);
      && o.Next? && Paired(o.s) && k in o.s.chs && o.s.chs[k].state == Started
      && Sent(id2, ChallengeR(MeOk, id2, id1, k, true)) in o.s.out
  {
    var id1, id2 := s.chs[k].user1, s.chs[k].user2;
    var c := ChallengeMsg(id2, id1, s.users[id1].key, k, CAccept);
    assert {id2, id1} == {id1, id2};
    AcceptExactly(s, fd, c, r);
    AnswerIsSent(s, fd, c, r);
    assert Fine(id2, s.users[id2]);
    AcceptStarts(s, fd, c, r);
    ReachesAccept(s, fd, c, draws, r);
  }

  /** The checks of handle_challenge that stand before an accept. */
  lemma ReachesAccept(s: State, fd: nat, c: ChallengeMsg, draws: Draws, r: Rolls)
    requires AskingAt(s, c.chid) && c.action == CAccept
    requires c.id1 in s.users && c.id2 in s.users && c.key == s.users[c.id2].key
    ensures HandleChallenge(s, fd, c, draws, r) == AcceptChallenge(s, fd, c, r)
  {
  }

  lemma AcceptStarts(s: State, fd: nat, c: ChallengeMsg, r: Rolls)
    requires AskingAt(s, c.chid) && AllHealthy(s.chs)
    requires c.id1 in s.users && s.users[c.id1].state == Online && c.id2 in s.users && s.users[c.id2].state == Online
    ensures var o := AcceptChallenge(s, fd, c, r); o.Next? ==> StartedAt(o.s, c.chid)
  {
    assert Healthy(s.chs[c.chid]);
    StaysOpen(Begun(s.chs[c.chid]), r.damage);
  }

  lemma StaysOpen(ch: Challenge, damage: nat)
    requires ch.turnNo == 0 && ch.hp1 > 0 && ch.hp2 > 0
    ensures var ch' := Advance(ch, damage); Decide(ch', -1) == Undecided && ch'.state == ch.state
  {
  }

  /** An accept between two users who are free answers the user it names first as user 1. */
  lemma AnswerIsSent(s: State, fd: nat, c: ChallengeMsg, r: Rolls)
    requires AskingAt(s, c.chid)
    requires c.id1 in s.users && s.users[c.id1].state == Online && c.id2 in s.users && s.users[c.id2].state == Online
    ensures
      var o := AcceptChallenge(s, fd, c, r);
      o.Next? ==> Sent(s.users[c.id1].fd, Reply(c, MeOk, true)) in o.s.out
  {
    var t := Engage(s, c);
    assert Sent(t.users[c.id1].fd, Reply(c, MeOk, true)) in t.out;
    var o := JudgeTurn(t, c.chid, -1, r);
    if o.Next? {
      JudgeAppends(t, c.chid, -1, r);
    }
  }

  lemma JudgeAppends(s: State, k: nat, loser: int, r: Rolls)
    requires k in s.chs && JudgeTurn(s, k, loser, r).Next?
    ensures s.out <= JudgeTurn(s, k, loser, r).s.out
  {
  }

  // ---- exactly the right accepts ----

  lemma {:induction false} SentIsLogged(out: seq<Sent>, x: Sent)
    requires x in out
    ensures x.msg in Log(out, x.fd)
    decreases |out|
  {
    var last := out[|out| - 1];
    if x == last {
    } else {
      assert out == out[..|out| - 1] + [last];
      SentIsLogged(out[..|out| - 1], x);
    }
  }

  /** An answer that fits names the pair its chid was created for. */
  lemma {:induction false} FitsNamesPair(h: History, p: nat, o: MaybeChid, ms: seq<Msg>, m: Msg)
    requires FitsAll(h, p, o, ms) && m in ms && m.ChallengeR? && m.error == MeOk
    ensures m.chid in h.pairs && h.pairs[m.chid] == (m.id1, m.id2)
    decreases |ms|
  {
    if m == ms[0] {
    } else {
      assert ms == [ms[0]] + ms[1..];
      FitsNamesPair(h, p, Shift(o, ms[0]), ms[1..], m);
    }
  }

  lemma WrongAccept(s: State, fd: nat, c: ChallengeMsg, r: Rolls)
    requires Inv(s) && Remembered(s) && AskingAt(s, c.chid) && !NamesPair(s.chs[c.chid], c)
    requires c.id1 in s.users && s.users[c.id1].state == Online && c.id2 in s.users && s.users[c.id2].state == Online
    ensures
      var o := AcceptChallenge(s, fd, c, r);
      o.Next? ==> !Traced(o.s, c.id1)
  {
    var o := AcceptChallenge(s, fd, c, r);
    if o.Next? {
      var m := Reply(c, MeOk, true);
      assert Fine(c.id1, s.users[c.id1]);
      AnswerIsSent(s, fd, c, r);
      SentIsLogged(o.s.out, Sent(c.id1, m));
      SamePairs(s, fd, c, r);
      assert s.hist.pairs[c.chid] == (s.chs[c.chid].user1, s.chs[c.chid].user2);
      if Traced(o.s, c.id1) {
        FitsNamesPair(o.s.hist, c.id1, NoChid, Log(o.s.out, c.id1), m);
      }
    }
  }

  lemma SamePairs(s: State, fd: nat, c: ChallengeMsg, r: Rolls)
    requires c.id1 in s.users && c.id2 in s.users && c.chid in s.chs
    ensures var o := AcceptChallenge(s, fd, c, r); o.Next? ==> o.s.hist.pairs == s.hist.pairs
  {
  }

  lemma RightAccept(s: State, fd: nat, c: ChallengeMsg, r: Rolls, p: nat)
    requires Inv(s) && Remembered(s) && AskingAt(s, c.chid) && NamesPair(s.chs[c.chid], c) && Traced(s, p)
    requires c.id1 in s.users && s.users[c.id1].state == Online && c.id2 in s.users && s.users[c.id2].state == Online
    ensures var o := AcceptChallenge(s, fd, c, r); o.Next? && Inv(o.s) && Traced(o.s, p)
  {
    assert s.chs[c.chid].user1 != s.chs[c.chid].user2 && Healthy(s.chs[c.chid]);
    AcceptIsPlan(s, fd, c, r);
    AcceptKeeps(s, fd, c, r);
    var t := Do(s, Begin(c));
    assert [Begin(c), Judge(c.chid, -1, r)][1..] == [Judge(c.chid, -1, r)];
    AllOne(t, Judge(c.chid, -1, r));
    MoveTraces(s, Begin(c), p);
    MoveTraces(t, Judge(c.chid, -1, r), p);
  }

  /** An accept keeps what every connection's messages promise exactly when it names the challenge's pair in order: the
      challenger first, who is answered as user 1, and then the challenged user, whose key it shows. */
  lemma AcceptTracedExactly(s: State, fd: nat, c: ChallengeMsg, r: Rolls)
    requires Inv(s) && Remembered(s) && AskingAt(s, c.chid) && (forall p: nat :: Traced(s, p))
    requires c.id1 in s.users && s.users[c.id1].state == Online && c.id2 in s.users && s.users[c.id2].state == Online
    ensures
      var o := AcceptChallenge(s, fd, c, r);
      (o.Next? && Inv(o.s) && forall p: nat :: Traced(o.s, p)) <==> NamesPair(s.chs[c.chid], c)
  {
    var o := AcceptChallenge(s, fd, c, r);
    if NamesPair(s.chs[c.chid], c) {
      RightAccept(s, fd, c, r, 0);
      forall p: nat
        ensures Traced(o.s, p)
      {
        RightAccept(s, fd, c, r, p);
      }
    } else {
      WrongAccept(s, fd, c, r);
    }
  }
}
