/** Leaving, joining, and what they leave alone. */
module Leaving {
  import opened Protocol
  import opened ServerSpec
  import opened Invariants
  import opened Moves

  /** The other user of a challenge. */
  function Opponent(ch: Challenge, id: nat): nat {
    if id == ch.user1 then ch.user2 else ch.user1
  }

  /** Judging against a user who leaves: its opponent wins, wherever the hit points stand. */
  lemma JudgeAgainst(s: State, id: nat, r: Rolls)
    requires Inv(s) && id in s.users && s.users[id].state == Battling
    ensures s.users[id].chid in s.chs
    ensures
      var k := s.users[id].chid;
      var other := Opponent(s.chs[k], id);
      var o := JudgeTurn(s, k, id, r);
      && other != id && other in s.users && s.users[other].state == Battling && s.users[other].chid == k
      && o.Next? && o.s.chs == s.chs - {k}
      && o.s.users == s.users[id := Lost(s.users[id], r.penalty % 4)][other := Won(s.users[other], r.bonus % 4 + 1)]
  {
    var k := s.users[id].chid;
    BattlerHasFight(s.users, s.chs, id);
    FightHasBoth(s.users, s.chs, k);
    assert Healthy(s.chs[k]);
    JudgeShape(s, k, id, r);
    SettleAgainst(s.users, s.chs[k], id, r);
  }

  lemma SettleAgainst(users: map<nat, User>, ch: Challenge, id: nat, r: Rolls)
    requires ch.user1 in users && ch.user2 in users && ch.user1 != ch.user2 && (id == ch.user1 || id == ch.user2)
    ensures
      var other := Opponent(ch, id);
      && Decide(Advance(ch, r.damage), id) == Decided(other)
      && Settle(users, ch.user1, ch.user2, other, r)
           == users[id := Lost(users[id], r.penalty % 4)][other := Won(users[other], r.bonus % 4 + 1)]
  {
  }

  /** Back online, with one more win and `points` more points. */
  function Rewarded(u: User, points: nat): User {
    u.(state := Online, wins := u.wins + 1, score := u.score + points)
  }

  /** Leaving, by quit or by disconnecting, is safe from any state: the user is gone; a battle it was in is over, with
      its opponent back online and credited with the win and 1 to 4 points; nothing else changes. */
  lemma LeavingIsSafe(s: State, id: nat, r: Rolls)
    requires Inv(s) && id in s.users
    ensures
      var o := QuitUser(s, id, r);
      && o.Next? && id !in o.s.users
      && if s.users[id].state == Battling then
           s.users[id].chid in s.chs &&
           var k := s.users[id].chid;
           var other := Opponent(s.chs[k], id);
           && other in s.users && s.chs[k].state == Started && o.s.chs == s.chs - {k}
           && o.s.users == (s.users - {id})[other := Rewarded(s.users[other], r.bonus % 4 + 1)]
         else
           o.s.chs == s.chs && o.s.users == s.users - {id}
  {
    if s.users[id].state == Battling {
      BattlerHasFight(s.users, s.chs, id);
      JudgeAgainst(s, id, r);
      var t := JudgeTurn(s, s.users[id].chid, id, r).s;
      BattlerGone(s, t, id, Opponent(s.chs[s.users[id].chid], id), r);
      assert QuitUser(s, id, r) == Next(Leave(t, id));
    }
  }

  lemma BattlerGone(s: State, t: State, id: nat, other: nat, r: Rolls)
    requires id in s.users && other in s.users && other != id && s.users[other].state == Battling
    requires t.users == s.users[id := Lost(s.users[id], r.penalty % 4)][other := Won(s.users[other], r.bonus % 4 + 1)]
    ensures id in t.users && t.users.Keys == s.users.Keys
    ensures
      Leave(t, id).users == (s.users - {id})[other := Rewarded(s.users[other], r.bonus % 4 + 1)]
    ensures Leave(t, id).chs == t.chs
  {
    WonBattle(s.users[other], r.bonus % 4 + 1);
    DropLoser(s.users, id, other, Lost(s.users[id], r.penalty % 4), Won(s.users[other], r.bonus % 4 + 1));
  }

  lemma WonBattle(u: User, bonus: nat)
    requires u.state == Battling
    ensures Won(u, bonus) == Rewarded(u, bonus)
  {
  }

  lemma DropLoser(users: map<nat, User>, id: nat, other: nat, lost: User, won: User)
    requires id in users && other in users && id != other
    ensures users[id := lost][other := won] - {id} == (users - {id})[other := won]
  {
  }

  /** Once a user has left, its connection's end and a second quit change nothing. */
  lemma LeftForGood(s: State, id: nat, r: Rolls, key: nat, r': Rolls)
    requires Inv(s) && id in s.users
    ensures
      var o := QuitUser(s, id, r);
      && o.Next?
      && HandleDisconnect(o.s, s.users[id].fd, r') == Next(o.s)
      && HandleQuit(o.s, id, key, r') == Next(o.s)
  {
    LeavingIsSafe(s, id, r);
    QuitKeeps(s, id, r);
    assert Fine(id, s.users[id]);
    FdsAreIds(QuitUser(s, id, r).s.users, id);
  }

  /** A join on a fresh connection either registers exactly the newcomer, under the connection's own number, or reports
      an error to the connection and changes nothing else. */
  lemma JoinAllOrNothing(s: State, fd: nat, nick: Nick, key: nat, garbage: nat)
    requires Inv(s) && 0 < fd < ID_MODULUS && fd !in Fds(s.users)
    ensures
      var err := JoinError(s, nick, garbage);
      var o := HandleJoin(s, fd, nick, key, garbage);
      && o.Next? && o.s.chs == s.chs && o.s.hist == s.hist
      && (err == MeOk <==> |s.users| < MAX_USER_COUNT && garbage !in Fds(s.users) && !NickTaken(s.users, nick))
      && if err == MeOk then o.s.users == s.users[fd := NewUser(fd, nick, key)]
         else o.s == s.(out := s.out + [Sent(fd, JoinR(nick, err, 0, 0))])
  {
    FreeFdIsFreeId(s.users, fd);
    if JoinError(s, nick, garbage) == MeOk {
      JoinShape(s, fd, nick, key, garbage);
    }
    forall j | j in s.users
      ensures j != 0
    {
      assert Fine(j, s.users[j]);
    }
  }
}
