/** The packet handler's state and handlers, updated in place (server/server.c).
    `user_by_fd` and `user_by_nick` hold the id of the record that the C tree points to. A handler returns
    `alive` == false when a C assert fails or a null pointer is dereferenced. */
module Server {
  import opened Protocol
  import opened Walk
  import opened ServerSpec

  /** The three user trees file the same users, each under its own key. */
  ghost predicate Indexed(users: map<nat, User>, byFd: map<nat, nat>, byNick: map<NickKey, nat>) {
    && (forall id | id in users ::
          && users[id].fd in byFd && byFd[users[id].fd] == id
          && FoldNick(users[id].nick) in byNick && byNick[FoldNick(users[id].nick)] == id)
    && (forall fd | fd in byFd :: byFd[fd] in users && users[byFd[fd]].fd == fd)
    && (forall n | n in byNick :: byNick[n] in users && FoldNick(users[byNick[n]].nick) == n)
  }

  lemma IndexFds(users: map<nat, User>, byFd: map<nat, nat>, byNick: map<NickKey, nat>)
    requires Indexed(users, byFd, byNick)
    ensures forall fd: nat :: fd in Fds(users) <==> fd in byFd
  {
    forall fd: nat | fd in byFd
      ensures fd in Fds(users)
    {
      assert users[byFd[fd]].fd == fd;
    }
  }

  lemma IndexNicks(users: map<nat, User>, byFd: map<nat, nat>, byNick: map<NickKey, nat>, nick: Nick)
    requires Indexed(users, byFd, byNick)
    ensures NickTaken(users, nick) <==> FoldNick(nick) in byNick
  {
  }

  lemma IndexOwner(users: map<nat, User>, byFd: map<nat, nat>, byNick: map<NickKey, nat>, fd: nat)
    requires Indexed(users, byFd, byNick) && fd in byFd
    ensures Owners(users, fd) == {byFd[fd]} && Least(Owners(users, fd)) == byFd[fd]
  {
    assert Owners(users, fd) == {byFd[fd]};
  }

  lemma SameKeysIndexed(users: map<nat, User>, users': map<nat, User>, byFd: map<nat, nat>, byNick: map<NickKey, nat>)
    requires Indexed(users, byFd, byNick) && SameKeys(users, users')
    ensures Indexed(users', byFd, byNick)
  {
  }

  lemma IndexedAdd(users: map<nat, User>, byFd: map<nat, nat>, byNick: map<NickKey, nat>, id: nat, u: User)
    requires Indexed(users, byFd, byNick)
    requires id !in users && u.fd !in byFd && FoldNick(u.nick) !in byNick
    ensures Indexed(users[id := u], byFd[u.fd := id], byNick[FoldNick(u.nick) := id])
  {
  }

  lemma IndexedRemove(users: map<nat, User>, byFd: map<nat, nat>, byNick: map<NickKey, nat>, id: nat)
    requires Indexed(users, byFd, byNick) && id in users
    ensures Indexed(users - {id}, byFd - {users[id].fd}, byNick - {FoldNick(users[id].nick)})
  {
  }

  lemma RemoveOne(users: map<nat, User>, id: nat)
    requires id in users
    ensures |users - {id}| == |users| - 1
  {
    assert users.Keys == (users - {id}).Keys + {id};
  }

  lemma AddOne(users: map<nat, User>, id: nat, u: User)
    requires id !in users
    ensures |users[id := u]| == |users| + 1
  {
    assert users[id := u].Keys == users.Keys + {id};
  }

  class GameServer {
    var userById: map<nat, User>
    var userByFd: map<nat, nat>
    var userByNick: map<NickKey, nat>
    var chById: map<nat, Challenge>
    var userCnt: nat
    var out: seq<Sent>
    ghost var hist: History

    ghost predicate Valid()
      reads `userById, `userByFd, `userByNick, `userCnt, `chById
    {
      Indexed(userById, userByFd, userByNick) && userCnt == |userById| && TwoSided(chById)
    }

    ghost function St(): State
      reads `userById, `chById, `out, `hist
    {
      State(userById, chById, out, hist)
    }

    /** model_init. */
    constructor ()
      ensures Valid() && St() == INITIAL
    {
      userById, userByFd, userByNick, chById := map[], map[], map[], map[];
      userCnt, out, hist := 0, [], INITIAL.hist;
    }

    // ---- sending ----

    method MsgSend(fd: nat, m: Msg)
      modifies `out
      ensures out == old(out) + [Sent(fd, m)]
    {
      out := out + [Sent(fd, m)];
    }

    /** The MSG_TO_ALL walk: `m` goes once to every user except the one on `exceptFd`. */
    method BroadcastExcept(m: Msg, exceptFd: int)
      modifies `out
      ensures out == old(out) + Broadcast(userById, exceptFd, m)
    {
      var ids := Sorted(userById.Keys);
      SortedWithin(userById.Keys);
      var i := 0;
      while i < |ids|
        invariant i <= |ids|
        invariant out + Fan(userById, ids[i..], exceptFd, m) == old(out) + Fan(userById, ids, exceptFd, m)
      {
        FanStep(out, userById, ids, i, exceptFd, m);
        var user := userById[ids[i]];
        if user.fd != exceptFd {
          MsgSend(user.fd, m);
        }
        i := i + 1;
      }
    }

    /** The ALL_TO_ONE walk: every user's row goes to `toFd`; a full batch is sent and a new one begun. */
    method SendSnapshot(toFd: nat)
      modifies `out
      ensures out == old(out) + To(toFd, Snapshot(userById))
    {
      var ids := Sorted(userById.Keys);
      SortedWithin(userById.Keys);
      SnapWalkIsSnapshot(out, toFd, userById, ids);
      var batch: seq<Entry> := [];
      var i := 0;
      while i < |ids|
        invariant i <= |ids|
        invariant SnapWalk(out, toFd, userById, batch, ids[i..]) == SnapWalk(old(out), toFd, userById, [], ids)
      {
        assert ids[i..][1..] == ids[i + 1..];
        var added, next := UChangeAddOrCreate(batch, EntryOf(ids[i], userById[ids[i]]));
        if !added {
          MsgSend(toFd, UChange(batch));
        }
        batch := next;
        i := i + 1;
      }
      if batch != [] {
        MsgSend(toFd, UChange(batch));
      }
    }

    /** broadcast_user_changes for two users. */
    method BroadcastPair(id1: nat, id2: nat)
      requires id1 in userById && id2 in userById
      modifies `out
      ensures out == old(out) + Broadcast(userById, -1, PairRows(userById, id1, id2))
    {
      BroadcastExcept(UChange([EntryOf(id1, userById[id1]), EntryOf(id2, userById[id2])]), -1);
    }

    // ---- battles ----

    method JudgeTurn(k: nat, loser: int, r: Rolls) returns (alive: bool)
      requires k in chById && Valid()
      modifies `userById, `chById, `out, `hist
      ensures alive <==> ServerSpec.JudgeTurn(old(St()), k, loser, r).Next?
      ensures alive ==> Valid() && St() == ServerSpec.JudgeTurn(old(St()), k, loser, r).s
    {
      ghost var users := userById;
      JudgeTurnFrame(St(), k, loser, r);
      alive := Judge(k, loser, r);
      if alive {
        SameKeysIndexed(users, userById, userByFd, userByNick);
      }
    }

    /** judge_turn. */
    method Judge(k: nat, loser: int, r: Rolls) returns (alive: bool)
      requires k in chById && chById[k].user1 != chById[k].user2
      modifies `userById, `chById, `out, `hist
      ensures alive <==> ServerSpec.JudgeTurn(old(St()), k, loser, r).Next?
      ensures alive ==> St() == ServerSpec.JudgeTurn(old(St()), k, loser, r).s
    {
      var ch := JudgedChallenge(chById[k], r.damage);
      chById := chById[k := ch];
      var fin, winner := FindWinner(ch, loser);
      var m := TurnR(k, ch.turnNo, ch.act1, ch.act2, winner, ch.hp1, ch.hp2, ch.maxhp1, ch.maxhp2, fin);
      if ch.user1 !in userById || ch.user2 !in userById {
        return false;
      }
      MsgSend(userById[ch.user1].fd, m);
      MsgSend(userById[ch.user2].fd, m);
      if fin {
        EndBattle(k, winner, r);
      }
      return true;
    }

    /** The end of a decided battle: scores, announcement, removal. */
    method EndBattle(k: nat, winner: nat, r: Rolls)
      requires k in chById && chById[k].user1 in userById && chById[k].user2 in userById
      requires chById[k].user1 != chById[k].user2
      modifies `userById, `chById, `out, `hist
      ensures St() == ServerSpec.EndBattle(old(St()), k, winner, r)
    {
      var ch := chById[k];
      Reward(ch.user1, ch.user2, winner, r);
      BroadcastPair(ch.user1, ch.user2);
      chById := chById - {k};
      hist := hist.(over := hist.over + 1);
    }

    /** The scores and states at the end of a battle. */
    method Reward(id1: nat, id2: nat, winner: nat, r: Rolls)
      requires id1 in userById && id2 in userById && id1 != id2
      modifies `userById
      ensures userById == Settle(old(userById), id1, id2, winner, r)
    {
      var bonus, penalty := r.bonus % 4 + 1, r.penalty % 4;
      var user1, user2 := userById[id1], userById[id2];
      if id1 == winner {
        user1 := user1.(score := user1.score + bonus, wins := user1.wins + 1);
        user2 := user2.(score := user2.score - penalty, losses := user2.losses + 1);
      } else {
        user2 := user2.(score := user2.score + bonus, wins := user2.wins + 1);
        user1 := user1.(score := user1.score - penalty, losses := user1.losses + 1);
      }
      if user1.state == Battling {
        user1 := user1.(state := Online);
      }
      if user2.state == Battling {
        user2 := user2.(state := Online);
      }
      userById := userById[id1 := user1][id2 := user2];
    }

    // ---- joining and leaving ----

    /** user_add up to the first tree insertion; the id retry loop searches for id 0 every time. */
    method CheckNewUser(nick: Nick, garbage: nat) returns (err: MsgErr)
      requires Valid()
      ensures err == JoinError(St(), nick, garbage)
    {
      IndexFds(userById, userByFd, userByNick);
      IndexNicks(userById, userByFd, userByNick, nick);
      if userCnt >= MAX_USER_COUNT {
        return TooManyUser;
      }
      if garbage in userByFd {
        return JoinTwice;
      }
      if FoldNick(nick) in userByNick {
        return DupNick;
      }
      for tries := 0 to 16
        invariant tries > 0 ==> 0 in userById
      {
        if 0 !in userById {
          return MeOk;
        }
      }
      return MeOther;
    }

    /** The three tree insertions of user_add; false when one of them finds another record in place. */
    method FileUser(id: nat, u: User) returns (alive: bool)
      requires Valid() && !NickTaken(userById, u.nick)
      modifies `userById, `userByFd, `userByNick, `userCnt
      ensures alive <==> id !in old(userById) && u.fd !in Fds(old(userById))
      ensures alive ==> Valid() && userById == old(userById)[id := u]
    {
      IndexFds(userById, userByFd, userByNick);
      IndexNicks(userById, userByFd, userByNick, u.nick);
      if id in userById || u.fd in userByFd {
        return false;
      }
      IndexedAdd(userById, userByFd, userByNick, id, u);
      AddOne(userById, id, u);
      userById := userById[id := u];
      userByFd := userByFd[u.fd := id];
      userByNick := userByNick[FoldNick(u.nick) := id];
      userCnt := userCnt + 1;
      return true;
    }

    method HandleJoin(fd: nat, nick: Nick, key: nat, garbage: nat) returns (alive: bool)
      requires Valid()
      modifies `userById, `userByFd, `userByNick, `userCnt, `out
      ensures alive <==> ServerSpec.HandleJoin(old(St()), fd, nick, key, garbage).Next?
      ensures alive ==> Valid() && St() == ServerSpec.HandleJoin(old(St()), fd, nick, key, garbage).s
    {
      var err := CheckNewUser(nick, garbage);
      if err != MeOk {
        MsgSend(fd, JoinR(nick, err, 0, 0));
        alive := true;
      } else {
        alive := Enlist(fd % ID_MODULUS, NewUser(fd, nick, key));
      }
    }

    /** A new user is filed and welcomed. */
    method Enlist(id: nat, u: User) returns (alive: bool)
      requires Valid() && !NickTaken(userById, u.nick)
      modifies `userById, `userByFd, `userByNick, `userCnt, `out
      ensures alive <==> id !in old(userById) && u.fd !in Fds(old(userById))
      ensures alive ==> Valid() && St() == Admit(old(St()), id, u)
    {
      alive := FileUser(id, u);
      if alive {
        Welcome(id, u, old(St()));
      }
    }

    /** The messages of a successful join. */
    method Welcome(id: nat, u: User, ghost was: State)
      requires userById == was.users[id := u] && chById == was.chs && out == was.out && hist == was.hist
      modifies `out
      ensures St() == Admit(was, id, u)
    {
      MsgSend(u.fd, JoinR(u.nick, MeOk, id, u.key));
      SendSnapshot(u.fd);
      BroadcastExcept(UChange([EntryOf(id, u)]), u.fd);
    }

    /** The deletions of user_del_and_destroy. Deleting from the tree by nickname asserts that the nickname is there;
        a connection that is not there is only logged. */
    method DeleteUser(id: nat) returns (alive: bool)
      requires id in userById && userCnt > 0
      modifies `userById, `userByFd, `userByNick, `userCnt
      ensures alive <==> FoldNick(old(userById)[id].nick) in old(userByNick)
      ensures alive ==>
                && userById == old(userById) - {id}
                && userByNick == old(userByNick) - {FoldNick(old(userById)[id].nick)}
                && userByFd == old(userByFd) - {old(userById)[id].fd}
                && userCnt == old(userCnt) - 1
    {
      var u := userById[id];
      userById := userById - {id};
      alive := FoldNick(u.nick) in userByNick;
      if alive {
        userByNick := userByNick - {FoldNick(u.nick)};
        userByFd := userByFd - {u.fd};
        userCnt := userCnt - 1;
      }
    }

    /** user_del_and_destroy: while the trees agree, its asserts hold and they go on agreeing. */
    method Unfile(id: nat) returns (alive: bool)
      requires Valid() && id in userById
      modifies `userById, `userByFd, `userByNick, `userCnt
      ensures alive && Valid() && userById == old(userById) - {id}
    {
      IndexedRemove(userById, userByFd, userByNick, id);
      RemoveOne(userById, id);
      alive := DeleteUser(id);
    }

    /** quit_user, which asserts that somebody is registered. */
    method QuitUser(id: nat, r: Rolls) returns (alive: bool)
      requires Valid() && id in userById
      modifies this
      ensures alive <==> ServerSpec.QuitUser(old(St()), id, r).Next?
      ensures alive ==> Valid() && St() == ServerSpec.QuitUser(old(St()), id, r).s
    {
      var u := userById[id];
      alive := userById != map[];
      if alive && u.state == Battling && u.chid in chById {
        JudgeTurnFrame(St(), u.chid, id, r);
        alive := JudgeTurn(u.chid, id, r);
      }
      if alive {
        alive := LeaveUser(id);
      }
    }

    /** Everybody, the leaving user included, is told that it is offline. */
    method Announce(id: nat)
      requires id in userById
      modifies `out, `hist
      ensures out == Leave(old(St()), id).out && hist == Leave(old(St()), id).hist
    {
      var u := userById[id];
      hist := hist.(pastWins := hist.pastWins + u.wins, pastLosses := hist.pastLosses + u.losses);
      BroadcastExcept(UChange([EntryOf(id, u.(state := Offline))]), -1);
    }

    /** The second half of quit_user: announce and delete. */
    method LeaveUser(id: nat) returns (alive: bool)
      requires Valid() && id in userById
      modifies `out, `userById, `userByFd, `userByNick, `userCnt, `hist
      ensures alive && Valid() && St() == Leave(old(St()), id)
    {
      Announce(id);
      alive := Unfile(id);
    }

    method HandleQuit(id: nat, key: nat, r: Rolls) returns (alive: bool)
      requires Valid()
      modifies this
      ensures alive <==> ServerSpec.HandleQuit(old(St()), id, key, r).Next?
      ensures alive ==> Valid() && St() == ServerSpec.HandleQuit(old(St()), id, key, r).s
    {
      if id !in userById || userById[id].key != key {
        return true;
      }
      alive := QuitUser(id, r);
    }

    method HandleDisconnect(fd: nat, r: Rolls) returns (alive: bool)
      requires Valid()
      modifies this
      ensures alive <==> ServerSpec.HandleDisconnect(old(St()), fd, r).Next?
      ensures alive ==> Valid() && St() == ServerSpec.HandleDisconnect(old(St()), fd, r).s
    {
      IndexFds(userById, userByFd, userByNick);
      if fd !in userByFd {
        return true;
      }
      IndexOwner(userById, userByFd, userByNick, fd);
      alive := QuitUser(userByFd[fd], r);
    }

    // ---- challenging and playing ----

    /** The id search of add_challenge: at most one random() per try. */
    method FindChid(draws: Draws) returns (k: MaybeChid)
      ensures k == FirstFree(draws, chById.Keys)
    {
      var i := 0;
      while i < |draws|
        invariant i <= |draws|
        invariant FirstFree(draws[i..], chById.Keys) == FirstFree(draws, chById.Keys)
      {
        assert draws[i..][1..] == draws[i + 1..];
        var id := draws[i] % ID_MODULUS;
        if id == 0 {
          id := 1;
        }
        if id !in chById {
          return Chid(id);
        }
        i := i + 1;
      }
      return NoChid;
    }

    method HandleChallenge(fd: nat, c: ChallengeMsg, draws: Draws, r: Rolls) returns (alive: bool)
      requires Valid()
      modifies this
      ensures alive <==> ServerSpec.HandleChallenge(old(St()), fd, c, draws, r).Next?
      ensures alive ==> Valid() && St() == ServerSpec.HandleChallenge(old(St()), fd, c, draws, r).s
    {
      ghost var users := userById;
      ChallengeFrame(St(), fd, c, draws, r);
      alive := ReceiveChallenge(fd, c, draws, r);
      if alive {
        SameKeysIndexed(users, userById, userByFd, userByNick);
      }
    }

    /** handle_challenge. */
    method ReceiveChallenge(fd: nat, c: ChallengeMsg, draws: Draws, r: Rolls) returns (alive: bool)
      requires TwoSided(chById)
      modifies `userById, `chById, `out, `hist
      ensures alive <==> ServerSpec.HandleChallenge(old(St()), fd, c, draws, r).Next?
      ensures alive ==> St() == ServerSpec.HandleChallenge(old(St()), fd, c, draws, r).s
    {
      alive := true;
      if c.id1 !in userById || c.id2 !in userById {
        MsgSend(fd, Reply(c, NxId, false));
        return;
      }
      if c.action == CInvalid {
        MsgSend(fd, Reply(c, InvArg, false));
        return;
      }
      var key := if c.action == CStart || c.action == CCancel then userById[c.id1].key else userById[c.id2].key;
      if key != c.key {
        MsgSend(fd, Reply(c, IcKey, false));
        return;
      }
      if c.action == CStart {
        alive := StartChallenge(fd, c, draws);
        return;
      }
      if c.action == CCancel {
        CancelChallenge(c);
        return;
      }
      if c.chid !in chById {
        MsgSend(fd, Reply(c, NxChid, false));
        return;
      }
      if chById[c.chid].state == Started {
        return;
      }
      if c.action == CAccept {
        alive := AcceptChallenge(fd, c, r);
      } else {
        RejectChallenge(c);
      }
    }

    method StartChallenge(fd: nat, c: ChallengeMsg, draws: Draws) returns (alive: bool)
      requires TwoSided(chById) && c.id1 in userById && c.id2 in userById
      modifies `userById, `chById, `out, `hist
      ensures alive <==> ServerSpec.StartChallenge(old(St()), fd, c, draws).Next?
      ensures alive ==> St() == ServerSpec.StartChallenge(old(St()), fd, c, draws).s
    {
      var user1, user2 := userById[c.id1], userById[c.id2];
      if user1.state != Online || user2.state != Online {
        MsgSend(fd, Reply(c, Engaged, false));
        return true;
      }
      if c.id1 == c.id2 {
        MsgSend(fd, Reply(c, ChlSelf, false));
        return true;
      }
      var k := FindChid(draws);
      if k.NoChid? {
        return false;
      }
      chById := chById[k.k := NewChallenge(c.id1, c.id2)];
      hist := hist.(pairs := hist.pairs[k.k := (c.id1, c.id2)]);
      userById := userById[c.id1 := user1.(chid := k.k)];
      MsgSend(user2.fd, Relay(c.(chid := k.k)));
      return true;
    }

    method CancelChallenge(c: ChallengeMsg)
      requires TwoSided(chById) && c.id1 in userById
      modifies `userById, `chById, `out, `hist
      ensures St() == ServerSpec.CancelChallenge(old(St()), c)
    {
      var user1 := userById[c.id1];
      if user1.state == Online && user1.chid in chById {
        var ch := chById[user1.chid];
        if ch.state == Asking && ch.user1 == c.id1 {
          userById := userById[c.id1 := user1.(chid := 0)];
          chById := chById - {user1.chid};
          if ch.user2 in userById {
            MsgSend(userById[ch.user2].fd, Reply(c, Cancelled, false));
          }
        }
      }
    }

    method AcceptChallenge(fd: nat, c: ChallengeMsg, r: Rolls) returns (alive: bool)
      requires TwoSided(chById) && c.id1 in userById && c.id2 in userById && c.chid in chById
      modifies `userById, `chById, `out, `hist
      ensures alive <==> ServerSpec.AcceptChallenge(old(St()), fd, c, r).Next?
      ensures alive ==> St() == ServerSpec.AcceptChallenge(old(St()), fd, c, r).s
    {
      if userById[c.id1].state != Online || userById[c.id2].state != Online {
        MsgSend(fd, Reply(c, Engaged, false));
        return true;
      }
      Engage(c);
      alive := Judge(c.chid, -1, r);
    }

    /** Both users enter the battle, everyone is told, and both get their answer. */
    method Engage(c: ChallengeMsg)
      requires TwoSided(chById) && c.id1 in userById && c.id2 in userById && c.chid in chById
      modifies `userById, `chById, `out, `hist
      ensures St() == ServerSpec.Engage(old(St()), c)
    {
      chById := chById[c.chid := chById[c.chid].(state := Started, turnNo := 0)];
      userById := userById[c.id1 := userById[c.id1].(state := Battling, chid := c.chid)];
      userById := userById[c.id2 := userById[c.id2].(state := Battling, chid := c.chid)];
      BroadcastPair(c.id1, c.id2);
      MsgSend(userById[c.id1].fd, Reply(c, MeOk, true));
      MsgSend(userById[c.id2].fd, Reply(c, MeOk, false));
      hist := hist.(begun := hist.begun + {c.chid});
    }

    method RejectChallenge(c: ChallengeMsg)
      requires TwoSided(chById) && c.id1 in userById && c.chid in chById
      modifies `userById, `chById, `out, `hist
      ensures St() == ServerSpec.RejectChallenge(old(St()), c)
    {
      if chById[c.chid].user2 == c.id2 {
        MsgSend(userById[c.id1].fd, Reply(c, Rejected, false));
        chById := chById - {c.chid};
      }
    }

    method HandleTurn(t: TurnMsg, r: Rolls) returns (alive: bool)
      requires Valid()
      modifies this
      ensures alive <==> ServerSpec.HandleTurn(old(St()), t, r).Next?
      ensures alive ==> Valid() && St() == ServerSpec.HandleTurn(old(St()), t, r).s
    {
      if t.chid !in chById || t.user !in userById || userById[t.user].key != t.key {
        return true;
      }
      var ch := chById[t.chid];
      if t.user == ch.user1 && !ch.acted1 {
        ch := ch.(act1 := t.action, acted1 := true);
      } else if t.user == ch.user2 && !ch.acted2 {
        ch := ch.(act2 := t.action, acted2 := true);
      }
      chById := chById[t.chid := ch];
      if ch.acted1 && ch.acted2 {
        alive := JudgeTurn(t.chid, -1, r);
      } else {
        alive := true;
      }
    }

    /** The body of pkt_handler's loop. */
    method Handle(e: Event) returns (alive: bool)
      requires Valid()
      modifies this
      ensures alive <==> Step(old(St()), e).Next?
      ensures alive ==> Valid() && St() == Step(old(St()), e).s
    {
      match e
      case EvJoin(fd, nick, key, garbage) => alive := HandleJoin(fd, nick, key, garbage);
      case EvQuit(id, key, r) => alive := HandleQuit(id, key, r);
      case EvDisconnect(fd, r) => alive := HandleDisconnect(fd, r);
      case EvChallenge(fd, c, draws, r) => alive := HandleChallenge(fd, c, draws, r);
      case EvTurn(t, r) => alive := HandleTurn(t, r);
    }

    /** pkt_handler on the entries that the queue delivers, in order. */
    method HandleAll(es: seq<Event>) returns (alive: bool)
      requires Valid()
      modifies this
      ensures alive <==> Run(old(St()), es).Next?
      ensures alive ==> Valid() && St() == Run(old(St()), es).s
    {
      var i := 0;
      while i < |es|
        invariant i <= |es| && Valid()
        invariant Run(St(), es[i..]) == Run(old(St()), es)
      {
        assert es[i..][1..] == es[i + 1..];
        alive := Handle(es[i]);
        if !alive {
          return;
        }
        i := i + 1;
      }
      return true;
    }
  }

  /** The first half of judge_turn: number the turn, deal damage, clear the action flags. */
  method JudgedChallenge(was: Challenge, damage: nat) returns (ch: Challenge)
    ensures ch == Advance(was, damage)
  {
    ch := was;
    if ch.turnNo == 0 {
      ch := ch.(acted1 := false, acted2 := false, turnNo := 1);
    } else {
      ch := ch.(turnNo := (ch.turnNo + 1) % TURN_MODULUS);
    }
    if ch.acted1 && ch.acted2 {
      var hit := damage % 5 + 1;
      match TurnOutcome(ch.act1, ch.act2) {
        case Win => ch := ch.(hp2 := ch.hp2 - hit, hits := ch.hits + 1);
        case Lose => ch := ch.(hp1 := ch.hp1 - hit, hits := ch.hits + 1);
        case Even =>
      }
    }
    ch := ch.(acted1 := false, acted2 := false, turns := ch.turns + 1);
  }

  /** Who has won, if the battle is over. */
  method FindWinner(ch: Challenge, loser: int) returns (fin: bool, winner: nat)
    ensures Decide(ch, loser) == if fin then Decided(winner) else Undecided
    ensures !fin ==> winner == 0
  {
    fin, winner := true, 0;
    if loser == ch.user1 {
      winner := ch.user2;
    } else if loser == ch.user2 {
      winner := ch.user1;
    } else if ch.hp1 <= 0 {
      winner := ch.user2;
    } else if ch.hp2 <= 0 {
      winner := ch.user1;
    } else {
      fin := false;
    }
  }

  /** uchange_add_or_create: `next` is the message that now holds the row, a new one unless `added`. */
  method UChangeAddOrCreate(rows: seq<Entry>, row: Entry) returns (added: bool, next: seq<Entry>)
    ensures added <==> |rows| < UCHANGE_MAX_UCNT
    ensures next == if added then rows + [row] else [row]
  {
    added := |rows| < UCHANGE_MAX_UCNT;
    next := if added then rows + [row] else [row];
  }
}
