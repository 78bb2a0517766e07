/** The client's loop, as it runs: one object whose fields messages and keys update. */
module Client {
  import opened Protocol
  import opened ClientSpec

  class GameClient {
    var phase: Phase
    var id: nat
    var key: nat
    var chid: nat
    var opponentId: nat
    var isUser1: bool
    var acted: bool
    var turnNo: nat
    var state: UserState
    var waiting: Waiting
    var hp: int
    var maxHp: int
    var opponentHp: int
    var opponentMaxHp: int
    var userById: map<nat, Row>
    var userCnt: nat
    var sendQueue: seq<Request>

    /** The counter that sizes the item array of the user list counts the users in the table. */
    ghost predicate Valid()
      reads `userById, `userCnt
    {
      userCnt == |userById|
    }

    function St(): Player
      reads this
    {
      Player(phase, id, key, chid, opponentId, isUser1, acted, turnNo, state, waiting, hp, maxHp,
             opponentHp, opponentMaxHp, userById)
    }

    constructor ()
      ensures Valid() && St() == NEWCOMER && sendQueue == []
    {
      phase, id, key, chid, opponentId, isUser1, acted := Typing, 0, 0, 0, 0, false, true;
      turnNo, state, waiting, hp, maxHp, opponentHp, opponentMaxHp := 0, Offline, WNone, 0, 0, 0, 0;
      userById, userCnt, sendQueue := map[], 0, [];
    }

    method Send(r: Request)
      modifies `sendQueue
      ensures sendQueue == old(sendQueue) + [r]
    {
      sendQueue := sendQueue + [r];
    }

    // ---- the login screen ----

    method Login(nick: Nick)
      requires phase == Typing
      modifies `phase, `sendQueue
      ensures St() == LoggedIn(old(St()), nick).0
      ensures sendQueue == old(sendQueue) + LoggedIn(old(St()), nick).1
    {
      Send(Join(nick));
      phase := Joining;
    }

    /** The start of ui_main. */
    method Begin(m: Msg)
      requires m.JoinR? && m.error == MeOk
      modifies this
      ensures Valid() && sendQueue == old(sendQueue)
      ensures St() == NEWCOMER.(phase := Playing, id := m.id, key := m.key)
    {
      Reset();
      phase, id, key, userById, userCnt := Playing, m.id, m.key, map[], 0;
    }

    /** game_state_init, apart from the user. */
    method Reset()
      modifies `chid, `opponentId, `isUser1, `acted, `turnNo, `state, `waiting, `hp, `maxHp, `opponentHp, `opponentMaxHp
      ensures chid == opponentId == turnNo == 0 && !isUser1 && acted && state == Offline && waiting == WNone
      ensures hp == maxHp == opponentHp == opponentMaxHp == 0
    {
      chid, opponentId, isUser1, acted, turnNo := 0, 0, false, true, 0;
      state, waiting, hp, maxHp, opponentHp, opponentMaxHp := Offline, WNone, 0, 0, 0, 0;
    }

    // ---- messages ----

    /** One changed user: deleted, updated, or added and counted. */
    method FileUser(e: Entry)
      requires Valid()
      modifies `userById, `userCnt
      ensures Valid() && userById == FiledRow(old(userById), e)
    {
      if e.state == Offline {
        if e.id in userById {
          assert userById.Keys == (userById - {e.id}).Keys + {e.id};
          assert userCnt > 0;
          userById := userById - {e.id};
          userCnt := userCnt - 1;
        }
      } else if e.id in userById {
        assert userById[e.id := Row(e.nick, e.state, e.score)].Keys == userById.Keys;
        userById := userById[e.id := Row(e.nick, e.state, e.score)];
      } else {
        assert userById[e.id := Row(e.nick, e.state, e.score)].Keys == userById.Keys + {e.id};
        userById := userById[e.id := Row(e.nick, e.state, e.score)];
        userCnt := userCnt + 1;
      }
    }

    /** The loop over the rows of a UCHANGE; it stops when the client learns that it is offline. */
    method Change(es: seq<Entry>) returns (done: bool)
      requires Valid() && phase == Playing
      modifies `userById, `userCnt, `state
      ensures Valid()
      ensures View(userById, state, !done) == AbsorbAll(id, old(LookOf(St())), es)
    {
      done := false;
      var i := 0;
      while i < |es| && !done
        invariant 0 <= i <= |es| && Valid()
        invariant done ==> AbsorbAll(id, old(LookOf(St())), es) == View(userById, state, false)
        invariant !done ==> AbsorbAll(id, old(LookOf(St())), es) == AbsorbAll(id, View(userById, state, true), es[i..])
        decreases |es| - i, !done
      {
        assert es[i..][1..] == es[i + 1..];
        if es[i].id == id && es[i].state == Offline {
          DeadAbsorbs(id, View(userById, state, false), es[i + 1..]);
          done := true;
        } else {
          if es[i].id == id {
            state := es[i].state;
          }
          FileUser(es[i]);
          i := i + 1;
        }
      }
    }

    method ReceiveTurn(m: Msg)
      requires m.TurnR?
      modifies `hp, `maxHp, `opponentHp, `opponentMaxHp, `acted, `turnNo
      ensures St() == TurnReceived(old(St()), m)
    {
      if isUser1 {
        hp, maxHp, opponentHp, opponentMaxHp := m.hp1, m.maxhp1, m.hp2, m.maxhp2;
      } else {
        hp, maxHp, opponentHp, opponentMaxHp := m.hp2, m.maxhp2, m.hp1, m.maxhp1;
      }
      if m.fin {
        acted := true;
      } else {
        turnNo, acted := m.turnNo, false;
      }
    }

    method ReceiveChallenge(c: ChallengeMsg)
      modifies `waiting, `chid, `opponentId, `sendQueue
      requires phase == Playing
      ensures St() == Received(old(St()), Relay(c)).0
      ensures sendQueue == old(sendQueue) + Received(old(St()), Relay(c)).1
    {
      if c.action == CStart {
        if waiting == WNone {
          waiting, chid, opponentId := WAccept, c.chid, c.id1;
        } else {
          Send(Ask(ChallengeMsg(c.id1, c.id2, key, c.chid, CReject)));
        }
      }
    }

    method ReceiveAnswer(m: Msg)
      requires m.ChallengeR?
      modifies `waiting, `isUser1, `acted, `opponentId, `chid, `state
      ensures St() == Answered(old(St()), m)
    {
      waiting := WNone;
      if m.error == MeOk {
        if m.isId1 {
          opponentId, isUser1 := m.id2, true;
        } else {
          opponentId, isUser1 := m.id1, false;
        }
        acted, chid, state := true, m.chid, Battling;
      }
    }

    /** The message switch: of the login screen while it waits, of ui_main while it runs. */
    method Receive(m: Msg)
      requires Valid()
      modifies this
      ensures Valid()
      ensures St() == Received(old(St()), m).0
      ensures sendQueue == old(sendQueue) + Received(old(St()), m).1
    {
      if phase == Joining && m.JoinR? {
        if m.error == MeOk {
          Begin(m);
        } else {
          phase := Typing;
        }
      } else if phase == Playing {
        if m.UChange? {
          ReceiveChanges(m.users);
        } else {
          match m
          case Relay(c) => ReceiveChallenge(c);
          case ChallengeR(_, _, _, _, _) => ReceiveAnswer(m);
          case TurnR(_, _, _, _, _, _, _, _, _, _) => ReceiveTurn(m);
          case _ =>
        }
      }
    }

    method ReceiveChanges(es: seq<Entry>)
      requires Valid() && phase == Playing
      modifies `userById, `userCnt, `state, `phase, `sendQueue
      ensures Valid() && St() == Changed(old(St()), es)
      ensures sendQueue == old(sendQueue) + if phase == Ended then [Quit(id, key)] else []
    {
      var done := Change(es);
      if done {
        Done();
      }
    }

    /** The end of ui_main. */
    method Done()
      modifies `phase, `sendQueue
      ensures phase == Ended && sendQueue == old(sendQueue) + [Quit(id, key)]
    {
      Send(Quit(id, key));
      phase := Ended;
    }

    // ---- keys ----

    method Press(k: char, cmd: Command)
      requires phase == Playing
      modifies `waiting, `acted, `phase, `sendQueue
      ensures St() == Pressed(old(St()), k, cmd).0
      ensures sendQueue == old(sendQueue) + Pressed(old(St()), k, cmd).1
    {
      if waiting == WCancel {
        Send(Ask(ChallengeMsg(id, opponentId, key, 0, CCancel)));
        waiting := WNone;
      } else if waiting == WAccept {
        if k in "yYnN" {
          var action := if k in "yY" then CAccept else CReject;
          Send(Ask(ChallengeMsg(opponentId, id, key, chid, action)));
          waiting := WNone;
        }
      } else {
        match cmd
        case Nothing =>
        case ChallengeUser(other) =>
          if other != id {
            Send(Ask(ChallengeMsg(id, other, key, 0, CStart)));
            waiting := WCancel;
          }
        case BattleAct(action) =>
          if state == Battling && !acted {
            acted := true;
            Send(Act(TurnMsg(id, chid, key, turnNo, action)));
          }
        case GoAway => Done();
      }
    }
  }
}
