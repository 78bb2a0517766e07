/** What the client does with each message and each key, as functions on values (client/client.c). */
module ClientSpec {
  import opened Protocol

  /** One row of the client's copy of the user table; the id is the key it is filed under. */
  datatype Row = Row(nick: Nick, state: UserState, score: int)

  datatype Waiting = WNone | WCancel | WAccept

  /** Where the user interface is: typing a nickname, waiting for JOIN_R, in ui_main, or returned from it. */
  datatype Phase = Typing | Joining | Playing | Ended

  /** The part of game_state_t and of ui_main's locals that messages and keys change. */
  datatype Player = Player(phase: Phase, id: nat, key: nat, chid: nat, opponentId: nat, isUser1: bool, acted: bool,
                           turnNo: nat, state: UserState, waiting: Waiting, hp: int, maxHp: int,
                           opponentHp: int, opponentMaxHp: int, table: map<nat, Row>)

  /** The command that the focused menu makes of a key. */
  datatype Command = Nothing | ChallengeUser(id: nat) | BattleAct(action: nat) | GoAway

  /** Before joining; game_state_init leaves `acted` unset and `acted` is taken to start out true. */
  const NEWCOMER := Player(Typing, 0, 0, 0, 0, false, true, 0, Offline, WNone, 0, 0, 0, 0, map[])

  // ---- the copy of the user table ----

  /** The table, the client's own state, and whether the client has not been told to go. */
  datatype View = View(table: map<nat, Row>, state: UserState, live: bool)

  function FiledRow(table: map<nat, Row>, e: Entry): map<nat, Row> {
    if e.state == Offline then table - {e.id} else table[e.id := Row(e.nick, e.state, e.score)]
  }

  function Absorb(me: nat, v: View, e: Entry): View {
    if !v.live then v
    else if e.id == me && e.state == Offline then v.(live := false)
    else View(FiledRow(v.table, e), if e.id == me then e.state else v.state, true)
  }

  function AbsorbAll(me: nat, v: View, es: seq<Entry>): View
    decreases |es|
  {
    if es == [] then v else AbsorbAll(me, Absorb(me, v, es[0]), es[1..])
  }

  lemma {:induction false} AbsorbAppend(me: nat, v: View, a: seq<Entry>, b: seq<Entry>)
    ensures AbsorbAll(me, v, a + b) == AbsorbAll(me, AbsorbAll(me, v, a), b)
    decreases |a|
  {
    if a == [] {
      assert a + b == b;
    } else {
      assert (a + b)[1..] == a[1..] + b;
      AbsorbAppend(me, Absorb(me, v, a[0]), a[1..], b);
    }
  }

  /** Once told to go, the client absorbs nothing. */
  lemma {:induction false} DeadAbsorbs(me: nat, v: View, es: seq<Entry>)
    requires !v.live
    ensures AbsorbAll(me, v, es) == v
    decreases |es|
  {
    if es == [] {
    } else {
      DeadAbsorbs(me, v, es[1..]);
    }
  }

  // ---- messages ----

  function LookOf(c: Player): View {
    View(c.table, c.state, c.phase == Playing)
  }

  function TurnReceived(c: Player, m: Msg): Player
    requires m.TurnR?
  {
    var d := if c.isUser1 then c.(hp := m.hp1, maxHp := m.maxhp1, opponentHp := m.hp2, opponentMaxHp := m.maxhp2)
             else c.(hp := m.hp2, maxHp := m.maxhp2, opponentHp := m.hp1, opponentMaxHp := m.maxhp1);
    if m.fin then d.(acted := true) else d.(turnNo := m.turnNo, acted := false)
  }

  function Answered(c: Player, m: Msg): Player
    requires m.ChallengeR?
  {
    if m.error == MeOk then
      c.(waiting := WNone, isUser1 := m.isId1, opponentId := if m.isId1 then m.id2 else m.id1,
         acted := true, chid := m.chid, state := Battling)
    else c.(waiting := WNone)
  }

  function Changed(c: Player, es: seq<Entry>): Player {
    var v := AbsorbAll(c.id, LookOf(c), es);
    c.(table := v.table, state := v.state, phase := if v.live then c.phase else Ended)
  }

  /** The player after message `m`, and what the client sends because of it. */
  function Received(c: Player, m: Msg): (Player, seq<Request>) {
    if c.phase == Joining then
      if !m.JoinR? then (c, [])
      else if m.error != MeOk then (c.(phase := Typing), [])
      else (NEWCOMER.(phase := Playing, id := m.id, key := m.key), [])
    else if c.phase == Playing then
      match m
      case JoinR(nick, error, id, key) => (c, [])
      case UChange(users) =>
        var d := Changed(c, users);
        (d, if d.phase == Ended then [Quit(c.id, c.key)] else [])
      case Relay(ch) =>
        if ch.action != CStart then (c, [])
        else if c.waiting == WNone then (c.(waiting := WAccept, chid := ch.chid, opponentId := ch.id1), [])
        else (c, [Ask(ChallengeMsg(ch.id1, ch.id2, c.key, ch.chid, CReject))])
      case ChallengeR(error, id1, id2, chid, isId1) => (Answered(c, m), [])
      case TurnR(battle, turnNo, action1, action2, winner, hp1, hp2, maxhp1, maxhp2, fin) => (TurnReceived(c, m), [])
    else (c, [])
  }

  // ---- keys ----

  /** The player after key `k`, for which the focused menu would issue `cmd`, and what the client sends. */
  function Pressed(c: Player, k: char, cmd: Command): (Player, seq<Request>) {
    if c.phase != Playing then (c, [])
    else if c.waiting == WCancel then
      (c.(waiting := WNone), [Ask(ChallengeMsg(c.id, c.opponentId, c.key, 0, CCancel))])
    else if c.waiting == WAccept then
      if k == 'y' || k == 'Y' then
        (c.(waiting := WNone), [Ask(ChallengeMsg(c.opponentId, c.id, c.key, c.chid, CAccept))])
      else if k == 'n' || k == 'N' then
        (c.(waiting := WNone), [Ask(ChallengeMsg(c.opponentId, c.id, c.key, c.chid, CReject))])
      else (c, [])
    else
      match cmd
      case Nothing => (c, [])
      case ChallengeUser(id) =>
        if id == c.id then (c, [])
        else (c.(waiting := WCancel), [Ask(ChallengeMsg(c.id, id, c.key, 0, CStart))])
      case BattleAct(action) =>
        if c.state != Battling || c.acted then (c, [])
        else (c.(acted := true), [Act(TurnMsg(c.id, c.chid, c.key, c.turnNo, action))])
      case GoAway => (c.(phase := Ended), [Quit(c.id, c.key)])
  }

  /** The player who has typed a nickname, and the JOIN. */
  function LoggedIn(c: Player, nick: Nick): (Player, seq<Request>) {
    if c.phase == Typing then (c.(phase := Joining), [Join(nick)]) else (c, [])
  }

  // ---- what is shown ----

  datatype Banner = Blank | Victory | Defeat | LastTurn(res: TurnResult)

  /** The line shown for a TURN_R. */
  function Shown(c: Player, m: Msg): Banner
    requires m.TurnR?
  {
    if m.fin then (if c.id == m.winner then Victory else Defeat)
    else if m.turnNo > 1 then
      LastTurn(if c.isUser1 then TurnOutcome(m.action1, m.action2) else TurnOutcome(m.action2, m.action1))
    else Blank
  }
}
