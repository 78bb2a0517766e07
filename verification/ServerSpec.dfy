/** What each server handler does, as functions on values (server/server.c).
    `Crash` is an outcome in which a C assert fails or a null pointer is dereferenced. */
module ServerSpec {
  import opened Protocol
  import opened Walk

  /** One registered user; the id is the key it is filed under. `wins` and `losses` are history. */
  datatype User = User(nick: Nick, fd: nat, key: nat, state: UserState, chid: nat, score: int,
                       wins: nat, losses: nat)

  /** One challenge. `turns` (judged turns) and `hits` (damaging turns) are history. */
  datatype Challenge = Challenge(user1: nat, user2: nat, turnNo: nat, acted1: bool, acted2: bool,
                                 act1: nat, act2: nat, hp1: int, hp2: int, maxhp1: int, maxhp2: int,
                                 state: ChState, turns: nat, hits: nat)

  /** History only: the pair each chid was created for, the chids that started a battle, the number of
      battles removed, and the wins and losses of users that left. */
  datatype History = History(pairs: map<nat, (nat, nat)>, begun: set<nat>, over: nat,
                             pastWins: nat, pastLosses: nat)

  /** One msg_send. */
  datatype Sent = Sent(fd: nat, msg: Msg)

  /** `out` is everything sent so far, oldest first. */
  datatype State = State(users: map<nat, User>, chs: map<nat, Challenge>, out: seq<Sent>, hist: History)

  datatype Outcome = Next(s: State) | Crash

  /** Raw results of random() for one judged turn. */
  datatype Rolls = Rolls(damage: nat, bonus: nat, penalty: nat)

  const INITIAL := State(map[], map[], [], History(map[], {}, 0, 0, 0))

  /** The fields that users are filed under are the same. */
  ghost predicate SameKeys(a: map<nat, User>, b: map<nat, User>) {
    a.Keys == b.Keys && forall id | id in a :: a[id].fd == b[id].fd && a[id].nick == b[id].nick
  }

  ghost predicate TwoSided(chs: map<nat, Challenge>) {
    forall k | k in chs :: chs[k].user1 != chs[k].user2
  }

  // ---- sending ----

  function To(fd: nat, ms: seq<Msg>): seq<Sent> {
    if ms == [] then [] else [Sent(fd, ms[0])] + To(fd, ms[1..])
  }

  /** The MSG_TO_ALL walk over `ids`; `exceptFd` is -1 when nobody is left out. */
  function Fan(users: map<nat, User>, ids: seq<nat>, exceptFd: int, m: Msg): seq<Sent> {
    if ids == [] then []
    else if ids[0] !in users || users[ids[0]].fd == exceptFd then Fan(users, ids[1..], exceptFd, m)
    else [Sent(users[ids[0]].fd, m)] + Fan(users, ids[1..], exceptFd, m)
  }

  lemma FanStep(before: seq<Sent>, users: map<nat, User>, ids: seq<nat>, i: nat, exceptFd: int, m: Msg)
    requires i < |ids| && ids[i] in users
    ensures before + Fan(users, ids[i..], exceptFd, m)
         == before + (if users[ids[i]].fd == exceptFd then [] else [Sent(users[ids[i]].fd, m)])
            + Fan(users, ids[i + 1..], exceptFd, m)
  {
    assert ids[i..][1..] == ids[i + 1..];
  }

  function Broadcast(users: map<nat, User>, exceptFd: int, m: Msg): seq<Sent> {
    Fan(users, Sorted(users.Keys), exceptFd, m)
  }

  function Fds(users: map<nat, User>): set<nat> {
    set id | id in users :: users[id].fd
  }

  function EntryOf(id: nat, u: User): Entry {
    Entry(id, u.nick, u.state, u.score)
  }

  /** The rows of an in-order walk of `user_by_id`. */
  function Rows(users: map<nat, User>, ids: seq<nat>): seq<Entry> {
    if ids == [] then []
    else (if ids[0] in users then [EntryOf(ids[0], users[ids[0]])] else []) + Rows(users, ids[1..])
  }

  /** The messages that carry `rows` with at most UCHANGE_MAX_UCNT rows each; none for no rows. */
  function Batches(rows: seq<Entry>): seq<Msg> {
    if rows == [] then []
    else if |rows| <= UCHANGE_MAX_UCNT then [UChange(rows)]
    else [UChange(rows[..UCHANGE_MAX_UCNT])] + Batches(rows[UCHANGE_MAX_UCNT..])
  }

  lemma BatchesStep(batch: seq<Entry>, row: Entry, rest: seq<Entry>)
    requires |batch| == UCHANGE_MAX_UCNT
    ensures Batches(batch + ([row] + rest)) == [UChange(batch)] + Batches([row] + rest)
  {
    var all := batch + ([row] + rest);
    assert all[..UCHANGE_MAX_UCNT] == batch && all[UCHANGE_MAX_UCNT..] == [row] + rest;
  }

  /** The ALL_TO_ONE walk over `ids` with `batch` pending; an empty batch is no message yet. */
  function SnapWalk(before: seq<Sent>, fd: nat, users: map<nat, User>, batch: seq<Entry>, ids: seq<nat>): seq<Sent>
    decreases |ids|
  {
    if ids == [] then before + (if batch == [] then [] else [Sent(fd, UChange(batch))])
    else if ids[0] !in users then SnapWalk(before, fd, users, batch, ids[1..])
    else
      var row := EntryOf(ids[0], users[ids[0]]);
      if |batch| < UCHANGE_MAX_UCNT then SnapWalk(before, fd, users, batch + [row], ids[1..])
      else SnapWalk(before + [Sent(fd, UChange(batch))], fd, users, [row], ids[1..])
  }

  lemma {:induction false} SnapWalkIsBatches(before: seq<Sent>, fd: nat, users: map<nat, User>, batch: seq<Entry>,
                                             ids: seq<nat>)
    requires |batch| <= UCHANGE_MAX_UCNT
    decreases |ids|
    ensures SnapWalk(before, fd, users, batch, ids) == before + To(fd, Batches(batch + Rows(users, ids)))
  {
    if ids == [] {
      assert batch + Rows(users, ids) == batch;
    } else if ids[0] !in users {
      SnapWalkIsBatches(before, fd, users, batch, ids[1..]);
      assert Rows(users, ids) == Rows(users, ids[1..]);
    } else {
      var row, rest := EntryOf(ids[0], users[ids[0]]), Rows(users, ids[1..]);
      if |batch| < UCHANGE_MAX_UCNT {
        SnapWalkIsBatches(before, fd, users, batch + [row], ids[1..]);
        assert (batch + [row]) + rest == batch + ([row] + rest);
      } else {
        SnapWalkIsBatches(before + [Sent(fd, UChange(batch))], fd, users, [row], ids[1..]);
        BatchesStep(batch, row, rest);
      }
    }
  }

  lemma SnapWalkIsSnapshot(before: seq<Sent>, fd: nat, users: map<nat, User>, ids: seq<nat>)
    ensures SnapWalk(before, fd, users, [], ids) == before + To(fd, Batches(Rows(users, ids)))
  {
    SnapWalkIsBatches(before, fd, users, [], ids);
    assert [] + Rows(users, ids) == Rows(users, ids);
  }

  function Snapshot(users: map<nat, User>): seq<Msg> {
    Batches(Rows(users, Sorted(users.Keys)))
  }

  // ---- joining and leaving ----

  predicate NickTaken(users: map<nat, User>, nick: Nick) {
    exists id | id in users :: FoldNick(users[id].nick) == FoldNick(nick)
  }

  /** The error of user_add. The candidate's fd field is uninitialised when `user_by_fd` is searched
      (`garbage`), and its id field is still 0 when `user_by_id` is searched. */
  function JoinError(s: State, nick: Nick, garbage: nat): MsgErr {
    if |s.users| >= MAX_USER_COUNT then TooManyUser
    else if garbage in Fds(s.users) then JoinTwice
    else if NickTaken(s.users, nick) then DupNick
    else if 0 in s.users then MeOther
    else MeOk
  }

  function NewUser(fd: nat, nick: Nick, key: nat): User {
    User(nick, fd, key, Online, 0, 0, 0, 0)
  }

  function HandleJoin(s: State, fd: nat, nick: Nick, key: nat, garbage: nat): Outcome {
    var err := JoinError(s, nick, garbage);
    var id := fd % ID_MODULUS;
    if err != MeOk then
      Next(s.(out := s.out + [Sent(fd, JoinR(nick, err, 0, 0))]))
    else if id in s.users || fd in Fds(s.users) then
      Crash
    else
      Next(Admit(s, id, NewUser(fd, nick, key)))
  }

  /** The user is filed under `id`, answered, shown everybody, and announced to everybody else. */
  function Admit(s: State, id: nat, u: User): State {
    var users := s.users[id := u];
    s.(users := users,
       out := s.out + [Sent(u.fd, JoinR(u.nick, MeOk, id, u.key))] + To(u.fd, Snapshot(users))
              + Broadcast(users, u.fd, UChange([EntryOf(id, u)])))
  }

  /** A challenge after judge_turn's bookkeeping: number, damage, cleared action flags. */
  function Advance(ch: Challenge, damage: nat): Challenge {
    var base := if ch.turnNo == 0 then ch.(acted1 := false, acted2 := false, turnNo := 1)
                else ch.(turnNo := (ch.turnNo + 1) % TURN_MODULUS);
    var hit := damage % 5 + 1;
    var judged :=
      if !(base.acted1 && base.acted2) then base
      else match TurnOutcome(base.act1, base.act2)
        case Win => base.(hp2 := base.hp2 - hit, hits := base.hits + 1)
        case Lose => base.(hp1 := base.hp1 - hit, hits := base.hits + 1)
        case Even => base;
    judged.(acted1 := false, acted2 := false, turns := judged.turns + 1)
  }

  datatype Verdict = Undecided | Decided(winner: nat)

  function Decide(ch: Challenge, loser: int): Verdict {
    if loser == ch.user1 then Decided(ch.user2)
    else if loser == ch.user2 then Decided(ch.user1)
    else if ch.hp1 <= 0 then Decided(ch.user2)
    else if ch.hp2 <= 0 then Decided(ch.user1)
    else Undecided
  }

  function TurnReport(k: nat, ch: Challenge, v: Verdict): Msg {
    TurnR(k, ch.turnNo, ch.act1, ch.act2, if v.Decided? then v.winner else 0,
          ch.hp1, ch.hp2, ch.maxhp1, ch.maxhp2, v.Decided?)
  }

  function Calm(u: User): User {
    if u.state == Battling then u.(state := Online) else u
  }

  function Won(u: User, bonus: nat): User {
    Calm(u.(score := u.score + bonus, wins := u.wins + 1))
  }

  function Lost(u: User, penalty: nat): User {
    Calm(u.(score := u.score - penalty, losses := u.losses + 1))
  }

  /** Scores and states after a battle between two registered users. */
  function Settle(users: map<nat, User>, id1: nat, id2: nat, winner: nat, r: Rolls): map<nat, User>
    requires id1 in users && id2 in users
  {
    var bonus, penalty := r.bonus % 4 + 1, r.penalty % 4;
    if id1 == winner then users[id1 := Won(users[id1], bonus)][id2 := Lost(users[id2], penalty)]
    else users[id1 := Lost(users[id1], penalty)][id2 := Won(users[id2], bonus)]
  }

  function PairRows(users: map<nat, User>, id1: nat, id2: nat): Msg
    requires id1 in users && id2 in users
  {
    UChange([EntryOf(id1, users[id1]), EntryOf(id2, users[id2])])
  }

  /** The battle is decided: scores and states, the announcement, and the challenge goes. */
  function EndBattle(s: State, k: nat, winner: nat, r: Rolls): State
    requires k in s.chs && s.chs[k].user1 in s.users && s.chs[k].user2 in s.users
  {
    var ch := s.chs[k];
    var users := Settle(s.users, ch.user1, ch.user2, winner, r);
    State(users, s.chs - {k}, s.out + Broadcast(users, -1, PairRows(users, ch.user1, ch.user2)),
          s.hist.(over := s.hist.over + 1))
  }

  /** judge_turn; `loser` is -1 unless a user is leaving. */
  function JudgeTurn(s: State, k: nat, loser: int, r: Rolls): Outcome
    requires k in s.chs
  {
    var ch := Advance(s.chs[k], r.damage);
    var v := Decide(ch, loser);
    if ch.user1 !in s.users || ch.user2 !in s.users then
      Crash
    else
      var m := TurnReport(k, ch, v);
      var told := s.(chs := s.chs[k := ch],
                     out := s.out + [Sent(s.users[ch.user1].fd, m)] + [Sent(s.users[ch.user2].fd, m)]);
      Next(if v.Undecided? then told else EndBattle(told, k, v.winner, r))
  }

  /** Judging a turn registers nobody, removes nobody and creates no challenge. */
  lemma JudgeTurnFrame(s: State, k: nat, loser: int, r: Rolls)
    requires k in s.chs
    ensures
      var o := JudgeTurn(s, k, loser, r);
      o.Next? ==> SameKeys(s.users, o.s.users) && (TwoSided(s.chs) ==> TwoSided(o.s.chs))
  {
  }

  /** The second half of quit_user: announce and delete. */
  function Leave(s: State, id: nat): State
    requires id in s.users
  {
    var u := s.users[id];
    s.(users := s.users - {id},
       out := s.out + Broadcast(s.users, -1, UChange([EntryOf(id, u.(state := Offline))])),
       hist := s.hist.(pastWins := s.hist.pastWins + u.wins, pastLosses := s.hist.pastLosses + u.losses))
  }

  function QuitUser(s: State, id: nat, r: Rolls): Outcome
    requires id in s.users
  {
    var u := s.users[id];
    if u.state == Battling && u.chid in s.chs then
      match JudgeTurn(s, u.chid, id, r)
      case Crash => Crash
      case Next(t) => Next(Leave(t, id))
    else
      Next(Leave(s, id))
  }

  function HandleQuit(s: State, id: nat, key: nat, r: Rolls): Outcome {
    if id !in s.users || s.users[id].key != key then Next(s) else QuitUser(s, id, r)
  }

  function Owners(users: map<nat, User>, fd: nat): set<nat> {
    set id | id in users && users[id].fd == fd
  }

  function HandleDisconnect(s: State, fd: nat, r: Rolls): Outcome {
    if fd !in Fds(s.users) then Next(s)
    else
      assert Owners(s.users, fd) != {} by {
        var id :| id in s.users && s.users[id].fd == fd;
        assert id in Owners(s.users, fd);
      }
      QuitUser(s, Least(Owners(s.users, fd)), r)
  }

  // ---- challenging ----

  /** The chid that one random() result proposes. */
  function Candidate(draw: nat): nat {
    if draw % ID_MODULUS == 0 then 1 else draw % ID_MODULUS
  }

  datatype MaybeChid = NoChid | Chid(k: nat)

  /** The tries of add_challenge: one random() result each. */
  type Draws = s: seq<nat> | |s| == 16 witness seq(16, _ => 0)

  /** The first proposal not in use. */
  function FirstFree(draws: seq<nat>, used: set<nat>): MaybeChid {
    if draws == [] then NoChid
    else if Candidate(draws[0]) !in used then Chid(Candidate(draws[0]))
    else FirstFree(draws[1..], used)
  }

  function Reply(c: ChallengeMsg, e: MsgErr, one: bool): Msg {
    ChallengeR(e, c.id1, c.id2, c.chid, one)
  }

  function Refuse(s: State, fd: nat, c: ChallengeMsg, e: MsgErr): Outcome {
    Next(s.(out := s.out + [Sent(fd, Reply(c, e, false))]))
  }

  function NewChallenge(user1: nat, user2: nat): Challenge {
    Challenge(user1, user2, 0, false, false, 0, 0, MAXHP, MAXHP, MAXHP, MAXHP, Asking, 0, 0)
  }

  function StartChallenge(s: State, fd: nat, c: ChallengeMsg, draws: Draws): Outcome
    requires c.id1 in s.users && c.id2 in s.users
  {
    var u1, u2 := s.users[c.id1], s.users[c.id2];
    if u1.state != Online || u2.state != Online then Refuse(s, fd, c, Engaged)
    else if c.id1 == c.id2 then Refuse(s, fd, c, ChlSelf)
    else
      match FirstFree(draws, s.chs.Keys)
      case NoChid => Crash
      case Chid(k) =>
        Next(OpenChallenge(s, c, k))
  }

  /** The challenge is filed under `k` and relayed to the challenged user. */
  function OpenChallenge(s: State, c: ChallengeMsg, k: nat): State
    requires c.id1 in s.users && c.id2 in s.users
  {
    State(s.users[c.id1 := s.users[c.id1].(chid := k)],
          s.chs[k := NewChallenge(c.id1, c.id2)],
          s.out + [Sent(s.users[c.id2].fd, Relay(c.(chid := k)))],
          s.hist.(pairs := s.hist.pairs[k := (c.id1, c.id2)]))
  }

  function CancelChallenge(s: State, c: ChallengeMsg): State
    requires c.id1 in s.users
  {
    var u1 := s.users[c.id1];
    if u1.state == Online && u1.chid in s.chs && s.chs[u1.chid].state == Asking
       && s.chs[u1.chid].user1 == c.id1 then
      var id2 := s.chs[u1.chid].user2;
      s.(users := s.users[c.id1 := u1.(chid := 0)],
         chs := s.chs - {u1.chid},
         out := s.out + if id2 in s.users then [Sent(s.users[id2].fd, Reply(c, Cancelled, false))] else [])
    else
      s
  }

  function AcceptChallenge(s: State, fd: nat, c: ChallengeMsg, r: Rolls): Outcome
    requires c.id1 in s.users && c.id2 in s.users && c.chid in s.chs
  {
    if s.users[c.id1].state == Online && s.users[c.id2].state == Online then
      JudgeTurn(Engage(s, c), c.chid, -1, r)
    else
      Refuse(s, fd, c, Engaged)
  }

  function Fighting(u: User, chid: nat): User {
    u.(state := Battling, chid := chid)
  }

  function Begun(ch: Challenge): Challenge {
    ch.(state := Started, turnNo := 0)
  }

  /** Both users enter the battle, everyone is told, and both get their answer. */
  function Engage(s: State, c: ChallengeMsg): State
    requires c.id1 in s.users && c.id2 in s.users && c.chid in s.chs
  {
    var users := s.users[c.id1 := Fighting(s.users[c.id1], c.chid)][c.id2 := Fighting(s.users[c.id2], c.chid)];
    State(users,
          s.chs[c.chid := Begun(s.chs[c.chid])],
          s.out + Broadcast(users, -1, PairRows(users, c.id1, c.id2))
                + [Sent(users[c.id1].fd, Reply(c, MeOk, true))] + [Sent(users[c.id2].fd, Reply(c, MeOk, false))],
          s.hist.(begun := s.hist.begun + {c.chid}))
  }

  function RejectChallenge(s: State, c: ChallengeMsg): State
    requires c.id1 in s.users && c.chid in s.chs
  {
    if s.chs[c.chid].user2 == c.id2 then
      s.(chs := s.chs - {c.chid}, out := s.out + [Sent(s.users[c.id1].fd, Reply(c, Rejected, false))])
    else
      s
  }

  function HandleChallenge(s: State, fd: nat, c: ChallengeMsg, draws: Draws, r: Rolls): Outcome {
    if c.id1 !in s.users || c.id2 !in s.users then Refuse(s, fd, c, NxId)
    else if c.action == CInvalid then Refuse(s, fd, c, InvArg)
    else if c.key != (if c.action == CStart || c.action == CCancel then s.users[c.id1].key
                      else s.users[c.id2].key) then Refuse(s, fd, c, IcKey)
    else if c.action == CStart then StartChallenge(s, fd, c, draws)
    else if c.action == CCancel then Next(CancelChallenge(s, c))
    else if c.chid !in s.chs then Refuse(s, fd, c, NxChid)
    else if s.chs[c.chid].state == Started then Next(s)
    else if c.action == CAccept then AcceptChallenge(s, fd, c, r)
    else Next(RejectChallenge(s, c))
  }

  lemma AcceptFrame(s: State, fd: nat, c: ChallengeMsg, r: Rolls)
    requires c.id1 in s.users && c.id2 in s.users && c.chid in s.chs
    ensures
      var o := AcceptChallenge(s, fd, c, r);
      o.Next? ==> SameKeys(s.users, o.s.users) && (TwoSided(s.chs) ==> TwoSided(o.s.chs))
  {
    var t := Engage(s, c);
    assert SameKeys(s.users, t.users) && (TwoSided(s.chs) ==> TwoSided(t.chs));
    JudgeTurnFrame(t, c.chid, -1, r);
  }

  lemma ChallengeFrame(s: State, fd: nat, c: ChallengeMsg, draws: Draws, r: Rolls)
    ensures
      var o := HandleChallenge(s, fd, c, draws, r);
      o.Next? ==> SameKeys(s.users, o.s.users) && (TwoSided(s.chs) ==> TwoSided(o.s.chs))
  {
    if c.id1 in s.users && c.id2 in s.users && c.chid in s.chs && c.action == CAccept {
      AcceptFrame(s, fd, c, r);
    }
  }

  // ---- playing ----

  /** The challenge with the user's action filed, if the user still owes one. */
  function Mark(ch: Challenge, user: nat, action: nat): Challenge {
    if user == ch.user1 && !ch.acted1 then ch.(act1 := action, acted1 := true)
    else if user == ch.user2 && !ch.acted2 then ch.(act2 := action, acted2 := true)
    else ch
  }

  function HandleTurn(s: State, t: TurnMsg, r: Rolls): Outcome {
    if t.chid !in s.chs || t.user !in s.users || s.users[t.user].key != t.key then Next(s)
    else
      var ch := Mark(s.chs[t.chid], t.user, t.action);
      var s1 := s.(chs := s.chs[t.chid := ch]);
      if ch.acted1 && ch.acted2 then JudgeTurn(s1, t.chid, -1, r) else Next(s1)
  }

  lemma TurnFrame(s: State, t: TurnMsg, r: Rolls)
    ensures var o := HandleTurn(s, t, r); o.Next? ==> SameKeys(s.users, o.s.users)
  {
    if t.chid in s.chs {
      JudgeTurnFrame(s.(chs := s.chs[t.chid := Mark(s.chs[t.chid], t.user, t.action)]), t.chid, -1, r);
    }
  }

  // ---- one packet ----

  /** An entry of the incoming queue, with the random values its handler will draw. */
  datatype Event =
    | EvJoin(fd: nat, nick: Nick, newKey: nat, garbage: nat)
    | EvQuit(id: nat, key: nat, r: Rolls)
    | EvDisconnect(fd: nat, r: Rolls)
    | EvChallenge(fd: nat, c: ChallengeMsg, draws: Draws, r: Rolls)
    | EvTurn(t: TurnMsg, r: Rolls)

  function Step(s: State, e: Event): Outcome {
    match e
    case EvJoin(fd, nick, key, garbage) => HandleJoin(s, fd, nick, key, garbage)
    case EvQuit(id, key, r) => HandleQuit(s, id, key, r)
    case EvDisconnect(fd, r) => HandleDisconnect(s, fd, r)
    case EvChallenge(fd, c, draws, r) => HandleChallenge(s, fd, c, draws, r)
    case EvTurn(t, r) => HandleTurn(s, t, r)
  }

  function Run(s: State, es: seq<Event>): Outcome
    decreases |es|
  {
    if es == [] then Next(s)
    else
      match Step(s, es[0])
      case Crash => Crash
      case Next(t) => Run(t, es[1..])
  }

  // ---- short runs ----

  lemma RunTwo(s: State, e1: Event, e2: Event)
    ensures Run(s, [e1, e2]) == if Step(s, e1).Crash? then Crash else Step(Step(s, e1).s, e2)
  {
    assert [e1, e2][1..] == [e2] && [e2][1..] == [];
    if Step(s, e1).Next? {
      assert Run(Step(s, e1).s, [e2]) == Step(Step(s, e1).s, e2);
    }
  }

  lemma RunThree(s: State, e1: Event, e2: Event, e3: Event)
    ensures Run(s, [e1, e2, e3]) == if Step(s, e1).Crash? then Crash else Run(Step(s, e1).s, [e2, e3])
    ensures Step(s, e1).Next? ==>
              Run(s, [e1, e2, e3]) == if Step(Step(s, e1).s, e2).Crash? then Crash
                                      else Step(Step(Step(s, e1).s, e2).s, e3)
  {
    assert [e1, e2, e3][1..] == [e2, e3];
    if Step(s, e1).Next? {
      RunTwo(Step(s, e1).s, e2, e3);
    }
  }

  lemma {:induction false} RunAppend(s: State, a: seq<Event>, b: seq<Event>)
    ensures Run(s, a + b) == if Run(s, a).Crash? then Crash else Run(Run(s, a).s, b)
    decreases |a|
  {
    if a == [] {
      assert a + b == b;
    } else {
      assert (a + b)[0] == a[0] && (a + b)[1..] == a[1..] + b;
      if Step(s, a[0]).Next? {
        RunAppend(Step(s, a[0]).s, a[1..], b);
      }
    }
  }
}
