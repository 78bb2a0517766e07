/** Every registered user's copy of the user table is the server's table. */
module Replica {
  import opened Protocol
  import opened ServerSpec
  import opened Walk
  import opened Invariants
  import opened Logs
  import opened Moves
  import opened Trace
  import opened ClientSpec

  // ---- folding what a connection was sent ----

  /** What message `m` does to the copy kept by the client whose id is `me`. */
  function Look(me: nat, v: View, m: Msg): View {
    match m
    case JoinR(nick, error, id, key) => if error == MeOk then View(map[], Offline, true) else v
    case UChange(users) => AbsorbAll(me, v, users)
    case ChallengeR(error, id1, id2, chid, isId1) => if error == MeOk && v.live then v.(state := Battling) else v
    case Relay(c) => v
    case TurnR(battle, turnNo, action1, action2, winner, hp1, hp2, maxhp1, maxhp2, fin) => v
  }

  function LookAll(me: nat, v: View, ms: seq<Msg>): View
    decreases |ms|
  {
    if ms == [] then v else LookAll(me, Look(me, v, ms[0]), ms[1..])
  }

  lemma {:induction false} LookAppend(me: nat, v: View, a: seq<Msg>, b: seq<Msg>)
    ensures LookAll(me, v, a + b) == LookAll(me, LookAll(me, v, a), b)
    decreases |a|
  {
    if a == [] {
      assert a + b == b;
    } else {
      assert (a + b)[1..] == a[1..] + b;
      LookAppend(me, Look(me, v, a[0]), a[1..], b);
    }
  }

  lemma LookOne(me: nat, v: View, m: Msg)
    ensures LookAll(me, v, [m]) == Look(me, v, m)
  {
    assert [m][1..] == [];
  }

  lemma LookTwo(me: nat, v: View, m: Msg, n: Msg)
    ensures LookAll(me, v, [m] + [n]) == Look(me, Look(me, v, m), n)
  {
    LookAppend(me, v, [m], [n]);
    LookOne(me, v, m);
    LookOne(me, Look(me, v, m), n);
  }

  // ---- the server's table ----

  function RowOf(u: User): Row {
    Row(u.nick, u.state, u.score)
  }

  function Table(users: map<nat, User>): map<nat, Row> {
    map id | id in users :: RowOf(users[id])
  }

  /** The view that a registered user should have. */
  function Mine(users: map<nat, User>, p: nat): View
    requires p in users
  {
    View(Table(users), users[p].state, true)
  }

  // ---- the snapshot ----

  /** A snapshot is read the same whole or in batches. */
  lemma {:induction false} BatchesLook(me: nat, v: View, rows: seq<Entry>)
    ensures LookAll(me, v, Batches(rows)) == AbsorbAll(me, v, rows)
    decreases |rows|
  {
    if rows == [] {
    } else if |rows| <= UCHANGE_MAX_UCNT {
      LookOne(me, v, UChange(rows));
    } else {
      var a, b := rows[..UCHANGE_MAX_UCNT], rows[UCHANGE_MAX_UCNT..];
      var v1 := AbsorbAll(me, v, a);
      assert ([UChange(a)] + Batches(b))[1..] == Batches(b);
      BatchesLook(me, v1, b);
      AbsorbAppend(me, v, a, b);
      assert a + b == rows;
    }
  }

  lemma {:induction false} RowsAbsorb(me: nat, v: View, users: map<nat, User>, ids: seq<nat>)
    requires v.live && AllFine(users)
    requires forall id | id in ids :: id in users
    ensures
      var w := AbsorbAll(me, v, Rows(users, ids));
      && w.live && w.state == (if me in ids then users[me].state else v.state)
      && (forall id :: id in w.table <==> id in v.table || id in ids)
      && (forall id | id in w.table :: w.table[id] == if id in ids then RowOf(users[id]) else v.table[id])
    decreases |ids|
  {
    if ids == [] {
    } else {
      var e := EntryOf(ids[0], users[ids[0]]);
      assert Fine(ids[0], users[ids[0]]);
      assert Rows(users, ids)[1..] == Rows(users, ids[1..]);
      RowsAbsorb(me, Absorb(me, v, e), users, ids[1..]);
    }
  }

  /** A newcomer who has read JOIN_R and the snapshot has the table. */
  lemma SnapshotLook(me: nat, users: map<nat, User>)
    requires AllFine(users) && me in users
    ensures LookAll(me, View(map[], Offline, true), Snapshot(users)) == Mine(users, me)
  {
    var ids := Sorted(users.Keys);
    SortedHasAll(users.Keys);
    BatchesLook(me, View(map[], Offline, true), Rows(users, ids));
    WholeTable(me, users, ids);
  }

  lemma SortedHasAll(s: set<nat>)
    ensures forall x: nat :: x in Sorted(s) <==> x in s
  {
    SortedMembers(s);
  }

  lemma WholeTable(me: nat, users: map<nat, User>, ids: seq<nat>)
    requires AllFine(users) && me in users
    requires forall id :: id in ids <==> id in users
    ensures AbsorbAll(me, View(map[], Offline, true), Rows(users, ids)) == Mine(users, me)
  {
    RowsAbsorb(me, View(map[], Offline, true), users, ids);
    assert AbsorbAll(me, View(map[], Offline, true), Rows(users, ids)).table == Table(users);
  }

  // ---- each move ----

  /** `users` has changed to `users'` in the two rows sent. */
  lemma PairLook(users: map<nat, User>, users': map<nat, User>, id1: nat, id2: nat, p: nat)
    requires AllFine(users') && users'.Keys == users.Keys && id1 in users && id2 in users && p in users
    requires forall id | id in users && id != id1 && id != id2 :: users'[id] == users[id]
    ensures Look(p, Mine(users, p), PairRows(users', id1, id2)) == Mine(users', p)
  {
    var e1, e2 := EntryOf(id1, users'[id1]), EntryOf(id2, users'[id2]);
    assert Fine(id1, users'[id1]) && Fine(id2, users'[id2]);
    assert [e1, e2][1..] == [e2] && [e2][1..] == [];
    var v1 := Absorb(p, Mine(users, p), e1);
    assert AbsorbAll(p, Mine(users, p), [e1, e2]) == AbsorbAll(p, v1, [e2]) == Absorb(p, v1, e2);
    assert Absorb(p, v1, e2).table == Table(users');
  }

  /** `users` has changed to `users'` in a way that no row shows. */
  lemma SameTable(users: map<nat, User>, users': map<nat, User>)
    requires users'.Keys == users.Keys && forall id | id in users :: RowOf(users'[id]) == RowOf(users[id])
    ensures Table(users') == Table(users)
  {
  }

  lemma RowLook(me: nat, v: View, e: Entry)
    ensures Look(me, v, UChange([e])) == Absorb(me, v, e)
  {
    assert [e][1..] == [];
    assert AbsorbAll(me, v, [e]) == AbsorbAll(me, Absorb(me, v, e), []);
  }

  lemma EnterLook(s: State, id: nat, u: User, p: nat, v: View)
    requires Can(s, Enter(id, u))
    requires p in s.users ==> v == Mine(s.users, p)
    requires p in s.users || p == id
    ensures LookAll(p, v, Note(s, Enter(id, u), p)) == Mine(s.users[id := u], p)
  {
    var users := s.users[id := u];
    assert AllFine(users);
    if p == id {
      var m := JoinR(u.nick, MeOk, id, u.key);
      LookAppend(p, v, [m], Snapshot(users));
      LookOne(p, v, m);
      SnapshotLook(p, users);
    } else {
      var e := EntryOf(id, u);
      LookOne(p, v, UChange([e]));
      RowLook(p, v, e);
      assert Absorb(p, v, e).table == Table(users);
    }
  }

  /** Two rows and perhaps the answer that starts the battle they announce. */
  lemma AnswerLook(users: map<nat, User>, users': map<nat, User>, id1: nat, id2: nat, n: Msg, answered: bool, p: nat)
    requires AllFine(users') && users'.Keys == users.Keys && id1 in users && id2 in users && p in users
    requires forall id | id in users && id != id1 && id != id2 :: users'[id] == users[id]
    requires n.ChallengeR? && (answered ==> users'[p].state == Battling)
    ensures LookAll(p, Mine(users, p), [PairRows(users', id1, id2)] + When(answered, n)) == Mine(users', p)
  {
    var m := PairRows(users', id1, id2);
    PairLook(users, users', id1, id2, p);
    if answered {
      LookTwo(p, Mine(users, p), m, n);
    } else {
      LookOne(p, Mine(users, p), m);
      assert [m] + [] == [m];
    }
  }

  lemma BeginLook(s: State, c: ChallengeMsg, p: nat)
    requires Can(s, Begin(c)) && p in s.users
    ensures LookAll(p, Mine(s.users, p), BeginNote(s, c, p)) == Mine(Engage(s, c).users, p)
  {
    var users := Engage(s, c).users;
    assert Fine(c.id1, s.users[c.id1]) && Fine(c.id2, s.users[c.id2]);
    assert AllFine(users);
    AnswerLook(s.users, users, c.id1, c.id2, Reply(c, MeOk, p == c.id1), p == c.id1 || p == c.id2, p);
  }

  /** Perhaps a turn, and perhaps the two rows that its outcome changed. */
  lemma ReportLook(users: map<nat, User>, users': map<nat, User>, id1: nat, id2: nat, m: Msg, told: bool, ended: bool,
                   p: nat)
    requires AllFine(users') && users'.Keys == users.Keys && id1 in users && id2 in users && p in users
    requires forall id | id in users && (!ended || (id != id1 && id != id2)) :: users'[id] == users[id]
    requires m.TurnR?
    ensures LookAll(p, Mine(users, p), When(told, m) + (if ended then [PairRows(users', id1, id2)] else []))
         == Mine(users', p)
  {
    LookOne(p, Mine(users, p), m);
    if ended {
      var n := PairRows(users', id1, id2);
      PairLook(users, users', id1, id2, p);
      LookTwo(p, Mine(users, p), m, n);
      LookOne(p, Mine(users, p), n);
      assert [] + [n] == [n];
    } else {
      assert users' == users;
      assert [m] + [] == [m];
    }
  }

  lemma JudgeLook(s: State, k: nat, loser: int, r: Rolls, p: nat)
    requires Can(s, Judge(k, loser, r)) && p in s.users
    ensures
      var t := Do(s, Judge(k, loser, r));
      p in t.users && LookAll(p, Mine(s.users, p), JudgeNote(s, k, loser, r, p)) == Mine(t.users, p)
  {
    JudgeShape(s, k, loser, r);
    var ch := Advance(s.chs[k], r.damage);
    var d := Decide(ch, loser);
    var users := Do(s, Judge(k, loser, r)).users;
    JudgeTouchesTwo(s, k, loser, r);
    ReportLook(s.users, users, ch.user1, ch.user2, TurnReport(k, ch, d), p == ch.user1 || p == ch.user2, d.Decided?, p);
  }

  lemma JudgeTouchesTwo(s: State, k: nat, loser: int, r: Rolls)
    requires Can(s, Judge(k, loser, r))
    ensures
      var users, ch := Do(s, Judge(k, loser, r)).users, Advance(s.chs[k], r.damage);
      var ended := Decide(ch, loser).Decided?;
      && AllFine(users) && users.Keys == s.users.Keys
      && forall id | id in s.users && (!ended || (id != ch.user1 && id != ch.user2)) :: users[id] == s.users[id]
  {
    JudgeShape(s, k, loser, r);
    var ch := Advance(s.chs[k], r.damage);
    var d := Decide(ch, loser);
    if d.Decided? {
      SettleTouchesTwo(s.users, ch.user1, ch.user2, d.winner, r);
    }
  }

  lemma SettleTouchesTwo(users: map<nat, User>, id1: nat, id2: nat, winner: nat, r: Rolls)
    requires id1 in users && id2 in users
    ensures forall id | id in users && id != id1 && id != id2 :: Settle(users, id1, id2, winner, r)[id] == users[id]
  {
  }

  lemma DepartLook(s: State, id: nat, p: nat)
    requires Can(s, Depart(id)) && p in s.users && p != id
    ensures LookAll(p, Mine(s.users, p), Note(s, Depart(id), p)) == Mine(Leave(s, id).users, p)
  {
    var e := EntryOf(id, s.users[id].(state := Offline));
    LookOne(p, Mine(s.users, p), UChange([e]));
    RowLook(p, Mine(s.users, p), e);
    assert Absorb(p, Mine(s.users, p), e).table == Table(s.users - {id});
  }

  lemma LetterKeepsTable(s: State, v: Move)
    requires Can(s, v)
    requires v.Tell? || v.Open? || v.Withdraw? || v.TurnDown? || v.File?
    ensures Do(s, v).users.Keys == s.users.Keys
    ensures forall id | id in s.users :: RowOf(Do(s, v).users[id]) == RowOf(s.users[id])
    ensures Table(Do(s, v).users) == Table(s.users)
  {
    if v.Open? || v.Withdraw? {
      assert Do(s, v).users == s.users[v.c.id1 := Do(s, v).users[v.c.id1]];
    }
    SameTable(s.users, Do(s, v).users);
  }

  lemma LetterLook(s: State, v: Move, p: nat)
    requires Can(s, v) && p in s.users
    requires v.Tell? || v.Open? || v.Withdraw? || v.TurnDown? || v.File?
    ensures p in Do(s, v).users && Mine(Do(s, v).users, p) == Mine(s.users, p)
    ensures LookAll(p, Mine(s.users, p), Note(s, v, p)) == Mine(s.users, p)
  {
    LetterKeepsTable(s, v);
    LetterShowsNothing(s, v, p, Mine(s.users, p));
  }

  /** A view is left as it is. */
  lemma LetterShowsNothing(s: State, v: Move, p: nat, w: View)
    requires Can(s, v)
    requires v.Tell? || v.Open? || v.Withdraw? || v.TurnDown? || v.File?
    ensures LookAll(p, w, Note(s, v, p)) == w
  {
    match v
    case Tell(fd, m) => LookOne(p, w, m);
    case Open(c, k) => LookOne(p, w, Relay(c.(chid := k)));
    case Withdraw(c) => LookOne(p, w, Reply(c, Cancelled, false));
    case TurnDown(c) => LookOne(p, w, Reply(c, Rejected, false));
    case File(_, _, _) =>
  }

  const BLANK := View(map[], Offline, false)

  /** If `p` is registered, what it was sent adds up to the server's table and its own state. */
  ghost predicate Mirrors(s: State, p: nat) {
    p in s.users ==> LookAll(p, BLANK, Log(s.out, p)) == Mine(s.users, p)
  }

  /** Who is registered after a move was registered before it or entered by it. */
  lemma MoveUsers(s: State, v: Move, p: nat)
    requires Can(s, v) && p in Do(s, v).users
    ensures p in s.users || (v.Enter? && v.id == p)
    ensures v.Depart? ==> v.id != p
  {
    if v.Judge? {
      JudgeShape(s, v.k, v.loser, v.r);
    }
  }

  lemma MoveMirrors(s: State, v: Move, p: nat)
    requires Can(s, v) && Mirrors(s, p)
    ensures Mirrors(Do(s, v), p)
  {
    if p in Do(s, v).users {
      MoveLog(s, v, p);
      MoveUsers(s, v, p);
      LookAppend(p, BLANK, Log(s.out, p), Note(s, v, p));
      match v
      case Enter(id, u) => EnterLook(s, id, u, p, LookAll(p, BLANK, Log(s.out, p)));
      case Begin(c) => BeginLook(s, c, p);
      case Judge(k, loser, r) => JudgeLook(s, k, loser, r, p);
      case Depart(id) => DepartLook(s, id, p);
      case _ => LetterLook(s, v, p);
    }
  }

  lemma {:induction false} MovesMirror(s: State, vs: seq<Move>, p: nat)
    requires CanAll(s, vs) && Mirrors(s, p)
    ensures Mirrors(DoAll(s, vs), p)
    decreases |vs|
  {
    if vs == [] {
    } else {
      MoveMirrors(s, vs[0], p);
      MovesMirror(Do(s, vs[0]), vs[1..], p);
    }
  }

  lemma {:induction false} RunMirrors(s: State, es: seq<Event>, p: nat)
    requires Inv(s) && Mirrors(s, p) && ConformingRun(s, es)
    ensures Run(s, es).Next? && Mirrors(Run(s, es).s, p)
    decreases |es|
  {
    if es == [] {
    } else {
      StepKeeps(s, es[0]);
      StepIsPlan(s, es[0]);
      MovesMirror(s, Plan(s, es[0]), p);
      RunMirrors(Step(s, es[0]).s, es[1..], p);
    }
  }

  /** Replica agreement: between handlers, for every registered user, folding everything sent to its connection
      gives the server's table and the user's own state, and never a notice to go. */
  lemma ReplicaAgreement(es: seq<Event>, p: nat)
    requires ConformingRun(INITIAL, es)
    ensures Run(INITIAL, es).Next?
    ensures
      var s := Run(INITIAL, es).s;
      p in s.users ==>
        LookAll(p, BLANK, Log(s.out, p)) == View(map id | id in s.users :: RowOf(s.users[id]), s.users[p].state, true)
  {
    RunMirrors(INITIAL, es, p);
  }

  // ---- batching ----

  /** All rows of the messages, in order. */
  function RowsOf(ms: seq<Msg>): seq<Entry> {
    if ms == [] then [] else (if ms[0].UChange? then ms[0].users else []) + RowsOf(ms[1..])
  }

  lemma {:induction false} BatchesShape(rows: seq<Entry>)
    ensures
      var ms := Batches(rows);
      && RowsOf(ms) == rows && Rosters(ms)
      && |ms| == (|rows| + UCHANGE_MAX_UCNT - 1) / UCHANGE_MAX_UCNT
      && (forall i | 0 <= i < |ms| - 1 :: |ms[i].users| == UCHANGE_MAX_UCNT)
      && (ms != [] ==> 0 < |ms[|ms| - 1].users| <= UCHANGE_MAX_UCNT)
    decreases |rows|
  {
    if rows == [] {
    } else if |rows| <= UCHANGE_MAX_UCNT {
      assert [UChange(rows)][1..] == [];
    } else {
      var a, b := rows[..UCHANGE_MAX_UCNT], rows[UCHANGE_MAX_UCNT..];
      BatchesShape(b);
      var ms, rest := Batches(rows), Batches(b);
      assert ms == [UChange(a)] + rest && ms[1..] == rest;
      assert forall i | 0 < i < |ms| :: ms[i] == rest[i - 1];
    }
  }

  lemma {:induction false} RowsShape(users: map<nat, User>, ids: seq<nat>)
    requires forall id | id in ids :: id in users
    ensures |Rows(users, ids)| == |ids|
    ensures forall i | 0 <= i < |ids| :: Rows(users, ids)[i] == EntryOf(ids[i], users[ids[i]])
    decreases |ids|
  {
    if ids == [] {
    } else {
      RowsShape(users, ids[1..]);
    }
  }

  lemma RowsAreUsers(users: map<nat, User>, ids: seq<nat>, e: Entry)
    requires forall id: nat :: id in ids <==> id in users
    ensures e in Rows(users, ids) <==> e.id in users && e == EntryOf(e.id, users[e.id])
  {
    RowsShape(users, ids);
    var rows := Rows(users, ids);
    if e.id in users && e == EntryOf(e.id, users[e.id]) {
      assert e.id in ids;
      var i :| 0 <= i < |ids| && ids[i] == e.id;
      assert rows[i] == e;
    }
    if e in rows {
      var i :| 0 <= i < |rows| && rows[i] == e;
      assert ids[i] in ids;
    }
  }

  lemma RowsAscend(users: map<nat, User>)
    ensures
      var rows := Rows(users, Sorted(users.Keys));
      |rows| == |users| && forall i, j | 0 <= i < j < |rows| :: rows[i].id < rows[j].id
  {
    SortedLength(users.Keys);
    SortedWithin(users.Keys);
    SortedAscends(users.Keys);
    RowsShape(users, Sorted(users.Keys));
  }

  /** The snapshot lists every user once, in the order of their ids, in full batches and a last one; without users
      there is nothing to send. */
  lemma SnapshotBatching(users: map<nat, User>)
    ensures
      var ms := Snapshot(users);
      var rows := RowsOf(ms);
      && |rows| == |users|
      && (forall i, j | 0 <= i < j < |rows| :: rows[i].id < rows[j].id)
      && (forall e :: e in rows <==> e.id in users && e == EntryOf(e.id, users[e.id]))
      && Rosters(ms) && |ms| == (|users| + UCHANGE_MAX_UCNT - 1) / UCHANGE_MAX_UCNT
      && (forall i | 0 <= i < |ms| - 1 :: |ms[i].users| == UCHANGE_MAX_UCNT)
      && (ms != [] ==> 0 < |ms[|ms| - 1].users| <= UCHANGE_MAX_UCNT)
  {
    var rows := Rows(users, Sorted(users.Keys));
    RowsAscend(users);
    BatchesShape(rows);
    SortedHasAll(users.Keys);
    forall e: Entry
      ensures e in rows <==> e.id in users && e == EntryOf(e.id, users[e.id])
    {
      RowsAreUsers(users, Sorted(users.Keys), e);
    }
  }
}
