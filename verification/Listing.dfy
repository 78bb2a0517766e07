/** The user list of every client sorts well: the scores it was sent are no larger than the battles fought. */
module Listing {
  import opened Protocol
  import opened ServerSpec
  import opened Invariants
  import opened Ledger
  import opened Logs
  import opened Moves
  import opened ClientSpec
  import opened Replica
  import opened Network
  import opened Links
  import opened System
  import opened Sorting

  // ---- scores and the number of battles ----

  /** A score that `n` finished battles allow. */
  predicate Allowed(score: int, n: nat) {
    -3 * n <= score <= 4 * n
  }

  ghost predicate UsersAllowed(users: map<nat, User>, n: nat) {
    forall id | id in users :: Allowed(users[id].score, n)
  }

  predicate EntriesAllowed(es: seq<Entry>, n: nat) {
    forall e | e in es :: Allowed(e.score, n)
  }

  predicate MessagesAllowed(ms: seq<Msg>, n: nat) {
    forall m | m in ms :: m.UChange? ==> EntriesAllowed(m.users, n)
  }

  /** Nobody has won or lost more battles than there were. */
  lemma TallyBounds(users: map<nat, User>, id: nat)
    requires id in users
    ensures users[id].wins <= Tally(users).wins && users[id].losses <= Tally(users).losses
  {
    TallyOne(users, id);
  }

  lemma BalancedAllows(s: State)
    requires FairScores(s.users) && Balanced(s)
    ensures UsersAllowed(s.users, s.hist.over)
  {
    forall id | id in s.users
      ensures Allowed(s.users[id].score, s.hist.over)
    {
      TallyBounds(s.users, id);
      assert FairScore(s.users[id]);
    }
  }

  // ---- the books, move by move ----

  lemma BeginBalances(users: map<nat, User>, c: ChallengeMsg)
    requires c.id1 in users && c.id2 in users && c.id1 != c.id2 && FairScores(users)
    ensures
      var users' := users[c.id1 := Fighting(users[c.id1], c.chid)][c.id2 := Fighting(users[c.id2], c.chid)];
      FairScores(users') && Tally(users') == Tally(users)
  {
    RecordTally(users, c.id1, Fighting(users[c.id1], c.chid));
    RecordTally(users[c.id1 := Fighting(users[c.id1], c.chid)], c.id2, Fighting(users[c.id2], c.chid));
  }

  lemma JudgeBalances(s: State, v: Move)
    requires Can(s, v) && v.Judge? && FairScores(s.users) && Balanced(s)
    ensures FairScores(Do(s, v).users) && Balanced(Do(s, v)) && s.hist.over <= Do(s, v).hist.over
  {
    JudgeShape(s, v.k, v.loser, v.r);
    var ch := Advance(s.chs[v.k], v.r.damage);
    var d := Decide(ch, v.loser);
    if d.Decided? {
      SettleBooks(s.users, ch.user1, ch.user2, d.winner, v.r);
      SettleFair(s.users, ch.user1, ch.user2, d.winner, v.r);
    }
  }

  lemma MoveBalances(s: State, v: Move)
    requires Can(s, v) && FairScores(s.users) && Balanced(s)
    ensures FairScores(Do(s, v).users) && Balanced(Do(s, v)) && s.hist.over <= Do(s, v).hist.over
  {
    match v
    case Enter(id, u) => TallyAdd(s.users, id, u);
    case Open(c, k) => RecordTally(s.users, c.id1, s.users[c.id1].(chid := k));
    case Withdraw(c) => RecordTally(s.users, c.id1, s.users[c.id1].(chid := 0));
    case Begin(c) => BeginBalances(s.users, c);
    case Judge(_, _, _) => JudgeBalances(s, v);
    case Depart(id) => TallyOne(s.users, id);
    case _ =>
  }

  // ---- what is sent ----

  lemma {:induction false} RowsAllowed(users: map<nat, User>, ids: seq<nat>, n: nat)
    requires UsersAllowed(users, n)
    ensures EntriesAllowed(Rows(users, ids), n)
    decreases |ids|
  {
    if ids == [] {
    } else {
      RowsAllowed(users, ids[1..], n);
    }
  }

  lemma {:induction false} BatchesAllowed(rows: seq<Entry>, n: nat)
    requires EntriesAllowed(rows, n)
    ensures MessagesAllowed(Batches(rows), n)
    decreases |rows|
  {
    if |rows| <= UCHANGE_MAX_UCNT {
    } else {
      BatchesAllowed(rows[UCHANGE_MAX_UCNT..], n);
    }
  }

  lemma SnapshotAllowed(users: map<nat, User>, n: nat)
    requires UsersAllowed(users, n)
    ensures MessagesAllowed(Snapshot(users), n)
  {
    var ids := Walk.Sorted(users.Keys);
    RowsAllowed(users, ids, n);
    BatchesAllowed(Rows(users, ids), n);
  }

  lemma PairAllowed(users: map<nat, User>, id1: nat, id2: nat, n: nat)
    requires id1 in users && id2 in users && UsersAllowed(users, n)
    ensures EntriesAllowed(PairRows(users, id1, id2).users, n)
  {
  }

  lemma JudgeNoteAllowed(s: State, v: Move, p: nat, n: nat)
    requires Can(s, v) && v.Judge? && UsersAllowed(Do(s, v).users, n)
    ensures MessagesAllowed(Note(s, v, p), n)
  {
    JudgeShape(s, v.k, v.loser, v.r);
    var ch := Advance(s.chs[v.k], v.r.damage);
    if Decide(ch, v.loser).Decided? {
      PairAllowed(Do(s, v).users, ch.user1, ch.user2, n);
    }
  }

  lemma NoteAllowed(s: State, v: Move, p: nat, n: nat)
    requires Can(s, v) && UsersAllowed(s.users, n) && UsersAllowed(Do(s, v).users, n)
    ensures MessagesAllowed(Note(s, v, p), n)
  {
    match v
    case Enter(id, u) => SnapshotAllowed(s.users[id := u], n);
    case Begin(c) => PairAllowed(Do(s, v).users, c.id1, c.id2, n);
    case Judge(_, _, _) => JudgeNoteAllowed(s, v, p, n);
    case _ =>
  }

  /** The books balance, and no row was ever sent that the battles so far do not allow. */
  ghost predicate Priced(s: State) {
    FairScores(s.users) && Balanced(s) && forall p: nat :: MessagesAllowed(Log(s.out, p), s.hist.over)
  }

  lemma MovePriced(s: State, v: Move)
    requires Can(s, v) && Priced(s)
    ensures Priced(Do(s, v))
  {
    var t := Do(s, v);
    MoveBalances(s, v);
    BalancedAllows(s);
    BalancedAllows(t);
    forall p: nat
      ensures MessagesAllowed(Log(t.out, p), t.hist.over)
    {
      MoveLog(s, v, p);
      NoteAllowed(s, v, p, t.hist.over);
      AllowMore(Log(s.out, p), Note(s, v, p), s.hist.over, t.hist.over);
    }
  }

  lemma AllowMore(a: seq<Msg>, b: seq<Msg>, n: nat, more: nat)
    requires MessagesAllowed(a, n) && n <= more && MessagesAllowed(b, more)
    ensures MessagesAllowed(a + b, more)
  {
  }

  lemma {:induction false} MovesPriced(s: State, vs: seq<Move>)
    requires CanAll(s, vs) && Priced(s)
    ensures Priced(DoAll(s, vs))
    decreases |vs|
  {
    if vs == [] {
    } else {
      MovePriced(s, vs[0]);
      MovesPriced(Do(s, vs[0]), vs[1..]);
    }
  }

  // ---- every execution ----

  lemma EvolvePriced(y: Sys, a: Action)
    requires SysInv(y) && Priced(y.srv) && Enabled(y, a)
    ensures Evolve(y, a).Goes? ==> Priced(Evolve(y, a).y.srv)
  {
    if a.Serve? {
      Discharge(y, a.p, a.env);
      StepIsPlan(y.srv, EventOf(a.p, y.links[a.p].up[0], a.env));
      MovesPriced(y.srv, Plan(y.srv, EventOf(a.p, y.links[a.p].up[0], a.env)));
    }
  }

  lemma {:induction false} ExecutionPriced(y: Sys, acts: seq<Action>)
    requires SysInv(y) && Priced(y.srv) && Executes(y, acts)
    ensures Execute(y, acts).Goes? && Priced(Execute(y, acts).y.srv)
    decreases |acts|
  {
    if acts == [] {
    } else {
      EvolveKeeps(y, acts[0]);
      EvolvePriced(y, acts[0]);
      ExecutionPriced(Evolve(y, acts[0]).y, acts[1..]);
    }
  }

  lemma ReachableIsPriced(y: Sys)
    requires Reachable(y)
    ensures Priced(y.srv)
  {
    var acts: seq<Action> :| Executes(STARTUP, acts) && Execute(STARTUP, acts) == Goes(y);
    StartupHolds();
    NothingPriced();
    ExecutionPriced(STARTUP, acts);
  }

  lemma NothingPriced()
    ensures Priced(INITIAL)
  {
  }

  // ---- the client's list ----

  ghost predicate TableAllowed(table: map<nat, Row>, n: nat) {
    forall id | id in table :: Allowed(table[id].score, n)
  }

  lemma {:induction false} AbsorbAllowed(me: nat, v: View, es: seq<Entry>, n: nat)
    requires TableAllowed(v.table, n) && EntriesAllowed(es, n)
    ensures TableAllowed(AbsorbAll(me, v, es).table, n)
    decreases |es|
  {
    if es == [] {
    } else {
      assert es[0] in es;
      AbsorbAllowed(me, Absorb(me, v, es[0]), es[1..], n);
    }
  }

  lemma {:induction false} LookAllowed(me: nat, v: View, ms: seq<Msg>, n: nat)
    requires TableAllowed(v.table, n) && MessagesAllowed(ms, n)
    ensures TableAllowed(LookAll(me, v, ms).table, n)
    decreases |ms|
  {
    if ms == [] {
    } else {
      assert ms[0] in ms;
      if ms[0].UChange? {
        AbsorbAllowed(me, v, ms[0].users, n);
      }
      LookAllowed(me, Look(me, v, ms[0]), ms[1..], n);
    }
  }

  /** The items that the client's user list is made of. */
  function ItemsOf(table: map<nat, Row>): set<Item> {
    set id | id in table :: Item(table[id].nick, table[id].score)
  }

  lemma AllowedAreNear(items: set<Item>, n: nat)
    requires n < MANY_BATTLES && forall i | i in items :: Allowed(i.score, n)
    ensures forall i, j | i in items && j in items :: Near(i, j)
  {
  }

  lemma LinkAllowed(s: State, p: nat, l: Link)
    requires LinkInv(s, p, l) && l.client.phase == Playing && Priced(s)
    ensures TableAllowed(l.client.table, s.hist.over)
  {
    var log := Log(s.out, p);
    assert MessagesAllowed(log, s.hist.over);
    LookAllowed(p, BLANK, log[..l.pos], s.hist.over);
  }

  /** On every execution with fewer than 2^28 finished battles, at any moment, whatever it has or has not been told yet,
      every playing client's own list is ordered by the comparator in both sort modes: no subtraction overflows. */
  lemma ClientSortOrder(y: Sys, p: nat, mode: SortBy)
    requires Reachable(y) && p in y.links && y.links[p].client.phase == Playing
    requires y.srv.hist.over < MANY_BATTLES
    ensures
      var items := ItemsOf(y.links[p].client.table);
      TotalPreorder(items, mode) && forall i, j | i in items && j in items :: Near(i, j)
  {
    ReachableIsPriced(y);
    ReachableLink(y, p);
    LinkAllowed(y.srv, p, y.links[p]);
    var items := ItemsOf(y.links[p].client.table);
    forall i | i in items
      ensures Allowed(i.score, y.srv.hist.over)
    {
      var id: nat :| id in y.links[p].client.table
                     && i == Item(y.links[p].client.table[id].nick, y.links[p].client.table[id].score);
    }
    AllowedAreNear(items, y.srv.hist.over);
    NearIsPreorder(items, mode);
  }

  /** The same of a client that has taken everything sent to it, if each registered user has finished fewer than 2^28
      battles. */
  lemma UpToDateSortOrder(y: Sys, p: nat, mode: SortBy)
    requires Reachable(y) && p in y.links && p in y.srv.users
    requires y.links[p].client.phase == Playing && y.links[p].pos == |Log(y.srv.out, p)|
    requires forall id | id in y.srv.users :: y.srv.users[id].wins + y.srv.users[id].losses < MANY_BATTLES
    ensures ItemsOf(y.links[p].client.table) == Items(y.srv.users)
    ensures TotalPreorder(ItemsOf(y.links[p].client.table), mode)
  {
    ReachableIsPriced(y);
    ClientsAgree(y, p);
    SameItems(y.srv.users);
    ItemsAreNear(y.srv.users);
    NearIsPreorder(Items(y.srv.users), mode);
  }

  lemma SameItems(users: map<nat, User>)
    ensures ItemsOf(Table(users)) == Items(users)
  {
    forall i
      ensures i in ItemsOf(Table(users)) <==> i in Items(users)
    {
      if i in Items(users) {
        var id: nat :| id in users && i == Item(users[id].nick, users[id].score);
        assert id in Table(users);
      }
    }
  }

  lemma ItemsAreNear(users: map<nat, User>)
    requires FairScores(users) && forall id | id in users :: users[id].wins + users[id].losses < MANY_BATTLES
    ensures forall i, j | i in Items(users) && j in Items(users) :: Near(i, j)
  {
    forall i, j | i in Items(users) && j in Items(users)
      ensures Near(i, j)
    {
      var a: nat :| a in users && i == Item(users[a].nick, users[a].score);
      var b: nat :| b in users && j == Item(users[b].nick, users[b].score);
      assert FairScore(users[a]) && FairScore(users[b]);
    }
  }
}
