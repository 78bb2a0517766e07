/** What each connection is told about challenges, on every run on which challenge ids are not reused. */
module Trace {
  import opened Protocol
  import opened ServerSpec
  import opened Walk
  import opened Logs
  import opened Moves

  // ---- challenge ids are not reused ----

  /** A move creates only a challenge whose id was never used. */
  predicate FreshMove(h: History, v: Move) {
    v.Open? ==> v.k !in h.pairs
  }

  /** The random draws of an event propose only chids that were never used. */
  ghost predicate Fresh(s: State, e: Event) {
    e.EvChallenge? && e.c.action == CStart && FirstFree(e.draws, s.chs.Keys).Chid? ==>
      FirstFree(e.draws, s.chs.Keys).k !in s.hist.pairs
  }

  ghost predicate Remembered(s: State) {
    && (forall k | k in s.chs :: k in s.hist.pairs && s.hist.pairs[k] == (s.chs[k].user1, s.chs[k].user2))
    && (forall k | k in s.chs :: k in s.hist.begun <==> s.chs[k].state == Started)
    && (forall k | k in s.hist.begun :: k in s.hist.pairs && s.hist.pairs[k].0 != s.hist.pairs[k].1)
  }

  // ---- the battle that a connection is in, according to its messages ----

  /** The battle a connection is in after message `m`, having been in `o`. */
  function Shift(o: MaybeChid, m: Msg): MaybeChid {
    if m.ChallengeR? && m.error == MeOk then Chid(m.chid)
    else if m.TurnR? && m.fin then NoChid
    else o
  }

  function Flow(o: MaybeChid, ms: seq<Msg>): MaybeChid
    decreases |ms|
  {
    if ms == [] then o else Flow(Shift(o, ms[0]), ms[1..])
  }

  /** May connection `p`, in battle `o`, be sent `m`? */
  predicate Fits(h: History, p: nat, o: MaybeChid, m: Msg) {
    match m
    case JoinR(nick, error, id, key) => error == MeOk ==> id == p && o.NoChid?
    case UChange(users) => true
    case Relay(c) =>
      && o.NoChid? && c.action == CStart && c.id2 == p
      && c.chid in h.pairs && h.pairs[c.chid] == (c.id1, c.id2)
    case ChallengeR(error, id1, id2, chid, isId1) =>
      error == MeOk ==>
        && o.NoChid? && chid in h.begun && chid in h.pairs && h.pairs[chid] == (id1, id2) && id1 != id2
        && p == (if isId1 then id1 else id2)
    case TurnR(battle, turnNo, action1, action2, winner, hp1, hp2, maxhp1, maxhp2, fin) => o == Chid(battle)
  }

  predicate FitsAll(h: History, p: nat, o: MaybeChid, ms: seq<Msg>)
    decreases |ms|
  {
    ms == [] || (Fits(h, p, o, ms[0]) && FitsAll(h, p, Shift(o, ms[0]), ms[1..]))
  }

  lemma {:induction false} FlowAppend(o: MaybeChid, a: seq<Msg>, b: seq<Msg>)
    ensures Flow(o, a + b) == Flow(Flow(o, a), b)
    decreases |a|
  {
    if a == [] {
      assert a + b == b;
    } else {
      assert (a + b)[1..] == a[1..] + b;
      FlowAppend(Shift(o, a[0]), a[1..], b);
    }
  }

  lemma {:induction false} FitsAppend(h: History, p: nat, o: MaybeChid, a: seq<Msg>, b: seq<Msg>)
    ensures FitsAll(h, p, o, a + b) <==> FitsAll(h, p, o, a) && FitsAll(h, p, Flow(o, a), b)
    decreases |a|
  {
    if a == [] {
      assert a + b == b;
    } else {
      assert (a + b)[1..] == a[1..] + b;
      FitsAppend(h, p, Shift(o, a[0]), a[1..], b);
    }
  }

  /** `h'` knows at least what `h` knows. */
  ghost predicate Extends(h: History, h': History) {
    && (forall k | k in h.pairs :: k in h'.pairs && h'.pairs[k] == h.pairs[k])
    && (forall k | k in h.begun :: k in h'.begun)
  }

  lemma {:induction false} FitsExtends(h: History, h': History, p: nat, o: MaybeChid, ms: seq<Msg>)
    requires Extends(h, h') && FitsAll(h, p, o, ms)
    ensures FitsAll(h', p, o, ms)
    decreases |ms|
  {
    if ms == [] {
    } else {
      FitsExtends(h, h', p, Shift(o, ms[0]), ms[1..]);
    }
  }

  predicate Rosters(ms: seq<Msg>) {
    forall m | m in ms :: m.UChange?
  }

  lemma {:induction false} BatchesAreRosters(rows: seq<Entry>)
    ensures Rosters(Batches(rows))
    decreases |rows|
  {
    if |rows| <= UCHANGE_MAX_UCNT {
    } else {
      BatchesAreRosters(rows[UCHANGE_MAX_UCNT..]);
    }
  }

  lemma {:induction false} RostersFit(h: History, p: nat, o: MaybeChid, ms: seq<Msg>)
    requires Rosters(ms)
    ensures FitsAll(h, p, o, ms) && Flow(o, ms) == o
    decreases |ms|
  {
    if ms == [] {
    } else {
      assert ms[0] in ms;
      RostersFit(h, p, o, ms[1..]);
    }
  }

  lemma FitsOne(h: History, p: nat, o: MaybeChid, m: Msg)
    ensures FitsAll(h, p, o, [m]) <==> Fits(h, p, o, m)
    ensures Flow(o, [m]) == Shift(o, m)
  {
    assert [m][1..] == [];
  }

  lemma FitsTwo(h: History, p: nat, o: MaybeChid, m: Msg, n: Msg)
    ensures FitsAll(h, p, o, [m] + [n]) <==> Fits(h, p, o, m) && Fits(h, p, Shift(o, m), n)
    ensures Flow(o, [m] + [n]) == Shift(Shift(o, m), n)
  {
    FitsAppend(h, p, o, [m], [n]);
    FlowAppend(o, [m], [n]);
    FitsOne(h, p, o, m);
    FitsOne(h, p, Shift(o, m), n);
  }

  // ---- what the server says agrees with what it knows ----

  /** The battle that user `p` is in. */
  function Battle(users: map<nat, User>, p: nat): MaybeChid {
    if p in users && users[p].state == Battling then Chid(users[p].chid) else NoChid
  }

  ghost predicate Traced(s: State, p: nat) {
    FitsAll(s.hist, p, NoChid, Log(s.out, p)) && Flow(NoChid, Log(s.out, p)) == Battle(s.users, p)
  }

  lemma MoveRemembers(s: State, v: Move)
    requires Can(s, v) && Remembered(s) && FreshMove(s.hist, v)
    ensures Remembered(Do(s, v)) && Extends(s.hist, Do(s, v).hist)
  {
    match v
    case Judge(k, loser, r) => JudgeRemembers(s, k, loser, r);
    case Open(c, k) => OpenRemembers(s, c, k);
    case Begin(c) => EngageRemembers(s, c);
    case File(k, user, action) => FileRemembers(s, k, Mark(s.chs[k], user, action));
    case _ =>
  }

  lemma OpenRemembers(s: State, c: ChallengeMsg, k: nat)
    requires Remembered(s) && c.id1 in s.users && c.id2 in s.users && c.id1 != c.id2 && k !in s.hist.pairs
    ensures Remembered(OpenChallenge(s, c, k)) && Extends(s.hist, OpenChallenge(s, c, k).hist)
  {
  }

  lemma EngageRemembers(s: State, c: ChallengeMsg)
    requires Remembered(s) && c.id1 in s.users && c.id2 in s.users && AskingAt(s, c.chid)
    requires s.chs[c.chid].user1 != s.chs[c.chid].user2
    ensures Remembered(Engage(s, c)) && Extends(s.hist, Engage(s, c).hist)
  {
  }

  lemma FileRemembers(s: State, k: nat, ch: Challenge)
    requires Remembered(s) && k in s.chs && ch.user1 == s.chs[k].user1 && ch.user2 == s.chs[k].user2
    requires ch.state == s.chs[k].state
    ensures Remembered(s.(chs := s.chs[k := ch]))
  {
  }

  lemma JudgeRemembers(s: State, k: nat, loser: int, r: Rolls)
    requires Can(s, Judge(k, loser, r)) && Remembered(s)
    ensures
      var t := Do(s, Judge(k, loser, r));
      && Remembered(t) && t.hist == s.hist.(over := t.hist.over)
      && (t.chs.Keys == s.chs.Keys || t.chs == s.chs - {k})
  {
    JudgeShape(s, k, loser, r);
  }

  lemma JudgeFits(s: State, k: nat, loser: int, r: Rolls, p: nat)
    requires Can(s, Judge(k, loser, r))
    ensures
      var t := Do(s, Judge(k, loser, r));
      && FitsAll(s.hist, p, Battle(s.users, p), JudgeNote(s, k, loser, r, p))
      && Flow(Battle(s.users, p), JudgeNote(s, k, loser, r, p)) == Battle(t.users, p)
  {
    JudgeShape(s, k, loser, r);
    var o := Battle(s.users, p);
    var ch := Advance(s.chs[k], r.damage);
    var v := Decide(ch, loser);
    var m := TurnReport(k, ch, v);
    FitsOne(s.hist, p, o, m);
    if v.Decided? {
      var n := PairRows(Settle(s.users, ch.user1, ch.user2, v.winner, r), ch.user1, ch.user2);
      FitsOne(s.hist, p, o, n);
      FitsTwo(s.hist, p, o, m, n);
      assert [] + [n] == [n];
    }
    assert [m] + [] == [m];
  }

  lemma BeginFits(s: State, c: ChallengeMsg, p: nat)
    requires Can(s, Begin(c)) && Remembered(s)
    ensures
      var t := Engage(s, c);
      && FitsAll(t.hist, p, Battle(s.users, p), BeginNote(s, c, p))
      && Flow(Battle(s.users, p), BeginNote(s, c, p)) == Battle(t.users, p)
  {
    var t := Engage(s, c);
    var o := Battle(s.users, p);
    var m, n := PairRows(t.users, c.id1, c.id2), Reply(c, MeOk, p == c.id1);
    if p == c.id1 || p == c.id2 {
      FitsTwo(t.hist, p, o, m, n);
    } else {
      FitsOne(t.hist, p, o, m);
      assert [m] + [] == [m];
    }
  }

  lemma EnterFits(s: State, id: nat, u: User, p: nat)
    requires Can(s, Enter(id, u))
    ensures
      && FitsAll(s.hist, p, Battle(s.users, p), Note(s, Enter(id, u), p))
      && Flow(Battle(s.users, p), Note(s, Enter(id, u), p)) == Battle(Do(s, Enter(id, u)).users, p)
  {
    if p == id {
      var m, ms := JoinR(u.nick, MeOk, id, u.key), Snapshot(s.users[id := u]);
      BatchesAreRosters(Rows(s.users[id := u], Sorted(s.users[id := u].Keys)));
      RostersFit(s.hist, p, NoChid, ms);
      FitsOne(s.hist, p, NoChid, m);
      FitsAppend(s.hist, p, NoChid, [m], ms);
      FlowAppend(NoChid, [m], ms);
    } else {
      FitsOne(s.hist, p, Battle(s.users, p), UChange([EntryOf(id, u)]));
    }
  }

  /** No one enters or leaves a battle by a letter, or by going offline. */
  lemma LetterKeepsBattle(s: State, v: Move, p: nat)
    requires Can(s, v)
    requires v.Tell? || v.Open? || v.Withdraw? || v.TurnDown? || v.Depart?
    ensures Battle(Do(s, v).users, p) == Battle(s.users, p)
  {
  }

  lemma LetterFits(s: State, v: Move, p: nat)
    requires Can(s, v) && Remembered(s) && FreshMove(s.hist, v)
    requires v.Tell? || v.Open? || v.Withdraw? || v.TurnDown? || v.Depart?
    ensures
      && FitsAll(Do(s, v).hist, p, Battle(s.users, p), Note(s, v, p))
      && Flow(Battle(s.users, p), Note(s, v, p)) == Battle(Do(s, v).users, p)
  {
    LetterKeepsBattle(s, v, p);
    var h, o := Do(s, v).hist, Battle(s.users, p);
    match v
    case Tell(fd, m) => FitsOne(h, p, o, m);
    case Open(c, k) => FitsOne(h, p, o, Relay(c.(chid := k)));
    case Withdraw(c) => FitsOne(h, p, o, Reply(c, Cancelled, false));
    case TurnDown(c) => FitsOne(h, p, o, Reply(c, Rejected, false));
    case Depart(id) => FitsOne(h, p, o, UChange([EntryOf(id, s.users[id].(state := Offline))]));
  }

  lemma NoteFits(s: State, v: Move, p: nat)
    requires Can(s, v) && Remembered(s) && FreshMove(s.hist, v)
    ensures
      && FitsAll(Do(s, v).hist, p, Battle(s.users, p), Note(s, v, p))
      && Flow(Battle(s.users, p), Note(s, v, p)) == Battle(Do(s, v).users, p)
  {
    match v
    case Enter(id, u) => EnterFits(s, id, u, p);
    case Begin(c) => BeginFits(s, c, p);
    case Judge(k, loser, r) =>
      JudgeFits(s, k, loser, r, p);
      MoveRemembers(s, v);
      FitsExtends(s.hist, Do(s, v).hist, p, Battle(s.users, p), Note(s, v, p));
    case File(k, user, action) =>
    case _ => LetterFits(s, v, p);
  }

  /** Every move keeps every connection's messages in order and in agreement with the server's state. */
  lemma MoveTraces(s: State, v: Move, p: nat)
    requires Can(s, v) && Remembered(s) && FreshMove(s.hist, v) && Traced(s, p)
    ensures Remembered(Do(s, v)) && Traced(Do(s, v), p)
  {
    var t := Do(s, v);
    var log, note := Log(s.out, p), Note(s, v, p);
    MoveRemembers(s, v);
    MoveLog(s, v, p);
    NoteFits(s, v, p);
    FitsExtends(s.hist, t.hist, p, NoChid, log);
    FitsAppend(t.hist, p, NoChid, log, note);
    FlowAppend(NoChid, log, note);
  }

  ghost predicate FreshAll(s: State, vs: seq<Move>)
    decreases |vs|
  {
    vs == [] || (FreshMove(s.hist, vs[0]) && FreshAll(Do(s, vs[0]), vs[1..]))
  }

  lemma FreshPlan(s: State, e: Event)
    requires Fresh(s, e)
    ensures FreshAll(s, Plan(s, e))
  {
    var vs := Plan(s, e);
    assert |vs| <= 2 && (|vs| >= 1 ==> FreshMove(s.hist, vs[0])) && (|vs| == 2 ==> !vs[1].Open?);
  }
}
