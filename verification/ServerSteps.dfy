/** The server's moves keep what holds of every connection. */
module ServerSteps {
  import opened Protocol
  import opened ServerSpec
  import opened Walk
  import opened Invariants
  import opened Logs
  import opened Moves
  import opened Trace
  import opened Chronicle
  import opened ClientSpec
  import opened Replica
  import opened Network
  import opened Links

  /** The move answers connection `q` only if a request of `q` is owed an answer, and files nothing for it. */
  ghost predicate Owed(v: Move, q: nat, l: Link, ahead: seq<Msg>) {
    match v
    case Tell(fd, m) =>
      fd == q ==> if m.JoinR? then l.client.phase == Joining && Joins(l.up) == 0 && ahead == [] else InGame(l.client)
    case Enter(id, u) => id == q ==> l.client.phase == Joining && Joins(l.up) == 0 && ahead == []
    case File(k, user, action) => user != q
    case _ => true
  }

  // ---- joining ----

  lemma {:induction false} RostersAreNoJoinRs(ms: seq<Msg>)
    requires Rosters(ms)
    ensures JoinRs(ms) == 0
    decreases |ms|
  {
    if ms == [] {
    } else {
      assert ms[0] in ms;
      RostersAreNoJoinRs(ms[1..]);
    }
  }

  lemma JoinRsOne(m: Msg)
    ensures JoinRs([m]) == if m.JoinR? then 1 else 0
  {
    assert [m][1..] == [];
  }

  /** Is the note of `v` to `q` an answer to a JOIN? */
  predicate AnswersJoin(v: Move, q: nat) {
    (v.Tell? && v.fd == q && v.m.JoinR?) || (v.Enter? && v.id == q)
  }

  /** Users that are not registered are sent nothing but answers; answers to JOINs go to those who join. */
  lemma NoteJoins(s: State, v: Move, q: nat)
    requires Can(s, v)
    ensures !AnswersJoin(v, q) ==> JoinRs(Note(s, v, q)) == 0
    ensures q !in s.users && !(v.Tell? && v.fd == q) && !(v.Enter? && v.id == q) ==> Note(s, v, q) == []
  {
    match v
    case Tell(fd, m) => JoinRsOne(m);
    case Enter(id, u) => JoinRsOne(UChange([EntryOf(id, u)]));
    case Open(c, k) => JoinRsOne(Relay(c.(chid := k)));
    case Withdraw(c) => JoinRsOne(Reply(c, Cancelled, false));
    case TurnDown(c) => JoinRsOne(Reply(c, Rejected, false));
    case Begin(c) => BeginJoins(s, c, q);
    case File(_, _, _) =>
    case Judge(k, loser, r) => JudgeJoins(s, k, loser, r, q);
    case Depart(id) => JoinRsOne(UChange([EntryOf(id, s.users[id].(state := Offline))]));
  }

  lemma BeginJoins(s: State, c: ChallengeMsg, q: nat)
    requires Can(s, Begin(c))
    ensures JoinRs(BeginNote(s, c, q)) == 0
    ensures q !in s.users ==> BeginNote(s, c, q) == []
  {
    var m, n := PairRows(Engage(s, c).users, c.id1, c.id2), Reply(c, MeOk, q == c.id1);
    JoinRsOne(m);
    JoinRsOne(n);
    JoinRsAppend(When(q in s.users, m), When(q == c.id1 || q == c.id2, n));
  }

  lemma JudgeJoins(s: State, k: nat, loser: int, r: Rolls, q: nat)
    requires Can(s, Judge(k, loser, r))
    ensures JoinRs(JudgeNote(s, k, loser, r, q)) == 0
    ensures q !in s.users ==> JudgeNote(s, k, loser, r, q) == []
  {
    JudgeShape(s, k, loser, r);
    var ch := Advance(s.chs[k], r.damage);
    var d := Decide(ch, loser);
    var m := TurnReport(k, ch, d);
    JoinRsOne(m);
    if d.Decided? {
      var n := PairRows(Settle(s.users, ch.user1, ch.user2, d.winner, r), ch.user1, ch.user2);
      JoinRsOne(n);
      JoinRsAppend(When(q == ch.user1 || q == ch.user2, m), When(q in s.users, n));
    }
    assert [m] + [] == [m];
  }

  /** Keys are given once. */
  lemma MoveKeys(s: State, v: Move, q: nat)
    requires Can(s, v) && q in s.users && q in Do(s, v).users
    ensures Do(s, v).users[q].key == s.users[q].key
  {
    if v.Judge? {
      JudgeShape(s, v.k, v.loser, v.r);
      var ch := Advance(s.chs[v.k], v.r.damage);
      SettleKeys(s.users, ch.user1, ch.user2, Decide(ch, v.loser), v.r);
    }
  }

  lemma SettleKeys(users: map<nat, User>, id1: nat, id2: nat, d: Verdict, r: Rolls)
    requires id1 in users && id2 in users
    ensures d.Decided? ==> forall q | q in users :: Settle(users, id1, id2, d.winner, r)[q].key == users[q].key
  {
  }

  /** Messages that answer no JOIN are added to what a registered user is sent. */
  lemma QuietJoin(users: map<nat, User>, users': map<nat, User>, q: nat, l: Link, before: seq<Msg>, ahead: seq<Msg>,
                  note: seq<Msg>)
    requires JoinPart(users, q, before, ahead, l) && JoinRs(note) == 0
    requires note != [] ==> q in users || InGame(l.client)
    requires q in users' ==> q in users && users'[q].key == users[q].key
    ensures JoinPart(users', q, before, ahead + note, l)
  {
    JoinRsAppend(ahead, note);
    BadgeAppend(NoBadge, before, ahead);
    BadgeAppend(NoBadge, before, ahead + note);
    BadgeAppend(BadgeOf(NoBadge, before), ahead, note);
    NoJoinRs(BadgeOf(BadgeOf(NoBadge, before), ahead), note);
    if |ahead| == 1 {
      assert ahead[1..] == [];
    }
    if note == [] {
      assert ahead + note == ahead;
    }
  }

  /** The answer to the one JOIN. */
  lemma AnswerJoin(users: map<nat, User>, users': map<nat, User>, q: nat, l: Link, before: seq<Msg>, m: Msg,
                   rest: seq<Msg>)
    requires JoinPart(users, q, before, [], l) && l.client.phase == Joining && Joins(l.up) == 0
    requires m.JoinR? && JoinRs(rest) == 0 && (m.error == MeOk || rest == [])
    requires q in users' ==> if m.error == MeOk then users'[q].key == m.key else q in users
    ensures JoinPart(users', q, before, [m] + rest, l)
  {
    assert ([m] + rest)[1..] == rest;
    BadgeAppend(NoBadge, before, []);
    BadgeAppend(NoBadge, before, [m] + rest);
    NoJoinRs(if m.error == MeOk then Key(m.key) else NoBadge, rest);
  }

  lemma MoveJoin(s: State, v: Move, q: nat, l: Link, before: seq<Msg>, ahead: seq<Msg>)
    requires Can(s, v) && JoinPart(s.users, q, before, ahead, l) && Owed(v, q, l, ahead)
    ensures JoinPart(Do(s, v).users, q, before, ahead + Note(s, v, q), l)
  {
    var note := Note(s, v, q);
    NoteJoins(s, v, q);
    if v.Tell? && v.fd == q && v.m.JoinR? {
      AnswerJoin(s.users, s.users, q, l, before, v.m, []);
      assert ahead + note == [v.m] + [];
    } else if v.Enter? && v.id == q {
      var m, rest := JoinR(v.u.nick, MeOk, q, v.u.key), Snapshot(s.users[q := v.u]);
      BatchesAreRosters(Rows(s.users[q := v.u], Sorted(s.users[q := v.u].Keys)));
      RostersAreNoJoinRs(rest);
      AnswerJoin(s.users, Do(s, v).users, q, l, before, m, rest);
      assert ahead + note == [m] + rest;
    } else {
      if q in Do(s, v).users {
        MoveUsers(s, v, q);
        MoveKeys(s, v, q);
      }
      QuietJoin(s.users, Do(s, v).users, q, l, before, ahead, note);
    }
  }

  // ---- requests and the client's battle ----

  lemma ExtendedUp(h: History, h': History, q: nat, l: Link)
    requires UpPart(h, q, l) && Extends(h, h')
    ensures UpPart(h', q, l)
  {
  }

  lemma ExtendedPlay(h: History, h': History, q: nat, before: seq<Msg>, c: Player)
    requires PlayPart(h, q, before, c) && Extends(h, h')
    ensures PlayPart(h', q, before, c)
  {
  }

  // ---- the token ----

  /** Only what is about battle `k` carries a token of battle `k`. */
  lemma {:induction false} ComingAbout(ms: seq<Msg>, k: nat)
    ensures Coming(About(ms, k), k) == Coming(ms, k)
    decreases |ms|
  {
    if ms == [] {
    } else {
      ComingAbout(ms[1..], k);
      var first := if Tells(ms[0], k) then [ms[0]] else [];
      ComingAppend(first, About(ms[1..], k), k);
      if first != [] {
        assert [ms[0]][1..] == [];
      }
    }
  }

  lemma ComingOne(m: Msg, k: nat)
    ensures Coming([m], k) == if m.TurnR? && m.battle == k && !m.fin then [m.turnNo] else []
  {
    assert [m][1..] == [];
  }

  /** The token that a move sends to `q`. */
  lemma NoteComing(s: State, v: Move, q: nat, k: nat)
    requires Can(s, v) && Remembered(s)
    ensures
      Coming(Note(s, v, q), k) ==
        if v.Judge? && v.k == k && (q == s.hist.pairs[k].0 || q == s.hist.pairs[k].1) && !Report(s, k, v.loser, v.r).fin
        then [Report(s, k, v.loser, v.r).turnNo] else []
  {
    ComingAbout(Note(s, v, q), k);
    NoteTells(s, v, q, k);
    if v.Begin? {
      ComingOne(Reply(v.c, MeOk, q == v.c.id1), k);
    }
    if v.Judge? && v.k == k {
      ComingOne(Report(s, k, v.loser, v.r), k);
    }
  }

  lemma BeginToken(s: State, v: Move, q: nat, l: Link, before: seq<Msg>, ahead: seq<Msg>, k: nat)
    requires Can(s, v) && v.Begin? && Remembered(s) && Traced(s, q) && Log(s.out, q) == before + ahead
    requires Linked(s, q, l, before, ahead)
    ensures TokenAt(Do(s, v), k, q, l, ahead)
  {
    assert TokenAt(s, k, q, l, ahead);
    if k == v.c.chid {
      BeginNames(s, v);
      NoTokens(s, q, l, before, ahead, k);
      assert AskingAt(s, k);
    }
  }

  lemma MoveIdle(s: State, v: Move, q: nat)
    requires Can(s, v) && IdlePart(s, q) && (v.File? ==> v.user != q)
    ensures IdlePart(Do(s, v), q)
  {
    if v.Judge? {
      JudgeStays(s, v);
    }
  }

  /** Judging a battle leaves the challenges that are being asked alone. */
  lemma JudgeStays(s: State, v: Move)
    requires Can(s, v) && v.Judge?
    ensures forall k | AskingAt(Do(s, v), k) :: AskingAt(s, k) && Do(s, v).chs[k] == s.chs[k]
  {
    JudgeReports(s, v);
  }

  /** Judging takes both tokens from the server and sends both users a new one. */
  lemma JudgeToken(s: State, v: Move, q: nat, l: Link, ahead: seq<Msg>, k: nat)
    requires Can(s, v) && v.Judge? && Remembered(s) && TokenAt(s, k, q, l, ahead)
    ensures TokenAt(Do(s, v), k, q, l, ahead + Note(s, v, q))
  {
    JudgeReports(s, v);
    NoteComing(s, v, q, k);
    ComingAppend(ahead, Note(s, v, q), k);
    if v.k == k {
      JudgeClears(s, v);
      if k in Do(s, v).chs && Party(s.chs[k], q) {
        JudgedToken(s.chs[k], Do(s, v).chs[k], Report(s, k, v.loser, v.r).turnNo, k, q, l, ahead,
                    ahead + Note(s, v, q));
      }
    } else {
      SameToken(s, Do(s, v), k, q, l, ahead, ahead + Note(s, v, q));
    }
  }

  lemma JudgeClears(s: State, v: Move)
    requires Can(s, v) && v.Judge? && Remembered(s)
    ensures
      var ch, t := s.chs[v.k], Do(s, v);
      && s.hist.pairs[v.k] == (ch.user1, ch.user2)
      && (v.k in t.chs ==>
            var ch' := t.chs[v.k];
            && !ch'.acted1 && !ch'.acted2 && ch'.turns > 0 && ch'.turnNo == Report(s, v.k, v.loser, v.r).turnNo
            && ch'.user1 == ch.user1 && ch'.user2 == ch.user2
            && (ch.turns == 0 || (ch.acted1 && ch.acted2)))
  {
    JudgeShape(s, v.k, v.loser, v.r);
    AdvanceHealthy(s.chs[v.k], v.r.damage, v.loser);
  }

  lemma SameToken(s: State, t: State, k: nat, q: nat, l: Link, ahead: seq<Msg>, ahead': seq<Msg>)
    requires TokenAt(s, k, q, l, ahead) && Coming(ahead', k) == Coming(ahead, k)
    requires (k in t.chs <==> k in s.chs) && (k in s.chs ==> t.chs[k] == s.chs[k])
    ensures TokenAt(t, k, q, l, ahead')
  {
  }

  lemma JudgedToken(ch: Challenge, ch': Challenge, n: nat, k: nat, q: nat, l: Link,
                    ahead: seq<Msg>, ahead': seq<Msg>)
    requires Party(ch, q) && Right(Tokens(ch, k, q, l, ahead), ch, l.cut)
    requires ch.turns == 0 || (ch.acted1 && ch.acted2)
    requires !ch'.acted1 && !ch'.acted2 && ch'.turns > 0 && ch'.turnNo == n
    requires Coming(ahead', k) == Coming(ahead, k) + [n]
    ensures Right(Tokens(ch', k, q, l, ahead'), ch', l.cut)
  {
    assert Sending(l.up, k) == [] && Hand(l.client, k) == [] && Coming(ahead, k) == [];
  }

  lemma FileToken(s: State, v: Move, q: nat, l: Link, ahead: seq<Msg>, k: nat)
    requires Can(s, v) && v.File? && v.user != q && TokenAt(s, k, q, l, ahead)
    ensures TokenAt(Do(s, v), k, q, l, ahead)
  {
  }

  lemma OtherToken(s: State, v: Move, q: nat, l: Link, ahead: seq<Msg>, k: nat)
    requires Can(s, v) && !v.Begin? && !v.Judge? && !v.File? && TokenAt(s, k, q, l, ahead)
    ensures TokenAt(Do(s, v), k, q, l, ahead)
  {
  }

  lemma MoveToken(s: State, v: Move, q: nat, l: Link, before: seq<Msg>, ahead: seq<Msg>, k: nat)
    requires Can(s, v) && Remembered(s) && Owed(v, q, l, ahead) && Traced(s, q) && Log(s.out, q) == before + ahead
    requires Linked(s, q, l, before, ahead)
    ensures TokenAt(Do(s, v), k, q, l, ahead + Note(s, v, q))
  {
    assert TokenAt(s, k, q, l, ahead);
    if v.Judge? {
      JudgeToken(s, v, q, l, ahead, k);
    } else {
      NoteComing(s, v, q, k);
      ComingAppend(ahead, Note(s, v, q), k);
      if v.Begin? {
        BeginToken(s, v, q, l, before, ahead, k);
      } else if v.File? {
        FileToken(s, v, q, l, ahead, k);
      } else {
        OtherToken(s, v, q, l, ahead, k);
      }
      SameComing(Do(s, v), k, q, l, ahead, ahead + Note(s, v, q));
    }
  }

  lemma SameComing(s: State, k: nat, q: nat, l: Link, ahead: seq<Msg>, ahead': seq<Msg>)
    requires TokenAt(s, k, q, l, ahead) && Coming(ahead', k) == Coming(ahead, k)
    ensures TokenAt(s, k, q, l, ahead')
  {
  }

  // ---- one move ----

  lemma MoveLinked(s: State, v: Move, q: nat, l: Link, before: seq<Msg>, ahead: seq<Msg>)
    requires Can(s, v) && Remembered(s) && FreshMove(s.hist, v) && Owed(v, q, l, ahead)
    requires Traced(s, q) && Log(s.out, q) == before + ahead && Linked(s, q, l, before, ahead)
    ensures Linked(Do(s, v), q, l, before, ahead + Note(s, v, q))
  {
    MoveJoin(s, v, q, l, before, ahead);
    MoveRemembers(s, v);
    ExtendedUp(s.hist, Do(s, v).hist, q, l);
    ExtendedPlay(s.hist, Do(s, v).hist, q, before, l.client);
    MoveIdle(s, v, q);
    forall k: nat
      ensures TokenAt(Do(s, v), k, q, l, ahead + Note(s, v, q))
    {
      MoveToken(s, v, q, l, before, ahead, k);
    }
  }

  lemma NoteGoesAhead(s: State, v: Move, q: nat, before: seq<Msg>, ahead: seq<Msg>)
    requires Can(s, v) && Log(s.out, q) == before + ahead
    ensures Log(Do(s, v).out, q) == before + (ahead + Note(s, v, q))
  {
    MoveLog(s, v, q);
    Associates(before, ahead, Note(s, v, q));
  }

  lemma Associates(a: seq<Msg>, b: seq<Msg>, c: seq<Msg>)
    ensures (a + b) + c == a + (b + c)
  {
  }

  /** A move keeps all that holds of a connection it owes nothing. */
  lemma MoveLink(s: State, v: Move, q: nat, l: Link)
    requires Can(s, v) && Remembered(s) && FreshMove(s.hist, v) && LinkInv(s, q, l)
    requires Owed(v, q, l, Log(s.out, q)[l.pos..])
    ensures LinkInv(Do(s, v), q, l)
  {
    var before, ahead := Log(s.out, q)[..l.pos], Log(s.out, q)[l.pos..];
    assert before + ahead == Log(s.out, q);
    NoteGoesAhead(s, v, q, before, ahead);
    MoveTraces(s, v, q);
    MoveMirrors(s, v, q);
    MoveLinked(s, v, q, l, before, ahead);
    LinkFrom(Do(s, v), q, l, before, ahead + Note(s, v, q));
  }

  // ---- a TURN arrives ----

  /** The head of what `p` sent is a TURN of a running battle: `p` is registered, its key is right, the action is
      owed, and it is meant for the current turn. */
  lemma TurnIsDue(s: State, p: nat, l: Link, before: seq<Msg>, ahead: seq<Msg>)
    requires Remembered(s) && Traced(s, p) && Log(s.out, p) == before + ahead
    requires Linked(s, p, l, before, ahead) && l.up != [] && l.up[0].Act? && FightsAt(s, l.up[0].t.chid)
    ensures
      var t := l.up[0].t;
      var ch := s.chs[t.chid];
      && t.user == p && Party(ch, p) && p in s.users && s.users[p].key == t.key
      && Flag(ch, p) == [] && ch.turns > 0 && t.turnNo == ch.turnNo
  {
    var t := l.up[0].t;
    var ch := s.chs[t.chid];
    assert l.up[0] in l.up;
    assert Proper(s.hist, p, l.client, l.up[0]);
    assert TokenAt(s, t.chid, p, l, ahead);
    BadgeAppend(NoBadge, before, ahead);
    NoJoinRs(BadgeOf(NoBadge, before), ahead);
    assert Sending(l.up, t.chid) == [t.turnNo] + Sending(l.up[1..], t.chid);
    SoleToken(Flag(ch, p), t.turnNo, Sending(l.up[1..], t.chid), Hand(l.client, t.chid) + Coming(ahead, t.chid),
              Tokens(ch, t.chid, p, l, ahead));
  }

  lemma SoleToken(flag: seq<nat>, n: nat, a: seq<nat>, b: seq<nat>, all: seq<nat>)
    requires all == flag + (([n] + a) + b) && |all| <= 1
    ensures flag == [] && a == [] && b == [] && all == [n]
  {
    assert |all| == |flag| + 1 + |a| + |b|;
    assert all[0] == n;
  }

  /** The token of the TURN goes into the server's flag. */
  lemma TurnToken(s: State, p: nat, l: Link, ahead: seq<Msg>, k: nat)
    requires TokenAt(s, k, p, l, ahead) && l.up != [] && l.up[0].Act? && StartedAt(s, l.up[0].t.chid)
    requires
      var t, ch := l.up[0].t, s.chs[l.up[0].t.chid];
      t.user == p && Party(ch, p) && ch.user1 != ch.user2 && Flag(ch, p) == [] && t.turnNo == ch.turnNo
    ensures
      var t := l.up[0].t;
      TokenAt(s.(chs := s.chs[t.chid := Mark(s.chs[t.chid], p, t.action)]), k, p, l.(up := l.up[1..]), ahead)
  {
    var t := l.up[0].t;
    if k == t.chid {
      TokenTaken(s.chs[k], k, p, l, ahead);
    } else {
      OtherTurn(s, s.(chs := s.chs[t.chid := Mark(s.chs[t.chid], p, t.action)]), k, p, l, ahead);
    }
  }

  lemma OtherTurn(s: State, t: State, k: nat, p: nat, l: Link, ahead: seq<Msg>)
    requires TokenAt(s, k, p, l, ahead) && l.up != [] && (l.up[0].Act? ==> l.up[0].t.chid != k)
    requires (k in t.chs <==> k in s.chs) && (k in s.chs ==> t.chs[k] == s.chs[k])
    ensures TokenAt(t, k, p, l.(up := l.up[1..]), ahead)
  {
  }

  lemma TokenTaken(ch: Challenge, k: nat, p: nat, l: Link, ahead: seq<Msg>)
    requires l.up != [] && l.up[0].Act? && l.up[0].t.chid == k
    requires Flag(ch, p) == [] && Party(ch, p) && ch.user1 != ch.user2
    requires l.up[0].t.turnNo == ch.turnNo && Right(Tokens(ch, k, p, l, ahead), ch, l.cut)
    ensures
      var ch' := Mark(ch, p, l.up[0].t.action);
      Tokens(ch', k, p, l.(up := l.up[1..]), ahead) == Tokens(ch, k, p, l, ahead)
  {
    assert Flag(Mark(ch, p, l.up[0].t.action), p) == [ch.turnNo];
    var rest := Hand(l.client, k) + Coming(ahead, k);
    assert ([ch.turnNo] + Sending(l.up[1..], k)) + rest == [ch.turnNo] + (Sending(l.up[1..], k) + rest);
  }

  lemma TurnLinked(s: State, p: nat, l: Link, before: seq<Msg>, ahead: seq<Msg>)
    requires Remembered(s) && Traced(s, p) && Log(s.out, p) == before + ahead
    requires Linked(s, p, l, before, ahead) && l.up != [] && l.up[0].Act? && FightsAt(s, l.up[0].t.chid)
    ensures
      var t := l.up[0].t;
      Linked(Do(s, File(t.chid, t.user, t.action)), p, l.(up := l.up[1..]), before, ahead)
  {
    var t, l' := l.up[0].t, l.(up := l.up[1..]);
    var s' := Do(s, File(t.chid, t.user, t.action));
    TurnIsDue(s, p, l, before, ahead);
    TurnTokens(s, p, l, ahead);
    StartedIsNotAsked(s, t.chid, Mark(s.chs[t.chid], p, t.action), p);
    assert UpPart(s.hist, p, l');
  }

  lemma TurnTokens(s: State, p: nat, l: Link, ahead: seq<Msg>)
    requires TokenPart(s, p, l, ahead) && l.up != [] && l.up[0].Act? && StartedAt(s, l.up[0].t.chid)
    requires
      var t, ch := l.up[0].t, s.chs[l.up[0].t.chid];
      t.user == p && Party(ch, p) && ch.user1 != ch.user2 && Flag(ch, p) == [] && t.turnNo == ch.turnNo
    ensures
      var t := l.up[0].t;
      TokenPart(s.(chs := s.chs[t.chid := Mark(s.chs[t.chid], p, t.action)]), p, l.(up := l.up[1..]), ahead)
  {
    var t, l' := l.up[0].t, l.(up := l.up[1..]);
    var s' := s.(chs := s.chs[t.chid := Mark(s.chs[t.chid], p, t.action)]);
    forall k: nat
      ensures TokenAt(s', k, p, l', ahead)
    {
      assert TokenAt(s, k, p, l, ahead);
      TurnToken(s, p, l, ahead, k);
    }
  }

  lemma StartedIsNotAsked(s: State, k: nat, ch: Challenge, p: nat)
    requires IdlePart(s, p) && k in s.chs && ch.state == Started
    ensures IdlePart(s.(chs := s.chs[k := ch]), p)
  {
  }

  /** Any other request, or a TURN of a battle that is over, takes no token with it. */
  lemma PopLinked(s: State, p: nat, l: Link, before: seq<Msg>, ahead: seq<Msg>)
    requires Linked(s, p, l, before, ahead) && l.up != []
    requires l.up[0].Act? ==> !StartedAt(s, l.up[0].t.chid)
    ensures Linked(s, p, l.(up := l.up[1..]), before, ahead)
    ensures l.up[0].Join? ==> l.client.phase == Joining && Joins(l.up[1..]) == 0 && ahead == [] && p !in s.users
  {
    var l' := l.(up := l.up[1..]);
    forall k: nat
      ensures TokenAt(s, k, p, l', ahead)
    {
      assert TokenAt(s, k, p, l, ahead);
    }
    assert UpPart(s.hist, p, l');
    assert Joins(l.up) == (if l.up[0].Join? then 1 else 0) + Joins(l.up[1..]);
    BadgeAppend(NoBadge, before, []);
    if ahead != [] {
      assert JoinRs(ahead) == (if ahead[0].JoinR? then 1 else 0) + JoinRs(ahead[1..]);
    }
  }
}
