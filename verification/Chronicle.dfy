/** The story of one challenge: the stages it goes through and the messages its two users get about it. */
module Chronicle {
  import opened Protocol
  import opened ServerSpec
  import opened Walk
  import opened Invariants
  import opened Logs
  import opened Moves
  import opened Trace

  // ---- stages ----

  datatype Stage = Unused | Asked | Running | Over

  function StageOf(s: State, k: nat): Stage {
    if k in s.chs then (if s.chs[k].state == Asking then Asked else Running)
    else if k in s.hist.pairs then Over
    else Unused
  }

  predicate Follows(a: Stage, b: Stage) {
    a == b || a == Unused || b == Over || (a == Asked && b == Running)
  }

  /** A challenge is asked, then perhaps runs, then is over for good; its pair never changes. */
  lemma MoveStages(s: State, v: Move, k: nat)
    requires Can(s, v) && Remembered(s) && FreshMove(s.hist, v)
    ensures
      var a, b := StageOf(s, k), StageOf(Do(s, v), k);
      && Follows(a, b)
      && (a == Unused ==> b == Unused || b == Asked)
      && (b == Running && a != Running ==> v.Begin? && v.c.chid == k)
  {
    if v.Judge? {
      JudgeStages(s, v, k);
    }
  }

  lemma JudgeStages(s: State, v: Move, k: nat)
    requires Can(s, v) && v.Judge? && Remembered(s)
    ensures
      var a, b := StageOf(s, k), StageOf(Do(s, v), k);
      a == b || (a == Running && b == Over)
  {
    JudgeReports(s, v);
    MoveHistory(s, v);
    BeginNames(s, v);
  }

  // ---- messages ----

  /** A message that starts battle `k` for its receiver, or reports one of its turns. */
  predicate Tells(m: Msg, k: nat) {
    (m.ChallengeR? && m.error == MeOk && m.chid == k) || (m.TurnR? && m.battle == k)
  }

  /** The part of `ms` that is about battle `k`. */
  function About(ms: seq<Msg>, k: nat): seq<Msg> {
    if ms == [] then [] else (if Tells(ms[0], k) then [ms[0]] else []) + About(ms[1..], k)
  }

  lemma {:induction false} AboutAppend(a: seq<Msg>, b: seq<Msg>, k: nat)
    ensures About(a + b, k) == About(a, k) + About(b, k)
    decreases |a|
  {
    if a == [] {
      assert a + b == b;
    } else {
      assert (a + b)[0] == a[0] && (a + b)[1..] == a[1..] + b;
      AboutAppend(a[1..], b, k);
      var first := if Tells(a[0], k) then [a[0]] else [];
      assert About(a + b, k) == first + About(a[1..] + b, k);
      assert first + (About(a[1..], k) + About(b, k)) == (first + About(a[1..], k)) + About(b, k);
    }
  }

  lemma AboutOne(m: Msg, k: nat)
    ensures About([m], k) == if Tells(m, k) then [m] else []
  {
    assert [m][1..] == [];
  }

  lemma {:induction false} RostersTellNothing(ms: seq<Msg>, k: nat)
    requires Rosters(ms)
    ensures About(ms, k) == []
    decreases |ms|
  {
    if ms == [] {
    } else {
      assert ms[0] in ms;
      RostersTellNothing(ms[1..], k);
    }
  }

  function Report(s: State, k: nat, loser: int, r: Rolls): Msg
    requires k in s.chs
  {
    var ch := Advance(s.chs[k], r.damage);
    TurnReport(k, ch, Decide(ch, loser))
  }

  /** What move `v` adds to the turns of battle `k`. */
  ghost function News(s: State, v: Move, k: nat): seq<Msg> {
    if v.Judge? && v.k == k && k in s.chs then [Report(s, k, v.loser, v.r)] else []
  }

  lemma JudgeTells(s: State, v: Move, p: nat, k: nat)
    requires Can(s, v) && v.Judge? && Remembered(s)
    ensures
      About(Note(s, v, p), k) ==
        if v.k == k && (p == s.hist.pairs[k].0 || p == s.hist.pairs[k].1) then News(s, v, k) else []
  {
    JudgeShape(s, v.k, v.loser, v.r);
    var ch := Advance(s.chs[v.k], v.r.damage);
    var d := Decide(ch, v.loser);
    var m := TurnReport(v.k, ch, d);
    AboutOne(m, k);
    if d.Decided? {
      var n := PairRows(Settle(s.users, ch.user1, ch.user2, d.winner, v.r), ch.user1, ch.user2);
      AboutOne(n, k);
      AboutAppend(When(p == ch.user1 || p == ch.user2, m), [n], k);
    }
    assert [m] + [] == [m];
  }

  lemma BeginTells(s: State, c: ChallengeMsg, p: nat, k: nat)
    requires Can(s, Begin(c))
    ensures About(BeginNote(s, c, p), k)
         == When(c.chid == k && (p == c.id1 || p == c.id2), Reply(c, MeOk, p == c.id1))
  {
    var m, n := PairRows(Engage(s, c).users, c.id1, c.id2), Reply(c, MeOk, p == c.id1);
    AboutOne(m, k);
    AboutOne(n, k);
    AboutAppend(When(p in s.users, m), When(p == c.id1 || p == c.id2, n), k);
  }

  lemma EnterTells(s: State, id: nat, u: User, p: nat, k: nat)
    requires Can(s, Enter(id, u))
    ensures About(Note(s, Enter(id, u), p), k) == []
  {
    var m, ms := JoinR(u.nick, MeOk, id, u.key), Snapshot(s.users[id := u]);
    BatchesAreRosters(Rows(s.users[id := u], Sorted(s.users[id := u].Keys)));
    RostersTellNothing(ms, k);
    AboutAppend([m], ms, k);
    AboutOne(m, k);
    AboutOne(UChange([EntryOf(id, u)]), k);
  }

  lemma LetterTells(s: State, v: Move, p: nat, k: nat)
    requires Can(s, v)
    requires v.Tell? || v.Open? || v.Withdraw? || v.TurnDown? || v.Depart? || v.File?
    ensures About(Note(s, v, p), k) == []
  {
    match v
    case Tell(fd, m) => AboutOne(m, k);
    case Open(c, j) => AboutOne(Relay(c.(chid := j)), k);
    case Withdraw(c) => AboutOne(Reply(c, Cancelled, false), k);
    case TurnDown(c) => AboutOne(Reply(c, Rejected, false), k);
    case Depart(id) => AboutOne(UChange([EntryOf(id, s.users[id].(state := Offline))]), k);
    case File(_, _, _) =>
  }

  /** What connection `p` has been told about battle `k`, when the battle's turns so far are `turns`. */
  function Story(h: History, k: nat, p: nat, turns: seq<Msg>): seq<Msg> {
    if k !in h.begun || k !in h.pairs then []
    else
      var (id1, id2) := h.pairs[k];
      if p == id1 || p == id2 then [ChallengeR(MeOk, id1, id2, k, p == id1)] + turns else []
  }

  ghost predicate Told(s: State, k: nat, turns: seq<Msg>) {
    forall p: nat :: About(Log(s.out, p), k) == Story(s.hist, k, p, turns)
  }

  predicate SameHealth(m: Msg, ch: Challenge) {
    m.TurnR? && m.hp1 == ch.hp1 && m.hp2 == ch.hp2 && m.maxhp1 == ch.maxhp1 && m.maxhp2 == ch.maxhp2
  }

  /** Numbered from 1 and wrapping; only the last turn of a battle that is over says so. */
  ghost predicate RightTurns(s: State, k: nat, turns: seq<Msg>) {
    && (forall i | 0 <= i < |turns| ::
          turns[i].TurnR? && turns[i].battle == k && turns[i].turnNo == (i + 1) % TURN_MODULUS)
    && (StageOf(s, k) == Running ==>
          && |turns| == s.chs[k].turns && (forall m | m in turns :: !m.fin)
          && (turns != [] ==> SameHealth(turns[|turns| - 1], s.chs[k])))
    && (k !in s.hist.begun ==> turns == [])
    && (k in s.hist.begun && k !in s.chs ==>
          |turns| > 0 && turns[|turns| - 1].fin && forall m | m in turns[..|turns| - 1] :: !m.fin)
  }

  lemma NoteTells(s: State, v: Move, p: nat, k: nat)
    requires Can(s, v) && Remembered(s)
    ensures
      About(Note(s, v, p), k) ==
        if v.Begin? then When(v.c.chid == k && (p == v.c.id1 || p == v.c.id2), Reply(v.c, MeOk, p == v.c.id1))
        else if v.Judge? && v.k == k && (p == s.hist.pairs[k].0 || p == s.hist.pairs[k].1) then News(s, v, k)
        else []
  {
    match v
    case Enter(id, u) => EnterTells(s, id, u, p, k);
    case Begin(c) => BeginTells(s, c, p, k);
    case Judge(_, _, _) => JudgeTells(s, v, p, k);
    case _ => LetterTells(s, v, p, k);
  }

  lemma MoveHistory(s: State, v: Move)
    requires Can(s, v)
    ensures
      var h := Do(s, v).hist;
      && h.pairs == (if v.Open? then s.hist.pairs[v.k := (v.c.id1, v.c.id2)] else s.hist.pairs)
      && h.begun == (if v.Begin? then s.hist.begun + {v.c.chid} else s.hist.begun)
  {
    if v.Judge? {
      JudgeShape(s, v.k, v.loser, v.r);
    }
  }

  lemma BeginNames(s: State, v: Move)
    requires Can(s, v) && Remembered(s)
    ensures v.Begin? ==> v.c.chid !in s.hist.begun && v.c.chid in s.hist.pairs
                         && s.hist.pairs[v.c.chid] == (v.c.id1, v.c.id2)
    ensures v.Judge? ==> v.k in s.chs && v.k in s.hist.begun && v.k in s.hist.pairs
  {
  }

  lemma MoveTells(s: State, v: Move, k: nat, turns: seq<Msg>, p: nat)
    requires Can(s, v) && Remembered(s) && FreshMove(s.hist, v) && RightTurns(s, k, turns)
    requires About(Log(s.out, p), k) == Story(s.hist, k, p, turns)
    ensures About(Log(Do(s, v).out, p), k) == Story(Do(s, v).hist, k, p, turns + News(s, v, k))
  {
    MoveLog(s, v, p);
    AboutAppend(Log(s.out, p), Note(s, v, p), k);
    NoteTells(s, v, p, k);
    MoveHistory(s, v);
    BeginNames(s, v);
    BegunNamed(s);
    StoryGrows(s, v, k, turns, p, Do(s, v).hist);
  }

  lemma BegunNamed(s: State)
    requires Remembered(s)
    ensures forall k | k in s.hist.begun :: k in s.hist.pairs
  {
  }

  lemma StoryGrows(s: State, v: Move, k: nat, turns: seq<Msg>, p: nat, h: History)
    requires forall j | j in s.hist.begun :: j in s.hist.pairs
    requires k !in s.hist.begun ==> turns == []
    requires v.Open? ==> v.k !in s.hist.pairs
    requires v.Begin? ==> v.c.chid !in s.hist.begun && v.c.chid in s.hist.pairs
                          && s.hist.pairs[v.c.chid] == (v.c.id1, v.c.id2)
    requires v.Judge? ==> v.k in s.chs && v.k in s.hist.begun && v.k in s.hist.pairs
    requires h.pairs == (if v.Open? then s.hist.pairs[v.k := (v.c.id1, v.c.id2)] else s.hist.pairs)
    requires h.begun == (if v.Begin? then s.hist.begun + {v.c.chid} else s.hist.begun)
    ensures Story(h, k, p, turns + News(s, v, k))
         == Story(s.hist, k, p, turns) +
            if v.Begin? then When(v.c.chid == k && (p == v.c.id1 || p == v.c.id2), Reply(v.c, MeOk, p == v.c.id1))
            else if v.Judge? && v.k == k && (p == s.hist.pairs[k].0 || p == s.hist.pairs[k].1) then News(s, v, k)
            else []
  {
    assert turns + [] == turns;
  }

  /** The report of a judged turn carries the next number, and is final exactly when the challenge goes. */
  lemma JudgeReports(s: State, v: Move)
    requires Can(s, v) && v.Judge?
    ensures
      var k, t, m := v.k, Do(s, v), Report(s, v.k, v.loser, v.r);
      && m.TurnR? && m.battle == k && m.turnNo == (s.chs[k].turns + 1) % TURN_MODULUS
      && (m.fin <==> k !in t.chs)
      && (k in t.chs ==> t.chs[k].state == Started && t.chs[k].turns == s.chs[k].turns + 1 && SameHealth(m, t.chs[k]))
      && t.hist.begun == s.hist.begun
      && (forall j | j != k :: (j in t.chs <==> j in s.chs) && (j in s.chs ==> t.chs[j] == s.chs[j]))
  {
    JudgeShape(s, v.k, v.loser, v.r);
    AdvanceHealthy(s.chs[v.k], v.r.damage, v.loser);
  }

  lemma JudgeTurns(s: State, v: Move, k: nat, turns: seq<Msg>)
    requires Can(s, v) && v.Judge? && Remembered(s) && RightTurns(s, k, turns)
    ensures RightTurns(Do(s, v), k, turns + News(s, v, k))
  {
    JudgeReports(s, v);
    BeginNames(s, v);
    if v.k == k {
      assert StageOf(s, k) == Running;
      ReportFollows(s, Do(s, v), k, turns, Report(s, k, v.loser, v.r));
    } else {
      assert turns + [] == turns;
      SameTurns(s, Do(s, v), k, turns);
    }
  }

  lemma SameTurns(s: State, t: State, k: nat, turns: seq<Msg>)
    requires RightTurns(s, k, turns) && t.hist.begun == s.hist.begun
    requires (k in t.chs <==> k in s.chs) && (k in s.chs ==> t.chs[k] == s.chs[k])
    requires k in s.chs ==> (k in s.hist.begun <==> s.chs[k].state == Started)
    ensures RightTurns(t, k, turns)
  {
  }

  lemma ReportFollows(s: State, t: State, k: nat, turns: seq<Msg>, m: Msg)
    requires StageOf(s, k) == Running && RightTurns(s, k, turns) && k in s.hist.begun && k in t.hist.begun
    requires m.TurnR? && m.battle == k && m.turnNo == (s.chs[k].turns + 1) % TURN_MODULUS
    requires m.fin <==> k !in t.chs
    requires k in t.chs ==> t.chs[k].state == Started && t.chs[k].turns == s.chs[k].turns + 1 && SameHealth(m, t.chs[k])
    ensures RightTurns(t, k, turns + [m])
  {
    assert (turns + [m])[..|turns|] == turns;
  }

  lemma BeginTurns(s: State, v: Move, k: nat, turns: seq<Msg>)
    requires Can(s, v) && v.Begin? && Remembered(s) && RightTurns(s, k, turns)
    ensures RightTurns(Do(s, v), k, turns)
  {
    BeginNames(s, v);
    MoveHistory(s, v);
  }

  lemma MoveTurns(s: State, v: Move, k: nat, turns: seq<Msg>)
    requires Can(s, v) && Remembered(s) && FreshMove(s.hist, v) && RightTurns(s, k, turns)
    ensures RightTurns(Do(s, v), k, turns + News(s, v, k))
  {
    assert turns + [] == turns;
    match v
    case Judge(_, _, _) => JudgeTurns(s, v, k, turns);
    case Begin(_) => BeginTurns(s, v, k, turns);
    case Open(_, _) => BegunNamed(s);
    case _ =>
  }

  // ---- hit points from turn to turn ----

  /** What a pair of actions costs the two users. */
  predicate Costs(a1: nat, a2: nat, loss1: int, loss2: int) {
    && (if Beats(a2, a1) then 1 <= loss1 <= 5 else loss1 == 0)
    && (if Beats(a1, a2) then 1 <= loss2 <= 5 else loss2 == 0)
  }

  /** Between report `prev` and the next one, `m`, hit points change as the actions that `m` gives dictate; they stay
      when the turn number has just wrapped to 0, and when the battle ends by a user leaving. */
  predicate Deals(prev: Msg, m: Msg) {
    && prev.TurnR? && m.TurnR? && m.maxhp1 == prev.maxhp1 && m.maxhp2 == prev.maxhp2
    && var loss1, loss2 := prev.hp1 - m.hp1, prev.hp2 - m.hp2;
       if prev.turnNo == 0 || (m.fin && m.hp1 > 0 && m.hp2 > 0) then loss1 == 0 && loss2 == 0
       else Costs(m.action1, m.action2, loss1, loss2)
  }

  /** Until the end both users stand; at the end at most one does not, and that one has lost. */
  predicate Stands(m: Msg, id1: nat, id2: nat) {
    && m.TurnR? && m.hp1 <= MAXHP && m.hp2 <= MAXHP
    && (if m.fin then
          && (m.winner == id1 || m.winner == id2)
          && (m.hp1 <= 0 ==> m.winner == id2 && -4 <= m.hp1 && m.hp2 > 0)
          && (m.hp2 <= 0 ==> m.winner == id1 && -4 <= m.hp2 && m.hp1 > 0)
        else m.hp1 > 0 && m.hp2 > 0)
  }

  predicate FirstTurn(m: Msg) {
    m.TurnR? && m.hp1 == m.hp2 == m.maxhp1 == m.maxhp2 == MAXHP
  }

  ghost predicate FairTurns(s: State, k: nat, turns: seq<Msg>) {
    && (turns != [] ==> FirstTurn(turns[0]))
    && (forall i | 1 <= i < |turns| :: Deals(turns[i - 1], turns[i]))
    && (k in s.hist.pairs ==> forall i | 0 <= i < |turns| :: Stands(turns[i], s.hist.pairs[k].0, s.hist.pairs[k].1))
    && (StageOf(s, k) == Running && turns == [] ==> Rested(s.chs[k]))
  }

  predicate Rested(ch: Challenge) {
    ch.turnNo == 0 && ch.hp1 == ch.hp2 == ch.maxhp1 == ch.maxhp2 == MAXHP
  }

  lemma AdvanceFirst(k: nat, ch: Challenge, damage: nat, loser: int)
    requires Rested(ch) && ch.user1 != ch.user2 && (loser == -1 || loser == ch.user1 || loser == ch.user2)
    ensures
      var ch' := Advance(ch, damage);
      var m := TurnReport(k, ch', Decide(ch', loser));
      FirstTurn(m) && Stands(m, ch.user1, ch.user2)
  {
  }

  lemma AdvanceDeals(k: nat, prev: Msg, ch: Challenge, damage: nat, loser: int)
    requires ch.state == Started && ch.user1 != ch.user2 && Healthy(ch.(acted1 := false, acted2 := false))
    requires Due(ch, loser) && ch.turns > 0
    requires SameHealth(prev, ch) && prev.turnNo == ch.turnNo
    ensures
      var ch' := Advance(ch, damage);
      var m := TurnReport(k, ch', Decide(ch', loser));
      Deals(prev, m) && Stands(m, ch.user1, ch.user2)
  {
  }

  lemma JudgeFair(s: State, v: Move, k: nat, turns: seq<Msg>)
    requires Can(s, v) && v.Judge? && Remembered(s) && RightTurns(s, k, turns) && FairTurns(s, k, turns)
    ensures FairTurns(Do(s, v), k, turns + News(s, v, k))
  {
    JudgeRemembers(s, v.k, v.loser, v.r);
    if v.k == k {
      assert StageOf(s, k) == Running;
      var ch := s.chs[k];
      if turns == [] {
        AdvanceFirst(k, ch, v.r.damage, v.loser);
      } else {
        AdvanceDeals(k, turns[|turns| - 1], ch, v.r.damage, v.loser);
      }
      FairReport(s, Do(s, v), k, turns, Report(s, k, v.loser, v.r));
    } else {
      assert turns + [] == turns;
      JudgeReports(s, v);
      SameFair(s, Do(s, v), k, turns);
    }
  }

  lemma FairReport(s: State, t: State, k: nat, turns: seq<Msg>, m: Msg)
    requires FairTurns(s, k, turns) && t.hist.pairs == s.hist.pairs && k in s.hist.pairs
    requires if turns == [] then FirstTurn(m) else Deals(turns[|turns| - 1], m)
    requires Stands(m, s.hist.pairs[k].0, s.hist.pairs[k].1)
    ensures FairTurns(t, k, turns + [m])
  {
    var more := turns + [m];
    forall i | 1 <= i < |more|
      ensures Deals(more[i - 1], more[i])
    {
      assert more[i - 1] == turns[i - 1];
      assert i < |turns| ==> more[i] == turns[i];
    }
  }

  lemma SameFair(s: State, t: State, k: nat, turns: seq<Msg>)
    requires FairTurns(s, k, turns)
    requires k in t.hist.pairs && turns != [] ==> k in s.hist.pairs && t.hist.pairs[k] == s.hist.pairs[k]
    requires k in t.chs && t.chs[k].state == Started && turns == [] ==> Rested(t.chs[k])
    ensures FairTurns(t, k, turns)
  {
  }

  lemma BeginRests(s: State, v: Move, k: nat)
    requires Can(s, v) && !v.Judge?
    ensures StageOf(Do(s, v), k) == Running ==>
              || (k in s.chs && s.chs[k].state == Started && Do(s, v).chs[k] == s.chs[k])
              || (v.File? && k in s.chs && s.chs[k].state == Started && (Rested(s.chs[k]) ==> Rested(Do(s, v).chs[k])))
              || (v.Begin? && Rested(Do(s, v).chs[k]))
  {
  }

  lemma MoveFair(s: State, v: Move, k: nat, turns: seq<Msg>)
    requires Can(s, v) && Remembered(s) && FreshMove(s.hist, v) && RightTurns(s, k, turns) && FairTurns(s, k, turns)
    ensures FairTurns(Do(s, v), k, turns + News(s, v, k))
  {
    if v.Judge? {
      JudgeFair(s, v, k, turns);
    } else {
      assert turns + [] == turns;
      MoveHistory(s, v);
      BegunNamed(s);
      BeginRests(s, v, k);
      SameFair(s, Do(s, v), k, turns);
    }
  }

  ghost predicate Chronicled(s: State, k: nat) {
    exists turns: seq<Msg> :: Told(s, k, turns) && RightTurns(s, k, turns) && FairTurns(s, k, turns)
  }

  lemma MoveChronicles(s: State, v: Move, k: nat)
    requires Can(s, v) && Remembered(s) && FreshMove(s.hist, v) && Chronicled(s, k)
    ensures Chronicled(Do(s, v), k)
  {
    var turns: seq<Msg> :| Told(s, k, turns) && RightTurns(s, k, turns) && FairTurns(s, k, turns);
    forall p: nat
      ensures About(Log(Do(s, v).out, p), k) == Story(Do(s, v).hist, k, p, turns + News(s, v, k))
    {
      MoveTells(s, v, k, turns, p);
    }
    MoveTurns(s, v, k, turns);
    MoveFair(s, v, k, turns);
    assert Told(Do(s, v), k, turns + News(s, v, k));
  }

  // ---- every run ----

  lemma {:induction false} MovesChronicle(s: State, vs: seq<Move>, k: nat)
    requires CanAll(s, vs) && FreshAll(s, vs) && Remembered(s) && Chronicled(s, k)
    ensures Remembered(DoAll(s, vs)) && Chronicled(DoAll(s, vs), k) && Follows(StageOf(s, k), StageOf(DoAll(s, vs), k))
    decreases |vs|
  {
    if vs == [] {
    } else {
      MoveChronicles(s, vs[0], k);
      MoveRemembers(s, vs[0]);
      MoveStages(s, vs[0], k);
      MovesChronicle(Do(s, vs[0]), vs[1..], k);
    }
  }

  ghost predicate FreshRun(s: State, es: seq<Event>)
    decreases |es|
  {
    es == [] || (Fresh(s, es[0]) && (Step(s, es[0]).Next? ==> FreshRun(Step(s, es[0]).s, es[1..])))
  }

  lemma {:induction false} RunChronicles(s: State, es: seq<Event>, k: nat)
    requires Inv(s) && Remembered(s) && Chronicled(s, k) && ConformingRun(s, es) && FreshRun(s, es)
    ensures
      var o := Run(s, es);
      o.Next? && Remembered(o.s) && Chronicled(o.s, k) && Follows(StageOf(s, k), StageOf(o.s, k))
    decreases |es|
  {
    if es == [] {
    } else {
      StepKeeps(s, es[0]);
      StepIsPlan(s, es[0]);
      FreshPlan(s, es[0]);
      MovesChronicle(s, Plan(s, es[0]), k);
      RunChronicles(Step(s, es[0]).s, es[1..], k);
    }
  }

  /** The number of reports that show fewer hit points than the one before. */
  function Damaging(turns: seq<Msg>): nat {
    if |turns| <= 1 then 0
    else
      var a, b := turns[|turns| - 2], turns[|turns| - 1];
      Damaging(turns[..|turns| - 1]) + if a.TurnR? && b.TurnR? && a.hp1 + a.hp2 > b.hp1 + b.hp2 then 1 else 0
  }

  /** Every damaging turn uses up a hit point. */
  lemma {:induction false} DamageIsPaid(turns: seq<Msg>)
    requires turns != [] && FirstTurn(turns[0]) && forall i | 1 <= i < |turns| :: Deals(turns[i - 1], turns[i])
    ensures turns[|turns| - 1].TurnR?
    ensures Damaging(turns) + turns[|turns| - 1].hp1 + turns[|turns| - 1].hp2 <= 2 * MAXHP
    decreases |turns|
  {
    if |turns| == 1 {
    } else {
      var shorter := turns[..|turns| - 1];
      forall i | 1 <= i < |shorter|
        ensures Deals(shorter[i - 1], shorter[i])
      {
        assert shorter[i - 1] == turns[i - 1] && shorter[i] == turns[i];
      }
      DamageIsPaid(shorter);
      assert Deals(turns[|turns| - 2], turns[|turns| - 1]);
    }
  }

  /** A whole battle, its end included, has at most 19 damaging turns. */
  lemma FewDamagingTurns(s: State, k: nat, turns: seq<Msg>)
    requires RightTurns(s, k, turns) && FairTurns(s, k, turns) && Remembered(s)
    ensures Damaging(turns) <= 2 * MAXHP - 1
  {
    if |turns| > 1 {
      BegunNamed(s);
      var prior := turns[..|turns| - 1];
      forall i | 1 <= i < |prior|
        ensures Deals(prior[i - 1], prior[i])
      {
        assert prior[i - 1] == turns[i - 1] && prior[i] == turns[i];
      }
      DamageIsPaid(prior);
      assert !prior[|prior| - 1].fin;
      assert Stands(turns[|prior| - 1], s.hist.pairs[k].0, s.hist.pairs[k].1);
    }
  }

  /** The story of challenge `k` on every run: both users get the same turns after their answer, numbered in order, hit
      points changing as the actions dictate, the last turn and only the last one final; nobody else hears of it. */
  lemma ChallengeTrace(es: seq<Event>, k: nat)
    requires ConformingRun(INITIAL, es) && FreshRun(INITIAL, es)
    ensures Run(INITIAL, es).Next?
    ensures
      var s := Run(INITIAL, es).s;
      exists turns: seq<Msg> ::
        && (forall p: nat :: About(Log(s.out, p), k) == Story(s.hist, k, p, turns))
        && RightTurns(s, k, turns) && FairTurns(s, k, turns) && Damaging(turns) <= 2 * MAXHP - 1
  {
    assert Told(INITIAL, k, []) && RightTurns(INITIAL, k, []) && FairTurns(INITIAL, k, []);
    RunChronicles(INITIAL, es, k);
    var s := Run(INITIAL, es).s;
    var turns: seq<Msg> :| Told(s, k, turns) && RightTurns(s, k, turns) && FairTurns(s, k, turns);
    FewDamagingTurns(s, k, turns);
  }
}
