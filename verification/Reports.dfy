/** What was played, according to the reports of a battle: every report is traced to the event that caused it, and the
    actions it gives to the TURNs that were filed. */
module Reports {
  import opened Protocol
  import opened ServerSpec
  import opened Invariants
  import opened Walk
  import opened Logs
  import opened Moves
  import opened Trace

  // ---- filing ----

  predicate OwesAction(ch: Challenge, user: nat) {
    (user == ch.user1 && !ch.acted1) || (user == ch.user2 && !ch.acted2)
  }

  /** TURN `t` counts: its challenge exists, its sender is registered, shows its key, and owes an action. */
  predicate Files(s: State, t: TurnMsg) {
    && t.chid in s.chs && t.user in s.users && s.users[t.user].key == t.key
    && OwesAction(s.chs[t.chid], t.user)
  }

  /** For each challenge and user, the action of the last TURN that counted. */
  type Notes = map<(nat, nat), nat>

  function Jot(f: Notes, s: State, e: Event): Notes {
    if e.EvTurn? && Files(s, e.t) then f[(e.t.chid, e.t.user) := e.t.action] else f
  }

  /** The notes of whoever reads along from the start. */
  function Notebook(es: seq<Event>): Notes {
    if es == [] then map[]
    else
      var earlier := es[..|es| - 1];
      var o := Run(INITIAL, earlier);
      if o.Crash? then Notebook(earlier) else Jot(Notebook(earlier), o.s, es[|es| - 1])
  }

  predicate Noted(f: Notes, k: nat, user: nat, action: nat) {
    (k, user) in f && f[(k, user)] == action
  }

  /** The actions waiting at the server are the last that counted. */
  predicate WaitingNoted(f: Notes, k: nat, ch: Challenge) {
    (ch.acted1 ==> Noted(f, k, ch.user1, ch.act1)) && (ch.acted2 ==> Noted(f, k, ch.user2, ch.act2))
  }

  ghost predicate AllNoted(f: Notes, s: State) {
    forall k | k in s.chs :: WaitingNoted(f, k, s.chs[k])
  }

  // ---- what a step does to the actions that wait ----

  predicate NoFlags(ch: Challenge) {
    !ch.acted1 && !ch.acted2
  }

  lemma JudgeClearsFlags(s: State, k: nat, loser: int, r: Rolls)
    requires k in s.chs
    ensures
      var o := JudgeTurn(s, k, loser, r);
      o.Next? ==> forall j | j in o.s.chs ::
        j in s.chs && if j == k then NoFlags(o.s.chs[j]) else o.s.chs[j] == s.chs[j]
  {
  }

  lemma QuitFlags(s: State, id: nat, r: Rolls)
    requires id in s.users
    ensures
      var o := QuitUser(s, id, r);
      o.Next? ==> forall j | j in o.s.chs :: NoFlags(o.s.chs[j]) || (j in s.chs && o.s.chs[j] == s.chs[j])
  {
    if s.users[id].chid in s.chs {
      JudgeClearsFlags(s, s.users[id].chid, id, r);
    }
  }

  lemma ChallengeFlags(s: State, fd: nat, c: ChallengeMsg, draws: Draws, r: Rolls)
    ensures
      var o := HandleChallenge(s, fd, c, draws, r);
      o.Next? ==> forall j | j in o.s.chs :: NoFlags(o.s.chs[j]) || (j in s.chs && o.s.chs[j] == s.chs[j])
  {
    if c.id1 in s.users && c.id2 in s.users && c.chid in s.chs {
      JudgeClearsFlags(Engage(s, c), c.chid, -1, r);
    }
  }

  lemma TurnFlags(s: State, t: TurnMsg, r: Rolls)
    ensures
      var o := HandleTurn(s, t, r);
      o.Next? ==> forall j | j in o.s.chs ::
        || NoFlags(o.s.chs[j]) || (j in s.chs && o.s.chs[j] == s.chs[j])
        || (j == t.chid && Files(s, t) && o.s.chs[j] == Mark(s.chs[j], t.user, t.action))
  {
    if t.chid in s.chs {
      JudgeClearsFlags(s.(chs := s.chs[t.chid := Mark(s.chs[t.chid], t.user, t.action)]), t.chid, -1, r);
    }
  }

  /** An action waits after a step only if it waited before, or the step filed it. */
  lemma StepFlags(s: State, e: Event)
    ensures
      var o := Step(s, e);
      o.Next? ==> forall j | j in o.s.chs ::
        || NoFlags(o.s.chs[j]) || (j in s.chs && o.s.chs[j] == s.chs[j])
        || (e.EvTurn? && j == e.t.chid && Files(s, e.t) && o.s.chs[j] == Mark(s.chs[j], e.t.user, e.t.action))
  {
    match e
    case EvJoin(_, _, _, _) =>
    case EvQuit(id, key, r) => if id in s.users { QuitFlags(s, id, r); }
    case EvDisconnect(fd, r) =>
      if fd in Fds(s.users) {
        OwnerIsRegistered(s.users, fd);
        QuitFlags(s, Least(Owners(s.users, fd)), r);
      }
    case EvChallenge(fd, c, draws, r) => ChallengeFlags(s, fd, c, draws, r);
    case EvTurn(t, r) => TurnFlags(s, t, r);
  }

  lemma StepNotes(f: Notes, s: State, e: Event)
    requires AllNoted(f, s) && TwoSided(s.chs) && Step(s, e).Next?
    ensures AllNoted(Jot(f, s, e), Step(s, e).s)
  {
    var t, f' := Step(s, e).s, Jot(f, s, e);
    StepFlags(s, e);
    forall j | j in t.chs
      ensures WaitingNoted(f', j, t.chs[j])
    {
      assert j in s.chs ==> WaitingNoted(f, j, s.chs[j]);
      if j in s.chs && e.EvTurn? && Files(s, e.t) && j == e.t.chid {
        MarkNoted(f, j, s.chs[j], e.t.user, e.t.action);
      }
    }
  }

  lemma MarkNoted(f: Notes, k: nat, ch: Challenge, user: nat, action: nat)
    requires WaitingNoted(f, k, ch) && OwesAction(ch, user) && ch.user1 != ch.user2
    ensures WaitingNoted(f[(k, user) := action], k, Mark(ch, user, action))
    ensures WaitingNoted(f[(k, user) := action], k, ch)
  {
  }

  // ---- what a step reports ----

  /** Why report `m` is sent in state `s`: an accept gives the first turn; a leave the last; otherwise both users have
      acted, and the report gives the two actions. */
  predicate Cause(s: State, e: Event, m: Msg)
    requires m.TurnR?
  {
    match e
    case EvChallenge(_, c, _, _) => c.action == CAccept && c.chid == m.battle && AskingAt(s, c.chid) && m.turnNo == 1
    case EvTurn(t, _) =>
      && t.chid == m.battle && StartedAt(s, m.battle) && Files(s, t)
      && m.turnNo == (s.chs[m.battle].turnNo + 1) % TURN_MODULUS
      && var ch := s.chs[m.battle];
         if t.user == ch.user1 then ch.acted2 && m.action1 == t.action && m.action2 == ch.act2
         else ch.acted1 && m.action1 == ch.act1 && m.action2 == t.action
    case EvJoin(_, _, _, _) => false
    case _ => StartedAt(s, m.battle) && m.fin && m.hp1 == s.chs[m.battle].hp1 && m.hp2 == s.chs[m.battle].hp2
  }

  /** A note that holds no report but that of judging. */
  lemma NoteReports(s: State, v: Move, p: nat)
    requires Can(s, v)
    ensures forall m | m in Note(s, v, p) && m.TurnR? :: ReportOf(s, v, m)
  {
    match v
    case Enter(id, u) => BatchesAreRosters(Rows(s.users[id := u], Sorted(s.users[id := u].Keys)));
    case Judge(k, loser, r) => JudgeShape(s, k, loser, r);
    case _ =>
  }

  /** What was sent to `p` between `out` and `out'`. */
  function Since(out: seq<Sent>, out': seq<Sent>, p: nat): seq<Msg> {
    if |Log(out, p)| <= |Log(out', p)| then Log(out', p)[|Log(out, p)|..] else []
  }

  /** Report `m` is what one of the moves judges. */
  ghost predicate Judged(s: State, vs: seq<Move>, m: Msg)
    decreases |vs|
  {
    vs != [] && (ReportOf(s, vs[0], m) || Judged(Do(s, vs[0]), vs[1..], m))
  }

  predicate ReportOf(s: State, v: Move, m: Msg) {
    && v.Judge? && v.k in s.chs
    && var ch := Advance(s.chs[v.k], v.r.damage); m == TurnReport(v.k, ch, Decide(ch, v.loser))
  }

  lemma {:induction false} PlanReports(s: State, vs: seq<Move>, p: nat)
    requires CanAll(s, vs)
    ensures Log(s.out, p) <= Log(DoAll(s, vs).out, p)
    ensures forall m | m in Since(s.out, DoAll(s, vs).out, p) && m.TurnR? :: Judged(s, vs, m)
    decreases |vs|
  {
    if vs == [] {
    } else {
      var t, w := Do(s, vs[0]), DoAll(s, vs);
      MoveLog(s, vs[0], p);
      NoteReports(s, vs[0], p);
      PlanReports(t, vs[1..], p);
      TailSplits(Log(s.out, p), Note(s, vs[0], p), Log(w.out, p));
    }
  }

  lemma TailSplits(a: seq<Msg>, note: seq<Msg>, c: seq<Msg>)
    requires a + note <= c
    ensures c[|a|..] == note + c[|a + note|..]
  {
  }

  /** The last judgement of a leave. */
  lemma LeaveCause(s: State, k: nat, id: nat, r: Rolls, e: Event)
    requires Can(s, Judge(k, id, r)) && (e.EvQuit? || e.EvDisconnect?)
    ensures
      var ch := Advance(s.chs[k], r.damage);
      Cause(s, e, TurnReport(k, ch, Decide(ch, id)))
  {
  }

  lemma AcceptCause(s: State, fd: nat, c: ChallengeMsg, draws: Draws, r: Rolls, r': Rolls)
    requires Can(s, Begin(c)) && c.action == CAccept
    ensures
      var ch := Advance(Engage(s, c).chs[c.chid], r.damage);
      Cause(s, EvChallenge(fd, c, draws, r'), TurnReport(c.chid, ch, Decide(ch, -1)))
  {
  }

  lemma TurnCause(s: State, t: TurnMsg, r: Rolls, r': Rolls)
    requires t.chid in s.chs && t.user in s.users && s.users[t.user].key == t.key && StartedAt(s, t.chid)
    requires s.chs[t.chid].user1 != s.chs[t.chid].user2 && !(s.chs[t.chid].acted1 && s.chs[t.chid].acted2)
    requires var ch := Mark(s.chs[t.chid], t.user, t.action); ch.acted1 && ch.acted2
    ensures
      var ch := Advance(Mark(s.chs[t.chid], t.user, t.action), r.damage);
      Cause(s, EvTurn(t, r'), TurnReport(t.chid, ch, Decide(ch, -1)))
  {
  }

  lemma JudgedTwo(s: State, vs: seq<Move>, m: Msg)
    requires 1 <= |vs| <= 2
    ensures Judged(s, vs, m) <==> ReportOf(s, vs[0], m) || (|vs| == 2 && ReportOf(Do(s, vs[0]), vs[1], m))
  {
    if |vs| == 2 {
      assert vs[1..] == [vs[1]];
      JudgedOne(Do(s, vs[0]), vs[1], m);
    } else {
      assert vs[1..] == [];
    }
  }

  lemma JudgedOne(s: State, v: Move, m: Msg)
    ensures Judged(s, [v], m) <==> ReportOf(s, v, m)
  {
    assert [v][1..] == [];
  }

  lemma QuitCause(s: State, id: nat, r: Rolls, e: Event, m: Msg)
    requires CanAll(s, QuitPlan(s, id, r)) && Judged(s, QuitPlan(s, id, r), m) && (e.EvQuit? || e.EvDisconnect?)
    ensures m.TurnR? && Cause(s, e, m)
  {
    JudgedTwo(s, QuitPlan(s, id, r), m);
    LeaveCause(s, s.users[id].chid, id, r, e);
  }

  lemma ChallengeCause(s: State, fd: nat, c: ChallengeMsg, draws: Draws, r: Rolls, m: Msg)
    requires var vs := ChallengePlan(s, fd, c, draws, r); CanAll(s, vs) && Judged(s, vs, m)
    ensures m.TurnR? && Cause(s, EvChallenge(fd, c, draws, r), m)
  {
    var vs := ChallengePlan(s, fd, c, draws, r);
    JudgedTwo(s, vs, m);
    AcceptCause(s, fd, c, draws, r, r);
  }

  lemma FiledCause(s: State, t: TurnMsg, r: Rolls, m: Msg)
    requires Steady(s) && AllHealthy(s.chs) && !CompletesEarly(s, t)
    requires var vs := TurnPlan(s, t, r); CanAll(s, vs) && Judged(s, vs, m)
    ensures m.TurnR? && Cause(s, EvTurn(t, r), m)
  {
    assert Healthy(s.chs[t.chid]);
    JudgedTwo(s, TurnPlan(s, t, r), m);
    TurnCause(s, t, r, r);
  }

  lemma JudgedCause(s: State, e: Event, m: Msg)
    requires Steady(s) && AllHealthy(s.chs) && Conforms(s, e) && CanAll(s, Plan(s, e)) && Judged(s, Plan(s, e), m)
    ensures m.TurnR? && Cause(s, e, m)
  {
    match e
    case EvJoin(fd, nick, key, garbage) => JudgedTwo(s, Plan(s, e), m);
    case EvQuit(id, _, r) => QuitCause(s, id, r, e, m);
    case EvDisconnect(fd, r) => QuitCause(s, fd, r, e, m);
    case EvChallenge(fd, c, draws, r) => ChallengeCause(s, fd, c, draws, r, m);
    case EvTurn(t, r) => FiledCause(s, t, r, m);
  }

  /** A step adds to what a connection was sent, and every report it adds has its cause. */
  lemma StepReports(s: State, e: Event, p: nat)
    requires Inv(s) && Conforms(s, e)
    ensures Step(s, e).Next? && Log(s.out, p) <= Log(Step(s, e).s.out, p)
    ensures forall m | m in Since(s.out, Step(s, e).s.out, p) && m.TurnR? :: Cause(s, e, m)
  {
    InvIsSteady(s);
    StepIsPlan(s, e);
    PlanReports(s, Plan(s, e), p);
    forall m | m in Since(s.out, Step(s, e).s.out, p) && m.TurnR?
      ensures Cause(s, e, m)
    {
      JudgedCause(s, e, m);
    }
  }

  // ---- every run ----

  /** The report at place `i` of what `p` was sent is sent at event `n`, which causes it; and if that is a TURN, the
      report gives for each user of the battle the action of the last TURN that counted. */
  ghost predicate SentAt(es: seq<Event>, n: nat, p: nat, i: nat, m: Msg)
    requires m.TurnR?
  {
    && n < |es| && Run(INITIAL, es[..n]).Next? && Run(INITIAL, es[..n + 1]).Next?
    && var s, t := Run(INITIAL, es[..n]).s, Run(INITIAL, es[..n + 1]).s;
       && |Log(s.out, p)| <= i < |Log(t.out, p)|
       && Cause(s, es[n], m)
       && (es[n].EvTurn? ==>
             && Noted(Notebook(es[..n + 1]), m.battle, s.chs[m.battle].user1, m.action1)
             && Noted(Notebook(es[..n + 1]), m.battle, s.chs[m.battle].user2, m.action2))
  }

  lemma RunOne(s: State, e: Event)
    ensures Run(s, [e]) == Step(s, e)
  {
    assert [e][1..] == [];
  }

  lemma {:induction false} ConformingPrefix(s: State, es: seq<Event>, e: Event)
    requires ConformingRun(s, es + [e])
    ensures ConformingRun(s, es) && (Run(s, es).Next? ==> Conforms(Run(s, es).s, e))
    decreases |es|
  {
    if es == [] {
      assert es + [e] == [e];
    } else {
      assert (es + [e])[0] == es[0] && (es + [e])[1..] == es[1..] + [e];
      if Step(s, es[0]).Next? {
        ConformingPrefix(Step(s, es[0]).s, es[1..], e);
      }
    }
  }

  /** One more event. */
  lemma LastEvent(es: seq<Event>)
    requires es != [] && ConformingRun(INITIAL, es)
    ensures
      var earlier, e := es[..|es| - 1], es[|es| - 1];
      && es == earlier + [e] && ConformingRun(INITIAL, earlier) && Run(INITIAL, earlier).Next?
      && Inv(Run(INITIAL, earlier).s) && Conforms(Run(INITIAL, earlier).s, e)
      && Run(INITIAL, es) == Step(Run(INITIAL, earlier).s, e)
  {
    var earlier, e := es[..|es| - 1], es[|es| - 1];
    assert es == earlier + [e];
    ConformingPrefix(INITIAL, earlier, e);
    EveryRunIsSafe(earlier);
    RunAppend(INITIAL, earlier, [e]);
    RunOne(Run(INITIAL, earlier).s, e);
  }

  lemma {:induction false} RunNotes(es: seq<Event>)
    requires ConformingRun(INITIAL, es)
    ensures Run(INITIAL, es).Next? && AllNoted(Notebook(es), Run(INITIAL, es).s)
    decreases |es|
  {
    EveryRunIsSafe(es);
    if es == [] {
    } else {
      var earlier := es[..|es| - 1];
      LastEvent(es);
      RunNotes(earlier);
      InvIsSteady(Run(INITIAL, earlier).s);
      StepNotes(Notebook(earlier), Run(INITIAL, earlier).s, es[|es| - 1]);
    }
  }

  /** The report of a pair gives what the notebook has. */
  lemma PairIsNoted(f: Notes, s: State, e: Event, m: Msg)
    requires m.TurnR? && e.EvTurn? && Cause(s, e, m) && AllNoted(f, s) && TwoSided(s.chs)
    ensures Noted(Jot(f, s, e), m.battle, s.chs[m.battle].user1, m.action1)
    ensures Noted(Jot(f, s, e), m.battle, s.chs[m.battle].user2, m.action2)
  {
    assert WaitingNoted(f, m.battle, s.chs[m.battle]);
  }

  /** On every run every report that a connection was sent has its cause: an accept, for the first turn only; a leave,
      for the last only; otherwise a second action, and then the report gives exactly the actions of the last TURN that
      counted for user 1 and for user 2. */
  lemma {:induction false} ReportsAreFiled(es: seq<Event>, p: nat, i: nat)
    requires ConformingRun(INITIAL, es)
    ensures Run(INITIAL, es).Next?
    ensures
      var log := Log(Run(INITIAL, es).s.out, p);
      i < |log| && log[i].TurnR? ==> exists n: nat :: SentAt(es, n, p, i, log[i])
    decreases |es|
  {
    RunNotes(es);
    var log := Log(Run(INITIAL, es).s.out, p);
    if es == [] || i >= |log| || !log[i].TurnR? {
    } else {
      var earlier := es[..|es| - 1];
      EarlierLog(es, p);
      if i < |Log(Run(INITIAL, earlier).s.out, p)| {
        ReportsAreFiled(earlier, p, i);
        var n: nat :| SentAt(earlier, n, p, i, log[i]);
        SentEarlier(es, n, p, i, log[i]);
      } else {
        SentLast(es, p, i);
      }
    }
  }

  lemma EarlierLog(es: seq<Event>, p: nat)
    requires es != [] && ConformingRun(INITIAL, es)
    ensures var earlier := es[..|es| - 1]; ConformingRun(INITIAL, earlier) && Run(INITIAL, earlier).Next?
    ensures Run(INITIAL, es).Next?
    ensures Log(Run(INITIAL, es[..|es| - 1]).s.out, p) <= Log(Run(INITIAL, es).s.out, p)
  {
    LastEvent(es);
    StepReports(Run(INITIAL, es[..|es| - 1]).s, es[|es| - 1], p);
  }

  lemma SentEarlier(es: seq<Event>, n: nat, p: nat, i: nat, m: Msg)
    requires es != [] && m.TurnR? && SentAt(es[..|es| - 1], n, p, i, m)
    ensures SentAt(es, n, p, i, m)
  {
    var earlier := es[..|es| - 1];
    assert es[..n] == earlier[..n] && es[..n + 1] == earlier[..n + 1];
  }

  lemma SentLast(es: seq<Event>, p: nat, i: nat)
    requires es != [] && ConformingRun(INITIAL, es) && Run(INITIAL, es).Next?
    requires Run(INITIAL, es[..|es| - 1]).Next?
    requires |Log(Run(INITIAL, es[..|es| - 1]).s.out, p)| <= i < |Log(Run(INITIAL, es).s.out, p)|
    requires Log(Run(INITIAL, es).s.out, p)[i].TurnR?
    ensures SentAt(es, |es| - 1, p, i, Log(Run(INITIAL, es).s.out, p)[i])
  {
    var earlier, n := es[..|es| - 1], |es| - 1;
    LastEvent(es);
    RunNotes(earlier);
    StepSends(Notebook(earlier), Run(INITIAL, earlier).s, es[n], p, i);
    assert es[..n + 1] == es;
  }

  /** A report sent by the last step. */
  lemma StepSends(f: Notes, s: State, e: Event, p: nat, i: nat)
    requires Inv(s) && Conforms(s, e) && AllNoted(f, s)
    ensures Step(s, e).Next?
    ensures
      var log := Log(Step(s, e).s.out, p);
      |Log(s.out, p)| <= i < |log| && log[i].TurnR? ==>
        && Cause(s, e, log[i])
        && (e.EvTurn? ==> && Noted(Jot(f, s, e), log[i].battle, s.chs[log[i].battle].user1, log[i].action1)
                          && Noted(Jot(f, s, e), log[i].battle, s.chs[log[i].battle].user2, log[i].action2))
  {
    StepReports(s, e, p);
    var log := Log(Step(s, e).s.out, p);
    if |Log(s.out, p)| <= i < |log| && log[i].TurnR? {
      assert log[i] == Since(s.out, Step(s, e).s.out, p)[i - |Log(s.out, p)|];
      if e.EvTurn? {
        InvIsSteady(s);
        PairIsNoted(f, s, e, log[i]);
      }
    }
  }
}
