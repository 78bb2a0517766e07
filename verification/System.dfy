/** Server and clients together, on every run: what each can rely on the others for. */
module System {
  import opened Protocol
  import opened ServerSpec
  import opened Invariants
  import opened Logs
  import opened Moves
  import opened Trace
  import opened Chronicle
  import opened ClientSpec
  import opened Replica
  import opened Network
  import opened Links
  import opened ClientSteps
  import opened ServerSteps

  ghost predicate SysInv(y: Sys) {
    && Inv(y.srv) && Remembered(y.srv) && Turned(y.srv)
    && (forall k: nat :: Chronicled(y.srv, k))
    && (forall p: nat | p in y.links :: LinkInv(y.srv, p, y.links[p]))
    && (forall p: nat | p !in y.links :: Outsider(y.srv, p))
  }

  /** A connection that does not exist yet. */
  ghost predicate Outsider(s: State, p: nat) {
    p !in s.users && Log(s.out, p) == [] && IdlePart(s, p)
  }

  // ---- between handlers, a running battle has had its first turn ----

  ghost predicate Turned(s: State) {
    forall k | k in s.chs && s.chs[k].state == Started :: s.chs[k].turns > 0
  }

  ghost predicate TurnedBut(s: State, j: nat) {
    forall k | k in s.chs && s.chs[k].state == Started && k != j :: s.chs[k].turns > 0
  }

  lemma JudgeIsTurned(s: State, v: Move)
    requires Can(s, v) && v.Judge? && TurnedBut(s, v.k)
    ensures Turned(Do(s, v))
  {
    JudgeReports(s, v);
  }

  lemma MoveIsTurned(s: State, v: Move)
    requires Can(s, v) && Turned(s)
    ensures v.Begin? ==> TurnedBut(Do(s, v), v.c.chid)
    ensures !v.Begin? ==> Turned(Do(s, v))
  {
    if v.Judge? {
      JudgeIsTurned(s, v);
    }
  }

  lemma PlanIsTurned(s: State, e: Event)
    requires CanAll(s, Plan(s, e)) && Turned(s)
    ensures Turned(DoAll(s, Plan(s, e)))
  {
    var vs := Plan(s, e);
    PlanShape(s, e);
    if vs != [] {
      MoveIsTurned(s, vs[0]);
      var t := Do(s, vs[0]);
      if |vs| == 2 {
        assert vs[1..] == [vs[1]] && [vs[1]][1..] == [];
        assert DoAll(t, [vs[1]]) == DoAll(Do(t, vs[1]), []);
        if vs[0].Begin? {
          JudgeIsTurned(t, vs[1]);
        } else {
          MoveIsTurned(t, vs[1]);
        }
      } else {
        assert vs[1..] == [];
      }
    }
  }

  /** A plan has at most two moves; the second judges or departs, and judges at once what the first began. */
  lemma PlanShape(s: State, e: Event)
    ensures
      var vs := Plan(s, e);
      && |vs| <= 2
      && (|vs| == 2 ==> vs[1].Judge? || vs[1].Depart?)
      && (vs != [] && vs[0].Begin? ==> |vs| == 2 && vs[1].Judge? && vs[1].k == vs[0].c.chid)
  {
  }

  // ---- whom a plan concerns ----

  /** The move answers no request of `q` and files nothing for it. */
  predicate Foreign(v: Move, q: nat) {
    match v
    case Tell(fd, m) => fd != q
    case Enter(id, u) => id != q
    case File(k, user, action) => user != q
    case _ => true
  }

  lemma PlanIsOwn(s: State, p: nat, r: Request, env: Env, q: nat)
    requires q != p && (r.Act? ==> r.t.user == p)
    ensures forall v | v in Plan(s, EventOf(p, r, env)) :: Foreign(v, q)
  {
  }

  lemma {:induction false} MovesLink(s: State, vs: seq<Move>, q: nat, l: Link)
    requires CanAll(s, vs) && FreshAll(s, vs) && Remembered(s) && LinkInv(s, q, l)
    requires forall v | v in vs :: Foreign(v, q)
    ensures LinkInv(DoAll(s, vs), q, l)
    decreases |vs|
  {
    if vs == [] {
    } else {
      assert vs[0] in vs;
      MoveLink(s, vs[0], q, l);
      MoveRemembers(s, vs[0]);
      MovesLink(Do(s, vs[0]), vs[1..], q, l);
    }
  }

  lemma {:induction false} MovesOutside(s: State, vs: seq<Move>, q: nat)
    requires CanAll(s, vs) && Outsider(s, q)
    requires forall v | v in vs :: Foreign(v, q)
    ensures Outsider(DoAll(s, vs), q)
    decreases |vs|
  {
    if vs == [] {
    } else {
      assert vs[0] in vs;
      MoveLog(s, vs[0], q);
      NoteJoins(s, vs[0], q);
      if q in Do(s, vs[0]).users {
        MoveUsers(s, vs[0], q);
      }
      MoveIdle(s, vs[0], q);
      MovesOutside(Do(s, vs[0]), vs[1..], q);
    }
  }

  // ---- what the server relies on ----

  ghost predicate CanServe(y: Sys, p: nat, env: Env) {
    && p in y.links && y.links[p].up != []
    && Lucky(y.srv, EventOf(p, y.links[p].up[0], env))
  }

  /** The requests that reach the server are such as its handlers rely on. */
  lemma Discharge(y: Sys, p: nat, env: Env)
    requires SysInv(y) && CanServe(y, p, env)
    ensures Conforms(y.srv, EventOf(p, y.links[p].up[0], env))
    ensures Fresh(y.srv, EventOf(p, y.links[p].up[0], env))
    ensures
      var s, r := y.srv, y.links[p].up[0];
      && Proper(s.hist, p, y.links[p].client, r)
      && (r.Act? && r.t.chid in s.chs ==> StartedAt(s, r.t.chid))
  {
    var s, l := y.srv, y.links[p];
    assert LinkInv(s, p, l);
    var log := Log(s.out, p);
    assert l.up[0] in l.up;
    assert Proper(s.hist, p, l.client, l.up[0]);
    if l.up[0].Join? {
      PopLinked(s, p, l, log[..l.pos], log[l.pos..]);
      FdsAreIds(s.users, p);
    }
  }

  // ---- one request handled ----

  lemma PlanIsOwed(s: State, p: nat, l: Link, env: Env)
    requires l.pos <= |Log(s.out, p)|
    requires l.up != [] && Plan(s, EventOf(p, l.up[0], env)) != []
    requires l.up[0].Act? ==> l.up[0].t.chid !in s.chs
    requires l.up[0].Ask? ==> InGame(l.client)
    requires l.up[0].Join? ==> l.client.phase == Joining && Joins(l.up[1..]) == 0 && Log(s.out, p)[l.pos..] == []
    ensures Owed(Plan(s, EventOf(p, l.up[0], env))[0], p, l.(up := l.up[1..]), Log(s.out, p)[l.pos..])
  {
  }

  lemma LaterIsForeign(s: State, e: Event, p: nat)
    ensures forall v | v in Plan(s, e)[if Plan(s, e) == [] then 0 else 1..] :: Foreign(v, p)
  {
    PlanShape(s, e);
  }

  /** A request is taken off the connection; unless it is a TURN of a running battle, nothing depended on it. */
  lemma PopLink(s: State, p: nat, l: Link)
    requires LinkInv(s, p, l) && l.up != [] && (l.up[0].Act? ==> !StartedAt(s, l.up[0].t.chid))
    ensures LinkInv(s, p, l.(up := l.up[1..])) && Proper(s.hist, p, l.client, l.up[0])
    ensures l.up[0].Join? ==> l.client.phase == Joining && Joins(l.up[1..]) == 0 && Log(s.out, p)[l.pos..] == []
                              && p !in s.users
  {
    var log := Log(s.out, p);
    assert l.up[0] in l.up;
    PopLinked(s, p, l, log[..l.pos], log[l.pos..]);
  }

  /** The first move after a request was taken off, and the rest. */
  lemma PlanLink(s: State, vs: seq<Move>, p: nat, l: Link)
    requires CanAll(s, vs) && FreshAll(s, vs) && Remembered(s) && LinkInv(s, p, l) && vs != []
    requires Owed(vs[0], p, l, Log(s.out, p)[l.pos..])
    requires forall v | v in vs[1..] :: Foreign(v, p)
    ensures LinkInv(DoAll(s, vs), p, l)
  {
    MoveLink(s, vs[0], p, l);
    MoveRemembers(s, vs[0]);
    MovesLink(Do(s, vs[0]), vs[1..], p, l);
  }

  /** Handling a request keeps what holds of the connection it came from. */
  lemma ServeOwn(s: State, p: nat, l: Link, env: Env)
    requires LinkInv(s, p, l) && l.up != [] && Remembered(s)
    requires l.up[0].Act? ==> l.up[0].t.chid !in s.chs
    requires
      var vs := Plan(s, EventOf(p, l.up[0], env));
      CanAll(s, vs) && FreshAll(s, vs)
    ensures LinkInv(DoAll(s, Plan(s, EventOf(p, l.up[0], env))), p, l.(up := l.up[1..]))
  {
    PopLink(s, p, l);
    var e := EventOf(p, l.up[0], env);
    if Plan(s, e) != [] {
      PlanIsOwed(s, p, l, env);
      LaterIsForeign(s, e, p);
      PlanLink(s, Plan(s, e), p, l.(up := l.up[1..]));
    }
  }

  /** The TURN is filed. */
  lemma FileLink(s: State, p: nat, l: Link)
    requires LinkInv(s, p, l) && l.up != [] && l.up[0].Act? && FightsAt(s, l.up[0].t.chid)
    requires Steady(s) && Remembered(s)
    ensures
      var t := l.up[0].t;
      && t.user == p && p in s.users && s.users[p].key == t.key
      && Can(s, File(t.chid, t.user, t.action))
      && LinkInv(Do(s, File(t.chid, t.user, t.action)), p, l.(up := l.up[1..]))
  {
    var t, log := l.up[0].t, Log(s.out, p);
    assert log[..l.pos] + log[l.pos..] == log;
    TurnIsDue(s, p, l, log[..l.pos], log[l.pos..]);
    TurnLinked(s, p, l, log[..l.pos], log[l.pos..]);
    MoveTraces(s, File(t.chid, t.user, t.action), p);
    MoveMirrors(s, File(t.chid, t.user, t.action), p);
  }

  lemma ServeTurn(s: State, p: nat, l: Link, env: Env)
    requires LinkInv(s, p, l) && l.up != [] && l.up[0].Act? && FightsAt(s, l.up[0].t.chid)
    requires Steady(s) && Remembered(s)
    requires
      var vs := Plan(s, EventOf(p, l.up[0], env));
      CanAll(s, vs) && FreshAll(s, vs)
    ensures LinkInv(DoAll(s, Plan(s, EventOf(p, l.up[0], env))), p, l.(up := l.up[1..]))
  {
    var t, e := l.up[0].t, EventOf(p, l.up[0], env);
    FileLink(s, p, l);
    var v := File(t.chid, t.user, t.action);
    assert Plan(s, e)[0] == v;
    LaterIsForeign(s, e, p);
    MoveRemembers(s, v);
    MovesLink(Do(s, v), Plan(s, e)[1..], p, l.(up := l.up[1..]));
  }

  lemma ServeChronicles(s: State, vs: seq<Move>)
    requires CanAll(s, vs) && FreshAll(s, vs) && Remembered(s) && forall k: nat :: Chronicled(s, k)
    ensures Remembered(DoAll(s, vs)) && forall k: nat :: Chronicled(DoAll(s, vs), k)
  {
    MovesChronicle(s, vs, 0);
    forall k: nat
      ensures Chronicled(DoAll(s, vs), k)
    {
      MovesChronicle(s, vs, k);
    }
  }

  lemma SysLink(y: Sys, p: nat)
    requires SysInv(y) && p in y.links
    ensures LinkInv(y.srv, p, y.links[p]) && Remembered(y.srv) && forall k: nat :: Chronicled(y.srv, k)
  {
  }

  /** Handling a request never fails and keeps what holds of the server. */
  lemma ServeServer(y: Sys, p: nat, env: Env)
    requires SysInv(y) && CanServe(y, p, env)
    ensures
      var e := EventOf(p, y.links[p].up[0], env);
      var t := DoAll(y.srv, Plan(y.srv, e));
      && Step(y.srv, e) == Next(t) && Inv(t) && CanAll(y.srv, Plan(y.srv, e)) && FreshAll(y.srv, Plan(y.srv, e))
      && Remembered(t) && Turned(t) && forall k: nat :: Chronicled(t, k)
  {
    var s := y.srv;
    var e := EventOf(p, y.links[p].up[0], env);
    Discharge(y, p, env);
    StepKeeps(s, e);
    StepIsPlan(s, e);
    FreshPlan(s, e);
    PlanIsTurned(s, e);
    ServeChronicles(s, Plan(s, e));
  }

  /** It keeps everything. */
  lemma ServeKeeps(y: Sys, p: nat, env: Env)
    requires SysInv(y) && CanServe(y, p, env)
    ensures
      var l, e := y.links[p], EventOf(p, y.links[p].up[0], env);
      && Step(y.srv, e).Next?
      && SysInv(Sys(Step(y.srv, e).s, y.links[p := l.(up := l.up[1..])]))
  {
    SysLink(y, p);
    Discharge(y, p, env);
    ServeServer(y, p, env);
    ServeLink(y.srv, p, y.links[p], env);
    ServeOthers(y, p, env);
  }

  lemma ServeLink(s: State, p: nat, l: Link, env: Env)
    requires LinkInv(s, p, l) && l.up != [] && Inv(s) && Remembered(s)
    requires l.up[0].Act? && l.up[0].t.chid in s.chs ==> StartedAt(s, l.up[0].t.chid)
    requires
      var vs := Plan(s, EventOf(p, l.up[0], env));
      CanAll(s, vs) && FreshAll(s, vs)
    ensures LinkInv(DoAll(s, Plan(s, EventOf(p, l.up[0], env))), p, l.(up := l.up[1..]))
  {
    InvIsSteady(s);
    if l.up[0].Act? && l.up[0].t.chid in s.chs {
      InvFights(s, l.up[0].t.chid);
      ServeTurn(s, p, l, env);
    } else {
      ServeOwn(s, p, l, env);
    }
  }

  lemma ServeOthers(y: Sys, p: nat, env: Env)
    requires SysInv(y) && CanServe(y, p, env)
    ensures
      var e := EventOf(p, y.links[p].up[0], env);
      var t := DoAll(y.srv, Plan(y.srv, e));
      && (forall q: nat | q in y.links && q != p :: LinkInv(t, q, y.links[q]))
      && (forall q: nat | q !in y.links :: Outsider(t, q))
  {
    var s := y.srv;
    var e := EventOf(p, y.links[p].up[0], env);
    Discharge(y, p, env);
    StepIsPlan(s, e);
    FreshPlan(s, e);
    forall q: nat | q in y.links && q != p
      ensures LinkInv(DoAll(s, Plan(s, e)), q, y.links[q])
    {
      PlanIsOwn(s, p, y.links[p].up[0], env, q);
      MovesLink(s, Plan(s, e), q, y.links[q]);
    }
    forall q: nat | q !in y.links
      ensures Outsider(DoAll(s, Plan(s, e)), q)
    {
      PlanIsOwn(s, p, y.links[p].up[0], env, q);
      MovesOutside(s, Plan(s, e), q);
    }
  }

  // ---- every step, every run ----

  lemma RelinkKeeps(y: Sys, p: nat, l: Link)
    requires SysInv(y) && LinkInv(y.srv, p, l)
    ensures SysInv(Relink(y, p, l))
  {
    var y' := Relink(y, p, l);
    forall q: nat | q in y'.links
      ensures LinkInv(y'.srv, q, y'.links[q])
    {
      assert q != p ==> LinkInv(y.srv, q, y.links[q]);
    }
  }

  lemma DeliverLink(s: State, p: nat, l: Link)
    requires LinkInv(s, p, l) && (forall k: nat :: Chronicled(s, k)) && l.pos < |Log(s.out, p)|
    requires l.client.phase == Joining || l.client.phase == Playing
    ensures LinkInv(s, p, Post(l, Received(l.client, Log(s.out, p)[l.pos])).(pos := l.pos + 1))
  {
    var log := Log(s.out, p);
    var before, m, rest := log[..l.pos], log[l.pos], log[l.pos + 1..];
    assert log[l.pos..] == [m] + rest && log == before + ([m] + rest);
    assert log[..l.pos + 1] == before + [m];
    ArriveLinked(s, p, l, before, m, rest);
    PositionIsFree(s, p, Post(l, Received(l.client, m)), l.pos + 1, before + [m], rest);
  }

  lemma PositionIsFree(s: State, p: nat, l: Link, pos: nat, before: seq<Msg>, ahead: seq<Msg>)
    requires Linked(s, p, l, before, ahead)
    ensures Linked(s, p, l.(pos := pos), before, ahead)
  {
    forall k: nat
      ensures TokenAt(s, k, p, l.(pos := pos), ahead)
    {
      assert TokenAt(s, k, p, l, ahead);
    }
  }

  lemma DeliverKeeps(y: Sys, p: nat)
    requires SysInv(y) && Enabled(y, Deliver(p))
    ensures
      var l := y.links[p];
      SysInv(Relink(y, p, Post(l, Received(l.client, Log(y.srv.out, p)[l.pos])).(pos := l.pos + 1)))
  {
    var s, l := y.srv, y.links[p];
    SysLink(y, p);
    DeliverLink(s, p, l);
    RelinkKeeps(y, p, Post(l, Received(l.client, Log(s.out, p)[l.pos])).(pos := l.pos + 1));
  }

  lemma LoginLink(s: State, p: nat, l: Link, nick: Nick)
    requires LinkInv(s, p, l) && l.client.phase == Typing
    ensures LinkInv(s, p, Post(l, LoggedIn(l.client, nick)))
  {
    var log := Log(s.out, p);
    assert log == log[..l.pos] + log[l.pos..];
    LoginLinked(s, p, l, log[..l.pos], log[l.pos..], nick);
  }

  lemma PressLink(s: State, p: nat, l: Link, k: char, cmd: Command)
    requires LinkInv(s, p, l) && l.client.phase == Playing
    ensures LinkInv(s, p, Post(l, Pressed(l.client, k, cmd)))
  {
    var log := Log(s.out, p);
    assert log == log[..l.pos] + log[l.pos..];
    PressLinked(s, p, l, log[..l.pos], log[l.pos..], k, cmd);
  }

  lemma CutLink(s: State, p: nat, l: Link, keep: nat)
    requires LinkInv(s, p, l) && !l.cut && keep <= |l.up|
    ensures LinkInv(s, p, l.(up := l.up[..keep] + [Gone], cut := true))
  {
    var log := Log(s.out, p);
    CutLinked(s, p, l, log[..l.pos], log[l.pos..], keep);
  }

  lemma ClientKeeps(y: Sys, a: Action)
    requires SysInv(y) && Enabled(y, a) && (a.TypeName? || a.Press? || a.Cut?)
    ensures Evolve(y, a).Goes? && SysInv(Evolve(y, a).y)
  {
    var l := y.links[a.p];
    match a
    case TypeName(p, nick) =>
      LoginLink(y.srv, p, l, nick);
      RelinkKeeps(y, p, Post(l, LoggedIn(l.client, nick)));
    case Press(p, k, cmd) =>
      PressLink(y.srv, p, l, k, cmd);
      RelinkKeeps(y, p, Post(l, Pressed(l.client, k, cmd)));
    case Cut(p, keep) =>
      CutLink(y.srv, p, l, keep);
      RelinkKeeps(y, p, l.(up := l.up[..keep] + [Gone], cut := true));
  }

  lemma ConnectKeeps(y: Sys, p: nat)
    requires SysInv(y) && Enabled(y, Connect(p))
    ensures SysInv(Evolve(y, Connect(p)).y)
  {
    assert Outsider(y.srv, p);
    ConnectLinked(y.srv, p);
    RelinkKeeps(y, p, Link(NEWCOMER, 0, [], false));
  }

  /** No step makes the server fail, and every step keeps everything. */
  lemma EvolveKeeps(y: Sys, a: Action)
    requires SysInv(y) && Enabled(y, a)
    ensures Evolve(y, a).Goes? && SysInv(Evolve(y, a).y)
  {
    match a
    case Connect(p) => ConnectKeeps(y, p);
    case Deliver(p) => DeliverKeeps(y, p);
    case Serve(p, env) => ServeKeeps(y, p, env);
    case _ => ClientKeeps(y, a);
  }

  ghost predicate Executes(y: Sys, acts: seq<Action>)
    decreases |acts|
  {
    acts == [] || (Enabled(y, acts[0]) && (Evolve(y, acts[0]).Goes? ==> Executes(Evolve(y, acts[0]).y, acts[1..])))
  }

  ghost function Execute(y: Sys, acts: seq<Action>): Fate
    requires Executes(y, acts)
    decreases |acts|
  {
    if acts == [] then Goes(y)
    else if Evolve(y, acts[0]).Fails? then Fails
    else Execute(Evolve(y, acts[0]).y, acts[1..])
  }

  lemma {:induction false} ExecutionKeeps(y: Sys, acts: seq<Action>)
    requires SysInv(y) && Executes(y, acts)
    ensures Execute(y, acts).Goes? && SysInv(Execute(y, acts).y)
    decreases |acts|
  {
    if acts == [] {
    } else {
      EvolveKeeps(y, acts[0]);
      ExecutionKeeps(Evolve(y, acts[0]).y, acts[1..]);
    }
  }

  lemma StartupHolds()
    ensures SysInv(STARTUP)
  {
    forall k: nat
      ensures Chronicled(INITIAL, k)
    {
      assert Told(INITIAL, k, []) && RightTurns(INITIAL, k, []) && FairTurns(INITIAL, k, []);
    }
  }

  /** What can happen: the systems that executions lead to. */
  ghost predicate Reachable(y: Sys) {
    exists acts: seq<Action> :: Executes(STARTUP, acts) && Execute(STARTUP, acts) == Goes(y)
  }

  lemma ReachableHolds(y: Sys)
    requires Reachable(y)
    ensures SysInv(y)
  {
    var acts: seq<Action> :| Executes(STARTUP, acts) && Execute(STARTUP, acts) == Goes(y);
    StartupHolds();
    ExecutionKeeps(STARTUP, acts);
  }

  lemma ReachableLink(y: Sys, p: nat)
    requires Reachable(y) && p in y.links
    ensures LinkInv(y.srv, p, y.links[p])
  {
    ReachableHolds(y);
  }

  lemma ReachableServer(y: Sys)
    requires Reachable(y)
    ensures AllFine(y.srv.users) && Paired(y.srv) && Remembered(y.srv) && Turned(y.srv)
  {
    ReachableHolds(y);
  }

  lemma ReachableStory(y: Sys, k: nat)
    requires Reachable(y)
    ensures Chronicled(y.srv, k)
  {
    ReachableHolds(y);
  }

  /** Every registered user has its connection. */
  lemma ReachableUser(y: Sys, p: nat)
    requires Reachable(y) && p in y.srv.users
    ensures p in y.links
  {
    ReachableHolds(y);
    assert !Outsider(y.srv, p);
  }

  // ---- main results ----

  /** No execution makes the server fail: no assert fires, no missing user is used. */
  lemma NeverFails(acts: seq<Action>)
    requires Executes(STARTUP, acts)
    ensures Execute(STARTUP, acts).Goes? && Inv(Execute(STARTUP, acts).y.srv)
  {
    StartupHolds();
    ExecutionKeeps(STARTUP, acts);
  }

  /** Environment discharge: whatever is next to be handled, a JOIN comes from a connection without a user, an
      accept or reject names exactly the pair its chid was created for, and a TURN names a challenge that is running
      or over, in which its sender is a party. */
  lemma EnvironmentDischarge(y: Sys, p: nat)
    requires Reachable(y) && p in y.links
    ensures forall r | r in y.links[p].up ::
              match r
              case Join(nick) => p !in y.srv.users && p !in Fds(y.srv.users)
              case Ask(c) =>
                c.action == CAccept || c.action == CReject ==>
                  && c.chid in y.srv.hist.pairs && y.srv.hist.pairs[c.chid] == (c.id1, c.id2) && c.id2 == p
                  && (c.chid in y.srv.chs ==> y.srv.chs[c.chid].user1 == c.id1 && y.srv.chs[c.chid].user2 == c.id2)
              case Act(t) =>
                t.user == p && (t.chid in y.srv.chs ==> StartedAt(y.srv, t.chid) && Party(y.srv.chs[t.chid], p))
              case Quit(id, key) => id == p
              case Gone => true
  {
    ReachableServer(y);
    ReachableLink(y, p);
    forall r | r in y.links[p].up && r.Join?
      ensures p !in y.srv.users && p !in Fds(y.srv.users)
    {
      JoinPending(y.links[p].up);
      LinkUnregistered(y.srv, p, y.links[p]);
      FdsAreIds(y.srv.users, p);
    }
    assert forall r | r in y.links[p].up :: Proper(y.srv.hist, p, y.links[p].client, r);
  }

  lemma LinkUnregistered(s: State, p: nat, l: Link)
    requires LinkInv(s, p, l) && Joins(l.up) > 0
    ensures p !in s.users
  {
    OneAnswer(s.users, p, l, Log(s.out, p)[..l.pos], Log(s.out, p)[l.pos..]);
  }

  lemma {:induction false} JoinPending(up: seq<Request>)
    ensures (exists r :: r in up && r.Join?) ==> Joins(up) > 0
    decreases |up|
  {
    if up == [] {
    } else {
      JoinPending(up[1..]);
    }
  }

  lemma OneAnswer(users: map<nat, User>, p: nat, l: Link, before: seq<Msg>, ahead: seq<Msg>)
    requires JoinPart(users, p, before, ahead, l) && Joins(l.up) > 0
    ensures p !in users
  {
    BadgeAppend(NoBadge, before, ahead);
    NoJoinRs(BadgeOf(NoBadge, before), ahead);
  }

  /** The turn token: between handlers each user of a running battle has exactly one of: the TURN_R on its way to
      the client, leave to act at the client, the TURN on its way to the server, the acted flag at the server; and it
      is for the current turn. A token can be lost only with the connection. */
  lemma TurnToken(y: Sys, k: nat, p: nat)
    requires Reachable(y) && StartedAt(y.srv, k) && Party(y.srv.chs[k], p)
    ensures p in y.links && y.links[p].pos <= |Log(y.srv.out, p)|
    ensures
      var l, ch := y.links[p], y.srv.chs[k];
      var tokens := Flag(ch, p) + (Sending(l.up, k) + (Hand(l.client, k) + Coming(Log(y.srv.out, p)[l.pos..], k)));
      tokens == [ch.turnNo] || (l.cut && tokens == [])
  {
    ReachableServer(y);
    FightHasBoth(y.srv.users, y.srv.chs, k);
    ReachableUser(y, p);
    ReachableLink(y, p);
    assert TokenAt(y.srv, k, p, y.links[p], Log(y.srv.out, p)[y.links[p].pos..]);
  }

  /** No TURN is dropped or counted in another turn: when a TURN of a running battle is next, the action is owed, it is
      for the current turn, and handling it files exactly this action. */
  lemma NoTurnLost(y: Sys, p: nat, r: Rolls)
    requires Reachable(y) && p in y.links && y.links[p].up != [] && y.links[p].up[0].Act?
    requires y.links[p].up[0].t.chid in y.srv.chs
    ensures
      var t := y.links[p].up[0].t;
      var ch := y.srv.chs[t.chid];
      var one := p == ch.user1;
      var filed := if one then ch.(act1 := t.action, acted1 := true) else ch.(act2 := t.action, acted2 := true);
      && t.turnNo == ch.turnNo && ch.turns > 0 && !(if one then ch.acted1 else ch.acted2)
      && HandleTurn(y.srv, t, r) ==
           if filed.acted1 && filed.acted2 then JudgeTurn(y.srv.(chs := y.srv.chs[t.chid := filed]), t.chid, -1, r)
           else Next(y.srv.(chs := y.srv.chs[t.chid := filed]))
  {
    ReachableServer(y);
    ReachableLink(y, p);
    LinkOwes(y.srv, p, y.links[p]);
    TurnIsFiled(y.srv, y.links[p].up[0].t, p, r);
  }

  lemma LinkOwes(s: State, p: nat, l: Link)
    requires Paired(s) && Remembered(s) && LinkInv(s, p, l) && l.up != [] && l.up[0].Act? && l.up[0].t.chid in s.chs
    ensures
      var t := l.up[0].t;
      var ch := s.chs[t.chid];
      && ch.state == Started && t.user == p && Party(ch, p) && p in s.users && s.users[p].key == t.key
      && Flag(ch, p) == [] && ch.turns > 0 && t.turnNo == ch.turnNo
  {
    var log := Log(s.out, p);
    assert l.up[0] in l.up;
    assert Proper(s.hist, p, l.client, l.up[0]);
    assert log[..l.pos] + log[l.pos..] == log;
    FightHasBoth(s.users, s.chs, l.up[0].t.chid);
    TurnIsDue(s, p, l, log[..l.pos], log[l.pos..]);
  }

  lemma TurnIsFiled(s: State, t: TurnMsg, p: nat, r: Rolls)
    requires t.chid in s.chs && t.user == p && p in s.users && s.users[p].key == t.key
    requires Party(s.chs[t.chid], p) && Flag(s.chs[t.chid], p) == []
    ensures
      var ch := s.chs[t.chid];
      var one := p == ch.user1;
      var filed := if one then ch.(act1 := t.action, acted1 := true) else ch.(act2 := t.action, acted2 := true);
      && !(if one then ch.acted1 else ch.acted2)
      && HandleTurn(s, t, r) ==
           if filed.acted1 && filed.acted2 then JudgeTurn(s.(chs := s.chs[t.chid := filed]), t.chid, -1, r)
           else Next(s.(chs := s.chs[t.chid := filed]))
  {
  }

  /** Replica agreement at the clients: a client that has taken everything sent to it, and whose user is registered,
      shows exactly the server's table, knows its own state, and knows the battle it is in, as which of its users, and
      against whom. */
  lemma ClientsAgree(y: Sys, p: nat)
    requires Reachable(y) && p in y.links && p in y.srv.users
    requires y.links[p].client.phase == Playing && y.links[p].pos == |Log(y.srv.out, p)|
    ensures
      var c, u := y.links[p].client, y.srv.users[p];
      && c.id == p && c.key == u.key
      && c.table == Table(y.srv.users) && c.state == u.state
      && (u.state == Battling ==> c.chid == u.chid && c.chid in y.srv.chs && Plays(c, y.srv.chs[c.chid], p))
  {
    ReachableServer(y);
    ReachableLink(y, p);
    LinkAgrees(y.srv, p, y.links[p]);
    if y.srv.users[p].state == Battling {
      BattlerHasFight(y.srv.users, y.srv.chs, p);
    }
  }

  /** The client knows the two users of its battle. */
  predicate Plays(c: Player, ch: Challenge, p: nat) {
    if c.isUser1 then ch.user1 == p && ch.user2 == c.opponentId else ch.user1 == c.opponentId && ch.user2 == p
  }

  lemma LinkAgrees(s: State, p: nat, l: Link)
    requires LinkInv(s, p, l) && p in s.users && l.pos == |Log(s.out, p)|
    ensures InGame(l.client)
    ensures
      l.client.phase == Playing ==>
        var c, u := l.client, s.users[p];
        && c.id == p && c.key == u.key
        && c.table == Table(s.users) && c.state == u.state
        && (u.state == Battling ==>
              c.chid == u.chid && c.chid in s.hist.pairs && Sides(s.hist.pairs[c.chid], p, c))
  {
    var log := Log(s.out, p);
    assert log[..l.pos] == log && log + log[l.pos..] == log;
  }

  /** The client of a registered user that has taken everything sent to it has been let in. */
  lemma RegisteredIsIn(y: Sys, p: nat)
    requires Reachable(y) && p in y.links && p in y.srv.users
    requires y.links[p].pos == |Log(y.srv.out, p)|
    ensures y.links[p].client.phase == Playing || y.links[p].client.phase == Ended
  {
    ReachableLink(y, p);
    LinkAgrees(y.srv, p, y.links[p]);
  }
}
