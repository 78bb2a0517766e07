/** Nothing is made up: what happens to users is traced to the keys that users pressed. An observer sits at the
    keyboards; it sees each key and the screen it is pressed at, and nothing of what is sent. */
module Witness {
  import opened Protocol
  import opened ServerSpec
  import opened Walk
  import opened Invariants
  import opened Logs
  import opened Moves
  import opened Trace
  import opened Reports
  import opened ClientSpec
  import opened Network
  import opened Links
  import opened System

  /** An action, and the turn it was meant for. */
  datatype Choice = Choice(action: nat, turnNo: nat)

  /** The name each user typed last, the pairs of who challenged whom, the challenges each user consented to, and the
      last action each user chose in each battle. */
  datatype Seen = Seen(names: map<nat, Nick>, asks: set<(nat, nat)>, consents: set<(nat, nat)>,
                       choices: map<(nat, nat), Choice>)

  const NOTHING_SEEN := Seen(map[], {}, {}, map[])

  /** The user is being asked, and says yes. */
  predicate SaysYes(c: Player, key: char) {
    c.waiting == WAccept && key in "yY"
  }

  predicate Chooses(c: Player, cmd: Command) {
    c.waiting == WNone && c.state == Battling && !c.acted && cmd.BattleAct?
  }

  function Watched(o: Seen, p: nat, c: Player, key: char, cmd: Command): Seen {
    if SaysYes(c, key) then o.(consents := o.consents + {(p, c.chid)})
    else if Chooses(c, cmd) then o.(choices := o.choices[(p, c.chid) := Choice(cmd.action, c.turnNo)])
    else if c.waiting == WNone && cmd.ChallengeUser? then o.(asks := o.asks + {(p, cmd.id)})
    else o
  }

  ghost function Watch(o: Seen, y: Sys, a: Action): Seen
    requires Enabled(y, a)
  {
    match a
    case TypeName(p, nick) => o.(names := o.names[p := nick])
    case Press(p, key, cmd) => Watched(o, p, y.links[p].client, key, cmd)
    case _ => o
  }

  /** What the observer has seen after an execution. */
  ghost function Observe(o: Seen, y: Sys, acts: seq<Action>): Seen
    requires Executes(y, acts)
    decreases |acts|
  {
    if acts == [] || Evolve(y, acts[0]).Fails? then o
    else Observe(Watch(o, y, acts[0]), Evolve(y, acts[0]).y, acts[1..])
  }

  predicate Chose(o: Seen, p: nat, k: nat, action: nat, turnNo: nat) {
    (p, k) in o.choices && o.choices[(p, k)] == Choice(action, turnNo)
  }

  predicate Typed(o: Seen, p: nat, nick: Nick) {
    p in o.names && o.names[p] == nick
  }

  // ---- what the observer can vouch for ----

  /** A request on its way was made by a key. */
  predicate Backed(o: Seen, s: State, p: nat, r: Request) {
    match r
    case Join(nick) => Typed(o, p, nick)
    case Ask(c) => (c.action == CAccept ==> (p, c.chid) in o.consents) && (c.action == CStart ==> (p, c.id2) in o.asks)
    case Act(t) => StartedAt(s, t.chid) ==> Chose(o, p, t.chid, t.action, t.turnNo)
    case _ => true
  }

  ghost predicate AllBacked(o: Seen, s: State, p: nat, up: seq<Request>) {
    forall r | r in up :: Backed(o, s, p, r)
  }

  /** The actions that wait at the server were chosen for the current turn. */
  predicate WaitingChosen(o: Seen, k: nat, ch: Challenge) {
    && (ch.acted1 ==> Chose(o, ch.user1, k, ch.act1, ch.turnNo))
    && (ch.acted2 ==> Chose(o, ch.user2, k, ch.act2, ch.turnNo))
  }

  ghost predicate NamesTyped(o: Seen, users: map<nat, User>) {
    forall p | p in users :: Typed(o, p, users[p].nick)
  }

  ghost predicate PairsAsked(o: Seen, h: History) {
    forall k | k in h.pairs :: h.pairs[k] in o.asks
  }

  ghost predicate BattlesAgreed(o: Seen, h: History) {
    forall k | k in h.begun :: k in h.pairs && (h.pairs[k].1, k) in o.consents
  }

  ghost predicate TurnsChosen(o: Seen, s: State) {
    forall k | StartedAt(s, k) :: WaitingChosen(o, k, s.chs[k])
  }

  ghost predicate ServerVouched(o: Seen, s: State) {
    NamesTyped(o, s.users) && PairsAsked(o, s.hist) && BattlesAgreed(o, s.hist) && TurnsChosen(o, s)
  }

  ghost predicate LinksVouched(o: Seen, s: State, links: map<nat, Link>) {
    forall p: nat | p in links :: AllBacked(o, s, p, links[p].up)
  }

  ghost predicate Vouched(o: Seen, y: Sys) {
    ServerVouched(o, y.srv) && LinksVouched(o, y.srv, y.links)
  }

  /** One connection changes, and the observer sees something about it. */
  lemma LinkVouched(o: Seen, s: State, links: map<nat, Link>, o': Seen, p: nat, l: Link)
    requires LinksVouched(o, s, links) && AllBacked(o', s, p, l.up)
    requires forall q: nat | q in links && q != p && AllBacked(o, s, q, links[q].up) :: AllBacked(o', s, q, links[q].up)
    ensures LinksVouched(o', s, links[p := l])
  {
  }

  // ---- keys ----

  /** Who may act in a running battle has no action waiting or on its way. */
  lemma {:induction false} NoneSent(up: seq<Request>, k: nat)
    requires Sending(up, k) == []
    ensures forall r | r in up && r.Act? :: r.t.chid != k
    decreases |up|
  {
    if up == [] {
    } else {
      NoneSent(up[1..], k);
    }
  }

  lemma HandIsAlone(s: State, p: nat, l: Link, k: nat)
    requires LinkInv(s, p, l) && StartedAt(s, k) && Party(s.chs[k], p) && !l.client.acted && l.client.chid == k
    ensures Flag(s.chs[k], p) == [] && forall r | r in l.up && r.Act? :: r.t.chid != k
  {
    var ahead := Log(s.out, p)[l.pos..];
    assert TokenAt(s, k, p, l, ahead);
    var ch := s.chs[k];
    OneToken(Flag(ch, p), Sending(l.up, k), Hand(l.client, k), Coming(ahead, k));
    NoneSent(l.up, k);
  }

  lemma OneToken(a: seq<nat>, b: seq<nat>, c: seq<nat>, d: seq<nat>)
    requires |a + (b + (c + d))| <= 1 && |c| == 1
    ensures a == [] && b == []
  {
  }

  /** A client that may act is a party of its battle. */
  lemma HandHasParty(s: State, p: nat, l: Link)
    requires LinkInv(s, p, l) && Remembered(s) && !l.client.acted && StartedAt(s, l.client.chid)
    ensures Party(s.chs[l.client.chid], p)
  {
    var log := Log(s.out, p);
    assert log == log[..l.pos] + log[l.pos..];
    Halves(s, p, log[..l.pos], log[l.pos..]);
  }

  /** What a key adds to what was sent is backed by that key. */
  lemma KeyIsBacked(o: Seen, s: State, p: nat, c: Player, key: char, cmd: Command)
    requires c.phase == Playing && c.id == p
    ensures AllBacked(Watched(o, p, c, key, cmd), s, p, Pressed(c, key, cmd).1)
  {
  }

  /** A key changes no choice but that of the battle in which the client may act. */
  lemma KeyKeepsBacked(o: Seen, s: State, p: nat, l: Link, key: char, cmd: Command)
    requires LinkInv(s, p, l) && Remembered(s) && AllBacked(o, s, p, l.up)
    ensures AllBacked(Watched(o, p, l.client, key, cmd), s, p, l.up)
  {
    if !l.client.acted && StartedAt(s, l.client.chid) {
      HandHasParty(s, p, l);
      HandIsAlone(s, p, l, l.client.chid);
    }
  }

  lemma KeyIsOwn(o: Seen, s: State, p: nat, c: Player, key: char, cmd: Command, q: nat, up: seq<Request>)
    requires AllBacked(o, s, q, up) && q != p
    ensures AllBacked(Watched(o, p, c, key, cmd), s, q, up)
  {
  }

  lemma KeyKeepsTurns(o: Seen, s: State, p: nat, l: Link, key: char, cmd: Command)
    requires LinkInv(s, p, l) && Remembered(s) && TurnsChosen(o, s)
    ensures TurnsChosen(Watched(o, p, l.client, key, cmd), s)
  {
    if !l.client.acted && StartedAt(s, l.client.chid) {
      HandHasParty(s, p, l);
      HandIsAlone(s, p, l, l.client.chid);
    }
  }

  lemma KeyPosts(o: Seen, s: State, p: nat, l: Link, key: char, cmd: Command)
    requires LinkInv(s, p, l) && Remembered(s) && AllBacked(o, s, p, l.up) && l.client.phase == Playing
    ensures AllBacked(Watched(o, p, l.client, key, cmd), s, p, Post(l, Pressed(l.client, key, cmd)).up)
  {
    KeyKeepsBacked(o, s, p, l, key, cmd);
    KeyIsBacked(o, s, p, l.client, key, cmd);
  }

  lemma PressVouched(o: Seen, s: State, links: map<nat, Link>, p: nat, key: char, cmd: Command)
    requires p in links && LinkInv(s, p, links[p]) && Remembered(s) && links[p].client.phase == Playing
    requires ServerVouched(o, s) && LinksVouched(o, s, links)
    ensures
      var o' := Watched(o, p, links[p].client, key, cmd);
      && ServerVouched(o', s)
      && LinksVouched(o', s, links[p := Post(links[p], Pressed(links[p].client, key, cmd))])
  {
    var l := links[p];
    var o' := Watched(o, p, l.client, key, cmd);
    KeyKeepsTurns(o, s, p, l, key, cmd);
    KeyPosts(o, s, p, l, key, cmd);
    forall q: nat | q in links && q != p && AllBacked(o, s, q, links[q].up)
      ensures AllBacked(o', s, q, links[q].up)
    {
      KeyIsOwn(o, s, p, l.client, key, cmd, q, links[q].up);
    }
    LinkVouched(o, s, links, o', p, Post(l, Pressed(l.client, key, cmd)));
  }

  // ---- names ----

  /** At the login screen no JOIN is on its way and nobody is registered. */
  lemma TypingIsNobody(s: State, p: nat, l: Link)
    requires LinkInv(s, p, l) && l.client.phase == Typing
    ensures p !in s.users && forall r | r in l.up :: !r.Join?
  {
    var log := Log(s.out, p);
    assert log[..l.pos] + [] == log[..l.pos];
    JoinPending(l.up);
  }

  lemma NamePosts(o: Seen, s: State, p: nat, l: Link, nick: Nick)
    requires LinkInv(s, p, l) && AllBacked(o, s, p, l.up) && l.client.phase == Typing
    ensures AllBacked(o.(names := o.names[p := nick]), s, p, Post(l, LoggedIn(l.client, nick)).up)
  {
    TypingIsNobody(s, p, l);
  }

  lemma NameIsOwn(o: Seen, s: State, p: nat, nick: Nick, q: nat, up: seq<Request>)
    requires AllBacked(o, s, q, up) && q != p
    ensures AllBacked(o.(names := o.names[p := nick]), s, q, up)
  {
  }

  lemma NameVouched(o: Seen, s: State, links: map<nat, Link>, p: nat, nick: Nick)
    requires p in links && LinkInv(s, p, links[p]) && links[p].client.phase == Typing
    requires ServerVouched(o, s) && LinksVouched(o, s, links)
    ensures
      var o' := o.(names := o.names[p := nick]);
      ServerVouched(o', s) && LinksVouched(o', s, links[p := Post(links[p], LoggedIn(links[p].client, nick))])
  {
    var l := links[p];
    var o' := o.(names := o.names[p := nick]);
    TypingIsNobody(s, p, l);
    NamePosts(o, s, p, l, nick);
    forall q: nat | q in links && q != p && AllBacked(o, s, q, links[q].up)
      ensures AllBacked(o', s, q, links[q].up)
    {
      NameIsOwn(o, s, p, nick, q, links[q].up);
    }
    LinkVouched(o, s, links, o', p, Post(l, LoggedIn(l.client, nick)));
  }

  // ---- messages and connections ----

  /** What a message makes the client send needs no backing. */
  lemma AnswerNeedsNone(o: Seen, s: State, p: nat, c: Player, m: Msg)
    ensures AllBacked(o, s, p, Received(c, m).1)
  {
  }

  lemma MessageVouched(o: Seen, s: State, links: map<nat, Link>, p: nat, m: Msg, pos: nat)
    requires p in links && LinksVouched(o, s, links)
    ensures LinksVouched(o, s, links[p := Post(links[p], Received(links[p].client, m)).(pos := pos)])
  {
    assert AllBacked(o, s, p, links[p].up);
    AnswerNeedsNone(o, s, p, links[p].client, m);
  }

  lemma CutVouched(o: Seen, s: State, links: map<nat, Link>, p: nat, keep: nat)
    requires p in links && LinksVouched(o, s, links) && keep <= |links[p].up|
    ensures LinksVouched(o, s, links[p := links[p].(up := links[p].up[..keep] + [Gone], cut := true)])
  {
    assert AllBacked(o, s, p, links[p].up);
  }

  // ---- requests ----

  /** Who may be registered after a step: who was, under the same name, and who joins. */
  lemma StepNames(s: State, e: Event)
    requires Inv(s) && Conforms(s, e)
    ensures Step(s, e).Next?
    ensures forall id | id in Step(s, e).s.users ::
              || (id in s.users && Step(s, e).s.users[id].nick == s.users[id].nick)
              || (e.EvJoin? && id == e.fd && Step(s, e).s.users[id].nick == e.nick)
  {
    StepKeeps(s, e);
    match e
    case EvJoin(fd, nick, key, garbage) => JoinAdds(s, fd, nick, key, garbage);
    case EvQuit(id, key, r) => if id in s.users { QuitNames(s, id, r); }
    case EvDisconnect(fd, r) =>
      if fd in Fds(s.users) {
        OwnerIsRegistered(s.users, fd);
        QuitNames(s, Least(Owners(s.users, fd)), r);
      }
    case EvChallenge(fd, c, draws, r) => ChallengeFrame(s, fd, c, draws, r);
    case EvTurn(t, r) => TurnFrame(s, t, r);
  }

  lemma QuitNames(s: State, id: nat, r: Rolls)
    requires id in s.users
    ensures
      var o := QuitUser(s, id, r);
      o.Next? ==> forall j | j in o.s.users :: j in s.users && o.s.users[j].nick == s.users[j].nick
  {
    if s.users[id].chid in s.chs {
      JudgeTurnFrame(s, s.users[id].chid, id, r);
    }
  }

  /** No challenge, no battle and no running battle is new. */
  ghost predicate NothingNew(s: State, t: State) {
    t.hist.pairs == s.hist.pairs && t.hist.begun == s.hist.begun && forall k | StartedAt(t, k) :: StartedAt(s, k)
  }

  lemma JudgeNothingNew(s: State, k: nat, loser: int, r: Rolls)
    requires k in s.chs
    ensures var o := JudgeTurn(s, k, loser, r); o.Next? ==> NothingNew(s, o.s)
  {
  }

  lemma QuitNothingNew(s: State, id: nat, r: Rolls)
    requires id in s.users
    ensures var o := QuitUser(s, id, r); o.Next? ==> NothingNew(s, o.s)
  {
    if s.users[id].chid in s.chs {
      JudgeNothingNew(s, s.users[id].chid, id, r);
    }
  }

  lemma TurnNothingNew(s: State, t: TurnMsg, r: Rolls)
    ensures var o := HandleTurn(s, t, r); o.Next? ==> NothingNew(s, o.s)
  {
    if t.chid in s.chs {
      var s1 := s.(chs := s.chs[t.chid := Mark(s.chs[t.chid], t.user, t.action)]);
      assert NothingNew(s, s1);
      JudgeNothingNew(s1, t.chid, -1, r);
    }
  }

  /** What a step may have added to what has been asked and begun. */
  ghost predicate Adds(s: State, e: Event, t: State) {
    && (forall k | k in t.hist.pairs ::
          || (k in s.hist.pairs && t.hist.pairs[k] == s.hist.pairs[k])
          || (e.EvChallenge? && e.c.action == CStart && t.hist.pairs[k] == (e.c.id1, e.c.id2)))
    && (forall k | k in t.hist.begun ::
          k in s.hist.begun || (e.EvChallenge? && e.c.action == CAccept && k == e.c.chid))
    && (forall k | StartedAt(t, k) ::
          StartedAt(s, k) || (e.EvChallenge? && e.c.action == CAccept && k == e.c.chid && AskingAt(s, k)))
    && (Fresh(s, e) ==> forall k | k in s.hist.pairs :: k in t.hist.pairs && t.hist.pairs[k] == s.hist.pairs[k])
  }

  lemma AcceptAdds(s: State, fd: nat, c: ChallengeMsg, draws: Draws, r: Rolls)
    requires c.id1 in s.users && c.id2 in s.users && AskingAt(s, c.chid) && c.action == CAccept
    ensures var o := AcceptChallenge(s, fd, c, r); o.Next? ==> Adds(s, EvChallenge(fd, c, draws, r), o.s)
  {
    JudgeNothingNew(Engage(s, c), c.chid, -1, r);
  }

  lemma ChallengeAdds(s: State, fd: nat, c: ChallengeMsg, draws: Draws, r: Rolls)
    ensures var o := HandleChallenge(s, fd, c, draws, r); o.Next? ==> Adds(s, EvChallenge(fd, c, draws, r), o.s)
  {
    if c.id1 !in s.users || c.id2 !in s.users {
    } else if c.action == CStart {
      StartAdds(s, fd, c, draws, r);
    } else if c.action == CCancel {
      assert NothingNew(s, CancelChallenge(s, c));
    } else if AskingAt(s, c.chid) && c.action == CAccept {
      AcceptAdds(s, fd, c, draws, r);
    }
  }

  lemma StartAdds(s: State, fd: nat, c: ChallengeMsg, draws: Draws, r: Rolls)
    requires c.id1 in s.users && c.id2 in s.users && c.action == CStart
    ensures var o := StartChallenge(s, fd, c, draws); o.Next? ==> Adds(s, EvChallenge(fd, c, draws, r), o.s)
  {
  }

  /** A pair is new only by a start, and a battle begins only by an accept. */
  lemma StepAdds(s: State, e: Event)
    requires Step(s, e).Next?
    ensures Adds(s, e, Step(s, e).s)
  {
    match e
    case EvJoin(_, _, _, _) =>
    case EvQuit(id, key, r) => if id in s.users { QuitNothingNew(s, id, r); }
    case EvDisconnect(fd, r) =>
      if fd in Fds(s.users) {
        OwnerIsRegistered(s.users, fd);
        QuitNothingNew(s, Least(Owners(s.users, fd)), r);
      }
    case EvChallenge(fd, c, draws, r) => ChallengeAdds(s, fd, c, draws, r);
    case EvTurn(t, r) => TurnNothingNew(s, t, r);
  }

  /** What a request is, when it is handled. */
  ghost predicate Served(o: Seen, s: State, p: nat, r: Request) {
    && Backed(o, s, p, r)
    && (r.Ask? && r.c.action == CStart ==> r.c.id1 == p)
    && (r.Ask? && r.c.action == CAccept ==>
          r.c.chid in s.hist.pairs && s.hist.pairs[r.c.chid].1 == p)
    && (r.Act? ==> r.t.user == p)
    && (r.Act? && StartedAt(s, r.t.chid) ==> r.t.turnNo == s.chs[r.t.chid].turnNo)
  }

  lemma ServeNames(o: Seen, s: State, p: nat, r: Request, env: Env)
    requires Inv(s) && Conforms(s, EventOf(p, r, env)) && Served(o, s, p, r) && NamesTyped(o, s.users)
    ensures Step(s, EventOf(p, r, env)).Next? && NamesTyped(o, Step(s, EventOf(p, r, env)).s.users)
  {
    StepNames(s, EventOf(p, r, env));
  }

  lemma ServePairs(o: Seen, s: State, p: nat, r: Request, env: Env)
    requires Served(o, s, p, r) && Step(s, EventOf(p, r, env)).Next? && Fresh(s, EventOf(p, r, env))
    requires PairsAsked(o, s.hist) && BattlesAgreed(o, s.hist)
    ensures
      var h := Step(s, EventOf(p, r, env)).s.hist;
      PairsAsked(o, h) && BattlesAgreed(o, h)
  {
    StepAdds(s, EventOf(p, r, env));
  }

  lemma ServeTurns(o: Seen, s: State, p: nat, r: Request, env: Env)
    requires Served(o, s, p, r) && Step(s, EventOf(p, r, env)).Next? && TurnsChosen(o, s)
    ensures TurnsChosen(o, Step(s, EventOf(p, r, env)).s)
  {
    var e := EventOf(p, r, env);
    var t := Step(s, e).s;
    StepFlags(s, e);
    forall k | StartedAt(t, k)
      ensures WaitingChosen(o, k, t.chs[k])
    {
      if NoFlags(t.chs[k]) {
      } else {
        assert StartedAt(s, k) && WaitingChosen(o, k, s.chs[k]);
      }
    }
  }

  /** What was sent for a battle that had begun stays backed. */
  lemma StaysBacked(o: Seen, s: State, e: Event, q: nat, c: Player, up: seq<Request>)
    requires Step(s, e).Next? && Remembered(s) && AllBacked(o, s, q, up)
    requires forall r | r in up :: Proper(s.hist, q, c, r)
    ensures AllBacked(o, Step(s, e).s, q, up)
  {
    StepAdds(s, e);
    forall r | r in up
      ensures Backed(o, Step(s, e).s, q, r)
    {
      assert Backed(o, s, q, r) && Proper(s.hist, q, c, r);
    }
  }

  lemma ServeLinks(o: Seen, y: Sys, p: nat, e: Event)
    requires Step(y.srv, e).Next? && Remembered(y.srv) && LinksVouched(o, y.srv, y.links) && p in y.links
    requires y.links[p].up != []
    requires forall q: nat | q in y.links :: UpPart(y.srv.hist, q, y.links[q])
    ensures LinksVouched(o, Step(y.srv, e).s, y.links[p := y.links[p].(up := y.links[p].up[1..])])
  {
    forall q: nat | q in y.links
      ensures AllBacked(o, Step(y.srv, e).s, q, y.links[q].up)
    {
      assert AllBacked(o, y.srv, q, y.links[q].up) && UpPart(y.srv.hist, q, y.links[q]);
      StaysBacked(o, y.srv, e, q, y.links[q].client, y.links[q].up);
    }
    assert AllBacked(o, Step(y.srv, e).s, p, y.links[p].up);
  }

  /** What the observer knows of the request that is handled. */
  lemma HeadIsServed(o: Seen, y: Sys, p: nat, env: Env)
    requires SysInv(y) && CanServe(y, p, env) && Vouched(o, y)
    ensures Served(o, y.srv, p, y.links[p].up[0])
  {
    Discharge(y, p, env);
    SysLink(y, p);
    assert AllBacked(o, y.srv, p, y.links[p].up);
    if y.links[p].up[0].Act? && y.links[p].up[0].t.chid in y.srv.chs {
      LinkOwes(y.srv, p, y.links[p]);
    }
  }

  lemma ServeVouched(o: Seen, y: Sys, p: nat, env: Env)
    requires SysInv(y) && CanServe(y, p, env) && Vouched(o, y)
    ensures
      var t := Step(y.srv, EventOf(p, y.links[p].up[0], env));
      && t.Next? && ServerVouched(o, t.s)
      && LinksVouched(o, t.s, y.links[p := y.links[p].(up := y.links[p].up[1..])])
  {
    var r := y.links[p].up[0];
    var e := EventOf(p, r, env);
    Discharge(y, p, env);
    HeadIsServed(o, y, p, env);
    ServeNames(o, y.srv, p, r, env);
    ServePairs(o, y.srv, p, r, env);
    ServeTurns(o, y.srv, p, r, env);
    SysUps(y);
    ServeLinks(o, y, p, e);
  }

  lemma SysUps(y: Sys)
    requires SysInv(y)
    ensures Remembered(y.srv) && forall q: nat | q in y.links :: UpPart(y.srv.hist, q, y.links[q])
  {
    forall q: nat | q in y.links
      ensures UpPart(y.srv.hist, q, y.links[q])
    {
      SysLink(y, q);
    }
  }

  // ---- every execution ----

  lemma WatchVouched(o: Seen, y: Sys, a: Action)
    requires SysInv(y) && Enabled(y, a) && Vouched(o, y)
    ensures Evolve(y, a).Goes? && Vouched(Watch(o, y, a), Evolve(y, a).y)
  {
    if a.p in y.links {
      SysLink(y, a.p);
    }
    match a
    case Connect(p) =>
    case TypeName(p, nick) => NameVouched(o, y.srv, y.links, p, nick);
    case Press(p, key, cmd) => PressVouched(o, y.srv, y.links, p, key, cmd);
    case Deliver(p) => MessageVouched(o, y.srv, y.links, p, Log(y.srv.out, p)[y.links[p].pos], y.links[p].pos + 1);
    case Cut(p, keep) => CutVouched(o, y.srv, y.links, p, keep);
    case Serve(p, env) => ServeVouched(o, y, p, env);
  }

  lemma {:induction false} AllVouched(o: Seen, y: Sys, acts: seq<Action>)
    requires SysInv(y) && Executes(y, acts) && Vouched(o, y)
    ensures Execute(y, acts).Goes? && Vouched(Observe(o, y, acts), Execute(y, acts).y)
    decreases |acts|
  {
    if acts == [] {
    } else {
      EvolveKeeps(y, acts[0]);
      WatchVouched(o, y, acts[0]);
      AllVouched(Watch(o, y, acts[0]), Evolve(y, acts[0]).y, acts[1..]);
    }
  }

  lemma StartupVouched()
    ensures Vouched(NOTHING_SEEN, STARTUP)
  {
  }

  /** On every execution: every registered user goes by the name typed on its own connection; every challenge was made
      by the challenger's own key; every battle that has begun was consented to by the challenged user, with 'y' or
      'Y' pressed while that very challenge was on its screen. */
  lemma NothingIsMadeUp(acts: seq<Action>)
    requires Executes(STARTUP, acts)
    ensures Execute(STARTUP, acts).Goes?
    ensures
      var s, o := Execute(STARTUP, acts).y.srv, Observe(NOTHING_SEEN, STARTUP, acts);
      && (forall p | p in s.users :: Typed(o, p, s.users[p].nick))
      && (forall k | k in s.hist.pairs :: s.hist.pairs[k] in o.asks)
      && (forall k | k in s.hist.begun :: k in s.hist.pairs && (s.hist.pairs[k].1, k) in o.consents)
  {
    StartupHolds();
    StartupVouched();
    AllVouched(NOTHING_SEEN, STARTUP, acts);
  }

  /** Report `m` of a turn that was played: it gives the two users' own choices for the turn before it. */
  ghost predicate GivesChoices(o: Seen, s: State, m: Msg)
    requires m.TurnR?
  {
    && StartedAt(s, m.battle)
    && var ch := s.chs[m.battle];
       && m.turnNo == (ch.turnNo + 1) % TURN_MODULUS
       && Chose(o, ch.user1, m.battle, m.action1, ch.turnNo) && Chose(o, ch.user2, m.battle, m.action2, ch.turnNo)
  }

  lemma CauseChosen(o: Seen, s: State, p: nat, r: Request, env: Env, m: Msg)
    requires m.TurnR? && r.Act? && Cause(s, EventOf(p, r, env), m) && Served(o, s, p, r) && TurnsChosen(o, s)
    requires TwoSided(s.chs)
    ensures GivesChoices(o, s, m)
  {
    assert WaitingChosen(o, m.battle, s.chs[m.battle]);
  }

  /** On every execution, whenever the server handles a request and reports a turn to anybody, the request is an accept
      and the report is the first; or a user leaves and the report is the last; or the report gives as actions what
      user 1 and user 2 chose, each with a key of its own, for exactly this turn. */
  lemma ReportsAreChosen(acts: seq<Action>, p: nat, env: Env, q: nat, m: Msg)
    requires Executes(STARTUP, acts)
    ensures Execute(STARTUP, acts).Goes?
    ensures
      var y, o := Execute(STARTUP, acts).y, Observe(NOTHING_SEEN, STARTUP, acts);
      Enabled(y, Serve(p, env)) ==>
        && Evolve(y, Serve(p, env)).Goes?
        && (m.TurnR? && m in Since(y.srv.out, Evolve(y, Serve(p, env)).y.srv.out, q) ==>
              match y.links[p].up[0]
              case Ask(c) => c.action == CAccept && c.chid == m.battle && m.turnNo == 1
              case Act(t) => t.chid == m.battle && GivesChoices(o, y.srv, m)
              case Join(_) => false
              case _ => m.fin)
  {
    StartupHolds();
    StartupVouched();
    ExecutionKeeps(STARTUP, acts);
    AllVouched(NOTHING_SEEN, STARTUP, acts);
    var y, o := Execute(STARTUP, acts).y, Observe(NOTHING_SEEN, STARTUP, acts);
    if Enabled(y, Serve(p, env)) {
      ServeReports(o, y, p, env, q, m);
    }
  }

  lemma ServeReports(o: Seen, y: Sys, p: nat, env: Env, q: nat, m: Msg)
    requires SysInv(y) && CanServe(y, p, env) && Vouched(o, y)
    ensures
      var r := y.links[p].up[0];
      var t := Step(y.srv, EventOf(p, r, env));
      && t.Next?
      && (m.TurnR? && m in Since(y.srv.out, t.s.out, q) ==>
            Cause(y.srv, EventOf(p, r, env), m) && (r.Act? ==> GivesChoices(o, y.srv, m)))
  {
    var r := y.links[p].up[0];
    Discharge(y, p, env);
    HeadIsServed(o, y, p, env);
    StepReports(y.srv, EventOf(p, r, env), q);
    InvIsSteady(y.srv);
    var t := Step(y.srv, EventOf(p, r, env)).s;
    if m.TurnR? && m in Since(y.srv.out, t.out, q) && r.Act? {
      CauseChosen(o, y.srv, p, r, env, m);
    }
  }
}
