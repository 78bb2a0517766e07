/** The client's steps keep what holds of its connection. */
module ClientSteps {
  import opened Protocol
  import opened ServerSpec
  import opened Invariants
  import opened Logs
  import opened Moves
  import opened Trace
  import opened Chronicle
  import opened ClientSpec
  import opened Replica
  import opened Network
  import opened Links

  // ---- posting ----

  /** More requests, if the connection still takes them. */
  lemma PostSends(l: Link, c: Player, rs: seq<Request>, k: nat)
    ensures
      var l' := Post(l, (c, rs));
      && Sending(l'.up, k) == Sending(l.up, k) + (if l.cut then [] else Sending(rs, k))
      && Joins(l'.up) == Joins(l.up) + (if l.cut then 0 else Joins(rs))
  {
    SendingAppend(l.up, rs, k);
    JoinsAppend(l.up, rs);
  }

  lemma PostProper(h: History, p: nat, l: Link, c: Player, rs: seq<Request>)
    requires UpPart(h, p, l)
    requires InGame(l.client) ==> InGame(c) && c.key == l.client.key
    requires forall r | r in rs :: Proper(h, p, c, r)
    ensures UpPart(h, p, Post(l, (c, rs)))
  {
  }

  lemma OneRequest(r: Request, k: nat)
    ensures Sending([r], k) == (if r.Act? && r.t.chid == k then [r.t.turnNo] else [])
    ensures Joins([r]) == if r.Join? then 1 else 0
  {
    assert [r][1..] == [];
  }

  // ---- taking one message ----

  ghost predicate Arrives(s: State, p: nat, l: Link, before: seq<Msg>, m: Msg, rest: seq<Msg>) {
    && Traced(s, p) && Log(s.out, p) == before + ([m] + rest)
    && Linked(s, p, l, before, [m] + rest)
    && (l.client.phase == Joining || l.client.phase == Playing)
    && (forall k: nat :: Chronicled(s, k))
  }

  lemma MessageFits(s: State, p: nat, l: Link, before: seq<Msg>, m: Msg, rest: seq<Msg>)
    requires Arrives(s, p, l, before, m, rest)
    ensures
      var o := Flow(NoChid, before);
      && Fits(s.hist, p, o, m) && Known(s.hist, p, o)
      && Flow(NoChid, before + [m]) == Shift(o, m)
  {
    Halves(s, p, before, [m] + rest);
    FlowAppend(NoChid, before, [m]);
    FitsOne(s.hist, p, Flow(NoChid, before), m);
    assert ([m] + rest)[1..] == rest;
  }

  // ---- joining ----

  /** The messages after `m` arrives, as far as joining is concerned. */
  lemma JoinShifts(before: seq<Msg>, m: Msg, rest: seq<Msg>)
    ensures JoinRs([m] + rest) == (if m.JoinR? then 1 else 0) + JoinRs(rest)
    ensures before + [m] + rest == before + ([m] + rest)
    ensures BadgeOf(NoBadge, before + [m])
         == if m.JoinR? && m.error == MeOk then Key(m.key) else BadgeOf(NoBadge, before)
  {
    assert ([m] + rest)[1..] == rest;
    assert [m][1..] == [];
    BadgeAppend(NoBadge, before, [m]);
  }

  lemma ArriveJoining(users: map<nat, User>, p: nat, before: seq<Msg>, m: Msg, rest: seq<Msg>, l: Link)
    requires JoinPart(users, p, before, [m] + rest, l) && l.client.phase == Joining
    requires m.JoinR? && m.error == MeOk ==> m.id == p
    ensures JoinPart(users, p, before + [m], rest, Post(l, Received(l.client, m)))
  {
    JoinShifts(before, m, rest);
    PostSends(l, Received(l.client, m).0, [], 0);
    assert ([m] + rest)[0] == m;
  }

  lemma ReceivedKeeps(c: Player, m: Msg)
    requires c.phase == Playing
    ensures
      var (c', rs) := Received(c, m);
      && InGame(c') && c'.id == c.id && c'.key == c.key && |rs| <= 1
      && (rs != [] ==> !rs[0].Join? && !rs[0].Act?)
  {
  }

  lemma ArrivePlaying(users: map<nat, User>, p: nat, before: seq<Msg>, m: Msg, rest: seq<Msg>, l: Link)
    requires JoinPart(users, p, before, [m] + rest, l) && l.client.phase == Playing
    ensures JoinPart(users, p, before + [m], rest, Post(l, Received(l.client, m)))
  {
    JoinShifts(before, m, rest);
    ReceivedKeeps(l.client, m);
    var (c, rs) := Received(l.client, m);
    PostSends(l, c, rs, 0);
    if rs != [] {
      OneRequest(rs[0], 0);
      assert rs == [rs[0]];
    }
  }

  // ---- requests ----

  /** What a message makes the client send is proper. */
  lemma ArriveUp(h: History, p: nat, o: MaybeChid, m: Msg, l: Link)
    requires UpPart(h, p, l) && Fits(h, p, o, m) && (InGame(l.client) ==> l.client.id == p)
    requires l.client.phase == Joining || l.client.phase == Playing
    ensures UpPart(h, p, Post(l, Received(l.client, m)))
  {
    var (c, rs) := Received(l.client, m);
    if l.client.phase == Playing {
      ReceivedKeeps(l.client, m);
    }
    PostProper(h, p, l, c, rs);
  }

  // ---- the battle ----

  lemma ArrivePlay(h: History, p: nat, before: seq<Msg>, m: Msg, c: Player)
    requires PlayPart(h, p, before, c) && Fits(h, p, Flow(NoChid, before), m)
    requires Flow(NoChid, before + [m]) == Shift(Flow(NoChid, before), m)
    requires c.phase == Playing || (c.phase == Joining && m.JoinR?)
    ensures PlayPart(h, p, before + [m], Received(c, m).0)
  {
    if c.phase == Playing {
      ReceivedKeeps(c, m);
    }
  }

  lemma ArriveHealth(before: seq<Msg>, m: Msg, c: Player)
    requires HealthPart(before, c) && (c.phase == Playing || (c.phase == Joining && m.JoinR?))
    ensures HealthPart(before + [m], Received(c, m).0)
  {
    RecentAppend(Unheard, before, [m]);
    assert [m][1..] == [];
    if c.phase == Playing {
      ReceivedKeeps(c, m);
    }
  }

  lemma ArriveView(p: nat, before: seq<Msg>, m: Msg, c: Player)
    requires ViewPart(p, before, c) && (c.phase == Playing ==> c.id == p && !m.JoinR?)
    requires c.phase == Playing || (c.phase == Joining && m.JoinR?)
    ensures ViewPart(p, before + [m], Received(c, m).0)
  {
    LookAppend(p, BLANK, before, [m]);
    LookOne(p, LookAll(p, BLANK, before), m);
  }

  // ---- the token ----

  /** No message of a running battle says that it is over. */
  lemma RunningIsNotFinal(s: State, p: nat, before: seq<Msg>, m: Msg, rest: seq<Msg>, k: nat)
    requires Chronicled(s, k) && Log(s.out, p) == before + ([m] + rest) && StartedAt(s, k)
    requires m.TurnR? && m.battle == k
    ensures !m.fin
  {
    var turns: seq<Msg> :| Told(s, k, turns) && RightTurns(s, k, turns);
    AboutAppend(before, [m] + rest, k);
    assert ([m] + rest)[1..] == rest;
    var about := About(Log(s.out, p), k);
    assert about[|About(before, k)|] == m;
    assert about == Story(s.hist, k, p, turns);
    assert StageOf(s, k) == Running;
    assert m in turns;
  }

  lemma ComingSplit(m: Msg, rest: seq<Msg>, k: nat)
    ensures Coming([m] + rest, k)
         == (if m.TurnR? && m.battle == k && !m.fin then [m.turnNo] else []) + Coming(rest, k)
  {
    assert ([m] + rest)[1..] == rest;
  }

  /** A message passes its token, if it carries one, to the client. */
  lemma HandOver(h: History, p: nat, o: MaybeChid, m: Msg, c: Player, k: nat)
    requires Fits(h, p, o, m)
    requires o.Chid? ==> c.chid == o.k
    requires !c.acted ==> o == Chid(c.chid)
    requires c.phase == Playing || (c.phase == Joining && m.JoinR? && c.acted)
    requires !(m.TurnR? && m.battle == k && m.fin)
    ensures
      var passed := if m.TurnR? && m.battle == k && !m.fin then [m.turnNo] else [];
      && (passed == [] ==> Hand(Received(c, m).0, k) == Hand(c, k))
      && (passed != [] ==> Hand(Received(c, m).0, k) == passed)
  {
  }

  lemma ArriveToken(s: State, p: nat, before: seq<Msg>, m: Msg, rest: seq<Msg>, l: Link, k: nat)
    requires TokenAt(s, k, p, l, [m] + rest) && Chronicled(s, k) && Log(s.out, p) == before + ([m] + rest)
    requires PlayPart(s.hist, p, before, l.client) && Fits(s.hist, p, Flow(NoChid, before), m)
    requires l.client.phase == Playing || (l.client.phase == Joining && m.JoinR? && l.client.acted)
    ensures TokenAt(s, k, p, Post(l, Received(l.client, m)), rest)
  {
    if StartedAt(s, k) && Party(s.chs[k], p) {
      if m.TurnR? && m.battle == k {
        RunningIsNotFinal(s, p, before, m, rest, k);
      }
      var (c, rs) := Received(l.client, m);
      HandOver(s.hist, p, Flow(NoChid, before), m, l.client, k);
      ComingSplit(m, rest, k);
      ArriveSends(l, m, k);
    }
  }

  lemma ArriveSends(l: Link, m: Msg, k: nat)
    requires l.client.phase == Playing || l.client.phase == Joining
    ensures Sending(Post(l, Received(l.client, m)).up, k) == Sending(l.up, k)
  {
    var (c, rs) := Received(l.client, m);
    PostSends(l, c, rs, k);
    if l.client.phase == Playing {
      ReceivedKeeps(l.client, m);
    }
    if rs != [] {
      OneRequest(rs[0], k);
      assert rs == [rs[0]];
    }
  }

  /** Taking a message keeps all of it. */
  lemma ArriveLinked(s: State, p: nat, l: Link, before: seq<Msg>, m: Msg, rest: seq<Msg>)
    requires Arrives(s, p, l, before, m, rest)
    ensures Linked(s, p, Post(l, Received(l.client, m)), before + [m], rest)
  {
    MessageFits(s, p, l, before, m, rest);
    assert ([m] + rest)[0] == m;
    JoinShifts(before, m, rest);
    if l.client.phase == Joining {
      ArriveJoining(s.users, p, before, m, rest, l);
    } else {
      ArrivePlaying(s.users, p, before, m, rest, l);
    }
    ArriveUp(s.hist, p, Flow(NoChid, before), m, l);
    ArrivePlay(s.hist, p, before, m, l.client);
    ArriveHealth(before, m, l.client);
    ArriveView(p, before, m, l.client);
    forall k: nat
      ensures TokenAt(s, k, p, Post(l, Received(l.client, m)), rest)
    {
      ArriveToken(s, p, before, m, rest, l, k);
    }
  }

  // ---- keys ----

  lemma PressedKeeps(c: Player, k: char, cmd: Command)
    requires c.phase == Playing
    ensures
      var (c', rs) := Pressed(c, k, cmd);
      && InGame(c') && c'.id == c.id && c'.key == c.key && c'.chid == c.chid && c'.table == c.table
      && c'.state == c.state && c'.opponentId == c.opponentId && c'.isUser1 == c.isUser1
      && c'.hp == c.hp && c'.maxHp == c.maxHp && c'.opponentHp == c.opponentHp && c'.opponentMaxHp == c.opponentMaxHp
      && (c'.waiting == WAccept ==> c.waiting == WAccept) && (!c'.acted ==> !c.acted)
      && |rs| <= 1 && (rs != [] ==> !rs[0].Join?)
      && (if rs != [] && rs[0].Act? then !c.acted && c'.acted && rs[0].t.chid == c.chid && rs[0].t.turnNo == c.turnNo
          else c'.acted == c.acted && c'.turnNo == c.turnNo)
  {
  }

  lemma PressProper(h: History, p: nat, before: seq<Msg>, c: Player, k: char, cmd: Command)
    requires PlayPart(h, p, before, c) && c.phase == Playing && c.id == p && Known(h, p, Flow(NoChid, before))
    ensures forall r | r in Pressed(c, k, cmd).1 :: Proper(h, p, Pressed(c, k, cmd).0, r)
  {
  }

  lemma PressToken(s: State, p: nat, ahead: seq<Msg>, l: Link, key: char, cmd: Command, k: nat)
    requires TokenAt(s, k, p, l, ahead) && l.client.phase == Playing
    ensures TokenAt(s, k, p, Post(l, Pressed(l.client, key, cmd)), ahead)
  {
    var (c, rs) := Pressed(l.client, key, cmd);
    PressedKeeps(l.client, key, cmd);
    PostSends(l, c, rs, k);
    PressHands(l.client, key, cmd, k);
    ActMovesToken(Sending(l.up, k), Hand(l.client, k), Hand(c, k), Coming(ahead, k), rs, k);
  }

  lemma PressHands(c: Player, key: char, cmd: Command, k: nat)
    requires c.phase == Playing
    ensures Sending(Pressed(c, key, cmd).1, k) + Hand(Pressed(c, key, cmd).0, k) == Hand(c, k)
  {
    var (d, rs) := Pressed(c, key, cmd);
    PressedKeeps(c, key, cmd);
    if rs != [] {
      OneRequest(rs[0], k);
      assert rs == [rs[0]];
    }
  }

  /** Acting moves the token from the client's hand to the end of what it sends. */
  lemma ActMovesToken(a: seq<nat>, b: seq<nat>, b': seq<nat>, coming: seq<nat>, rs: seq<Request>, k: nat)
    requires Sending(rs, k) + b' == b
    ensures (a + Sending(rs, k)) + (b' + coming) == a + (b + coming)
  {
    assert (a + Sending(rs, k)) + (b' + coming) == a + ((Sending(rs, k) + b') + coming);
  }

  lemma PressLinked(s: State, p: nat, l: Link, before: seq<Msg>, ahead: seq<Msg>, key: char, cmd: Command)
    requires Linked(s, p, l, before, ahead) && l.client.phase == Playing
    requires Traced(s, p) && Log(s.out, p) == before + ahead
    ensures Linked(s, p, Post(l, Pressed(l.client, key, cmd)), before, ahead)
  {
    var (c, rs) := Pressed(l.client, key, cmd);
    var l' := Post(l, (c, rs));
    PressedKeeps(l.client, key, cmd);
    Halves(s, p, before, ahead);
    PressProper(s.hist, p, before, l.client, key, cmd);
    PostProper(s.hist, p, l, c, rs);
    PostSends(l, c, rs, 0);
    if rs != [] {
      OneRequest(rs[0], 0);
      assert rs == [rs[0]];
    }
    assert JoinPart(s.users, p, before, ahead, l');
    PressTokens(s, p, ahead, l, key, cmd);
  }

  lemma PressTokens(s: State, p: nat, ahead: seq<Msg>, l: Link, key: char, cmd: Command)
    requires TokenPart(s, p, l, ahead) && l.client.phase == Playing
    ensures TokenPart(s, p, Post(l, Pressed(l.client, key, cmd)), ahead)
  {
    forall k: nat
      ensures TokenAt(s, k, p, Post(l, Pressed(l.client, key, cmd)), ahead)
    {
      PressToken(s, p, ahead, l, key, cmd, k);
    }
  }

  // ---- logging in ----

  lemma LoginLinked(s: State, p: nat, l: Link, before: seq<Msg>, ahead: seq<Msg>, nick: Nick)
    requires Linked(s, p, l, before, ahead) && l.client.phase == Typing
    ensures Linked(s, p, Post(l, LoggedIn(l.client, nick)), before, ahead)
  {
    var (c, rs) := LoggedIn(l.client, nick);
    var l' := Post(l, (c, rs));
    PostProper(s.hist, p, l, c, rs);
    PostSends(l, c, rs, 0);
    OneRequest(rs[0], 0);
    forall k: nat
      ensures TokenAt(s, k, p, l', ahead)
    {
      assert TokenAt(s, k, p, l, ahead);
      PostSends(l, c, rs, k);
      OneRequest(rs[0], k);
    }
  }

  // ---- losing the connection ----

  lemma CutKeeps(up: seq<Request>, keep: nat, k: nat)
    requires keep <= |up|
    ensures Joins(up[..keep] + [Gone]) <= Joins(up)
    ensures Sending(up[..keep] + [Gone], k) <= Sending(up, k)
  {
    assert up == up[..keep] + up[keep..];
    JoinsAppend(up[..keep], up[keep..]);
    JoinsAppend(up[..keep], [Gone]);
    SendingAppend(up[..keep], up[keep..], k);
    SendingAppend(up[..keep], [Gone], k);
    OneRequest(Gone, k);
  }

  lemma CutLinked(s: State, p: nat, l: Link, before: seq<Msg>, ahead: seq<Msg>, keep: nat)
    requires Linked(s, p, l, before, ahead) && keep <= |l.up| && !l.cut
    ensures Linked(s, p, l.(up := l.up[..keep] + [Gone], cut := true), before, ahead)
  {
    var l' := l.(up := l.up[..keep] + [Gone], cut := true);
    CutKeeps(l.up, keep, 0);
    forall k: nat
      ensures TokenAt(s, k, p, l', ahead)
    {
      assert TokenAt(s, k, p, l, ahead);
      CutKeeps(l.up, keep, k);
      if StartedAt(s, k) && Party(s.chs[k], p) {
        FewerTokens(Flag(s.chs[k], p), Sending(l.up, k), Sending(l'.up, k), Hand(l.client, k) + Coming(ahead, k));
      }
    }
  }

  /** Losing requests loses the token or leaves it where it was. */
  lemma FewerTokens(flag: seq<nat>, sending: seq<nat>, sending': seq<nat>, rest: seq<nat>)
    requires sending' <= sending && |flag + (sending + rest)| <= 1
    ensures flag + (sending' + rest) == flag + (sending + rest) || flag + (sending' + rest) == []
  {
  }

  // ---- connecting ----

  lemma ConnectLinked(s: State, p: nat)
    requires p !in s.users && Paired(s) && IdlePart(s, p)
    ensures Linked(s, p, Link(NEWCOMER, 0, [], false), [], [])
  {
    forall k: nat
      ensures TokenAt(s, k, p, Link(NEWCOMER, 0, [], false), [])
    {
      if StartedAt(s, k) {
        FightHasBoth(s.users, s.chs, k);
      }
    }
  }
}
