/** What holds of every connection, between its client, its messages in both directions, and the server. */
module Links {
  import opened Protocol
  import opened ServerSpec
  import opened Logs
  import opened Moves
  import opened Trace
  import opened ClientSpec
  import opened Replica
  import opened Network

  // ---- joining ----

  function Joins(up: seq<Request>): nat {
    if up == [] then 0 else (if up[0].Join? then 1 else 0) + Joins(up[1..])
  }

  function JoinRs(ms: seq<Msg>): nat {
    if ms == [] then 0 else (if ms[0].JoinR? then 1 else 0) + JoinRs(ms[1..])
  }

  datatype Badge = NoBadge | Key(key: nat)

  /** The key that the last successful JOIN_R carried. */
  function BadgeOf(b: Badge, ms: seq<Msg>): Badge
    decreases |ms|
  {
    if ms == [] then b
    else BadgeOf(if ms[0].JoinR? && ms[0].error == MeOk then Key(ms[0].key) else b, ms[1..])
  }

  predicate InGame(c: Player) {
    c.phase == Playing || c.phase == Ended
  }

  /** One JOIN at a time, none after success, and the client has the key it was given. */
  ghost predicate JoinPart(users: map<nat, User>, p: nat, before: seq<Msg>, ahead: seq<Msg>, l: Link) {
    var c := l.client;
    && Joins(l.up) + JoinRs(ahead) <= (if c.phase == Joining then 1 else 0)
    && (if InGame(c) then c.id == p && BadgeOf(NoBadge, before) == Key(c.key)
        else c == NEWCOMER.(phase := c.phase) && BadgeOf(NoBadge, before) == NoBadge)
    && (p in users ==> BadgeOf(NoBadge, before + ahead) == Key(users[p].key))
    && (c.phase == Typing ==> ahead == [])
    && (c.phase == Joining && ahead != [] ==> ahead[0].JoinR? && (ahead[0].error == MeOk || |ahead| == 1))
  }

  // ---- requests on their way ----

  /** A request that client `p` may have sent. */
  predicate Proper(h: History, p: nat, c: Player, r: Request) {
    match r
    case Join(nick) => true
    case Quit(id, key) => InGame(c) && id == p && key == c.key
    case Ask(q) =>
      && InGame(c) && q.key == c.key
      && (if q.action == CAccept || q.action == CReject
          then q.id2 == p && q.chid in h.pairs && h.pairs[q.chid] == (q.id1, q.id2)
          else q.id1 == p)
    case Act(t) =>
      && InGame(c) && t.user == p && t.key == c.key
      && t.chid in h.begun && t.chid in h.pairs && (p == h.pairs[t.chid].0 || p == h.pairs[t.chid].1)
    case Gone => true
  }

  ghost predicate UpPart(h: History, p: nat, l: Link) {
    forall r | r in l.up :: Proper(h, p, l.client, r)
  }

  // ---- the client's idea of its battle ----

  /** What a connection last heard about a battle: nothing yet, that one starts, or a turn of it. */
  datatype Heard = Unheard | Turn(m: Msg)

  function Hears(r: Heard, m: Msg): Heard {
    if m.TurnR? then Turn(m) else if m.ChallengeR? && m.error == MeOk then Unheard else r
  }

  function Recent(r: Heard, ms: seq<Msg>): Heard
    decreases |ms|
  {
    if ms == [] then r else Recent(Hears(r, ms[0]), ms[1..])
  }

  /** The client shows the hit points of turn `m` from its own side. */
  predicate Sees(c: Player, m: Msg) {
    m.TurnR? &&
    if c.isUser1 then c.hp == m.hp1 && c.maxHp == m.maxhp1 && c.opponentHp == m.hp2 && c.opponentMaxHp == m.maxhp2
    else c.hp == m.hp2 && c.maxHp == m.maxhp2 && c.opponentHp == m.hp1 && c.opponentMaxHp == m.maxhp1
  }

  /** The client knows which user of the battle it is, and whom it plays against. */
  predicate Sides(pair: (nat, nat), p: nat, c: Player) {
    && pair.0 != pair.1 && c.isUser1 == (p == pair.0)
    && (if c.isUser1 then pair.1 == c.opponentId else pair == (c.opponentId, p))
  }

  ghost predicate PlayPart(h: History, p: nat, before: seq<Msg>, c: Player) {
    var o := Flow(NoChid, before);
    && (o.Chid? ==> InGame(c) && c.chid == o.k && o.k in h.pairs && Sides(h.pairs[o.k], p, c))
    && (!c.acted ==> InGame(c) && o == Chid(c.chid))
    && (c.waiting == WAccept ==> InGame(c) && c.chid in h.pairs && h.pairs[c.chid] == (c.opponentId, p))
  }

  /** The client shows the last turn it heard of. */
  ghost predicate HealthPart(before: seq<Msg>, c: Player) {
    Recent(Unheard, before).Turn? ==> InGame(c) && Sees(c, Recent(Unheard, before).m)
  }

  ghost predicate ViewPart(p: nat, before: seq<Msg>, c: Player) {
    c.phase == Playing ==> LookAll(p, BLANK, before) == LookOf(c)
  }

  // ---- the turn token ----

  function Party(ch: Challenge, p: nat): bool {
    p == ch.user1 || p == ch.user2
  }

  /** The token at the server: the user has acted. */
  function Flag(ch: Challenge, p: nat): seq<nat> {
    if (p == ch.user1 && ch.acted1) || (p == ch.user2 && ch.acted2) then [ch.turnNo] else []
  }

  /** The tokens on their way to the server: TURNs for battle `k`. */
  function Sending(up: seq<Request>, k: nat): seq<nat> {
    if up == [] then []
    else (if up[0].Act? && up[0].t.chid == k then [up[0].t.turnNo] else []) + Sending(up[1..], k)
  }

  /** The token at the client: it may act in battle `k`. */
  function Hand(c: Player, k: nat): seq<nat> {
    if !c.acted && c.chid == k then [c.turnNo] else []
  }

  /** The tokens on their way to the client: TURN_Rs for battle `k` that ask for an action. */
  function Coming(ms: seq<Msg>, k: nat): seq<nat> {
    if ms == [] then []
    else (if ms[0].TurnR? && ms[0].battle == k && !ms[0].fin then [ms[0].turnNo] else []) + Coming(ms[1..], k)
  }

  /** All turn tokens of user `p` in battle `k`, each with its turn number, in the order they reach the server. */
  function Tokens(ch: Challenge, k: nat, p: nat, l: Link, ahead: seq<Msg>): seq<nat> {
    Flag(ch, p) + (Sending(l.up, k) + (Hand(l.client, k) + Coming(ahead, k)))
  }

  /** Before its first turn a battle has no token; then each user has one, for the current turn, unless the
      token was lost with the connection. */
  predicate Right(tokens: seq<nat>, ch: Challenge, cut: bool) {
    if ch.turns == 0 then tokens == [] else tokens == [ch.turnNo] || (cut && tokens == [])
  }

  ghost predicate TokenAt(s: State, k: nat, p: nat, l: Link, ahead: seq<Msg>) {
    StartedAt(s, k) && Party(s.chs[k], p) ==> Right(Tokens(s.chs[k], k, p, l, ahead), s.chs[k], l.cut)
  }

  ghost predicate TokenPart(s: State, p: nat, l: Link, ahead: seq<Msg>) {
    forall k: nat :: TokenAt(s, k, p, l, ahead)
  }

  /** On a challenge that is still being asked the user has not acted. */
  ghost predicate IdlePart(s: State, p: nat) {
    forall k | AskingAt(s, k) && Party(s.chs[k], p) :: Flag(s.chs[k], p) == []
  }

  // ---- all together ----

  ghost predicate Linked(s: State, p: nat, l: Link, before: seq<Msg>, ahead: seq<Msg>) {
    && JoinPart(s.users, p, before, ahead, l)
    && UpPart(s.hist, p, l)
    && PlayPart(s.hist, p, before, l.client)
    && HealthPart(before, l.client)
    && ViewPart(p, before, l.client)
    && TokenPart(s, p, l, ahead)
    && IdlePart(s, p)
  }

  ghost predicate LinkInv(s: State, p: nat, l: Link) {
    var log := Log(s.out, p);
    && 0 < p < ID_MODULUS && l.pos <= |log|
    && Traced(s, p) && Mirrors(s, p)
    && Linked(s, p, l, log[..l.pos], log[l.pos..])
  }

  lemma LinkFrom(s: State, p: nat, l: Link, before: seq<Msg>, ahead: seq<Msg>)
    requires 0 < p < ID_MODULUS && |before| == l.pos && Log(s.out, p) == before + ahead
    requires Traced(s, p) && Mirrors(s, p) && Linked(s, p, l, before, ahead)
    ensures LinkInv(s, p, l)
  {
    assert (before + ahead)[..l.pos] == before && (before + ahead)[l.pos..] == ahead;
  }

  // ---- appending ----

  lemma {:induction false} JoinsAppend(a: seq<Request>, b: seq<Request>)
    ensures Joins(a + b) == Joins(a) + Joins(b)
    decreases |a|
  {
    if a == [] {
      assert a + b == b;
    } else {
      assert (a + b)[1..] == a[1..] + b;
      JoinsAppend(a[1..], b);
    }
  }

  lemma {:induction false} JoinRsAppend(a: seq<Msg>, b: seq<Msg>)
    ensures JoinRs(a + b) == JoinRs(a) + JoinRs(b)
    decreases |a|
  {
    if a == [] {
      assert a + b == b;
    } else {
      assert (a + b)[1..] == a[1..] + b;
      JoinRsAppend(a[1..], b);
    }
  }

  lemma {:induction false} BadgeAppend(o: Badge, a: seq<Msg>, b: seq<Msg>)
    ensures BadgeOf(o, a + b) == BadgeOf(BadgeOf(o, a), b)
    decreases |a|
  {
    if a == [] {
      assert a + b == b;
    } else {
      assert (a + b)[1..] == a[1..] + b;
      BadgeAppend(if a[0].JoinR? && a[0].error == MeOk then Key(a[0].key) else o, a[1..], b);
    }
  }

  lemma {:induction false} RecentAppend(r: Heard, a: seq<Msg>, b: seq<Msg>)
    ensures Recent(r, a + b) == Recent(Recent(r, a), b)
    decreases |a|
  {
    if a == [] {
      assert a + b == b;
    } else {
      assert (a + b)[1..] == a[1..] + b;
      RecentAppend(Hears(r, a[0]), a[1..], b);
    }
  }

  lemma {:induction false} SendingAppend(a: seq<Request>, b: seq<Request>, k: nat)
    ensures Sending(a + b, k) == Sending(a, k) + Sending(b, k)
    decreases |a|
  {
    if a == [] {
      assert a + b == b;
    } else {
      assert (a + b)[0] == a[0] && (a + b)[1..] == a[1..] + b;
      SendingAppend(a[1..], b, k);
      var first := if a[0].Act? && a[0].t.chid == k then [a[0].t.turnNo] else [];
      assert first + (Sending(a[1..], k) + Sending(b, k)) == (first + Sending(a[1..], k)) + Sending(b, k);
    }
  }

  lemma {:induction false} ComingAppend(a: seq<Msg>, b: seq<Msg>, k: nat)
    ensures Coming(a + b, k) == Coming(a, k) + Coming(b, k)
    decreases |a|
  {
    if a == [] {
      assert a + b == b;
    } else {
      assert (a + b)[0] == a[0] && (a + b)[1..] == a[1..] + b;
      ComingAppend(a[1..], b, k);
      var first := if a[0].TurnR? && a[0].battle == k && !a[0].fin then [a[0].turnNo] else [];
      assert first + (Coming(a[1..], k) + Coming(b, k)) == (first + Coming(a[1..], k)) + Coming(b, k);
    }
  }

  /** Messages about no success at joining. */
  lemma {:induction false} NoJoinRs(b: Badge, ms: seq<Msg>)
    requires JoinRs(ms) == 0
    ensures BadgeOf(b, ms) == b
    decreases |ms|
  {
    if ms == [] {
    } else {
      NoJoinRs(b, ms[1..]);
    }
  }

  // ---- no token before the battle ----

  /** A connection's battle, as told by its messages, has begun and has it as a party. */
  predicate Known(h: History, p: nat, o: MaybeChid) {
    o.Chid? ==> o.k in h.begun && o.k in h.pairs && (p == h.pairs[o.k].0 || p == h.pairs[o.k].1)
  }

  lemma {:induction false} FlowKnown(h: History, p: nat, o: MaybeChid, ms: seq<Msg>)
    requires FitsAll(h, p, o, ms) && Known(h, p, o)
    ensures Known(h, p, Flow(o, ms))
    decreases |ms|
  {
    if ms == [] {
    } else {
      FlowKnown(h, p, Shift(o, ms[0]), ms[1..]);
    }
  }

  lemma {:induction false} NoneComing(h: History, p: nat, o: MaybeChid, ms: seq<Msg>, k: nat)
    requires FitsAll(h, p, o, ms) && Known(h, p, o) && k !in h.begun
    ensures Coming(ms, k) == []
    decreases |ms|
  {
    if ms == [] {
    } else {
      NoneComing(h, p, Shift(o, ms[0]), ms[1..], k);
    }
  }

  lemma {:induction false} NoneSending(h: History, p: nat, c: Player, up: seq<Request>, k: nat)
    requires (forall r | r in up :: Proper(h, p, c, r)) && k !in h.begun
    ensures Sending(up, k) == []
    decreases |up|
  {
    if up == [] {
    } else {
      assert up[0] in up;
      NoneSending(h, p, c, up[1..], k);
    }
  }

  /** The two halves of what a connection was sent fit one after the other. */
  lemma Halves(s: State, p: nat, before: seq<Msg>, ahead: seq<Msg>)
    requires Traced(s, p) && Log(s.out, p) == before + ahead
    ensures
      var o := Flow(NoChid, before);
      && FitsAll(s.hist, p, NoChid, before) && FitsAll(s.hist, p, o, ahead)
      && Known(s.hist, p, o) && Flow(o, ahead) == Battle(s.users, p)
  {
    FitsAppend(s.hist, p, NoChid, before, ahead);
    FlowAppend(NoChid, before, ahead);
    FlowKnown(s.hist, p, NoChid, before);
  }

  /** A battle that has not begun has no tokens anywhere but at the server. */
  lemma NoTokens(s: State, p: nat, l: Link, before: seq<Msg>, ahead: seq<Msg>, k: nat)
    requires Traced(s, p) && Log(s.out, p) == before + ahead
    requires UpPart(s.hist, p, l) && PlayPart(s.hist, p, before, l.client) && k !in s.hist.begun
    ensures Sending(l.up, k) == [] && Hand(l.client, k) == [] && Coming(ahead, k) == []
  {
    Halves(s, p, before, ahead);
    NoneComing(s.hist, p, Flow(NoChid, before), ahead, k);
    NoneSending(s.hist, p, l.client, l.up, k);
  }
}
