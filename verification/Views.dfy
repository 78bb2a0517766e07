/** What the two players of a battle are shown. */
module Views {
  import opened Protocol
  import opened ServerSpec
  import opened Invariants
  import opened Logs
  import opened Moves
  import opened Trace
  import opened Chronicle
  import opened ClientSpec
  import opened Network
  import opened Links
  import opened System

  // ---- the last turn a connection heard of ----

  function HeardOf(m: Msg): Heard {
    if m.TurnR? then Turn(m) else Unheard
  }

  /** A connection gets into battle `k` only by a message about it. */
  lemma {:induction false} EnteredByMessage(o: MaybeChid, ms: seq<Msg>, k: nat)
    requires Flow(o, ms) == Chid(k) && About(ms, k) == []
    ensures o == Chid(k)
    decreases |ms|
  {
    if ms == [] {
    } else {
      EnteredByMessage(Shift(o, ms[0]), ms[1..], k);
    }
  }

  /** While it is in battle `k`, it hears of no other. */
  lemma {:induction false} NothingElseHeard(h: History, p: nat, o: MaybeChid, ms: seq<Msg>, k: nat, r: Heard)
    requires FitsAll(h, p, o, ms) && Flow(o, ms) == Chid(k) && About(ms, k) == []
    ensures Recent(r, ms) == r
    decreases |ms|
  {
    if ms == [] {
    } else {
      EnteredByMessage(o, ms, k);
      NothingElseHeard(h, p, Shift(o, ms[0]), ms[1..], k, Hears(r, ms[0]));
    }
  }

  /** In battle `k`, what was heard last is the last message about `k`. */
  lemma {:induction false} LastHeard(h: History, p: nat, o: MaybeChid, ms: seq<Msg>, k: nat, r: Heard)
    requires FitsAll(h, p, o, ms) && Flow(o, ms) == Chid(k) && About(ms, k) != []
    ensures Recent(r, ms) == HeardOf(About(ms, k)[|About(ms, k)| - 1])
    decreases |ms|
  {
    var rest := ms[1..];
    if About(rest, k) == [] {
      NothingElseHeard(h, p, Shift(o, ms[0]), rest, k, Hears(r, ms[0]));
    } else {
      LastHeard(h, p, Shift(o, ms[0]), rest, k, Hears(r, ms[0]));
    }
  }

  // ---- hit points ----

  /** What a player of a running battle was last sent about it is a turn with the challenge's own hit points. */
  lemma LastTurnSent(s: State, k: nat, p: nat)
    requires Traced(s, p) && Chronicled(s, k) && Turned(s) && Remembered(s) && Paired(s)
    requires StartedAt(s, k) && Party(s.chs[k], p)
    ensures Flow(NoChid, Log(s.out, p)) == Chid(k)
    ensures
      var r := Recent(Unheard, Log(s.out, p));
      r.Turn? && SameHealth(r.m, s.chs[k])
  {
    var log := Log(s.out, p);
    FightHasBoth(s.users, s.chs, k);
    assert Battle(s.users, p) == Chid(k);
    var turns: seq<Msg> :| Told(s, k, turns) && RightTurns(s, k, turns);
    assert StageOf(s, k) == Running && |turns| > 0;
    assert About(log, k) == Story(s.hist, k, p, turns);
    LastHeard(s.hist, p, NoChid, log, k, Unheard);
    assert Recent(Unheard, log) == Turn(turns[|turns| - 1]);
  }

  /** A player of a running battle that has taken everything sent to it shows the challenge's own hit points, its own
      side first. */
  lemma ClientHealth(y: Sys, k: nat, p: nat)
    requires Reachable(y) && StartedAt(y.srv, k) && Party(y.srv.chs[k], p)
    requires p in y.links && y.links[p].client.phase == Playing && y.links[p].pos == |Log(y.srv.out, p)|
    ensures ShowsHealth(y.links[p].client, y.srv.chs[k], p)
  {
    ReachableServer(y);
    ReachableLink(y, p);
    ReachableStory(y, k);
    LastTurnSent(y.srv, k, p);
    LinkShows(y.srv, k, p, y.links[p]);
  }

  lemma LinkShows(s: State, k: nat, p: nat, l: Link)
    requires LinkInv(s, p, l) && l.pos == |Log(s.out, p)| && Remembered(s) && k in s.chs
    requires Flow(NoChid, Log(s.out, p)) == Chid(k)
    requires Recent(Unheard, Log(s.out, p)).Turn? && SameHealth(Recent(Unheard, Log(s.out, p)).m, s.chs[k])
    ensures ShowsHealth(l.client, s.chs[k], p)
  {
    assert Log(s.out, p)[..l.pos] == Log(s.out, p);
  }

  predicate ShowsHealth(c: Player, ch: Challenge, p: nat) {
    && c.isUser1 == (p == ch.user1)
    && if p == ch.user1 then
         c.hp == ch.hp1 && c.maxHp == ch.maxhp1 && c.opponentHp == ch.hp2 && c.opponentMaxHp == ch.maxhp2
       else
         c.hp == ch.hp2 && c.maxHp == ch.maxhp2 && c.opponentHp == ch.hp1 && c.opponentMaxHp == ch.maxhp1
  }

  /** Mirrored views: each player's own hit points are the other's opponent's. */
  lemma MirroredHealth(y: Sys, k: nat)
    requires Reachable(y) && StartedAt(y.srv, k)
    requires forall p: nat | Party(y.srv.chs[k], p) ::
               p in y.links && y.links[p].client.phase == Playing && y.links[p].pos == |Log(y.srv.out, p)|
    ensures
      var ch := y.srv.chs[k];
      Party(ch, ch.user1) && Party(ch, ch.user2) &&
      var c1, c2 := y.links[ch.user1].client, y.links[ch.user2].client;
      && c1.isUser1 && !c2.isUser1
      && c1.hp == c2.opponentHp == ch.hp1 && c1.opponentHp == c2.hp == ch.hp2
      && c1.maxHp == c2.opponentMaxHp && c1.opponentMaxHp == c2.maxHp
  {
    ReachableServer(y);
    var ch := y.srv.chs[k];
    assert Party(ch, ch.user1) && Party(ch, ch.user2);
    FightHasBoth(y.srv.users, y.srv.chs, k);
    ClientHealth(y, k, ch.user1);
    ClientHealth(y, k, ch.user2);
  }

  // ---- banners ----

  /** The two users that battle `k` is between. */
  predicate Between(h: History, k: nat, p: nat) {
    k in h.pairs && h.pairs[k].0 != h.pairs[k].1 && (p == h.pairs[k].0 || p == h.pairs[k].1)
  }

  /** A report that connection `p` is sent follows the last turn it heard of, as the actions dictate, or is the
      first. */
  lemma ReportFollowsLast(s: State, p: nat, before: seq<Msg>, m: Msg, rest: seq<Msg>)
    requires Traced(s, p) && Remembered(s) && Log(s.out, p) == before + ([m] + rest)
    requires m.TurnR? && Chronicled(s, m.battle)
    ensures Flow(NoChid, before) == Chid(m.battle) && Between(s.hist, m.battle, p)
    ensures Stands(m, s.hist.pairs[m.battle].0, s.hist.pairs[m.battle].1)
    ensures
      var r := Recent(Unheard, before);
      if r.Turn? then Deals(r.m, m) && (m.turnNo > 1 ==> r.m.turnNo != 0) else m.turnNo == 1
  {
    var k := m.battle;
    Halves(s, p, before, [m] + rest);
    assert ([m] + rest)[0] == m && ([m] + rest)[1..] == rest;
    assert Known(s.hist, p, Chid(k));
    var turns: seq<Msg> :| Told(s, k, turns) && RightTurns(s, k, turns) && FairTurns(s, k, turns);
    var about, later := About(before, k), About(rest, k);
    AboutAppend(before, [m] + rest, k);
    assert About(Log(s.out, p), k) == Story(s.hist, k, p, turns);
    if about == [] {
      EnteredByMessage(NoChid, before, k);
    }
    LastHeard(s.hist, p, NoChid, before, k, Unheard);
    NextInStory(s, k, turns, Story(s.hist, k, p, turns)[0], about, m, later);
  }

  /** The report after what was heard so far. */
  lemma NextInStory(s: State, k: nat, turns: seq<Msg>, answer: Msg, about: seq<Msg>, m: Msg, later: seq<Msg>)
    requires RightTurns(s, k, turns) && FairTurns(s, k, turns) && k in s.hist.pairs
    requires about != [] && [answer] + turns == about + ([m] + later) && !answer.TurnR?
    ensures Stands(m, s.hist.pairs[k].0, s.hist.pairs[k].1)
    ensures
      var r := HeardOf(about[|about| - 1]);
      if r.Turn? then Deals(r.m, m) && (m.turnNo > 1 ==> r.m.turnNo != 0) else m.turnNo == 1
  {
    PlaceInStory(answer, turns, about, m, later);
    var i := |about| - 1;
    assert turns[i].turnNo == (i + 1) % TURN_MODULUS;
    if i > 0 {
      assert Deals(turns[i - 1], turns[i]);
      assert turns[i - 1].turnNo == i % TURN_MODULUS;
      NumbersFollow(i);
    }
  }

  lemma NumbersFollow(i: nat)
    ensures (i + 1) % TURN_MODULUS > 1 ==> i % TURN_MODULUS != 0
  {
  }

  /** Where report `m` stands among the turns. */
  lemma PlaceInStory(answer: Msg, turns: seq<Msg>, about: seq<Msg>, m: Msg, later: seq<Msg>)
    requires about != [] && [answer] + turns == about + ([m] + later)
    ensures |about| - 1 < |turns| && turns[|about| - 1] == m
    ensures if |about| == 1 then about[0] == answer else about[|about| - 1] == turns[|about| - 2]
  {
    var story := [answer] + turns;
    assert story[|about|] == m;
    assert about[|about| - 1] == story[|about| - 1];
  }

  /** What the banner says is what happened to the client's own hit points and to its opponent's. */
  predicate BannerIsTrue(c: Player, d: Player, m: Msg)
    requires m.TurnR?
  {
    if m.fin then
      && (Shown(c, m) == Victory || Shown(c, m) == Defeat)
      && (d.hp <= 0 ==> Shown(c, m) == Defeat && d.opponentHp > 0)
      && (d.opponentHp <= 0 ==> Shown(c, m) == Victory && d.hp > 0)
    else
      m.turnNo > 1 ==>
        && (Shown(c, m) == LastTurn(Lose) <==> 1 <= c.hp - d.hp <= 5)
        && (Shown(c, m) == LastTurn(Win) <==> 1 <= c.opponentHp - d.opponentHp <= 5)
        && (Shown(c, m) == LastTurn(Even) <==> d.hp == c.hp && d.opponentHp == c.opponentHp)
  }

  lemma BannerFollows(c: Player, m: Msg, prev: Msg, id1: nat, id2: nat)
    requires m.TurnR? && Stands(m, id1, id2) && id1 != id2
    requires c.id == (if c.isUser1 then id1 else id2)
    requires m.turnNo > 1 && !m.fin ==> Deals(prev, m) && prev.turnNo != 0 && Sees(c, prev)
    ensures BannerIsTrue(c, TurnReceived(c, m), m)
  {
  }

  /** Client `p` is in the game and about to take report `m`. */
  ghost predicate Takes(y: Sys, p: nat, m: Msg) {
    && p in y.links && y.links[p].client.phase == Playing
    && y.links[p].pos < |Log(y.srv.out, p)| && Log(y.srv.out, p)[y.links[p].pos] == m
  }

  lemma LinkBanner(s: State, p: nat, l: Link, m: Msg)
    requires LinkInv(s, p, l) && Remembered(s) && l.client.phase == Playing
    requires l.pos < |Log(s.out, p)| && Log(s.out, p)[l.pos] == m && m.TurnR? && Chronicled(s, m.battle)
    ensures Between(s.hist, m.battle, p)
    ensures l.client.id == p && l.client.isUser1 == (p == s.hist.pairs[m.battle].0)
    ensures m.fin ==> m.winner == s.hist.pairs[m.battle].0 || m.winner == s.hist.pairs[m.battle].1
    ensures BannerIsTrue(l.client, TurnReceived(l.client, m), m)
  {
    var log := Log(s.out, p);
    var before, rest := log[..l.pos], log[l.pos + 1..];
    assert log == before + ([m] + rest);
    ReportFollowsLast(s, p, before, m, rest);
    var r := Recent(Unheard, before);
    BannerFollows(l.client, m, if r.Turn? then r.m else m, s.hist.pairs[m.battle].0, s.hist.pairs[m.battle].1);
  }

  /** On every execution, whenever a client takes a report, its banner is true. */
  lemma BannersAreTrue(y: Sys, p: nat, m: Msg)
    requires Reachable(y) && Takes(y, p, m) && m.TurnR?
    ensures Between(y.srv.hist, m.battle, p)
    ensures
      var c := y.links[p].client;
      && c.id == p && c.isUser1 == (p == y.srv.hist.pairs[m.battle].0)
      && Received(c, m) == (TurnReceived(c, m), [])
      && BannerIsTrue(c, TurnReceived(c, m), m)
  {
    ReachableServer(y);
    ReachableLink(y, p);
    ReachableStory(y, m.battle);
    LinkBanner(y.srv, p, y.links[p], m);
  }

  /** On every execution, whenever the two players of a battle take the same report of it, each at its own time: if the
      battle goes on, one is told "you won" exactly when the other is told "you lost", exactly when that other's hit
      points fall by 1 to 5; if it ends, one is told of victory and the other of defeat. */
  lemma BannersOppose(y: Sys, p: nat, z: Sys, q: nat, m: Msg)
    requires Reachable(y) && Takes(y, p, m) && Reachable(z) && Takes(z, q, m) && m.TurnR? && p != q
    requires m.battle in y.srv.hist.pairs && m.battle in z.srv.hist.pairs
    requires y.srv.hist.pairs[m.battle] == z.srv.hist.pairs[m.battle]
    ensures
      var c1, c2 := y.links[p].client, z.links[q].client;
      var d1, d2 := Received(c1, m).0, Received(c2, m).0;
      && d1.hp == d2.opponentHp && d2.hp == d1.opponentHp
      && (if m.fin then {Shown(c1, m), Shown(c2, m)} == {Victory, Defeat}
          else
            m.turnNo > 1 ==>
              && (Shown(c1, m) == LastTurn(Win) <==> Shown(c2, m) == LastTurn(Lose))
              && (Shown(c2, m) == LastTurn(Lose) <==> 1 <= c2.hp - d2.hp <= 5)
              && (Shown(c2, m) == LastTurn(Win) <==> Shown(c1, m) == LastTurn(Lose))
              && (Shown(c1, m) == LastTurn(Lose) <==> 1 <= c1.hp - d1.hp <= 5))
  {
    BannersAreTrue(y, p, m);
    BannersAreTrue(z, q, m);
    if m.fin {
      WinnerPlays(y, p, m);
    }
    OutcomeMirrored(m.action1, m.action2);
  }

  lemma WinnerPlays(y: Sys, p: nat, m: Msg)
    requires Reachable(y) && Takes(y, p, m) && m.TurnR? && m.fin
    ensures m.battle in y.srv.hist.pairs
    ensures m.winner == y.srv.hist.pairs[m.battle].0 || m.winner == y.srv.hist.pairs[m.battle].1
  {
    ReachableServer(y);
    ReachableLink(y, p);
    ReachableStory(y, m.battle);
    LinkBanner(y.srv, p, y.links[p], m);
  }

  lemma OutcomeMirrored(a: nat, b: nat)
    ensures TurnOutcome(a, b) == Win <==> TurnOutcome(b, a) == Lose
    ensures TurnOutcome(a, b) == Lose <==> TurnOutcome(b, a) == Win
  {
  }
}
