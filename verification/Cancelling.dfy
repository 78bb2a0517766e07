/** When a cancel withdraws a challenge, and the client's cancel that does not. */
module Cancelling {
  import opened Protocol
  import opened ServerSpec
  import opened Invariants
  import opened Moves
  import opened Names
  import opened ClientSpec
  import opened Network
  import opened System

  /** A cancel by a registered user with the right key withdraws a challenge exactly when it also names, as the second
      user, anybody registered, and the sender's last challenge is its own, unanswered, and the sender not in battle. */
  lemma CancelExactly(s: State, fd: nat, c: ChallengeMsg, draws: Draws, r: Rolls)
    requires Inv(s) && c.action == CCancel && c.id1 in s.users && c.key == s.users[c.id1].key
    ensures
      var o := HandleChallenge(s, fd, c, draws, r);
      && o.Next?
      && (o.s.chs != s.chs <==> c.id2 in s.users && Cancels(s, c))
      && (o.s.chs != s.chs ==> o.s.chs == s.chs - {s.users[c.id1].chid})
  {
    var k := s.users[c.id1].chid;
    if Cancels(s, c) {
      assert k in s.chs && k !in s.chs - {k};
    }
  }

  /** The client fills in its last opponent. A client that never had one names user 0, whom nobody is, and the server
      refuses: the challenge stays while the client no longer waits. */
  lemma FirstCancelFails(y: Sys, p: nat, k: char, cmd: Command, draws: Draws, r: Rolls)
    requires Reachable(y) && p in y.links && p in y.srv.users
    requires
      var c := y.links[p].client;
      c.phase == Playing && c.waiting == WCancel && c.opponentId == 0
    ensures
      var (d, rs) := Pressed(y.links[p].client, k, cmd);
      && d.waiting == WNone && |rs| == 1 && rs[0].Ask?
      && HandleChallenge(y.srv, p, rs[0].c, draws, r) == Refuse(y.srv, p, rs[0].c, NxId)
  {
    ReachableServer(y);
    NoUserZero(y.srv.users);
    ReachableLink(y, p);
  }
}
