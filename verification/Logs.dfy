/** What each connection has been sent: the server's output, one connection at a time. */
module Logs {
  import opened Protocol
  import opened ServerSpec
  import opened Walk
  import opened Invariants

  /** Everything sent on connection `p`, oldest first. */
  function Log(out: seq<Sent>, p: nat): seq<Msg> {
    if out == [] then []
    else
      var last := out[|out| - 1];
      Log(out[..|out| - 1], p) + (if last.fd == p then [last.msg] else [])
  }

  lemma {:induction false} LogAppend(a: seq<Sent>, b: seq<Sent>, p: nat)
    ensures Log(a + b, p) == Log(a, p) + Log(b, p)
    decreases |b|
  {
    if b == [] {
      assert a + b == a;
    } else {
      var b' := b[..|b| - 1];
      assert (a + b)[..|a + b| - 1] == a + b';
      LogAppend(a, b', p);
    }
  }

  lemma LogAppend3(out: seq<Sent>, a: seq<Sent>, b: seq<Sent>, c: seq<Sent>, p: nat)
    ensures Log(out + a + b + c, p) == Log(out, p) + Log(a, p) + Log(b, p) + Log(c, p)
  {
    LogAppend(out, a, p);
    LogAppend(out + a, b, p);
    LogAppend(out + a + b, c, p);
  }

  lemma LogOne(fd: nat, m: Msg, p: nat)
    ensures Log([Sent(fd, m)], p) == if p == fd then [m] else []
  {
    assert [Sent(fd, m)][..0] == [];
  }

  lemma {:induction false} LogTo(fd: nat, ms: seq<Msg>, p: nat)
    ensures Log(To(fd, ms), p) == if p == fd then ms else []
  {
    if ms == [] {
    } else {
      var rest := To(fd, ms[1..]);
      LogTo(fd, ms[1..], p);
      LogAppend([Sent(fd, ms[0])], rest, p);
      LogOne(fd, ms[0], p);
    }
  }

  lemma {:induction false} LogFan(users: map<nat, User>, ids: seq<nat>, exceptFd: int, m: Msg, p: nat)
    requires AllFine(users) && (forall id | id in ids :: id in users)
    requires forall i, j | 0 <= i < j < |ids| :: ids[i] != ids[j]
    ensures Log(Fan(users, ids, exceptFd, m), p) == if p in ids && p != exceptFd then [m] else []
    decreases |ids|
  {
    if ids == [] {
    } else {
      assert Fine(ids[0], users[ids[0]]);
      LogFan(users, ids[1..], exceptFd, m, p);
      assert ids[0] !in ids[1..];
      if users[ids[0]].fd != exceptFd {
        LogAppend([Sent(users[ids[0]].fd, m)], Fan(users, ids[1..], exceptFd, m), p);
        LogOne(users[ids[0]].fd, m, p);
      }
    }
  }

  /** A broadcast reaches every registered connection exactly once, and no other. */
  lemma LogBroadcast(users: map<nat, User>, exceptFd: int, m: Msg, p: nat)
    requires AllFine(users)
    ensures Log(Broadcast(users, exceptFd, m), p) == if p in users && p != exceptFd then [m] else []
  {
    SortedIsPermutation(users.Keys);
    LogFan(users, Sorted(users.Keys), exceptFd, m, p);
  }

  function When<T>(b: bool, t: T): seq<T> {
    if b then [t] else []
  }

  lemma SendLog(s: seq<Sent>, fd: nat, m: Msg, p: nat)
    ensures Log(s + [Sent(fd, m)], p) == Log(s, p) + When(p == fd, m)
  {
    LogAppend(s, [Sent(fd, m)], p);
    LogOne(fd, m, p);
  }

  lemma PairLog(out: seq<Sent>, id1: nat, id2: nat, m: Msg, p: nat)
    requires id1 != id2
    ensures Log(out + [Sent(id1, m)] + [Sent(id2, m)], p) == Log(out, p) + When(p == id1 || p == id2, m)
  {
    SendLog(out, id1, m, p);
    SendLog(out + [Sent(id1, m)], id2, m, p);
  }
}
