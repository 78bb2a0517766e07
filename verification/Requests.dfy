/** What every request comes to, at the server alone. */
module Requests {
  import opened Protocol
  import opened ServerSpec
  import opened Walk
  import opened Invariants
  import opened Logs
  import opened Moves
  import opened Reports
  import opened Network
  import opened Consent
  import opened Keys

  // ---- who leaves ----

  /** The event makes user `id` leave: by its own key, or with its connection. */
  predicate MakesLeave(users: map<nat, User>, e: Event, id: nat)
    requires id in users
  {
    (e.EvQuit? && e.id == id && e.key == users[id].key) || (e.EvDisconnect? && e.fd == users[id].fd)
  }

  /** A user stops being registered exactly when it asks to, with its key, or its connection ends. */
  lemma LeavesExactly(s: State, e: Event, id: nat)
    requires Inv(s) && Conforms(s, e) && id in s.users
    ensures Step(s, e).Next?
    ensures id !in Step(s, e).s.users <==> MakesLeave(s.users, e, id)
  {
    StepKeeps(s, e);
    match e
    case EvJoin(fd, nick, key, garbage) => JoinAdds(s, fd, nick, key, garbage);
    case EvQuit(j, key, r) => if j in s.users { LeaverGoes(s, j, r); }
    case EvDisconnect(fd, r) => DisconnectLeaves(s, fd, r, id);
    case EvChallenge(fd, c, draws, r) => ChallengeFrame(s, fd, c, draws, r);
    case EvTurn(t, r) => TurnFrame(s, t, r);
  }

  lemma DisconnectLeaves(s: State, fd: nat, r: Rolls, id: nat)
    requires Inv(s) && id in s.users
    ensures
      var o := HandleDisconnect(s, fd, r);
      o.Next? && (id !in o.s.users <==> fd == s.users[id].fd)
  {
    assert Fine(id, s.users[id]);
    if fd in Fds(s.users) {
      OwnerIsRegistered(s.users, fd);
      var owner := Least(Owners(s.users, fd));
      assert Fine(owner, s.users[owner]);
      LeaverGoes(s, owner, r);
    } else {
      FdsAreIds(s.users, fd);
    }
  }

  // ---- the search for a challenge id ----

  /** A random number proposes id `k`: its remainder, or 1 for remainder 0. */
  predicate Proposes(draw: nat, k: nat) {
    0 < k < ID_MODULUS && if draw % ID_MODULUS == 0 then k == 1 else (draw - k) % ID_MODULUS == 0
  }

  lemma CandidateExactly(draw: nat, k: nat)
    ensures Candidate(draw) == k <==> Proposes(draw, k)
  {
  }

  /** Try `i` is the first to propose an id that is not in use, and proposes `k`. */
  predicate FoundAt(draws: seq<nat>, used: set<nat>, k: nat, i: nat) {
    && i < |draws| && Proposes(draws[i], k) && k !in used
    && forall j | 0 <= j < i :: Taken(draws[j], used)
  }

  predicate Taken(draw: nat, used: set<nat>) {
    exists k | k in used :: Proposes(draw, k)
  }

  lemma TakenExactly(draw: nat, used: set<nat>)
    ensures Taken(draw, used) <==> Candidate(draw) in used
  {
    CandidateExactly(draw, Candidate(draw));
    forall k | k in used
      ensures Proposes(draw, k) <==> Candidate(draw) == k
    {
      CandidateExactly(draw, k);
    }
  }

  lemma FoundLater(draws: seq<nat>, used: set<nat>, k: nat, i: nat)
    requires draws != [] && Taken(draws[0], used)
    ensures FoundAt(draws, used, k, i + 1) <==> FoundAt(draws[1..], used, k, i)
  {
    if FoundAt(draws[1..], used, k, i) {
      forall j | 0 <= j < i + 1
        ensures Taken(draws[j], used)
      {
        assert j > 0 ==> draws[j] == draws[1..][j - 1];
      }
    }
    if FoundAt(draws, used, k, i + 1) {
      forall j | 0 <= j < i
        ensures Taken(draws[1..][j], used)
      {
        assert draws[1..][j] == draws[j + 1];
      }
    }
  }

  /** The search ends with exactly the first proposal that is not in use. */
  lemma {:induction false} FirstFreeExactly(draws: seq<nat>, used: set<nat>, k: nat)
    ensures FirstFree(draws, used) == Chid(k) <==> exists i: nat :: FoundAt(draws, used, k, i)
    decreases |draws|
  {
    if draws == [] {
    } else {
      TakenExactly(draws[0], used);
      CandidateExactly(draws[0], k);
      if Taken(draws[0], used) {
        FirstFreeExactly(draws[1..], used, k);
        FoundInTail(draws, used, k);
      } else {
        FoundFirst(draws, used, k);
      }
    }
  }

  lemma FoundInTail(draws: seq<nat>, used: set<nat>, k: nat)
    requires draws != [] && Taken(draws[0], used)
    ensures (exists i: nat :: FoundAt(draws, used, k, i)) <==> exists i: nat :: FoundAt(draws[1..], used, k, i)
  {
    if i: nat :| FoundAt(draws, used, k, i) {
      TakenExactly(draws[0], used);
      CandidateExactly(draws[0], k);
      FoundLater(draws, used, k, i - 1);
    }
    if i: nat :| FoundAt(draws[1..], used, k, i) {
      FoundLater(draws, used, k, i);
    }
  }

  lemma FoundFirst(draws: seq<nat>, used: set<nat>, k: nat)
    requires draws != [] && !Taken(draws[0], used)
    ensures (exists i: nat :: FoundAt(draws, used, k, i)) <==> FoundAt(draws, used, k, 0)
  {
  }

  /** It fails exactly when every try proposes an id that is in use. */
  lemma {:induction false} NoneFreeExactly(draws: seq<nat>, used: set<nat>)
    ensures FirstFree(draws, used) == NoChid <==> forall i | 0 <= i < |draws| :: Taken(draws[i], used)
    decreases |draws|
  {
    if draws == [] {
    } else {
      TakenExactly(draws[0], used);
      NoneFreeExactly(draws[1..], used);
      assert forall i | 0 <= i < |draws| - 1 :: draws[1..][i] == draws[i + 1];
      assert forall i | 0 < i < |draws| :: draws[i] == draws[1..][i - 1];
    }
  }

  // ---- requests about challenges ----

  /** Why a request about a challenge is refused: somebody is not registered, the action is unknown, the key is wrong, a
      user is busy, one challenges oneself, or the challenge does not exist. */
  ghost predicate Reason(s: State, c: ChallengeMsg, e: MsgErr) {
    var registered := c.id1 in s.users && c.id2 in s.users;
    var acting := if c.action == CStart || c.action == CCancel then c.id1 else c.id2;
    var allowed := registered && c.action != CInvalid && c.key == s.users[acting].key;
    var online := registered && s.users[c.id1].state == Online && s.users[c.id2].state == Online;
    match e
    case NxId => !registered
    case InvArg => registered && c.action == CInvalid
    case IcKey => registered && c.action != CInvalid && c.key != s.users[acting].key
    case Engaged => allowed && !online && (c.action == CStart || (c.action == CAccept && AskingAt(s, c.chid)))
    case ChlSelf => allowed && online && c.action == CStart && c.id1 == c.id2
    case NxChid => allowed && (c.action == CAccept || c.action == CReject) && c.chid !in s.chs
    case _ => false
  }

  /** What a request comes to that is not refused. */
  ghost predicate Granted(s: State, t: State, c: ChallengeMsg)
    requires c.id1 in s.users
  {
    match c.action
    case CStart => Challenges(s, t, c.id1, c.id2)
    case CCancel => if Cancels(s, c) then Withdraws(s, t, c.id1, c.id2, c.chid) else t == s
    case CAccept => if StartedAt(s, c.chid) then t == s else Starts(s, t, c.chid, c.id1, c.id2)
    case CReject =>
      if AskingAt(s, c.chid) && s.chs[c.chid].user2 == c.id2 then Refused(s, t, c.chid, c.id1, c.id2) else t == s
    case CInvalid => false
  }

  lemma OneReason(s: State, c: ChallengeMsg, e: MsgErr, e': MsgErr)
    requires Reason(s, c, e) && Reason(s, c, e')
    ensures e == e'
  {
  }

  lemma RefusedWithReason(s: State, p: nat, c: ChallengeMsg, env: Env, e: MsgErr)
    requires Reason(s, c, e)
    ensures OnlyTold(s, Step(s, EventOf(p, Ask(c), env)), p, e, c.id1, c.id2, c.chid)
  {
  }

  lemma GrantedWithout(s: State, p: nat, c: ChallengeMsg, env: Env)
    requires Steady(s) && AllHealthy(s.chs) && Conforms(s, EventOf(p, Ask(c), env))
    requires forall e :: !Reason(s, c, e)
    ensures c.id1 in s.users
    ensures var o := Step(s, EventOf(p, Ask(c), env)); o.Next? && Granted(s, o.s, c)
  {
    assert !Reason(s, c, NxId) && !Reason(s, c, InvArg) && !Reason(s, c, IcKey);
    assert !Reason(s, c, Engaged) && !Reason(s, c, ChlSelf) && !Reason(s, c, NxChid);
    match c.action
    case CStart => StartServed(s, p, c, env);
    case CCancel => if Cancels(s, c) { CancelServed(s, p, c, env); }
    case CAccept => if AskingAt(s, c.chid) { AcceptServed(s, p, c, env); }
    case CReject => if AskingAt(s, c.chid) && s.chs[c.chid].user2 == c.id2 { RejectServed(s, p, c, env); }
    case CInvalid =>
  }

  /** A request about a challenge is refused for exactly one reason, of which its sender alone is told; or it is
      granted: the challenge is made, withdrawn, accepted or rejected, and whoever it concerns is told. */
  lemma ChallengeComesTo(s: State, p: nat, c: ChallengeMsg, env: Env)
    requires Inv(s) && Conforms(s, EventOf(p, Ask(c), env))
    ensures
      var o := Step(s, EventOf(p, Ask(c), env));
      && (forall e | Reason(s, c, e) :: OnlyTold(s, o, p, e, c.id1, c.id2, c.chid))
      && (forall e, e' | Reason(s, c, e) && Reason(s, c, e') :: e == e')
      && ((forall e :: !Reason(s, c, e)) ==> o.Next? && c.id1 in s.users && Granted(s, o.s, c))
  {
    InvIsSteady(s);
    forall e | Reason(s, c, e)
      ensures OnlyTold(s, Step(s, EventOf(p, Ask(c), env)), p, e, c.id1, c.id2, c.chid)
    {
      RefusedWithReason(s, p, c, env, e);
    }
    forall e, e' | Reason(s, c, e) && Reason(s, c, e')
      ensures e == e'
    {
      OneReason(s, c, e, e');
    }
    if forall e :: !Reason(s, c, e) {
      GrantedWithout(s, p, c, env);
    }
  }

  // ---- TURNs ----

  /** A TURN that does not count changes nothing; one that counts files exactly its action for its sender, and the
      second of a turn has the turn judged. */
  lemma TurnComesTo(s: State, t: TurnMsg, r: Rolls)
    requires Inv(s)
    ensures
      if !Files(s, t) then HandleTurn(s, t, r) == Next(s)
      else
        var ch := s.chs[t.chid];
        var filed := if t.user == ch.user1 then ch.(act1 := t.action, acted1 := true)
                     else ch.(act2 := t.action, acted2 := true);
        HandleTurn(s, t, r) ==
          if filed.acted1 && filed.acted2 then JudgeTurn(s.(chs := s.chs[t.chid := filed]), t.chid, -1, r)
          else Next(s.(chs := s.chs[t.chid := filed]))
  {
    InvIsSteady(s);
    if t.chid in s.chs && t.user in s.users && s.users[t.user].key == t.key {
      assert Healthy(s.chs[t.chid]) && s.chs[t.chid].user1 != s.chs[t.chid].user2;
      if !Files(s, t) {
        assert s.chs[t.chid := s.chs[t.chid]] == s.chs;
      }
    }
  }

  // ---- joining ----

  /** Whom a JOIN that succeeds is told to: the newcomer gets its name, id and key, then the table; every other user
      gets one row, the newcomer's; nobody else gets anything. */
  lemma JoinTells(s: State, fd: nat, nick: Nick, key: nat, garbage: nat, p: nat)
    requires Inv(s) && 0 < fd < ID_MODULUS && fd !in Fds(s.users) && JoinError(s, nick, garbage) == MeOk
    ensures
      var o := HandleJoin(s, fd, nick, key, garbage);
      && o.Next?
      && Log(o.s.out, p) == Log(s.out, p) +
           if p == fd then [JoinR(nick, MeOk, fd, key)] + Snapshot(o.s.users)
           else When(p in s.users, UChange([Entry(fd, nick, Online, 0)]))
  {
    InvIsSteady(s);
    FreeFdIsFreeId(s.users, fd);
    JoinShape(s, fd, nick, key, garbage);
    assert Fine(fd, NewUser(fd, nick, key));
    JoinLog(s, fd, NewUser(fd, nick, key), p);
  }
}
