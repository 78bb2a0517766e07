/** Nicknames: when two are the same, and what a JOIN with a given name comes to. */
module Names {
  import opened Protocol
  import opened ServerSpec
  import opened Invariants
  import opened Ledger

  /** The same character, or the upper- and the lower-case form of one letter. */
  predicate SameLetter(c: char, d: char) {
    || c == d
    || ('A' <= c <= 'Z' && d as int == c as int + 32)
    || ('A' <= d <= 'Z' && c as int == d as int + 32)
  }

  /** The same name, but for the case of its letters. */
  predicate SameUpToCase(a: string, b: string) {
    |a| == |b| && forall i | 0 <= i < |a| :: SameLetter(a[i], b[i])
  }

  lemma FoldCharExactly(c: char, d: char)
    ensures FoldChar(c) == FoldChar(d) <==> SameLetter(c, d)
  {
  }

  lemma {:induction false} FoldStringExactly(a: string, b: string)
    ensures FoldString(a) == FoldString(b) <==> SameUpToCase(a, b)
    decreases |a|
  {
    if a == "" || b == "" {
    } else {
      FoldCharExactly(a[0], b[0]);
      FoldStringExactly(a[1..], b[1..]);
      Heads(FoldChar(a[0]), FoldString(a[1..]), FoldChar(b[0]), FoldString(b[1..]));
      UpToCaseStep(a, b);
    }
  }

  lemma Heads(c: char, s: string, d: char, t: string)
    ensures [c] + s == [d] + t <==> c == d && s == t
  {
    if [c] + s == [d] + t {
      assert ([c] + s)[0] == ([d] + t)[0] && ([c] + s)[1..] == ([d] + t)[1..];
    }
  }

  lemma UpToCaseStep(a: string, b: string)
    requires a != "" && b != ""
    ensures SameUpToCase(a, b) <==> SameLetter(a[0], b[0]) && SameUpToCase(a[1..], b[1..])
  {
    if SameLetter(a[0], b[0]) && SameUpToCase(a[1..], b[1..]) {
      forall i | 0 <= i < |a|
        ensures SameLetter(a[i], b[i])
      {
        assert i > 0 ==> a[i] == a[1..][i - 1] && b[i] == b[1..][i - 1];
      }
    }
  }

  /** The key that the tree of nicknames distinguishes is the name up to the case of its letters. */
  lemma KeyIsNameUpToCase(a: Nick, b: Nick)
    ensures FoldNick(a) == FoldNick(b) <==> SameUpToCase(a, b)
  {
    FoldStringExactly(a, b);
  }

  /** A name is taken exactly when some user has it, up to case. */
  lemma TakenExactly(users: map<nat, User>, nick: Nick)
    ensures NickTaken(users, nick) <==> exists id :: id in users && SameUpToCase(users[id].nick, nick)
  {
    forall id | id in users
      ensures FoldNick(users[id].nick) == FoldNick(nick) <==> SameUpToCase(users[id].nick, nick)
    {
      KeyIsNameUpToCase(users[id].nick, nick);
    }
  }

  /** The connection is told that its JOIN failed, and why, and nothing else happens. */
  predicate JoinRefused(s: State, o: Outcome, fd: nat, nick: Nick, e: MsgErr) {
    o == Next(s.(out := s.out + [Sent(fd, JoinR(nick, e, 0, 0))]))
  }

  /** Which JOIN is refused, and why: a full server first, then the value of the unset field naming a registered
      connection, then a name that is taken but for the case of its letters. No other JOIN on a fresh connection is. */
  lemma JoinRefusals(s: State, fd: nat, nick: Nick, key: nat, garbage: nat)
    requires Inv(s) && 0 < fd < ID_MODULUS && fd !in Fds(s.users)
    ensures
      var o := HandleJoin(s, fd, nick, key, garbage);
      if |s.users| >= MAX_USER_COUNT then JoinRefused(s, o, fd, nick, TooManyUser)
      else if garbage in Fds(s.users) then JoinRefused(s, o, fd, nick, JoinTwice)
      else if exists id :: id in s.users && SameUpToCase(s.users[id].nick, nick) then
        JoinRefused(s, o, fd, nick, DupNick)
      else o.Next? && o.s.users == s.users[fd := User(nick, fd, key, Online, 0, 0, 0, 0)]
  {
    TakenExactly(s.users, nick);
    NoUserZero(s.users);
    if JoinError(s, nick, garbage) == MeOk {
      JoinAdmits(s, fd, nick, key, garbage);
    }
  }

  lemma JoinAdmits(s: State, fd: nat, nick: Nick, key: nat, garbage: nat)
    requires AllFine(s.users) && 0 < fd < ID_MODULUS && fd !in Fds(s.users) && JoinError(s, nick, garbage) == MeOk
    ensures
      var o := HandleJoin(s, fd, nick, key, garbage);
      o.Next? && o.s.users == s.users[fd := User(nick, fd, key, Online, 0, 0, 0, 0)]
  {
    FreeFdIsFreeId(s.users, fd);
  }

  lemma NoUserZero(users: map<nat, User>)
    requires AllFine(users)
    ensures 0 !in users
  {
    forall id | id in users
      ensures id != 0
    {
      assert Fine(id, users[id]);
    }
  }

  /** On every run that does not fail, whatever the clients send, no two users have the same name up to case. */
  lemma NamesDiffer(es: seq<Event>, i: nat, j: nat)
    requires Run(INITIAL, es).Next?
    requires i in Run(INITIAL, es).s.users && j in Run(INITIAL, es).s.users && i != j
    ensures !SameUpToCase(Run(INITIAL, es).s.users[i].nick, Run(INITIAL, es).s.users[j].nick)
  {
    ScoreLedger(es);
    KeyIsNameUpToCase(Run(INITIAL, es).s.users[i].nick, Run(INITIAL, es).s.users[j].nick);
  }
}
