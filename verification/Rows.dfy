/** Building a UCHANGE body in place: make_uchange and uchange_add_or_create (lib/messages.c). */
module Rows {
  import opened Codec

  /** What one row carries; the nickname is the text before its NUL. */
  datatype Row = Row(nick: seq<byte>, id: nat, state: nat, score: nat)

  predicate Fits(r: Row) {
    |r.nick| < NICK_BYTES && r.id < 0x1_0000 && r.state < 0x1_0000 && r.score < 0x1_0000_0000
  }

  function Long(host: Host, n: nat): (b: seq<byte>)
    requires n < 0x1_0000_0000
    ensures |b| == 4
  {
    if host.Little? then [n % 0x100, n / 0x100 % 0x100, n / 0x1_0000 % 0x100, n / 0x100_0000]
    else [n / 0x100_0000, n / 0x1_0000 % 0x100, n / 0x100 % 0x100, n % 0x100]
  }

  /** The bytes of a row: the nickname with its NUL, and the three integers as the host stores them. */
  datatype Raw = Raw(name: seq<byte>, id: seq<byte>, state: seq<byte>, score: seq<byte>)

  predicate Sized(w: Raw) {
    0 < |w.name| <= NICK_BYTES && w.name[|w.name| - 1] == 0 && |w.id| == 2 && |w.state| == 2 && |w.score| == 4
  }

  function Encoded(host: Host, r: Row): (w: Raw)
    requires Fits(r)
    ensures Sized(w)
  {
    Raw(r.nick + [0], Short(host, r.id), Short(host, r.state), Long(host, r.score))
  }

  function Put(s: seq<byte>, at: nat, b: seq<byte>): (t: seq<byte>)
    requires at + |b| <= |s|
    ensures |t| == |s|
  {
    s[..at] + b + s[at + |b|..]
  }

  /** Row `i` written; the rest of the nickname's bytes stay as they were. */
  function WithRow(s: seq<byte>, i: nat, w: Raw): (t: seq<byte>)
    requires |s| == BodySize(UCHANGE) && i < MAX_ROWS && Sized(w)
    ensures |t| == |s|
  {
    var at := RowAt(i);
    Put(Put(Put(Put(s, at + 32, w.id), at, w.name), at + 34, w.state), at + 36, w.score)
  }

  /** A count, which is at most MAX_ROWS. */
  function CountBytes(host: Host, n: nat): seq<byte>
    requires n <= MAX_ROWS
  {
    if host.Little? then [n, 0, 0, 0] else [0, 0, 0, n]
  }

  // ---- in place ----

  method Write(a: array<byte>, at: nat, b: seq<byte>)
    requires at + |b| <= a.Length
    modifies a
    ensures a[..] == Put(old(a[..]), at, b)
  {
    var i := 0;
    while i < |b|
      invariant 0 <= i <= |b|
      invariant forall j | 0 <= j < i :: a[at + j] == b[j]
      invariant forall j | 0 <= j < a.Length && !(at <= j < at + i) :: a[j] == old(a[j])
    {
      a[at + i] := b[i];
      i := i + 1;
    }
    PutIs(old(a[..]), at, b, a[..]);
  }

  lemma PutIs(s: seq<byte>, at: nat, b: seq<byte>, t: seq<byte>)
    requires at + |b| <= |s| == |t|
    requires forall j | 0 <= j < |b| :: t[at + j] == b[j]
    requires forall j | 0 <= j < |s| && !(at <= j < at + |b|) :: t[j] == s[j]
    ensures t == Put(s, at, b)
  {
    assert t[..at] == s[..at];
    assert t[at..at + |b|] == b;
    assert t[at + |b|..] == s[at + |b|..];
  }

  /** make_uchange: all zeros. */
  function NoRows(): (s: seq<byte>)
    ensures |s| == BodySize(UCHANGE) && forall j | 0 <= j < |s| :: s[j] == 0
  {
    seq(BodySize(UCHANGE), _ => 0)
  }

  /** A full message takes no more rows; the caller then starts another one. */
  method AddRow(host: Host, a: array<byte>, r: Row) returns (added: bool)
    requires a.Length == BodySize(UCHANGE) && Fits(r)
    modifies a
    ensures added <==> old(Count(host, a[..])) < MAX_ROWS
    ensures
      var n := old(Count(host, a[..]));
      a[..] == if added then Put(WithRow(old(a[..]), n, Encoded(host, r)), 0, CountBytes(host, n + 1)) else old(a[..])
  {
    added := AddBytes(host, a, Encoded(host, r));
  }

  method AddBytes(host: Host, a: array<byte>, w: Raw) returns (added: bool)
    requires a.Length == BodySize(UCHANGE) && Sized(w)
    modifies a
    ensures added <==> old(Count(host, a[..])) < MAX_ROWS
    ensures
      var n := old(Count(host, a[..]));
      a[..] == if added then Put(WithRow(old(a[..]), n, w), 0, CountBytes(host, n + 1)) else old(a[..])
  {
    var n := Count(host, a[..]);
    added := n < MAX_ROWS;
    if added {
      WriteRow(a, n, w);
      Write(a, 0, CountBytes(host, n + 1));
    }
  }

  method WriteRow(a: array<byte>, i: nat, w: Raw)
    requires a.Length == BodySize(UCHANGE) && i < MAX_ROWS && Sized(w)
    modifies a
    ensures a[..] == WithRow(old(a[..]), i, w)
  {
    var at := RowAt(i);
    Write(a, at + 32, w.id);
    Write(a, at, w.name);
    Write(a, at + 34, w.state);
    Write(a, at + 36, w.score);
  }

  // ---- what is built is clean ----

  /** Row `i` holds exactly these bytes. */
  predicate Holds(s: seq<byte>, i: nat, w: Raw)
    requires |s| == BodySize(UCHANGE) && i < MAX_ROWS
  {
    var at := RowAt(i);
    && Sized(w) && s[at..at + |w.name|] == w.name
    && s[at + 32..at + 34] == w.id && s[at + 34..at + 36] == w.state && s[at + 36..at + 40] == w.score
  }

  /** A body that holds `rows` and nothing else. */
  ghost predicate Built(host: Host, s: seq<byte>, rows: seq<Raw>) {
    && |s| == BodySize(UCHANGE) && |rows| <= MAX_ROWS
    && Count(host, s) == |rows|
    && (forall i: nat | i < |rows| :: Holds(s, i, rows[i]))
    && (forall j: nat | RowAt(|rows|) <= j < |s| :: s[j] == 0)
  }

  lemma PutSlice(s: seq<byte>, at: nat, b: seq<byte>)
    requires at + |b| <= |s|
    ensures Put(s, at, b)[at..at + |b|] == b
  {
  }

  lemma PutKeeps(s: seq<byte>, at: nat, b: seq<byte>, i: nat, j: nat)
    requires at + |b| <= |s| && i <= j <= |s| && (j <= at || at + |b| <= i)
    ensures Put(s, at, b)[i..j] == s[i..j]
  {
  }

  lemma RowHolds(s: seq<byte>, i: nat, w: Raw)
    requires |s| == BodySize(UCHANGE) && i < MAX_ROWS && Sized(w)
    ensures Holds(WithRow(s, i, w), i, w)
  {
    var at, k := RowAt(i), |w.name|;
    var s1 := Put(s, at + 32, w.id);
    var s2 := Put(s1, at, w.name);
    var s3 := Put(s2, at + 34, w.state);
    PutSlice(s, at + 32, w.id);
    PutKeeps(s1, at, w.name, at + 32, at + 34);
    PutKeeps(s2, at + 34, w.state, at + 32, at + 34);
    PutKeeps(s3, at + 36, w.score, at + 32, at + 34);
    PutSlice(s1, at, w.name);
    PutKeeps(s2, at + 34, w.state, at, at + k);
    PutKeeps(s3, at + 36, w.score, at, at + k);
    PutSlice(s2, at + 34, w.state);
    PutKeeps(s3, at + 36, w.score, at + 34, at + 36);
    PutSlice(s3, at + 36, w.score);
  }

  lemma PutElsewhere(s: seq<byte>, at: nat, b: seq<byte>, j: nat)
    requires at + |b| <= |s| && j < |s| && (j < at || at + |b| <= j)
    ensures Put(s, at, b)[j] == s[j]
  {
  }

  lemma RowStays(s: seq<byte>, i: nat, w: Raw, j: nat)
    requires |s| == BodySize(UCHANGE) && i < MAX_ROWS && Sized(w)
    requires j < |s| && (j < RowAt(i) || RowAt(i + 1) <= j)
    ensures WithRow(s, i, w)[j] == s[j]
  {
    var at := RowAt(i);
    var s1 := Put(s, at + 32, w.id);
    var s2 := Put(s1, at, w.name);
    var s3 := Put(s2, at + 34, w.state);
    PutElsewhere(s, at + 32, w.id, j);
    PutElsewhere(s1, at, w.name, j);
    PutElsewhere(s2, at + 34, w.state, j);
    PutElsewhere(s3, at + 36, w.score, j);
  }

  /** A row that is not written still holds what it held. */
  lemma StillHolds(s: seq<byte>, t: seq<byte>, i: nat, w: Raw)
    requires |s| == |t| == BodySize(UCHANGE) && i < MAX_ROWS && Holds(s, i, w)
    requires forall j: nat | RowAt(i) <= j < RowAt(i + 1) :: t[j] == s[j]
    ensures Holds(t, i, w)
  {
    var at := RowAt(i);
    assert t[at..at + |w.name|] == s[at..at + |w.name|];
    assert t[at + 32..at + 34] == s[at + 32..at + 34];
    assert t[at + 34..at + 36] == s[at + 34..at + 36];
    assert t[at + 36..at + 40] == s[at + 36..at + 40];
  }

  /** What adding a row changes. */
  lemma RowWritten(host: Host, s: seq<byte>, n: nat, w: Raw)
    requires |s| == BodySize(UCHANGE) && n < MAX_ROWS && Sized(w)
    ensures
      var u := Put(WithRow(s, n, w), 0, CountBytes(host, n + 1));
      && Count(host, u) == n + 1 && Holds(u, n, w)
      && (forall j: nat | 4 <= j < |s| && (j < RowAt(n) || RowAt(n + 1) <= j) :: u[j] == s[j])
  {
    var t := WithRow(s, n, w);
    var u := Put(t, 0, CountBytes(host, n + 1));
    RowHolds(s, n, w);
    assert forall j: nat | 4 <= j < |s| :: u[j] == t[j];
    StillHolds(t, u, n, w);
    forall j: nat | 4 <= j < |s| && (j < RowAt(n) || RowAt(n + 1) <= j)
      ensures u[j] == s[j]
    {
      RowStays(s, n, w, j);
    }
  }

  /** Adding a row adds exactly that row. */
  lemma AddBuilds(host: Host, s: seq<byte>, rows: seq<Raw>, w: Raw)
    requires Built(host, s, rows) && |rows| < MAX_ROWS && Sized(w)
    ensures Built(host, Put(WithRow(s, |rows|, w), 0, CountBytes(host, |rows| + 1)), rows + [w])
  {
    RowWritten(host, s, |rows|, w);
    OneMore(host, s, Put(WithRow(s, |rows|, w), 0, CountBytes(host, |rows| + 1)), rows, w);
  }

  lemma OneMore(host: Host, s: seq<byte>, u: seq<byte>, rows: seq<Raw>, w: Raw)
    requires Built(host, s, rows) && |rows| < MAX_ROWS && |u| == |s|
    requires Count(host, u) == |rows| + 1 && Holds(u, |rows|, w)
    requires forall j: nat | 4 <= j < |s| && (j < RowAt(|rows|) || RowAt(|rows| + 1) <= j) ::
               u[j] == s[j]
    ensures Built(host, u, rows + [w])
  {
    var n := |rows|;
    forall i: nat | i < n + 1
      ensures Holds(u, i, (rows + [w])[i])
    {
      if i < n {
        StillHolds(s, u, i, rows[i]);
      }
    }
  }

  lemma EmptyIsBuilt(host: Host)
    ensures Built(host, NoRows(), [])
  {
  }

  /** What is built is of good form and clean past its count, so it survives the wire. */
  lemma BuiltTravels(host: Host, s: seq<byte>, rows: seq<Raw>)
    requires Built(host, s, rows)
    ensures WellFormed(host, UCHANGE, |s|, s) && Clean(host, UCHANGE, s)
    ensures Converted(host, UCHANGE, Converted(host, UCHANGE, s)) == s
  {
    forall i: nat | i < Count(host, s)
      ensures NullTerminated(s, RowAt(i), NICK_BYTES)
    {
      var at, k := RowAt(i), |rows[i].name| - 1;
      assert Holds(s, i, rows[i]);
      assert s[at + k] == s[at..at + k + 1][k] == 0;
    }
    FormRoundTrip(host, UCHANGE, s);
  }

  // ---- the integers read back ----

  lemma FourDigits(n: nat)
    ensures n == Number(n / 0x100_0000, n / 0x1_0000 % 0x100, n / 0x100 % 0x100, n % 0x100)
  {
    assert n / 0x1_0000 == n / 0x100 / 0x100;
    assert n / 0x100_0000 == n / 0x1_0000 / 0x100;
  }

  lemma ReadShort(host: Host, s: seq<byte>, at: nat, n: nat)
    requires at + 2 <= |s| && n < 0x1_0000 && s[at..at + 2] == Short(host, n)
    ensures Read(host, s, Field(at, 2)) == n
  {
    assert s[at] == s[at..at + 2][0] && s[at + 1] == s[at..at + 2][1];
  }

  lemma ReadLong(host: Host, s: seq<byte>, at: nat, n: nat)
    requires at + 4 <= |s| && n < 0x1_0000_0000 && s[at..at + 4] == Long(host, n)
    ensures Read(host, s, Field(at, 4)) == n
  {
    FourDigits(n);
    assert s[at] == s[at..at + 4][0] && s[at + 1] == s[at..at + 4][1];
    assert s[at + 2] == s[at..at + 4][2] && s[at + 3] == s[at..at + 4][3];
  }

  /** The receiver, on a host of the same byte order, reads what was added. */
  lemma RowsReadBack(host: Host, s: seq<byte>, rows: seq<Row>, i: nat)
    requires i < |rows| <= MAX_ROWS && (forall r | r in rows :: Fits(r))
    requires Built(host, s, seq(|rows|, j requires 0 <= j < |rows| => assert rows[j] in rows; Encoded(host, rows[j])))
    ensures
      var t, at := Converted(host, UCHANGE, Converted(host, UCHANGE, s)), RowAt(i);
      && Count(host, t) == |rows| && |rows[i].nick| < NICK_BYTES
      && t[at..at + |rows[i].nick|] == rows[i].nick && t[at + |rows[i].nick|] == 0
      && Read(host, t, IdOf(i)) == rows[i].id && Read(host, t, StateOf(i)) == rows[i].state
      && Read(host, t, ScoreOf(i)) == rows[i].score
  {
    assert rows[i] in rows;
    var raws := seq(|rows|, j requires 0 <= j < |rows| => assert rows[j] in rows; Encoded(host, rows[j]));
    BuiltTravels(host, s, raws);
    assert Holds(s, i, raws[i]);
    ReadsBack(host, s, i, rows[i]);
  }

  lemma ReadsBack(host: Host, s: seq<byte>, i: nat, r: Row)
    requires |s| == BodySize(UCHANGE) && i < MAX_ROWS && Fits(r) && Holds(s, i, Encoded(host, r))
    ensures
      var at := RowAt(i);
      && s[at..at + |r.nick|] == r.nick && s[at + |r.nick|] == 0
      && Read(host, s, IdOf(i)) == r.id && Read(host, s, StateOf(i)) == r.state
      && Read(host, s, ScoreOf(i)) == r.score
  {
    var at := RowAt(i);
    ReadShort(host, s, at + 32, r.id);
    ReadShort(host, s, at + 34, r.state);
    ReadLong(host, s, at + 36, r.score);
    NickReadsBack(s, at, r.nick);
  }

  lemma NickReadsBack(s: seq<byte>, at: nat, nick: seq<byte>)
    requires at + |nick| + 1 <= |s| && s[at..at + |nick| + 1] == nick + [0]
    ensures s[at..at + |nick|] == nick && s[at + |nick|] == 0
  {
    var k := |nick|;
    assert s[at..at + k] == s[at..at + k + 1][..k] && s[at + k] == s[at..at + k + 1][k];
  }
}
