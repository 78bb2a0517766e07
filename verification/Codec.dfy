/** Message bodies as bytes, and the conversion between host and network byte order in place (lib/messages.c). */
module Codec {

  type byte = b: nat | b < 256

  /** How the host stores integers; htons and the like swap on a little-endian host and do nothing on the other. */
  datatype Host = Little | Big

  /** An integer field of a packed record. */
  datatype Field = Field(off: nat, size: nat)

  const JOIN := 1
  const JOIN_R := 2
  const QUIT := 3
  const UCHANGE := 4
  const CHALLENGE := 5
  const CHALLENGE_R := 6
  const TURN := 7
  const TURN_R := 8
  const SENDMSG := 9
  const MSG_MAX := 10

  const NICK_BYTES := 32
  const MAX_ROWS := 16
  /** Where row `i` of a UCHANGE starts: 40 bytes of nickname, id, state and score each. */
  function RowAt(i: nat): nat {
    4 + 40 * i
  }

  const TEXT_BYTES := 128

  /** msg_body_size */
  function BodySize(kind: nat): nat {
    if kind == JOIN then NICK_BYTES
    else if kind == JOIN_R then NICK_BYTES + 8
    else if kind == QUIT then 6
    else if kind == UCHANGE then RowAt(MAX_ROWS)
    else if kind == CHALLENGE then 12
    else if kind == CHALLENGE_R then 9
    else if kind == TURN then 12
    else if kind == TURN_R then 27
    else if kind == SENDMSG then 6 + TEXT_BYTES
    else 0
  }

  /** The fields that are converted, in the order of the conversion; for UCHANGE, the count. */
  function Fields(kind: nat): seq<Field> {
    if kind == JOIN_R then [Field(32, 2), Field(34, 2), Field(36, 4)]
    else if kind == QUIT then [Field(4, 2), Field(0, 4)]
    else if kind == UCHANGE then [Field(0, 4)]
    else if kind == CHALLENGE then [Field(0, 2), Field(2, 2), Field(4, 4), Field(8, 2), Field(10, 2)]
    else if kind == CHALLENGE_R then [Field(0, 2), Field(2, 2), Field(4, 2), Field(6, 2), Field(8, 1)]
    else if kind == TURN then [Field(0, 2), Field(2, 2), Field(4, 4), Field(8, 2), Field(10, 2)]
    else if kind == TURN_R then
      [Field(0, 2), Field(2, 2), Field(4, 2), Field(6, 2), Field(10, 4), Field(14, 4), Field(18, 4), Field(22, 4),
       Field(26, 1), Field(8, 2)]
    else if kind == SENDMSG then [Field(0, 2), Field(2, 4)]
    else []
  }

  predicate In(f: Field, j: nat) {
    f.off <= j < f.off + f.size
  }

  function Mirror(f: Field, j: nat): nat {
    if In(f, j) then 2 * f.off + f.size - 1 - j else j
  }

  predicate Fit(fs: seq<Field>, n: nat) {
    forall f | f in fs :: f.off + f.size <= n && (f.size == 1 || f.size == 2 || f.size == 4)
  }

  ghost predicate Apart(f: Field, g: Field) {
    f.off + f.size <= g.off || g.off + g.size <= f.off
  }

  ghost predicate Disjoint(fs: seq<Field>) {
    forall i, j | 0 <= i < j < |fs| :: Apart(fs[i], fs[j])
  }

  lemma FieldsFit(kind: nat)
    ensures Fit(Fields(kind), BodySize(kind))
  {
    if kind == TURN_R {
      TurnReportFits();
    }
  }

  lemma TurnReportFits()
    ensures Fit(Fields(TURN_R), BodySize(TURN_R))
  {
    var fs := Fields(TURN_R);
    forall f | f in fs
      ensures f.off + f.size <= 27 && (f.size == 1 || f.size == 2 || f.size == 4)
    {
      var i :| 0 <= i < |fs| && fs[i] == f;
    }
  }

  lemma FieldsAreDisjoint(kind: nat)
    ensures Disjoint(Fields(kind))
  {
  }

  /** One field with its bytes in the opposite order. */
  function Swapped(s: seq<byte>, f: Field): (t: seq<byte>)
    requires f.off + f.size <= |s|
    ensures |t| == |s|
  {
    seq(|s|, j requires 0 <= j < |s| => s[Mirror(f, j)])
  }

  function SwappedAll(s: seq<byte>, fs: seq<Field>): (t: seq<byte>)
    requires Fit(fs, |s|)
    ensures |t| == |s|
    decreases |fs|
  {
    if fs == [] then s
    else
      assert fs[0] in fs;
      SwappedAll(Swapped(s, fs[0]), fs[1..])
  }

  // ---- the rows of UCHANGE ----

  function IdOf(i: nat): Field {
    Field(RowAt(i) + 32, 2)
  }

  function StateOf(i: nat): Field {
    Field(RowAt(i) + 34, 2)
  }

  function ScoreOf(i: nat): Field {
    Field(RowAt(i) + 36, 4)
  }

  /** The ids and states of rows `i` to `n - 1`, in the order of the conversion. */
  function RowFields(i: nat, n: nat): (fs: seq<Field>)
    decreases n - i
  {
    if i >= n then [] else [IdOf(i), StateOf(i)] + RowFields(i + 1, n)
  }

  lemma {:induction false} RowFieldsFit(i: nat, n: nat)
    requires n <= MAX_ROWS
    ensures Fit(RowFields(i, n), RowAt(MAX_ROWS))
    decreases n - i
  {
    if i >= n {
    } else {
      RowFieldsFit(i + 1, n);
    }
  }

  /** A two-byte unsigned integer as the host stores it. */
  function Short(host: Host, n: nat): (b: seq<byte>)
    requires n < 0x1_0000
    ensures |b| == 2
  {
    if host.Little? then [n % 0x100, n / 0x100] else [n / 0x100, n % 0x100]
  }

  function Number(a: nat, b: nat, c: nat, d: nat): nat {
    0x100_0000 * a + 0x1_0000 * b + 0x100 * c + d
  }

  /** A four-byte unsigned integer as the host reads it. */
  function Count(host: Host, s: seq<byte>): nat
    requires |s| >= 4
  {
    if host.Little? then Number(s[3], s[2], s[1], s[0]) else Number(s[0], s[1], s[2], s[3])
  }

  function Bounded(n: nat): nat {
    if n < MAX_ROWS then n else MAX_ROWS
  }

  /** msg_body_l2n and msg_body_n2l, which do the same: the rows converted are those the count claims after it has
      itself been converted. */
  function Converted(host: Host, kind: nat, s: seq<byte>): (t: seq<byte>)
    requires |s| == BodySize(kind)
    ensures |t| == |s|
  {
    FieldsFit(kind);
    if host.Big? then s
    else
      var t := SwappedAll(s, Fields(kind));
      if kind == UCHANGE then
        RowsConverted(host, t, 0, Bounded(Count(host, t)))
      else t
  }

  // ---- in place ----

  method ConvertField(host: Host, a: array<byte>, f: Field)
    requires f.off + f.size <= a.Length && (f.size == 1 || f.size == 2 || f.size == 4)
    modifies a
    ensures a[..] == if host.Big? then old(a[..]) else Swapped(old(a[..]), f)
  {
    var i := f.off;
    if host.Little? && f.size == 2 {
      a[i], a[i + 1] := a[i + 1], a[i];
    } else if host.Little? && f.size == 4 {
      a[i], a[i + 1], a[i + 2], a[i + 3] := a[i + 3], a[i + 2], a[i + 1], a[i];
    }
  }

  method ConvertBody(host: Host, kind: nat, a: array<byte>)
    requires a.Length == BodySize(kind)
    modifies a
    ensures a[..] == Converted(host, kind, old(a[..]))
  {
    FieldsFit(kind);
    ConvertFields(host, a, Fields(kind));
    if kind == UCHANGE {
      var count := Count(host, a[..]);
      ConvertRows(host, a, count);
    }
  }

  method ConvertFields(host: Host, a: array<byte>, fs: seq<Field>)
    requires Fit(fs, a.Length)
    modifies a
    ensures a[..] == if host.Big? then old(a[..]) else SwappedAll(old(a[..]), fs)
  {
    var i := 0;
    while i < |fs|
      invariant 0 <= i <= |fs|
      invariant host.Big? ==> a[..] == old(a[..])
      invariant host.Little? ==> SwappedAll(a[..], fs[i..]) == SwappedAll(old(a[..]), fs)
    {
      assert fs[i] in fs && fs[i..][1..] == fs[i + 1..];
      ConvertField(host, a, fs[i]);
      i := i + 1;
    }
  }

  /** Rows `row` to `n - 1` converted. */
  function RowsConverted(host: Host, s: seq<byte>, row: nat, n: nat): (t: seq<byte>)
    requires |s| == BodySize(UCHANGE) && n <= MAX_ROWS
    ensures |t| == |s|
  {
    RowFieldsFit(row, n);
    if host.Big? then s else SwappedAll(s, RowFields(row, n))
  }

  /** Row by row; the bound is the count as it reads after its own conversion. */
  method ConvertRows(host: Host, a: array<byte>, count: nat)
    requires a.Length == BodySize(UCHANGE)
    modifies a
    ensures a[..] == RowsConverted(host, old(a[..]), 0, Bounded(count))
  {
    var row := 0;
    while row < count && row < MAX_ROWS
      invariant 0 <= row <= Bounded(count)
      invariant RowsConverted(host, a[..], row, Bounded(count)) == RowsConverted(host, old(a[..]), 0, Bounded(count))
    {
      ConvertRow(host, a, row, Bounded(count));
      row := row + 1;
    }
    NoRowsLeft(host, a[..], row);
  }

  lemma NoRowsLeft(host: Host, s: seq<byte>, n: nat)
    requires |s| == BodySize(UCHANGE) && n <= MAX_ROWS
    ensures RowsConverted(host, s, n, n) == s
  {
  }

  method ConvertRow(host: Host, a: array<byte>, row: nat, ghost n: nat)
    requires a.Length == BodySize(UCHANGE) && row < n <= MAX_ROWS
    modifies a
    ensures RowsConverted(host, a[..], row + 1, n) == RowsConverted(host, old(a[..]), row, n)
  {
    RowStep(a[..], row, n);
    ConvertField(host, a, IdOf(row));
    ConvertField(host, a, StateOf(row));
  }

  lemma RowStep(s: seq<byte>, row: nat, n: nat)
    requires |s| == BodySize(UCHANGE) && row < n <= MAX_ROWS
    ensures Fit(RowFields(row, n), |s|) && Fit(RowFields(row + 1, n), |s|)
    ensures SwappedAll(s, RowFields(row, n))
         == SwappedAll(Swapped(Swapped(s, IdOf(row)), StateOf(row)), RowFields(row + 1, n))
  {
    RowFieldsFit(row, n);
    RowFieldsFit(row + 1, n);
    TwoSwapped(s, IdOf(row), StateOf(row), RowFields(row + 1, n));
  }

  lemma TwoSwapped(s: seq<byte>, f: Field, g: Field, rest: seq<Field>)
    requires Fit([f, g] + rest, |s|)
    ensures f in [f, g] + rest && g in [f, g] + rest && Fit(rest, |s|)
    ensures SwappedAll(s, [f, g] + rest) == SwappedAll(Swapped(Swapped(s, f), g), rest)
  {
    var all := [f, g] + rest;
    assert all[0] == f && all[1] == g && all[1..] == [g] + rest && all[1..][1..] == rest;
    assert forall h | h in rest :: h in all;
    assert SwappedAll(s, all) == SwappedAll(Swapped(s, f), all[1..]);
  }

  // ---- where the bytes go ----

  /** The byte that ends up at `j` when all fields are swapped. */
  function MirrorIn(fs: seq<Field>, j: nat): nat {
    if fs == [] then j else if In(fs[0], j) then Mirror(fs[0], j) else MirrorIn(fs[1..], j)
  }

  /** Fields apart from `f` move no byte into it or out of it. */
  lemma {:induction false} MirrorApart(fs: seq<Field>, f: Field, j: nat)
    requires forall g | g in fs :: Apart(f, g)
    ensures In(f, j) ==> MirrorIn(fs, j) == j
    ensures !In(f, j) ==> !In(f, MirrorIn(fs, j))
    decreases |fs|
  {
    if fs == [] {
    } else {
      assert fs[0] in fs;
      MirrorApart(fs[1..], f, j);
    }
  }

  lemma DisjointTail(fs: seq<Field>)
    requires Disjoint(fs) && fs != []
    ensures Disjoint(fs[1..]) && forall g | g in fs[1..] :: Apart(fs[0], g)
  {
    forall i, j | 0 <= i < j < |fs[1..]|
      ensures Apart(fs[1..][i], fs[1..][j])
    {
      assert fs[1..][i] == fs[i + 1] && fs[1..][j] == fs[j + 1];
    }
  }

  lemma {:induction false} MirrorInTwice(fs: seq<Field>, j: nat)
    requires Disjoint(fs)
    ensures MirrorIn(fs, MirrorIn(fs, j)) == j
    decreases |fs|
  {
    if fs == [] || In(fs[0], j) {
    } else {
      DisjointTail(fs);
      MirrorInTwice(fs[1..], j);
      MirrorApart(fs[1..], fs[0], j);
    }
  }

  lemma {:induction false} SwappedAllAt(s: seq<byte>, fs: seq<Field>, j: nat)
    requires Fit(fs, |s|) && Disjoint(fs) && j < |s|
    ensures MirrorIn(fs, j) < |s| && SwappedAll(s, fs)[j] == s[MirrorIn(fs, j)]
    decreases |fs|
  {
    if fs == [] {
    } else {
      assert fs[0] in fs;
      DisjointTail(fs);
      SwappedAllAt(Swapped(s, fs[0]), fs[1..], j);
      MirrorApart(fs[1..], fs[0], j);
    }
  }

  lemma SwappedAllTwice(s: seq<byte>, fs: seq<Field>)
    requires Fit(fs, |s|) && Disjoint(fs)
    ensures SwappedAll(SwappedAll(s, fs), fs) == s
  {
    var t := SwappedAll(s, fs);
    forall j: nat | j < |s|
      ensures SwappedAll(t, fs)[j] == s[j]
    {
      SwappedAllAt(t, fs, j);
      SwappedAllAt(s, fs, MirrorIn(fs, j));
      MirrorInTwice(fs, j);
    }
  }

  /** Every message but UCHANGE survives the conversion out and back in, on any host. */
  lemma RoundTrip(host: Host, kind: nat, s: seq<byte>)
    requires |s| == BodySize(kind) && kind != UCHANGE
    ensures Converted(host, kind, Converted(host, kind, s)) == s
  {
    FieldsFit(kind);
    FieldsAreDisjoint(kind);
    SwappedAllTwice(s, Fields(kind));
  }

  // ---- the round trip of UCHANGE ----

  /** Swapping the bytes of row `i`'s id and state changes nothing. */
  predicate Palindromic(s: seq<byte>, i: nat)
    requires |s| == RowAt(MAX_ROWS) && i < MAX_ROWS
  {
    var at := RowAt(i) + 32;
    s[at] == s[at + 1] && s[at + 2] == s[at + 3]
  }

  /** The number of rows converted on the way out, when the count has been swapped already. */
  function RowsOut(host: Host, s: seq<byte>): nat
    requires |s| == RowAt(MAX_ROWS)
  {
    Bounded(Count(host, if host.Big? then s else Swapped(s, Field(0, 4))))
  }

  function RowsIn(host: Host, s: seq<byte>): nat
    requires |s| == RowAt(MAX_ROWS)
  {
    Bounded(Count(host, s))
  }

  /** Row `i` is converted on the way out or on the way in, but not both. */
  predicate OneWay(s: seq<byte>, i: nat)
    requires |s| == RowAt(MAX_ROWS)
  {
    (i < RowsOut(Little, s)) != (i < RowsIn(Little, s))
  }

  lemma OneField(s: seq<byte>, f: Field)
    requires f.off + f.size <= |s| && (f.size == 1 || f.size == 2 || f.size == 4)
    ensures Fit([f], |s|) && SwappedAll(s, [f]) == Swapped(s, f)
  {
    assert [f][1..] == [];
    assert SwappedAll(s, [f]) == SwappedAll(Swapped(s, f), []);
  }

  // ---- where the bytes of a UCHANGE go ----

  /** All fields that are converted when `n` rows are. */
  function AllFields(n: nat): seq<Field> {
    [Field(0, 4)] + RowFields(0, n)
  }

  lemma AllFieldsFit(n: nat)
    requires n <= MAX_ROWS
    ensures Fit(AllFields(n), RowAt(MAX_ROWS))
  {
    RowFieldsFit(0, n);
  }

  /** Field `f` is the id or the state of row `i`. */
  predicate OfRow(f: Field, i: nat) {
    f == IdOf(i) || f == StateOf(i)
  }

  lemma {:induction false} RowFieldIn(i: nat, n: nat, k: nat, f: Field)
    requires i <= k < n && OfRow(f, k)
    ensures f in RowFields(i, n)
    decreases n - i
  {
    if i == k {
    } else {
      RowFieldIn(i + 1, n, k, f);
    }
  }

  lemma {:induction false} RowFieldOf(i: nat, n: nat, f: Field)
    requires f in RowFields(i, n)
    ensures exists k: nat :: i <= k < n && OfRow(f, k)
    decreases n - i
  {
    if OfRow(f, i) {
    } else {
      RowFieldOf(i + 1, n, f);
    }
  }

  lemma DisjointMore(f: Field, fs: seq<Field>)
    requires Disjoint(fs) && forall g | g in fs :: Apart(f, g)
    ensures Disjoint([f] + fs)
  {
    var all := [f] + fs;
    forall i, j | 0 <= i < j < |all|
      ensures Apart(all[i], all[j])
    {
      assert all[j] == fs[j - 1] && fs[j - 1] in fs;
      assert i > 0 ==> all[i] == fs[i - 1];
    }
  }

  lemma {:induction false} RowFieldsApart(i: nat, n: nat)
    ensures Disjoint(RowFields(i, n))
    decreases n - i
  {
    if i >= n {
    } else {
      var rest := RowFields(i + 1, n);
      RowFieldsApart(i + 1, n);
      forall g | g in rest
        ensures Apart(StateOf(i), g) && Apart(IdOf(i), g)
      {
        RowFieldOf(i + 1, n, g);
      }
      DisjointMore(StateOf(i), rest);
      DisjointMore(IdOf(i), [StateOf(i)] + rest);
      assert [IdOf(i)] + ([StateOf(i)] + rest) == RowFields(i, n);
    }
  }

  lemma AllFieldsApart(n: nat)
    ensures Disjoint(AllFields(n))
  {
    RowFieldsApart(0, n);
    forall g | g in RowFields(0, n)
      ensures Apart(Field(0, 4), g)
    {
      RowFieldOf(0, n, g);
    }
    DisjointMore(Field(0, 4), RowFields(0, n));
  }

  lemma {:induction false} MirrorNone(fs: seq<Field>, j: nat)
    requires forall f | f in fs :: !In(f, j)
    ensures MirrorIn(fs, j) == j
    decreases |fs|
  {
    if fs == [] {
    } else {
      assert fs[0] in fs;
      MirrorNone(fs[1..], j);
    }
  }

  /** Rows do not overlap. */
  lemma RowsApart(f: Field, i: nat, g: Field, k: nat, j: nat)
    requires OfRow(f, i) && OfRow(g, k) && In(f, j) && In(g, j)
    ensures i == k && f == g
  {
  }

  /** A byte of row `i` moves within its field exactly when the row is among the first `n`. */
  lemma MirrorRow(n: nat, i: nat, f: Field, j: nat)
    requires OfRow(f, i) && In(f, j)
    ensures MirrorIn(AllFields(n), j) == if i < n then Mirror(f, j) else j
  {
    if i < n {
      AllFieldsApart(n);
      RowFieldIn(0, n, i, f);
      MirrorInField(AllFields(n), f, j);
    } else {
      forall g | g in AllFields(n)
        ensures !In(g, j)
      {
        if g in RowFields(0, n) {
          RowFieldOf(0, n, g);
          var k: nat :| k < n && OfRow(g, k);
          if In(g, j) {
            RowsApart(f, i, g, k, j);
          }
        }
      }
      MirrorNone(AllFields(n), j);
    }
  }

  /** A byte of no id and no state. */
  ghost predicate Outside(j: nat) {
    j >= 4 && forall i: nat :: !In(IdOf(i), j) && !In(StateOf(i), j)
  }

  lemma MirrorOutside(n: nat, j: nat)
    requires Outside(j)
    ensures MirrorIn(AllFields(n), j) == j
  {
    forall g | g in AllFields(n)
      ensures !In(g, j)
    {
      if g in RowFields(0, n) {
        RowFieldOf(0, n, g);
        var k: nat :| k < n && OfRow(g, k);
      }
    }
    MirrorNone(AllFields(n), j);
  }

  lemma OutIsSwappedAll(s: seq<byte>)
    requires |s| == BodySize(UCHANGE)
    ensures
      var n := RowsOut(Little, s);
      Fit(AllFields(n), |s|) && Converted(Little, UCHANGE, s) == SwappedAll(s, AllFields(n))
  {
    var n := RowsOut(Little, s);
    AllFieldsFit(n);
    RowFieldsFit(0, n);
    OneField(s, Field(0, 4));
    assert AllFields(n)[0] == Field(0, 4) && AllFields(n)[1..] == RowFields(0, n);
  }

  /** Where the bytes are after the conversion out. */
  lemma OutAt(s: seq<byte>, j: nat)
    requires |s| == BodySize(UCHANGE) && j < |s|
    ensures
      var k := MirrorIn(AllFields(RowsOut(Little, s)), j);
      k < |s| && Converted(Little, UCHANGE, s)[j] == s[k]
  {
    OutIsSwappedAll(s);
    AllFieldsApart(RowsOut(Little, s));
    SwappedAllAt(s, AllFields(RowsOut(Little, s)), j);
  }

  /** Out and back in, byte `j`, when `n` and `m` rows are converted. */
  lemma BackAt(s: seq<byte>, j: nat)
    requires |s| == BodySize(UCHANGE) && j < |s|
    ensures
      var k := MirrorIn(AllFields(RowsIn(Little, s)), j);
      var m := MirrorIn(AllFields(RowsOut(Little, s)), k);
      m < |s| && Converted(Little, UCHANGE, Converted(Little, UCHANGE, s))[j] == s[m]
  {
    var t := Converted(Little, UCHANGE, s);
    BackCounts(s);
    OutAt(t, j);
    OutAt(s, MirrorIn(AllFields(RowsOut(Little, t)), j));
  }

  lemma CountMirror(n: nat, j: nat)
    requires j < 4
    ensures MirrorIn(AllFields(n), j) == Mirror(Field(0, 4), j)
  {
  }

  lemma BackCounts(s: seq<byte>)
    requires |s| == BodySize(UCHANGE)
    ensures RowsOut(Little, Converted(Little, UCHANGE, s)) == RowsIn(Little, s)
  {
    var t := Converted(Little, UCHANGE, s);
    forall j: nat | j < 4
      ensures Swapped(t, Field(0, 4))[j] == s[j]
    {
      var k := Mirror(Field(0, 4), j);
      CountMirror(RowsOut(Little, s), k);
      OutAt(s, k);
    }
  }

  /** Out and back in, a byte of row `i` is itself, unless the row is converted one way only. */
  lemma RowReturns(s: seq<byte>, i: nat, f: Field, j: nat)
    requires |s| == BodySize(UCHANGE) && i < MAX_ROWS && OfRow(f, i) && In(f, j)
    ensures j < |s| && Mirror(f, j) < |s|
    ensures Converted(Little, UCHANGE, Converted(Little, UCHANGE, s))[j] == s[if OneWay(s, i) then Mirror(f, j) else j]
  {
    BackAt(s, j);
    MirrorTwice(RowsIn(Little, s), RowsOut(Little, s), i, f, j);
  }

  lemma MirrorBack(f: Field, j: nat)
    requires In(f, j)
    ensures In(f, Mirror(f, j)) && Mirror(f, Mirror(f, j)) == j
  {
  }

  /** A byte of row `i` when first `m` and then `n` rows are converted. */
  lemma MirrorTwice(n: nat, m: nat, i: nat, f: Field, j: nat)
    requires OfRow(f, i) && In(f, j)
    ensures MirrorIn(AllFields(m), MirrorIn(AllFields(n), j)) == if (i < m) != (i < n) then Mirror(f, j) else j
  {
    MirrorBack(f, j);
    MirrorRow(n, i, f, j);
    MirrorRow(m, i, f, j);
    MirrorRow(m, i, f, Mirror(f, j));
  }

  /** Every other byte returns. */
  lemma OtherReturns(s: seq<byte>, j: nat)
    requires |s| == BodySize(UCHANGE) && j < |s| && (j < 4 || Outside(j))
    ensures Converted(Little, UCHANGE, Converted(Little, UCHANGE, s))[j] == s[j]
  {
    var into, out := RowsIn(Little, s), RowsOut(Little, s);
    BackAt(s, j);
    if j < 4 {
      CountMirror(into, j);
      CountMirror(out, Mirror(Field(0, 4), j));
    } else {
      MirrorOutside(into, j);
      MirrorOutside(out, j);
    }
  }

  /** UCHANGE survives the conversion out and back in exactly when the rows that are converted one way only do not
      notice. */
  lemma RowsRoundTrip(s: seq<byte>)
    requires |s| == BodySize(UCHANGE)
    ensures Converted(Little, UCHANGE, Converted(Little, UCHANGE, s)) == s <==>
              forall i: nat | i < MAX_ROWS && OneWay(s, i) :: Palindromic(s, i)
  {
    var back := Converted(Little, UCHANGE, Converted(Little, UCHANGE, s));
    if back == s {
      forall i: nat | i < MAX_ROWS && OneWay(s, i)
        ensures Palindromic(s, i)
      {
        RowIsPalindrome(s, i);
      }
    }
    if forall i: nat | i < MAX_ROWS && OneWay(s, i) :: Palindromic(s, i) {
      forall j: nat | j < |s|
        ensures back[j] == s[j]
      {
        ByteReturns(s, j);
      }
    }
  }

  lemma RowIsPalindrome(s: seq<byte>, i: nat)
    requires |s| == BodySize(UCHANGE) && i < MAX_ROWS && OneWay(s, i)
    requires Converted(Little, UCHANGE, Converted(Little, UCHANGE, s)) == s
    ensures Palindromic(s, i)
  {
    RowReturns(s, i, IdOf(i), IdOf(i).off);
    RowReturns(s, i, StateOf(i), StateOf(i).off);
  }

  lemma PalindromeMirrors(s: seq<byte>, i: nat, f: Field, j: nat)
    requires |s| == BodySize(UCHANGE) && i < MAX_ROWS && OfRow(f, i) && In(f, j) && Palindromic(s, i)
    ensures j < |s| && Mirror(f, j) < |s| && s[Mirror(f, j)] == s[j]
  {
  }

  lemma ByteReturns(s: seq<byte>, j: nat)
    requires |s| == BodySize(UCHANGE) && j < |s|
    requires forall i: nat | i < MAX_ROWS && OneWay(s, i) :: Palindromic(s, i)
    ensures Converted(Little, UCHANGE, Converted(Little, UCHANGE, s))[j] == s[j]
  {
    if j < 4 || Outside(j) {
      OtherReturns(s, j);
    } else {
      var i: nat :| In(IdOf(i), j) || In(StateOf(i), j);
      var f := if In(IdOf(i), j) then IdOf(i) else StateOf(i);
      assert i < MAX_ROWS;
      RowReturns(s, i, f, j);
      if OneWay(s, i) {
        PalindromeMirrors(s, i, f, j);
      }
    }
  }

  // ---- the form of a message ----

  predicate NullTerminated(s: seq<byte>, at: nat, len: nat)
    requires at + len <= |s|
  {
    exists k: nat :: at <= k < at + len && s[k] == 0
  }

  /** msg_check_form, the length in the head being `len`. */
  predicate WellFormed(host: Host, kind: nat, len: nat, s: seq<byte>) {
    && 0 < kind < MSG_MAX && len == BodySize(kind) == |s|
    && (kind == JOIN || kind == JOIN_R ==> NullTerminated(s, 0, NICK_BYTES))
    && (kind == UCHANGE ==>
          && Count(host, s) <= MAX_ROWS
          && forall i: nat | i < Count(host, s) :: NullTerminated(s, RowAt(i), NICK_BYTES))
    && (kind == SENDMSG ==> NullTerminated(s, 6, TEXT_BYTES))
  }

  lemma SmallCount(s: seq<byte>)
    requires |s| == RowAt(MAX_ROWS) && Count(Little, s) <= MAX_ROWS
    ensures RowsOut(Little, s) == if Count(Little, s) == 0 then 0 else MAX_ROWS
  {
  }

  /** The rows past the count of a UCHANGE do not notice being swapped. */
  predicate Clean(host: Host, kind: nat, s: seq<byte>)
    requires |s| == BodySize(kind)
  {
    kind == UCHANGE && host.Little? && Count(host, s) != 0 ==>
      forall i: nat | Count(host, s) <= i < MAX_ROWS :: Palindromic(s, i)
  }

  /** A message of good form survives the conversion out and back in exactly when it is not a UCHANGE, or the host
      does not swap, or it counts no rows, or the rows past its count have ids and states that read the same both
      ways. */
  lemma FormRoundTrip(host: Host, kind: nat, s: seq<byte>)
    requires WellFormed(host, kind, |s|, s)
    ensures Converted(host, kind, Converted(host, kind, s)) == s <==> Clean(host, kind, s)
  {
    if kind != UCHANGE {
      RoundTrip(host, kind, s);
    } else if host.Little? {
      SmallCount(s);
      RowsRoundTrip(s);
      assert forall i: nat | i < MAX_ROWS :: OneWay(s, i) <==> Count(host, s) != 0 && Count(host, s) <= i;
    }
  }

  // ---- between hosts of either byte order ----

  /** The unsigned integer in a field, as the host reads it. */
  function Read(host: Host, s: seq<byte>, f: Field): nat
    requires f.off + f.size <= |s| && (f.size == 1 || f.size == 2 || f.size == 4)
  {
    if f.size == 1 then s[f.off]
    else if f.size == 2 then
      (if host.Little? then Number(0, 0, s[f.off + 1], s[f.off]) else Number(0, 0, s[f.off], s[f.off + 1]))
    else
      (if host.Little? then Number(s[f.off + 3], s[f.off + 2], s[f.off + 1], s[f.off])
       else Number(s[f.off], s[f.off + 1], s[f.off + 2], s[f.off + 3]))
  }

  lemma {:induction false} MirrorInField(fs: seq<Field>, f: Field, j: nat)
    requires Disjoint(fs) && f in fs && In(f, j)
    ensures MirrorIn(fs, j) == Mirror(f, j)
    decreases |fs|
  {
    DisjointTail(fs);
    if f == fs[0] {
    } else {
      assert f in fs[1..];
      MirrorInField(fs[1..], f, j);
    }
  }

  lemma ReadSwapped(s: seq<byte>, t: seq<byte>, f: Field)
    requires |t| == |s| && f.off + f.size <= |s| && (f.size == 1 || f.size == 2 || f.size == 4)
    requires forall j: nat | In(f, j) :: t[j] == s[Mirror(f, j)]
    ensures Read(Big, t, f) == Read(Little, s, f) && Read(Little, t, f) == Read(Big, s, f)
  {
    assert forall j: nat | In(f, j) :: t[j] == s[2 * f.off + f.size - 1 - j];
    assert f.size == 1 ==> t[f.off] == s[f.off];
    assert f.size == 2 ==> t[f.off] == s[f.off + 1] && t[f.off + 1] == s[f.off];
    assert f.size == 4 ==> t[f.off] == s[f.off + 3] && t[f.off + 1] == s[f.off + 2]
                           && t[f.off + 2] == s[f.off + 1] && t[f.off + 3] == s[f.off];
  }

  /** Every converted field of a message reads the same at the receiver as at the sender, whatever their hosts. */
  lemma FieldsTravel(from: Host, to: Host, kind: nat, s: seq<byte>, f: Field)
    requires |s| == BodySize(kind) && kind != UCHANGE && f in Fields(kind)
    ensures f.off + f.size <= |s| && (f.size == 1 || f.size == 2 || f.size == 4)
    ensures Read(to, Converted(to, kind, Converted(from, kind, s)), f) == Read(from, s, f)
  {
    FieldsFit(kind);
    FieldsAreDisjoint(kind);
    RoundTrip(from, kind, s);
    var t := SwappedAll(s, Fields(kind));
    forall j: nat | In(f, j)
      ensures t[j] == s[Mirror(f, j)]
    {
      SwappedAllAt(s, Fields(kind), j);
      MirrorInField(Fields(kind), f, j);
    }
    ReadSwapped(s, t, f);
  }

  /** A row within the count is converted on the way between hosts of different byte order. */
  lemma RowIsConverted(from: Host, s: seq<byte>, i: nat)
    requires WellFormed(from, UCHANGE, |s|, s) && i < Count(from, s)
    ensures i < RowsOut(Little, s)
  {
    var t := Swapped(s, Field(0, 4));
    assert t[0] == s[3] && t[1] == s[2] && t[2] == s[1] && t[3] == s[0];
    if from.Little? {
      SmallCount(s);
    }
  }

  lemma CountCrosses(from: Host, s: seq<byte>)
    requires |s| == BodySize(UCHANGE)
    ensures Count(if from.Little? then Big else Little, Converted(Little, UCHANGE, s)) == Count(from, s)
  {
    var t, f := Converted(Little, UCHANGE, s), Field(0, 4);
    forall j: nat | In(f, j)
      ensures t[j] == s[Mirror(f, j)]
    {
      CountMirror(RowsOut(Little, s), j);
      OutAt(s, j);
    }
    ReadSwapped(s, t, f);
  }

  /** One byte of a converted row. */
  lemma RowCrosses(s: seq<byte>, i: nat, f: Field, j: nat)
    requires |s| == BodySize(UCHANGE) && i < MAX_ROWS && i < RowsOut(Little, s) && OfRow(f, i) && In(f, j)
    ensures j < |s| && Mirror(f, j) < |s| && Converted(Little, UCHANGE, s)[j] == s[Mirror(f, j)]
  {
    OutAt(s, j);
    MirrorRow(RowsOut(Little, s), i, f, j);
  }

  lemma ScoreIsOutside(i: nat, j: nat)
    requires In(ScoreOf(i), j)
    ensures Outside(j)
  {
  }

  lemma ScoreCrosses(s: seq<byte>, i: nat, j: nat)
    requires |s| == BodySize(UCHANGE) && i < MAX_ROWS && In(ScoreOf(i), j)
    ensures j < |s| && Converted(Little, UCHANGE, s)[j] == s[j]
  {
    ScoreIsOutside(i, j);
    OutAt(s, j);
    MirrorOutside(RowsOut(Little, s), j);
  }

  lemma ScoreReads(from: Host, to: Host, s: seq<byte>, i: nat)
    requires |s| == BodySize(UCHANGE) && i < MAX_ROWS && from != to
    ensures
      var t, o := Converted(Little, UCHANGE, s), ScoreOf(i).off;
      Read(to, t, ScoreOf(i)) == Read(from, s, ScoreOf(i)) <==> s[o] == s[o + 3] && s[o + 1] == s[o + 2]
  {
    var o := ScoreOf(i).off;
    ScoreCrosses(s, i, o);
    ScoreCrosses(s, i, o + 1);
    ScoreCrosses(s, i, o + 2);
    ScoreCrosses(s, i, o + 3);
    ScoreNumbers(from, to, s, Converted(Little, UCHANGE, s), o);
  }

  lemma ScoreNumbers(from: Host, to: Host, s: seq<byte>, t: seq<byte>, o: nat)
    requires o + 4 <= |s| == |t| && from != to
    requires t[o] == s[o] && t[o + 1] == s[o + 1] && t[o + 2] == s[o + 2] && t[o + 3] == s[o + 3]
    ensures Read(to, t, Field(o, 4)) == Read(from, s, Field(o, 4)) <==> s[o] == s[o + 3] && s[o + 1] == s[o + 2]
  {
    NumberReversed(s[o], s[o + 1], s[o + 2], s[o + 3]);
  }

  /** Hosts of different byte order: count, ids and states arrive, but a score arrives with its bytes reversed. */
  lemma RowsCross(from: Host, s: seq<byte>, i: nat)
    requires WellFormed(from, UCHANGE, |s|, s) && i < Count(from, s)
    ensures
      var to := if from.Little? then Big else Little;
      var t := Converted(to, UCHANGE, Converted(from, UCHANGE, s));
      && Count(to, t) == Count(from, s)
      && Read(to, t, IdOf(i)) == Read(from, s, IdOf(i))
      && Read(to, t, StateOf(i)) == Read(from, s, StateOf(i))
      && (Read(to, t, ScoreOf(i)) == Read(from, s, ScoreOf(i)) <==>
            s[ScoreOf(i).off] == s[ScoreOf(i).off + 3] && s[ScoreOf(i).off + 1] == s[ScoreOf(i).off + 2])
  {
    RowIsConverted(from, s, i);
    CountCrosses(from, s);
    FieldCrosses(from, s, i, IdOf(i));
    FieldCrosses(from, s, i, StateOf(i));
    ScoreReads(from, if from.Little? then Big else Little, s, i);
  }

  lemma FieldCrosses(from: Host, s: seq<byte>, i: nat, f: Field)
    requires |s| == BodySize(UCHANGE) && i < MAX_ROWS && i < RowsOut(Little, s) && OfRow(f, i)
    ensures Read(if from.Little? then Big else Little, Converted(Little, UCHANGE, s), f) == Read(from, s, f)
  {
    forall j: nat | In(f, j)
      ensures Converted(Little, UCHANGE, s)[j] == s[Mirror(f, j)]
    {
      RowCrosses(s, i, f, j);
    }
    ReadSwapped(s, Converted(Little, UCHANGE, s), f);
  }

  lemma NumberReversed(a: byte, b: byte, c: byte, d: byte)
    ensures Number(a, b, c, d) == Number(d, c, b, a) <==> a == d && b == c
  {
  }
}
