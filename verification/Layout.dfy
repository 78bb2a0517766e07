/** The packed records of the messages, member by member (lib/common.h), and what conversion and checking make of them:
    every integer is converted but the scores, and every text is checked. */
module Layout {
  import opened Codec
  import opened Framing

  /** The members of a packed record, in the order of their declaration. */
  datatype Record = End | Text(bytes: nat, rest: Record) | Int(bytes: nat, rest: Record)

  function RecordOf(kind: nat): Record {
    if kind == JOIN then Text(32, End)
    else if kind == JOIN_R then Text(32, Int(2, Int(2, Int(4, End))))
    else if kind == QUIT then Int(4, Int(2, End))
    else if kind == CHALLENGE then Int(2, Int(2, Int(4, Int(2, Int(2, End)))))
    else if kind == CHALLENGE_R then Int(2, Int(2, Int(2, Int(2, Int(1, End)))))
    else if kind == TURN then Int(2, Int(2, Int(4, Int(2, Int(2, End)))))
    else if kind == TURN_R then Int(2, Int(2, Int(2, Int(2, Int(2, Int(4, Int(4, Int(4, Int(4, Int(1, End))))))))))
    else if kind == SENDMSG then Int(2, Int(4, Text(128, End)))
    else End
  }

  /** A UCHANGE is the count and then the rows: nickname, id, state, score. */
  const COUNT := Int(4, End)
  const ROW := Text(32, Int(2, Int(2, Int(4, End))))

  function Size(r: Record): nat {
    match r
    case End => 0
    case Text(n, rest) => n + Size(rest)
    case Int(n, rest) => n + Size(rest)
  }

  function Ints(r: Record, at: nat): seq<Field> {
    match r
    case End => []
    case Text(n, rest) => Ints(rest, at + n)
    case Int(n, rest) => [Field(at, n)] + Ints(rest, at + n)
  }

  function Texts(r: Record, at: nat): seq<Field> {
    match r
    case End => []
    case Text(n, rest) => [Field(at, n)] + Texts(rest, at + n)
    case Int(n, rest) => Texts(rest, at + n)
  }

  /** A body is as long as its record. */
  lemma BodiesFit(kind: nat)
    ensures BodySize(kind) == if kind == UCHANGE then Size(COUNT) + MAX_ROWS * Size(ROW) else Size(RecordOf(kind))
  {
    if kind == TURN_R {
      assert Size(Int(4, Int(4, Int(4, Int(4, Int(1, End)))))) == 17;
      assert Size(Int(2, Int(2, Int(2, Int(2, Int(2, Int(4, Int(4, Int(4, Int(4, Int(1, End))))))))))) == 27;
    }
  }

  /** The converted fields are exactly the integers of the record. */
  lemma EveryIntIsConverted(kind: nat, f: Field)
    requires kind != UCHANGE
    ensures f in Fields(kind) <==> f in Ints(RecordOf(kind), 0)
  {
    if kind == TURN_R {
      ReportInts();
    }
  }

  lemma ReportInts()
    ensures Ints(RecordOf(TURN_R), 0)
         == [Field(0, 2), Field(2, 2), Field(4, 2), Field(6, 2), Field(8, 2), Field(10, 4), Field(14, 4), Field(18, 4),
             Field(22, 4), Field(26, 1)]
  {
  }

  lemma RowInts(at: nat)
    ensures Ints(ROW, at) == [Field(at + 32, 2), Field(at + 34, 2), Field(at + 36, 4)]
  {
    assert Ints(Int(4, End), at + 36) == [Field(at + 36, 4)];
    assert Ints(Int(2, Int(4, End)), at + 34) == [Field(at + 34, 2)] + Ints(Int(4, End), at + 36);
    assert Ints(Int(2, Int(2, Int(4, End))), at + 32) == [Field(at + 32, 2)] + Ints(Int(2, Int(4, End)), at + 34);
  }

  lemma RowTexts(at: nat)
    ensures Texts(ROW, at) == [Field(at, 32)]
  {
    NoTexts(2, Int(2, Int(4, End)), at + 32);
  }

  /** The tail of a row holds no text. */
  lemma NoTexts(n: nat, r: Record, at: nat)
    requires r.Int? && r.rest.Int? && r.rest.rest == End
    ensures Texts(Int(n, r), at) == []
  {
    assert Texts(r.rest, at + n + r.bytes) == [];
    assert Texts(r, at + n) == [];
  }

  lemma RowSize()
    ensures Size(ROW) == 40 && Size(COUNT) == 4
  {
    assert Size(Int(2, Int(2, Int(4, End)))) == 8;
  }

  /** Where the record of row `i` begins. */
  function RecordAt(i: nat): nat {
    Size(COUNT) + i * Size(ROW)
  }

  lemma RowsFollow(i: nat)
    ensures RecordAt(i) == RowAt(i)
  {
    RowSize();
  }

  /** Of a UCHANGE the count is converted, and of each row that it counts every integer but the last, the score. */
  lemma RowsAreConverted(n: nat, f: Field)
    ensures f in AllFields(n) <==>
              f in Ints(COUNT, 0) || exists i: nat :: i < n && f in Ints(ROW, RecordAt(i)) && f != ScoreOf(i)
  {
    if f in RowFields(0, n) {
      RowFieldOf(0, n, f);
      var i: nat :| i < n && OfRow(f, i);
      RowsFollow(i);
      RowInts(RowAt(i));
    }
    if i: nat :| i < n && f in Ints(ROW, RecordAt(i)) && f != ScoreOf(i) {
      RowsFollow(i);
      RowInts(RowAt(i));
      RowFieldIn(0, n, i, f);
    }
  }

  /** Whatever the two hosts, every integer of every message but UCHANGE arrives. */
  lemma EveryIntTravels(from: Host, to: Host, kind: nat, s: seq<byte>, f: Field)
    requires |s| == BodySize(kind) && kind != UCHANGE && f in Ints(RecordOf(kind), 0)
    ensures f.off + f.size <= |s| && (f.size == 1 || f.size == 2 || f.size == 4)
    ensures Read(to, Converted(to, kind, Converted(from, kind, s)), f) == Read(from, s, f)
  {
    EveryIntIsConverted(kind, f);
    FieldsTravel(from, to, kind, s, f);
  }

  // ---- the form ----

  /** All texts of a record at `at` end within their space. */
  ghost predicate TextsEnd(s: seq<byte>, r: Record, at: nat) {
    forall f | f in Texts(r, at) :: f.off + f.size <= |s| && NullTerminated(s, f.off, f.size)
  }

  lemma MessageTexts(kind: nat)
    ensures Texts(RecordOf(kind), 0) ==
              if kind == JOIN || kind == JOIN_R then [Field(0, 32)]
              else if kind == SENDMSG then [Field(6, 128)]
              else []
  {
    if kind == TURN_R {
      assert Texts(Int(4, Int(4, Int(4, Int(4, Int(1, End))))), 10) == [];
    }
  }

  lemma RowTextEnds(s: seq<byte>, i: nat)
    requires |s| == BodySize(UCHANGE) && i < MAX_ROWS
    ensures TextsEnd(s, ROW, RecordAt(i)) <==> NullTerminated(s, RowAt(i), NICK_BYTES)
  {
    RowsFollow(i);
    RowTextsAt(s, RowAt(i));
  }

  lemma RowTextsAt(s: seq<byte>, at: nat)
    requires at + 32 <= |s|
    ensures TextsEnd(s, ROW, at) <==> NullTerminated(s, at, 32)
  {
    RowTexts(at);
    OneText(s, ROW, at, Field(at, 32));
  }

  lemma OneText(s: seq<byte>, r: Record, at: nat, f: Field)
    requires Texts(r, at) == [f] && f.off + f.size <= |s|
    ensures TextsEnd(s, r, at) <==> NullTerminated(s, f.off, f.size)
  {
  }

  /** The texts of the rows that a UCHANGE counts. */
  ghost predicate RowsEnd(s: seq<byte>, n: nat) {
    n <= MAX_ROWS && forall i: nat | i < n :: TextsEnd(s, ROW, RecordAt(i))
  }

  lemma RowsEndExactly(s: seq<byte>, n: nat)
    requires |s| == BodySize(UCHANGE)
    ensures RowsEnd(s, n) <==> n <= MAX_ROWS && forall i: nat | i < n :: NullTerminated(s, RowAt(i), NICK_BYTES)
  {
    forall i: nat | i < MAX_ROWS
      ensures TextsEnd(s, ROW, RecordAt(i)) <==> NullTerminated(s, RowAt(i), NICK_BYTES)
    {
      RowTextEnds(s, i);
    }
  }

  lemma TextsEndExactly(kind: nat, s: seq<byte>)
    requires |s| == BodySize(kind)
    ensures TextsEnd(s, RecordOf(kind), 0) <==>
              && (kind == JOIN || kind == JOIN_R ==> NullTerminated(s, 0, NICK_BYTES))
              && (kind == SENDMSG ==> NullTerminated(s, 6, TEXT_BYTES))
  {
    MessageTexts(kind);
    if kind == JOIN || kind == JOIN_R {
      OneText(s, RecordOf(kind), 0, Field(0, 32));
    } else if kind == SENDMSG {
      OneText(s, RecordOf(kind), 0, Field(6, 128));
    }
  }

  /** A message has good form exactly when its kind is known, its length is its record's, all its texts end within their
      space, and a UCHANGE counts no more rows than there are and the texts of the rows that it counts end too. */
  lemma FormExactly(host: Host, kind: nat, len: nat, s: seq<byte>)
    ensures WellFormed(host, kind, len, s) <==>
              && JOIN <= kind <= SENDMSG && len == BodySize(kind) == |s|
              && TextsEnd(s, RecordOf(kind), 0)
              && (kind == UCHANGE ==> RowsEnd(s, Read(host, s, Field(0, 4))))
  {
    if |s| == BodySize(kind) {
      TextsEndExactly(kind, s);
      if kind == UCHANGE {
        RowsEndExactly(s, Count(host, s));
      }
    }
  }

  /** Whatever is taken off a stream has good form, has the kind that the first two bytes give in network order, and
      uses up exactly the head and the record. */
  lemma TakenIsGood(host: Host, stream: seq<byte>)
    ensures
      Received(host, stream).Some? ==>
        var t := Received(host, stream).value;
        && Good(host, t.m) && |stream| >= HEAD_BYTES + BodySize(t.m.kind)
        && t.m.kind == Number(0, 0, stream[0], stream[1]) && t.m.len == Number(0, 0, stream[2], stream[3])
        && t.rest == stream[HEAD_BYTES + BodySize(t.m.kind)..]
  {
    if |stream| >= HEAD_BYTES {
      HeadReads(host, stream[..HEAD_BYTES]);
    }
  }

  lemma HeadReads(host: Host, s: seq<byte>)
    requires |s| == HEAD_BYTES
    ensures
      var h := ConvertedHead(host, s);
      Read(host, h, Field(0, 2)) == Number(0, 0, s[0], s[1]) && Read(host, h, Field(2, 2)) == Number(0, 0, s[2], s[3])
  {
    if host.Little? {
      assert HeadFields()[1..] == [Field(2, 2)];
      OneField(Swapped(s, Field(0, 2)), Field(2, 2));
      assert SwappedAll(s, HeadFields()) == SwappedAll(Swapped(s, Field(0, 2)), [Field(2, 2)]);
    }
  }
}
