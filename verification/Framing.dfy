/** Messages on a byte stream (lib/messages.c, lib/common.c). */
module Framing {
  import opened Codec
  import opened Options

  /** The head and the first `len` bytes of the body, as the host stores them. */
  datatype Message = Message(kind: nat, len: nat, body: seq<byte>)

  const HEAD_BYTES := 4

  predicate Good(host: Host, m: Message) {
    WellFormed(host, m.kind, m.len, m.body)
  }

  // ---- the head ----

  function HeadFields(): seq<Field> {
    [Field(0, 2), Field(2, 2)]
  }

  /** msg_head_l2n and msg_head_n2l, which do the same. */
  function ConvertedHead(host: Host, s: seq<byte>): (t: seq<byte>)
    requires |s| == HEAD_BYTES
    ensures |t| == |s|
  {
    if host.Big? then s else SwappedAll(s, HeadFields())
  }

  /** Whatever the host, the head is sent in network byte order. */
  lemma HeadOut(host: Host, kind: nat, len: nat)
    requires kind < 0x1_0000 && len < 0x1_0000
    ensures ConvertedHead(host, Short(host, kind) + Short(host, len)) == Short(Big, kind) + Short(Big, len)
  {
    if host.Little? {
      var s := Short(host, kind) + Short(host, len);
      assert HeadFields()[1..] == [Field(2, 2)];
      OneField(Swapped(s, Field(0, 2)), Field(2, 2));
      assert SwappedAll(s, HeadFields()) == SwappedAll(Swapped(s, Field(0, 2)), [Field(2, 2)]);
    }
  }

  lemma HeadIn(host: Host, kind: nat, len: nat)
    requires kind < 0x1_0000 && len < 0x1_0000
    ensures
      var h := ConvertedHead(host, Short(Big, kind) + Short(Big, len));
      Read(host, h, Field(0, 2)) == kind && Read(host, h, Field(2, 2)) == len
  {
    if host.Little? {
      var s := Short(Big, kind) + Short(Big, len);
      assert HeadFields()[1..] == [Field(2, 2)];
      OneField(Swapped(s, Field(0, 2)), Field(2, 2));
      assert SwappedAll(s, HeadFields()) == SwappedAll(Swapped(s, Field(0, 2)), [Field(2, 2)]);
    }
  }

  // ---- one message ----

  /** The bytes msg_send writes, or nothing when it refuses. */
  function Sent(host: Host, m: Message): Option<seq<byte>>
    requires m.len == |m.body| < 0x1_0000 && (0 < m.kind < MSG_MAX ==> m.len == BodySize(m.kind))
  {
    if !(0 < m.kind < MSG_MAX) then None
    else Some(ConvertedHead(host, Short(host, m.kind) + Short(host, m.len)) + Converted(host, m.kind, m.body))
  }

  /** A message taken off a stream, and what is left of the stream. */
  datatype Taken = Taken(m: Message, rest: seq<byte>)

  /** msg_recv on `stream`, each recv_count being filled by one recv. */
  function Received(host: Host, stream: seq<byte>): Option<Taken> {
    if |stream| < HEAD_BYTES then None
    else
      var head := ConvertedHead(host, stream[..HEAD_BYTES]);
      var kind, len := Read(host, head, Field(0, 2)), Read(host, head, Field(2, 2));
      if !(0 < kind < MSG_MAX) || len != BodySize(kind) || |stream| < HEAD_BYTES + len then None
      else
        var body := Converted(host, kind, stream[HEAD_BYTES..HEAD_BYTES + len]);
        if WellFormed(host, kind, len, body) then Some(Taken(Message(kind, len, body), stream[HEAD_BYTES + len..]))
        else None
  }

  lemma KindsAreSmall(kind: nat)
    ensures BodySize(kind) < 0x1_0000
  {
  }

  /** The message as it comes back from the wire. */
  function Back(host: Host, m: Message): Message
    requires Good(host, m)
  {
    m.(body := Converted(host, m.kind, Converted(host, m.kind, m.body)))
  }

  /** Going out and back in leaves nicknames and the count alone, so the form stays good. */
  lemma BackIsGood(host: Host, m: Message)
    requires Good(host, m)
    ensures Good(host, Back(host, m))
  {
    if m.kind != UCHANGE {
      RoundTrip(host, m.kind, m.body);
    } else if host.Little? {
      var s, t := m.body, Back(host, m).body;
      forall j: nat | j < |s| && (j < 4 || Outside(j))
        ensures t[j] == s[j]
      {
        OtherReturns(s, j);
      }
      forall i: nat | i < Count(host, s)
        ensures NullTerminated(t, RowAt(i), NICK_BYTES)
      {
        assert NullTerminated(s, RowAt(i), NICK_BYTES);
        var k: nat :| RowAt(i) <= k < RowAt(i) + NICK_BYTES && s[k] == 0;
        NicknameIsOutside(i, k);
        assert t[k] == 0;
      }
    }
  }

  lemma NicknameIsOutside(i: nat, k: nat)
    requires RowAt(i) <= k < RowAt(i) + NICK_BYTES
    ensures Outside(k)
  {
  }

  lemma ReceivedIsBack(host: Host, m: Message, rest: seq<byte>)
    requires Good(host, m)
    ensures m.len < 0x1_0000 && Sent(host, m).Some?
    ensures Received(host, Sent(host, m).value + rest) == Some(Taken(Back(host, m), rest))
  {
    KindsAreSmall(m.kind);
    var head, body := Short(Big, m.kind) + Short(Big, m.len), Converted(host, m.kind, m.body);
    HeadOut(host, m.kind, m.len);
    HeadIn(host, m.kind, m.len);
    BackIsGood(host, m);
    var stream := Sent(host, m).value + rest;
    assert stream == head + body + rest;
    assert stream[..HEAD_BYTES] == head;
    assert stream[HEAD_BYTES..HEAD_BYTES + m.len] == body;
    assert stream[HEAD_BYTES + m.len..] == rest;
  }

  // ---- a stream ----

  predicate AllGood(host: Host, ms: seq<Message>) {
    forall m | m in ms :: Good(host, m)
  }

  function SentAll(host: Host, ms: seq<Message>): seq<byte>
    requires AllGood(host, ms)
  {
    if ms == [] then []
    else
      assert ms[0] in ms;
      KindsAreSmall(ms[0].kind);
      Sent(host, ms[0]).value + SentAll(host, ms[1..])
  }

  /** msg_recv again and again, until the stream is used up or a message is refused. */
  function ReceivedAll(host: Host, stream: seq<byte>): (seq<Message>, seq<byte>)
    decreases |stream|
  {
    match Received(host, stream)
    case None => ([], stream)
    case Some(t) =>
      if |t.rest| < |stream| then
        var (ms, rest) := ReceivedAll(host, t.rest);
        ([t.m] + ms, rest)
      else ([], stream)
  }

  function BackAll(host: Host, ms: seq<Message>): seq<Message>
    requires AllGood(host, ms)
  {
    if ms == [] then []
    else
      assert ms[0] in ms;
      [Back(host, ms[0])] + BackAll(host, ms[1..])
  }

  lemma {:induction false} ReceivedAllIsBack(host: Host, ms: seq<Message>)
    requires AllGood(host, ms)
    ensures ReceivedAll(host, SentAll(host, ms)) == (BackAll(host, ms), [])
    decreases |ms|
  {
    if ms == [] {
    } else {
      assert ms[0] in ms;
      ReceivedAllIsBack(host, ms[1..]);
      ReceivedIsBack(host, ms[0], SentAll(host, ms[1..]));
    }
  }

  predicate AllClean(host: Host, ms: seq<Message>)
    requires AllGood(host, ms)
  {
    forall m | m in ms :: Good(host, m) && Clean(host, m.kind, m.body)
  }

  lemma {:induction false} BackAllIsSame(host: Host, ms: seq<Message>)
    requires AllGood(host, ms)
    ensures BackAll(host, ms) == ms <==> AllClean(host, ms)
    decreases |ms|
  {
    if ms == [] {
    } else {
      assert ms[0] in ms;
      BackAllIsSame(host, ms[1..]);
      FormRoundTrip(host, ms[0].kind, ms[0].body);
      SameHeadAndTail(Back(host, ms[0]), BackAll(host, ms[1..]), ms);
      CleanHeadAndTail(host, ms);
    }
  }

  lemma SameHeadAndTail(m: Message, rest: seq<Message>, ms: seq<Message>)
    requires ms != []
    ensures [m] + rest == ms <==> m == ms[0] && rest == ms[1..]
  {
    assert ([m] + rest)[0] == m && ([m] + rest)[1..] == rest;
    assert ms == [ms[0]] + ms[1..];
  }

  lemma CleanHeadAndTail(host: Host, ms: seq<Message>)
    requires AllGood(host, ms) && ms != []
    ensures ms[0] in ms && AllGood(host, ms[1..])
    ensures AllClean(host, ms) <==> Clean(host, ms[0].kind, ms[0].body) && AllClean(host, ms[1..])
  {
    assert ms[0] in ms && ms == [ms[0]] + ms[1..];
  }

  /** Stream framing: sending any messages of good form one after the other and receiving repeatedly uses up every byte
      and yields as many messages, and yields the same messages exactly when their UCHANGEs are clean past the count. */
  lemma StreamFraming(host: Host, ms: seq<Message>)
    requires AllGood(host, ms)
    ensures
      var (got, rest) := ReceivedAll(host, SentAll(host, ms));
      && rest == [] && |got| == |ms|
      && (got == ms <==> AllClean(host, ms))
  {
    ReceivedAllIsBack(host, ms);
    BackAllIsSame(host, ms);
    BackAllLength(host, ms);
  }

  lemma {:induction false} BackAllLength(host: Host, ms: seq<Message>)
    requires AllGood(host, ms)
    ensures |BackAll(host, ms)| == |ms|
    decreases |ms|
  {
    if ms == [] {
    } else {
      BackAllLength(host, ms[1..]);
    }
  }
}
