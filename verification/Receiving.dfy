/** recv_count, whose destination never moves (lib/common.c). */
module Receiving {
  import opened Codec
  import opened Options

  /** `chunk` written at the start of `buf`. */
  function Overlaid(buf: seq<byte>, chunk: seq<byte>): (r: seq<byte>)
    requires |chunk| <= |buf|
    ensures |r| == |buf|
  {
    chunk + buf[|chunk|..]
  }

  /** The successive results of recv, none longer than asked for; an empty one is an error or the end of the stream. */
  predicate Answers(chunks: seq<seq<byte>>, want: nat)
    decreases |chunks|
  {
    chunks == [] || (|chunks[0]| <= want && Answers(chunks[1..], want - |chunks[0]|))
  }

  /** The buffer after recv_count asked for `want` bytes, or nothing when it gives up. */
  function Filled(buf: seq<byte>, want: nat, chunks: seq<seq<byte>>): Option<seq<byte>>
    requires want <= |buf| && Answers(chunks, want)
    decreases |chunks|
  {
    if want == 0 then Some(buf)
    else if chunks == [] || chunks[0] == [] then None
    else Filled(Overlaid(buf, chunks[0]), want - |chunks[0]|, chunks[1..])
  }

  method RecvCount(buf: array<byte>, want: nat, chunks: seq<seq<byte>>) returns (ok: bool)
    requires want <= buf.Length && Answers(chunks, want)
    modifies buf
    ensures ok <==> Filled(old(buf[..]), want, chunks).Some?
    ensures ok ==> buf[..] == Filled(old(buf[..]), want, chunks).value
  {
    var len: nat, i := want, 0;
    while len > 0
      invariant 0 <= i <= |chunks| && len <= buf.Length && Answers(chunks[i..], len)
      invariant Filled(buf[..], len, chunks[i..]) == Filled(old(buf[..]), want, chunks)
    {
      if i == |chunks| || |chunks[i]| == 0 {
        assert i == |chunks| ==> chunks[i..] == [];
        return false;
      }
      WriteAtStart(buf, chunks[i]);
      assert chunks[i..][1..] == chunks[i + 1..];
      len := len - |chunks[i]|;
      i := i + 1;
    }
    ok := true;
  }

  /** recv writes where it is told, which is always the start of the buffer. */
  method WriteAtStart(buf: array<byte>, chunk: seq<byte>)
    requires |chunk| <= buf.Length
    modifies buf
    ensures buf[..] == Overlaid(old(buf[..]), chunk)
  {
    forall j | 0 <= j < |chunk| {
      buf[j] := chunk[j];
    }
  }

  function Joined(chunks: seq<seq<byte>>): seq<byte> {
    if chunks == [] then [] else chunks[0] + Joined(chunks[1..])
  }

  /** The chunks have these lengths. */
  predicate Lengths(chunks: seq<seq<byte>>, lens: seq<nat>) {
    |chunks| == |lens| && forall i | 0 <= i < |lens| :: |chunks[i]| == lens[i]
  }

  function Total(lens: seq<nat>): nat {
    if lens == [] then 0 else lens[0] + Total(lens[1..])
  }

  lemma {:induction false} LengthsAnswer(chunks: seq<seq<byte>>, lens: seq<nat>)
    requires Lengths(chunks, lens)
    ensures Answers(chunks, Total(lens)) && |Joined(chunks)| == Total(lens)
    decreases |lens|
  {
    if lens == [] {
    } else {
      LengthsAnswer(chunks[1..], lens[1..]);
    }
  }

  /** What recv_count is for: the bytes that arrived, in order. */
  ghost predicate Right(buf: seq<byte>, want: nat, chunks: seq<seq<byte>>)
    requires want <= |buf| && Answers(chunks, want) && |Joined(chunks)| == want
  {
    Filled(buf, want, chunks) == Some(Joined(chunks) + buf[want..])
  }

  /** The first byte of the buffer comes from the last chunk. */
  lemma {:induction false} LastChunkWins(buf: seq<byte>, chunks: seq<seq<byte>>, lens: seq<nat>)
    requires Lengths(chunks, lens) && lens != [] && (forall n | n in lens :: n > 0) && Total(lens) <= |buf|
    ensures Answers(chunks, Total(lens)) && Total(lens) > 0 && |chunks[|chunks| - 1]| > 0
    ensures
      var r := Filled(buf, Total(lens), chunks);
      r.Some? && |r.value| == |buf| && r.value[0] == chunks[|chunks| - 1][0]
    decreases |lens|
  {
    LengthsAnswer(chunks, lens);
    assert lens[0] in lens;
    assert forall n | n in lens[1..] :: n in lens;
    var next := Overlaid(buf, chunks[0]);
    if |lens| == 1 {
      assert Filled(buf, Total(lens), chunks) == Filled(next, 0, chunks[1..]) == Some(next);
    } else {
      LastChunkWins(next, chunks[1..], lens[1..]);
      assert chunks[1..][|chunks[1..]| - 1] == chunks[|chunks| - 1];
    }
  }

  /** Chunks of given lengths: the first of zeros, the others of ones. */
  function Marked(lens: seq<nat>): seq<seq<byte>> {
    seq(|lens|, i requires 0 <= i < |lens| => seq(lens[i], j => if i == 0 then 0 else 1))
  }

  lemma OneChunkIsRight(buf: seq<byte>, chunks: seq<seq<byte>>, lens: seq<nat>)
    requires Lengths(chunks, lens) && |lens| <= 1 && (forall n | n in lens :: n > 0) && Total(lens) <= |buf|
    ensures Answers(chunks, Total(lens)) && |Joined(chunks)| == Total(lens) && Right(buf, Total(lens), chunks)
  {
    LengthsAnswer(chunks, lens);
    if |lens| == 1 {
      assert lens[0] in lens && lens[1..] == [] && chunks[1..] == [];
      assert Total(lens) == lens[0];
      assert Joined(chunks) == chunks[0];
      assert Filled(buf, Total(lens), chunks) == Filled(Overlaid(buf, chunks[0]), 0, []);
    } else {
      assert [] + buf[0..] == buf;
    }
  }

  lemma SeveralChunksAreWrong(buf: seq<byte>, lens: seq<nat>)
    requires |lens| > 1 && (forall n | n in lens :: n > 0) && Total(lens) <= |buf|
    ensures
      var chunks := Marked(lens);
      && Lengths(chunks, lens) && Answers(chunks, Total(lens)) && |Joined(chunks)| == Total(lens)
      && !Right(buf, Total(lens), chunks)
  {
    var chunks := Marked(lens);
    assert Lengths(chunks, lens);
    assert lens[0] in lens && lens[|lens| - 1] in lens;
    LengthsAnswer(chunks, lens);
    LastChunkWins(buf, chunks, lens);
    assert Joined(chunks) == chunks[0] + Joined(chunks[1..]);
    assert Joined(chunks)[0] == 0;
    assert chunks[|chunks| - 1][0] == 1;
  }

  /** recv_count delivers the bytes that arrive, whatever they are, exactly when they arrive in one piece. */
  lemma RightExactly(buf: seq<byte>, lens: seq<nat>)
    requires (forall n | n in lens :: n > 0) && Total(lens) <= |buf|
    ensures (forall chunks: seq<seq<byte>> | Lengths(chunks, lens) :: Delivers(buf, chunks, lens)) <==> |lens| <= 1
  {
    if |lens| <= 1 {
      forall chunks: seq<seq<byte>> | Lengths(chunks, lens)
        ensures Delivers(buf, chunks, lens)
      {
        OneChunkIsRight(buf, chunks, lens);
      }
    } else {
      SeveralChunksAreWrong(buf, lens);
      assert !Delivers(buf, Marked(lens), lens);
    }
  }

  ghost predicate Delivers(buf: seq<byte>, chunks: seq<seq<byte>>, lens: seq<nat>)
    requires Lengths(chunks, lens) && Total(lens) <= |buf|
  {
    LengthsAnswer(chunks, lens);
    Right(buf, Total(lens), chunks)
  }
}
