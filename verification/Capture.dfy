/** The byte limit on captured output (`capture_output` in src/executor.rs). */
module Capture {
  import opened Model

  /** One read of one of the command's pipes. */
  datatype Chunk = Chunk(stream: OutputStream, data: seq<Byte>)

  function Flatten(chunks: seq<Chunk>): seq<Byte> {
    if chunks == [] then [] else Flatten(chunks[..|chunks| - 1]) + chunks[|chunks| - 1].data
  }

  function StreamBytes(chunks: seq<Chunk>, stream: OutputStream): seq<Byte> {
    if chunks == [] then []
    else
      var last := chunks[|chunks| - 1];
      StreamBytes(chunks[..|chunks| - 1], stream) + (if last.stream == stream then last.data else [])
  }

  /** The payloads the counters let through for one chunk. */
  function SentBy(chunk: Chunk, limit: nat, captured: nat, truncated: bool): seq<Payload> {
    var persist := Min(Room(limit, captured), |chunk.data|);
    var kept, mark := Output(chunk.stream, chunk.data[..persist]), CaptureTruncated(limit);
    var cut := persist < |chunk.data| && !truncated;
    if persist > 0 && cut then [kept, mark]
    else if persist > 0 then [kept]
    else if cut then [mark]
    else []
  }

  /** What one chunk leaves in the log when `previous` bytes came before it: the mark is set by the
      chunk that crosses the limit. */
  function Persisted(chunk: Chunk, limit: nat, previous: nat): seq<Payload> {
    SentBy(chunk, limit, previous, previous > limit)
  }

  function PersistedAll(chunks: seq<Chunk>, limit: nat): seq<Payload> {
    if chunks == [] then []
    else
      var init := chunks[..|chunks| - 1];
      PersistedAll(init, limit) + Persisted(chunks[|chunks| - 1], limit, |Flatten(init)|)
  }

  /** The counters of one execution task; the byte counter is 64 bits wide and wraps around. */
  class CaptureCounters {
    var captured: nat
    var truncated: bool

    constructor ()
      ensures captured == 0 && !truncated
    {
      captured, truncated := 0, false;
    }

    /** The payloads of the records that are handed to the capture writer, in order. */
    method CaptureOutput(chunk: Chunk, limit: nat) returns (sent: seq<Payload>)
      requires captured < TWO_64 && limit < TWO_64
      modifies this
      ensures captured == (old(captured) + |chunk.data|) % TWO_64
      ensures truncated <==> old(truncated) || |chunk.data| > Room(limit, old(captured))
      ensures sent == SentBy(chunk, limit, old(captured), old(truncated))
    {
      sent := [];
      var previous := captured;
      captured := (captured + |chunk.data|) % TWO_64;
      var persist := Min(Room(limit, previous), |chunk.data|);
      if persist > 0 {
        sent := sent + [Output(chunk.stream, chunk.data[..persist])];
      }
      if persist < |chunk.data| && !truncated {
        sent := sent + [CaptureTruncated(limit)];
      }
      truncated := truncated || persist < |chunk.data|;
    }

    /** The loop over the frames of one supervisor. */
    method CaptureEach(chunks: seq<Chunk>, limit: nat) returns (sent: seq<Payload>)
      requires captured == 0 && !truncated && limit < TWO_64
      requires |Flatten(chunks)| < TWO_64
      modifies this
      ensures sent == PersistedAll(chunks, limit)
      ensures truncated <==> |Flatten(chunks)| > limit
    {
      sent := [];
      var i := 0;
      assert chunks[..0] == [];
      while i < |chunks|
        invariant i <= |chunks| && sent == PersistedAll(chunks[..i], limit)
        invariant captured == |Flatten(chunks[..i])| < TWO_64
        invariant truncated <==> captured > limit
      {
        NextChunk(chunks, i, limit);
        NoWrap(captured + |chunks[i].data|);
        var more := CaptureOutput(chunks[i], limit);
        sent := sent + more;
        i := i + 1;
      }
      assert chunks[..i] == chunks;
    }
  }

  lemma NoWrap(total: nat)
    requires total < TWO_64
    ensures total % TWO_64 == total
  {
  }

  lemma NextChunk(chunks: seq<Chunk>, i: nat, limit: nat)
    requires i < |chunks|
    ensures |Flatten(chunks[..i])| + |chunks[i].data| == |Flatten(chunks[..i + 1])| <= |Flatten(chunks)|
    ensures PersistedAll(chunks[..i + 1], limit)
      == PersistedAll(chunks[..i], limit) + Persisted(chunks[i], limit, |Flatten(chunks[..i])|)
  {
    assert chunks[..i + 1][..i] == chunks[..i];
    FlattenMonotonic(chunks, i + 1);
  }

  lemma {:induction false} FlattenMonotonic(chunks: seq<Chunk>, i: nat)
    requires i <= |chunks|
    ensures |Flatten(chunks[..i])| <= |Flatten(chunks)|
    decreases |chunks|
  {
    if i < |chunks| {
      assert chunks[..|chunks| - 1][..i] == chunks[..i];
      FlattenMonotonic(chunks[..|chunks| - 1], i);
    } else {
      assert chunks[..i] == chunks;
    }
  }

  // ---------------------------------------------------------------------------------------------
  // What the persisted payloads are, without reference to chunk boundaries
  // ---------------------------------------------------------------------------------------------

  function BytesIn(payloads: seq<Payload>): seq<Byte> {
    if payloads == [] then []
    else
      var last := payloads[|payloads| - 1];
      BytesIn(payloads[..|payloads| - 1]) + (if last.Output? then last.data else [])
  }

  function StreamIn(payloads: seq<Payload>, stream: OutputStream): seq<Byte> {
    if payloads == [] then []
    else
      var last := payloads[|payloads| - 1];
      StreamIn(payloads[..|payloads| - 1], stream) + (if last.Output? && last.stream == stream then last.data else [])
  }

  lemma BytesInTail(payloads: seq<Payload>, one: Payload)
    ensures BytesIn(payloads + [one]) == BytesIn(payloads) + (if one.Output? then one.data else [])
    ensures forall stream ::
      (StreamIn(payloads + [one], stream) ==
       StreamIn(payloads, stream) + (if one.Output? && one.stream == stream then one.data else []))
  {
    assert (payloads + [one])[..|payloads|] == payloads;
  }

  lemma PersistedBytes(before: seq<Payload>, chunk: Chunk, limit: nat, previous: nat)
    ensures var kept := chunk.data[..Min(Room(limit, previous), |chunk.data|)];
      && BytesIn(before + Persisted(chunk, limit, previous)) == BytesIn(before) + kept
      && forall stream :: StreamIn(before + Persisted(chunk, limit, previous), stream)
           == StreamIn(before, stream) + (if chunk.stream == stream then kept else [])
  {
    var kept := chunk.data[..Min(Room(limit, previous), |chunk.data|)];
    var one := if kept != [] then before + [Output(chunk.stream, kept)] else before;
    var cut := previous <= limit < previous + |chunk.data|;
    if kept != [] { BytesInTail(before, Output(chunk.stream, kept)); }
    if cut { BytesInTail(one, CaptureTruncated(limit)); }
    assert before + Persisted(chunk, limit, previous) == if cut then one + [CaptureTruncated(limit)] else one;
  }

  /** The captured bytes are the first `limit` of the bytes the command wrote, or all of them. */
  lemma {:induction false} CapturedIsThePrefix(chunks: seq<Chunk>, limit: nat)
    ensures BytesIn(PersistedAll(chunks, limit)) == Flatten(chunks)[..Min(limit, |Flatten(chunks)|)]
    decreases |chunks|
  {
    if chunks != [] {
      var init, last := chunks[..|chunks| - 1], chunks[|chunks| - 1];
      CapturedIsThePrefix(init, limit);
      PersistedBytes(PersistedAll(init, limit), last, limit, |Flatten(init)|);
      CutOfConcat(Flatten(init), last.data, limit);
    }
  }

  lemma CutOfConcat(a: seq<Byte>, b: seq<Byte>, n: nat)
    ensures (a + b)[..Min(n, |a + b|)] == a[..Min(n, |a|)] + b[..Min(Room(n, |a|), |b|)]
  {
  }

  /** Each stream's captured bytes are a prefix of what the command wrote to it. */
  lemma {:induction false} StreamsKeepTheirOrder(chunks: seq<Chunk>, limit: nat, stream: OutputStream)
    ensures StreamIn(PersistedAll(chunks, limit), stream) <= StreamBytes(chunks, stream)
    ensures |Flatten(chunks)| <= limit ==> StreamIn(PersistedAll(chunks, limit), stream) == StreamBytes(chunks, stream)
    decreases |chunks|
  {
    if chunks != [] {
      var init, last := chunks[..|chunks| - 1], chunks[|chunks| - 1];
      StreamsKeepTheirOrder(init, limit, stream);
      PersistedBytes(PersistedAll(init, limit), last, limit, |Flatten(init)|);
      var kept := last.data[..Min(Room(limit, |Flatten(init)|), |last.data|)];
      if last.stream == stream {
        PrefixGrows(StreamIn(PersistedAll(init, limit), stream), StreamBytes(init, stream), kept, last.data);
      } else {
        PrefixGrows(StreamIn(PersistedAll(init, limit), stream), StreamBytes(init, stream), [], []);
      }
    }
  }

  lemma PrefixGrows(a: seq<Byte>, b: seq<Byte>, kept: seq<Byte>, data: seq<Byte>)
    requires a <= b && kept <= data && (a == b || kept == [])
    ensures a + kept <= b + data
  {
  }

  /** One truncation mark follows all captured output exactly when something was cut off. */
  lemma {:induction false} TruncationIsMarkedOnce(chunks: seq<Chunk>, limit: nat)
    ensures var payloads := PersistedAll(chunks, limit);
      if |Flatten(chunks)| > limit
      then && payloads != [] && payloads[|payloads| - 1] == CaptureTruncated(limit)
           && forall i | 0 <= i < |payloads| - 1 :: payloads[i].Output?
      else forall i | 0 <= i < |payloads| :: payloads[i].Output?
    decreases |chunks|
  {
    if chunks != [] {
      var init, last := chunks[..|chunks| - 1], chunks[|chunks| - 1];
      TruncationIsMarkedOnce(init, limit);
      var before, more := PersistedAll(init, limit), Persisted(last, limit, |Flatten(init)|);
      assert |Flatten(chunks)| == |Flatten(init)| + |last.data|;
      if |Flatten(init)| > limit {
        assert more == [] && before + more == before;
      } else if |Flatten(chunks)| > limit {
        assert more[|more| - 1] == CaptureTruncated(limit);
      }
    }
  }

  /** Past 2^64 bytes the counter has wrapped around: a chunk is captured again, beyond the limit,
      exactly when the wrapped counter is below the limit. */
  lemma WrappedCounterCapturesAgain(chunk: Chunk, limit: nat, total: nat)
    requires limit < TWO_64 <= total && chunk.data != []
    ensures BytesIn(Persisted(chunk, limit, total)) == []
    ensures BytesIn(Persisted(chunk, limit, total % TWO_64)) != [] <==> total % TWO_64 < limit
  {
    PersistedBytes([], chunk, limit, total);
    PersistedBytes([], chunk, limit, total % TWO_64);
    assert [] + Persisted(chunk, limit, total) == Persisted(chunk, limit, total);
    assert [] + Persisted(chunk, limit, total % TWO_64) == Persisted(chunk, limit, total % TWO_64);
  }
}
