/** The server-sent-events relay (`sse_proxy`): the upstream chunk stream is
    filtered and re-encoded, and a fixed terminator event is always sent
    last. */
module Sse {
  import opened Values
  import opened Bytes

  /** An upstream chunk: raw bytes (`bytes`/`bytearray`) or text. */
  datatype Chunk = Raw(data: seq<byte>) | Text(s: string)

  /** How the upstream iteration ended: normally, with `httpx.StreamClosed`
      (swallowed), or with any other error (propagated after the terminator). */
  datatype End = Finished | Closed | Failed(error: string)

  /** What the client receives: the events in order, and the error the
      stream ends with, if any. */
  datatype Relay = Relay(events: seq<seq<byte>>, raised: Option<string>)

  /** Python falsiness of a chunk: only the empty ones. */
  predicate Falsy(c: Chunk)
  {
    match c
    case Raw(data) => data == []
    case Text(s) => s == ""
  }

  /** The bytes a kept chunk is forwarded as: raw bytes unchanged, text
      UTF-8 encoded. */
  function Encoded(c: Chunk): (bs: seq<byte>)
    ensures c.Raw? ==> bs == c.data
    ensures !Falsy(c) ==> bs != []
  {
    match c
    case Raw(data) => data
    case Text(s) => Utf8Empty(s); Utf8(s)
  }

  /** The terminator `b"data: [DONE]\n\n"`. */
  function DoneEvent(): (bs: seq<byte>)
    ensures Decode(bs) == Some(Codes("data: [DONE]\n\n"))
  {
    Utf8RoundTrip("data: [DONE]\n\n");
    Utf8("data: [DONE]\n\n")
  }

  /** The body of the `async for`: empty chunks are skipped, the others
      encoded, in order. */
  function Forward(chunks: seq<Chunk>): seq<seq<byte>>
  {
    if chunks == [] then []
    else if Falsy(chunks[0]) then Forward(chunks[1..])
    else [Encoded(chunks[0])] + Forward(chunks[1..])
  }

  /** `event_iter`: the forwarded chunks, then the terminator from the
      `finally` block, whatever ended the upstream. */
  function EventStream(chunks: seq<Chunk>, end: End): (r: Relay)
    ensures |r.events| >= 1 && r.events[|r.events| - 1] == DoneEvent()
    ensures r.raised.Some? <==> end.Failed?
  {
    Relay(Forward(chunks) + [DoneEvent()], if end.Failed? then Some(end.error) else None)
  }

  /** Forwarding is chunk-by-chunk: the stream of a concatenation is the
      concatenation of the streams, so order is kept. */
  lemma {:induction false} ForwardAppend(a: seq<Chunk>, b: seq<Chunk>)
    ensures Forward(a + b) == Forward(a) + Forward(b)
  {
    if a == [] {
      assert a + b == b;
    } else {
      assert (a + b)[0] == a[0] && (a + b)[1..] == a[1..] + b;
      ForwardAppend(a[1..], b);
    }
  }

  /** A single chunk is dropped exactly when it is empty, and is otherwise
      forwarded as its encoding. */
  lemma ForwardOne(c: Chunk)
    ensures Forward([c]) == if Falsy(c) then [] else [Encoded(c)]
  {
    assert [c][1..] == [];
  }

  /** No forwarded event is empty. */
  lemma {:induction false} ForwardNonEmpty(chunks: seq<Chunk>)
    ensures forall i :: 0 <= i < |Forward(chunks)| ==> Forward(chunks)[i] != []
    ensures |Forward(chunks)| <= |chunks|
  {
    if chunks != [] {
      ForwardNonEmpty(chunks[1..]);
    }
  }

  /** A stream closed by the upstream is relayed exactly like one that ended
      normally: no error reaches the client. */
  lemma ClosedIsClean(chunks: seq<Chunk>)
    ensures EventStream(chunks, Closed) == EventStream(chunks, Finished)
    ensures EventStream(chunks, Closed).raised == None
  {
  }

  /** The relay does not look for an upstream terminator: one sent by the
      upstream is followed by a second. */
  lemma UpstreamDoneRepeated()
    ensures EventStream([Text("data: [DONE]\n\n")], Finished).events == [DoneEvent(), DoneEvent()]
  {
    ForwardOne(Text("data: [DONE]\n\n"));
  }

  datatype Response = Response(mediaType: string, headers: Dict<string, string>, body: Relay)

  const DefaultMediaType: string := "text/event-stream"

  /** The fixed headers of every relayed response. */
  const StreamHeaders: Dict<string, string> :=
    [("Cache-Control", "no-cache"), ("Connection", "keep-alive"), ("X-Accel-Buffering", "no")]

  /** The headers disable caching and proxy buffering and keep the
      connection open, each named once. */
  lemma StreamHeadersSay()
    ensures DistinctKeys(StreamHeaders)
    ensures Lookup(StreamHeaders, "Cache-Control") == Some("no-cache")
    ensures Lookup(StreamHeaders, "Connection") == Some("keep-alive")
    ensures Lookup(StreamHeaders, "X-Accel-Buffering") == Some("no")
  {
    var h := StreamHeaders;
    assert h[0].0 != h[1].0 by { assert h[0].0[1] != h[1].0[1]; }
    assert h[0].0 != h[2].0 by { assert h[0].0[0] != h[2].0[0]; }
    assert h[1].0 != h[2].0 by { assert h[1].0[0] != h[2].0[0]; }
    assert h[1..][0] == h[1] && h[1..][1..][0] == h[2];
  }

  /** `sse_proxy(iter_bytes, content_type)`: the given media type (event
      stream by default), the fixed headers, and the relayed events. */
  function SseProxy(contentType: Option<string>, chunks: seq<Chunk>, end: End): (r: Response)
    ensures r.mediaType == if contentType.Some? then contentType.value else DefaultMediaType
    ensures r.headers == StreamHeaders
    ensures r.body == EventStream(chunks, end)
  {
    Response(if contentType.Some? then contentType.value else DefaultMediaType, StreamHeaders,
             EventStream(chunks, end))
  }
}
