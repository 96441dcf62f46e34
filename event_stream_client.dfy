/** A reference reader for the event stream of `/generate`: it splits the
    body into events at blank lines, strips the `data: ` field name, and
    decodes each JSON payload. It accepts the subset of server-sent events
    the endpoint produces (one `data:` line per event, LF line ends) and is
    the inverse the frame encoding is proved against. */
module EventStreamClient {

  import opened Wrappers
  import opened Text
  import Json
  import Server

  datatype StreamEvent = ChunkEvent(text: string) | DoneEvent

  /** Index of the first line feed, or `|s|` when there is none. */
  function LineEnd(s: string): (i: nat)
    ensures i <= |s|
    ensures i < |s| ==> s[i] == '\n'
    ensures forall j | 0 <= j < i :: s[j] != '\n'
  {
    if s == [] || s[0] == '\n' then 0 else 1 + LineEnd(s[1..])
  }

  const FieldPrefix := "data: "

  /** The data values of the events in `body`, in order; `None` unless every
      event is a single `data: ` line closed by a blank line. */
  function DataValues(body: string): Option<seq<string>>
    decreases |body|
  {
    if body == [] then Some([])
    else
      var i := LineEnd(body);
      if i + 1 < |body| && body[i + 1] == '\n' && |FieldPrefix| <= i && body[..|FieldPrefix|] == FieldPrefix then
        match DataValues(body[i + 2..])
        case Some(rest) => Some([body[|FieldPrefix|..i]] + rest)
        case None => None
      else None
  }

  const ChunkPrefix := "{\"chunk\":\""
  const ChunkSuffix := "\"}"

  /** Decodes one payload: the done object, or a chunk object whose string
      is well-formed JSON. */
  function ParsePayload(p: string): Option<StreamEvent>
  {
    if p == Server.DonePayload then Some(DoneEvent)
    else if |ChunkPrefix| + |ChunkSuffix| <= |p| && p[..|ChunkPrefix|] == ChunkPrefix &&
            p[|p| - |ChunkSuffix|..] == ChunkSuffix then
      match Json.Unescape(p[|ChunkPrefix|..|p| - |ChunkSuffix|])
      case Some(text) => Some(ChunkEvent(text))
      case None => None
    else None
  }

  /** The chunk texts of a payload sequence that is chunks followed by
      exactly one done event, and nothing after it. */
  function CollectChunks(payloads: seq<string>): Option<seq<string>>
  {
    if payloads == [] then None
    else
      match ParsePayload(payloads[0])
      case Some(DoneEvent) => if |payloads| == 1 then Some([]) else None
      case Some(ChunkEvent(text)) =>
        (match CollectChunks(payloads[1..])
         case Some(rest) => Some([text] + rest)
         case None => None)
      case None => None
  }

  /** The chunks carried by a whole response body. */
  function ReadChunks(body: string): Option<seq<string>>
  {
    match DataValues(body)
    case Some(payloads) => CollectChunks(payloads)
    case None => None
  }

  /** The message a client assembles: the concatenation of the chunks. */
  function ReadMessage(body: string): Option<string>
  {
    match ReadChunks(body)
    case Some(chunks) => Some(Concat(chunks))
    case None => None
  }

  // ---- round trip ----

  /** Reading one frame whose payload has no line feed yields that payload
      and continues with what follows the frame. */
  lemma DataValuesFrame(payload: string, rest: string)
    requires forall i | 0 <= i < |payload| :: payload[i] != '\n'
    ensures DataValues(Server.Frame(payload) + rest) ==
      match DataValues(rest)
      case Some(more) => Some([payload] + more)
      case None => None
  {
    var body := Server.Frame(payload) + rest;
    var i := |FieldPrefix| + |payload|;
    assert body[i] == '\n' && body[i + 1] == '\n';
    assert forall j | 0 <= j < i :: body[j] != '\n' by {
      forall j | 0 <= j < i ensures body[j] != '\n' {
        if j >= |FieldPrefix| {
          assert body[j] == payload[j - |FieldPrefix|];
        }
      }
    }
    assert LineEnd(body) == i;
    assert body[..|FieldPrefix|] == FieldPrefix;
    assert body[|FieldPrefix|..i] == payload;
    assert body[i + 2..] == rest;
  }

  /** The concatenated frames of a stream read back as its payloads. */
  lemma {:induction false} DataValuesOfStream(chunks: seq<string>)
    ensures DataValues(Concat(Server.EventFrames(chunks))) == Some(Server.EventPayloads(chunks))
  {
    if chunks == [] {
      var frames := Server.EventFrames(chunks);
      assert frames == [Server.DoneFrame];
      assert frames[1..] == [];
      assert Concat(frames) == Server.DoneFrame + "";
      DataValuesFrame(Server.DonePayload, "");
      assert DataValues("") == Some([]);
      assert Server.Frame(Server.DonePayload) + "" == Server.DoneFrame;
      assert [Server.DonePayload] + [] == [Server.DonePayload];
      assert Server.EventPayloads(chunks) == [Server.DonePayload];
    } else {
      var frames := Server.EventFrames(chunks);
      Server.EventStreamCons(chunks);
      assert frames[1..] == Server.EventFrames(chunks[1..]);
      DataValuesFrame(Server.ChunkPayload(chunks[0]), Concat(Server.EventFrames(chunks[1..])));
      DataValuesOfStream(chunks[1..]);
    }
  }

  /** A chunk payload decodes to its chunk. */
  lemma ChunkPayloadParses(chunk: string)
    ensures ParsePayload(Server.ChunkPayload(chunk)) == Some(ChunkEvent(chunk))
  {
    var p := Server.ChunkPayload(chunk);
    var body := Json.Escape(chunk);
    assert p == ChunkPrefix + body + ChunkSuffix;
    assert p != Server.DonePayload by {
      assert p[2] == 'c';
    }
    assert p[..|ChunkPrefix|] == ChunkPrefix;
    assert p[|p| - |ChunkSuffix|..] == ChunkSuffix;
    assert p[|ChunkPrefix|..|p| - |ChunkSuffix|] == body;
    Json.UnescapeEscape(chunk);
  }

  /** The payloads of a stream collect back into its chunks. */
  lemma {:induction false} CollectPayloads(chunks: seq<string>)
    ensures CollectChunks(Server.EventPayloads(chunks)) == Some(chunks)
  {
    if chunks == [] {
      assert ParsePayload(Server.DonePayload) == Some(DoneEvent);
    } else {
      ChunkPayloadParses(chunks[0]);
      CollectPayloads(chunks[1..]);
      Server.EventStreamCons(chunks);
      assert [chunks[0]] + chunks[1..] == chunks;
    }
  }

  /** Round trip: reading the body the handler writes for some chunks
      recovers exactly those chunks, and the assembled message is their
      concatenation. */
  lemma StreamRoundTrip(chunks: seq<string>)
    ensures ReadChunks(Concat(Server.EventFrames(chunks))) == Some(chunks)
    ensures ReadMessage(Concat(Server.EventFrames(chunks))) == Some(Concat(chunks))
  {
    DataValuesOfStream(chunks);
    CollectPayloads(chunks);
  }
}
