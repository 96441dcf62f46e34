/** The `/generate` endpoint: request validation and the event stream of
    frames it writes (the `data:` field of server-sent events, section 9.2
    of the WHATWG HTML Living Standard, carrying JSON payloads). */
module Server {

  import opened Wrappers
  import opened Interface
  import Json
  import Service

  const MissingDataError := "Missing user or profile data"

  /** The parsed JSON body of a request; either field may be missing (or
      falsy, which the handler treats the same way). */
  datatype RequestBody = RequestBody(user: Option<UserData>, profile: Option<ProfileData>)

  /** `JSON.stringify({ chunk })`. */
  function ChunkPayload(chunk: string): (p: string)
    ensures forall i | 0 <= i < |p| :: p[i] != '\n' && p[i] != '\r'
  {
    "{\"chunk\":" + Json.Quote(chunk) + "}"
  }

  /** `JSON.stringify({ done: true })`. */
  const DonePayload := "{\"done\":true}"

  /** One event: a `data:` line followed by the blank line that dispatches it. */
  function Frame(payload: string): string
  {
    "data: " + payload + "\n\n"
  }

  function ChunkFrame(chunk: string): string
  {
    Frame(ChunkPayload(chunk))
  }

  const DoneFrame := Frame(DonePayload)

  /** One frame per chunk, in order. */
  function ChunkFrames(chunks: seq<string>): (frames: seq<string>)
    ensures |frames| == |chunks|
  {
    seq(|chunks|, i requires 0 <= i < |chunks| => ChunkFrame(chunks[i]))
  }

  /** Every frame the handler writes for a validated request. */
  function EventFrames(chunks: seq<string>): seq<string>
  {
    ChunkFrames(chunks) + [DoneFrame]
  }

  /** The JSON payloads of those frames, in the same order. */
  function EventPayloads(chunks: seq<string>): (ps: seq<string>)
    ensures |ps| == |chunks| + 1
  {
    seq(|chunks|, i requires 0 <= i < |chunks| => ChunkPayload(chunks[i])) + [DonePayload]
  }

  /** What the client observes: a JSON error with a status, or an event stream. */
  datatype Reply = Rejected(status: int, error: string) | EventStream(frames: seq<string>)

  /** The request the generator receives, if both fields are there. */
  function Validate(body: RequestBody): (r: Option<GenerateRequest>)
    ensures r.Some? <==> body.user.Some? && body.profile.Some?
    ensures r.Some? ==> r.value.user == body.user.value && r.value.profile == body.profile.value
  {
    if body.user.None? || body.profile.None? then None
    else Some(GenerateRequest(body.user.value, body.profile.value))
  }

  /** The reply to a `/generate` request, given what the upstream model does. */
  function Handle(body: RequestBody, upstream: Service.Upstream): Reply
  {
    match Validate(body)
    case None => Rejected(400, MissingDataError)
    case Some(req) => EventStream(EventFrames(Service.StreamOutput(req.user, req.profile, upstream)))
  }

  /** The Express response object, reduced to what the handler touches. */
  class Response {
    var statusCode: int
    /** The `error` field of a JSON body sent with `json()`. */
    var errorBody: Option<string>
    /** Everything sent with `write()`, in order. */
    var written: seq<string>
    var ended: bool

    /** A fresh response: status 200, nothing sent. */
    constructor ()
      ensures statusCode == 200 && errorBody == None && written == [] && !ended
    {
      statusCode, errorBody, written, ended := 200, None, [], false;
    }

    /** What has been observed on the wire so far. */
    function Observed(): Reply
      reads this
    {
      if errorBody.Some? then Rejected(statusCode, errorBody.value) else EventStream(written)
    }

    /** `res.status(code).json({ error })`: sends the body and ends the response. */
    method SendError(code: int, error: string)
      requires !ended
      modifies this
      ensures statusCode == code && errorBody == Some(error) && ended
      ensures written == old(written)
    {
      statusCode, errorBody, ended := code, Some(error), true;
    }

    /** `res.write(data)`. */
    method Write(data: string)
      requires !ended
      modifies this
      ensures written == old(written) + [data]
      ensures statusCode == old(statusCode) && errorBody == old(errorBody) && !ended
    {
      written := written + [data];
    }

    /** `res.end()`. */
    method End()
      requires !ended
      modifies this
      ensures ended
      ensures statusCode == old(statusCode) && errorBody == old(errorBody) && written == old(written)
    {
      ended := true;
    }
  }

  /** The `/generate` handler: rejects an incomplete request before running
      the generator; otherwise writes one frame per generated chunk, in
      order, then the done frame, then ends the response. */
  method PostGenerate(body: RequestBody, upstream: Service.Upstream, res: Response)
    requires res.statusCode == 200 && res.errorBody == None && res.written == [] && !res.ended
    modifies res
    ensures res.ended
    ensures res.Observed() == Handle(body, upstream)
    ensures Handle(body, upstream).Rejected? ==> res.written == []
    ensures Handle(body, upstream).EventStream? ==> res.statusCode == 200
  {
    if body.user.None? || body.profile.None? {
      res.SendError(400, MissingDataError);
      return;
    }
    var user, profile := body.user.value, body.profile.value;
    var chunks := Service.GenerateMessageStream(user, profile, upstream);
    var i := 0;
    while i < |chunks|
      invariant 0 <= i <= |chunks|
      invariant res.written == ChunkFrames(chunks[..i])
      invariant res.statusCode == 200 && res.errorBody == None && !res.ended
    {
      ChunkFramesSnoc(chunks, i);
      res.Write(ChunkFrame(chunks[i]));
      i := i + 1;
    }
    assert chunks[..i] == chunks;
    res.Write(DoneFrame);
    res.End();
    assert res.written == EventFrames(chunks);
  }

  lemma ChunkFramesSnoc(chunks: seq<string>, i: nat)
    requires i < |chunks|
    ensures ChunkFrames(chunks[..i + 1]) == ChunkFrames(chunks[..i]) + [ChunkFrame(chunks[i])]
  {
  }

  /** Frames and payloads both unfold one chunk at a time. */
  lemma EventStreamCons(chunks: seq<string>)
    requires chunks != []
    ensures EventFrames(chunks) == [ChunkFrame(chunks[0])] + EventFrames(chunks[1..])
    ensures EventPayloads(chunks) == [ChunkPayload(chunks[0])] + EventPayloads(chunks[1..])
  {
  }

  // ---- properties ----

  /** A request is rejected with 400 and the fixed error exactly when its
      user or profile is missing; otherwise it gets an event stream. */
  lemma RejectedIffMissing(body: RequestBody, upstream: Service.Upstream)
    ensures Handle(body, upstream).Rejected? <==> body.user.None? || body.profile.None?
    ensures Handle(body, upstream).Rejected? ==>
      Handle(body, upstream) == Rejected(400, MissingDataError)
  {
  }

  /** No chunk frame can be mistaken for the done frame. */
  lemma ChunkFrameIsNotDone(chunk: string)
    ensures ChunkFrame(chunk) != DoneFrame
  {
    assert ChunkFrame(chunk)[8] == 'c';
    assert DoneFrame[8] == 'd';
  }

  /** The frames of a stream: one per chunk, in generator order, then exactly
      one done frame, last; so there is one more frame than chunks. */
  lemma EventFramesShape(chunks: seq<string>)
    ensures var frames := EventFrames(chunks);
      |frames| == |chunks| + 1 &&
      frames[|chunks|] == DoneFrame &&
      forall i | 0 <= i < |chunks| :: frames[i] == ChunkFrame(chunks[i]) && frames[i] != DoneFrame
  {
    forall i | 0 <= i < |chunks|
      ensures ChunkFrame(chunks[i]) != DoneFrame
    {
      ChunkFrameIsNotDone(chunks[i]);
    }
  }

  /** Once validation passes, the stream always ends with the done frame,
      whether the upstream succeeded or failed, and carries one frame per
      generated chunk before it. */
  lemma AcceptedStreamEndsWithDone(body: RequestBody, upstream: Service.Upstream)
    requires body.user.Some? && body.profile.Some?
    ensures var chunks := Service.StreamOutput(body.user.value, body.profile.value, upstream);
      Handle(body, upstream) == EventStream(EventFrames(chunks)) &&
      |EventFrames(chunks)| == |chunks| + 1 &&
      EventFrames(chunks)[|chunks|] == DoneFrame
  {
  }
}
