/**
 * The OpenAI Realtime provider: a table of open backend sessions keyed by
 * `device_id:session_id`, the session handshake, the three messages that submit a clip, and
 * the relay that turns the backend's event stream into numbered response chunks.
 *
 * A websocket is a `Socket` holding what it has sent and the replies still to arrive; the
 * network delivers those replies, so they are an input of the model.
 */
module Realtime {
  import opened Wrappers
  import opened Json
  import Base64
  import AIBase

  const DefaultModel := "gpt-4o-realtime-preview"
  const DefaultBaseUrl := "wss://api.openai.com/v1/realtime"
  const DefaultVoice := "alloy"
  const DefaultInstructions := "You are a helpful AI assistant responding to voice commands from IoT devices."
  const MissingKeyText := "OpenAI API key is required"

  // ---------------------------------------------------------------------------------------
  // Errors
  // ---------------------------------------------------------------------------------------

  /** Why processing failed. */
  datatype Cause =
    | ConnectFailed                    // `_create_websocket_connection` raised
    | MissingConfig                    // `additional_config` is None, so `.get` raises
    | ReplyTimeout                     // no reply to `session.update` in time
    | MalformedReply                   // the reply is not JSON or not a JSON object
    | SessionRejected(reply: Value)    // the reply's type is not `session.created`
    | MalformedEvent                   // a stream event that makes the relay raise
    | BadAudio(e: Base64.DecodeError)  // an audio delta that is not valid base64
    | ApiError(message: Value)         // an `error` event, with `error.message`

  /** `AIServiceConnectionError` ("Connection lost") and `AIServiceProcessingError` ("Processing failed"). */
  datatype ServiceError = ConnectionLost | ProcessingFailed(cause: Cause)

  // ---------------------------------------------------------------------------------------
  // Configuration and features
  // ---------------------------------------------------------------------------------------

  datatype Settings = Settings(apiKey: Value, model: Value, baseUrl: Value)

  /** The checks and lookups of `__init__`: a missing or falsy `api_key` raises ValueError. */
  function ReadSettings(config: map<string, Value>): (r: Result<Settings, string>)
    ensures r.Failure? <==> Falsy(Get(config, "api_key", Null))
    ensures r.Failure? ==> r.error == MissingKeyText
    ensures r.Success? ==> "api_key" in config && r.value.apiKey == config["api_key"]
    ensures r.Success? ==> r.value.model == Get(config, "model", Str(DefaultModel))
    ensures r.Success? ==> r.value.baseUrl == Get(config, "base_url", Str(DefaultBaseUrl))
  {
    var key := Get(config, "api_key", Null);
    if Falsy(key) then Failure(MissingKeyText)
    else Success(Settings(key, Get(config, "model", Str(DefaultModel)), Get(config, "base_url", Str(DefaultBaseUrl))))
  }

  /** This provider's `get_supported_features`: streaming, voice activity and language detection. */
  function SupportedFeatures(): (f: map<string, bool>)
    ensures f.Keys == AIBase.FeatureNames
    ensures forall k :: k in f ==> (f[k] <==> k in {"streaming", "voice_activity_detection", "language_detection"})
  {
    map["streaming" := true, "voice_activity_detection" := true, "speaker_diarization" := false,
        "language_detection" := true, "real_time_translation" := false]
  }

  // ---------------------------------------------------------------------------------------
  // Sockets
  // ---------------------------------------------------------------------------------------

  /** What `asyncio.wait_for(websocket.recv(), timeout)` produces. */
  datatype Receipt = Frame(payload: Payload) | TimedOut | Closed

  /** The next receipt of a socket, and its closed flag and pending replies afterwards. */
  function Take(closed: bool, pending: seq<Receipt>): (r: (Receipt, bool, seq<Receipt>))
    ensures r.0.Frame? ==> !closed && pending != [] && r.2 == pending[1..] && !r.1
    ensures r.1 <==> closed || r.0.Closed?
  {
    if closed then (Closed, true, pending)
    else if pending == [] then (TimedOut, false, [])
    else (pending[0], pending[0].Closed?, pending[1..])
  }

  /** A websocket to the backend. */
  class Socket {
    var closed: bool
    var sent: seq<Value>
    var pending: seq<Receipt>

    constructor (incoming: seq<Receipt>)
      ensures !closed && sent == [] && pending == incoming
    {
      closed := false;
      sent := [];
      pending := incoming;
    }

    /** `websocket.send(json.dumps(msg))`: raises ConnectionClosed, sending nothing, on a closed socket. */
    method Send(msg: Value) returns (ok: bool)
      modifies this
      ensures ok == !old(closed)
      ensures sent == if ok then old(sent) + [msg] else old(sent)
      ensures closed == old(closed) && pending == old(pending)
    {
      ok := !closed;
      if ok {
        sent := sent + [msg];
      }
    }

    /** `await asyncio.wait_for(websocket.recv(), timeout)`; with nothing pending the wait times out. */
    method Recv() returns (r: Receipt)
      modifies this
      ensures (r, closed, pending) == Take(old(closed), old(pending))
      ensures sent == old(sent)
    {
      if closed {
        r := Closed;
      } else if pending == [] {
        r := TimedOut;
      } else {
        r := pending[0];
        pending := pending[1..];
        closed := r.Closed?;
      }
    }

    /** `await ws.close()`. */
    method Close()
      modifies this
      ensures closed && sent == old(sent) && pending == old(pending)
    {
      closed := true;
    }
  }

  /** An entry of `_active_sessions` (its `created_at` time is not modelled). */
  datatype Session = Session(ws: Socket, deviceId: string, sessionId: string)

  function SocketsOf(sessions: map<string, Session>): set<Socket> {
    set k | k in sessions :: sessions[k].ws
  }

  // ---------------------------------------------------------------------------------------
  // Messages to the backend
  // ---------------------------------------------------------------------------------------

  /** `data.get("type")` on a decoded reply. */
  function TypeOf(v: Value): Value {
    if v.Obj? then Get(v.fields, "type", Null) else Null
  }

  /** `audio_request.voice or "alloy"`. */
  function VoiceOf(req: AIBase.AudioRequest): (voice: string)
    ensures voice == (if req.voice.None? || req.voice.value == "" then DefaultVoice else req.voice.value)
    ensures voice != ""
  {
    match req.voice
    case Some(v) => if v != "" then v else DefaultVoice
    case None => DefaultVoice
  }

  /** The `session.update` message `_initialize_session` sends. */
  function SessionUpdate(req: AIBase.AudioRequest): (msg: Value)
    requires req.additionalConfig.Some?
    ensures TypeOf(msg) == Str("session.update")
  {
    var session := map[
      "modalities" := Arr([Str("text"), Str("audio")]),
      "instructions" := Get(req.additionalConfig.value, "instructions", Str(DefaultInstructions)),
      "voice" := Str(VoiceOf(req)),
      "input_audio_format" := Str("pcm16"),
      "output_audio_format" := Str("pcm16"),
      "input_audio_transcription" := Obj(map["model" := Str("whisper-1")])];
    Obj(map["session" := Obj(session), "type" := Str("session.update")])
  }

  /** The three messages of `_send_audio_data`; the PCM16 conversion is the identity. */
  function AudioMessages(audio: seq<Base64.byte>): seq<Value> {
    [Obj(map["audio" := Str(Base64.Encode(audio)), "type" := Str("input_audio_buffer.append")]),
     Obj(map["type" := Str("input_audio_buffer.commit")]),
     Obj(map["type" := Str("response.create")])]
  }

  /** Append, commit, create, in that order, and the appended audio decodes to the clip. */
  lemma AudioMessagesOrder(audio: seq<Base64.byte>)
    ensures var ms := AudioMessages(audio);
      && |ms| == 3
      && TypeOf(ms[0]) == Str("input_audio_buffer.append")
      && TypeOf(ms[1]) == Str("input_audio_buffer.commit")
      && TypeOf(ms[2]) == Str("response.create")
      && ms[0].Obj? && "audio" in ms[0].fields && ms[0].fields["audio"].Str?
      && Base64.Decode(ms[0].fields["audio"].s) == Success(audio)
  {
    Base64.DecodeEncode(audio);
  }

  // ---------------------------------------------------------------------------------------
  // The handshake
  // ---------------------------------------------------------------------------------------

  /** The check on the reply to `session.update`: it must decode to an object whose type is `session.created`. */
  function SessionCreated(p: Payload): (r: Option<Cause>)
    ensures r.None? <==> p.Parsed? && p.doc.Obj? && TypeOf(p.doc) == Str("session.created")
  {
    match p
    case Unparsable => Some(MalformedReply)
    case Parsed(v) =>
      if !v.Obj? then Some(MalformedReply)
      else if TypeOf(v) != Str("session.created") then Some(SessionRejected(v))
      else None
  }

  /** The outcome of `_initialize_session` on a socket in the given state. */
  function InitOutcome(req: AIBase.AudioRequest, closed: bool, pending: seq<Receipt>): (r: Option<ServiceError>)
    ensures r.None? <==>
              && req.additionalConfig.Some? && !closed && pending != [] && pending[0].Frame?
              && pending[0].payload.Parsed? && pending[0].payload.doc.Obj?
              && TypeOf(pending[0].payload.doc) == Str("session.created")
    ensures r == Some(ConnectionLost) ==>
              req.additionalConfig.Some? && (closed || (pending != [] && pending[0].Closed?))
  {
    if req.additionalConfig.None? then Some(ProcessingFailed(MissingConfig))
    else if closed then Some(ConnectionLost)
    else match Take(false, pending).0
      case TimedOut => Some(ProcessingFailed(ReplyTimeout))
      case Closed => Some(ConnectionLost)
      case Frame(p) =>
        match SessionCreated(p)
        case Some(c) => Some(ProcessingFailed(c))
        case None => None
  }

  /** What `health_check` decides from the reply it receives: healthy exactly when the type is `session.created`. */
  function HealthReply(r: Receipt): (healthy: bool)
    ensures healthy <==> r.Frame? && r.payload.Parsed? && TypeOf(r.payload.doc) == Str("session.created")
  {
    r.Frame? && r.payload.Parsed? && TypeOf(r.payload.doc) == Str("session.created")
  }

  /** The health check accepts exactly the replies that let a session be created. */
  lemma HealthAgreesWithHandshake(req: AIBase.AudioRequest, r: Receipt, rest: seq<Receipt>)
    requires req.additionalConfig.Some?
    ensures HealthReply(r) <==> InitOutcome(req, false, [r] + rest).None?
  {
    assert Take(false, [r] + rest).0 == r;
  }

  // ---------------------------------------------------------------------------------------
  // The relay
  // ---------------------------------------------------------------------------------------

  /** A dict yielded by `_receive_audio_responses`; `kind` is its `metadata["type"]`. */
  datatype Chunk = Chunk(audio: seq<Base64.byte>, transcript: string, kind: string)

  /** What the receive loop does with one decoded event. */
  datatype Action = Emit(chunk: Chunk) | Skip | Stop | Fail(cause: Cause)

  function AudioDelta(delta: Value): (a: Action)
    ensures a.Emit? ==> a.chunk.transcript == "" && a.chunk.kind == "audio_delta"
    ensures a.Skip? <==> Falsy(delta)
  {
    if Falsy(delta) then Skip
    else if !delta.Str? then Fail(MalformedEvent)
    else match Base64.Decode(delta.s)
      case Success(bytes) => Emit(Chunk(bytes, "", "audio_delta"))
      case Failure(e) => Fail(BadAudio(e))
  }

  function TranscriptDelta(delta: Value): (a: Action)
    ensures a.Emit? ==> a.chunk.audio == [] && a.chunk.transcript != "" && a.chunk.kind == "transcript_delta"
    ensures a.Skip? <==> Falsy(delta)
  {
    if Falsy(delta) then Skip
    else if delta.Str? then Emit(Chunk([], delta.s, "transcript_delta"))
    else Fail(MalformedEvent)
  }

  function ErrorEvent(error: Value): (a: Action)
    ensures a.Fail?
  {
    if error.Obj? then Fail(ApiError(Get(error.fields, "message", Str("Unknown error"))))
    else Fail(MalformedEvent)
  }

  /** The body of the receive loop for one received payload. */
  function Classify(p: Payload): (a: Action)
    ensures a.Emit? ==> && (a.chunk.kind == "audio_delta" ==> a.chunk.transcript == "")
                        && (a.chunk.kind == "transcript_delta" ==> a.chunk.audio == [] && a.chunk.transcript != "")
                        && (a.chunk.kind == "audio_delta" || a.chunk.kind == "transcript_delta")
  {
    match p
    case Unparsable => Fail(MalformedEvent)
    case Parsed(v) =>
      if !v.Obj? then Fail(MalformedEvent)
      else
        var t := TypeOf(v);
        if t == Str("response.audio.delta") then AudioDelta(Get(v.fields, "delta", Str("")))
        else if t == Str("response.audio_transcript.delta") then TranscriptDelta(Get(v.fields, "delta", Str("")))
        else if t == Str("response.done") then Stop
        else if t == Str("error") then ErrorEvent(Get(v.fields, "error", Obj(map[])))
        else Skip
  }

  /** The chunks the loop yields, the error it raises, and the socket it leaves. */
  datatype Relayed = Relayed(chunks: seq<Chunk>, failure: Option<Cause>, closed: bool, rest: seq<Receipt>)

  function Prefixed(cs: seq<Chunk>, o: Relayed): Relayed {
    o.(chunks := cs + o.chunks)
  }

  lemma PrefixedAssoc(a: seq<Chunk>, b: seq<Chunk>, o: Relayed)
    ensures Prefixed(a, Prefixed(b, o)) == Prefixed(a + b, o)
  {
    assert a + (b + o.chunks) == (a + b) + o.chunks;
  }

  /** A chunk carries either non-empty text and no audio, or audio and no text. */
  predicate ChunkShape(c: Chunk) {
    || (c.kind == "audio_delta" && c.transcript == "")
    || (c.kind == "transcript_delta" && c.audio == [] && c.transcript != "")
  }

  /** `_receive_audio_responses` on a socket in the given state. */
  function Relay(closed: bool, pending: seq<Receipt>): (o: Relayed)
    ensures |o.rest| <= |pending| && o.rest == pending[|pending| - |o.rest|..]
    ensures !closed && pending != [] ==> |o.rest| < |pending|
    ensures forall i :: 0 <= i < |o.chunks| ==> ChunkShape(o.chunks[i])
    decreases |pending|
  {
    if closed then Relayed([], None, true, pending)
    else if pending == [] then Relayed([], None, false, [])
    else match pending[0]
      case TimedOut => Relayed([], None, false, pending[1..])
      case Closed => Relayed([], None, true, pending[1..])
      case Frame(p) =>
        match Classify(p)
        case Emit(c) => Prefixed([c], Relay(false, pending[1..]))
        case Skip => Relay(false, pending[1..])
        case Stop => Relayed([], None, false, pending[1..])
        case Fail(e) => Relayed([], Some(e), false, pending[1..])
  }

  /** One turn of the receive loop: what the next receipt does to the relay's outcome. */
  lemma RelayStep(closed: bool, pending: seq<Receipt>)
    ensures var t := Take(closed, pending);
      var o := Relay(closed, pending);
      match t.0
      case Frame(p) =>
        (match Classify(p)
         case Emit(c) => o == Prefixed([c], Relay(t.1, t.2))
         case Skip => o == Relay(t.1, t.2)
         case Stop => o == Relayed([], None, t.1, t.2)
         case Fail(e) => o == Relayed([], Some(e), t.1, t.2))
      case _ => o == Relayed([], None, t.1, t.2)
  {
  }

  /** The loop stops inside `pending` rather than by waiting for more. */
  predicate Ends(pending: seq<Receipt>)
    decreases |pending|
  {
    pending != [] &&
    match pending[0]
    case Frame(p) => (Classify(p).Emit? || Classify(p).Skip?) ==> Ends(pending[1..])
    case _ => true
  }

  /** Once the loop has stopped, no later event is consumed or has any effect. */
  lemma {:induction false} RelayIgnoresLater(pending: seq<Receipt>, later: seq<Receipt>)
    requires Ends(pending)
    ensures Relay(false, pending + later) == Relay(false, pending).(rest := Relay(false, pending).rest + later)
    decreases |pending|
  {
    assert (pending + later)[0] == pending[0];
    assert (pending + later)[1..] == pending[1..] + later;
    match pending[0]
    case Frame(p) =>
      if Classify(p).Emit? || Classify(p).Skip? {
        RelayIgnoresLater(pending[1..], later);
      }
    case _ =>
  }

  /** `response.done` ends the stream: what follows it is never read. */
  lemma DoneEndsStream(done: map<string, Value>, later: seq<Receipt>)
    requires Get(done, "type", Null) == Str("response.done")
    ensures Relay(false, [Frame(Parsed(Obj(done)))] + later) == Relayed([], None, false, later)
  {
    assert ([Frame(Parsed(Obj(done)))] + later)[1..] == later;
  }

  /** An event of an unrecognised type yields nothing and the loop goes on. */
  lemma UnknownEventSkipped(event: map<string, Value>, later: seq<Receipt>)
    requires Get(event, "type", Null) !in
      {Str("response.audio.delta"), Str("response.audio_transcript.delta"), Str("response.done"), Str("error")}
    ensures Relay(false, [Frame(Parsed(Obj(event)))] + later) == Relay(false, later)
  {
    var t := TypeOf(Obj(event));
    assert t != Str("response.audio.delta") && t != Str("response.audio_transcript.delta");
    assert t != Str("response.done") && t != Str("error");
    assert Classify(Parsed(Obj(event))) == Skip;
    assert ([Frame(Parsed(Obj(event)))] + later)[1..] == later;
  }

  /** A non-empty audio delta yields one chunk with the decoded audio and no text; an empty one yields nothing. */
  lemma AudioDeltaYields(event: map<string, Value>, later: seq<Receipt>)
    requires Get(event, "type", Null) == Str("response.audio.delta")
    ensures var delta := Get(event, "delta", Str(""));
      var o := Relay(false, [Frame(Parsed(Obj(event)))] + later);
      && (Falsy(delta) ==> o == Relay(false, later))
      && (delta.Str? && delta.s != "" && Base64.Decode(delta.s).Success? ==>
            o == Prefixed([Chunk(Base64.Decode(delta.s).value, "", "audio_delta")], Relay(false, later)))
  {
    assert ([Frame(Parsed(Obj(event)))] + later)[1..] == later;
  }

  /** A non-empty transcript delta yields one chunk with that text and no audio; an empty one yields nothing. */
  lemma TranscriptDeltaYields(event: map<string, Value>, later: seq<Receipt>)
    requires Get(event, "type", Null) == Str("response.audio_transcript.delta")
    ensures var delta := Get(event, "delta", Str(""));
      var o := Relay(false, [Frame(Parsed(Obj(event)))] + later);
      && (Falsy(delta) ==> o == Relay(false, later))
      && (delta.Str? && delta.s != "" ==> o == Prefixed([Chunk([], delta.s, "transcript_delta")], Relay(false, later)))
  {
    assert ([Frame(Parsed(Obj(event)))] + later)[1..] == later;
  }

  /** An `error` event raises with `error.message`, or "Unknown error" when there is none; nothing after it is read. */
  lemma ErrorEventRaises(event: map<string, Value>, message: Value, later: seq<Receipt>)
    requires Get(event, "type", Null) == Str("error")
    requires Get(event, "error", Obj(map[])).Obj?
    requires message == Get(Get(event, "error", Obj(map[])).fields, "message", Str("Unknown error"))
    ensures Relay(false, [Frame(Parsed(Obj(event)))] + later) == Relayed([], Some(ApiError(message)), false, later)
  {
    assert ([Frame(Parsed(Obj(event)))] + later)[1..] == later;
  }

  /** The bare event `{"type": "error"}` raises "Unknown error". */
  lemma BareErrorEventRaises(later: seq<Receipt>)
    ensures Relay(false, [Frame(Parsed(Obj(map["type" := Str("error")])))] + later)
            == Relayed([], Some(ApiError(Str("Unknown error"))), false, later)
  {
    var event := map["type" := Str("error")];
    assert "error" !in event;
    ErrorEventRaises(event, Str("Unknown error"), later);
  }

  /** A timeout or a closed connection ends the stream normally, with no error. */
  lemma QuietEndIsNormal(r: Receipt, later: seq<Receipt>)
    requires r.TimedOut? || r.Closed?
    ensures Relay(false, [r] + later).chunks == [] && Relay(false, [r] + later).failure == None
    ensures Relay(false, [r] + later).rest == later
  {
    assert ([r] + later)[1..] == later;
  }

  // ---------------------------------------------------------------------------------------
  // Numbering
  // ---------------------------------------------------------------------------------------

  /** The `AudioResponse` yielded for the `chunkId`-th chunk (elapsed time and cost are inputs). */
  function Respond(c: Chunk, chunkId: nat, sessionId: string, elapsedMs: real, cost: real): AIBase.AudioResponse {
    AIBase.AudioResponse(c.audio, "mp3", c.transcript, elapsedMs, cost, sessionId, chunkId, 1,
                         Some(map["type" := Str(c.kind)]))
  }

  function Numbered(cs: seq<Chunk>, sessionId: string, elapsedAt: nat -> real, cost: real): (rs: seq<AIBase.AudioResponse>)
    ensures |rs| == |cs|
    ensures forall i :: 0 <= i < |cs| ==> rs[i] == Respond(cs[i], i, sessionId, elapsedAt(i), cost)
  {
    seq(|cs|, i requires 0 <= i < |cs| => Respond(cs[i], i, sessionId, elapsedAt(i), cost))
  }

  /** Chunks are numbered 0, 1, 2, ... in order, one of one, as "mp3", for the request's session, with their content. */
  lemma NumberedFields(cs: seq<Chunk>, sessionId: string, elapsedAt: nat -> real, cost: real, i: nat)
    requires i < |cs|
    ensures var r := Numbered(cs, sessionId, elapsedAt, cost)[i];
      && r.chunkId == i && r.totalChunks == 1 && r.format == "mp3" && r.sessionId == sessionId
      && r.audioData == cs[i].audio && r.transcript == cs[i].transcript
      && r.metadata == Some(map["type" := Str(cs[i].kind)])
  {
  }

  /** The whole of `process_audio_stream` after the session is ready, on the socket's pending replies. */
  function Served(req: AIBase.AudioRequest, pending: seq<Receipt>, elapsedAt: nat -> real, cost: real)
    : (r: (seq<AIBase.AudioResponse>, Option<ServiceError>))
    ensures var o := Relay(false, pending);
      && |r.0| == |o.chunks|
      && (forall i :: 0 <= i < |r.0| ==>
            && r.0[i].chunkId == i && r.0[i].sessionId == req.sessionId
            && r.0[i].audioData == o.chunks[i].audio && r.0[i].transcript == o.chunks[i].transcript)
      && (r.1.Some? <==> o.failure.Some?)
      && r.1 != Some(ConnectionLost)
  {
    var o := Relay(false, pending);
    (Numbered(o.chunks, req.sessionId, elapsedAt, cost),
     match o.failure case Some(c) => Some(ProcessingFailed(c)) case None => None)
  }

  /** A socket whose sent messages, pending replies and closed flag are as they were. */
  twostate predicate Kept(s: Socket)
    reads s
  {
    s.sent == old(s.sent) && s.pending == old(s.pending) && s.closed == old(s.closed)
  }

  // ---------------------------------------------------------------------------------------
  // The service
  // ---------------------------------------------------------------------------------------

  /** `OpenAIRealtimeService`, once `__init__` has accepted its configuration. */
  class Service {
    const settings: Settings
    var sessions: map<string, Session>

    constructor (s: Settings)
      ensures settings == s && sessions == map[]
    {
      settings := s;
      sessions := map[];
    }

    /** `_initialize_session`: send the session configuration, then insist on `session.created`. */
    static method InitializeSession(ws: Socket, req: AIBase.AudioRequest) returns (err: Option<ServiceError>)
      modifies ws
      ensures err == InitOutcome(req, old(ws.closed), old(ws.pending))
      ensures req.additionalConfig.None? || old(ws.closed) ==> Kept(ws)
      ensures req.additionalConfig.Some? && !old(ws.closed) ==>
                && ws.sent == old(ws.sent) + [SessionUpdate(req)]
                && (ws.closed, ws.pending) == (Take(false, old(ws.pending)).1, Take(false, old(ws.pending)).2)
      ensures err.None? ==> !ws.closed
    {
      if req.additionalConfig.None? {
        return Some(ProcessingFailed(MissingConfig));
      }
      var ok := ws.Send(SessionUpdate(req));
      if !ok {
        return Some(ConnectionLost);
      }
      var reply := ws.Recv();
      match reply {
        case TimedOut => err := Some(ProcessingFailed(ReplyTimeout));
        case Closed => err := Some(ConnectionLost);
        case Frame(p) =>
          var check := SessionCreated(p);
          err := if check.Some? then Some(ProcessingFailed(check.value)) else None;
      }
    }

    /**
     * `_get_or_create_session`: the cached entry when its socket is open, otherwise a new
     * session on `conn` (null when the connection cannot be opened), stored only once the
     * handshake succeeds.
     */
    method GetOrCreateSession(req: AIBase.AudioRequest, conn: Socket?) returns (ws: Socket?, err: Option<ServiceError>)
      modifies this, conn
      ensures var key := AIBase.SessionKey(req.deviceId, req.sessionId);
        key in old(sessions) && !old(sessions[key].ws.closed) ==>
          && ws == old(sessions[key].ws) && err.None? && sessions == old(sessions)
          && (conn != null ==> conn.sent == old(conn.sent) && conn.pending == old(conn.pending)
                                && conn.closed == old(conn.closed))
      ensures var key := AIBase.SessionKey(req.deviceId, req.sessionId);
        !(key in old(sessions) && !old(sessions[key].ws.closed)) && conn == null ==>
          err == Some(ProcessingFailed(ConnectFailed)) && sessions == old(sessions)
      ensures var key := AIBase.SessionKey(req.deviceId, req.sessionId);
        !(key in old(sessions) && !old(sessions[key].ws.closed)) && conn != null ==>
          && err == InitOutcome(req, old(conn.closed), old(conn.pending))
          && (err.None? ==> ws == conn && sessions == old(sessions)[key := Session(conn, req.deviceId, req.sessionId)])
          && (err.Some? ==> sessions == old(sessions))
          && (req.additionalConfig.Some? && !old(conn.closed) ==>
                && conn.sent == old(conn.sent) + [SessionUpdate(req)]
                && conn.closed == Take(false, old(conn.pending)).1
                && conn.pending == Take(false, old(conn.pending)).2)
          && (req.additionalConfig.None? || old(conn.closed) ==> Kept(conn))
      ensures err.None? ==> ws != null && !ws.closed && (ws == conn || ws in SocketsOf(old(sessions)))
    {
      ws := null;
      var key := AIBase.SessionKey(req.deviceId, req.sessionId);
      if key in sessions {
        var entry := sessions[key];
        if !entry.ws.closed {
          return entry.ws, None;
        }
      }
      if conn == null {
        return null, Some(ProcessingFailed(ConnectFailed));
      }
      err := InitializeSession(conn, req);
      if err.None? {
        sessions := sessions[key := Session(conn, req.deviceId, req.sessionId)];
        ws := conn;
      }
    }

    /** `_send_audio_data`: append the clip as base64, commit the buffer, ask for a response. */
    static method SendAudioData(ws: Socket, audio: seq<Base64.byte>) returns (ok: bool)
      modifies ws
      ensures ok == !old(ws.closed)
      ensures ws.sent == old(ws.sent) + (if ok then AudioMessages(audio) else [])
      ensures ws.closed == old(ws.closed) && ws.pending == old(ws.pending)
    {
      var msgs := AudioMessages(audio);
      ok := ws.Send(msgs[0]);
      if ok {
        var ok1 := ws.Send(msgs[1]);
        var ok2 := ws.Send(msgs[2]);
        assert ws.sent == old(ws.sent) + [msgs[0], msgs[1], msgs[2]];
      }
    }

    /** `_receive_audio_responses`: read events until one ends the stream. */
    static method ReceiveAudioResponses(ws: Socket) returns (chunks: seq<Chunk>, failure: Option<Cause>)
      modifies ws
      ensures Relay(old(ws.closed), old(ws.pending)) == Relayed(chunks, failure, ws.closed, ws.pending)
      ensures ws.sent == old(ws.sent)
    {
      chunks := [];
      failure := None;
      var done := false;
      assert Prefixed([], Relay(ws.closed, ws.pending)) == Relay(ws.closed, ws.pending);
      while !done
        invariant ws.sent == old(ws.sent)
        invariant !done ==> failure.None?
        invariant !done ==> Relay(old(ws.closed), old(ws.pending)) == Prefixed(chunks, Relay(ws.closed, ws.pending))
        invariant done ==> Relay(old(ws.closed), old(ws.pending)) == Relayed(chunks, failure, ws.closed, ws.pending)
        decreases if done then 0 else 1, |ws.pending|
      {
        ghost var closed0, pending0 := ws.closed, ws.pending;
        var r := ws.Recv();
        RelayStep(closed0, pending0);
        assert chunks + [] == chunks;
        match r {
          case TimedOut => done := true;
          case Closed => done := true;
          case Frame(p) =>
            match Classify(p) {
              case Emit(c) =>
                PrefixedAssoc(chunks, [c], Relay(ws.closed, ws.pending));
                chunks := chunks + [c];
              case Skip =>
              case Stop =>
                    done := true;
              case Fail(e) =>
                failure := Some(e);
                done := true;
            }
        }
      }
    }

    /** The numbering loop of `process_audio_stream`: `chunk_id` counts the yields. */
    static method NumberChunks(chunks: seq<Chunk>, sessionId: string, elapsedAt: nat -> real, cost: real)
      returns (responses: seq<AIBase.AudioResponse>)
      ensures responses == Numbered(chunks, sessionId, elapsedAt, cost)
    {
      responses := [];
      var chunkId := 0;
      while chunkId < |chunks|
        invariant 0 <= chunkId <= |chunks|
        invariant |responses| == chunkId
        invariant forall i :: 0 <= i < chunkId ==> responses[i] == Respond(chunks[i], i, sessionId, elapsedAt(i), cost)
      {
        responses := responses + [Respond(chunks[chunkId], chunkId, sessionId, elapsedAt(chunkId), cost)];
        chunkId := chunkId + 1;
      }
    }

    /**
     * `process_audio_stream`: get or create the session, send the clip, relay the replies.
     * A lost connection drops the session's entry; every other failure is a processing error.
     * `elapsedAt(i)` is the clock reading at the i-th yield and `cost` the value of `estimate_cost`.
     */
    method ProcessAudioStream(req: AIBase.AudioRequest, conn: Socket?, elapsedAt: nat -> real, cost: real)
      returns (responses: seq<AIBase.AudioResponse>, err: Option<ServiceError>)
      modifies this, conn, SocketsOf(sessions)
      ensures var key := AIBase.SessionKey(req.deviceId, req.sessionId);
        key in old(sessions) && !old(sessions[key].ws.closed) ==>
          (responses, err) == Served(req, old(sessions[key].ws.pending), elapsedAt, cost) && sessions == old(sessions)
      ensures var key := AIBase.SessionKey(req.deviceId, req.sessionId);
        !(key in old(sessions) && !old(sessions[key].ws.closed)) && conn == null ==>
          responses == [] && err == Some(ProcessingFailed(ConnectFailed)) && sessions == old(sessions)
      ensures var key := AIBase.SessionKey(req.deviceId, req.sessionId);
        !(key in old(sessions) && !old(sessions[key].ws.closed)) && conn != null ==>
          var init := InitOutcome(req, old(conn.closed), old(conn.pending));
          && (init.None? ==>
                && (responses, err) == Served(req, Take(false, old(conn.pending)).2, elapsedAt, cost)
                && sessions == old(sessions)[key := Session(conn, req.deviceId, req.sessionId)])
          && (init.Some? ==> responses == [] && err == init)
          && (init == Some(ConnectionLost) ==> sessions == old(sessions) - {key})
          && (init.Some? && init != Some(ConnectionLost) ==> sessions == old(sessions))
      ensures forall i :: 0 <= i < |responses| ==>
                && responses[i].chunkId == i && responses[i].totalChunks == 1 && responses[i].format == "mp3"
                && responses[i].sessionId == req.sessionId
      // The socket of a ready session gets the three audio messages and has its replies relayed.
      ensures var key := AIBase.SessionKey(req.deviceId, req.sessionId);
        key in old(sessions) && !old(sessions[key].ws.closed) ==>
          var w := old(sessions[key].ws);
          var o := Relay(false, old(w.pending));
          && w.sent == old(w.sent) + AudioMessages(req.audioData) && w.closed == o.closed && w.pending == o.rest
          && (conn != null && conn != w ==> Kept(conn))
      // A new connection gets `session.update`, then, once created, the audio, and has its replies relayed.
      ensures var key := AIBase.SessionKey(req.deviceId, req.sessionId);
        !(key in old(sessions) && !old(sessions[key].ws.closed)) && conn != null ==>
          var t := Take(false, old(conn.pending));
          var init := InitOutcome(req, old(conn.closed), old(conn.pending));
          && (init.None? ==>
                && conn.sent == old(conn.sent) + [SessionUpdate(req)] + AudioMessages(req.audioData)
                && conn.closed == Relay(false, t.2).closed && conn.pending == Relay(false, t.2).rest)
          && (init.Some? && req.additionalConfig.Some? && !old(conn.closed) ==>
                conn.sent == old(conn.sent) + [SessionUpdate(req)] && conn.closed == t.1 && conn.pending == t.2)
          && (req.additionalConfig.None? || old(conn.closed) ==> Kept(conn))
      // Every other socket of the table is left as it was.
      ensures var key := AIBase.SessionKey(req.deviceId, req.sessionId);
        forall s :: (s in SocketsOf(old(sessions)) && s != conn &&
                     !(key in old(sessions) && !old(sessions[key].ws.closed) && s == old(sessions[key].ws)))
                    ==> Kept(s)
    {
      var key := AIBase.SessionKey(req.deviceId, req.sessionId);
      var ws;
      ws, err := GetOrCreateSession(req, conn);
      if err.Some? {
        if err.value.ConnectionLost? {
          sessions := sessions - {key};
        }
        return [], err;
      }
      var sentOk := SendAudioData(ws, req.audioData);
      assert sentOk;
      var chunks, failure := ReceiveAudioResponses(ws);
      responses := NumberChunks(chunks, req.sessionId, elapsedAt, cost);
      err := match failure case Some(c) => Some(ProcessingFailed(c)) case None => None;
    }

    /** `cleanup`: close every open session socket, then empty the table. */
    method Cleanup()
      modifies this, SocketsOf(sessions)
      ensures sessions == map[]
      ensures forall s :: s in SocketsOf(old(sessions)) ==> s.closed
      ensures forall s :: s in SocketsOf(old(sessions)) ==> s.sent == old(s.sent) && s.pending == old(s.pending)
    {
      var keys := sessions.Keys;
      while keys != {}
        invariant keys <= sessions.Keys && sessions == old(sessions)
        invariant forall k :: k in sessions && k !in keys ==> sessions[k].ws.closed
        invariant forall s :: s in SocketsOf(old(sessions)) ==> s.sent == old(s.sent) && s.pending == old(s.pending)
        decreases keys
      {
        var k :| k in keys;
        var ws := sessions[k].ws;
        if !ws.closed {
          ws.Close();
        }
        keys := keys - {k};
      }
      sessions := map[];
    }
  }
}
