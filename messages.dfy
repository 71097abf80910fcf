/**
 * The wire protocol between IoT devices and the AI server (src/mqtt/messages.py).
 *
 * A message is an envelope (id, device, timestamp, kind, session) plus the fields of one of
 * four typed variants. On the wire it is a JSON object in which the kind is written as its
 * string tag and the audio metadata as a nested object; audio bytes travel as base64 text.
 * A decoded JSON document is a `Json.Value`; the text syntax is not modelled.
 *
 * Fresh UUIDs and `time.time()` are inputs: a `Token` is any non-empty string and a `Clock`
 * any positive reading.
 */
module Messages {
  import opened Wrappers
  import opened Json
  import Base64

  /** What `str(uuid.uuid4())` may return: some non-empty string. */
  type Token = s: string | s != "" witness "0"

  /** What `time.time()` may return: some positive number of seconds. */
  type Clock = t: real | t > 0.0 witness 1.0

  // ---------------------------------------------------------------------------------------
  // Message kinds
  // ---------------------------------------------------------------------------------------

  datatype MessageType = AudioRequest | AudioResponse | HealthCheck | Error | SessionStart | SessionEnd

  /** `MessageType.value`. */
  function Tag(t: MessageType): (s: string)
    ensures s != "" && '/' !in s
  {
    match t
    case AudioRequest => "audio_request"
    case AudioResponse => "audio_response"
    case HealthCheck => "health_check"
    case Error => "error"
    case SessionStart => "session_start"
    case SessionEnd => "session_end"
  }

  /** `MessageType(v)`: the kind whose tag is `v`, or None where Python raises ValueError. */
  function FromTag(v: Value): (t: Option<MessageType>)
    ensures t.Some? ==> v == Str(Tag(t.value))
    ensures t.None? ==> forall k: MessageType :: v != Str(Tag(k))
  {
    if v == Str("audio_request") then Some(AudioRequest)
    else if v == Str("audio_response") then Some(AudioResponse)
    else if v == Str("health_check") then Some(HealthCheck)
    else if v == Str("error") then Some(Error)
    else if v == Str("session_start") then Some(SessionStart)
    else if v == Str("session_end") then Some(SessionEnd)
    else None
  }

  /** The tags are pairwise distinct, so a kind is recovered from its tag. */
  lemma TagInjective(t1: MessageType, t2: MessageType)
    ensures Tag(t1) == Tag(t2) ==> t1 == t2
    ensures FromTag(Str(Tag(t1))) == Some(t1)
  {
  }

  // ---------------------------------------------------------------------------------------
  // Data model
  // ---------------------------------------------------------------------------------------

  datatype AudioMetadata = AudioMetadata(
    format: string,
    sampleRate: int,
    channels: int,
    chunkId: int,
    totalChunks: int,
    durationMs: Option<real>)

  /** `AudioMetadata()` with every field at its default. */
  const DefaultMetadata := AudioMetadata("mp3", 16000, 1, 0, 1, None)

  /** The fields every message carries (the `AudioMessage` dataclass). */
  datatype Envelope = Envelope(
    messageId: string,
    deviceId: string,
    timestamp: real,
    messageType: MessageType,
    sessionId: string)

  /** An `AudioMessage` object of one of the five classes. */
  datatype Message =
    | AudioMessage(env: Envelope)
    | AudioRequestMessage(
        env: Envelope,
        audioData: string,
        metadata: AudioMetadata,
        language: Option<string>,
        voice: Option<string>,
        instructions: Option<string>,
        config: Option<map<string, Value>>)
    | AudioResponseMessage(
        env: Envelope,
        audioData: string,
        metadata: AudioMetadata,
        transcript: string,
        processingTimeMs: real,
        costEstimate: real,
        responseMetadata: Option<map<string, Value>>)
    | ErrorMessage(
        env: Envelope,
        errorCode: string,
        errorMessage: string,
        originalMessageId: Option<string>)
    | HealthCheckMessage(
        env: Envelope,
        status: string,
        uptimeSeconds: real,
        activeSessions: int,
        systemInfo: Option<map<string, Value>>)

  /** The Python class a message is an instance of. */
  datatype MessageClass = AudioMessageClass | AudioRequestClass | AudioResponseClass | ErrorClass | HealthCheckClass

  function ClassOf(m: Message): MessageClass {
    match m
    case AudioMessage(_) => AudioMessageClass
    case AudioRequestMessage(_, _, _, _, _, _, _) => AudioRequestClass
    case AudioResponseMessage(_, _, _, _, _, _, _) => AudioResponseClass
    case ErrorMessage(_, _, _, _) => ErrorClass
    case HealthCheckMessage(_, _, _, _, _) => HealthCheckClass
  }

  /** The kind a subclass's `__post_init__` writes over whatever was passed in; None for the base class. */
  function ForcedKind(cls: MessageClass): Option<MessageType> {
    match cls
    case AudioMessageClass => None
    case AudioRequestClass => Some(AudioRequest)
    case AudioResponseClass => Some(AudioResponse)
    case ErrorClass => Some(Error)
    case HealthCheckClass => Some(HealthCheck)
  }

  /** The class `parse_message` routes a kind to. */
  function ClassFor(t: MessageType): (cls: MessageClass)
    ensures ForcedKind(cls).Some? ==> ForcedKind(cls).value == t
    ensures cls == AudioMessageClass <==> t == SessionStart || t == SessionEnd
  {
    match t
    case AudioRequest => AudioRequestClass
    case AudioResponse => AudioResponseClass
    case Error => ErrorClass
    case HealthCheck => HealthCheckClass
    case SessionStart => AudioMessageClass
    case SessionEnd => AudioMessageClass
  }

  /**
   * A message as construction leaves it: an id, a non-zero timestamp, and a kind that the
   * parser routes back to the message's own class.
   */
  predicate WellFormed(m: Message) {
    && m.env.messageId != ""
    && m.env.timestamp != 0.0
    && ClassFor(m.env.messageType) == ClassOf(m)
  }

  // ---------------------------------------------------------------------------------------
  // Construction: `__post_init__`
  // ---------------------------------------------------------------------------------------

  /**
   * The object `cls(...)` yields once `__post_init__` has run: an empty id is replaced by a
   * fresh one, a zero timestamp by the clock, and a subclass forces its own kind.
   */
  function Initialised(m: Message, freshId: Token, now: Clock): (r: Message)
    ensures r.env.messageId != "" && r.env.timestamp != 0.0
    ensures m.env.messageId != "" ==> r.env.messageId == m.env.messageId
    ensures m.env.messageId == "" ==> r.env.messageId == freshId
    ensures m.env.timestamp != 0.0 ==> r.env.timestamp == m.env.timestamp
    ensures m.env.timestamp == 0.0 ==> r.env.timestamp == now
    ensures ForcedKind(ClassOf(m)).Some? ==> r.env.messageType == ForcedKind(ClassOf(m)).value
    ensures ForcedKind(ClassOf(m)).None? ==> r.env.messageType == m.env.messageType
    ensures r.env.deviceId == m.env.deviceId && r.env.sessionId == m.env.sessionId
    ensures r == m.(env := r.env)
  {
    var e := m.env;
    var e1 := e.(messageId := if e.messageId == "" then freshId else e.messageId,
                 timestamp := if e.timestamp == 0.0 then now else e.timestamp);
    var e2 := match ForcedKind(ClassOf(m)) case Some(k) => e1.(messageType := k) case None => e1;
    m.(env := e2)
  }

  /** A subclass object is well formed whatever kind it was given; a base object when its kind is a session kind. */
  lemma InitialisedWellFormed(m: Message, freshId: Token, now: Clock)
    requires ClassOf(m) != AudioMessageClass || m.env.messageType in {SessionStart, SessionEnd}
    ensures WellFormed(Initialised(m, freshId, now))
  {
    var cls := ClassOf(m);
    match cls {
      case AudioMessageClass =>
      case AudioRequestClass =>
      case AudioResponseClass =>
      case ErrorClass =>
      case HealthCheckClass =>
    }
  }

  /** Running `__post_init__` on an initialised object changes nothing, whatever id and clock it draws. */
  lemma InitialisedIdempotent(m: Message, f1: Token, n1: Clock, f2: Token, n2: Clock)
    ensures Initialised(Initialised(m, f1, n1), f2, n2) == Initialised(m, f1, n1)
  {
    var r := Initialised(m, f1, n1);
    assert ClassOf(r) == ClassOf(m) by {
      assert r == m.(env := r.env);
    }
  }

  /**
   * A dataclass object under construction, whose `__post_init__` overwrites its fields in place
   * (lines 47-52 and the subclasses' overrides).
   */
  class MessageObject {
    var msg: Message

    constructor (m: Message)
      ensures msg == m
    {
      msg := m;
    }

    method PostInit(freshId: Token, now: Clock)
      modifies this
      ensures msg == Initialised(old(msg), freshId, now)
    {
      if msg.env.messageId == "" {
        msg := msg.(env := msg.env.(messageId := freshId));
      }
      if msg.env.timestamp == 0.0 {
        msg := msg.(env := msg.env.(timestamp := now));
      }
      match ForcedKind(ClassOf(msg)) {
        case Some(k) => msg := msg.(env := msg.env.(messageType := k));
        case None =>
      }
    }
  }

  // ---------------------------------------------------------------------------------------
  // Serialisation: `to_dict`
  // ---------------------------------------------------------------------------------------

  const EnvelopeFields: set<string> := {"message_id", "device_id", "timestamp", "message_type", "session_id"}

  const MetadataFields: set<string> := {"format", "sample_rate", "channels", "chunk_id", "total_chunks", "duration_ms"}

  /** The fields a class adds to the envelope. */
  function BodyFields(cls: MessageClass): set<string> {
    match cls
    case AudioMessageClass => {}
    case AudioRequestClass => {"audio_data", "audio_metadata", "language", "voice", "instructions", "config"}
    case AudioResponseClass => {"audio_data", "audio_metadata", "transcript", "processing_time_ms", "cost_estimate", "response_metadata"}
    case ErrorClass => {"error_code", "error_message", "original_message_id"}
    case HealthCheckClass => {"status", "uptime_seconds", "active_sessions", "system_info"}
  }

  /** The keyword arguments each class's constructor accepts. */
  function Fields(cls: MessageClass): set<string> {
    EnvelopeFields + BodyFields(cls)
  }

  /** No class redeclares an envelope field. */
  lemma BodyFieldsDisjoint(cls: MessageClass)
    ensures EnvelopeFields !! BodyFields(cls)
  {
  }

  function OptStrValue(o: Option<string>): Value {
    match o case None => Null case Some(s) => Str(s)
  }

  function OptRealValue(o: Option<real>): Value {
    match o case None => Null case Some(r) => Num(r)
  }

  function OptObjValue(o: Option<map<string, Value>>): Value {
    match o case None => Null case Some(f) => Obj(f)
  }

  /** `asdict` of an `AudioMetadata`. */
  function MetadataToDict(md: AudioMetadata): (d: map<string, Value>)
    ensures d.Keys == MetadataFields
  {
    map["format" := Str(md.format), "sample_rate" := Int(md.sampleRate), "channels" := Int(md.channels),
        "chunk_id" := Int(md.chunkId), "total_chunks" := Int(md.totalChunks), "duration_ms" := OptRealValue(md.durationMs)]
  }

  function EnvelopeToDict(e: Envelope): (d: map<string, Value>)
    ensures d.Keys == EnvelopeFields
  {
    map["message_id" := Str(e.messageId), "device_id" := Str(e.deviceId), "timestamp" := Num(e.timestamp),
        "message_type" := Str(Tag(e.messageType)), "session_id" := Str(e.sessionId)]
  }

  /** The fields a subclass adds, as `asdict` writes them. */
  function BodyToDict(m: Message): (d: map<string, Value>)
    ensures d.Keys == BodyFields(ClassOf(m))
  {
    match m
    case AudioMessage(_) => map[]
    case AudioRequestMessage(_, audio, md, language, voice, instructions, config) =>
      map["audio_data" := Str(audio), "audio_metadata" := Obj(MetadataToDict(md)),
          "language" := OptStrValue(language), "voice" := OptStrValue(voice),
          "instructions" := OptStrValue(instructions), "config" := OptObjValue(config)]
    case AudioResponseMessage(_, audio, md, transcript, ms, cost, meta) =>
      map["audio_data" := Str(audio), "audio_metadata" := Obj(MetadataToDict(md)),
          "transcript" := Str(transcript), "processing_time_ms" := Num(ms),
          "cost_estimate" := Num(cost), "response_metadata" := OptObjValue(meta)]
    case ErrorMessage(_, code, text, original) =>
      map["error_code" := Str(code), "error_message" := Str(text), "original_message_id" := OptStrValue(original)]
    case HealthCheckMessage(_, status, uptime, active, info) =>
      map["status" := Str(status), "uptime_seconds" := Num(uptime), "active_sessions" := Int(active),
          "system_info" := OptObjValue(info)]
  }

  /** `to_dict()`: every field under its own name, the kind as its tag, the metadata as a nested object. */
  function ToDict(m: Message): (d: map<string, Value>)
    ensures d.Keys == Fields(ClassOf(m))
    ensures d["message_type"] == Str(Tag(m.env.messageType))
  {
    BodyFieldsDisjoint(ClassOf(m));
    EnvelopeToDict(m.env) + BodyToDict(m)
  }

  // ---------------------------------------------------------------------------------------
  // Deserialisation: `from_dict`
  // ---------------------------------------------------------------------------------------

  /** Why `parse_message` raises. */
  datatype ParseError =
    | InvalidJson                     // json.JSONDecodeError, re-raised as ValueError
    | NotAnObject                     // the document has no `.get` (AttributeError)
    | MissingMessageType              // `message_type` absent or falsy
    | UnknownMessageType(tag: Value)  // `message_type` names no kind
    | SchemaMismatch                  // the constructor rejects the keyword arguments (TypeError)

  /** A value of the dict `from_dict` works on: as decoded, or already converted in place. */
  datatype Slot = Raw(v: Value) | Kind(t: MessageType) | Meta(md: AudioMetadata)

  /** The dict `json.loads` returned, before any conversion. */
  function RawSlots(d: map<string, Value>): (s: map<string, Slot>)
    ensures s.Keys == d.Keys
    ensures forall k :: k in s ==> s[k] == Raw(d[k])
  {
    map k | k in d :: Raw(d[k])
  }

  /** An unconverted keyword argument; a converted value where a raw one is read is a mismatch. */
  function SlotLookup(d: map<string, Slot>, k: string): Result<Option<Value>, ParseError> {
    if k !in d then Success(None)
    else match d[k]
      case Raw(v) => Success(Some(v))
      case _ => Failure(SchemaMismatch)
  }

  function RequiredStr(o: Option<Value>): Result<string, ParseError> {
    match o
    case Some(Str(s)) => Success(s)
    case _ => Failure(SchemaMismatch)
  }

  function StrOr(o: Option<Value>, default: string): Result<string, ParseError> {
    match o
    case None => Success(default)
    case Some(Str(s)) => Success(s)
    case _ => Failure(SchemaMismatch)
  }

  function IntOr(o: Option<Value>, default: int): Result<int, ParseError> {
    match o
    case None => Success(default)
    case Some(Int(i)) => Success(i)
    case _ => Failure(SchemaMismatch)
  }

  /** A float field: JSON integers are accepted as floats. */
  function RealOr(o: Option<Value>, default: real): Result<real, ParseError> {
    match o
    case None => Success(default)
    case Some(Int(i)) => Success(i as real)
    case Some(Num(r)) => Success(r)
    case _ => Failure(SchemaMismatch)
  }

  function OptionalStr(o: Option<Value>): Result<Option<string>, ParseError> {
    match o
    case None => Success(None)
    case Some(Null) => Success(None)
    case Some(Str(s)) => Success(Some(s))
    case _ => Failure(SchemaMismatch)
  }

  function OptionalReal(o: Option<Value>): Result<Option<real>, ParseError> {
    match o
    case None => Success(None)
    case Some(Null) => Success(None)
    case Some(Int(i)) => Success(Some(i as real))
    case Some(Num(r)) => Success(Some(r))
    case _ => Failure(SchemaMismatch)
  }

  function OptionalObj(o: Option<Value>): Result<Option<map<string, Value>>, ParseError> {
    match o
    case None => Success(None)
    case Some(Null) => Success(None)
    case Some(Obj(f)) => Success(Some(f))
    case _ => Failure(SchemaMismatch)
  }

  /** The `message_id` argument: required; any falsy value reaches `__post_init__` as an empty id. */
  function IdArgument(o: Option<Value>): Result<string, ParseError> {
    match o
    case None => Failure(SchemaMismatch)
    case Some(v) => if Falsy(v) then Success("") else if v.Str? then Success(v.s) else Failure(SchemaMismatch)
  }

  /** The `timestamp` argument: required; any falsy value reaches `__post_init__` as zero. */
  function TimestampArgument(o: Option<Value>): Result<real, ParseError> {
    match o
    case None => Failure(SchemaMismatch)
    case Some(v) =>
      if Falsy(v) then Success(0.0)
      else if v.Int? then Success(v.i as real)
      else if v.Num? then Success(v.r)
      else Failure(SchemaMismatch)
  }

  /** `AudioMetadata(**f)`: every key must be a field; absent fields take their defaults. */
  function MetadataFromDict(f: map<string, Value>): (r: Result<AudioMetadata, ParseError>)
    ensures r.Success? ==> f.Keys <= MetadataFields
    ensures f == map[] ==> r == Success(DefaultMetadata)
  {
    if !(f.Keys <= MetadataFields) then Failure(SchemaMismatch)
    else
      var format :- StrOr(Lookup(f, "format"), "mp3");
      var sampleRate :- IntOr(Lookup(f, "sample_rate"), 16000);
      var channels :- IntOr(Lookup(f, "channels"), 1);
      var chunkId :- IntOr(Lookup(f, "chunk_id"), 0);
      var totalChunks :- IntOr(Lookup(f, "total_chunks"), 1);
      var durationMs :- OptionalReal(Lookup(f, "duration_ms"));
      Success(AudioMetadata(format, sampleRate, channels, chunkId, totalChunks, durationMs))
  }

  /** A nested metadata object converts back to the record it was written from. */
  lemma MetadataRoundTrip(md: AudioMetadata)
    ensures MetadataFromDict(MetadataToDict(md)) == Success(md)
  {
  }

  /** Lines 68-69 and 102-103: a raw `message_type` is replaced by the enum, or MessageType raises. */
  function ConvertKind(d: map<string, Slot>): (r: Result<map<string, Slot>, ParseError>)
    ensures r.Success? ==> r.value.Keys == d.Keys
    ensures r.Success? ==> forall k :: k in d && k != "message_type" ==> r.value[k] == d[k]
    ensures r.Success? && "message_type" in d && d["message_type"].Raw? ==>
              FromTag(d["message_type"].v).Some? && r.value["message_type"] == Kind(FromTag(d["message_type"].v).value)
    ensures r.Failure? ==> r.error.UnknownMessageType? || r.error.SchemaMismatch?
  {
    if "message_type" !in d then Success(d)
    else match d["message_type"]
      case Raw(v) =>
        (match FromTag(v)
         case Some(t) => Success(d["message_type" := Kind(t)])
         case None => Failure(UnknownMessageType(v)))
      case Kind(_) => Success(d)
      case Meta(_) => Failure(SchemaMismatch)
  }

  /** Lines 106-107: a nested dict under `audio_metadata` is replaced by an `AudioMetadata`. */
  function ConvertMetadata(d: map<string, Slot>): (r: Result<map<string, Slot>, ParseError>)
    ensures r.Success? ==> r.value.Keys == d.Keys
    ensures r.Success? ==> forall k :: k in d && k != "audio_metadata" ==> r.value[k] == d[k]
    ensures r.Failure? ==> r.error.SchemaMismatch?
  {
    if "audio_metadata" in d && d["audio_metadata"].Raw? && d["audio_metadata"].v.Obj? then
      var md :- MetadataFromDict(d["audio_metadata"].v.fields);
      Success(d["audio_metadata" := Meta(md)])
    else Success(d)
  }

  /** The conversions each class's `from_dict` makes before calling the constructor. */
  function ConvertSlots(cls: MessageClass, d: map<string, Slot>): (r: Result<map<string, Slot>, ParseError>)
    ensures r.Success? ==> r.value.Keys == d.Keys
    ensures r.Success? && "message_type" in d && d["message_type"].Raw? ==>
              FromTag(d["message_type"].v).Some? && r.value["message_type"] == Kind(FromTag(d["message_type"].v).value)
    ensures r.Failure? ==> r.error.UnknownMessageType? || r.error.SchemaMismatch?
  {
    var d1 :- ConvertKind(d);
    if cls == AudioRequestClass || cls == AudioResponseClass then ConvertMetadata(d1) else Success(d1)
  }

  function KindArgument(d: map<string, Slot>): Result<MessageType, ParseError> {
    if "message_type" in d && d["message_type"].Kind? then Success(d["message_type"].t)
    else Failure(SchemaMismatch)
  }

  function MetadataArgument(d: map<string, Slot>): Result<AudioMetadata, ParseError> {
    if "audio_metadata" in d && d["audio_metadata"].Meta? then Success(d["audio_metadata"].md)
    else Failure(SchemaMismatch)
  }

  function ConstructEnvelope(d: map<string, Slot>): Result<Envelope, ParseError> {
    var idArg :- SlotLookup(d, "message_id");
    var messageId :- IdArgument(idArg);
    var deviceId :- StrArg(d, "device_id");
    var stampArg :- SlotLookup(d, "timestamp");
    var timestamp :- TimestampArgument(stampArg);
    var kind :- KindArgument(d);
    var sessionId :- StrArg(d, "session_id");
    Success(Envelope(messageId, deviceId, timestamp, kind, sessionId))
  }

  // Keyword arguments read from the dict, one reader per field type.

  function StrArg(d: map<string, Slot>, k: string): Result<string, ParseError> {
    var o :- SlotLookup(d, k); RequiredStr(o)
  }

  function StrArgOr(d: map<string, Slot>, k: string, default: string): Result<string, ParseError> {
    var o :- SlotLookup(d, k); StrOr(o, default)
  }

  function IntArgOr(d: map<string, Slot>, k: string, default: int): Result<int, ParseError> {
    var o :- SlotLookup(d, k); IntOr(o, default)
  }

  function RealArgOr(d: map<string, Slot>, k: string, default: real): Result<real, ParseError> {
    var o :- SlotLookup(d, k); RealOr(o, default)
  }

  function OptStrArg(d: map<string, Slot>, k: string): Result<Option<string>, ParseError> {
    var o :- SlotLookup(d, k); OptionalStr(o)
  }

  function OptObjArg(d: map<string, Slot>, k: string): Result<Option<map<string, Value>>, ParseError> {
    var o :- SlotLookup(d, k); OptionalObj(o)
  }

  /** `cls(**data)` before `__post_init__`: unknown keywords and missing required fields raise. */
  function Construct(cls: MessageClass, d: map<string, Slot>): (r: Result<Message, ParseError>)
    ensures r.Success? ==> d.Keys <= Fields(cls) && ClassOf(r.value) == cls
    ensures r.Success? ==> "message_type" in d && d["message_type"] == Kind(r.value.env.messageType)
    ensures r.Failure? ==> r.error.SchemaMismatch?
  {
    if !(d.Keys <= Fields(cls)) then Failure(SchemaMismatch)
    else
      var env :- ConstructEnvelope(d);
      ConstructBody(cls, env, d)
  }

  /** The fields a class adds to the envelope, read from the keyword arguments. */
  function ConstructBody(cls: MessageClass, env: Envelope, d: map<string, Slot>): (r: Result<Message, ParseError>)
    ensures r.Success? ==> ClassOf(r.value) == cls && r.value.env == env
    ensures r.Failure? ==> r.error.SchemaMismatch?
  {
    match cls
    case AudioMessageClass => Success(AudioMessage(env))
    case AudioRequestClass => ConstructRequest(env, d)
    case AudioResponseClass => ConstructResponse(env, d)
    case ErrorClass => ConstructError(env, d)
    case HealthCheckClass => ConstructHealth(env, d)
  }

  function ConstructRequest(env: Envelope, d: map<string, Slot>): (r: Result<Message, ParseError>)
    ensures r.Success? ==> r.value.AudioRequestMessage? && r.value.env == env
    ensures r.Failure? ==> r.error.SchemaMismatch?
  {
    var audio :- StrArg(d, "audio_data");
    var md :- MetadataArgument(d);
    var language :- OptStrArg(d, "language");
    var voice :- OptStrArg(d, "voice");
    var instructions :- OptStrArg(d, "instructions");
    var config :- OptObjArg(d, "config");
    Success(AudioRequestMessage(env, audio, md, language, voice, instructions, config))
  }

  function ConstructResponse(env: Envelope, d: map<string, Slot>): (r: Result<Message, ParseError>)
    ensures r.Success? ==> r.value.AudioResponseMessage? && r.value.env == env
    ensures r.Failure? ==> r.error.SchemaMismatch?
  {
    var audio :- StrArg(d, "audio_data");
    var md :- MetadataArgument(d);
    var transcript :- StrArgOr(d, "transcript", "");
    var ms :- RealArgOr(d, "processing_time_ms", 0.0);
    var cost :- RealArgOr(d, "cost_estimate", 0.0);
    var meta :- OptObjArg(d, "response_metadata");
    Success(AudioResponseMessage(env, audio, md, transcript, ms, cost, meta))
  }

  function ConstructError(env: Envelope, d: map<string, Slot>): (r: Result<Message, ParseError>)
    ensures r.Success? ==> r.value.ErrorMessage? && r.value.env == env
    ensures r.Failure? ==> r.error.SchemaMismatch?
  {
    var code :- StrArg(d, "error_code");
    var text :- StrArg(d, "error_message");
    var original :- OptStrArg(d, "original_message_id");
    Success(ErrorMessage(env, code, text, original))
  }

  function ConstructHealth(env: Envelope, d: map<string, Slot>): (r: Result<Message, ParseError>)
    ensures r.Success? ==> r.value.HealthCheckMessage? && r.value.env == env
    ensures r.Failure? ==> r.error.SchemaMismatch?
  {
    var status :- StrArgOr(d, "status", "healthy");
    var uptime :- RealArgOr(d, "uptime_seconds", 0.0);
    var active :- IntArgOr(d, "active_sessions", 0);
    var info :- OptObjArg(d, "system_info");
    Success(HealthCheckMessage(env, status, uptime, active, info))
  }

  /** `cls.from_dict(data)` on the dict as `from_dict` finds it. */
  function FromSlots(cls: MessageClass, d: map<string, Slot>, freshId: Token, now: Clock): (r: Result<Message, ParseError>)
    ensures r.Success? ==> ClassOf(r.value) == cls && d.Keys <= Fields(cls) && WellFormedId(r.value)
    ensures r.Success? ==> "message_type" in d
    ensures r.Success? && d["message_type"].Raw? ==> FromTag(d["message_type"].v).Some?
    ensures r.Success? && ForcedKind(cls).Some? ==> r.value.env.messageType == ForcedKind(cls).value
    ensures r.Success? && cls == AudioMessageClass && d["message_type"].Raw? ==>
              r.value.env.messageType == FromTag(d["message_type"].v).value
    ensures r.Failure? ==> r.error.UnknownMessageType? || r.error.SchemaMismatch?
  {
    var converted :- ConvertSlots(cls, d);
    var m :- Construct(cls, converted);
    Success(Initialised(m, freshId, now))
  }

  /** `cls.from_dict(data)` on a decoded JSON object. */
  function FromDict(cls: MessageClass, d: map<string, Value>, freshId: Token, now: Clock): (r: Result<Message, ParseError>)
    ensures r.Success? ==> ClassOf(r.value) == cls && d.Keys <= Fields(cls) && WellFormedId(r.value)
    ensures r.Success? ==> "message_type" in d && FromTag(d["message_type"]).Some?
    ensures r.Success? ==>
              r.value.env.messageType == (if cls == AudioMessageClass then FromTag(d["message_type"]).value else ForcedKind(cls).value)
    ensures r.Failure? ==> r.error.UnknownMessageType? || r.error.SchemaMismatch?
  {
    FromSlots(cls, RawSlots(d), freshId, now)
  }

  predicate WellFormedId(m: Message) {
    m.env.messageId != "" && m.env.timestamp != 0.0
  }

  /**
   * A dict being turned into a message by `from_dict`, which overwrites `message_type` and
   * `audio_metadata` in place before the constructor reads it.
   */
  class MessageDict {
    var data: map<string, Slot>

    constructor (d: map<string, Value>)
      ensures data == RawSlots(d)
    {
      data := RawSlots(d);
    }

    /** `data["message_type"] = MessageType(data["message_type"])` when the key is present. */
    method ConvertMessageType() returns (err: Option<ParseError>)
      modifies this
      ensures ConvertKind(old(data)) == (if err.None? then Success(data) else Failure(err.value))
      ensures err.Some? ==> data == old(data)
    {
      err := None;
      if "message_type" in data {
        match data["message_type"] {
          case Raw(v) =>
            match FromTag(v) {
              case Some(t) => data := data["message_type" := Kind(t)];
              case None => err := Some(UnknownMessageType(v));
            }
          case Kind(_) =>
          case Meta(_) => err := Some(SchemaMismatch);
        }
      }
    }

    /** `data["audio_metadata"] = AudioMetadata(**data["audio_metadata"])` when it holds a dict. */
    method ConvertAudioMetadata() returns (err: Option<ParseError>)
      modifies this
      ensures ConvertMetadata(old(data)) == (if err.None? then Success(data) else Failure(err.value))
      ensures err.Some? ==> data == old(data)
    {
      err := None;
      if "audio_metadata" in data && data["audio_metadata"].Raw? && data["audio_metadata"].v.Obj? {
        match MetadataFromDict(data["audio_metadata"].v.fields) {
          case Success(md) => data := data["audio_metadata" := Meta(md)];
          case Failure(e) => err := Some(e);
        }
      }
    }

    /** `cls.from_dict(data)`: the conversions of the class, then `cls(**data)` with `__post_init__`. */
    method FromDict(cls: MessageClass, freshId: Token, now: Clock) returns (r: Result<Message, ParseError>)
      modifies this
      ensures r == FromSlots(cls, old(data), freshId, now)
      ensures ConvertSlots(cls, old(data)).Success? ==> data == ConvertSlots(cls, old(data)).value
    {
      var err := ConvertMessageType();
      if err.Some? {
        return Failure(err.value);
      }
      if cls == AudioRequestClass || cls == AudioResponseClass {
        err := ConvertAudioMetadata();
        if err.Some? {
          return Failure(err.value);
        }
      }
      var built := Construct(cls, data);
      if built.Failure? {
        return Failure(built.error);
      }
      var obj := new MessageObject(built.value);
      obj.PostInit(freshId, now);
      r := Success(obj.msg);
    }
  }

  // ---------------------------------------------------------------------------------------
  // `MessageParser.parse_message`
  // ---------------------------------------------------------------------------------------

  /** The failure order of lines 273-285, then routing by kind (lines 287-297). */
  function ParseMessage(p: Payload, freshId: Token, now: Clock): (r: Result<Message, ParseError>)
    ensures r == Failure(InvalidJson) <==> p.Unparsable?
    ensures p.Parsed? && !p.doc.Obj? ==> r == Failure(NotAnObject)
    ensures p.Parsed? && p.doc.Obj? ==>
      (r == Failure(MissingMessageType) <==> Falsy(Get(p.doc.fields, "message_type", Null)))
    ensures p.Parsed? && p.doc.Obj? && !Falsy(Get(p.doc.fields, "message_type", Null)) ==>
      (r.Failure? && r.error.UnknownMessageType? <==> FromTag(p.doc.fields["message_type"]).None?)
    ensures r.Success? ==>
              && p.Parsed? && p.doc.Obj? && "message_type" in p.doc.fields
              && FromTag(p.doc.fields["message_type"]) == Some(r.value.env.messageType)
              && ClassOf(r.value) == ClassFor(r.value.env.messageType)
              && WellFormed(r.value)
  {
    match p
    case Unparsable => Failure(InvalidJson)
    case Parsed(doc) =>
      if !doc.Obj? then Failure(NotAnObject)
      else
        var v := Get(doc.fields, "message_type", Null);
        if Falsy(v) then Failure(MissingMessageType)
        else match FromTag(v)
          case None => Failure(UnknownMessageType(v))
          case Some(t) => FromDict(ClassFor(t), doc.fields, freshId, now)
  }

  /** The tag of a document whose `message_type` names a kind, without fresh ids or clock. */
  function TagOf(p: Payload): Option<MessageType> {
    if p.Parsed? && p.doc.Obj? && "message_type" in p.doc.fields then FromTag(p.doc.fields["message_type"]) else None
  }

  /** Whether `parse_message` returns a message for `p`; the fresh id and the clock play no part. */
  predicate Accepted(p: Payload) {
    && TagOf(p).Some?
    && ConvertSlots(ClassFor(TagOf(p).value), RawSlots(p.doc.fields)).Success?
    && Construct(ClassFor(TagOf(p).value), ConvertSlots(ClassFor(TagOf(p).value), RawSlots(p.doc.fields)).value).Success?
  }

  /** Parsing succeeds exactly on accepted payloads, and then yields a message of the tag's kind and class. */
  lemma ParseAccepted(p: Payload, freshId: Token, now: Clock)
    ensures ParseMessage(p, freshId, now).Success? <==> Accepted(p)
    ensures Accepted(p) ==>
              && ParseMessage(p, freshId, now).value.env.messageType == TagOf(p).value
              && ClassOf(ParseMessage(p, freshId, now).value) == ClassFor(TagOf(p).value)
  {
    if p.Parsed? && p.doc.Obj? && "message_type" in p.doc.fields {
      var v := p.doc.fields["message_type"];
      if FromTag(v).Some? {
        assert v == Str(Tag(FromTag(v).value)) && Tag(FromTag(v).value) != "";
      }
    }
  }

  // ---------------------------------------------------------------------------------------
  // Round trips
  // ---------------------------------------------------------------------------------------

  /** `parse_message(m.to_json())` rebuilds `m` for every well-formed message. */
  lemma {:induction false} ParseToDict(m: Message, freshId: Token, now: Clock)
    requires WellFormed(m)
    ensures ParseMessage(Parsed(Obj(ToDict(m))), freshId, now) == Success(m)
  {
    var d := ToDict(m);
    var t := m.env.messageType;
    TagInjective(t, t);
    assert !Falsy(Get(d, "message_type", Null));
    var converted := ConvertToDict(m);
  }

  /**
   * `from_dict`'s conversions on `to_dict()`'s output, and the constructor on the result,
   * give back the message.
   */
  lemma {:induction false} ConvertToDict(m: Message) returns (converted: map<string, Slot>)
    requires WellFormed(m)
    ensures ConvertSlots(ClassOf(m), RawSlots(ToDict(m))) == Success(converted)
    ensures Construct(ClassOf(m), converted) == Success(m)
  {
    var envSlots, body := ConvertParts(m);
    converted := envSlots + body;
    ConstructParts(m, envSlots, body);
  }

  /** The slots `from_dict`'s conversions leave: the envelope with the enum, the body with the metadata. */
  function ConvertedEnvelope(e: Envelope): map<string, Slot> {
    RawSlots(EnvelopeToDict(e))["message_type" := Kind(e.messageType)]
  }

  function ConvertedBody(m: Message): map<string, Slot> {
    if m.AudioRequestMessage? || m.AudioResponseMessage? then RawSlots(BodyToDict(m))["audio_metadata" := Meta(m.metadata)]
    else RawSlots(BodyToDict(m))
  }

  lemma {:induction false} ConvertParts(m: Message) returns (envSlots: map<string, Slot>, body: map<string, Slot>)
    requires WellFormed(m)
    ensures envSlots == ConvertedEnvelope(m.env) && body == ConvertedBody(m)
    ensures ConvertSlots(ClassOf(m), RawSlots(ToDict(m))) == Success(envSlots + body)
  {
    var cls := ClassOf(m);
    var e := m.env;
    var t := e.messageType;
    var envDict, bodyDict := EnvelopeToDict(e), BodyToDict(m);
    BodyFieldsDisjoint(cls);
    RawSlotsUnion(envDict, bodyDict);
    var raw, bodySlots := RawSlots(envDict), RawSlots(bodyDict);
    assert "message_type" in EnvelopeFields;
    assert "message_type" !in bodySlots;
    KindSlot(e);
    TagInjective(t, t);
    envSlots := ConvertedEnvelope(e);
    UpdateLeft(raw, bodySlots, "message_type", Kind(t));
    assert ConvertKind(raw + bodySlots) == Success(envSlots + bodySlots);
    body := ConvertedBody(m);
    if cls == AudioRequestClass || cls == AudioResponseClass {
      MetadataConversion(m, envSlots);
    }
  }

  lemma {:induction false} ConstructParts(m: Message, envSlots: map<string, Slot>, body: map<string, Slot>)
    requires WellFormed(m)
    requires envSlots == ConvertedEnvelope(m.env) && body == ConvertedBody(m)
    ensures Construct(ClassOf(m), envSlots + body) == Success(m)
  {
    var cls := ClassOf(m);
    BodyFieldsDisjoint(cls);
    assert body.Keys == BodyFields(cls);
    EnvelopeArguments(m.env);
    EnvelopeOfUnion(envSlots, body);
    BodyOfUnion(cls, m.env, envSlots, body);
    BodyArguments(m, body);
  }

  lemma MetadataConversion(m: Message, envSlots: map<string, Slot>)
    requires m.AudioRequestMessage? || m.AudioResponseMessage?
    ensures var bodySlots := RawSlots(BodyToDict(m));
      ConvertMetadata(envSlots + bodySlots) == Success(envSlots + bodySlots["audio_metadata" := Meta(m.metadata)])
  {
    var bodySlots := RawSlots(BodyToDict(m));
    MetadataRoundTrip(m.metadata);
    MetadataSlot(m);
    UpdateRight(envSlots, bodySlots, "audio_metadata", Meta(m.metadata));
  }

  lemma RawSlotsUnion(a: map<string, Value>, b: map<string, Value>)
    ensures RawSlots(a + b) == RawSlots(a) + RawSlots(b)
  {
  }

  lemma UpdateLeft(a: map<string, Slot>, b: map<string, Slot>, k: string, v: Slot)
    requires k !in b
    ensures (a + b)[k := v] == a[k := v] + b
  {
  }

  lemma UpdateRight(a: map<string, Slot>, b: map<string, Slot>, k: string, v: Slot)
    ensures (a + b)[k := v] == a + b[k := v]
  {
  }

  lemma KindSlot(e: Envelope)
    ensures RawSlots(EnvelopeToDict(e))["message_type"] == Raw(Str(Tag(e.messageType)))
  {
  }

  lemma MetadataSlot(m: Message)
    requires m.AudioRequestMessage? || m.AudioResponseMessage?
    ensures RawSlots(BodyToDict(m))["audio_metadata"] == Raw(Obj(MetadataToDict(m.metadata)))
  {
  }

  /** The envelope `to_dict` wrote, with the kind converted, constructs the envelope it came from. */
  lemma EnvelopeArguments(e: Envelope)
    requires e.messageId != "" && e.timestamp != 0.0
    ensures ConstructEnvelope(RawSlots(EnvelopeToDict(e))["message_type" := Kind(e.messageType)]) == Success(e)
  {
    var d := RawSlots(EnvelopeToDict(e))["message_type" := Kind(e.messageType)];
    assert d["message_id"] == Raw(Str(e.messageId));
    assert d["device_id"] == Raw(Str(e.deviceId));
    assert d["timestamp"] == Raw(Num(e.timestamp));
    assert d["session_id"] == Raw(Str(e.sessionId));
  }

  /** The envelope is read from the envelope fields alone. */
  lemma EnvelopeOfUnion(a: map<string, Slot>, b: map<string, Slot>)
    requires EnvelopeFields !! b.Keys
    ensures ConstructEnvelope(a + b) == ConstructEnvelope(a)
  {
    assert "message_id" !in b && "device_id" !in b && "timestamp" !in b && "message_type" !in b && "session_id" !in b by {
      assert "message_id" in EnvelopeFields && "device_id" in EnvelopeFields && "timestamp" in EnvelopeFields;
      assert "message_type" in EnvelopeFields && "session_id" in EnvelopeFields;
    }
  }

  /** A class's own fields are read from its own keys alone. */
  lemma BodyOfUnion(cls: MessageClass, env: Envelope, a: map<string, Slot>, b: map<string, Slot>)
    requires b.Keys == BodyFields(cls)
    ensures ConstructBody(cls, env, a + b) == ConstructBody(cls, env, b)
  {
    match cls
    case AudioMessageClass =>
    case AudioRequestClass =>
      assert "audio_data" in b && "audio_metadata" in b && "language" in b;
      assert "voice" in b && "instructions" in b && "config" in b;
    case AudioResponseClass =>
      assert "audio_data" in b && "audio_metadata" in b && "transcript" in b;
      assert "processing_time_ms" in b && "cost_estimate" in b && "response_metadata" in b;
    case ErrorClass =>
      assert "error_code" in b && "error_message" in b && "original_message_id" in b;
    case HealthCheckClass =>
      assert "status" in b && "uptime_seconds" in b && "active_sessions" in b && "system_info" in b;
  }

  /** The body `to_dict` wrote, once converted, constructs the message. */
  lemma BodyArguments(m: Message, body: map<string, Slot>)
    requires m.AudioRequestMessage? || m.AudioResponseMessage? ==>
      body == RawSlots(BodyToDict(m))["audio_metadata" := Meta(m.metadata)]
    requires !(m.AudioRequestMessage? || m.AudioResponseMessage?) ==> body == RawSlots(BodyToDict(m))
    ensures ConstructBody(ClassOf(m), m.env, body) == Success(m)
  {
    match m
    case AudioMessage(_) =>
    case AudioRequestMessage(_, _, _, _, _, _, _) => RequestArguments(m, body);
    case AudioResponseMessage(_, _, _, _, _, _, _) => ResponseArguments(m, body);
    case ErrorMessage(_, _, _, _) => ErrorArguments(m, body);
    case HealthCheckMessage(_, _, _, _, _) => HealthArguments(m, body);
  }

  lemma RequestArguments(m: Message, body: map<string, Slot>)
    requires m.AudioRequestMessage? && body == RawSlots(BodyToDict(m))["audio_metadata" := Meta(m.metadata)]
    ensures ConstructRequest(m.env, body) == Success(m)
  {
    assert StrArg(body, "audio_data") == Success(m.audioData);
    assert OptStrArg(body, "language") == Success(m.language);
    assert OptStrArg(body, "voice") == Success(m.voice);
    assert OptStrArg(body, "instructions") == Success(m.instructions);
    assert OptObjArg(body, "config") == Success(m.config);
  }

  lemma ResponseArguments(m: Message, body: map<string, Slot>)
    requires m.AudioResponseMessage? && body == RawSlots(BodyToDict(m))["audio_metadata" := Meta(m.metadata)]
    ensures ConstructResponse(m.env, body) == Success(m)
  {
    assert StrArg(body, "audio_data") == Success(m.audioData);
    assert StrArgOr(body, "transcript", "") == Success(m.transcript);
    assert RealArgOr(body, "processing_time_ms", 0.0) == Success(m.processingTimeMs);
    assert RealArgOr(body, "cost_estimate", 0.0) == Success(m.costEstimate);
    assert OptObjArg(body, "response_metadata") == Success(m.responseMetadata);
  }

  lemma ErrorArguments(m: Message, body: map<string, Slot>)
    requires m.ErrorMessage? && body == RawSlots(BodyToDict(m))
    ensures ConstructError(m.env, body) == Success(m)
  {
    assert StrArg(body, "error_code") == Success(m.errorCode);
    assert StrArg(body, "error_message") == Success(m.errorMessage);
    assert OptStrArg(body, "original_message_id") == Success(m.originalMessageId);
  }

  lemma HealthArguments(m: Message, body: map<string, Slot>)
    requires m.HealthCheckMessage? && body == RawSlots(BodyToDict(m))
    ensures ConstructHealth(m.env, body) == Success(m)
  {
    assert StrArgOr(body, "status", "healthy") == Success(m.status);
    assert RealArgOr(body, "uptime_seconds", 0.0) == Success(m.uptimeSeconds);
    assert IntArgOr(body, "active_sessions", 0) == Success(m.activeSessions);
    assert OptObjArg(body, "system_info") == Success(m.systemInfo);
  }

  // ---------------------------------------------------------------------------------------
  // Factories
  // ---------------------------------------------------------------------------------------

  /** `AudioRequestMessage.create`: fresh id and clock, a fresh session id for an empty one, the audio as base64. */
  function CreateAudioRequest(
    deviceId: string, audio: seq<Base64.byte>, sessionId: string, audioFormat: string,
    language: Option<string>, voice: Option<string>, instructions: Option<string>,
    chunkId: int, totalChunks: int, kwargs: map<string, Value>,
    freshId: Token, freshSession: Token, now: Clock): (m: Message)
    ensures m.AudioRequestMessage? && WellFormed(m)
    ensures m.env == Envelope(freshId, deviceId, now, AudioRequest, if sessionId == "" then freshSession else sessionId)
    ensures m.metadata == DefaultMetadata.(format := audioFormat, chunkId := chunkId, totalChunks := totalChunks)
    ensures m.language == language && m.voice == voice && m.instructions == instructions
    ensures m.config == Some(kwargs)
    ensures GetAudioBytes(m) == Success(audio)
  {
    Base64.DecodeEncode(audio);
    var md := AudioMetadata(audioFormat, 16000, 1, chunkId, totalChunks, None);
    var sid := if sessionId == "" then freshSession else sessionId;
    Initialised(AudioRequestMessage(Envelope(freshId, deviceId, now, AudioRequest, sid), Base64.Encode(audio), md,
                                    language, voice, instructions, Some(kwargs)), freshId, now)
  }

  /** `AudioResponseMessage.create`: the device, session and audio format come from the request. */
  function CreateAudioResponse(
    request: Message, audio: seq<Base64.byte>, transcript: string, processingTimeMs: real, costEstimate: real,
    chunkId: int, totalChunks: int, metadata: Option<map<string, Value>>, freshId: Token, now: Clock): (m: Message)
    requires request.AudioRequestMessage?
    ensures m.AudioResponseMessage? && WellFormed(m)
    ensures m.env == Envelope(freshId, request.env.deviceId, now, AudioResponse, request.env.sessionId)
    ensures m.metadata == DefaultMetadata.(format := request.metadata.format, chunkId := chunkId, totalChunks := totalChunks)
    ensures m.transcript == transcript && m.processingTimeMs == processingTimeMs && m.costEstimate == costEstimate
    ensures m.responseMetadata == metadata
    ensures GetAudioBytes(m) == Success(audio)
  {
    Base64.DecodeEncode(audio);
    var md := AudioMetadata(request.metadata.format, 16000, 1, chunkId, totalChunks, None);
    var env := Envelope(freshId, request.env.deviceId, now, AudioResponse, request.env.sessionId);
    Initialised(AudioResponseMessage(env, Base64.Encode(audio), md, transcript, processingTimeMs, costEstimate, metadata),
                freshId, now)
  }

  /** `ErrorMessage.create`: `original_message_id` is the original's id, or None without an original. */
  function CreateError(
    deviceId: string, errorCode: string, errorMessage: string, original: Option<Message>, sessionId: string,
    freshId: Token, now: Clock): (m: Message)
    ensures m.ErrorMessage? && WellFormed(m)
    ensures m.env == Envelope(freshId, deviceId, now, Error, sessionId)
    ensures m.errorCode == errorCode && m.errorMessage == errorMessage
    ensures m.originalMessageId.Some? <==> original.Some?
    ensures original.Some? ==> m.originalMessageId == Some(original.value.env.messageId)
  {
    var originalId := match original case Some(o) => Some(o.env.messageId) case None => None;
    Initialised(ErrorMessage(Envelope(freshId, deviceId, now, Error, sessionId), errorCode, errorMessage, originalId),
                freshId, now)
  }

  /** `get_audio_bytes()`: `base64.b64decode(self.audio_data)`. */
  function GetAudioBytes(m: Message): (r: Result<seq<Base64.byte>, Base64.DecodeError>)
    requires m.AudioRequestMessage? || m.AudioResponseMessage?
    ensures forall data :: m.audioData == Base64.Encode(data) ==> r == Success(data)
    ensures r.Success? ==> 4 * |r.value| <= 3 * |m.audioData|
  {
    Base64.DecodeEncodeAll();
    Base64.Decode(m.audioData)
  }

  // ---------------------------------------------------------------------------------------
  // Topics
  // ---------------------------------------------------------------------------------------

  /** `create_topic`: `iot/<device>/<kind>`, with `/<suffix>` exactly when the suffix is non-empty. */
  function CreateTopic(deviceId: string, t: MessageType, suffix: string): (topic: string)
    ensures topic == "iot/" + (deviceId + "/" + KindPath(t, suffix))
  {
    var base := "iot/" + deviceId + "/" + Tag(t);
    if suffix != "" then base + "/" + suffix else base
  }

  /** What follows the device id in a topic. */
  function KindPath(t: MessageType, suffix: string): string {
    if suffix != "" then Tag(t) + "/" + suffix else Tag(t)
  }

  /** The position of the first `/` in `s`, or `|s|` when there is none. */
  function SlashIndex(s: string): (i: nat)
    ensures i <= |s|
    ensures i == |s| <==> '/' !in s
  {
    if s == [] then 0 else if s[0] == '/' then 0 else 1 + SlashIndex(s[1..])
  }

  lemma {:induction false} SlashIndexAfter(x: string, y: string)
    requires '/' !in x
    ensures SlashIndex(x + "/" + y) == |x|
  {
    if x == [] {
      assert x + "/" + y == ['/'] + y;
    } else {
      assert (x + "/" + y)[1..] == x[1..] + "/" + y;
      SlashIndexAfter(x[1..], y);
    }
  }

  /** Splitting at the first `/`: a prefix without `/` is determined by the string. */
  lemma SplitAtSlash(x1: string, y1: string, x2: string, y2: string)
    requires '/' !in x1 && '/' !in x2
    requires x1 + "/" + y1 == x2 + "/" + y2
    ensures x1 == x2 && y1 == y2
  {
    var s := x1 + "/" + y1;
    SlashIndexAfter(x1, y1);
    SlashIndexAfter(x2, y2);
    assert x1 == s[..|x1|] == x2;
    assert y1 == s[|x1| + 1..] == y2;
  }

  lemma PrefixCancel(p: string, x: string, y: string)
    requires p + x == p + y
    ensures x == y
  {
    assert x == (p + x)[|p|..];
  }

  /** The part after the device contains a `/` exactly when there is a suffix. */
  lemma KindPathSlash(t: MessageType, suffix: string)
    ensures '/' in KindPath(t, suffix) <==> suffix != ""
  {
    if suffix != "" {
      assert KindPath(t, suffix)[|Tag(t)|] == '/';
    }
  }

  /**
   * For device ids without `/`, the topic determines the device, the kind and the suffix:
   * distinct (device, kind, suffix) triples never share a topic.
   */
  lemma CreateTopicInjective(d1: string, t1: MessageType, s1: string, d2: string, t2: MessageType, s2: string)
    requires '/' !in d1 && '/' !in d2
    requires CreateTopic(d1, t1, s1) == CreateTopic(d2, t2, s2)
    ensures d1 == d2 && t1 == t2 && s1 == s2
  {
    var r1, r2 := KindPath(t1, s1), KindPath(t2, s2);
    PrefixCancel("iot/", d1 + "/" + r1, d2 + "/" + r2);
    SplitAtSlash(d1, r1, d2, r2);
    KindPathSlash(t1, s1);
    KindPathSlash(t2, s2);
    if s1 != "" {
      SplitAtSlash(Tag(t1), s1, Tag(t2), s2);
    }
    TagInjective(t1, t2);
  }
}
