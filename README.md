# MQTT AI voice server — a Dafny model

The system is a server that relays speech between IoT devices and a speech-to-speech AI
backend, with MQTT as the transport. A device cuts its audio into chunks. Each chunk goes out
as an `audio_request` message on `iot/<device>/audio_request`. The server parses the message
and checks it against a capacity limit on active sessions. It then hands the audio to a
provider (the OpenAI Realtime websocket API) and publishes every chunk of the provider's
streamed answer as an `audio_response` on the device's response topic. When something goes
wrong it publishes an `error` message instead. The server keeps counters, publishes health
messages and reports statistics. Its configuration comes from environment variables.

The model has one module per source file. Three supporting modules sit beside them.

| module | file | models |
|---|---|---|
| `Messages` | messages.dfy | `src/mqtt/messages.py`: message kinds, envelope and variants, `__post_init__`, `to_dict`, `from_dict`, `create`, `get_audio_bytes`, `parse_message`, `create_topic` |
| `AIBase` | ai_base.dfy | `src/ai_services/base.py`: request/response records, the session key, the session cache, default features |
| `Realtime` | realtime.dfy | `src/ai_services/openai_realtime.py`: the api-key check, the session table, the handshake, the three-message send, the event relay, chunk numbering, cleanup |
| `MqttServer` | server.dfy | `src/mqtt/client.py`: message handling, admission control, the counters, response/error/health publication, statistics |
| `TestDevice` | device.dfy | `tests/simple_client.py`: the chunk splitter, the client's callbacks and flags, `send_audio_chunk`, the early-stop send loop |
| `Config` | config.dfy | `src/config.py`: `from_env` as a function of an environment map, and `to_dict` with its redaction |
| `Json` | json.dfy | decoded JSON documents (`json.loads` output) and Python truthiness |
| `Base64` | base64.dfy | Python's `b64encode` (section 4 of RFC 4648) and its lenient `b64decode` |
| `Wrappers` | wrappers.dfy | `Option` and `Result` |

Some things cannot be modelled directly and become inputs instead:
- Fresh UUIDs are `Messages.Token` values, any non-empty string.
- `time.time()` is a `Messages.Clock` value, any positive reading.
- What a websocket will receive is a `Realtime.Socket`'s list of pending receipts.
- Whether the broker accepts a publish is a boolean or a result code.
- The provider's stream, as seen by the MQTT handler, is a finished list of chunks that may end in a failure.

Stateful source objects are classes whose methods are proved against specification functions:
- `Messages.MessageObject` and `Messages.MessageDict` (the in-place `__post_init__` and `from_dict`);
- `AIBase.SessionCache`;
- `Realtime.Socket` and `Realtime.Service`;
- `MqttServer.Server`;
- `TestDevice.IoTClient`.

Points of the code's behaviour that the model keeps as written:

- **Capacity is checked even for a session id already in the active set.** `src/mqtt/client.py:263` compares `len(self._active_sessions)` with the limit and has no membership test.
- **The active set holds bare session ids, not (device, session) pairs.** Two devices that share a session id therefore share one slot (`MqttServer.SharedSessionSlot`).
- **Admission bounds the set, not the number of handlers in flight.** The `finally` of a rejected request discards its session id (`src/mqtt/client.py:320`). That can evict another in-flight request's entry, so more handlers than the limit can run at once (`MqttServer.CapacityOvershoot`).
- **A receive timeout on the backend stream ends the stream normally.** `_receive_audio_responses` catches `asyncio.TimeoutError` and only logs it (`src/ai_services/openai_realtime.py:317-318`).
- **Every handler failure is published with code `PROCESSING_ERROR`** (`src/mqtt/client.py:315`). The only other code the handler publishes is `CAPACITY_EXCEEDED`, for a rejected request (`src/mqtt/client.py:264-268`).

## Model

| member | source | states |
|---|---|---|
| `Base64.EncodeChar` | src/mqtt/messages.py:139 | each 6-bit value is written as an alphabet character that reads back as that value |
| `Base64.EncodeCharIsTable` | src/mqtt/messages.py:139 | the character chosen for a value is that value's entry of the 64-character table |
| `Base64.Encode` | src/mqtt/messages.py:139 | `b64encode` output has 4·⌈n/3⌉ characters |
| `Base64.Quad` | src/mqtt/messages.py:139 | three bytes encode to four alphabet characters |
| `Base64.Feed` | src/mqtt/messages.py:96 | one data character keeps the decoder's pending bits within what the next character completes |
| `Base64.EncodeAlphabet` | src/mqtt/messages.py:139 | every encoded character is an alphabet character or `=` |
| `Base64.EncodeIsAscii` | src/mqtt/messages.py:139 | encoded text is ASCII, so `b64decode`'s ASCII check accepts it |
| `Base64.QuadBytes` | src/mqtt/messages.py:96 | the decoder turns the four characters of a full group back into its three bytes |
| `Base64.ScanFinalOne` | src/mqtt/messages.py:96 | a final group with two pad characters decodes to its one byte |
| `Base64.ScanFinalTwo` | src/mqtt/messages.py:96 | a final group with one pad character decodes to its two bytes |
| `Base64.ScanEncode` | src/mqtt/messages.py:96 | decoding an encoding appends exactly the encoded bytes to what was already decoded |
| `Base64.DecodeEncode` | src/mqtt/messages.py:94-96 | `b64decode(b64encode(b)) == b` for every byte string |
| `Base64.Scan` | src/mqtt/messages.py:96 | the lenient decoding loop never reports the non-ASCII error: its failures are a stray data character or missing padding |
| `Base64.ScanGrows` | src/mqtt/messages.py:96 | the decoding loop only appends to its output and writes at most three bytes for every four characters it reads |
| `Base64.Decode` | src/mqtt/messages.py:96 | `b64decode` raises the ASCII error exactly on non-ASCII text, and any result has at most three bytes per four characters |
| `Messages.Tag` | src/mqtt/messages.py:16-23 | every kind's tag is non-empty and contains no `/` |
| `Messages.FromTag` | src/mqtt/messages.py:283-285 | `MessageType(v)` succeeds exactly when `v` is the string of some kind's tag, and then yields that kind |
| `Messages.TagInjective` | src/mqtt/messages.py:16-23 | distinct kinds have distinct tags, and reading a tag back gives its kind |
| `Messages.ClassFor` | src/mqtt/messages.py:287-297 | a subclass is chosen for its own kind; the base class exactly for `session_start` and `session_end` |
| `Messages.Initialised` | src/mqtt/messages.py:47-52 | after `__post_init__` an empty id is fresh, a zero timestamp is the clock reading, other ids and timestamps are kept, a subclass's kind is forced to its own, nothing else changes |
| `Messages.InitialisedWellFormed` | src/mqtt/messages.py:90-92 | construction yields an id, a non-zero timestamp, and a kind that routes back to the object's class (for the base class, whenever it carries a session kind) |
| `Messages.InitialisedIdempotent` | src/mqtt/messages.py:47-52 | running `__post_init__` a second time changes nothing |
| `Messages.MessageObject.constructor` | src/mqtt/messages.py:37-45 | the object holds the fields it was given |
| `Messages.MessageObject.PostInit` | src/mqtt/messages.py:47-52 | the in-place field updates leave exactly `Initialised` of the old object |
| `Messages.BodyFieldsDisjoint` | src/mqtt/messages.py:79-88 | no subclass field shares a name with an envelope field |
| `Messages.MetadataToDict` | src/mqtt/messages.py:56 | `asdict` of the audio metadata has exactly its six field names |
| `Messages.EnvelopeToDict` | src/mqtt/messages.py:54-58 | the envelope is written under exactly its five field names |
| `Messages.BodyToDict` | src/mqtt/messages.py:56 | a message's own fields are written under exactly its class's field names |
| `Messages.ToDict` | src/mqtt/messages.py:54-58 | `to_dict` has exactly the class's field names, with the kind written as its tag |
| `Messages.MetadataFromDict` | src/mqtt/messages.py:107 | `AudioMetadata(**d)` refuses unknown keys and gives all defaults for an empty dict |
| `Messages.MetadataRoundTrip` | src/mqtt/messages.py:107 | metadata converted to a dict and back is unchanged |
| `Messages.ConvertKind` | src/mqtt/messages.py:102-103 | converting `message_type` keeps the key set and every other entry, turns a tag into its kind, and fails only on an unknown tag or a bad value |
| `Messages.ConvertMetadata` | src/mqtt/messages.py:106-107 | converting `audio_metadata` keeps the key set and every other entry, and fails only on a schema mismatch |
| `Messages.ConvertSlots` | src/mqtt/messages.py:99-107 | the conversions of a class's `from_dict` keep the key set, turn the tag into its kind, and fail only with an unknown kind or a schema mismatch |
| `Messages.Construct` | src/mqtt/messages.py:109 | `cls(**data)` accepts only the class's own field names and needs a converted `message_type` |
| `Messages.ConstructBody` | src/mqtt/messages.py:79-88 | a class's own fields become a message of that class around the given envelope |
| `Messages.ConstructRequest` | src/mqtt/messages.py:79-88 | the request fields build an `AudioRequestMessage` around the envelope, or the keyword arguments do not match |
| `Messages.ConstructResponse` | src/mqtt/messages.py:148-157 | the response fields build an `AudioResponseMessage` around the envelope, or the keyword arguments do not match |
| `Messages.ConstructError` | src/mqtt/messages.py:215-221 | the error fields build an `ErrorMessage` around the envelope, or the keyword arguments do not match |
| `Messages.ConstructHealth` | src/mqtt/messages.py:249-256 | the health fields build a `HealthCheckMessage` around the envelope, or the keyword arguments do not match |
| `Messages.FromSlots` | src/mqtt/messages.py:99-109 | a successful `from_dict` gives a message of the requested class, with only its fields, an id, and the class's forced kind (the tag's kind for the base class) |
| `Messages.FromDict` | src/mqtt/messages.py:64-70 | the same, from the decoded dict: success needs a known tag, and only unknown-kind or schema errors are possible |
| `Messages.MessageDict.constructor` | src/mqtt/messages.py:65 | the dict holds the decoded values unconverted |
| `Messages.MessageDict.ConvertMessageType` | src/mqtt/messages.py:102-103 | the in-place operation agrees with `ConvertKind` and leaves the dict as it was on failure |
| `Messages.MessageDict.ConvertAudioMetadata` | src/mqtt/messages.py:106-107 | the in-place operation agrees with `ConvertMetadata` and leaves the dict as it was on failure |
| `Messages.MessageDict.FromDict` | src/mqtt/messages.py:99-109 | the in-place `from_dict` returns what `FromSlots` specifies and leaves the converted dict |
| `Messages.ParseMessage` | src/mqtt/messages.py:267-297 | failures come in a fixed order: invalid JSON, then not an object, then a missing or falsy `message_type` (both directions), then an unknown tag (both directions); a parsed message carries the payload's kind, the class routed for it, and is well-formed |
| `Messages.ParseAccepted` | src/mqtt/messages.py:282-297 | whether parsing succeeds, and the kind and class it gives, do not depend on the fresh id or the clock |
| `Messages.ParseToDict` | src/mqtt/messages.py:54-76 | parsing the `to_dict` of a well-formed message rebuilds the identical message, its kind and nested metadata included |
| `Messages.ConvertToDict` | src/mqtt/messages.py:99-109 | the conversions and the constructor accept a message's own `to_dict` and rebuild the message |
| `Messages.CreateAudioRequest` | src/mqtt/messages.py:111-145 | fresh id, clock, kind `audio_request`, the given session id or a fresh one when it is empty, the metadata with format and chunk numbers, the options, `config` set to the keyword arguments; its audio decodes to exactly the input bytes |
| `Messages.CreateAudioResponse` | src/mqtt/messages.py:180-212 | device and session copied from the request, the request's audio format with the chunk numbers, the given transcript, cost and metadata; its audio decodes to exactly the input bytes |
| `Messages.CreateError` | src/mqtt/messages.py:227-246 | kind `error` with the code and text; `original_message_id` is the original's id exactly when there is an original |
| `Messages.SlashIndexAfter` | src/mqtt/messages.py:302 | in `x/y`, with no `/` in `x`, the first slash comes right after `x` |
| `Messages.SplitAtSlash` | src/mqtt/messages.py:302 | a slash-free head is recovered uniquely from `head/tail` |
| `Messages.KindPathSlash` | src/mqtt/messages.py:303 | a `/suffix` is appended exactly when the suffix is non-empty |
| `Messages.CreateTopicInjective` | src/mqtt/messages.py:299-303 | for device ids without `/`, the device, kind and suffix can be read back from the topic |
| `Messages.CreateTopic` | src/mqtt/messages.py:300-303 | the topic is `iot/`, the device id, `/`, and the kind path (the tag, then `/suffix` when the suffix is non-empty) |
| `Messages.GetAudioBytes` | src/mqtt/messages.py:94-96 | the audio text of a message made by base64-encoding some bytes decodes to exactly those bytes; any decoded result has at most three bytes per four characters |
| `AIBase.DefaultSupportedFeatures` | src/ai_services/base.py:88-96 | the five features are listed and only `streaming` is on |
| `AIBase.SessionKey` | src/ai_services/base.py:102-104 | the key is the device id, then one colon, then the session id |
| `AIBase.SessionKeyInjective` | src/ai_services/base.py:102-104 | when device ids contain no colon, equal keys mean equal pairs |
| `AIBase.SessionKeyCollision` | src/ai_services/base.py:102-104 | moving a colon-separated part between the two ids gives a distinct pair with the same key |
| `Json.Lookup` | src/ai_services/base.py:109 | `dict.get(key)` and `os.getenv(name)`: the stored value exactly when the key is present, else None |
| `AIBase.Cleared` | src/ai_services/base.py:119 | `pop(key, None)` drops that key only and keeps every other entry |
| `AIBase.FetchAfterStore` | src/ai_services/base.py:106-114 | a get after a store for the same key returns the stored data |
| `AIBase.OtherKeysUntouched` | src/ai_services/base.py:111-119 | a store or a clear under one key leaves every other key's entry unchanged |
| `AIBase.ClearProperties` | src/ai_services/base.py:116-119 | clearing an absent key changes nothing, clearing is idempotent, a get after a clear finds nothing |
| `AIBase.DistinctPairsSeparate` | src/ai_services/base.py:102-114 | with colon-free device ids, a store for one pair is invisible to a get for another pair |
| `AIBase.SessionCache.constructor` | src/ai_services/base.py:52-55 | the cache starts empty |
| `AIBase.SessionCache.GetSessionData` | src/ai_services/base.py:106-109 | returns the entry under the pair's key, if any |
| `AIBase.SessionCache.StoreSessionData` | src/ai_services/base.py:111-114 | replaces the entry under the pair's key and nothing else |
| `AIBase.SessionCache.ClearSessionData` | src/ai_services/base.py:116-119 | drops the pair's entry if present and nothing else |
| `Realtime.ReadSettings` | src/ai_services/openai_realtime.py:32-41 | construction fails exactly when `api_key` is missing or falsy, with "OpenAI API key is required"; otherwise model and base URL take their defaults when absent |
| `Realtime.SupportedFeatures` | src/ai_services/openai_realtime.py:148-156 | streaming, voice activity detection and language detection are on, the other two off |
| `Realtime.Take` | src/ai_services/openai_realtime.py:279 | a receive on an open socket takes the next pending reply, or times out when there is none; a closed socket stays closed |
| `Realtime.Socket.constructor` | src/ai_services/openai_realtime.py:199-204 | a new connection is open, has sent nothing, and holds its future replies |
| `Realtime.Socket.Send` | src/ai_services/openai_realtime.py:259 | a send on an open socket appends that one message; on a closed socket it fails and sends nothing |
| `Realtime.Socket.Recv` | src/ai_services/openai_realtime.py:279 | agrees with `Take` and sends nothing |
| `Realtime.Socket.Close` | src/ai_services/openai_realtime.py:58 | the socket is closed and nothing else changes |
| `Realtime.VoiceOf` | src/ai_services/openai_realtime.py:215 | `voice or "alloy"`: the request's voice when non-empty, else `alloy` |
| `Realtime.SessionUpdate` | src/ai_services/openai_realtime.py:216-233 | the handshake message has type `session.update` |
| `Realtime.AudioMessagesOrder` | src/ai_services/openai_realtime.py:244-269 | three messages, in the order append, commit, create; the appended audio decodes to the clip |
| `Realtime.SessionCreated` | src/ai_services/openai_realtime.py:237-242 | the handshake reply is accepted exactly when it is an object of type `session.created` |
| `Realtime.HealthReply` | src/ai_services/openai_realtime.py:139-142 | healthy exactly when the reply's type is `session.created` |
| `Realtime.HealthAgreesWithHandshake` | src/ai_services/openai_realtime.py:114-146 | the health check accepts exactly the first replies that let a session be created |
| `Realtime.InitOutcome` | src/ai_services/openai_realtime.py:209-242 | the handshake succeeds exactly when the request has its configuration, the socket is open and the first reply is a `session.created` object; a lost connection needs a closed socket or a close as the first reply |
| `Realtime.AudioDelta` | src/ai_services/openai_realtime.py:284-296 | an empty delta yields nothing; a yielded chunk has no transcript and kind `audio_delta` |
| `Realtime.TranscriptDelta` | src/ai_services/openai_realtime.py:298-306 | an empty delta yields nothing; a yielded chunk has no audio, non-empty text, kind `transcript_delta` |
| `Realtime.ErrorEvent` | src/ai_services/openai_realtime.py:312-315 | an `error` event always raises |
| `Realtime.Classify` | src/ai_services/openai_realtime.py:282-315 | every yielded chunk is an audio chunk without text or a text chunk without audio |
| `Realtime.Relay` | src/ai_services/openai_realtime.py:271-323 | the receive loop consumes a prefix of the replies, consumes at least one when any is pending on an open socket, and yields only well-shaped chunks |
| `Realtime.RelayStep` | src/ai_services/openai_realtime.py:278-315 | one turn of the loop: a chunk is prepended, a skip goes on, done stops, an error raises, a timeout or close ends quietly |
| `Realtime.RelayIgnoresLater` | src/ai_services/openai_realtime.py:278-310 | once the loop has stopped, replies after that point change nothing and stay unread |
| `Realtime.DoneEndsStream` | src/ai_services/openai_realtime.py:308-310 | `response.done` ends the stream with no chunk and no error, and nothing after it is read |
| `Realtime.UnknownEventSkipped` | src/ai_services/openai_realtime.py:282-315 | an event of any other type yields nothing and the loop goes on |
| `Realtime.AudioDeltaYields` | src/ai_services/openai_realtime.py:284-296 | a non-empty audio delta yields one chunk whose audio is the decoded delta, with empty transcript; an empty one yields nothing |
| `Realtime.TranscriptDeltaYields` | src/ai_services/openai_realtime.py:298-306 | a non-empty transcript delta yields one chunk with that text and no audio; an empty one yields nothing |
| `Realtime.ErrorEventRaises` | src/ai_services/openai_realtime.py:312-315 | an `error` event whose `error` field is an object or absent raises with `error.message`, or "Unknown error" when the field or the message is absent, and ends the stream |
| `Realtime.BareErrorEventRaises` | src/ai_services/openai_realtime.py:312-315 | the event `{"type": "error"}` with no `error` field raises "Unknown error" and ends the stream |
| `Realtime.QuietEndIsNormal` | src/ai_services/openai_realtime.py:317-320 | a timeout or a closed connection ends the stream with no chunk and no error |
| `Realtime.Numbered` | src/ai_services/openai_realtime.py:88-103 | one response per chunk, in order, the i-th built from the i-th chunk with `chunk_id` i |
| `Realtime.NumberedFields` | src/ai_services/openai_realtime.py:92-102 | response i has `chunk_id` i, `total_chunks` 1, format `mp3`, the request's session, and the chunk's audio, text and kind |
| `Realtime.Service.constructor` | src/ai_services/openai_realtime.py:32-38 | the service keeps its settings and starts with no sessions |
| `Realtime.Service.InitializeSession` | src/ai_services/openai_realtime.py:209-242 | the handshake sends `session.update` once and reads one reply; its outcome is `InitOutcome` (missing config, lost connection, timeout, malformed or rejected reply); without a config or on a closed socket the socket is untouched; after a success the socket is open |
| `Realtime.Service.GetOrCreateSession` | src/ai_services/openai_realtime.py:164-189 | the cached socket is returned, with nothing changed, exactly when its key is present and open; otherwise without a connection it fails; otherwise the handshake decides, and only its success stores the new entry under the key, other keys untouched |
| `Realtime.Service.SendAudioData` | src/ai_services/openai_realtime.py:244-269 | on an open socket, exactly the three audio messages are appended to what was sent |
| `Realtime.Service.ReceiveAudioResponses` | src/ai_services/openai_realtime.py:271-323 | the loop yields the chunks and raises the error that `Relay` specifies, and leaves the socket where `Relay` says |
| `Realtime.Service.NumberChunks` | src/ai_services/openai_realtime.py:88-103 | the `chunk_id` counter loop builds exactly `Numbered` |
| `Realtime.Service.ProcessAudioStream` | src/ai_services/openai_realtime.py:63-112 | on a ready session the responses and error are those of `Served`; a lost connection drops the key's entry and nothing else; any other handshake failure leaves the table; every response is numbered in order, one of one, `mp3`, for the request's session; the used socket (the ready session's, or the new connection) has `session.update` (new connection with a config), then the three audio messages of `send_audio_data` appended to what it was sent, and its closed flag and pending replies are what `Relay` leaves after the handshake's receive; every other socket of the table keeps what it was sent, its pending replies and its closed flag |
| `Realtime.Served` | src/ai_services/openai_realtime.py:88-112 | one response per relayed chunk, numbered from 0, for the request's session, carrying the chunk's audio and transcript; an error exactly when the relay failed, and never a lost connection |
| `Realtime.Service.Cleanup` | src/ai_services/openai_realtime.py:50-61 | every session socket ends closed, nothing else is sent or read, and the table is empty |
| `MqttServer.FormatTopic` | src/mqtt/client.py:324 | a template without an opening brace `{` is its own topic |
| `MqttServer.FormatLiteral` | src/mqtt/client.py:324 | brace-free text passes through `format` unchanged |
| `MqttServer.FormatPlaceholder` | src/mqtt/client.py:324 | `{device_id}` is replaced by the device id |
| `MqttServer.DefaultResponseTopic` | src/mqtt/client.py:72 | the default template gives `iot/<device>/audio_response`, the topic `create_topic` builds |
| `MqttServer.CountTrue` | src/mqtt/client.py:337-340 | no more responses are counted than were published |
| `MqttServer.HealthStatus` | src/mqtt/client.py:374 | `healthy` exactly when the provider is healthy, otherwise `degraded` |
| `MqttServer.BoolMap` | src/mqtt/client.py:422 | the feature map is reported under the same keys with the same truth values |
| `MqttServer.Server.constructor` | src/mqtt/client.py:52-77 | the server starts with no active session, zero counters and nothing published, within capacity |
| `MqttServer.Server.SendAudioResponse` | src/mqtt/client.py:322-343 | with a client, one publication on the device's response topic; `responses_sent` grows by one exactly when the broker accepted it; nothing else changes |
| `MqttServer.Server.SendErrorResponse` | src/mqtt/client.py:345-366 | with a client, one error publication on the device's response topic that carries the request's device, session and id, the code and the text; no counter changes |
| `MqttServer.Server.Admit` | src/mqtt/client.py:261-272 | admitted exactly when the active set is below the limit, even when the id is already in it; a rejection publishes `CAPACITY_EXCEEDED` and discards the id; no counter changes; the capacity bound is kept |
| `MqttServer.Server.Release` | src/mqtt/client.py:318-320 | the `finally` removes the session id and keeps the capacity bound |
| `MqttServer.Server.RespondToChunk` | src/mqtt/client.py:291-307 | one response publication built from the stream chunk: the request's device, session and format, the chunk's numbers, text, cost, metadata and audio |
| `MqttServer.Server.RespondToStream` | src/mqtt/client.py:291-307 | exactly one response per chunk, in stream order; `responses_sent` grows by the number of accepted publishes |
| `MqttServer.Server.Serve` | src/mqtt/client.py:274-316 | undecodable audio or a stream failure publishes `PROCESSING_ERROR` and raises `errors` by one; a clean stream raises `requests_processed` by one; the responses come first, in order |
| `MqttServer.Server.Served` | src/mqtt/client.py:274-316 | a served request raises exactly one of `requests_processed` and `errors` by one, and counts no more responses than it publishes |
| `MqttServer.Server.HandleAudioRequest` | src/mqtt/client.py:252-320 | the session id is absent afterwards on every path; at capacity only the rejection is published and no counter changes; otherwise `Served`; the capacity bound is kept |
| `MqttServer.Server.HandleMessage` | src/mqtt/client.py:236-250 | the parse result is `parse_message` of the payload; an unparsable payload raises `errors` by one and publishes nothing; a parsed non-request changes nothing; an audio request at capacity publishes `CAPACITY_EXCEEDED` on the device's response topic and changes no counter; one below capacity is served as `Served` says; the session id is discarded on every path |
| `MqttServer.Server.StatsValue` | src/mqtt/client.py:64-68 | the stats snapshot has the three counters under their names |
| `MqttServer.Server.CreateHealthMessage` | src/mqtt/client.py:407-425 | a well-formed health message from device `server`, with no session, the given status and uptime, the active count, the service's features and counters |
| `MqttServer.Server.PublishHealth` | src/mqtt/client.py:371-384 | with a client, one retained health publication on the health topic, which is the message `create_health_message` builds from the pre-call counters and sessions for some fresh id and time, with the status chosen from the provider's health; no counter or session changes |
| `MqttServer.Server.GetStats` | src/mqtt/client.py:427-436 | the five statistics: the active count, the running flag, connected only with a connected client, and the counters |
| `MqttServer.Request` | src/mqtt/messages.py:111-145 | a request built by `create` keeps a non-empty session id |
| `MqttServer.CapacityOvershoot` | src/mqtt/client.py:261-272 | with a limit of one, a rejected duplicate's `finally` frees the slot, so two requests end up in flight at once |
| `MqttServer.SharedSessionSlot` | src/mqtt/client.py:263-272 | two devices with the same session id are both admitted and occupy one slot |
| `TestDevice.ChunksJoin` | tests/simple_client.py:188-193 | the chunks joined together are the input bytes |
| `TestDevice.Chunks` | tests/simple_client.py:188-193 | the slices `data[i:i + size]` for `i` in `range(0, len(data), size)`: full-size slices, then the remainder (no contract of its own; `ChunksJoin`, `ChunksSizes`, `ChunksCount` and `ChunksCover` state its properties) |
| `TestDevice.ChunksSizes` | tests/simple_client.py:188-193 | every chunk is non-empty and at most the chunk size; all but the last are exactly the chunk size |
| `TestDevice.ChunksCount` | tests/simple_client.py:188-193 | there are ⌈n / size⌉ chunks, so none for empty input |
| `TestDevice.ChunksCover` | tests/simple_client.py:188-193 | the chunk count c satisfies (c−1)·size < n ≤ c·size, and is zero exactly for empty input |
| `TestDevice.SplitIntoChunks` | tests/simple_client.py:188-193 | the slicing loop raises for a zero step, gives no chunks for a negative one, and otherwise gives exactly `Chunks` |
| `TestDevice.HeardOfParseAgrees` | tests/simple_client.py:87-111 | the client's reaction depends only on the payload, not on the fresh id or clock of the parse |
| `TestDevice.Classify` | tests/simple_client.py:87-111 | parsing and branching as `_on_message` does gives `HeardOf` |
| `TestDevice.HeardOf` | tests/simple_client.py:87-111 | a payload is a response when it parses as an `AudioResponseMessage` of kind `audio_response`, an error when it parses as an `ErrorMessage` of kind `error`, and nothing otherwise (no contract of its own; `Classify` and `HeardOfParseAgrees` state its properties) |
| `TestDevice.Reacted` | tests/simple_client.py:92-107 | a response raises `responses_received` by one and an error sets `error_received` and `should_exit` (no contract of its own; `ResponseCounted`, `ErrorLatches` and `OtherKindsIgnored` state its properties) |
| `TestDevice.ReactedAllEffect` | tests/simple_client.py:87-111 | a run of messages raises the counter by the number of responses; the exit and error flags are set exactly when one was set before or an error arrived; `connected` is untouched |
| `TestDevice.ResponseCounted` | tests/simple_client.py:92-93 | an audio response raises `responses_received` by one and changes nothing else |
| `TestDevice.ErrorLatches` | tests/simple_client.py:99-107 | an error message sets `error_received` and `should_exit` and changes nothing else |
| `TestDevice.OtherKindsIgnored` | tests/simple_client.py:92-99 | a parsed message of any other kind changes nothing |
| `TestDevice.UnparsableIgnored` | tests/simple_client.py:110-111 | a payload that fails to parse changes nothing |
| `TestDevice.ReactedAllConsistent` | tests/simple_client.py:105-107 | `error_received` and `should_exit` stay equal under any run of messages |
| `TestDevice.ReactedAllConcat` | tests/simple_client.py:87-111 | reacting to two runs of messages is reacting to the first, then to the second |
| `TestDevice.Sending` | tests/simple_client.py:225-240 | the early-stop loop sends at most one message per chunk |
| `TestDevice.SendingPrefix` | tests/simple_client.py:225-237 | before every chunk that was sent, `should_exit` was clear; every sent chunk but the last was published successfully |
| `TestDevice.SendingStopReason` | tests/simple_client.py:225-237 | when the loop stops early, `should_exit` was set before the next chunk or the last send failed |
| `TestDevice.QuietRunSendsAll` | tests/simple_client.py:225-240 | with every publish successful and no message arriving, every chunk is sent and the flags are unchanged |
| `TestDevice.SendingConsistent` | tests/simple_client.py:225-240 | the send loop keeps `error_received` equal to `should_exit` |
| `TestDevice.TopicsAgree` | tests/simple_client.py:42-43 | the client's request and response topics are the ones `create_topic` builds |
| `TestDevice.IoTClient.constructor` | tests/simple_client.py:28-48 | the client starts disconnected, with zero responses, both flags clear, the device's two topics, no subscription and nothing sent |
| `TestDevice.IoTClient.OnConnect` | tests/simple_client.py:70-80 | `rc == 0` sets `connected` and subscribes to the response topic; any other code changes nothing |
| `TestDevice.IoTClient.OnDisconnect` | tests/simple_client.py:82-85 | `connected` is cleared and nothing else changes |
| `TestDevice.IoTClient.OnMessage` | tests/simple_client.py:87-111 | the flags change as `Reacted` says for the payload's meaning |
| `TestDevice.IoTClient.Deliver` | tests/simple_client.py:87-111 | a run of deliveries changes the flags as `ReactedAll` says |
| `TestDevice.IoTClient.SendAudioChunk` | tests/simple_client.py:113-135 | returns true exactly when the publish result is success; one request is published on the request topic carrying the device, the session and the chunk's bytes |
| `TestDevice.IoTClient.SendChunks` | tests/simple_client.py:225-240 | the number of chunks sent and the final flags are those of `Sending`; the published requests are the first chunks, in order |
| `Config.ParseIntText` | src/config.py:72 | `int(str(n)) == n` for every integer |
| `Config.ParseIntStrips` | src/config.py:72 | `int()` ignores the white space it skips around a literal (tab, line feed, vertical tab, form feed, carriage return, space), and trimming twice is trimming once |
| `Config.ParseDigitsRejects` | src/config.py:72 | a bare sign, a leading, trailing or doubled underscore and a non-digit are not integer literals |
| `Config.ParseDigitsUnderscore` | src/config.py:72 | single underscores between digits are accepted, `1_000` being 1000 |
| `Config.ParseIntSeparators` | src/config.py:72 | the separators U+001C to U+001F around a digit make `int()` raise, because they are not the white space it skips |
| `Config.ParseInt` | src/config.py:72 | an accepted literal, stripped of white space, ends in a digit and starts with a digit or a sign, and a negative value has a leading `-` |
| `Config.ParseIntBlank` | src/config.py:72 | blank text is not an integer literal |
| `Json.Get` | src/config.py:71 | `os.getenv(name, default)` and `dict.get(key, default)`: the stored value when the key is present, else the default |
| `Config.LowerAscii` | src/config.py:76 | lower-casing keeps the length |
| `Config.IsTrueTextCases` | src/config.py:76 | a flag is on exactly for the four letters t, r, u, e in any case |
| `Config.FlagDefaults` | src/config.py:104 | the default TLS text is off and the default health-check text is on |
| `Config.FromEnvSucceeds` | src/config.py:59-112 | `from_env` succeeds exactly when all five integer variables are literals and the API key is non-empty |
| `Config.FromEnv` | src/config.py:59-112 | on success the API key is the variable's value and non-empty; an invalid-literal error carries a text that `int()` refuses |
| `Config.MqttSucceeds` | src/config.py:70-81 | the MQTT section succeeds exactly when port and keepalive are literals |
| `Config.ServerSucceeds` | src/config.py:100-106 | the server section succeeds exactly when its three integer variables are literals |
| `Config.FromEnvErrorOrder` | src/config.py:69-112 | an MQTT error comes first, then the missing API key (both directions), then a server error |
| `Config.MqttErrorOrder` | src/config.py:70-81 | a bad port is reported before a bad keepalive, with the offending text |
| `Config.ServerErrorOrder` | src/config.py:100-106 | max sessions, then timeout, then interval are checked in that order, and the offending text is reported |
| `Config.ApiKeyRequired` | src/config.py:84-86 | the OpenAI section fails exactly when the key is unset or empty, with the required-key message; otherwise the key is kept |
| `Config.DefaultLiterals` | src/config.py:70-106 | the default texts of the five integer variables parse to 1883, 60, 50, 300 and 30 |
| `Config.MqttDefaults` | src/config.py:70-81 | each unset MQTT variable takes its default: localhost, 1883, no credentials, `mqtt-ai-server`, no TLS, 60, the three topics |
| `Config.MqttPresent` | src/config.py:70-81 | each set MQTT variable is used: host, parsed port and keepalive, credentials, the TLS flag test |
| `Config.OpenAIDefaults` | src/config.py:88-97 | each unset OpenAI variable takes its default model, URL, voice and instructions |
| `Config.ServerDefaults` | src/config.py:100-106 | each unset server variable takes its default: 50, 300, `INFO`, on, 30; a set flag is the flag test |
| `Config.FromEnvSections` | src/config.py:108-112 | a successful `from_env` is the three sections put together |
| `Config.ToDict` | src/config.py:114-143 | `to_dict` has exactly the three sections |
| `Config.ToDictRedacts` | src/config.py:121-130 | the API key is always `***`; the password is `***` when non-empty, otherwise null |
| `Config.ToDictHidesSecrets` | src/config.py:114-143 | changing the API key, or the password without changing whether it is empty, does not change `to_dict` |
| `Config.ToDictKeepsTheRest` | src/config.py:114-143 | two configurations with the same `to_dict` agree on every field except the secrets |
| `Config.MqttDictKeeps` | src/config.py:117-128 | the MQTT section determines every MQTT field except the password |
| `Config.OpenAIDictKeeps` | src/config.py:129-135 | the OpenAI section determines every OpenAI field except the key |
| `Config.ServerDictKeeps` | src/config.py:136-142 | the server section determines the whole server configuration |

## Left out

- MQTT plumbing is not modelled: the paho client, TLS, the will message, `start`/`stop`, the connect-wait loop and the cross-thread hand-off in `_on_message` (`src/mqtt/client.py:82-234`). A publish becomes an appended log entry whose acceptance is an input.
- Websocket I/O is not modelled. `websockets.connect` becomes a caller-supplied `Socket` (or null when connecting fails), and `health_check` is modelled only as its reply decision (`Realtime.HealthReply`), because both are network calls.
- `initialize` only calls `health_check`, so it adds nothing beyond `Realtime.HealthReply`.
- The background loops `_health_check_task` and `_session_cleanup_task` are not modelled, because they are timer loops. One round of the health loop is `MqttServer.Server.PublishHealth`, and the cleanup loop only logs.
- Floating point is not modelled. Timestamps, `processing_time_ms`, uptime and `estimate_cost` with its rounding are caller-supplied reals.
- UUIDs and the clock are inputs (`Token`, `Clock`), because they are nondeterministic.
- JSON text syntax and UTF-8 decoding are not modelled. A payload is either a decoded document or unparsable.
- The pydub conversion, reading `test.mp3`, `convert_mp3_to_pcm16`, and the PCM16 placeholders of the provider are not modelled. The placeholders are the identity in the source, and the model treats them so.
- `main` in `tests/simple_client.py` is modelled only as its send loop, because the rest is timed waiting and printing. Left out are the session-id clock, the sleeps, the 30-second response wait and the final report (lines 242-264), and `connect`'s wait loop. Messages that arrive during a chunk's send are an input, delivered before the next `should_exit` check.
- `src/main.py`, `main.py`, the `__init__.py` files and `examples/simple_client.py` are not part of this model, because they are wiring or a copy of the test client.
- `load_dotenv` and `create_example_env_file` are not modelled, because they are file and process-environment I/O. `from_env` reads a given environment map.
- Exception texts produced by `str(e)` are not modelled. The provider's failures carry their cause (`Realtime.Cause`), not their text, and the MQTT handler receives a stream failure's text as an input. Only the base64 errors and the configuration errors are given their text.
- `Messages.Construct`: a present field whose JSON shape does not fit its declared type (a number given for `device_id`, say) is refused as a schema mismatch. Python dataclasses do not check types, so the source would accept such a message.
- `Realtime.TranscriptDelta`: a truthy delta that is not a string is treated as a malformed event, rather than passed on as the transcript.
- `Realtime.Socket.Send`: `SendAudioData` always succeeds on the socket the handshake left open. The model has no failures of a send on an open socket.
- `MqttServer.Server.Serve`: which of the provider's chunks the broker accepts is an input list, not a broker model.
- The `AudioRequest` that `_handle_audio_request` hands the provider is not built by the model: its fields, that is the `instructions`/`config` merge into `additional_config` and the voice and format taken from the request, are not modelled, because the provider's stream is an input of `MqttServer.Server.Serve`.
- `Config.ParseIntText`: `int()` is modelled for ASCII white space and ASCII digits only. Python also accepts Unicode digits and spaces. The limit of `sys.get_int_max_str_digits()` (4300 digits by default since Python 3.11) is not modelled either. The model accepts a longer literal, and `ParseIntText` states `int(str(n)) == n` also for an `n` of more than 4300 digits, where Python raises `ValueError`.
- `Config.ErrorText`: the offending text is quoted without `repr` escaping.
- `MqttServer.FormatTopic` models `str.format` for the `{device_id}` placeholder only. Other fields, `{{` escapes and format specs are not modelled. Closing braces are not modelled either: `str.format` turns `}}` into `}` and raises `ValueError` on a lone `}`, while the model copies every `}` unchanged.
- Real concurrency is not modelled. The admit step (`src/mqtt/client.py:263-272`) and the release step (line 320) are atomic methods, and interleavings are written out as sequences of those steps (`MqttServer.CapacityOvershoot`).
