/**
 * The MQTT side of the server: admission control over the set of active session ids, the
 * request handler that relays a provider's stream to the device's response topic, the
 * message counters, and the health and statistics reports.
 *
 * Publishing appends to a log; whether the broker accepted a response is an input. The
 * provider's stream arrives as a finished sequence of chunks, possibly ending in a failure.
 */
module MqttServer {
  import opened Wrappers
  import opened Json
  import Base64
  import Messages
  import AIBase

  const DefaultRequestPattern := "iot/+/audio_request"
  const DefaultResponseTemplate := "iot/{device_id}/audio_response"
  const DefaultHealthTopic := "iot/server/health"
  const DefaultMaxSessions := 50
  const Placeholder := "{device_id}"

  // ---------------------------------------------------------------------------------------
  // Topics
  // ---------------------------------------------------------------------------------------

  /** `template.format(device_id=d)`: every `{device_id}` is replaced by the device id. */
  function FormatTopic(template: string, deviceId: string): (topic: string)
    ensures '{' !in template ==> topic == template
    decreases |template|
  {
    if template == [] then []
    else if template[0] == '{' && |template| >= |Placeholder| && template[..|Placeholder|] == Placeholder then
      deviceId + FormatTopic(template[|Placeholder|..], deviceId)
    else [template[0]] + FormatTopic(template[1..], deviceId)
  }

  lemma FormatLiteral(prefix: string, rest: string, deviceId: string)
    requires '{' !in prefix
    ensures FormatTopic(prefix + rest, deviceId) == prefix + FormatTopic(rest, deviceId)
    decreases |prefix|
  {
    if prefix != [] {
      var t := prefix + rest;
      assert t[0] == prefix[0] && t[1..] == prefix[1..] + rest;
      assert prefix[0] in prefix && prefix == [prefix[0]] + prefix[1..];
      FormatStep(t, deviceId);
      FormatLiteral(prefix[1..], rest, deviceId);
    } else {
      assert prefix + rest == rest;
    }
  }

  /** A character other than an opening brace is copied. */
  lemma FormatStep(t: string, deviceId: string)
    requires t != [] && t[0] != '{'
    ensures FormatTopic(t, deviceId) == [t[0]] + FormatTopic(t[1..], deviceId)
  {
  }

  lemma FormatPlaceholder(rest: string, deviceId: string)
    ensures FormatTopic(Placeholder + rest, deviceId) == deviceId + FormatTopic(rest, deviceId)
  {
    var t := Placeholder + rest;
    assert t[0] == '{';
    assert t[..|Placeholder|] == Placeholder;
    assert t[|Placeholder|..] == rest;
  }

  lemma NoBraceInTail()
    ensures '{' !in "/audio_response"
  {
  }

  /** With the default template, a device's response topic is the one `create_topic` builds. */
  lemma DefaultResponseTopic(deviceId: string)
    ensures FormatTopic(DefaultResponseTemplate, deviceId) == Messages.CreateTopic(deviceId, Messages.AudioResponse, "")
  {
    var tail := "/audio_response";
    assert DefaultResponseTemplate == "iot/" + (Placeholder + tail);
    FormatLiteral("iot/", Placeholder + tail, deviceId);
    FormatPlaceholder(tail, deviceId);
    NoBraceInTail();
    ResponseTopicShape(deviceId);
  }

  lemma ResponseTopicShape(deviceId: string)
    ensures Messages.CreateTopic(deviceId, Messages.AudioResponse, "") == "iot/" + (deviceId + "/audio_response")
  {
    assert Messages.KindPath(Messages.AudioResponse, "") == "audio_response";
    assert deviceId + "/" + "audio_response" == deviceId + "/audio_response";
  }

  // ---------------------------------------------------------------------------------------
  // Publications
  // ---------------------------------------------------------------------------------------

  /** One `mqtt_client.publish(topic, message.to_json(), ...)`. */
  datatype Publication = Publication(topic: string, message: Messages.Message, retain: bool)

  /** A provider's stream as `_handle_audio_request` consumes it: the chunks, then `str(e)` if it raised. */
  datatype Stream = Stream(chunks: seq<AIBase.AudioResponse>, failure: Option<string>)

  /** The publication of the response built for one stream chunk. */
  predicate RespondsTo(p: Publication, request: Messages.Message, chunk: AIBase.AudioResponse, topic: string)
    requires request.AudioRequestMessage?
  {
    var m := p.message;
    && p.topic == topic && !p.retain
    && m.AudioResponseMessage? && Messages.WellFormed(m)
    && m.env.deviceId == request.env.deviceId && m.env.sessionId == request.env.sessionId
    && m.metadata == Messages.DefaultMetadata.(format := request.metadata.format, chunkId := chunk.chunkId,
                                               totalChunks := chunk.totalChunks)
    && m.transcript == chunk.transcript && m.costEstimate == chunk.costEstimate
    && m.responseMetadata == chunk.metadata
    && Messages.GetAudioBytes(m) == Success(chunk.audioData)
  }

  /** The publication of an error answering `request`. */
  predicate ErrorFor(p: Publication, request: Messages.Message, code: string, text: string, topic: string) {
    var m := p.message;
    && p.topic == topic && !p.retain
    && m.ErrorMessage? && Messages.WellFormed(m)
    && m.env.deviceId == request.env.deviceId && m.env.sessionId == request.env.sessionId
    && m.errorCode == code && m.errorMessage == text
    && m.originalMessageId == Some(request.env.messageId)
  }

  /** How many publishes the broker accepted. */
  function CountTrue(s: seq<bool>): (n: nat)
    ensures n <= |s|
  {
    if s == [] then 0 else CountTrue(s[..|s| - 1]) + (if s[|s| - 1] then 1 else 0)
  }

  /** `"healthy" if ai_healthy else "degraded"`. */
  function HealthStatus(aiHealthy: bool): (status: string)
    ensures status == "healthy" || status == "degraded"
    ensures status == "healthy" <==> aiHealthy
  {
    if aiHealthy then "healthy" else "degraded"
  }

  function BoolMap(m: map<string, bool>): (v: map<string, Value>)
    ensures v.Keys == m.Keys
    ensures forall k :: k in m ==> v[k] == Bool(m[k])
  {
    map k | k in m :: Bool(m[k])
  }

  /** `MQTTAIServer` once `start()` has run; whether a client exists and is connected are fixed inputs. */
  class Server {
    const maxSessions: int
    const responseTemplate: string
    const healthTopic: string
    const serviceName: string
    const features: map<string, bool>
    const hasClient: bool
    const connected: bool
    const running: bool
    var active: set<string>
    var requestsProcessed: nat
    var responsesSent: nat
    var errors: nat
    var published: seq<Publication>

    constructor (maxSessions: int, responseTemplate: string, healthTopic: string, serviceName: string,
                 features: map<string, bool>, hasClient: bool, connected: bool, running: bool)
      ensures this.maxSessions == maxSessions && this.responseTemplate == responseTemplate
      ensures this.healthTopic == healthTopic && this.serviceName == serviceName && this.features == features
      ensures this.hasClient == hasClient && this.connected == connected && this.running == running
      ensures active == {} && requestsProcessed == 0 && responsesSent == 0 && errors == 0 && published == []
      ensures WithinCapacity()
    {
      this.maxSessions := maxSessions;
      this.responseTemplate := responseTemplate;
      this.healthTopic := healthTopic;
      this.serviceName := serviceName;
      this.features := features;
      this.hasClient := hasClient;
      this.connected := connected;
      this.running := running;
      active := {};
      requestsProcessed := 0;
      responsesSent := 0;
      errors := 0;
      published := [];
    }

    /** The capacity bound admission keeps (a non-positive limit admits nobody). */
    predicate WithinCapacity()
      reads this
    {
      |active| <= if maxSessions < 0 then 0 else maxSessions
    }

    function ResponseTopic(deviceId: string): string
      reads this
    {
      FormatTopic(responseTemplate, deviceId)
    }

    /** What a served request leaves behind: its publications and its counter updates. */
    twostate predicate Served(request: Messages.Message, stream: Stream, delivered: seq<bool>)
      requires request.AudioRequestMessage? && |delivered| == |stream.chunks|
      reads this
      ensures Served(request, stream, delivered) ==>
                && requestsProcessed + errors == old(requestsProcessed) + old(errors) + 1
                && old(responsesSent) <= responsesSent
                && responsesSent - old(responsesSent) <= |published| - |old(published)|
    {
      var topic := ResponseTopic(request.env.deviceId);
      && old(published) <= published
      && var added := published[|old(published)|..];
      && match Messages.GetAudioBytes(request)
      case Failure(e) =>
        && |added| == (if hasClient then 1 else 0)
        && (hasClient ==> ErrorFor(added[0], request, "PROCESSING_ERROR", Base64.ErrorText(e), topic))
        && requestsProcessed == old(requestsProcessed) && responsesSent == old(responsesSent)
        && errors == old(errors) + 1
      case Success(_) =>
        && |added| == (if hasClient then |stream.chunks| + (if stream.failure.Some? then 1 else 0) else 0)
        && (hasClient ==> forall i :: 0 <= i < |stream.chunks| ==> RespondsTo(added[i], request, stream.chunks[i], topic))
        && (hasClient && stream.failure.Some? ==>
              ErrorFor(added[|stream.chunks|], request, "PROCESSING_ERROR", stream.failure.value, topic))
        && responsesSent == old(responsesSent) + (if hasClient then CountTrue(delivered) else 0)
        && requestsProcessed == old(requestsProcessed) + (if stream.failure.None? then 1 else 0)
        && errors == old(errors) + (if stream.failure.Some? then 1 else 0)
    }

    /** `_send_audio_response`: publish when there is a client; count it when the broker accepted it. */
    method SendAudioResponse(response: Messages.Message, accepted: bool)
      modifies this
      ensures published == old(published) + (if hasClient then [Publication(ResponseTopic(response.env.deviceId), response, false)] else [])
      ensures responsesSent == old(responsesSent) + (if hasClient && accepted then 1 else 0)
      ensures active == old(active) && requestsProcessed == old(requestsProcessed) && errors == old(errors)
    {
      var topic := ResponseTopic(response.env.deviceId);
      if !hasClient {
        return;
      }
      published := published + [Publication(topic, response, false)];
      if accepted {
        responsesSent := responsesSent + 1;
      }
    }

    /** `_send_error_response`: an `ErrorMessage` for the request on its device's response topic. */
    method SendErrorResponse(request: Messages.Message, code: string, text: string)
      modifies this
      ensures old(published) <= published && |published| == |old(published)| + (if hasClient then 1 else 0)
      ensures hasClient ==> ErrorFor(published[|old(published)|], request, code, text, ResponseTopic(request.env.deviceId))
      ensures active == old(active) && requestsProcessed == old(requestsProcessed)
      ensures responsesSent == old(responsesSent) && errors == old(errors)
    {
      var freshId: Messages.Token :| true;
      var now: Messages.Clock :| true;
      var msg := Messages.CreateError(request.env.deviceId, code, text, Some(request), request.env.sessionId, freshId, now);
      var topic := ResponseTopic(request.env.deviceId);
      if hasClient {
        published := published + [Publication(topic, msg, false)];
      }
    }

    /**
     * The admit step of `_handle_audio_request` (lines with no suspension between check and add):
     * a full server answers CAPACITY_EXCEEDED and its `finally` discards the session id.
     */
    method Admit(request: Messages.Message) returns (admitted: bool)
      requires request.AudioRequestMessage?
      modifies this
      ensures admitted <==> |old(active)| < maxSessions
      ensures admitted ==> active == old(active) + {request.env.sessionId} && published == old(published)
      ensures !admitted ==> active == old(active) - {request.env.sessionId}
      ensures !admitted ==> old(published) <= published && |published| == |old(published)| + (if hasClient then 1 else 0)
      ensures !admitted && hasClient ==>
                ErrorFor(published[|old(published)|], request, "CAPACITY_EXCEEDED", "Server at maximum capacity",
                         ResponseTopic(request.env.deviceId))
      ensures requestsProcessed == old(requestsProcessed) && responsesSent == old(responsesSent) && errors == old(errors)
      ensures old(WithinCapacity()) ==> WithinCapacity()
    {
      if |active| >= maxSessions {
        SendErrorResponse(request, "CAPACITY_EXCEEDED", "Server at maximum capacity");
        active := active - {request.env.sessionId};
        return false;
      }
      active := active + {request.env.sessionId};
      admitted := true;
    }

    /** The release step: the `finally` of an admitted request. */
    method Release(sessionId: string)
      modifies this
      ensures active == old(active) - {sessionId}
      ensures published == old(published) && requestsProcessed == old(requestsProcessed)
      ensures responsesSent == old(responsesSent) && errors == old(errors)
      ensures old(WithinCapacity()) ==> WithinCapacity()
    {
      active := active - {sessionId};
    }

    /** One turn of the `async for`: build the chunk's `AudioResponseMessage` and send it. */
    method RespondToChunk(request: Messages.Message, chunk: AIBase.AudioResponse, accepted: bool)
      requires request.AudioRequestMessage?
      modifies this
      ensures old(published) <= published && |published| == |old(published)| + (if hasClient then 1 else 0)
      ensures hasClient ==> RespondsTo(published[|old(published)|], request, chunk, ResponseTopic(request.env.deviceId))
      ensures responsesSent == old(responsesSent) + (if hasClient && accepted then 1 else 0)
      ensures active == old(active) && requestsProcessed == old(requestsProcessed) && errors == old(errors)
    {
      var freshId: Messages.Token :| true;
      var now: Messages.Clock :| true;
      var elapsed: real :| elapsed >= 0.0;
      var response := Messages.CreateAudioResponse(request, chunk.audioData, chunk.transcript, elapsed,
                                                   chunk.costEstimate, chunk.chunkId, chunk.totalChunks,
                                                   chunk.metadata, freshId, now);
      SendAudioResponse(response, accepted);
    }

    /** The `async for` over the provider's chunks, one response each, in stream order. */
    method RespondToStream(request: Messages.Message, chunks: seq<AIBase.AudioResponse>, delivered: seq<bool>)
      requires request.AudioRequestMessage? && |delivered| == |chunks|
      modifies this
      ensures old(published) <= published
      ensures |published| == |old(published)| + (if hasClient then |chunks| else 0)
      ensures hasClient ==> forall j :: 0 <= j < |chunks| ==>
                RespondsTo(published[|old(published)| + j], request, chunks[j], ResponseTopic(request.env.deviceId))
      ensures responsesSent == old(responsesSent) + (if hasClient then CountTrue(delivered) else 0)
      ensures active == old(active) && requestsProcessed == old(requestsProcessed) && errors == old(errors)
    {
      var topic := ResponseTopic(request.env.deviceId);
      var i := 0;
      while i < |chunks|
        invariant 0 <= i <= |chunks|
        invariant active == old(active) && requestsProcessed == old(requestsProcessed) && errors == old(errors)
        invariant old(published) <= published
        invariant |published| == |old(published)| + (if hasClient then i else 0)
        invariant hasClient ==> forall j :: 0 <= j < i ==>
                    RespondsTo(published[|old(published)| + j], request, chunks[j], topic)
        invariant responsesSent == old(responsesSent) + (if hasClient then CountTrue(delivered[..i]) else 0)
      {
        RespondToChunk(request, chunks[i], delivered[i]);
        assert delivered[..i + 1][..i] == delivered[..i];
        i := i + 1;
      }
      assert delivered[..i] == delivered;
    }

    /** The body of `_handle_audio_request` between admission and release. */
    method Serve(request: Messages.Message, stream: Stream, delivered: seq<bool>)
      requires request.AudioRequestMessage? && |delivered| == |stream.chunks|
      modifies this
      ensures Served(request, stream, delivered)
      ensures active == old(active)
    {
      var audio := Messages.GetAudioBytes(request);
      if audio.Failure? {
        SendErrorResponse(request, "PROCESSING_ERROR", Base64.ErrorText(audio.error));
        errors := errors + 1;
        return;
      }
      RespondToStream(request, stream.chunks, delivered);
      if stream.failure.Some? {
        SendErrorResponse(request, "PROCESSING_ERROR", stream.failure.value);
        errors := errors + 1;
      } else {
        requestsProcessed := requestsProcessed + 1;
      }
    }

    /** `_handle_audio_request`: admit, serve, and always discard the session id at the end. */
    method HandleAudioRequest(request: Messages.Message, stream: Stream, delivered: seq<bool>)
      requires request.AudioRequestMessage? && |delivered| == |stream.chunks|
      modifies this
      ensures active == old(active) - {request.env.sessionId}
      ensures |old(active)| >= maxSessions ==>
                && old(published) <= published && |published| == |old(published)| + (if hasClient then 1 else 0)
                && (hasClient ==> ErrorFor(published[|old(published)|], request, "CAPACITY_EXCEEDED",
                                           "Server at maximum capacity", ResponseTopic(request.env.deviceId)))
                && requestsProcessed == old(requestsProcessed) && responsesSent == old(responsesSent)
                && errors == old(errors)
      ensures |old(active)| < maxSessions ==> Served(request, stream, delivered)
      ensures old(WithinCapacity()) ==> WithinCapacity()
    {
      var admitted := Admit(request);
      if admitted {
        Serve(request, stream, delivered);
        Release(request.env.sessionId);
      }
    }

    /** `_handle_message`: parse, route audio requests, count what fails to parse. */
    method HandleMessage(payload: Payload, stream: Stream, delivered: seq<bool>) returns (parsed: Result<Messages.Message, Messages.ParseError>)
      requires |delivered| == |stream.chunks|
      modifies this
      ensures parsed.Failure? ==>
                && errors == old(errors) + 1 && published == old(published) && active == old(active)
                && requestsProcessed == old(requestsProcessed) && responsesSent == old(responsesSent)
      ensures parsed.Success? && !parsed.value.AudioRequestMessage? ==>
                && errors == old(errors) && published == old(published) && active == old(active)
                && requestsProcessed == old(requestsProcessed) && responsesSent == old(responsesSent)
      ensures parsed.Success? && parsed.value.AudioRequestMessage? ==>
                && active == old(active) - {parsed.value.env.sessionId}
                && (|old(active)| < maxSessions ==> Served(parsed.value, stream, delivered))
      ensures parsed.Success? && parsed.value.AudioRequestMessage? && |old(active)| >= maxSessions ==>
                && old(published) <= published && |published| == |old(published)| + (if hasClient then 1 else 0)
                && (hasClient ==> ErrorFor(published[|old(published)|], parsed.value, "CAPACITY_EXCEEDED",
                                           "Server at maximum capacity", ResponseTopic(parsed.value.env.deviceId)))
                && requestsProcessed == old(requestsProcessed) && responsesSent == old(responsesSent)
                && errors == old(errors)
      ensures exists id: Messages.Token, now: Messages.Clock :: parsed == Messages.ParseMessage(payload, id, now)
      ensures old(WithinCapacity()) ==> WithinCapacity()
    {
      var freshId: Messages.Token :| true;
      var now: Messages.Clock :| true;
      parsed := Messages.ParseMessage(payload, freshId, now);
      if parsed.Failure? {
        errors := errors + 1;
      } else if parsed.value.AudioRequestMessage? {
        HandleAudioRequest(parsed.value, stream, delivered);
      }
    }

    /** The counters as `self._message_stats.copy()`. */
    function StatsValue(): (v: Value)
      reads this
      ensures v.Obj? && v.fields.Keys == {"requests_processed", "responses_sent", "errors"}
      ensures v.fields["requests_processed"] == Int(requestsProcessed)
      ensures v.fields["responses_sent"] == Int(responsesSent) && v.fields["errors"] == Int(errors)
    {
      Obj(map["requests_processed" := Int(requestsProcessed), "responses_sent" := Int(responsesSent),
              "errors" := Int(errors)])
    }

    /** `_create_health_message`: device "server", no session, the active count, the service and its stats. */
    function CreateHealthMessage(status: string, uptime: real, freshId: Messages.Token, now: Messages.Clock)
      : (m: Messages.Message)
      reads this
      ensures m.HealthCheckMessage? && Messages.WellFormed(m)
      ensures m.env == Messages.Envelope(freshId, "server", now, Messages.HealthCheck, "")
      ensures m.status == status && m.uptimeSeconds == uptime && m.activeSessions == |active|
      ensures m.systemInfo.Some? && m.systemInfo.value.Keys == {"ai_service", "supported_features", "stats"}
      ensures m.systemInfo.value["stats"] == StatsValue()
      ensures m.systemInfo.value["supported_features"] == Obj(BoolMap(features))
    {
      var info := map["ai_service" := Str(serviceName), "supported_features" := Obj(BoolMap(features)),
                      "stats" := StatsValue()];
      Messages.Initialised(
        Messages.HealthCheckMessage(Messages.Envelope("", "server", now, Messages.HealthCheck, ""),
                                    status, uptime, |active|, Some(info)),
        freshId, now)
    }

    /** One round of `_health_check_task`: the status follows the provider's health, published retained. */
    method PublishHealth(aiHealthy: bool, uptime: real)
      modifies this
      ensures old(published) <= published && |published| == |old(published)| + (if hasClient then 1 else 0)
      ensures hasClient ==>
                var p := published[|old(published)|];
                && p.topic == healthTopic && p.retain
                && p.message.HealthCheckMessage? && p.message.status == HealthStatus(aiHealthy)
                && p.message.activeSessions == |active| && p.message.env.deviceId == "server"
      ensures active == old(active) && requestsProcessed == old(requestsProcessed)
      ensures responsesSent == old(responsesSent) && errors == old(errors)
      ensures hasClient ==>
                exists id: Messages.Token, now: Messages.Clock ::
                  published[|old(published)|].message == old(CreateHealthMessage(HealthStatus(aiHealthy), uptime, id, now))
    {
      var freshId: Messages.Token :| true;
      var now: Messages.Clock :| true;
      var msg := CreateHealthMessage(HealthStatus(aiHealthy), uptime, freshId, now);
      if hasClient {
        published := published + [Publication(healthTopic, msg, true)];
        assert published[|old(published)|].message == old(CreateHealthMessage(HealthStatus(aiHealthy), uptime, freshId, now));
      }
    }

    /** `get_stats`. */
    function GetStats(uptime: real): (stats: map<string, Value>)
      reads this
      ensures stats.Keys == {"uptime_seconds", "active_sessions", "is_running", "mqtt_connected", "message_stats"}
      ensures stats["active_sessions"] == Int(|active|) && stats["is_running"] == Bool(running)
      ensures stats["mqtt_connected"] == Bool(hasClient && connected)
      ensures stats["message_stats"] == StatsValue()
    {
      map["uptime_seconds" := Num(uptime), "active_sessions" := Int(|active|), "is_running" := Bool(running),
          "mqtt_connected" := Bool(hasClient && connected), "message_stats" := StatsValue()]
    }
  }

  // ---------------------------------------------------------------------------------------
  // Interleaved handlers
  // ---------------------------------------------------------------------------------------

  function Request(deviceId: string, sessionId: string): (m: Messages.Message)
    ensures m.AudioRequestMessage? && (sessionId != "" ==> m.env.sessionId == sessionId)
  {
    Messages.CreateAudioRequest(deviceId, [], sessionId, "mp3", None, None, None, 0, 1, map[], "id", "session", 1.0)
  }

  /**
   * Admission bounds the set, not the handlers: with room for one session, a second request
   * for the same session id is turned away and its `finally` frees the slot, so a third
   * request is admitted while the first is still in flight.
   */
  method CapacityOvershoot() returns (inFlight: nat, cap: int)
    ensures inFlight > cap
  {
    var server := new Server(1, DefaultResponseTemplate, DefaultHealthTopic, "OpenAIRealtimeService",
                             AIBase.DefaultSupportedFeatures(), true, true, true);
    var first := server.Admit(Request("device-a", "s"));
    var second := server.Admit(Request("device-b", "s"));
    var third := server.Admit(Request("device-c", "t"));
    inFlight := (if first then 1 else 0) + (if third then 1 else 0);
    cap := server.maxSessions;
  }

  /** Two devices that use the same session id hold one slot between them. */
  method SharedSessionSlot() returns (inFlight: nat, occupied: nat)
    ensures inFlight == 2 && occupied == 1
  {
    var server := new Server(2, DefaultResponseTemplate, DefaultHealthTopic, "OpenAIRealtimeService",
                             AIBase.DefaultSupportedFeatures(), true, true, true);
    var first := server.Admit(Request("device-a", "s"));
    var second := server.Admit(Request("device-b", "s"));
    inFlight := (if first then 1 else 0) + (if second then 1 else 0);
    occupied := |server.active|;
  }
}
