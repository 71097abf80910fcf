/**
 * The test device of `tests/simple_client.py`: it splits its audio into fixed-size chunks,
 * publishes one audio request per chunk to `iot/<device>/audio_request`, and reacts to what
 * arrives on `iot/<device>/audio_response` by counting responses and latching an exit flag on
 * the first error. Publishing is a call whose broker result code is an input; the messages the
 * broker delivers between two chunks are an input too.
 */
module TestDevice {
  import opened Wrappers
  import opened Json
  import Base64
  import opened Messages

  // ---------------------------------------------------------------------------------------
  // Chunking
  // ---------------------------------------------------------------------------------------

  /** What `range(0, n, 0)` raises. */
  const ZeroStepText := "range() arg 3 must not be zero"

  /** The slices `data[i:i + size]` for `i` in `range(0, len(data), size)`. */
  function Chunks(data: seq<Base64.byte>, size: nat): seq<seq<Base64.byte>>
    requires size > 0
    decreases |data|
  {
    if |data| == 0 then []
    else if |data| <= size then [data]
    else [data[..size]] + Chunks(data[size..], size)
  }

  function Flatten<T>(xss: seq<seq<T>>): seq<T> {
    if xss == [] then [] else xss[0] + Flatten(xss[1..])
  }

  /** Joining the chunks gives back the audio. */
  lemma {:induction false} ChunksJoin(data: seq<Base64.byte>, size: nat)
    requires size > 0
    ensures Flatten(Chunks(data, size)) == data
    decreases |data|
  {
    if |data| == 0 {
    } else if |data| <= size {
      assert Flatten(Chunks(data, size)) == data + Flatten([]);
    } else {
      var cs := Chunks(data, size);
      assert cs[0] == data[..size] && cs[1..] == Chunks(data[size..], size);
      ChunksJoin(data[size..], size);
      assert data == data[..size] + data[size..];
    }
  }

  /** Every chunk is non-empty and at most `size` long, and all but the last are exactly `size` long. */
  lemma {:induction false} ChunksSizes(data: seq<Base64.byte>, size: nat)
    requires size > 0
    ensures forall i :: 0 <= i < |Chunks(data, size)| ==> 0 < |Chunks(data, size)[i]| <= size
    ensures forall i :: 0 <= i < |Chunks(data, size)| - 1 ==> |Chunks(data, size)[i]| == size
    decreases |data|
  {
    if |data| > size {
      ChunksSizes(data[size..], size);
      var cs := Chunks(data, size);
      assert cs == [data[..size]] + Chunks(data[size..], size);
      forall i | 0 < i < |cs|
        ensures 0 < |cs[i]| <= size && (i < |cs| - 1 ==> |cs[i]| == size)
      {
        assert cs[i] == Chunks(data[size..], size)[i - 1];
      }
    }
  }

  /** There are `ceil(n / size)` chunks, so empty audio gives none. */
  lemma ChunksCount(data: seq<Base64.byte>, size: nat)
    requires size > 0
    ensures |Chunks(data, size)| == (|data| + size - 1) / size
  {
    ChunksCover(data, size);
    CeilDiv(|data|, size, |Chunks(data, size)|);
  }

  /** The chunks cover the audio with less than one chunk to spare. */
  lemma {:induction false} ChunksCover(data: seq<Base64.byte>, size: nat)
    requires size > 0
    ensures |Chunks(data, size)| == 0 <==> |data| == 0
    ensures |data| > 0 ==> (|Chunks(data, size)| - 1) * size < |data| <= |Chunks(data, size)| * size
    decreases |data|
  {
    if |data| > size {
      ChunksCover(data[size..], size);
      var c := |Chunks(data[size..], size)|;
      assert |Chunks(data, size)| == c + 1;
      assert (c + 1) * size == c * size + size;
      assert (c + 1 - 1) * size == (c - 1) * size + size;
    }
  }

  /** `c` is `ceil(n / size)` when `c` chunks of `size` cover `n` with less than one to spare. */
  lemma CeilDiv(n: nat, size: nat, c: nat)
    requires size > 0
    requires (c == 0 && n == 0) || (c > 0 && (c - 1) * size < n <= c * size)
    ensures c == (n + size - 1) / size
  {
    var x := n + size - 1;
    assert (c - 1) * size + size == c * size;
    assert c * size <= x < c * size + size;
    var q := x / size;
    var r := x % size;
    assert x == q * size + r && 0 <= r < size;
    if q > c {
      MulAtLeast(q - c, size);
    } else if q < c {
      MulAtLeast(c - q, size);
    }
  }

  lemma {:induction false} MulAtLeast(k: int, size: nat)
    requires k >= 1
    ensures k * size >= size
    decreases k
  {
    if k > 1 {
      MulAtLeast(k - 1, size);
      assert k * size == (k - 1) * size + size;
    }
  }

  /** One step of the chunk loop: the chunk at offset `i`, then the chunks from the next offset. */
  lemma ChunksFrom(data: seq<Base64.byte>, size: nat, i: nat)
    requires size > 0 && i < |data|
    ensures Chunks(data[i..], size) ==
            [data[i..if i + size <= |data| then i + size else |data|]] + Chunks(data[if i + size <= |data| then i + size else |data|..], size)
  {
    var t := data[i..];
    if |t| <= size {
      assert data[|data|..] == [];
      assert t == data[i..|data|];
    } else {
      assert t[..size] == data[i..i + size];
      assert t[size..] == data[i + size..];
    }
  }

  /** The chunk loop of `load_and_convert_audio`; a negative size makes the range empty. */
  method SplitIntoChunks(data: seq<Base64.byte>, chunkSize: int) returns (r: Result<seq<seq<Base64.byte>>, string>)
    ensures chunkSize == 0 <==> r.Failure?
    ensures chunkSize == 0 ==> r.error == ZeroStepText
    ensures chunkSize < 0 ==> r == Success([])
    ensures chunkSize > 0 ==> r == Success(Chunks(data, chunkSize))
  {
    if chunkSize == 0 {
      return Failure(ZeroStepText);
    }
    if chunkSize < 0 {
      return Success([]);
    }
    var chunks: seq<seq<Base64.byte>> := [];
    var i := 0;
    while i < |data|
      invariant 0 <= i
      invariant i <= |data| ==> chunks + Chunks(data[i..], chunkSize) == Chunks(data, chunkSize)
      invariant i > |data| ==> chunks == Chunks(data, chunkSize)
      decreases |data| - i
    {
      var end := if i + chunkSize <= |data| then i + chunkSize else |data|;
      ChunksFrom(data, chunkSize, i);
      chunks := chunks + [data[i..end]];
      if i + chunkSize <= |data| {
        i := i + chunkSize;
      } else {
        assert data[end..] == [];
        i := i + chunkSize;
      }
    }
    if i == |data| {
      assert data[i..] == [];
      assert chunks + [] == chunks;
    }
    return Success(chunks);
  }

  // ---------------------------------------------------------------------------------------
  // Reacting to delivered messages
  // ---------------------------------------------------------------------------------------

  /** What a delivered payload means to the device. */
  datatype Heard = ResponseHeard | ErrorHeard | NothingHeard

  /**
   * `_on_message`: a payload that parses as an `AUDIO_RESPONSE`-kind `AudioResponseMessage` is a
   * response, one that parses as an `ERROR`-kind `ErrorMessage` is an error, and anything else,
   * a parse failure included, is nothing.
   */
  function HeardOf(p: Payload): Heard {
    match TagOf(p)
    case Some(AudioResponse) => if Accepted(p) then ResponseHeard else NothingHeard
    case Some(Error) => if Accepted(p) then ErrorHeard else NothingHeard
    case _ => NothingHeard
  }

  /** The branches of `_on_message` on a parse result. */
  function HeardOfParse(r: Result<Message, ParseError>): Heard {
    if r.Failure? then NothingHeard
    else if r.value.env.messageType == AudioResponse && r.value.AudioResponseMessage? then ResponseHeard
    else if r.value.env.messageType == Error && r.value.ErrorMessage? then ErrorHeard
    else NothingHeard
  }

  /** The fresh id and the clock given to the parser do not change what a payload means. */
  lemma HeardOfParseAgrees(p: Payload, freshId: Token, now: Clock)
    ensures HeardOfParse(ParseMessage(p, freshId, now)) == HeardOf(p)
  {
    ParseAccepted(p, freshId, now);
  }

  /** The parse and the two type tests of `_on_message`; a parse failure is caught and means nothing. */
  method Classify(payload: Payload) returns (h: Heard)
    ensures h == HeardOf(payload)
  {
    var freshId: Token :| true;
    var now: Clock :| true;
    var parsed := ParseMessage(payload, freshId, now);
    HeardOfParseAgrees(payload, freshId, now);
    if parsed.Failure? {
      h := NothingHeard;
    } else if parsed.value.env.messageType == AudioResponse && parsed.value.AudioResponseMessage? {
      h := ResponseHeard;
    } else if parsed.value.env.messageType == Error && parsed.value.ErrorMessage? {
      h := ErrorHeard;
    } else {
      h := NothingHeard;
    }
  }

  /** What each payload of a run of deliveries means. */
  function Meanings(ps: seq<Payload>): (hs: seq<Heard>)
    ensures |hs| == |ps| && forall i :: 0 <= i < |ps| ==> hs[i] == HeardOf(ps[i])
  {
    seq(|ps|, i requires 0 <= i < |ps| => HeardOf(ps[i]))
  }

  /** The meanings of the deliveries before each chunk. */
  function Inboxed(inbox: seq<seq<Payload>>): (hss: seq<seq<Heard>>)
    ensures |hss| == |inbox| && forall i :: 0 <= i < |inbox| ==> hss[i] == Meanings(inbox[i])
  {
    seq(|inbox|, i requires 0 <= i < |inbox| => Meanings(inbox[i]))
  }

  /** The client's four state fields. */
  datatype Flags = Flags(connected: bool, responsesReceived: nat, errorReceived: bool, shouldExit: bool)

  const Initial := Flags(false, 0, false, false)

  /** The flags after one delivery. */
  function Reacted(f: Flags, h: Heard): Flags {
    match h
    case ResponseHeard => f.(responsesReceived := f.responsesReceived + 1)
    case ErrorHeard => f.(errorReceived := true, shouldExit := true)
    case NothingHeard => f
  }

  /** The flags after a run of deliveries, in order. */
  function ReactedAll(f: Flags, ps: seq<Heard>): Flags
    decreases |ps|
  {
    if ps == [] then f else ReactedAll(Reacted(f, ps[0]), ps[1..])
  }

  /** How many of the deliveries mean `h`. */
  function CountHeard(ps: seq<Heard>, h: Heard): nat {
    if ps == [] then 0 else (if ps[0] == h then 1 else 0) + CountHeard(ps[1..], h)
  }

  /** Delivering `a` and then `b` is delivering `a + b`. */
  lemma {:induction false} ReactedAllConcat(f: Flags, a: seq<Heard>, b: seq<Heard>)
    ensures ReactedAll(f, a + b) == ReactedAll(ReactedAll(f, a), b)
    decreases |a|
  {
    if a == [] {
      assert a + b == b;
    } else {
      assert (a + b)[0] == a[0] && (a + b)[1..] == a[1..] + b;
      ReactedAllConcat(Reacted(f, a[0]), a[1..], b);
    }
  }

  /**
   * Over a run of deliveries the counter grows by the number of responses, the exit flag and the
   * error flag are set exactly when they were set before or an error arrived, and the connection
   * flag does not change.
   */
  lemma {:induction false} ReactedAllEffect(f: Flags, ps: seq<Heard>)
    ensures ReactedAll(f, ps).responsesReceived == f.responsesReceived + CountHeard(ps, ResponseHeard)
    ensures ReactedAll(f, ps).shouldExit <==> f.shouldExit || CountHeard(ps, ErrorHeard) > 0
    ensures ReactedAll(f, ps).errorReceived <==> f.errorReceived || CountHeard(ps, ErrorHeard) > 0
    ensures ReactedAll(f, ps).connected == f.connected
    decreases |ps|
  {
    if ps != [] {
      ReactedAllEffect(Reacted(f, ps[0]), ps[1..]);
    }
  }

  /** A payload that parses as an audio response raises the counter by one and changes nothing else. */
  lemma ResponseCounted(f: Flags, p: Payload, freshId: Token, now: Clock)
    requires ParseMessage(p, freshId, now).Success?
    requires ParseMessage(p, freshId, now).value.env.messageType == AudioResponse
    ensures Reacted(f, HeardOf(p)) == f.(responsesReceived := f.responsesReceived + 1)
  {
    ParseAccepted(p, freshId, now);
  }

  /** A payload that parses as an error sets both exit flags and leaves the counter and the connection alone. */
  lemma ErrorLatches(f: Flags, p: Payload, freshId: Token, now: Clock)
    requires ParseMessage(p, freshId, now).Success?
    requires ParseMessage(p, freshId, now).value.env.messageType == Error
    ensures Reacted(f, HeardOf(p)) == f.(errorReceived := true, shouldExit := true)
  {
    ParseAccepted(p, freshId, now);
  }

  /** A payload that parses as any other kind changes nothing. */
  lemma OtherKindsIgnored(f: Flags, p: Payload, freshId: Token, now: Clock)
    requires ParseMessage(p, freshId, now).Success?
    requires ParseMessage(p, freshId, now).value.env.messageType !in {AudioResponse, Error}
    ensures Reacted(f, HeardOf(p)) == f
  {
    ParseAccepted(p, freshId, now);
  }

  /** A payload that does not parse leaves the flags as they were. */
  lemma UnparsableIgnored(f: Flags, p: Payload, freshId: Token, now: Clock)
    requires ParseMessage(p, freshId, now).Failure?
    ensures Reacted(f, HeardOf(p)) == f
  {
    ParseAccepted(p, freshId, now);
  }

  /** The error flag and the exit flag are only ever set together. */
  predicate Consistent(f: Flags) {
    f.errorReceived == f.shouldExit
  }

  lemma {:induction false} ReactedAllConsistent(f: Flags, ps: seq<Heard>)
    requires Consistent(f)
    ensures Consistent(ReactedAll(f, ps))
    decreases |ps|
  {
    if ps != [] {
      ReactedAllConsistent(Reacted(f, ps[0]), ps[1..]);
    }
  }

  // ---------------------------------------------------------------------------------------
  // The send loop, as a function of the deliveries and the publish results
  // ---------------------------------------------------------------------------------------

  /** How many chunks the loop of `main` publishes, and the flags when it leaves. */
  datatype Outcome = Outcome(sent: nat, flags: Flags)

  /**
   * `inbox[i]` is what is delivered before the `should_exit` check for chunk `i`, `rcs[i]` the
   * publish result for chunk `i`. The loop stops before a chunk once the exit flag is set and right
   * after a failed publish.
   */
  function Sending(f: Flags, rcs: seq<int>, inbox: seq<seq<Heard>>): (o: Outcome)
    requires |inbox| == |rcs|
    ensures o.sent <= |rcs|
    decreases |rcs|
  {
    if rcs == [] then Outcome(0, f)
    else
      var f1 := ReactedAll(f, inbox[0]);
      if f1.shouldExit then Outcome(0, f1)
      else if rcs[0] != MqttErrSuccess then Outcome(1, f1)
      else
        var o := Sending(f1, rcs[1..], inbox[1..]);
        Outcome(o.sent + 1, o.flags)
  }

  /** The flags once the deliveries before the check for chunk `k` have arrived. */
  function SeenBy(f: Flags, inbox: seq<seq<Heard>>, k: nat): Flags
    requires k <= |inbox|
  {
    ReactedAll(f, Flatten(inbox[..k]))
  }

  /** The deliveries before chunk `k + 1` are those before chunk 1 followed by the rest's first `k`. */
  lemma SeenByShift(f: Flags, inbox: seq<seq<Heard>>, k: nat)
    requires k < |inbox|
    ensures SeenBy(f, inbox, k + 1) == SeenBy(ReactedAll(f, inbox[0]), inbox[1..], k)
  {
    var xss := inbox[..k + 1];
    assert xss[0] == inbox[0] && xss[1..] == inbox[1..][..k];
    ReactedAllConcat(f, inbox[0], Flatten(inbox[1..][..k]));
  }

  /**
   * The chunks sent are a prefix of the list: no chunk is sent once the exit flag has been set by
   * the deliveries up to it, and every chunk but the last sent was published successfully.
   */
  lemma {:induction false} SendingPrefix(f: Flags, rcs: seq<int>, inbox: seq<seq<Heard>>)
    requires |inbox| == |rcs|
    ensures forall k :: 1 <= k <= Sending(f, rcs, inbox).sent ==> !SeenBy(f, inbox, k).shouldExit
    ensures forall k :: 0 <= k < Sending(f, rcs, inbox).sent - 1 ==> rcs[k] == MqttErrSuccess
    decreases |rcs|
  {
    if rcs != [] {
      var f1 := ReactedAll(f, inbox[0]);
      if !f1.shouldExit && rcs[0] == MqttErrSuccess {
        SendingPrefix(f1, rcs[1..], inbox[1..]);
        forall k | 1 <= k <= Sending(f, rcs, inbox).sent
          ensures !SeenBy(f, inbox, k).shouldExit
        {
          SeenByShift(f, inbox, k - 1);
          if k > 1 {
            SeenByShift(f1, inbox[1..], k - 2);
          }
        }
      } else {
        SeenByShift(f, inbox, 0);
      }
    }
  }

  /** A loop that stops before the end stopped on the exit flag or right after a failed publish. */
  lemma {:induction false} SendingStopReason(f: Flags, rcs: seq<int>, inbox: seq<seq<Heard>>)
    requires |inbox| == |rcs|
    ensures Sending(f, rcs, inbox).sent < |rcs| ==>
              || SeenBy(f, inbox, Sending(f, rcs, inbox).sent + 1).shouldExit
              || (Sending(f, rcs, inbox).sent > 0 && rcs[Sending(f, rcs, inbox).sent - 1] != MqttErrSuccess)
    decreases |rcs|
  {
    if rcs != [] {
      var f1 := ReactedAll(f, inbox[0]);
      SeenByShift(f, inbox, 0);
      if !f1.shouldExit && rcs[0] == MqttErrSuccess {
        SendingStopReason(f1, rcs[1..], inbox[1..]);
        var j := Sending(f1, rcs[1..], inbox[1..]).sent;
        if j + 1 < |rcs| {
          SeenByShift(f, inbox, j + 1);
          assert j > 0 ==> rcs[1..][j - 1] == rcs[j];
        }
      }
    }
  }

  /** With no deliveries and no failures, every chunk is sent. */
  lemma {:induction false} QuietRunSendsAll(f: Flags, rcs: seq<int>, inbox: seq<seq<Heard>>)
    requires |inbox| == |rcs| && !f.shouldExit
    requires forall i :: 0 <= i < |rcs| ==> rcs[i] == MqttErrSuccess && inbox[i] == []
    ensures Sending(f, rcs, inbox) == Outcome(|rcs|, f)
    decreases |rcs|
  {
    if rcs != [] {
      QuietRunSendsAll(f, rcs[1..], inbox[1..]);
    }
  }

  /** The loop keeps the two exit flags in step. */
  lemma {:induction false} SendingConsistent(f: Flags, rcs: seq<int>, inbox: seq<seq<Heard>>)
    requires |inbox| == |rcs| && Consistent(f)
    ensures Consistent(Sending(f, rcs, inbox).flags)
    decreases |rcs|
  {
    if rcs != [] {
      ReactedAllConsistent(f, inbox[0]);
      var f1 := ReactedAll(f, inbox[0]);
      if !f1.shouldExit && rcs[0] == MqttErrSuccess {
        SendingConsistent(f1, rcs[1..], inbox[1..]);
      }
    }
  }

  // ---------------------------------------------------------------------------------------
  // The client
  // ---------------------------------------------------------------------------------------

  /** `mqtt.MQTT_ERR_SUCCESS`. */
  const MqttErrSuccess := 0

  function RequestTopic(deviceId: string): string {
    "iot/" + (deviceId + "/audio_request")
  }

  function ResponseTopic(deviceId: string): string {
    "iot/" + (deviceId + "/audio_response")
  }

  /** The device's topics are the ones `create_topic` builds for its kinds. */
  lemma TopicsAgree(deviceId: string)
    ensures RequestTopic(deviceId) == CreateTopic(deviceId, AudioRequest, "")
    ensures ResponseTopic(deviceId) == CreateTopic(deviceId, AudioResponse, "")
  {
    assert KindPath(AudioRequest, "") == "audio_request";
    assert KindPath(AudioResponse, "") == "audio_response";
  }

  /** One `client.publish` call: the topic, the message serialised, and the broker's result code. */
  datatype Attempt = Attempt(topic: string, message: Message, rc: int)

  /** What a published request carries for a chunk and a session id. */
  predicate Carries(a: Attempt, deviceId: string, chunk: seq<Base64.byte>, sessionId: string, rc: int) {
    && a.topic == RequestTopic(deviceId)
    && a.rc == rc
    && a.message.AudioRequestMessage?
    && WellFormed(a.message)
    && a.message.env.deviceId == deviceId
    && (sessionId != "" ==> a.message.env.sessionId == sessionId)
    && GetAudioBytes(a.message) == Success(chunk)
  }

  /** Attempts `base` to `base + n - 1` published chunks `0` to `n - 1`. */
  predicate CarriesAll(attempts: seq<Attempt>, base: nat, deviceId: string, chunks: seq<seq<Base64.byte>>,
                       sessionId: string, rcs: seq<int>, n: nat)
  {
    && base + n <= |attempts| && n <= |chunks| && n <= |rcs|
    && forall k :: 0 <= k < n ==> Carries(attempts[base + k], deviceId, chunks[k], sessionId, rcs[k])
  }

  /** One more publish that carries the next chunk extends the run. */
  lemma CarriesNext(prev: seq<Attempt>, attempts: seq<Attempt>, base: nat, deviceId: string,
                    chunks: seq<seq<Base64.byte>>, sessionId: string, rcs: seq<int>, n: nat)
    requires |prev| == base + n && n < |chunks| && n < |rcs|
    requires CarriesAll(prev, base, deviceId, chunks, sessionId, rcs, n)
    requires |attempts| == |prev| + 1 && attempts[..|prev|] == prev
    requires Carries(attempts[|prev|], deviceId, chunks[n], sessionId, rcs[n])
    ensures CarriesAll(attempts, base, deviceId, chunks, sessionId, rcs, n + 1)
    ensures attempts[..base] == prev[..base]
  {
    forall k | 0 <= k < n + 1
      ensures Carries(attempts[base + k], deviceId, chunks[k], sessionId, rcs[k])
    {
      if k < n {
        assert attempts[base + k] == attempts[..|prev|][base + k];
      }
    }
  }

  /** `SimpleIoTClient`: its flags, the topics it subscribed to and the publish calls it made. */
  class IoTClient {
    const deviceId: string
    const requestTopic: string := RequestTopic(deviceId)
    const responseTopic: string := ResponseTopic(deviceId)
    var connected: bool
    var responsesReceived: nat
    var errorReceived: bool
    var shouldExit: bool
    var subscriptions: seq<string>
    var attempts: seq<Attempt>

    function State(): Flags
      reads this
    {
      Flags(connected, responsesReceived, errorReceived, shouldExit)
    }

    constructor (deviceId: string)
      ensures this.deviceId == deviceId
      ensures requestTopic == RequestTopic(deviceId) && responseTopic == ResponseTopic(deviceId)
      ensures State() == Initial && Consistent(State())
      ensures subscriptions == [] && attempts == []
    {
      this.deviceId := deviceId;
      connected := false;
      responsesReceived := 0;
      errorReceived := false;
      shouldExit := false;
      subscriptions := [];
      attempts := [];
    }

    /** `_on_connect`: a zero result code marks the client connected and subscribes to the response topic. */
    method OnConnect(rc: int)
      modifies this
      ensures connected == (rc == 0 || old(connected))
      ensures subscriptions == old(subscriptions) + (if rc == 0 then [responseTopic] else [])
      ensures State() == old(State()).(connected := connected)
      ensures attempts == old(attempts)
    {
      if rc == 0 {
        connected := true;
        subscriptions := subscriptions + [responseTopic];
      }
    }

    /** `_on_disconnect`. */
    method OnDisconnect()
      modifies this
      ensures State() == old(State()).(connected := false)
      ensures subscriptions == old(subscriptions) && attempts == old(attempts)
    {
      connected := false;
    }

    /** `_on_message`. */
    method OnMessage(payload: Payload)
      modifies this
      ensures State() == Reacted(old(State()), HeardOf(payload))
      ensures subscriptions == old(subscriptions) && attempts == old(attempts)
    {
      var heard := Classify(payload);
      match heard
      case ResponseHeard =>
        responsesReceived := responsesReceived + 1;
      case ErrorHeard =>
        errorReceived := true;
        shouldExit := true;
      case NothingHeard =>
    }

    /** The deliveries that arrive between two chunks, one callback after the other. */
    method Deliver(ps: seq<Payload>)
      modifies this
      ensures State() == ReactedAll(old(State()), Meanings(ps))
      ensures subscriptions == old(subscriptions) && attempts == old(attempts)
    {
      var hs := Meanings(ps);
      var i := 0;
      while i < |ps|
        invariant 0 <= i <= |ps|
        invariant ReactedAll(old(State()), hs) == ReactedAll(State(), hs[i..])
        invariant subscriptions == old(subscriptions) && attempts == old(attempts)
      {
        assert hs[i..][0] == hs[i] && hs[i..][1..] == hs[i + 1..];
        OnMessage(ps[i]);
        i := i + 1;
      }
    }

    /** `send_audio_chunk`: one request is published; the call succeeds exactly when the broker's result is success. */
    method SendAudioChunk(chunk: seq<Base64.byte>, sessionId: string, rc: int) returns (ok: bool)
      modifies this
      ensures ok <==> rc == MqttErrSuccess
      ensures |attempts| == |old(attempts)| + 1 && attempts[..|old(attempts)|] == old(attempts)
      ensures Carries(attempts[|old(attempts)|], deviceId, chunk, sessionId, rc)
      ensures State() == old(State()) && subscriptions == old(subscriptions)
    {
      var freshId: Token :| true;
      var freshSession: Token :| true;
      var now: Clock :| true;
      var request := CreateAudioRequest(deviceId, chunk, sessionId, "mp3", None, None, None, 0, 1, map[],
                                        freshId, freshSession, now);
      attempts := attempts + [Attempt(requestTopic, request, rc)];
      ok := rc == MqttErrSuccess;
    }

    /** The send loop of `main`, proved against `Sending`. */
    method SendChunks(chunks: seq<seq<Base64.byte>>, sessionId: string, rcs: seq<int>, inbox: seq<seq<Payload>>)
      returns (sent: nat)
      requires |rcs| == |chunks| && |inbox| == |chunks|
      modifies this
      ensures sent == Sending(old(State()), rcs, Inboxed(inbox)).sent
      ensures State() == Sending(old(State()), rcs, Inboxed(inbox)).flags
      ensures |attempts| == |old(attempts)| + sent && attempts[..|old(attempts)|] == old(attempts)
      ensures forall k :: 0 <= k < sent ==> Carries(attempts[|old(attempts)| + k], deviceId, chunks[k], sessionId, rcs[k])
      ensures subscriptions == old(subscriptions)
    {
      var start := State();
      var before := attempts;
      var heard := Inboxed(inbox);
      var i := 0;
      var stop := false;
      while i < |chunks| && !stop
        invariant 0 <= i <= |chunks|
        invariant !stop ==> Sending(start, rcs, heard) == After(i, Sending(State(), rcs[i..], heard[i..]))
        invariant stop ==> Sending(start, rcs, heard) == Outcome(i, State())
        invariant |attempts| == |before| + i && attempts[..|before|] == before
        invariant CarriesAll(attempts, |before|, deviceId, chunks, sessionId, rcs, i)
        invariant subscriptions == old(subscriptions)
        decreases |chunks| - i, if stop then 0 else 1
      {
        SendingStep(State(), rcs, heard, i);
        Deliver(inbox[i]);
        if shouldExit {
          stop := true;
        } else {
          var prev := attempts;
          var ok := SendAudioChunk(chunks[i], sessionId, rcs[i]);
          CarriesNext(prev, attempts, |before|, deviceId, chunks, sessionId, rcs, i);
          i := i + 1;
          if !ok {
            stop := true;
          }
        }
      }
      if !stop {
        assert rcs[i..] == [];
      }
      sent := i;
    }
  }

  function After(i: nat, o: Outcome): Outcome {
    Outcome(o.sent + i, o.flags)
  }

  /** One round of `Sending` from chunk `i` on: the deliveries, the exit check, the publish. */
  lemma SendingStep(f: Flags, rcs: seq<int>, heard: seq<seq<Heard>>, i: nat)
    requires |heard| == |rcs| && i < |rcs|
    ensures var f1 := ReactedAll(f, heard[i]);
            Sending(f, rcs[i..], heard[i..])
            == if f1.shouldExit then Outcome(0, f1)
               else if rcs[i] != MqttErrSuccess then Outcome(1, f1)
               else After(1, Sending(f1, rcs[i + 1..], heard[i + 1..]))
  {
    assert rcs[i..][0] == rcs[i] && heard[i..][0] == heard[i];
    assert rcs[i..][1..] == rcs[i + 1..] && heard[i..][1..] == heard[i + 1..];
  }
}
