/**
 * The provider-independent part of the AI service layer: the request and response records
 * exchanged with a provider, the default feature map and the per-session cache keyed by `device_id:session_id`.
 */
module AIBase {
  import opened Wrappers
  import opened Json
  import Base64

  /** `AudioRequest`: what the server hands to a provider (defaults: "mp3", 16000 Hz, mono, empty ids). */
  datatype AudioRequest = AudioRequest(
    audioData: seq<Base64.byte>,
    format: string,
    sampleRate: int,
    channels: int,
    sessionId: string,
    deviceId: string,
    language: Option<string>,
    voice: Option<string>,
    additionalConfig: Option<map<string, Value>>)

  /** `AudioResponse`: one streamed chunk of a provider's answer. */
  datatype AudioResponse = AudioResponse(
    audioData: seq<Base64.byte>,
    format: string,
    transcript: string,
    processingTimeMs: real,
    costEstimate: real,
    sessionId: string,
    chunkId: int,
    totalChunks: int,
    metadata: Option<map<string, Value>>)

  // ---------------------------------------------------------------------------------------
  // Features
  // ---------------------------------------------------------------------------------------

  const FeatureNames: set<string> :=
    {"streaming", "voice_activity_detection", "speaker_diarization", "language_detection", "real_time_translation"}

  /** The default `get_supported_features`: every feature is listed and only streaming is on. */
  function DefaultSupportedFeatures(): (f: map<string, bool>)
    ensures f.Keys == FeatureNames
    ensures forall k :: k in f ==> (f[k] <==> k == "streaming")
  {
    map["streaming" := true, "voice_activity_detection" := false, "speaker_diarization" := false,
        "language_detection" := false, "real_time_translation" := false]
  }

  // ---------------------------------------------------------------------------------------
  // Session keys
  // ---------------------------------------------------------------------------------------

  /** `_create_session_key`: the device id, a colon, then the session id. */
  function SessionKey(deviceId: string, sessionId: string): (key: string)
    ensures |key| == |deviceId| + 1 + |sessionId|
    ensures key[..|deviceId|] == deviceId && key[|deviceId|] == ':' && key[|deviceId| + 1..] == sessionId
  {
    deviceId + ":" + sessionId
  }

  /** Keys are unambiguous as long as device ids contain no colon. */
  lemma SessionKeyInjective(d1: string, s1: string, d2: string, s2: string)
    requires ':' !in d1 && ':' !in d2
    requires SessionKey(d1, s1) == SessionKey(d2, s2)
    ensures d1 == d2 && s1 == s2
  {
    assert |d1| == |d2| by {
      var k := SessionKey(d1, s1);
      assert forall i :: 0 <= i < |d1| ==> k[i] != ':';
      assert forall i :: 0 <= i < |d2| ==> k[i] != ':';
    }
  }

  /** Moving a colon-separated part from the device id to the session id gives the same key. */
  lemma SessionKeyCollision(a: string, b: string, c: string)
    ensures (a + ":" + b, c) != (a, b + ":" + c)
    ensures SessionKey(a + ":" + b, c) == SessionKey(a, b + ":" + c)
  {
    assert |a + ":" + b| != |a|;
    assert a + ":" + b + ":" + c == a + ":" + (b + ":" + c);
  }

  // ---------------------------------------------------------------------------------------
  // The session cache
  // ---------------------------------------------------------------------------------------

  /** The cache after `self._session_cache.pop(key, None)`. */
  function Cleared(cache: map<string, map<string, Value>>, key: string): (r: map<string, map<string, Value>>)
    ensures r.Keys == cache.Keys - {key}
    ensures forall k :: k in r ==> r[k] == cache[k]
  {
    cache - {key}
  }

  /** A get after a store for the same pair returns what was stored. */
  lemma FetchAfterStore(cache: map<string, map<string, Value>>, key: string, data: map<string, Value>)
    ensures Lookup(cache[key := data], key) == Some(data)
  {
  }

  /** A store or a clear under one key leaves every other key's entry as it was. */
  lemma OtherKeysUntouched(cache: map<string, map<string, Value>>, key: string, data: map<string, Value>, other: string)
    requires other != key
    ensures Lookup(cache[key := data], other) == Lookup(cache, other)
    ensures Lookup(Cleared(cache, key), other) == Lookup(cache, other)
  {
  }

  /** Clearing an absent key changes nothing; clearing twice is clearing once; a get after a clear finds nothing. */
  lemma ClearProperties(cache: map<string, map<string, Value>>, key: string)
    ensures key !in cache ==> Cleared(cache, key) == cache
    ensures Cleared(Cleared(cache, key), key) == Cleared(cache, key)
    ensures Lookup(Cleared(cache, key), key) == None
  {
  }

  /** A store for one pair is invisible to a get for a different pair when device ids hold no colon. */
  lemma DistinctPairsSeparate(cache: map<string, map<string, Value>>, d1: string, s1: string, data: map<string, Value>,
                              d2: string, s2: string)
    requires ':' !in d1 && ':' !in d2 && (d1, s1) != (d2, s2)
    ensures Lookup(cache[SessionKey(d1, s1) := data], SessionKey(d2, s2)) == Lookup(cache, SessionKey(d2, s2))
  {
    if SessionKey(d1, s1) == SessionKey(d2, s2) {
      SessionKeyInjective(d1, s1, d2, s2);
    }
  }

  /** The `_session_cache` dict of an `AIServiceInterface` together with its three accessors. */
  class SessionCache {
    var cache: map<string, map<string, Value>>

    constructor ()
      ensures cache == map[]
    {
      cache := map[];
    }

    /** `_get_session_data`. */
    method GetSessionData(deviceId: string, sessionId: string) returns (r: Option<map<string, Value>>)
      ensures r == Lookup(cache, SessionKey(deviceId, sessionId))
    {
      var key := SessionKey(deviceId, sessionId);
      if key in cache {
        r := Some(cache[key]);
      } else {
        r := None;
      }
    }

    /** `_store_session_data`: the entry under the pair's key is replaced. */
    method StoreSessionData(deviceId: string, sessionId: string, data: map<string, Value>)
      modifies this
      ensures cache == old(cache)[SessionKey(deviceId, sessionId) := data]
    {
      var key := SessionKey(deviceId, sessionId);
      cache := cache[key := data];
    }

    /** `_clear_session_data`: the pair's entry is dropped if there is one. */
    method ClearSessionData(deviceId: string, sessionId: string)
      modifies this
      ensures cache == Cleared(old(cache), SessionKey(deviceId, sessionId))
    {
      var key := SessionKey(deviceId, sessionId);
      if key in cache {
        cache := cache - {key};
      }
    }
  }
}
