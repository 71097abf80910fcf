/**
 * The server's configuration as `Config.from_env` reads it from the process environment, and
 * the redacted dictionary `Config.to_dict` gives for logging. The environment is a map from
 * variable names to values; `.env` loading is not part of this model.
 */
module Config {
  import opened Wrappers
  import opened Json

  // ---------------------------------------------------------------------------------------
  // Integer literals, as `int(text)` reads them in base 10
  // ---------------------------------------------------------------------------------------

  /**
   * The characters `int` skips around an ASCII literal: tab, line feed, vertical tab, form feed,
   * carriage return and space. The separators U+001C to U+001F are not among them.
   */
  predicate IsSpace(c: char) {
    (9 <= c as int <= 13) || c == ' '
  }

  predicate IsDigit(c: char) {
    '0' <= c <= '9'
  }

  function TrimStart(s: string): string {
    if s != [] && IsSpace(s[0]) then TrimStart(s[1..]) else s
  }

  function TrimEnd(s: string): string {
    if s != [] && IsSpace(s[|s| - 1]) then TrimEnd(s[..|s| - 1]) else s
  }

  /** The literal without the white space `int` skips at either end. */
  function Strip(s: string): string {
    TrimEnd(TrimStart(s))
  }

  /** Digits with single underscores between them, as base-10 `int` accepts after the sign. */
  predicate DigitGroups(b: string) {
    && |b| > 0
    && IsDigit(b[0]) && IsDigit(b[|b| - 1])
    && (forall i :: 0 <= i < |b| ==> IsDigit(b[i]) || b[i] == '_')
    && (forall i :: 0 <= i < |b| - 1 ==> b[i] == '_' ==> b[i + 1] != '_')
  }

  function DigitOf(c: char): nat {
    if IsDigit(c) then c as int - '0' as int else 0
  }

  /** The value of digits read most significant first, underscores skipped. */
  function GroupsValue(b: string): nat {
    if b == [] then 0
    else if b[|b| - 1] == '_' then GroupsValue(b[..|b| - 1])
    else GroupsValue(b[..|b| - 1]) * 10 + DigitOf(b[|b| - 1])
  }

  /** The unsigned part of a literal. */
  function ParseDigits(b: string): Option<nat> {
    if DigitGroups(b) then Some(GroupsValue(b)) else None
  }

  /** A stripped literal: an optional sign, then digit groups. */
  function ParseSigned(t: string): Option<int> {
    if t == [] then None
    else if t[0] == '-' then (match ParseDigits(t[1..]) case Some(n) => Some(-(n as int)) case None => None)
    else if t[0] == '+' then (match ParseDigits(t[1..]) case Some(n) => Some(n as int) case None => None)
    else (match ParseDigits(t) case Some(n) => Some(n as int) case None => None)
  }

  /** `int(text)`: None where Python raises `ValueError`. */
  function ParseInt(text: string): (r: Option<int>)
    ensures r.Some? ==> var t := Strip(text);
              && t != [] && IsDigit(t[|t| - 1]) && (IsDigit(t[0]) || t[0] == '+' || t[0] == '-')
              && (r.value < 0 ==> t[0] == '-')
  {
    ParseSigned(Strip(text))
  }

  /** Decimal text of an integer, as `str(n)` writes it. */
  function IntText(n: int): string {
    if n < 0 then "-" + NatToString(-n) else NatToString(n)
  }

  lemma {:induction false} GroupsValueOfNat(n: nat)
    ensures GroupsValue(NatToString(n)) == n
    decreases n
  {
    var s := NatToString(n);
    if n >= 10 {
      GroupsValueOfNat(n / 10);
      assert s[..|s| - 1] == NatToString(n / 10);
    }
  }

  lemma TrimStartKeeps(s: string)
    requires s != [] && !IsSpace(s[0])
    ensures TrimStart(s) == s
  {
  }

  lemma TrimEndKeeps(s: string)
    requires s != [] && !IsSpace(s[|s| - 1])
    ensures TrimEnd(s) == s
  {
  }

  /** `int(str(n)) == n`. */
  lemma ParseIntText(n: int)
    ensures ParseInt(IntText(n)) == Some(n)
  {
    var m: nat := if n < 0 then -n else n;
    var digits := NatToString(m);
    var t := IntText(n);
    assert t[|t| - 1] == digits[|digits| - 1];
    TrimStartKeeps(t);
    TrimEndKeeps(t);
    assert DigitGroups(digits);
    GroupsValueOfNat(m);
    if n < 0 {
      assert t[1..] == digits;
    }
  }

  /** What `strip` leaves starts and ends with a character that is not white space. */
  lemma {:induction false} TrimStartShape(s: string)
    ensures TrimStart(s) != [] ==> !IsSpace(TrimStart(s)[0])
    ensures |TrimStart(s)| <= |s|
    decreases |s|
  {
    if s != [] && IsSpace(s[0]) {
      TrimStartShape(s[1..]);
    }
  }

  lemma {:induction false} TrimEndShape(s: string)
    ensures TrimEnd(s) != [] ==> !IsSpace(TrimEnd(s)[|TrimEnd(s)| - 1])
    ensures |TrimEnd(s)| <= |s| && TrimEnd(s) == s[..|TrimEnd(s)|]
    decreases |s|
  {
    if s != [] && IsSpace(s[|s| - 1]) {
      TrimEndShape(s[..|s| - 1]);
    }
  }

  /** White space around the literal is ignored: stripping twice is stripping once. */
  lemma ParseIntStrips(text: string)
    ensures Strip(Strip(text)) == Strip(text)
    ensures ParseInt(Strip(text)) == ParseInt(text)
  {
    var u := TrimStart(text);
    var t := TrimEnd(u);
    TrimStartShape(text);
    TrimEndShape(u);
    if t != [] {
      assert t[0] == u[0];
      TrimStartKeeps(t);
      TrimEndKeeps(t);
    }
  }

  /** A sign with nothing after it, a leading, trailing or doubled underscore, or a letter is refused. */
  lemma ParseDigitsRejects()
    ensures ParseSigned("-") == None
    ensures ParseDigits("_1") == None && ParseDigits("1_") == None && ParseDigits("1__0") == None
    ensures ParseDigits("1a") == None
  {
    assert "-"[1..] == [];
    assert !DigitGroups("1__0") by {
      assert "1__0"[1] == '_' && "1__0"[2] == '_';
    }
    assert !IsDigit("1a"[1]) && "1a"[1] != '_';
  }

  /** A file, group, record or unit separator before the digits is not white space to `int`. */
  lemma ParseIntSeparators(d: char)
    requires 28 <= d as int <= 31
    ensures ParseInt([d, '5']) == None && ParseInt(['5', d]) == None
  {
    var s, t := [d, '5'], ['5', d];
    assert TrimStart(s) == s && !IsDigit(s[0]) && s[0] != '-' && s[0] != '+';
    assert TrimEnd(s) == s;
    assert TrimStart(t) == t && TrimEnd(t) == t && !IsDigit(t[1]);
  }

  /** A single underscore between digits is accepted and skipped. */
  lemma ParseDigitsUnderscore()
    ensures ParseDigits("1_000") == Some(1000)
  {
    var b := "1_000";
    assert DigitGroups(b) by {
      assert forall i :: 0 <= i < |b| - 1 ==> b[i] == '_' ==> b[i + 1] != '_';
    }
    assert b[..4] == "1_00" && "1_00"[..3] == "1_0" && "1_0"[..2] == "1_" && "1_"[..1] == "1" && "1"[..0] == "";
    assert GroupsValue("1") == 1;
    assert GroupsValue("1_") == 1;
    assert GroupsValue("1_0") == 10;
    assert GroupsValue("1_00") == 100;
  }

  /** An empty or all-space value is refused. */
  lemma ParseIntBlank(text: string)
    requires forall i :: 0 <= i < |text| ==> IsSpace(text[i])
    ensures ParseInt(text) == None
  {
    BlankTrims(text);
  }

  lemma {:induction false} BlankTrims(s: string)
    requires forall i :: 0 <= i < |s| ==> IsSpace(s[i])
    ensures TrimStart(s) == []
    decreases |s|
  {
    if s != [] {
      BlankTrims(s[1..]);
    }
  }

  // ---------------------------------------------------------------------------------------
  // The configuration records and their defaults
  // ---------------------------------------------------------------------------------------

  datatype MqttConfig = MqttConfig(
    host: string,
    port: int,
    username: Option<string>,
    password: Option<string>,
    clientId: string,
    useTls: bool,
    keepalive: int,
    requestTopic: string,
    responseTopic: string,
    healthTopic: string)

  datatype OpenAIConfig = OpenAIConfig(apiKey: string, model: string, baseUrl: string, voice: string, instructions: string)

  datatype ServerConfig = ServerConfig(
    maxConcurrentSessions: int,
    sessionTimeoutSeconds: int,
    logLevel: string,
    enableHealthChecks: bool,
    healthCheckInterval: int)

  datatype Config = Config(mqtt: MqttConfig, openai: OpenAIConfig, server: ServerConfig)

  /** Why `from_env` raises: an integer variable that is not a literal, or no API key. */
  datatype ConfigError = InvalidLiteral(text: string) | MissingApiKey

  const MissingApiKeyText := "OPENAI_API_KEY environment variable is required"

  function ErrorText(e: ConfigError): string {
    match e
    case InvalidLiteral(text) => "invalid literal for int() with base 10: '" + text + "'"
    case MissingApiKey => MissingApiKeyText
  }

  // Variable names and defaults of `from_env`.
  const HostVar := "MQTT_HOST"
  const PortVar := "MQTT_PORT"
  const UsernameVar := "MQTT_USERNAME"
  const PasswordVar := "MQTT_PASSWORD"
  const ClientIdVar := "MQTT_CLIENT_ID"
  const UseTlsVar := "MQTT_USE_TLS"
  const KeepaliveVar := "MQTT_KEEPALIVE"
  const RequestTopicVar := "MQTT_REQUEST_TOPIC"
  const ResponseTopicVar := "MQTT_RESPONSE_TOPIC"
  const HealthTopicVar := "MQTT_HEALTH_TOPIC"
  const ApiKeyVar := "OPENAI_API_KEY"
  const ModelVar := "OPENAI_MODEL"
  const BaseUrlVar := "OPENAI_BASE_URL"
  const VoiceVar := "OPENAI_VOICE"
  const InstructionsVar := "OPENAI_INSTRUCTIONS"
  const MaxSessionsVar := "MAX_CONCURRENT_SESSIONS"
  const SessionTimeoutVar := "SESSION_TIMEOUT_SECONDS"
  const LogLevelVar := "LOG_LEVEL"
  const HealthChecksVar := "ENABLE_HEALTH_CHECKS"
  const HealthIntervalVar := "HEALTH_CHECK_INTERVAL"
  const DefaultHost := "localhost"
  const DefaultClientId := "mqtt-ai-server"
  const DefaultRequestTopic := "iot/+/audio_request"
  const DefaultResponseTopic := "iot/{device_id}/audio_response"
  const DefaultHealthTopic := "iot/server/health"
  const DefaultModel := "gpt-4o-realtime-preview"
  const DefaultBaseUrl := "wss://api.openai.com/v1/realtime"
  const DefaultVoice := "alloy"
  const DefaultLogLevel := "INFO"
  const DefaultPortText := "1883"
  const DefaultKeepaliveText := "60"
  const DefaultMaxSessionsText := "50"
  const DefaultTimeoutText := "300"
  const DefaultIntervalText := "30"
  const DefaultUseTlsText := "false"
  const DefaultHealthChecksText := "true"
  const DefaultInstructions := "You are a helpful AI assistant responding to voice commands from IoT devices."

  type Env = map<string, string>

  /** `int(os.getenv(name, default))`. */
  function ReadInt(env: Env, name: string, default: string): Result<int, ConfigError> {
    match ParseInt(Get(env, name, default))
    case None => Failure(InvalidLiteral(Get(env, name, default)))
    case Some(n) => Success(n)
  }

  function LowerAscii(s: string): (t: string)
    ensures |t| == |s|
  {
    if s == [] then [] else [if 'A' <= s[0] <= 'Z' then (s[0] as int + 32) as char else s[0]] + LowerAscii(s[1..])
  }

  /** `value.lower() == "true"`. */
  predicate IsTrueText(value: string) {
    LowerAscii(value) == "true"
  }

  /** A flag is on exactly for the sixteen spellings of "true" in either case. */
  lemma IsTrueTextCases(value: string)
    ensures IsTrueText(value) <==>
              && |value| == 4
              && value[0] in "tT" && value[1] in "rR" && value[2] in "uU" && value[3] in "eE"
  {
    if |value| == 4 {
      var l := LowerAscii(value);
      assert l[0] == LowerAscii(value)[0];
      assert LowerAscii(value[1..])[0] == l[1];
      assert LowerAscii(value[2..])[0] == l[2];
      assert value[1..][1..] == value[2..] && value[2..][1..] == value[3..];
      assert LowerAscii(value[3..])[0] == l[3];
    }
  }

  // ---------------------------------------------------------------------------------------
  // `from_env`
  // ---------------------------------------------------------------------------------------

  /** The MQTT section: the port is read before the keep-alive, and both before anything else can fail. */
  function ReadMqtt(env: Env): Result<MqttConfig, ConfigError> {
    var port :- ReadInt(env, PortVar, DefaultPortText);
    var keepalive :- ReadInt(env, KeepaliveVar, DefaultKeepaliveText);
    Success(MqttConfig(
      Get(env, HostVar, DefaultHost), port, Lookup(env, UsernameVar), Lookup(env, PasswordVar),
      Get(env, ClientIdVar, DefaultClientId), IsTrueText(Get(env, UseTlsVar, DefaultUseTlsText)), keepalive,
      Get(env, RequestTopicVar, DefaultRequestTopic),
      Get(env, ResponseTopicVar, DefaultResponseTopic),
      Get(env, HealthTopicVar, DefaultHealthTopic)))
  }

  /** The OpenAI section: an unset or empty key is refused, the other fields default. */
  function ReadOpenAI(env: Env): Result<OpenAIConfig, ConfigError> {
    var apiKey := Lookup(env, ApiKeyVar);
    if apiKey.None? || apiKey.value == "" then Failure(MissingApiKey)
    else
      Success(OpenAIConfig(
        apiKey.value, Get(env, ModelVar, DefaultModel),
        Get(env, BaseUrlVar, DefaultBaseUrl), Get(env, VoiceVar, DefaultVoice),
        Get(env, InstructionsVar, DefaultInstructions)))
  }

  /** The server section: three integers, read in this order. */
  function ReadServer(env: Env): Result<ServerConfig, ConfigError> {
    var sessions :- ReadInt(env, MaxSessionsVar, DefaultMaxSessionsText);
    var timeout :- ReadInt(env, SessionTimeoutVar, DefaultTimeoutText);
    var interval :- ReadInt(env, HealthIntervalVar, DefaultIntervalText);
    Success(ServerConfig(
      sessions, timeout, Get(env, LogLevelVar, DefaultLogLevel),
      IsTrueText(Get(env, HealthChecksVar, DefaultHealthChecksText)), interval))
  }

  /** `Config.from_env`: the sections are built in source order, so the first failure is the error. */
  function FromEnv(env: Env): (r: Result<Config, ConfigError>)
    ensures r.Success? ==> ApiKeyVar in env && r.value.openai.apiKey == env[ApiKeyVar] != ""
    ensures r.Failure? && r.error.InvalidLiteral? ==> ParseInt(r.error.text).None?
  {
    var mqtt :- ReadMqtt(env);
    var openai :- ReadOpenAI(env);
    var server :- ReadServer(env);
    Success(Config(mqtt, openai, server))
  }

  /** `from_env` succeeds exactly when the five integers are literals and the key is set and non-empty. */
  lemma FromEnvSucceeds(env: Env)
    ensures FromEnv(env).Success? <==>
              && ParseInt(Get(env, PortVar, DefaultPortText)).Some?
              && ParseInt(Get(env, KeepaliveVar, DefaultKeepaliveText)).Some?
              && Get(env, ApiKeyVar, "") != ""
              && ParseInt(Get(env, MaxSessionsVar, DefaultMaxSessionsText)).Some?
              && ParseInt(Get(env, SessionTimeoutVar, DefaultTimeoutText)).Some?
              && ParseInt(Get(env, HealthIntervalVar, DefaultIntervalText)).Some?
  {
    MqttSucceeds(env);
    ServerSucceeds(env);
  }

  lemma MqttSucceeds(env: Env)
    ensures ReadMqtt(env).Success? <==>
              ParseInt(Get(env, PortVar, DefaultPortText)).Some? && ParseInt(Get(env, KeepaliveVar, DefaultKeepaliveText)).Some?
  {
  }

  lemma ServerSucceeds(env: Env)
    ensures ReadServer(env).Success? <==>
              && ParseInt(Get(env, MaxSessionsVar, DefaultMaxSessionsText)).Some?
              && ParseInt(Get(env, SessionTimeoutVar, DefaultTimeoutText)).Some?
              && ParseInt(Get(env, HealthIntervalVar, DefaultIntervalText)).Some?
  {
  }

  /**
   * The error is the first failure in source order: an MQTT integer, then the key, then the
   * server integers (each section's own order is in `MqttErrorOrder` and `ServerErrorOrder`).
   */
  lemma FromEnvErrorOrder(env: Env)
    ensures ReadMqtt(env).Failure? ==> FromEnv(env) == Failure(ReadMqtt(env).error)
    ensures ReadMqtt(env).Success? ==>
              (FromEnv(env) == Failure(MissingApiKey) <==> ApiKeyVar !in env || env[ApiKeyVar] == "")
    ensures ReadMqtt(env).Success? && ReadOpenAI(env).Success? && ReadServer(env).Failure? ==>
              FromEnv(env) == Failure(ReadServer(env).error)
  {
    ApiKeyRequired(env);
    ServerErrorOrder(env);
  }

  lemma ServerErrorOrder(env: Env)
    ensures ParseInt(Get(env, MaxSessionsVar, DefaultMaxSessionsText)).None? ==>
              ReadServer(env) == Failure(InvalidLiteral(Get(env, MaxSessionsVar, DefaultMaxSessionsText)))
    ensures ParseInt(Get(env, MaxSessionsVar, DefaultMaxSessionsText)).Some? &&
            ParseInt(Get(env, SessionTimeoutVar, DefaultTimeoutText)).None? ==>
              ReadServer(env) == Failure(InvalidLiteral(Get(env, SessionTimeoutVar, DefaultTimeoutText)))
    ensures ParseInt(Get(env, MaxSessionsVar, DefaultMaxSessionsText)).Some? &&
            ParseInt(Get(env, SessionTimeoutVar, DefaultTimeoutText)).Some? &&
            ParseInt(Get(env, HealthIntervalVar, DefaultIntervalText)).None? ==>
              ReadServer(env) == Failure(InvalidLiteral(Get(env, HealthIntervalVar, DefaultIntervalText)))
    ensures ReadServer(env).Failure? ==> ReadServer(env).error.InvalidLiteral?
  {
  }

  lemma MqttErrorOrder(env: Env)
    ensures ParseInt(Get(env, PortVar, DefaultPortText)).None? ==>
              ReadMqtt(env) == Failure(InvalidLiteral(Get(env, PortVar, DefaultPortText)))
    ensures ParseInt(Get(env, PortVar, DefaultPortText)).Some? && ParseInt(Get(env, KeepaliveVar, DefaultKeepaliveText)).None? ==>
              ReadMqtt(env) == Failure(InvalidLiteral(Get(env, KeepaliveVar, DefaultKeepaliveText)))
  {
  }

  /** A missing or empty `OPENAI_API_KEY` is refused with its own message; any other value is the key. */
  lemma ApiKeyRequired(env: Env)
    ensures ReadOpenAI(env).Failure? <==> ApiKeyVar !in env || env[ApiKeyVar] == ""
    ensures ReadOpenAI(env).Failure? ==> ReadOpenAI(env).error == MissingApiKey && ErrorText(MissingApiKey) == MissingApiKeyText
    ensures ReadOpenAI(env).Success? ==> ReadOpenAI(env).value.apiKey == env[ApiKeyVar]
  {
  }

  /** The default literals are all integers. */
  lemma DefaultLiterals()
    ensures ParseInt("1883") == Some(1883) && ParseInt("60") == Some(60) && ParseInt("50") == Some(50)
    ensures ParseInt("300") == Some(300) && ParseInt("30") == Some(30)
  {
    Literal1883();
    Literal60();
    Literal50();
    Literal300();
    Literal30();
  }

  lemma Literal1883()
    ensures ParseInt("1883") == Some(1883)
  {
    ParseIntText(1883);
    assert NatToString(1) == "1" && NatToString(18) == "18" && NatToString(188) == "188";
    assert IntText(1883) == "1883";
  }

  lemma Literal60()
    ensures ParseInt("60") == Some(60)
  {
    ParseIntText(60);
    assert NatToString(6) == "6" && IntText(60) == "60";
  }

  lemma Literal50()
    ensures ParseInt("50") == Some(50)
  {
    ParseIntText(50);
    assert NatToString(5) == "5" && IntText(50) == "50";
  }

  lemma Literal300()
    ensures ParseInt("300") == Some(300)
  {
    ParseIntText(300);
    assert NatToString(3) == "3" && NatToString(30) == "30" && IntText(300) == "300";
  }

  lemma Literal30()
    ensures ParseInt("30") == Some(30)
  {
    ParseIntText(30);
    assert NatToString(3) == "3" && IntText(30) == "30";
  }

  /** Each absent MQTT variable takes its default, and a set one is taken as written. */
  lemma MqttDefaults(env: Env)
    requires ReadMqtt(env).Success?
    ensures var m := ReadMqtt(env).value;
      && (HostVar !in env ==> m.host == "localhost")
      && (PortVar !in env ==> m.port == 1883)
      && (UsernameVar !in env ==> m.username == None)
      && (PasswordVar !in env ==> m.password == None)
      && (ClientIdVar !in env ==> m.clientId == "mqtt-ai-server")
      && (UseTlsVar !in env ==> !m.useTls)
      && (KeepaliveVar !in env ==> m.keepalive == 60)
      && (RequestTopicVar !in env ==> m.requestTopic == "iot/+/audio_request")
      && (ResponseTopicVar !in env ==> m.responseTopic == "iot/{device_id}/audio_response")
      && (HealthTopicVar !in env ==> m.healthTopic == "iot/server/health")
  {
    Literal1883();
    Literal60();
    FlagDefaults();
  }

  lemma MqttPresent(env: Env)
    requires ReadMqtt(env).Success?
    ensures var m := ReadMqtt(env).value;
      && (HostVar in env ==> m.host == env[HostVar])
      && (PortVar in env ==> Some(m.port) == ParseInt(env[PortVar]))
      && (UsernameVar in env ==> m.username == Some(env[UsernameVar]))
      && (PasswordVar in env ==> m.password == Some(env[PasswordVar]))
      && (UseTlsVar in env ==> (m.useTls <==> IsTrueText(env[UseTlsVar])))
      && (KeepaliveVar in env ==> Some(m.keepalive) == ParseInt(env[KeepaliveVar]))
  {
  }

  /** Each absent OpenAI and server variable takes its default. */
  lemma OpenAIDefaults(env: Env)
    requires ReadOpenAI(env).Success?
    ensures var o := ReadOpenAI(env).value;
      && (ModelVar !in env ==> o.model == DefaultModel)
      && (BaseUrlVar !in env ==> o.baseUrl == DefaultBaseUrl)
      && (VoiceVar !in env ==> o.voice == DefaultVoice)
      && (InstructionsVar !in env ==>
            o.instructions == DefaultInstructions)
  {
  }

  lemma ServerDefaults(env: Env)
    requires ReadServer(env).Success?
    ensures var s := ReadServer(env).value;
      && (MaxSessionsVar !in env ==> s.maxConcurrentSessions == 50)
      && (SessionTimeoutVar !in env ==> s.sessionTimeoutSeconds == 300)
      && (LogLevelVar !in env ==> s.logLevel == "INFO")
      && (HealthChecksVar !in env ==> s.enableHealthChecks)
      && (HealthIntervalVar !in env ==> s.healthCheckInterval == 30)
      && (HealthChecksVar in env ==> (s.enableHealthChecks <==> IsTrueText(env[HealthChecksVar])))
  {
    Literal50();
    Literal300();
    Literal30();
    FlagDefaults();
  }

  /** TLS is off and health checks are on by default. */
  lemma FlagDefaults()
    ensures !IsTrueText("false") && IsTrueText("true")
  {
    IsTrueTextCases("false");
    IsTrueTextCases("true");
  }

  /** A successful `from_env` is the three sections it read. */
  lemma FromEnvSections(env: Env)
    requires FromEnv(env).Success?
    ensures ReadMqtt(env).Success? && ReadOpenAI(env).Success? && ReadServer(env).Success?
    ensures FromEnv(env).value == Config(ReadMqtt(env).value, ReadOpenAI(env).value, ReadServer(env).value)
  {
  }

  // ---------------------------------------------------------------------------------------
  // `to_dict`
  // ---------------------------------------------------------------------------------------

  const Mask := "***"

  function OptionalText(v: Option<string>): Value {
    if v.Some? then Str(v.value) else Null
  }

  function MqttDict(m: MqttConfig): map<string, Value> {
    map[
      "host" := Str(m.host), "port" := Int(m.port), "username" := OptionalText(m.username),
      "password" := if m.password.Some? && m.password.value != "" then Str(Mask) else Null,
      "client_id" := Str(m.clientId), "use_tls" := Bool(m.useTls), "keepalive" := Int(m.keepalive),
      "request_topic" := Str(m.requestTopic), "response_topic" := Str(m.responseTopic),
      "health_topic" := Str(m.healthTopic)]
  }

  function OpenAIDict(o: OpenAIConfig): map<string, Value> {
    map["api_key" := Str(Mask), "model" := Str(o.model), "base_url" := Str(o.baseUrl), "voice" := Str(o.voice),
        "instructions" := Str(o.instructions)]
  }

  function ServerDict(s: ServerConfig): map<string, Value> {
    map[
      "max_concurrent_sessions" := Int(s.maxConcurrentSessions),
      "session_timeout_seconds" := Int(s.sessionTimeoutSeconds), "log_level" := Str(s.logLevel),
      "enable_health_checks" := Bool(s.enableHealthChecks), "health_check_interval" := Int(s.healthCheckInterval)]
  }

  /** `Config.to_dict`. */
  function ToDict(c: Config): (d: Value)
    ensures d.Obj? && d.fields.Keys == {"mqtt", "openai", "server"}
  {
    Obj(map["mqtt" := Obj(MqttDict(c.mqtt)), "openai" := Obj(OpenAIDict(c.openai)), "server" := Obj(ServerDict(c.server))])
  }

  /** The secrets: the password shows only whether one is set, and the API key shows nothing. */
  lemma ToDictRedacts(c: Config)
    ensures ToDict(c).fields["openai"] == Obj(OpenAIDict(c.openai))
    ensures OpenAIDict(c.openai)["api_key"] == Str(Mask)
    ensures ToDict(c).fields["mqtt"] == Obj(MqttDict(c.mqtt))
    ensures MqttDict(c.mqtt)["password"] == (if c.mqtt.password.Some? && c.mqtt.password.value != "" then Str(Mask) else Null)
  {
  }

  /** Changing the API key, or the password without emptying or setting it, does not change the dictionary. */
  lemma ToDictHidesSecrets(c: Config, apiKey: string, password: string)
    requires c.mqtt.password.Some? && (c.mqtt.password.value == "" <==> password == "")
    ensures ToDict(c.(openai := c.openai.(apiKey := apiKey), mqtt := c.mqtt.(password := Some(password)))) == ToDict(c)
  {
  }

  /** Every field other than the two secrets can be read back from the dictionary. */
  lemma ToDictKeepsTheRest(c1: Config, c2: Config)
    requires ToDict(c1) == ToDict(c2)
    ensures c1.openai == c2.openai.(apiKey := c1.openai.apiKey)
    ensures c1.server == c2.server
    ensures c1.mqtt.(password := None) == c2.mqtt.(password := None)
  {
    assert Obj(MqttDict(c1.mqtt)) == ToDict(c1).fields["mqtt"];
    MqttDictKeeps(c1.mqtt, c2.mqtt);
    assert Obj(OpenAIDict(c1.openai)) == ToDict(c1).fields["openai"];
    OpenAIDictKeeps(c1.openai, c2.openai);
    assert Obj(ServerDict(c1.server)) == ToDict(c1).fields["server"];
    ServerDictKeeps(c1.server, c2.server);
  }

  lemma MqttDictKeeps(m1: MqttConfig, m2: MqttConfig)
    requires MqttDict(m1) == MqttDict(m2)
    ensures m1.(password := None) == m2.(password := None)
  {
    var d1, d2 := MqttDict(m1), MqttDict(m2);
    assert d1["host"] == d2["host"] && d1["port"] == d2["port"] && d1["username"] == d2["username"];
    assert d1["client_id"] == d2["client_id"] && d1["use_tls"] == d2["use_tls"] && d1["keepalive"] == d2["keepalive"];
    assert d1["request_topic"] == d2["request_topic"] && d1["response_topic"] == d2["response_topic"];
    assert d1["health_topic"] == d2["health_topic"];
  }

  lemma OpenAIDictKeeps(o1: OpenAIConfig, o2: OpenAIConfig)
    requires OpenAIDict(o1) == OpenAIDict(o2)
    ensures o1 == o2.(apiKey := o1.apiKey)
  {
    var d1, d2 := OpenAIDict(o1), OpenAIDict(o2);
    assert d1["model"] == d2["model"] && d1["base_url"] == d2["base_url"] && d1["voice"] == d2["voice"];
    assert d1["instructions"] == d2["instructions"];
  }

  lemma ServerDictKeeps(s1: ServerConfig, s2: ServerConfig)
    requires ServerDict(s1) == ServerDict(s2)
    ensures s1 == s2
  {
    var d1, d2 := ServerDict(s1), ServerDict(s2);
    assert d1["max_concurrent_sessions"] == d2["max_concurrent_sessions"];
    assert d1["session_timeout_seconds"] == d2["session_timeout_seconds"] && d1["log_level"] == d2["log_level"];
    assert d1["enable_health_checks"] == d2["enable_health_checks"];
    assert d1["health_check_interval"] == d2["health_check_interval"];
  }
}
