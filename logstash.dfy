/** The Logstash chain link: it is ready when a host and a port are configured,
    enabled by an environment or settings switch, forwards each message at or
    above the minimum level to its transport, and always passes the message on
    to the next link. The module factory builds the link's configuration. */
module Logstash {
  import opened JsValues
  import opened LogLevels
  import opened Messages

  const HostKey: string := "LOGSTASH_HOST"
  const PortKey: string := "LOGSTASH_PORT"
  const LoggingKey: string := "LOGSTASH_LOGGING"

  /** One call of the transport's `log(level, text, meta)`. */
  datatype Write = Write(level: string, text: string, meta: Meta)

  /** The winston logger with its Logstash transport, recording what it is
      asked to log. */
  class Transport {
    const host: Value
    const port: Value
    var writes: seq<Write>

    constructor (host: Value, port: Value)
      ensures this.host == host && this.port == port && writes == []
    {
      this.host := host;
      this.port := port;
      writes := [];
    }
  }

  /** The constructor's test for creating a transport: host and port both set. */
  predicate Configured(settings: Settings)
  {
    Truthy(Get(settings, HostKey)) && Truthy(Get(settings, PortKey))
  }

  /** The level a payload is logged at: its own when the severity table knows
      it, otherwise the level stored under `default`. */
  function EffectiveLevel(level: Value): (r: string)
    ensures r in Levels
    ensures Has(level) ==> r == level.s
    ensures !Has(level) ==> r == "info" && Levels[r] == Rank(3)
  {
    if Has(level) then level.s else DefaultLevel()
  }

  class LogstashLink {
    const settings: Settings
    /** The transport, created only when the link is configured. */
    const winston: Transport?
    const name: string := "LOGSTASH"
    /** Every message handed to `next`, in order. */
    var passed: seq<Message?>

    /** `new Logstash(configs)`. */
    constructor (configs: Option<Settings>)
      ensures settings == OrEmpty(configs)
      ensures Valid()
      ensures IsReady() <==> Configured(settings)
      ensures winston != null ==> fresh(winston) && winston.writes == []
      ensures winston != null ==> winston.host == Get(settings, HostKey) && winston.port == Get(settings, PortKey)
      ensures passed == []
    {
      var s := OrEmpty(configs);
      settings := s;
      if Configured(s) {
        winston := new Transport(Get(s, HostKey), Get(s, PortKey));
      } else {
        winston := null;
      }
      passed := [];
    }

    /** The construction invariant: a transport exists exactly when the
        settings name a host and a port. Every field it reads is constant. */
    predicate Valid()
    {
      (winston != null) <==> Configured(settings)
    }

    /** `isReady()`: a transport exists. */
    function IsReady(): (r: bool)
      ensures Valid() ==> (r <==> Truthy(Get(settings, HostKey)) && Truthy(Get(settings, PortKey)))
    {
      winston != null
    }

    /** `isEnabled()`: a `"true"`/`"false"` environment switch decides; otherwise
        the settings value is returned as it is, with `true` in place of a
        null or missing one. */
    function IsEnabled(env: Env): (r: Value)
      ensures r != Null && r != Undefined
      ensures r.Bool? || r == Get(settings, LoggingKey)
    {
      var result :=
        if LoggingKey in env && env[LoggingKey] in ["true", "false"]
        then Bool(env[LoggingKey] == "true")
        else Get(settings, LoggingKey);
      if result in [Null, Undefined] then Bool(true) else result
    }

    /** What `handle(message)` asks the transport to log, if anything. */
    function Outcome(env: Env, message: Message?): (w: Option<Write>)
      ensures w.Some? ==> IsReady() && Truthy(IsEnabled(env)) && message != null
      ensures w.Some? ==> w.value.level == EffectiveLevel(message.payload.level)
      ensures w.Some? ==> w.value.text == Display(message.payload.text)
      ensures w.Some? ==> w.value.meta == message.payload.meta
    {
      if IsReady() && Truthy(IsEnabled(env)) && message != null then
        var content := message.payload;
        var messageLevel := EffectiveLevel(content.level);
        var minLogLevel := MinLogLevel(env, Some(settings), Some(name));
        if JsGe(Lookup(Str(messageLevel)), Lookup(minLogLevel)) then
          var prefix := message.GetPrefix(settings);
          Some(Write(messageLevel, prefix + Display(content.text), content.meta))
        else None
      else None
    }

    /** `handle(message)`: log through the transport when the link is ready,
        enabled, given a message and the level passes; then call `next`. */
    method Handle(env: Env, message: Message?)
      modifies this, winston
      ensures passed == old(passed) + [message]
      ensures winston != null ==>
        winston.writes == old(winston.writes) + (if Outcome(env, message).Some? then [Outcome(env, message).value] else [])
    {
      if IsReady() && Truthy(IsEnabled(env)) && message != null {
        var content := message.payload;
        var messageLevel := EffectiveLevel(content.level);
        var minLogLevel := MinLogLevel(env, Some(settings), Some(name));
        if JsGe(Lookup(Str(messageLevel)), Lookup(minLogLevel)) {
          var prefix := message.GetPrefix(settings);
          winston.writes := winston.writes + [Write(messageLevel, prefix + Display(content.text), content.meta)];
        }
      }
      passed := passed + [message];
    }
  }

  /** An environment switch of `"true"` or `"false"` decides enablement
      whatever the settings hold. */
  lemma EnvSwitchWins(link: LogstashLink, env: Env)
    requires LoggingKey in env && (env[LoggingKey] == "true" || env[LoggingKey] == "false")
    ensures link.IsEnabled(env) == Bool(env[LoggingKey] == "true")
  {
  }

  /** Any other environment value (`"undefined"`, `"yes"`, ...) counts as no
      switch at all: the settings value decides, as it does with the variable
      unset. */
  lemma OtherEnvValueFallsBack(link: LogstashLink, env: Env)
    requires LoggingKey in env && env[LoggingKey] != "true" && env[LoggingKey] != "false"
    ensures link.IsEnabled(env) == link.IsEnabled(env - {LoggingKey})
  {
  }

  /** Without a switch, a null or missing setting means enabled and any other
      setting is returned verbatim (so the string `"false"` is truthy). */
  lemma SettingsDecideWithoutSwitch(link: LogstashLink, env: Env)
    requires LoggingKey !in env
    ensures Get(link.settings, LoggingKey) in [Null, Undefined] ==> link.IsEnabled(env) == Bool(true)
    ensures Get(link.settings, LoggingKey) !in [Null, Undefined] ==> link.IsEnabled(env) == Get(link.settings, LoggingKey)
  {
  }

  /** Whether a message is logged, in terms of severity positions: with a known
      message level and a known minimum level, it is logged exactly when its
      position is at or above the minimum's (equality logs). */
  lemma ForwardsByRank(link: LogstashLink, env: Env, message: Message, i: nat, j: nat)
    requires link.IsReady() && Truthy(link.IsEnabled(env))
    requires i < |Names| && j < |Names|
    requires EffectiveLevel(message.payload.level) == Names[i]
    requires MinLogLevel(env, Some(link.settings), Some(link.name)) == Str(Names[j])
    ensures link.Outcome(env, message).Some? <==> i >= j
  {
    GeOnNamesIsOrder(i, j);
  }

  /** The link-scoped environment minimum beats the global one: with
      `MIN_LOG_LEVEL_LOGSTASH=warn` and `MIN_LOG_LEVEL=error`, a `warn` message
      is logged. */
  lemma ScopedMinimumBeatsGlobal(link: LogstashLink, env: Env, message: Message)
    requires link.IsReady() && Truthy(link.IsEnabled(env))
    requires "MIN_LOG_LEVEL_LOGSTASH" in env && env["MIN_LOG_LEVEL_LOGSTASH"] == "warn"
    requires "MIN_LOG_LEVEL" in env && env["MIN_LOG_LEVEL"] == "error"
    requires message.payload.level == Str("warn")
    ensures link.Outcome(env, message).Some?
  {
    assert ScopedKey(Some(link.name)) == "MIN_LOG_LEVEL_LOGSTASH";
    assert Sources(env, Some(link.settings), Some(link.name))[0] == Str("warn");
    MinLogLevelPrecedence(env, Some(link.settings), Some(link.name), 0);
    assert Names[4] == "warn";
    ForwardsByRank(link, env, message, 4, 4);
  }

  /** A null message, an unready link or a disabled link logs nothing. */
  lemma NothingLoggedWhenOff(link: LogstashLink, env: Env, message: Message?)
    requires !link.IsReady() || !Truthy(link.IsEnabled(env)) || message == null
    ensures link.Outcome(env, message) == None
  {
  }

  /** A message whose level the table does not know is handled exactly as the
      same message at level `info`, down to the level it is logged at. */
  lemma UnknownLevelActsAsDefault(link: LogstashLink, env: Env, unknown: Message, info: Message)
    requires !Has(unknown.payload.level) && info.payload.level == Str("info")
    requires unknown.payload.text == info.payload.text && unknown.payload.meta == info.payload.meta
    ensures link.Outcome(env, unknown) == link.Outcome(env, info)
    ensures link.Outcome(env, unknown).Some? ==> link.Outcome(env, unknown).value.level == "info"
  {
    assert Has(info.payload.level);
  }

  /** A minimum level the table does not know blocks every message, and the
      `default` key, whose entry is a name and not a rank, blocks every message
      but one whose own level is `default`. */
  lemma UnrankedMinimumBlocks(link: LogstashLink, env: Env, message: Message)
    requires link.IsReady() && Truthy(link.IsEnabled(env))
    ensures !Has(MinLogLevel(env, Some(link.settings), Some(link.name))) ==> link.Outcome(env, message) == None
    ensures MinLogLevel(env, Some(link.settings), Some(link.name)) == Str(DefaultKey) ==>
      (link.Outcome(env, message).Some? <==> message.payload.level == Str(DefaultKey))
  {
    var lvl := EffectiveLevel(message.payload.level);
    if lvl != DefaultKey {
      RanksFollowOrder();
      var i :| 0 <= i < |Names| && Names[i] == lvl by {
        assert lvl in Levels.Keys;
      }
      DefaultEntryIsNotARank(Str(lvl));
    } else {
      DefaultEntryIsNotARank(Str("info"));
    }
  }

  /** A message whose level is literally `default` is never logged against a
      ranked minimum: its looked-up entry is the name `info`, which does not
      compare with a rank. */
  lemma DefaultLevelMessageBlockedByRankedMinimum(link: LogstashLink, env: Env, message: Message, j: nat)
    requires link.IsReady() && Truthy(link.IsEnabled(env))
    requires message.payload.level == Str(DefaultKey)
    requires j < |Names| && MinLogLevel(env, Some(link.settings), Some(link.name)) == Str(Names[j])
    ensures link.Outcome(env, message) == None
  {
    DefaultEntryIsNotARank(Str(Names[j]));
  }

  /** The text logged is the payload text behind the message's prefix, and the
      message package renders an empty prefix: the text arrives unchanged. */
  lemma LoggedTextIsPayloadText(link: LogstashLink, env: Env, message: Message)
    requires link.Outcome(env, message).Some?
    ensures link.Outcome(env, message).value.text == message.GetPrefix(link.settings) + Display(message.payload.text)
    ensures message.payload.text.Str? ==> link.Outcome(env, message).value.text == message.payload.text.s
  {
  }

  /** What the module factory returns beside pushing the link: the link's
      configuration, without the chain-wide settings. */
  datatype ChainLinkData = ChainLinkData(config: Settings)

  /** The factory's `configs`: host and port from the environment, overridden by
      the caller's config. */
  function ExportedConfig(env: Env, config: Option<Settings>): (r: Settings)
    ensures r.Keys == {HostKey, PortKey} + OrEmpty(config).Keys
    ensures forall k :: k in OrEmpty(config) ==> r[k] == OrEmpty(config)[k]
    ensures HostKey !in OrEmpty(config) ==> r[HostKey] == EnvGet(env, HostKey)
    ensures PortKey !in OrEmpty(config) ==> r[PortKey] == EnvGet(env, PortKey)
  {
    map[HostKey := EnvGet(env, HostKey), PortKey := EnvGet(env, PortKey)] + OrEmpty(config)
  }

  /** The settings the pushed link is built with: the chain-wide settings
      override the factory's `configs`. */
  function InstanceConfig(env: Env, config: Option<Settings>, chainSettings: Settings): (r: Settings)
    ensures r.Keys == ExportedConfig(env, config).Keys + chainSettings.Keys
    ensures forall k :: k in chainSettings ==> r[k] == chainSettings[k]
    ensures forall k :: k !in chainSettings && k in ExportedConfig(env, config) ==> r[k] == ExportedConfig(env, config)[k]
  {
    ExportedConfig(env, config) + chainSettings
  }

  /** Where a setting of the pushed link comes from: chain settings first, then
      the caller's config, then the environment. */
  function Resolved(env: Env, config: Option<Settings>, chainSettings: Settings, key: string): Value
  {
    if key in chainSettings then chainSettings[key]
    else if key in OrEmpty(config) then OrEmpty(config)[key]
    else EnvGet(env, key)
  }

  /** The exported config always carries the host and port keys, holding
      `undefined` when the environment lacks them, so it is never `{}`. */
  lemma ExportedConfigHasHostAndPort(env: Env)
    ensures ExportedConfig(env, None).Keys == {HostKey, PortKey}
    ensures HostKey !in env ==> ExportedConfig(env, None)[HostKey] == Undefined
    ensures ExportedConfig(env, Some(map["SOME_THING" := Str("123")])).Keys == {HostKey, PortKey, "SOME_THING"}
  {
  }

  /** Empty settings name no host or port, so a link built from them is not ready. */
  lemma EmptySettingsNotReady(link: LogstashLink)
    requires link.Valid() && link.settings == map[]
    ensures !link.IsReady()
  {
  }

  /** The pushed link is ready exactly when the host and the port, each taken
      from the highest-precedence source that has it, are both set. */
  lemma FactoryReadiness(env: Env, config: Option<Settings>, chainSettings: Settings)
    ensures Configured(InstanceConfig(env, config, chainSettings)) <==>
      Truthy(Resolved(env, config, chainSettings, HostKey)) && Truthy(Resolved(env, config, chainSettings, PortKey))
  {
  }

  /** The module export: build the configuration, create the link the chain
      receives and return the link data. */
  method Export(env: Env, config: Option<Settings>, chainSettings: Settings) returns (data: ChainLinkData, link: LogstashLink)
    ensures data.config == ExportedConfig(env, config)
    ensures fresh(link) && link.settings == InstanceConfig(env, config, chainSettings)
    ensures link.Valid() && (link.IsReady() <==> Configured(InstanceConfig(env, config, chainSettings)))
    ensures link.winston != null ==> fresh(link.winston) && link.winston.writes == []
    ensures link.winston != null ==>
      link.winston.host == Get(link.settings, HostKey) && link.winston.port == Get(link.settings, PortKey)
    ensures link.passed == []
  {
    var configs := map[HostKey := EnvGet(env, HostKey), PortKey := EnvGet(env, PortKey)] + OrEmpty(config);
    data := ChainLinkData(configs);
    var mergedConfigs := map[] + configs + chainSettings;
    link := new LogstashLink(Some(mergedConfigs));
  }
}
