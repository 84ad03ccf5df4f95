/**
 * The current plugin (src/Voxa-Dashbot.ts): `register` merges the caller's
 * options over the defaults, builds the Dashbot client settings and attaches
 * two handlers; `trackIncoming` and `trackOutgoing` gate each event, resolve
 * the API key from a flat per-platform option and pick the Dashbot sub-client
 * from a five-entry table.
 */
module VoxaDashbot {
  import opened JsValues
  import opened Collector
  import opened FilterPolicy

  /** `defaultConfig`: the ignore list starts empty. */
  const DefaultConfig: map<string, JsValue> := map["ignoreUsers" := Arr([])]

  /** `dashbotIntegrations`: Voxa platform name to Dashbot sub-client name. */
  const Integrations: map<string, string> := map[
    "alexa" := "alexa",
    "botframework" := "generic",
    "dialogflow" := "google",
    "facebook" := "facebook",
    "google" := "google"
  ]

  /** The Voxa lifecycle hooks a handler can be attached to. */
  datatype Hook = RequestStarted | BeforeReplySent

  /** What the handlers read of a Voxa event: `user.userId`, `platform.name` and `rawEvent`. */
  datatype VoxaEvent = VoxaEvent(userId: string, platformName: string, rawEvent: JsValue)

  /** A registered plugin: the merged options, the Dashbot client settings and the hooks used. */
  datatype Plugin = Plugin(config: map<string, JsValue>, dashbotConfig: map<string, JsValue>, hooks: seq<Hook>)

  /**
   * The Dashbot client settings built from the plugin options: errors are
   * always printed, and `debug`, `redact` and `timeout` are passed on as given.
   */
  function DashbotConfig(pluginConfig: map<string, JsValue>): (c: map<string, JsValue>)
    ensures c.Keys == {"debug", "printErrors", "redact", "timeout"}
    ensures c["printErrors"] == Bool(true)
    ensures forall k :: k in c && k != "printErrors" ==> c[k] == Get(pluginConfig, k)
  {
    map[
      "debug" := Get(pluginConfig, "debug"),
      "printErrors" := Bool(true),
      "redact" := Get(pluginConfig, "redact"),
      "timeout" := Get(pluginConfig, "timeout")
    ]
  }

  /** `register(skill, config)`. */
  function Register(options: map<string, JsValue>): (p: Plugin)
    ensures forall k :: k != "ignoreUsers" ==> Get(p.config, k) == Get(options, k)
    ensures Get(p.config, "ignoreUsers") ==
      if Get(options, "ignoreUsers") == Undefined then Arr([]) else Get(options, "ignoreUsers")
    ensures p.dashbotConfig.Keys == {"debug", "printErrors", "redact", "timeout"}
    ensures p.dashbotConfig["printErrors"] == Bool(true)
    ensures p.dashbotConfig["debug"] == Get(options, "debug")
    ensures p.dashbotConfig["redact"] == Get(options, "redact")
    ensures p.dashbotConfig["timeout"] == Get(options, "timeout")
    ensures p.hooks == [RequestStarted, BeforeReplySent]
  {
    var pluginConfig := Merge(DefaultConfig, options);
    Plugin(pluginConfig, DashbotConfig(pluginConfig), [RequestStarted, BeforeReplySent])
  }

  /** `trackIncoming(voxaEvent)`, attached to `onRequestStarted`. */
  function TrackIncoming(p: Plugin, e: VoxaEvent): (o: Outcome)
    ensures o.Skipped? <==> !ShouldTrack(p.config, e.userId)
    ensures o.NoChannel? <==> ShouldTrack(p.config, e.userId) && e.platformName !in Integrations
    ensures !o.Skipped? ==> o.settings == p.dashbotConfig
    ensures !o.Skipped? && Truthy(Get(p.config, e.platformName)) ==> o.apiKey == Get(p.config, e.platformName)
    ensures !o.Skipped? && !Truthy(Get(p.config, e.platformName)) ==> o.apiKey == Get(p.config, "api_key")
    ensures o.Forwarded? ==> o.channel == Integrations[e.platformName] && o.call == LogIncoming(e.rawEvent)
  {
    if Includes(Get(p.config, "ignoreUsers"), e.userId) then Skipped
    else if Truthy(Get(p.config, "suppressSending")) then Skipped
    else
      var apiKey := Or(Get(p.config, e.platformName), Get(p.config, "api_key"));
      if e.platformName in Integrations then
        Forwarded(apiKey, p.dashbotConfig, Integrations[e.platformName], LogIncoming(e.rawEvent))
      else
        NoChannel(apiKey, p.dashbotConfig)
  }

  /** `trackOutgoing(voxaEvent, reply)`, attached to `onBeforeReplySent`. */
  function TrackOutgoing(p: Plugin, e: VoxaEvent, reply: JsValue): (o: Outcome)
    ensures o.Skipped? <==> !ShouldTrack(p.config, e.userId)
    ensures o.NoChannel? <==> ShouldTrack(p.config, e.userId) && e.platformName !in Integrations
    ensures !o.Skipped? ==> o.settings == p.dashbotConfig
    ensures !o.Skipped? && Truthy(Get(p.config, e.platformName)) ==> o.apiKey == Get(p.config, e.platformName)
    ensures !o.Skipped? && !Truthy(Get(p.config, e.platformName)) ==> o.apiKey == Get(p.config, "api_key")
    ensures o.Forwarded? ==> o.channel == Integrations[e.platformName] && o.call == LogOutgoing(e.rawEvent, reply)
  {
    if Includes(Get(p.config, "ignoreUsers"), e.userId) then Skipped
    else if Truthy(Get(p.config, "suppressSending")) then Skipped
    else
      var apiKey := Or(Get(p.config, e.platformName), Get(p.config, "api_key"));
      if e.platformName in Integrations then
        Forwarded(apiKey, p.dashbotConfig, Integrations[e.platformName], LogOutgoing(e.rawEvent, reply))
      else
        NoChannel(apiKey, p.dashbotConfig)
  }

  /**
   * With an array ignore list, a user is filtered out exactly when its id is
   * one of the listed strings: a listed id filters both handlers, and an id
   * that is not listed (a prefix or extension of a listed one, say) passes.
   */
  lemma IgnoreListIsExactMembership(options: map<string, JsValue>, e: VoxaEvent, reply: JsValue, ids: seq<JsValue>)
    requires Get(options, "ignoreUsers") == Arr(ids)
    requires !Truthy(Get(options, "suppressSending"))
    ensures TrackIncoming(Register(options), e).Skipped? <==> Str(e.userId) in ids
    ensures TrackOutgoing(Register(options), e, reply).Skipped? <==> Str(e.userId) in ids
  {
  }

  /** A truthy `suppressSending` silences both handlers whatever the ignore list holds. */
  lemma SuppressSendingSkipsBoth(options: map<string, JsValue>, e: VoxaEvent, reply: JsValue)
    requires Truthy(Get(options, "suppressSending"))
    ensures TrackIncoming(Register(options), e) == Skipped
    ensures TrackOutgoing(Register(options), e, reply) == Skipped
  {
  }

  /**
   * The two handlers apply the same gate and resolve the same key and channel:
   * for one event either both forward, or both skip, or both lack a channel.
   */
  lemma HandlersAgree(p: Plugin, e: VoxaEvent, reply: JsValue)
    ensures TrackIncoming(p, e).Skipped? <==> TrackOutgoing(p, e, reply).Skipped?
    ensures TrackIncoming(p, e).NoChannel? <==> TrackOutgoing(p, e, reply).NoChannel?
    ensures TrackIncoming(p, e).NoChannel? ==> TrackIncoming(p, e) == TrackOutgoing(p, e, reply)
    ensures TrackIncoming(p, e).Forwarded? ==>
      var i, o := TrackIncoming(p, e), TrackOutgoing(p, e, reply);
      i.apiKey == o.apiKey && i.settings == o.settings && i.channel == o.channel
  {
  }

  /** An empty-string platform option does not count as an override: the key is `api_key`. */
  lemma EmptyOverrideFallsBack(options: map<string, JsValue>, e: VoxaEvent)
    requires Get(options, e.platformName) == Str("")
    requires !TrackIncoming(Register(options), e).Skipped?
    ensures TrackIncoming(Register(options), e).apiKey == Get(options, "api_key")
  {
  }

  /**
   * With the default (empty) ignore list and no suppression, every event on a
   * platform in the table is forwarded by both handlers to its sub-client.
   */
  lemma DefaultsForwardEveryMappedPlatform(options: map<string, JsValue>, e: VoxaEvent, reply: JsValue)
    requires Get(options, "ignoreUsers") == Undefined
    requires !Truthy(Get(options, "suppressSending"))
    requires e.platformName in Integrations
    ensures TrackIncoming(Register(options), e) ==
      Forwarded(Or(Get(options, e.platformName), Get(options, "api_key")), Register(options).dashbotConfig,
                Integrations[e.platformName], LogIncoming(e.rawEvent))
    ensures TrackOutgoing(Register(options), e, reply) ==
      Forwarded(Or(Get(options, e.platformName), Get(options, "api_key")), Register(options).dashbotConfig,
                Integrations[e.platformName], LogOutgoing(e.rawEvent, reply))
  {
  }

  /** Every sub-client the table names is one of Dashbot's `alexa`, `generic`, `google` or `facebook`. */
  lemma ChannelsAreDashbotClients(p: Plugin, e: VoxaEvent)
    requires TrackIncoming(p, e).Forwarded?
    ensures TrackIncoming(p, e).channel in {"alexa", "generic", "google", "facebook"}
  {
  }

  /**
   * An ignore list given as a string filters by substring, as `_.includes`
   * does on strings: "user-id-2" filters out the user "user-id".
   */
  lemma StringIgnoreListMatchesSubstrings()
    ensures TrackIncoming(Register(map["ignoreUsers" := Str("user-id-2")]),
                          VoxaEvent("user-id", "alexa", Null)) == Skipped
  {
  }
}
