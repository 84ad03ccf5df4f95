/**
 * The earlier plugin (lib/Voxa-Dashbot.js): the same gate as the current one,
 * but the per-platform key is nested (`config[platform].api_key`), the event
 * carries the platform as a plain string, the Dashbot client settings hold
 * only `debug` and `printErrors`, and the table has two entries.
 */
module LegacyVoxaDashbot {
  import opened JsValues
  import opened Collector
  import opened FilterPolicy

  /** `defaultConfig`: the ignore list starts empty. */
  const DefaultConfig: map<string, JsValue> := map["ignoreUsers" := Arr([])]

  /** `dashbotIntegrations`: platform name to Dashbot sub-client name (the key `dialogFlow` is camel-case). */
  const Integrations: map<string, string> := map["dialogFlow" := "google", "alexa" := "alexa"]

  /** The Voxa lifecycle hooks a handler can be attached to. */
  datatype Hook = RequestStarted | BeforeReplySent

  /** What the handlers read of a request: `user.userId`, `platform` and `rawEvent`. */
  datatype Request = Request(userId: string, platform: string, rawEvent: JsValue)

  /** A registered plugin: the merged options, the Dashbot client settings and the hooks used. */
  datatype Plugin = Plugin(config: map<string, JsValue>, dashbotConfig: map<string, JsValue>, hooks: seq<Hook>)

  /**
   * `_.get(pluginConfig, [platform, 'api_key'])`: the `api_key` property of the
   * platform's option when that option is an object, and `undefined` otherwise
   * (a missing option, or a plain string under the platform's name).
   */
  function PlatformApiKey(pluginConfig: map<string, JsValue>, platform: string): (k: JsValue)
    ensures k != Undefined ==>
      Get(pluginConfig, platform).Obj? && k == Get(Get(pluginConfig, platform).fields, "api_key")
    ensures Get(pluginConfig, platform).Obj? ==> k == Get(Get(pluginConfig, platform).fields, "api_key")
    ensures !Get(pluginConfig, platform).Obj? ==> k == Undefined
  {
    match Get(pluginConfig, platform)
    case Obj(fields) => Get(fields, "api_key")
    case _ => Undefined
  }

  /** `register(skill, config)`. */
  function Register(options: map<string, JsValue>): (p: Plugin)
    ensures forall k :: k != "ignoreUsers" ==> Get(p.config, k) == Get(options, k)
    ensures Get(p.config, "ignoreUsers") ==
      if Get(options, "ignoreUsers") == Undefined then Arr([]) else Get(options, "ignoreUsers")
    ensures p.dashbotConfig == map["debug" := Get(options, "debug"), "printErrors" := Bool(true)]
    ensures p.hooks == [RequestStarted, BeforeReplySent]
  {
    var pluginConfig := Merge(DefaultConfig, options);
    Plugin(
      pluginConfig,
      map["debug" := Get(pluginConfig, "debug"), "printErrors" := Bool(true)],
      [RequestStarted, BeforeReplySent])
  }

  /** `trackIncoming(request)`, attached to `onRequestStarted`. */
  function TrackIncoming(p: Plugin, r: Request): (o: Outcome)
    ensures o.Skipped? <==> !ShouldTrack(p.config, r.userId)
    ensures o.NoChannel? <==> ShouldTrack(p.config, r.userId) && r.platform !in Integrations
    ensures !o.Skipped? ==> o.settings == p.dashbotConfig
    ensures !o.Skipped? && Truthy(PlatformApiKey(p.config, r.platform)) ==> o.apiKey == PlatformApiKey(p.config, r.platform)
    ensures !o.Skipped? && !Truthy(PlatformApiKey(p.config, r.platform)) ==> o.apiKey == Get(p.config, "api_key")
    ensures o.Forwarded? ==> o.channel == Integrations[r.platform] && o.call == LogIncoming(r.rawEvent)
  {
    if Includes(Get(p.config, "ignoreUsers"), r.userId) then Skipped
    else if Truthy(Get(p.config, "suppressSending")) then Skipped
    else
      var apiKey := Or(PlatformApiKey(p.config, r.platform), Get(p.config, "api_key"));
      if r.platform in Integrations then
        Forwarded(apiKey, p.dashbotConfig, Integrations[r.platform], LogIncoming(r.rawEvent))
      else
        NoChannel(apiKey, p.dashbotConfig)
  }

  /** `trackOutgoing(request, reply)`, attached to `onBeforeReplySent`. */
  function TrackOutgoing(p: Plugin, r: Request, reply: JsValue): (o: Outcome)
    ensures o.Skipped? <==> !ShouldTrack(p.config, r.userId)
    ensures o.NoChannel? <==> ShouldTrack(p.config, r.userId) && r.platform !in Integrations
    ensures !o.Skipped? ==> o.settings == p.dashbotConfig
    ensures !o.Skipped? && Truthy(PlatformApiKey(p.config, r.platform)) ==> o.apiKey == PlatformApiKey(p.config, r.platform)
    ensures !o.Skipped? && !Truthy(PlatformApiKey(p.config, r.platform)) ==> o.apiKey == Get(p.config, "api_key")
    ensures o.Forwarded? ==> o.channel == Integrations[r.platform] && o.call == LogOutgoing(r.rawEvent, reply)
  {
    if Includes(Get(p.config, "ignoreUsers"), r.userId) then Skipped
    else if Truthy(Get(p.config, "suppressSending")) then Skipped
    else
      var apiKey := Or(PlatformApiKey(p.config, r.platform), Get(p.config, "api_key"));
      if r.platform in Integrations then
        Forwarded(apiKey, p.dashbotConfig, Integrations[r.platform], LogOutgoing(r.rawEvent, reply))
      else
        NoChannel(apiKey, p.dashbotConfig)
  }

  /**
   * With an array ignore list, a user is filtered out exactly when its id is
   * one of the listed strings: a listed id filters both handlers, and an id
   * that is not listed passes.
   */
  lemma IgnoreListIsExactMembership(options: map<string, JsValue>, r: Request, reply: JsValue, ids: seq<JsValue>)
    requires Get(options, "ignoreUsers") == Arr(ids)
    requires !Truthy(Get(options, "suppressSending"))
    ensures TrackIncoming(Register(options), r).Skipped? <==> Str(r.userId) in ids
    ensures TrackOutgoing(Register(options), r, reply).Skipped? <==> Str(r.userId) in ids
  {
  }

  /** A truthy `suppressSending` silences both handlers whatever the ignore list holds. */
  lemma SuppressSendingSkipsBoth(options: map<string, JsValue>, r: Request, reply: JsValue)
    requires Truthy(Get(options, "suppressSending"))
    ensures TrackIncoming(Register(options), r) == Skipped
    ensures TrackOutgoing(Register(options), r, reply) == Skipped
  {
  }

  /**
   * The two handlers apply the same gate and resolve the same key and channel:
   * for one request either both forward, or both skip, or both lack a channel.
   */
  lemma HandlersAgree(p: Plugin, r: Request, reply: JsValue)
    ensures TrackIncoming(p, r).Skipped? <==> TrackOutgoing(p, r, reply).Skipped?
    ensures TrackIncoming(p, r).NoChannel? <==> TrackOutgoing(p, r, reply).NoChannel?
    ensures TrackIncoming(p, r).NoChannel? ==> TrackIncoming(p, r) == TrackOutgoing(p, r, reply)
    ensures TrackIncoming(p, r).Forwarded? ==>
      var i, o := TrackIncoming(p, r), TrackOutgoing(p, r, reply);
      i.apiKey == o.apiKey && i.settings == o.settings && i.channel == o.channel
  {
  }

  /**
   * Only the nested `api_key` of the platform's option overrides the default
   * key: a plain string under the platform's name is not read.
   */
  lemma FlatPlatformOptionIsNotAKey(options: map<string, JsValue>, r: Request, key: string)
    requires Get(options, r.platform) == Str(key)
    requires !TrackIncoming(Register(options), r).Skipped?
    ensures TrackIncoming(Register(options), r).apiKey == Get(options, "api_key")
  {
  }

  /** The table is case-sensitive: `dialogFlow` reaches Dashbot's `google` client, `dialogflow` no client. */
  lemma DialogFlowKeyIsCaseSensitive(p: Plugin, userId: string, raw: JsValue)
    requires ShouldTrack(p.config, userId)
    ensures TrackIncoming(p, Request(userId, "dialogFlow", raw)).Forwarded?
    ensures TrackIncoming(p, Request(userId, "dialogFlow", raw)).channel == "google"
    ensures TrackIncoming(p, Request(userId, "dialogflow", raw)).NoChannel?
  {
  }
}
