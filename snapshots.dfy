/**
 * The current plugin (src/Voxa-Dashbot.ts) against the earlier one
 * (lib/Voxa-Dashbot.js): the gate is unchanged, the key lookup and the
 * channel table are not.
 */
module Snapshots {
  import opened JsValues
  import Current = VoxaDashbot
  import Legacy = LegacyVoxaDashbot

  /** For the same options and the same user, both snapshots filter out exactly the same events. */
  lemma GateUnchanged(options: map<string, JsValue>, userId: string, platform: string, raw: JsValue)
    ensures Current.TrackIncoming(Current.Register(options), Current.VoxaEvent(userId, platform, raw)).Skipped?
        <==> Legacy.TrackIncoming(Legacy.Register(options), Legacy.Request(userId, platform, raw)).Skipped?
  {
  }

  /** `alexa` is the only platform name both tables map, and both map it to Dashbot's `alexa` client. */
  lemma TablesShareOnlyAlexa(platform: string)
    ensures platform in Current.Integrations && platform in Legacy.Integrations <==> platform == "alexa"
    ensures Current.Integrations["alexa"] == Legacy.Integrations["alexa"] == "alexa"
  {
  }

  /**
   * An options object written for the earlier plugin, with the Alexa key
   * nested as `alexa.api_key`: the earlier plugin sends with the nested key,
   * the current one reads the whole `alexa` object as the key.
   */
  lemma NestedKeyReadDifferently(raw: JsValue)
    ensures
      var options := map["api_key" := Str("default"), "alexa" := Obj(map["api_key" := Str("alexa-key")])];
      && Legacy.TrackIncoming(Legacy.Register(options), Legacy.Request("u", "alexa", raw)).apiKey == Str("alexa-key")
      && Current.TrackIncoming(Current.Register(options), Current.VoxaEvent("u", "alexa", raw)).apiKey
         == Obj(map["api_key" := Str("alexa-key")])
  {
  }
}
