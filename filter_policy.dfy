/**
 * The filter policy both handlers of both snapshots apply before anything
 * else, stated over the merged plugin configuration.
 */
module FilterPolicy {
  import opened JsValues

  /**
   * The user id is included in the `ignoreUsers` option: for an array, exactly
   * when the id is one of its elements; with no option, never.
   */
  predicate Ignored(config: map<string, JsValue>, userId: string)
    ensures Get(config, "ignoreUsers").Arr? ==>
      (Ignored(config, userId) <==> Str(userId) in Get(config, "ignoreUsers").elems)
    ensures Get(config, "ignoreUsers") == Undefined ==> !Ignored(config, userId)
  {
    Includes(Get(config, "ignoreUsers"), userId)
  }

  /**
   * The `suppressSending` option is truthy: it is present and is none of
   * `undefined`, `null`, `false`, `0` or `""`.
   */
  predicate Suppressed(config: map<string, JsValue>)
    ensures Suppressed(config) ==> "suppressSending" in config
    ensures Suppressed(config) <==>
      Get(config, "suppressSending") !in {Undefined, Null, Bool(false), Num(0), Str("")}
  {
    Truthy(Get(config, "suppressSending"))
  }

  /**
   * An event is tracked exactly when its user is not ignored and sending is
   * not suppressed: with an empty ignore list and no suppression every user is
   * tracked, a listed user never is, and `suppressSending: true` tracks nobody.
   */
  predicate ShouldTrack(config: map<string, JsValue>, userId: string)
    ensures Get(config, "ignoreUsers") == Arr([]) && !Suppressed(config) ==> ShouldTrack(config, userId)
    ensures Get(config, "ignoreUsers").Arr? && Str(userId) in Get(config, "ignoreUsers").elems ==>
      !ShouldTrack(config, userId)
    ensures Get(config, "suppressSending") == Bool(true) ==> !ShouldTrack(config, userId)
  {
    !Ignored(config, userId) && !Suppressed(config)
  }
}
