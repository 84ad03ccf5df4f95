# voxa-dashbot: the tracking decision

voxa-dashbot is a plugin for the Voxa voice-application framework. It sends every
request a skill receives, and every reply it sends, to the Dashbot analytics
service. `register(skill, config)` merges the caller's options over the
defaults (`ignoreUsers: []`). It builds the settings for the Dashbot client and
attaches two handlers: `trackIncoming` on `onRequestStarted` and `trackOutgoing`
on `onBeforeReplySent`. For each event, both handlers do the same steps:

1. They resolve to `null` when the user id is included in `ignoreUsers`.
2. They resolve to `null` when `suppressSending` is truthy.
3. Otherwise they pick the API key: the per-platform option when it is truthy, else `api_key`.
4. They pick the Dashbot sub-client (`alexa`, `generic`, `google`, `facebook`) from a fixed table keyed by platform name.
5. They hand it the unchanged raw event (`logIncoming`), or the raw event and the reply (`logOutgoing`).

The model has two snapshots of this logic, each as its own module:

- `VoxaDashbot` is `src/Voxa-Dashbot.ts`. The override is a flat string option named after the platform, and the table has five entries.
- `LegacyVoxaDashbot` is `lib/Voxa-Dashbot.js`. The override is nested as `<platform>.api_key`, and the table has two entries (`dialogFlow`, `alexa`).

The other modules are:

- `JsValues`: JavaScript values, truthiness, and the lodash helpers the plugin uses (`_.get`, `_.includes`, `_.merge`).
- `Collector`: the outcome of a handler. `Skipped` is the `null` promise. `Forwarded` is the call made on a Dashbot sub-client. `NoChannel` is a platform without a sub-client, where the source calls `logIncoming`/`logOutgoing` on `undefined` and throws.
- `FilterPolicy`: the gate, stated once over the merged options.
- `Snapshots`: compares the two versions.

Every operation is a function, as in the source: the handlers are early-return
conditionals with no loops and no state.

`_.includes` is modelled as lodash defines it. On an array it tests exact
element membership, so `"user-id"` in the list does not filter `"user-id-2"`.
On a string it searches for a substring. On an object it searches the property
values. On anything else it is false. So an `ignoreUsers` given as a string
filters every user id that occurs inside it, and always filters the empty id.

## Model

| member | source | states |
|---|---|---|
| `JsValues.Truthy` | src/Voxa-Dashbot.ts:69 | the falsy values are exactly `undefined`, `null`, `false`, `0` and `""`; everything else (every array and object included) is truthy |
| `JsValues.Or` | src/Voxa-Dashbot.ts:73 | `a \|\| b` is one of its operands: `a` when `a` is truthy, else `b`; the result is truthy exactly when one of the operands is |
| `JsValues.Get` | src/Voxa-Dashbot.ts:73 | reading a property gives its value, and a missing property reads as `undefined`; a defined result always comes from a present property |
| `JsValues.FirstMatchFrom` | src/Voxa-Dashbot.ts:66 | the string search behind `_.includes` on a string: -1 exactly when `sub` occurs nowhere at or after `from`, otherwise an index where it occurs with no earlier occurrence |
| `JsValues.IndexOf` | src/Voxa-Dashbot.ts:66 | `indexOf` is -1 exactly when there is no occurrence, otherwise the first occurrence |
| `JsValues.Includes` | src/Voxa-Dashbot.ts:66 | `_.includes(collection, userId)`: exact element membership for an array, substring occurrence for a string, membership among the values for an object, false otherwise |
| `JsValues.EmptyValueInEveryString` | src/Voxa-Dashbot.ts:66 | a string ignore list includes the empty user id |
| `JsValues.Merge` | src/Voxa-Dashbot.ts:53 | after the merge every key reads as the caller's option when that is not `undefined`, else as the default; the keys are those of both |
| `FilterPolicy.Ignored` | src/Voxa-Dashbot.ts:66 | with an array `ignoreUsers`, a user is ignored exactly when its id is one of the elements; with no `ignoreUsers`, nobody is ignored (also lines 83 and lib/Voxa-Dashbot.js:30, 42) |
| `FilterPolicy.Suppressed` | src/Voxa-Dashbot.ts:69 | sending is suppressed exactly when `suppressSending` is present and none of `undefined`, `null`, `false`, `0`, `""` (also line 86 and lib/Voxa-Dashbot.js:31, 43) |
| `FilterPolicy.ShouldTrack` | src/Voxa-Dashbot.ts:66-71 | with an empty ignore list and no suppression every user is tracked; a listed user is never tracked; `suppressSending: true` tracks nobody |
| `VoxaDashbot.DashbotConfig` | src/Voxa-Dashbot.ts:55-60 | the Dashbot client settings have exactly the keys `debug`, `printErrors`, `redact` and `timeout`; `printErrors` is always true and the others are the plugin options as given |
| `VoxaDashbot.Register` | src/Voxa-Dashbot.ts:52-63 | the merged config reads as the caller's options on every key except `ignoreUsers`, which defaults to `[]`; the Dashbot settings are exactly `debug`, `redact` and `timeout` copied from the options plus `printErrors = true`; exactly the request-started and before-reply-sent hooks are attached |
| `VoxaDashbot.TrackIncoming` | src/Voxa-Dashbot.ts:65-80 | skips exactly when the user is ignored or sending is suppressed; otherwise the key is the truthy platform option, else `api_key`; a platform outside the table has no channel; a forwarded event goes to the table's sub-client with the client settings and the raw event unchanged |
| `VoxaDashbot.TrackOutgoing` | src/Voxa-Dashbot.ts:82-97 | the same gate, key and channel as the incoming side; a forwarded reply carries the raw event and the reply unchanged |
| `VoxaDashbot.IgnoreListIsExactMembership` | src/Voxa-Dashbot.ts:66-68 | with an array ignore list and no suppression, both handlers skip exactly when the user id is one of the listed strings |
| `VoxaDashbot.SuppressSendingSkipsBoth` | src/Voxa-Dashbot.ts:69-71 | a truthy `suppressSending` makes both handlers skip, whatever the ignore list holds (also lines 86-88) |
| `VoxaDashbot.HandlersAgree` | src/Voxa-Dashbot.ts:65-97 | for one event, the handlers both skip, or both lack a channel with the same outcome (same key and settings), or both forward with the same key, settings and channel |
| `VoxaDashbot.EmptyOverrideFallsBack` | src/Voxa-Dashbot.ts:73 | an empty-string platform option does not override: the key is `api_key` |
| `VoxaDashbot.DefaultsForwardEveryMappedPlatform` | src/Voxa-Dashbot.ts:28-30 | with no ignore list given and no suppression, every event on a platform in the table is forwarded by both handlers, with the resolved key and the table's channel |
| `VoxaDashbot.ChannelsAreDashbotClients` | src/Voxa-Dashbot.ts:32-38 | a forwarded event always goes to one of the `alexa`, `generic`, `google` or `facebook` sub-clients |
| `VoxaDashbot.StringIgnoreListMatchesSubstrings` | src/Voxa-Dashbot.ts:66 | an ignore list given as the string "user-id-2" filters out the user "user-id" |
| `LegacyVoxaDashbot.PlatformApiKey` | lib/Voxa-Dashbot.js:33 | `_.get(pluginConfig, [platform, 'api_key'])` is the `api_key` property of the platform's option when that option is an object, and `undefined` otherwise (a missing option or a plain string); also line 45 |
| `LegacyVoxaDashbot.Register` | lib/Voxa-Dashbot.js:18-27 | the merged config reads as the caller's options except that `ignoreUsers` defaults to `[]`; the Dashbot settings are exactly `debug` from the options and `printErrors = true`; the same two hooks are attached |
| `LegacyVoxaDashbot.TrackIncoming` | lib/Voxa-Dashbot.js:29-39 | skips exactly when the user is ignored or sending is suppressed; otherwise the key is the truthy `<platform>.api_key`, else `api_key`; only `dialogFlow` and `alexa` have a channel; the raw event is forwarded unchanged |
| `LegacyVoxaDashbot.TrackOutgoing` | lib/Voxa-Dashbot.js:41-51 | the same gate, key and channel as the incoming side; the raw event and the reply are forwarded unchanged |
| `LegacyVoxaDashbot.IgnoreListIsExactMembership` | lib/Voxa-Dashbot.js:30 | with an array ignore list and no suppression, both handlers skip exactly when the user id is one of the listed strings (also line 42) |
| `LegacyVoxaDashbot.SuppressSendingSkipsBoth` | lib/Voxa-Dashbot.js:31 | a truthy `suppressSending` makes both handlers skip (also line 43) |
| `LegacyVoxaDashbot.HandlersAgree` | lib/Voxa-Dashbot.js:29-51 | for one request, the handlers both skip, or both lack a channel with the same outcome (same key and settings), or both forward with the same key, settings and channel |
| `LegacyVoxaDashbot.FlatPlatformOptionIsNotAKey` | lib/Voxa-Dashbot.js:33 | a plain string under the platform's name is not a key: the default `api_key` is used |
| `LegacyVoxaDashbot.DialogFlowKeyIsCaseSensitive` | lib/Voxa-Dashbot.js:11-14 | a tracked `dialogFlow` request goes to the `google` client; a `dialogflow` request has no channel |
| `Snapshots.GateUnchanged` | lib/Voxa-Dashbot.js:29-31 | for the same options and user, both versions filter out exactly the same events |
| `Snapshots.TablesShareOnlyAlexa` | src/Voxa-Dashbot.ts:32-38 | `alexa` is the only platform name both tables map, and both map it to the `alexa` client |
| `Snapshots.NestedKeyReadDifferently` | src/Voxa-Dashbot.ts:73 | with options written for the earlier version (`alexa: {api_key}`), the earlier version sends the nested key, and the current one uses the whole `alexa` object as the key |

## Left out

- The Dashbot client library (`DashbotAnalytics`, `logIncoming`, `logOutgoing`, HTTP transport). A forwarded event is only the call it would receive. Whatever checks the library itself makes of the key are not part of this model.
- Promises: `Promise.resolve(null)` is `Skipped`, and the promise returned by the library is not modelled.
- The Voxa framework: `onRequestStarted` and `onBeforeReplySent` are recorded only as the list of hooks a registered plugin uses. The `NoChannel` outcome stands for the `TypeError` the source raises by calling a method on `undefined`. What Voxa does with that exception is not modelled.
- JsValues.Merge: lodash's deep merge is modelled one level deep. An option that is not `undefined` replaces the default. With the plugin's only default (`ignoreUsers: []`) this agrees with lodash, except when a caller passes a plain object as `ignoreUsers`. lodash merges that object's properties into the default array: properties named by an array index (`{"0": "u"}` becomes `["u"]`) become elements, and properties with other names are not seen by `_.includes`. The model keeps the object, so a user id held under a non-index name (`{a: "u"}`) is ignored by the model but not by the source.
- VoxaDashbot.Register: its statement that the merged configuration reads as the caller's options carries the same gap for a plain-object `ignoreUsers` (see JsValues.Merge).
- LegacyVoxaDashbot.Register: the same gap for a plain-object `ignoreUsers` (see JsValues.Merge).
- VoxaDashbot.TrackIncoming (and VoxaDashbot.TrackOutgoing): `_.get(pluginConfig, platform.name)` is read as one property. lodash would parse a name containing `.` or `[` as a path. Voxa's platform names contain neither.
- Properties inherited from `Object.prototype` (a platform named `constructor`, say) are not modelled. The configuration and the channel table are read as their own properties only.
- Numbers are integers: floating point and `NaN` (which is falsy) are not modelled.
- The `debug('Sending to dashbot')` logging in lib/Voxa-Dashbot.js.
- Regular-expression ignore rules, custom events (`trackEvent`), `addInputs`, the Google user-storage augmentation, session-ended handling and the catalogue of optional platform hooks. No code in src/Voxa-Dashbot.ts or lib/Voxa-Dashbot.js implements them, so they are not part of this model. src/index.ts, which the tests exercise for these features, is not part of this model.
- The type declarations (src/events.ts, lib/Voxa-Dashbot.d.ts, src/@types/dashbot/index.d.ts) carry no behaviour.
