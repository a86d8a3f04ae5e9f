# Rituals Genie platform — a Dafny model

This project models the core of a Homebridge plugin for the Rituals Perfume
Genie diffuser (the vendor calls the device a "hub"). It has two parts:

- **The platform** (`platform.dfy`, module `Platform`). At startup it restores
  the account hash and the hub hash from a two-key local store, or fetches and
  persists them. It then pulls the hub's state once into a cached snapshot and
  binds the fan accessory. Each later write is an attribute patch (`fanc` for
  power, `speedc` for speed). A write that answers 200 triggers one more pull.
  Every failure is swallowed: nothing is retried and nothing is reported to the
  caller.
- **The fan accessory** (`fan_accessory.dfy`, module `FanControl`). It holds
  the four characteristic handlers and their guards on the cached snapshot. It
  also holds the two speed rules: percentage → level with thresholds 33 and 67,
  and level → percentage giving 100/3, 200/3, 100 or 0.

`hub_response.dfy` holds the reply payloads (`Hub`, `Attributes`, the
`{ hub }` envelope and the login body). `wrappers.dfy` holds `Option`, which
stands for `undefined`/`null`.

How the model is built:

- Each HTTP exchange is a `Reply` value that the caller passes in. A reply is
  either a status with a parsed body that may be null, or `Threw`. A JSON parse
  failure is a `Threw`.
- Every request the platform would send is appended to the ghost trace `sent`.
  Every accessory handed to the host for registration is appended to the ghost
  sequence `registered`.
- The local store is a `map<string, string>`. A key that was never written is
  absent, and startup treats an absent key and `''` alike.
- Percentages are `real`: the source's doubles `100 / 3` and `(100 / 3) * 2` become the exact rationals 100/3 and 200/3.

The model follows the code, including where one might expect otherwise
(that every level round-trips, that errors reach the caller):

- Level 1 does not round-trip. `getFanSpeed` reports 100/3 for level 1, and
  100/3 > 33, so writing that value back selects level 2 (`LevelOneBecomesTwo`).
  Only levels 2 and 3 survive (`UpperLevelsRoundTrip`).
- Reported speeds for levels 1 and 2 are `100 / 3` and `(100 / 3) * 2`, not the integers 33 and 67.
  The model takes them as the exact rationals 100/3 and 200/3 (see "Left out").
- Login, hub and state errors are logged and swallowed. They are never returned.
  After a failed login, startup still pulls the state. When no hub hash is stored
  (null or `''`), it also still lists hubs, with the path segment `undefined`
  (`FailedLoginStartup`). When a hub hash is stored, no hub-list request is sent.
- `getFanSpeed` checks the power state only in the cached snapshot, before
  pulling. After pulling it maps `speedc` without looking at the new `fanc`.
  An absent snapshot does not count as "off": the getter pulls.

## Model

| member | source | states |
|---|---|---|
| `Platform.RitualsGeniePlatform.constructor` | src/platform.ts:33-44 | The platform starts with the given store, no account hash, no hub hash, no snapshot and no cached accessories, and `Valid()` holds. |
| `Platform.RitualsGeniePlatform.ConfigureAccessory` | src/platform.ts:51-54 | A restored accessory is appended to `accessories`, and nothing else changes. |
| `Platform.RitualsGeniePlatform.OnDidFinishLaunching` | src/platform.ts:56-86 | Login is sent exactly when the stored account hash is null or `''`; otherwise the field takes the stored value. The hub hash follows the same rule with a hub-list request. Exactly one state pull follows, even after a failed login or hub lookup. The store gains only what the login or hub reply grants. The fan is then bound as `AddFanAccessory` states. `Valid()` is preserved. |
| `Platform.RitualsGeniePlatform.RestoreAccount` | src/platform.ts:58-65 | A login is sent exactly when the stored account hash is null or `''`. Otherwise the field takes the stored value and nothing is sent. The store changes only by what the login grants. `Valid()` is preserved. |
| `Platform.RitualsGeniePlatform.RestoreHub` | src/platform.ts:67-74 | A hub-list request is sent exactly when the stored hub hash is null or `''`. Otherwise the field takes the stored value and nothing is sent. The store changes only by what the hub list grants. `Valid()` is preserved. |
| `Platform.RitualsGeniePlatform.AddFanAccessory` | src/platform.ts:88-106 | If a cached accessory has the fan UUID, the first such accessory is reused and nothing is registered. Otherwise a new `Fan` accessory with that UUID and the configured name is registered once. |
| `Platform.FirstWithUuid` | src/platform.ts:92 | `find` returns the first index whose UUID matches. It returns none exactly when no accessory matches. |
| `Platform.RitualsGeniePlatform.Login` | src/platform.ts:108-150 | Exactly one login request is sent, carrying `email` then `password`. The account hash field and the store key are both set to the granted hash, or both stay unchanged. `Valid()` is preserved. |
| `Platform.GrantedAccount` | src/platform.ts:128-142 | A login reply grants a hash if and only if its status is 200, its body is non-null and `account_hash` is non-null. The granted value is that `account_hash`. |
| `Platform.Persist` | src/platform.ts:133 | `setItem` sets only its own key. Every other key reads as before, and with nothing to write the store is unchanged. |
| `Platform.RitualsGeniePlatform.GetHub` | src/platform.ts:152-184 | Exactly one hub-list request is sent for the current account hash, written as `undefined` when absent. The hub hash field and the store key are both set to the granted hash, or both stay unchanged. `Valid()` is preserved. |
| `Platform.GrantedHub` | src/platform.ts:162-177 | A hub-list reply grants a hash if and only if its status is 200, the list is non-null and non-empty, and its first element's `hub` is non-null. The granted value is element 0's hash. |
| `Platform.FailedLoginStartup` | src/platform.ts:59-75 | On an empty store where the login call throws, nothing is persisted under the account key. The second request is still the hub-list request, for the account path segment `undefined`. |
| `Platform.RitualsGeniePlatform.GetStateForHub` | src/platform.ts:186-215 | Exactly one state request is sent, and the snapshot becomes `Pulled(old snapshot, reply)`. |
| `Platform.Pulled` | src/platform.ts:196-209 | A status-200 reply with a non-null `hub` replaces the snapshot with that hub as a whole. Any other reply leaves the previous snapshot as it was. |
| `Platform.ParseAttrPatch` | src/platform.ts:217-235 | `AttrPatch` renders the template `{ "attr": { "k": "v" } }` of lines 220 and 230; the source has no reader, and this one is its partner. Whatever it accepts has a key and a value free of `"`, `\` and control characters below U+0020, and is exactly `AttrPatch` of that key and value. So it is a JSON object with one attribute that carries them verbatim. |
| `Platform.AttrPatchRoundTrip` | src/platform.ts:217-235 | Any patch built from a key and a value that are both free of `"`, `\` and control characters reads back as exactly that key and value. |
| `Platform.UnsafeValueRefused` | src/platform.ts:227-235 | The template does not escape. A value containing `"`, `\` or a control character is refused by the reader, because the rendered text does not carry it verbatim as a single attribute. |
| `Platform.NewlineRefused` | src/platform.ts:230 | A level holding a raw newline is refused, since JSON does not allow it unescaped inside a string. |
| `Platform.InjectedLevelRefused` | src/platform.ts:230 | The level `1", "fanc": "0` renders as `{ "attr": { "speedc": "1", "fanc": "0" } }`, which has two attributes, and it is not read back as one `speedc` pair. |
| `Platform.PowerPatchReadsBack` | src/platform.ts:217-221 | The power patch reads back as key `fanc` with value `"1"` for true and `"0"` for false. |
| `Platform.SpeedPatchReadsBack` | src/platform.ts:227-231 | A speed patch whose level is free of `"`, `\` and control characters reads back as key `speedc` with the level unchanged. |
| `Platform.RitualsGeniePlatform.UpdateOnState` | src/platform.ts:217-225 | The platform sends the form `hub`, then `json` holding the `fanc` patch, and the snapshot follows `AfterUpdate`. |
| `Platform.RitualsGeniePlatform.UpdateFanSpeed` | src/platform.ts:227-235 | The platform sends the form `hub`, then `json` holding the `speedc` patch, and the snapshot follows `AfterUpdate`. |
| `Platform.RitualsGeniePlatform.UpdateHub` | src/platform.ts:237-261 | The POST is sent, followed by one state pull only if the POST answered 200. The snapshot changes only through that pull. No error reaches the caller. |
| `Platform.UpdateTrace` | src/platform.ts:249-254 | A write sends two requests (the update, then a state request for the current hub hash) on status 200, and only the update otherwise. |
| `Platform.AfterUpdate` | src/platform.ts:249-251 | A write that did not answer 200 leaves the snapshot unchanged. One that did gives the result of a single pull. |
| `FanControl.SpeedLevel` | src/FanAccessory.ts:61-70 | Every rotation speed maps to one of the levels `'1'`, `'2'` or `'3'`. |
| `FanControl.SpeedLevelBands` | src/FanAccessory.ts:61-70 | Level 1 is chosen exactly when v <= 33. Level 2 exactly when 33 < v <= 67. Level 3 exactly when v > 67. |
| `FanControl.SpeedLevelMonotone` | src/FanAccessory.ts:61-70 | A larger rotation speed never selects a lower level. |
| `FanControl.SetSpeedPatchReadsBack` | src/FanAccessory.ts:61-73 | For every rotation speed, the patch `setFanSpeed` sends reads back as exactly one `speedc` attribute holding the level chosen for that speed. |
| `FanControl.PercentFor` | src/FanAccessory.ts:86-101 | Every reported speed lies in [0, 100]. It is positive exactly for levels `'1'`, `'2'` and `'3'`, and 0 for any other or absent level. |
| `FanControl.PercentForIncreasing` | src/FanAccessory.ts:88-97 | A higher level reports a strictly higher speed. |
| `FanControl.UpperLevelsRoundTrip` | src/FanAccessory.ts:61-97 | For levels 2 and 3, the forward rule applied to the reported speed gives back the same level. |
| `FanControl.LevelOneBecomesTwo` | src/FanAccessory.ts:61-90 | Level 1 reports 100/3, and the forward rule maps 100/3 to level 2. |
| `FanControl.DisplayedSettles` | src/FanAccessory.ts:61-101 | Writing back the displayed speed settles after two rounds, on 200/3 or 100. |
| `FanControl.FanAccessory.constructor` | src/FanAccessory.ts:9-12 | The accessory is bound to its platform and its host accessory. |
| `FanControl.FanAccessory.SetOn` | src/FanAccessory.ts:42-45 | Exactly one power update is issued, and the pull that follows depends on its status. |
| `FanControl.FanAccessory.GetOn` | src/FanAccessory.ts:47-55 | The accessory always pulls first. It then returns true if and only if the post-pull snapshot exists and has `fanc == '1'`. |
| `FanControl.FanAccessory.SetFanSpeed` | src/FanAccessory.ts:57-75 | If the cached snapshot has `fanc == '1'`, exactly one speed update carrying `SpeedLevel(value)` is issued; the `speedc ?? '1'` default is always overwritten. Otherwise no request is sent and nothing changes. |
| `FanControl.FanAccessory.GetFanSpeed` | src/FanAccessory.ts:77-105 | If the cached `fanc` is `'0'`, the result is 0 with no pull. Otherwise, including when there is no snapshot, the accessory pulls once and maps the post-pull `speedc`. The result always lies in [0, 100]. |
| `FanControl.FreshStoreStartup` | src/platform.ts:56-86 | On an empty store, a login granting `ah1` and a hub list led by `h1` persist exactly those two keys. The requests are exactly login, hub list, state, then one more state pull for the On read. A pulled state with the fan off at level 2 then reads as off with speed 0. |

## Left out

- HTTP transport, URLs, headers (including the fixed User-Agent) and JSON parsing are not modelled. Each call is a `Reply` parameter, and a parse failure is the `Threw` case.
- JSON escaping is not modelled, because the source interpolates keys and values into the patch text unescaped. The patch reader is a check of that fixed template, not a general JSON parser. It accepts only keys and values free of `"`, `\` and control characters below U+0020, the characters that section 7 of RFC 8259 requires to be escaped. Every patch the accessory sends is of that kind (`PowerPatchReadsBack`, `SetSpeedPatchReadsBack`).
- `encodeURIComponent` and the `&`-joining of form bodies are not modelled. A form is the ordered list of its `name=value` pairs before encoding.
- `node-localstorage` is not modelled. The store is a map, and its directory and file format are out of scope.
- Logging is not modelled. Neither are the `DID_FINISH_LAUNCHING` event hookup and the `.catch` around startup, since nothing inside startup throws past its own handlers.
- `Platform.RitualsGeniePlatform.AddFanAccessory` does not construct the `FanAccessory` itself, because Dafny modules cannot depend on each other in a cycle. It returns the accessory to bind, and `FanControl.FanAccessory.constructor` takes that accessory.
- Homebridge/HAP wiring is not modelled: characteristic registration, `setProps`, and the `AccessoryInformation` metadata (manufacturer, model, serial, firmware) set in the accessory constructor. The fan UUID is a given constant.
- Concurrency is not modelled: the host may interleave characteristic callbacks, and the model runs each call to completion.
- FanControl.PercentFor and FanControl.FanAccessory.GetFanSpeed model the JavaScript doubles `100 / 3` (33.333333333333336) and `(100 / 3) * 2` (66.66666666666667) as the exact rationals 100/3 and 200/3. Every comparison with 33 and 67 gives the same level for the double as for the rational, and the reported values differ from the doubles by less than 1e-14.
- Only finite numeric rotation-speed values are modelled. Values that coerce to NaN fall through the if-chain in `setFanSpeed` to the `speedc ?? '1'` default. JavaScript's coercion of strings and booleans in the comparisons is not modelled.
- The sensor sub-records of the hub payload are reduced to the firmware version string. They are passthrough data with no logic. The login reply type file is not part of this model; only its `account_hash` field is.
- `src/index.ts`, the older standalone accessory plugin, is not part of this model.
