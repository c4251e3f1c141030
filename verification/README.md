# Battery status receiver — Dafny model

A model of `BatteryStateChangeReceiver`, the Android broadcast receiver of the
Cordova battery-status plugin. The receiver listens for battery broadcasts
(power connected/disconnected, battery low/okay), turns each one into a small
status record with the keys `level`, `isCharging`, `isPlugged`, `plugType` and
`trigger`, and hands it to its single listener. It can also build the same
record on demand from the platform's sticky battery-changed Intent, with
trigger `initial` or `request`.

Modules:

- `Wrappers` (`wrappers.dfy`): `Option`.
- `Platform` (`platform.dfy`): the Android constants the receiver compares
  against, kept abstract as a `Constants` record. `Valid()` states the
  facts the code and the lemmas rely on: the plug codes are distinct and
  positive (positivity is used only by `PlugFieldsAgree`), the five
  action identifiers are pairwise distinct, and none of them is spelled like a
  canonical trigger label. `Sdk` holds the Android SDK values
  (`BATTERY_STATUS_CHARGING` 2, `BATTERY_STATUS_FULL` 5, `BATTERY_PLUGGED_AC` 1,
  `BATTERY_PLUGGED_USB` 2, the `android.intent.action.*` strings).
- `StatusRecord` (`status_record.dfy`): the Intent as the receiver reads it
  (action plus four optional integer extras; `getIntExtra(key, -1)` is
  `IntExtra`), the record as a datatype whose every key is an `Option` (the
  JSON object starts empty and keys are added one by one), the charging and
  plug keys, level resolution and the trigger table.
- `Receiver` (`receiver.dfy`): the receiver's state `State` (registration flag,
  scaled-level setting, the sequence of records sent to the listener) and the
  operations `onReceive`, `register`, `unregister`, `getBatteryStatus`,
  `sendBatteryStatus` as pure functions over `State`; `getBatteryStatus`
  returns the record itself. The platform
  battery query is an input: the sticky Intent it would return.
- `Scenarios` (`scenarios.dfy`): worked examples proved with the SDK constants.

`onReceive`'s fallback query is named `retrieveBatteryLevel` in the code; it is
`GetLevel` applied to the queried Intent and is folded into `ReceivedInfo`.

`getBatteryStatus` passes "initial"/"request" through `addFieldTrigger`
(line 81). They come out unchanged only because no action identifier equals
them, which `Valid()` states; `GetBatteryStatus` proves the outcome under
`Valid()`.

## Model

| member | source | states |
|---|---|---|
| StatusRecord.AddFieldPlug | src/android/BatteryStateChangeReceiver.java:146-149 | `isPlugged` is `details > 0`; `plugType` is usb exactly when the USB flag is set, ac exactly when only the power-cord flag is set, unknown otherwise; no other key changes |
| StatusRecord.AddFieldLevel | src/android/BatteryStateChangeReceiver.java:138-140 | the "level" key is set to the given level and every other key is left as it was |
| StatusRecord.AddFieldCharging | src/android/BatteryStateChangeReceiver.java:142-144 | the "isCharging" key is set to the given flag and every other key is left as it was |
| StatusRecord.AddChargingFieldsFrom | src/android/BatteryStateChangeReceiver.java:117-136 | a missing status (≤ -1) adds nothing; a present status sets `isCharging` to membership in {CHARGING, FULL}; the plug keys are set only when the plug code is also present, from that code with USB tested before AC; `level` and `trigger` untouched |
| StatusRecord.ChargingFieldsPresence | src/android/BatteryStateChangeReceiver.java:117-136 | from an empty record, `isCharging` is present iff the status is, the plug keys are present iff status and plug code both are, and they come together |
| StatusRecord.ChargingIff | src/android/BatteryStateChangeReceiver.java:120-124 | `isCharging` is true iff the status is present and is CHARGING or FULL, false iff present and neither |
| StatusRecord.PlugFieldsAgree | src/android/BatteryStateChangeReceiver.java:126-133 | with valid constants a usb/ac plug type is always reported plugged, plug code 0 gives unplugged/unknown, and `plugType` is ac iff the plug code is AC |
| StatusRecord.GetLevel | src/android/BatteryStateChangeReceiver.java:96-115 | unscaled: the raw level, -1 sentinel included; scaled: -1 when level or scale is missing, otherwise the non-negative fraction whose product with the scale is the level; negative iff level missing or (scaled and scale missing) |
| StatusRecord.ScaledLevelIsFraction | src/android/BatteryStateChangeReceiver.java:104-114 | a level within a positive scale resolves to a fraction in [0, 1], equal to the unscaled level divided by the scale |
| StatusRecord.TriggerLabel | src/android/BatteryStateChangeReceiver.java:151-171 | each of the five actions maps to its label (given distinct actions), any other action passes through unchanged, and recognised actions always give a label |
| StatusRecord.AddFieldTrigger | src/android/BatteryStateChangeReceiver.java:151-172 | the "trigger" key is set to the action's label and every other key is left as it was |
| StatusRecord.TriggerMatchesTable | src/android/BatteryStateChangeReceiver.java:151-171 | the ordered if-chain equals lookup in the five-entry table, falling back to the action itself |
| StatusRecord.TriggerIdempotent | src/android/BatteryStateChangeReceiver.java:151-171 | classifying a classified trigger again changes nothing |
| StatusRecord.TriggerInjective | src/android/BatteryStateChangeReceiver.java:151-171 | two non-label inputs with the same trigger are the same action |
| Receiver.ReceivedInfo | src/android/BatteryStateChangeReceiver.java:37-46 | the record is well formed; its charging keys come from the event; its trigger is the event action's label; its level is the event's when non-negative, otherwise the fallback query's, whatever its sign |
| Receiver.OnReceive | src/android/BatteryStateChangeReceiver.java:32-49 | ends registered, keeps the scaled setting, and appends exactly one record, the one built from the event |
| Receiver.FallbackOnlyWhenNegative | src/android/BatteryStateChangeReceiver.java:41-44 | with a non-negative event level the query cannot influence the record; with a negative one two queries give the same record iff they resolve to the same level |
| Receiver.Register | src/android/BatteryStateChangeReceiver.java:51-65 | ends registered; a no-op when already registered; changes nothing but the flag |
| Receiver.Unregister | src/android/BatteryStateChangeReceiver.java:67-72 | ends unregistered; a no-op when already unregistered; changes nothing but the flag |
| Receiver.RegisterIdempotent | src/android/BatteryStateChangeReceiver.java:51-72 | `register` and `unregister` are each idempotent, and each cancels the other |
| Receiver.GetBatteryStatus | src/android/BatteryStateChangeReceiver.java:74-84 | well-formed record from the queried Intent alone: its charging keys, its level with no fallback, trigger "initial" or "request" |
| Receiver.SendBatteryStatus | src/android/BatteryStateChangeReceiver.java:86-89 | appends the queried status and leaves the flag and setting untouched |
| Receiver.StatusMatchesReceivedSnapshot | src/android/BatteryStateChangeReceiver.java:74-84 | the queried status equals what `onReceive` builds for the same Intent (fallback returning it too), apart from the trigger |
| Receiver.InvariantPreserved | src/android/BatteryStateChangeReceiver.java:32-89 | every operation keeps every sent record well formed (level and trigger present, plug keys together and only with `isCharging`) |
| Receiver.Deliver | src/android/BatteryStateChangeReceiver.java:32-49 | a run of broadcasts keeps the setting, leaves the receiver registered if any arrived, sends one record per broadcast and keeps earlier records |
| Receiver.DeliverLog | src/android/BatteryStateChangeReceiver.java:32-49 | the k-th record sent during a run is the one built from the k-th broadcast: output order is input order |
| Receiver.DeliverInvariant | src/android/BatteryStateChangeReceiver.java:32-49 | a run keeps every sent record well formed |
| Scenarios.PluggedInUsbScaled | src/android/BatteryStateChangeReceiver.java:32-49 | USB charging at 50/100, scaled: level 0.5, charging, plugged, usb, "pluggedin" |
| Scenarios.BatteryLowFallsBack | src/android/BatteryStateChangeReceiver.java:41-44 | a low-battery event with no extras takes level 20 from the query and omits the charging keys |
| Scenarios.InitialQueryScaled | src/android/BatteryStateChangeReceiver.java:74-84 | the initial query at 80/100, scaled, gives level 0.8 and trigger "initial" |
| Scenarios.UnknownActionPassesThrough | src/android/BatteryStateChangeReceiver.java:151-171 | an unrecognised action is reported as itself; plug code 0 is unplugged of unknown type |

## Left out

- Android plumbing: `Context.registerReceiver`/`unregisterReceiver` and the four `IntentFilter`s `register` installs are not modelled; the model keeps only the flag.
- The platform battery query `registerReceiver(null, …)` is an input parameter (the Intent it would return), not a call.
- A null result from the battery query (NullPointerException in `getBatteryStatus` and in the `onReceive` fallback, lines 77-79 and 92-98) is not modelled: the query is always an Intent.
- `JSONObject` construction and the `JSONException` catch-and-log paths: the record is a datatype whose keys cannot fail to be added.
- Logging (`LOG.d`, `LOG.e`) and the unused `Toast` import.
- The `BatteryListener` owner and broadcast threading: `sendMessage` is appending to the `sent` sequence, and broadcasts are handled one at a time.
- A `null` action (`getAction()` returning null) is not modelled; the action is always a string.
- The public `isScaledLevel` field is a component of the state; it is never changed by the receiver and the model has no setter.
- StatusRecord.GetLevel: computes `level / scale` as an exact real, not as an IEEE float, and the unscaled level as the exact integer rather than its float rounding.
- StatusRecord.GetLevel: requires the scale to be non-zero in scaled mode when level and scale are both present, because the code divides unguarded (line 110). There Java gives Infinity (level > 0) or NaN (level 0); neither is `< 0`, so `onReceive` takes no fallback (line 42), and `JSONObject.put` then rejects the non-finite value with a JSONException that is caught and logged (lines 190-195), so the record is sent without a "level" key. The model does not cover that outcome: "level is always present" in `WellFormed` holds only under this requirement.
- Receiver.ReceivedInfo: carries the same non-zero-scale requirement for the event and, when the fallback is taken, for the queried Intent.
- Receiver.OnReceive: inherits the non-zero-scale requirement of `ReceivedInfo`, so a level-less record sent for a zero scale is not modelled.
- Receiver.Deliver: inherits the same requirement for every broadcast of the run.
- Receiver.GetBatteryStatus: requires a non-zero scale in scaled mode for the queried Intent, so a level-less record for a zero scale is not modelled.
- Receiver.SendBatteryStatus: inherits the requirement of `GetBatteryStatus`.
