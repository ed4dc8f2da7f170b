# Easy Access Zigbee door lock — verified model

A Dafny model of the sequential logic in the Homey app for the Easy Access
Zigbee door lock (EasyCodeTouch). It covers:

- **Event reports** (`EventReport`). The vendor's undocumented 4-byte
  `eventReport` attribute is decoded into the `lock_event` trigger tokens:
  - byte 0 is the user id;
  - byte 2 is the reason, looked up in a 16-entry table;
  - byte 3 is the source, looked up in a 3-entry table;
  - byte 1 is reserved;
  - a reason or source byte missing from its table gives `'Unknown'`;
  - byte 2 or 3 missing from the buffer gives `'Unknown'`, and a missing
    byte 0 gives an `undefined` user id.
- **PIN codes** (`PinCodes`). These are the `set_pin` and `delete_pin`
  flow actions. They check the user id range 1..50. The PIN is trimmed, then
  its length must be 4..8 and `Number(pin)` must not be NaN. Each character
  becomes one byte holding its digit value. The result is the `setPinCode` or
  `clearPinCode` argument record.
- **Settings** (`SettingsMaps`, `SettingsRetry`, `LockDevice`):
  - the Homey settings `auto_relock_time` (boolean) and `sound_volume`
    (off/low/normal), and their translation to and from the lock's
    `autoRelockTime` (0/1) and `soundVolume` (0/1/2) attributes;
  - the change set that `saveSettingsToDevice` builds;
  - the `writeSettings` retry loop driven by the single `settingsInterval`
    field;
  - `copyDeviceSettings`, the attribute-report listeners, the `onSettings`
    guard, and the first-init error policy of `onNodeInit`.
- **Cluster schema** (`DoorLockCluster`). These are the attribute and command
  tables of the vendor Door Lock cluster: ids, data types, directions and
  argument order.
- **App flow cards** (`App`). These are the `auto_relock` condition and action.

The driver (`drivers/easycodetouch/device.js`) and the library device class
(`lib/EasyConnectLockDevice.js`) repeat the same decoder and settings logic.
It is modelled once. The table below cites one copy of each piece, and the
other copy is identical:

- The cluster tables are `drivers/easycodetouch/device.js:7-90` and
  `lib/EasyAccessDoorlockCluster.js:4-87`.
- The event decoder is `drivers/easycodetouch/device.js:172-204` and
  `lib/EasyConnectLockDevice.js:63-95`.
- The first-init error policy is `drivers/easycodetouch/device.js:124-156` and
  `lib/EasyConnectLockDevice.js:17-49`.
- The report listeners are `drivers/easycodetouch/device.js:158-166` and
  `lib/EasyConnectLockDevice.js:51-59`.
- `onSettings` through `copyDeviceSettings` is
  `drivers/easycodetouch/device.js:360-472` and
  `lib/EasyConnectLockDevice.js:157-269`.

JavaScript semantics are written out where they decide results:

- Object literals indexed with a value go through `JsValues.Lookup`. The
  value is first turned into a property name: `undefined` becomes
  "undefined", and a number becomes its decimal text. So a number-literal key
  `0x0B` is the entry "11", and an `undefined: …` entry supplies the default.
  The settings maps are looked up this way directly. The two event tables are
  kept as maps from byte values (`EventReport.SourceMap`,
  `EventReport.ReasonMap`), and `EventReport.SourceTableIsObjectLiteral` and
  `EventReport.ReasonTableIsObjectLiteral` prove that they find what the
  object literals `sourceMap` and `reasonMap` find for every byte and for
  `undefined`.
- `isNaN(Number(s))` is the StringToNumber grammar of section 7.1.4.1.1 of
  ECMA-262: decimal literals with a fraction or exponent, `Infinity`, and
  `0x`/`0o`/`0b` literals, around trimmed whitespace.
- `String.prototype.trim` strips the ECMAScript white-space and
  line-terminator characters.
- `Buffer.writeUInt8` of a one-character string stores its numeric value, or
  0 when it is not a digit.

Behaviour worth knowing:

- **Short event buffers.** A buffer shorter than 4 bytes does not fail to
  decode. Each byte past the end reads as `undefined`, and each field falls
  back on its own: a missing byte 0 gives an `undefined` user id, and a
  missing byte 2 or 3 gives `'Unknown'`. An empty buffer decodes to
  `undefined`, `'Unknown'`, `'Unknown'`, while `[5, 0, 1]` decodes to 5,
  `'Lock'`, `'Unknown'` (`EventReport.DecodeIsPositional`,
  `EventReport.DecodeExamples`).
- **Non-digit PINs.** The error message of `set_pin` at
  `drivers/easycodetouch/device.js:267` says "Pin should be 4-8 digits", but
  the test at `drivers/easycodetouch/device.js:266` only rejects a length
  outside 4..8 or an `isNaN(Number(newPin))`. So "12.5", "1e10", "0x1F" and
  "Infinity" are accepted, and their non-digit characters are sent as 0 bytes
  (`PinCodes.DecimalFractionPinAccepted`, `PinCodes.ExponentPinAccepted`,
  `PinCodes.HexAndInfinityPinsAccepted`).

## Model

| member | source | states |
|---|---|---|
| JsValues.NumberIndexesNumberKey | drivers/easycodetouch/device.js:200-201 | a number indexes a number-literal table entry exactly when it is that entry's number |
| JsValues.UndefinedIsNoNumberKey | drivers/easycodetouch/device.js:200-201 | `undefined` (a byte past the end of the buffer) finds no number-literal entry |
| DoorLockCluster.AttributeTableUnique | lib/EasyAccessDoorlockCluster.js:4-31 | attribute ids and names are pairwise distinct, so lookup by id or by name finds each attribute |
| DoorLockCluster.AttributeLayout | lib/EasyAccessDoorlockCluster.js:4-31 | lockState 0x0000 enum8 {LOCKED 1, UNLOCKED 2}, autoRelockTime 0x0023 uint32, soundVolume 0x0024 uint8, eventReport 0x0100 buffer; other ids find nothing |
| DoorLockCluster.CommandTableDistinct | lib/EasyAccessDoorlockCluster.js:32-75 | (id, direction) pairs and command names are pairwise distinct |
| DoorLockCluster.CommandTableUnique | lib/EasyAccessDoorlockCluster.js:32-75 | lock 0 and unlock 1; setPinCode and its response share 0x05, clearPinCode and its response share 0x07, with opposite directions; lookup by (id, direction) or by name finds each command |
| DoorLockCluster.PinCommandLayouts | lib/EasyAccessDoorlockCluster.js:39-68 | setPinCode takes userId uint16, userStatus enum8 {AVAILABLE 0, OCCUPIED 1}, userType enum8 {UNRESTRICTED 0}, pinLength uint8, pin buffer, in this order; clearPinCode takes only userId uint16 |
| DoorLockCluster.AttributeWithIdFinds | lib/EasyAccessDoorlockCluster.js:4-31 | in a table with distinct ids, lookup by id returns the entry with that id, or nothing when none has it |
| DoorLockCluster.CommandWithFinds | lib/EasyAccessDoorlockCluster.js:32-75 | in a table with distinct (id, direction) pairs, lookup returns the matching command, or nothing |
| EventReport.NumberTableAgrees | drivers/easycodetouch/device.js:175-201 | a map from numbers and the object literal with those numbers as keys find the same text for every byte and for `undefined` |
| EventReport.SourceTableIsObjectLiteral | drivers/easycodetouch/device.js:175-179 | the source map finds what the `sourceMap` literal finds for every byte of the buffer and for a byte past its end |
| EventReport.ReasonTableIsObjectLiteral | drivers/easycodetouch/device.js:181-198 | the reason map finds what the `reasonMap` literal finds for every byte of the buffer and for a byte past its end |
| EventReport.SourceOfByte | drivers/easycodetouch/device.js:175-179 | 0x02, 0x04 and 0x0A give Keypad, RF and Remote; any other byte, or a missing one, gives 'Unknown' |
| EventReport.ReasonOfByte | drivers/easycodetouch/device.js:181-198 | codes 0x00 to 0x0F give the sixteen reason texts in order; any other byte, or a missing one, gives 'Unknown' |
| EventReport.DecodeEventReport | drivers/easycodetouch/device.js:200-204 | the listener's token record; characterised by DecodeIsPositional, DecodeIgnoresReservedByte and DecodeExamples |
| EventReport.DecodeIsPositional | drivers/easycodetouch/device.js:200-204 | user id from byte 0 (undefined if absent), reason from byte 2 and source from byte 3, each with its own 'Unknown' fallback; a short buffer never fails |
| EventReport.DecodeIgnoresReservedByte | drivers/easycodetouch/device.js:200-204 | changing byte 1 never changes the decoded event |
| EventReport.DecodeExamples | drivers/easycodetouch/device.js:175-204 | [0x07,0x00,0x0B,0x02] decodes to {7, 'Schedule lock', 'Keypad'}; a source byte 0xFF gives 'Unknown'; [5,0,1] gives {5, 'Lock', 'Unknown'}; an empty buffer gives {undefined, 'Unknown', 'Unknown'} |
| PinCodes.Trim | drivers/easycodetouch/device.js:264 | `args.pin.trim()`; characterised by TrimSpec and TrimIdempotent |
| PinCodes.TrimSpec | drivers/easycodetouch/device.js:264 | the trimmed PIN is the input with its leading and trailing white space removed, and starts and ends with no white space |
| PinCodes.TrimIdempotent | drivers/easycodetouch/device.js:264 | trimming twice gives the same text as trimming once |
| PinCodes.PinAccepted | drivers/easycodetouch/device.js:266 | the length and `isNaN(Number(…))` test; characterised by DigitPinAccepted, SentPinIsAscii and the accepted and rejected examples |
| PinCodes.DigitPinAccepted | drivers/easycodetouch/device.js:266 | every text of 4 to 8 decimal digits passes the length and numeric test |
| PinCodes.AcceptedPinIsAscii | drivers/easycodetouch/device.js:266 | a numeric literal, the trimmed text `Number` parses, is ASCII only; the white space `Number` strips around it need not be |
| PinCodes.SentPinIsAscii | drivers/easycodetouch/device.js:264-270 | the trimmed PIN that `set_pin` accepts is ASCII only, so its JavaScript length counts its characters and the buffer has one byte per character |
| PinCodes.PinBytes | drivers/easycodetouch/device.js:270-271 | the PIN buffer; characterised by EncodePin, DigitPinBytes and DigitPinBytesInjective |
| PinCodes.EncodePin | drivers/easycodetouch/device.js:270-271 | the buffer filled byte by byte holds, at each index, the digit value of that PIN character (0 for a non-digit) |
| PinCodes.DigitPinBytes | drivers/easycodetouch/device.js:270-271 | for an all-digit PIN the buffer is as long as the PIN, byte i is digit i's numeric value (not its character code), and the PIN reads back from the buffer |
| PinCodes.DigitPinBytesInjective | drivers/easycodetouch/device.js:270-271 | two different all-digit PINs never encode to the same buffer |
| PinCodes.SetPin | drivers/easycodetouch/device.js:255-283 | an id outside 1..50 fails first, then a trimmed PIN with a bad length or NaN value fails; otherwise, and only then, the command carries the id, status 0, type 0, the trimmed length and the encoded buffer, matching the setPinCode schema |
| PinCodes.ClearPin | drivers/easycodetouch/device.js:286-302 | an id outside 1..50 fails; otherwise the clearPinCode command carries exactly that id and matches its schema |
| PinCodes.DecimalFractionPinAccepted | drivers/easycodetouch/device.js:266-271 | "12.5" is accepted and encoded as [1,2,0,5] |
| PinCodes.ExponentPinAccepted | drivers/easycodetouch/device.js:266 | "1e10" is accepted |
| PinCodes.HexAndInfinityPinsAccepted | drivers/easycodetouch/device.js:266 | "0x1F" and "Infinity" are accepted |
| PinCodes.MalformedPinsRejected | drivers/easycodetouch/device.js:266-268 | "12a4" and "12 34" are NaN and "123" is too short, so all three are rejected |
| SettingsMaps.MapAutoRelockSetting | lib/EasyConnectLockDevice.js:205-212 | `mapAutoRelockSetting`; characterised by AutoRelockSettingValues and SettingsMapsRoundTrip |
| SettingsMaps.MapSoundVolumeSetting | lib/EasyConnectLockDevice.js:195-203 | `mapSoundVolumeSetting`; characterised by SoundVolumeSettingValues and SettingsMapsRoundTrip |
| SettingsMaps.AutoRelockFromDevice | lib/EasyConnectLockDevice.js:244-251 | the `autoRelockTime` translation of `copyDeviceSettings`; characterised by AutoRelockDeviceValues and SettingsMapsRoundTrip |
| SettingsMaps.SoundVolumeFromDevice | lib/EasyConnectLockDevice.js:253-261 | the `soundVolume` translation of `copyDeviceSettings`; characterised by SoundVolumeDeviceValues and SettingsMapsRoundTrip |
| SettingsMaps.AutoRelockSettingValues | lib/EasyConnectLockDevice.js:205-212 | true and undefined give 1, false gives 0, and every other setting gives undefined |
| SettingsMaps.SoundVolumeSettingValues | lib/EasyConnectLockDevice.js:195-203 | off, low and normal give 0, 1 and 2, undefined gives 2, and every other setting gives undefined |
| SettingsMaps.AutoRelockDeviceValues | lib/EasyConnectLockDevice.js:244-251 | a reported 0 gives false and 1 gives true; every other number gives undefined |
| SettingsMaps.SoundVolumeDeviceValues | lib/EasyConnectLockDevice.js:253-261 | a reported 0, 1 and 2 give off, low and normal; every other number gives undefined |
| SettingsMaps.SettingsMapsRoundTrip | drivers/easycodetouch/device.js:398-464 | mapping a boolean or volume to its device value and back restores it, and so does the reverse trip for values 0/1 and 0/1/2; undefined defaults to 1 and 2 |
| SettingsMaps.ChangeSet | lib/EasyConnectLockDevice.js:174-189 | the `newDeviceSettings` object `saveSettingsToDevice` builds; characterised by ChangeSetKeys, ChangeSetEmpty and CollectDeviceSettings |
| SettingsMaps.CollectDeviceSettings | lib/EasyConnectLockDevice.js:174-189 | the loop over changedKeys yields the device value of each changed vendor setting and ignores every other key |
| SettingsMaps.ChangeSetKeys | lib/EasyConnectLockDevice.js:177-189 | an attribute is in the change set exactly when its Homey key was changed, holding the device value of its new setting |
| SettingsMaps.ChangeSetStep | lib/EasyConnectLockDevice.js:178-188 | each further changed key adds its attribute's device value when it is a vendor key, and leaves the change set alone otherwise |
| SettingsMaps.ChangeSetEmpty | lib/EasyConnectLockDevice.js:190-192 | the change set is empty exactly when neither auto_relock_time nor sound_volume changed |
| SettingsMaps.TranslateDeviceSettings | lib/EasyConnectLockDevice.js:240-261 | the `homeySettings` object `copyDeviceSettings` builds; characterised by TranslateKeys and DeviceRoundTrip |
| SettingsMaps.TranslateKeys | lib/EasyConnectLockDevice.js:240-261 | the copied settings hold a key exactly for each non-null attribute, with its translated value, and no other key |
| SettingsMaps.AttributeRoundTrip | lib/EasyConnectLockDevice.js:195-261 | a legal setting survives the trip to its device value and back |
| SettingsMaps.SettingsRoundTrip | lib/EasyConnectLockDevice.js:174-261 | writing legal settings and copying the written values back restores exactly the changed settings |
| SettingsMaps.DeviceRoundTrip | lib/EasyConnectLockDevice.js:174-261 | copying legal device values into settings and saving both writes back the same values |
| SettingsRetry.Step | lib/EasyConnectLockDevice.js:214-230 | one write, tick, success or failure of the retry loop; characterised by StepPreservesWellFormed, WriteReplacesPendingRetry, RetriesUntilSuccess and SuccessStopsRetries |
| SettingsRetry.StepPreservesWellFormed | lib/EasyConnectLockDevice.js:214-230 | after every event at most one retry timer is alive, and it is the one settingsInterval holds |
| SettingsRetry.RunPreservesWellFormed | lib/EasyConnectLockDevice.js:214-230 | the single-timer invariant holds after any sequence of events |
| SettingsRetry.WriteReplacesPendingRetry | lib/EasyConnectLockDevice.js:216-229 | a write cancels the old timer, starts a fresh one for the new payload alone, and issues one attempt at once |
| SettingsRetry.RetriesUntilSuccess | lib/EasyConnectLockDevice.js:219-228 | while attempts only fail, each tick re-issues the pending payload once and the retry stays pending; failures change nothing else |
| SettingsRetry.NoTimerNoAttempts | lib/EasyConnectLockDevice.js:223-226 | with settingsInterval null and no new write, no attempt is ever issued |
| SettingsRetry.SuccessStopsRetries | lib/EasyConnectLockDevice.js:223-226 | a successful attempt sets settingsInterval to null, and no attempt follows until the next write |
| SettingsRetry.LatestPayloadOnly | lib/EasyConnectLockDevice.js:219-229 | after a write, every attempt until the next write carries that write's payload |
| SettingsRetry.LateSuccessCancelsNewerRetry | drivers/easycodetouch/device.js:424-428 | a late success of a superseded payload clears the newer retry, so a failed newer attempt is never re-issued |
| SettingsRetry.LateSuccessCancelsAnyNewerRetry | lib/EasyConnectLockDevice.js:223-226 | for any pending older attempt, its success after a new write clears the new retry, and the new payload is not issued again until the next write |
| SettingsRetry.SettingsWriter.WriteSettings | lib/EasyConnectLockDevice.js:214-230 | clears the current interval, stores the new one, issues the immediate attempt, and keeps the single-timer invariant |
| SettingsRetry.SettingsWriter.Tick | lib/EasyConnectLockDevice.js:219-228 | a tick of the live interval issues one more attempt with its payload |
| SettingsRetry.SettingsWriter.AttemptSucceeded | lib/EasyConnectLockDevice.js:223-226 | clears whatever interval settingsInterval holds and sets it to null |
| SettingsRetry.SettingsWriter.AttemptFailed | lib/EasyConnectLockDevice.js:227 | a failure is logged; interval, timers and attempts are unchanged |
| LockDevice.SaveEffect | lib/EasyConnectLockDevice.js:174-193 | the writer state after `saveSettingsToDevice`; characterised by SaveWritesChangedVendorKeys |
| LockDevice.SaveWritesChangedVendorKeys | lib/EasyConnectLockDevice.js:174-193 | saving writes exactly when a vendor key changed, and the one attempt holds exactly the changed vendor attributes |
| LockDevice.TranslateSingle | lib/EasyConnectLockDevice.js:51-59 | a single reported attribute gives its one setting, or nothing when it is null |
| LockDevice.ReportThenSaveEchoes | lib/EasyConnectLockDevice.js:51-59 | after a legal report is copied into the settings, saving that key writes the reported value back unchanged |
| LockDevice.ReportIdempotent | drivers/easycodetouch/device.js:158-166 | copying attributes leaves the settings unchanged exactly when every key they translate to already holds its translated value, so a repeated report changes no setting; it still makes one setSettings call |
| LockDevice.LockDevice.SetSettings | lib/EasyConnectLockDevice.js:263-266 | the stored settings take the given keys, others unchanged, and the call is recorded |
| LockDevice.LockDevice.SaveSettingsToDevice | lib/EasyConnectLockDevice.js:174-193 | writes the change set through writeSettings when it is non-empty, and nothing otherwise |
| LockDevice.LockDevice.OnSettings | lib/EasyConnectLockDevice.js:157-163 | without a Zigbee node nothing is written; otherwise the settings are saved; the device's own fields are untouched |
| LockDevice.LockDevice.CopyDeviceSettings | lib/EasyConnectLockDevice.js:240-269 | returns the translated settings, merges them with one setSettings call when non-empty, and makes no call otherwise; the writer is untouched |
| LockDevice.LockDevice.OnAttributeReport | lib/EasyConnectLockDevice.js:51-59 | a reported attribute is copied into the settings with exactly one setSettings call of its translation; a null report makes no call; the writer is untouched |
| LockDevice.LockDevice.OnNodeInit | lib/EasyConnectLockDevice.js:17-49 | a failed read or configure is rethrown only on first init and then the listeners are not registered; otherwise it is dropped; a successful read is copied into the settings with one setSettings call when it translates to anything, a failed read makes no call, and the writer is untouched |
| App.AutoRelockCondition | app.js:15-17 | the condition is the device's auto_relock_time setting, undefined when unset |
| App.AutoRelockAction | app.js:19-31 | afterwards the setting equals `enabled`; when it already did, nothing changes; otherwise the setting is stored by one setSettings, then one write with only autoRelockTime 1 or 0 starts; the Zigbee node flag and the registered listeners stay as they were |

## Left out

- Capability registration, the `locked` capability and the `lock`/`unlock` set parser only forward to library calls, so they are not modelled.
- The battery report parser divides by 2 and yields fractional percentages. Floating point is not modelled.
- The `event` command (id 0x20) and the `onEvent` emitter are not modelled. The source comment on it says it "does not seem to be triggered" and is no longer implemented, so it is also absent from `DoorLockCluster.Commands`.
- Frame encoding and decoding belong to the `zigbee-clusters` library, which is not part of this model. The schema is kept as data only (`DoorLockCluster.Fits` states the value kind, the numeric range and the enum membership each declared argument type allows, but no bytes are produced).
- Real time is not modelled. `homey.setInterval`, `setImmediate` and promise settlement become the abstract `Tick`, `AttemptSucceeded` and `AttemptFailed` events.
- SettingsRetry.SettingsWriter.WriteSettings: records the immediate attempt inside the call, whereas `setImmediate` defers it to a later turn.
- SettingsRetry.LatestPayloadOnly: holds of that collapsed order only. When two writes run in the same turn, the first write's attempt, deferred by `setImmediate`, is issued after the second write and carries the older payload; the model puts it before the second write.
- The attempt payload is the value captured when the write was made. Timer handles are naturals, and `clearInterval` of an absent handle does nothing.
- Debug logging, `this.error` logging and delivery of the `lock_event` trigger are not modelled. The decoder's result is the token record.
- The `this.zclNode !== args.device.zclNode` check in the PIN actions routes between devices, so it is not modelled.
- The user id argument of the PIN actions is an integer, so fractional ids are not modelled.
- `Buffer.alloc` limits are not modelled, and neither is a PIN argument that is not a string.
- Decoding takes the buffer as a byte sequence. An event value that is not a buffer, such as `null`, is not modelled.
- Object literals are looked up by their own keys only. A key that names an inherited `Object.prototype` member, such as "constructor", is not modelled.
- LockDevice.LockDevice.OnSettings: Homey stores `newSettings` after `onSettings` returns, so the model leaves the stored settings to the caller.
- Homey's `setSettings` is modelled as a merge that does not call `onSettings`. Its possible rejection is not modelled.
- LockDevice.LockDevice.OnNodeInit: the reporting configuration is an outcome parameter. A rejection from `setSettings` inside the copy is not modelled.
- App.AutoRelockAction: the flow-card argument `args.enabled` is taken to be a boolean, as a checkbox argument gives; the card's declared argument type is not part of this model, and a non-boolean argument is not modelled.
- App.AutoRelockAction: the awaited `setSettings` is treated as completed before the write starts. Interleaving with other events during that await is not modelled.
- Concurrency between the two device classes and between several devices is not modelled.
