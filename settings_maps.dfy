/**
 * Translation between the Homey settings (`auto_relock_time`: boolean,
 * `sound_volume`: 'off' | 'low' | 'normal') and the lock's attribute values
 * (autoRelockTime 0/1, soundVolume 0/1/2), in both directions, and the change
 * set `saveSettingsToDevice` builds from the keys the user changed.
 *
 * Every table is an object literal indexed with a setting value, so the
 * lookups go through JsValues.Lookup: `undefined` finds the "undefined" entry
 * that supplies the defaults, and anything the table does not name gives
 * `undefined`.
 */
module SettingsMaps {
  import opened Results
  import opened JsValues

  /** The two writable vendor attributes. */
  datatype DeviceAttribute = AutoRelockTime | SoundVolume

  /** A `{autoRelockTime?, soundVolume?}` object in device units. */
  type DeviceSettings = map<DeviceAttribute, JsValue>

  /** The Homey setting that mirrors an attribute. */
  function HomeyKey(a: DeviceAttribute): string {
    match a
    case AutoRelockTime => "auto_relock_time"
    case SoundVolume => "sound_volume"
  }

  // Homey setting to device value

  const AutoRelockTimeMap: map<string, int> := map["undefined" := 0x01, "true" := 0x01, "false" := 0x00]
  const SoundVolumeMap: map<string, int> := map["undefined" := 0x02, "off" := 0x00, "low" := 0x01, "normal" := 0x02]

  function NumberOrUndefined(x: Option<int>): JsValue {
    if x.Some? then Num(x.value) else Undefined
  }

  /** `mapAutoRelockSetting`. */
  function MapAutoRelockSetting(setting: JsValue): JsValue {
    NumberOrUndefined(Lookup(AutoRelockTimeMap, setting))
  }

  /** `mapSoundVolumeSetting`. */
  function MapSoundVolumeSetting(setting: JsValue): JsValue {
    NumberOrUndefined(Lookup(SoundVolumeMap, setting))
  }

  /** The device value for a new setting of the attribute's Homey key. */
  function DeviceValue(a: DeviceAttribute, setting: JsValue): JsValue {
    match a
    case AutoRelockTime => MapAutoRelockSetting(setting)
    case SoundVolume => MapSoundVolumeSetting(setting)
  }

  // Device value to Homey setting

  const AutoRelockMap: map<string, JsValue> :=
    map["undefined" := Bool(true), NumberKey(0x00) := Bool(false), NumberKey(0x01) := Bool(true)]
  const SoundMap: map<string, JsValue> :=
    map["undefined" := Str("normal"), NumberKey(0x00) := Str("off"), NumberKey(0x01) := Str("low"), NumberKey(0x02) := Str("normal")]

  function ValueOrUndefined(x: Option<JsValue>): JsValue {
    if x.Some? then x.value else Undefined
  }

  /** `autoRelockMap[deviceSettings.autoRelockTime]` in `copyDeviceSettings`. */
  function AutoRelockFromDevice(v: JsValue): JsValue {
    ValueOrUndefined(Lookup(AutoRelockMap, v))
  }

  /** `soundMap[deviceSettings.soundVolume]` in `copyDeviceSettings`. */
  function SoundVolumeFromDevice(v: JsValue): JsValue {
    ValueOrUndefined(Lookup(SoundMap, v))
  }

  /** The Homey setting value for a reported attribute value. */
  function SettingValue(a: DeviceAttribute, v: JsValue): JsValue {
    match a
    case AutoRelockTime => AutoRelockFromDevice(v)
    case SoundVolume => SoundVolumeFromDevice(v)
  }

  // What each table does, for every input

  /** true (and its default, undefined) enable auto-relock, false disables it, nothing else maps. */
  lemma AutoRelockSettingValues(setting: JsValue)
    ensures MapAutoRelockSetting(setting) ==
      if setting in {Undefined, Bool(true), Str("true"), Str("undefined")} then Num(1)
      else if setting in {Bool(false), Str("false")} then Num(0)
      else Undefined
  {
    if setting.Num? { NumberKeyStartsWithDigit(setting.n); }
  }

  /** off, low and normal give 0, 1 and 2; undefined defaults to normal; nothing else maps. */
  lemma SoundVolumeSettingValues(setting: JsValue)
    ensures MapSoundVolumeSetting(setting) ==
      if setting == Str("off") then Num(0)
      else if setting == Str("low") then Num(1)
      else if setting in {Undefined, Str("normal"), Str("undefined")} then Num(2)
      else Undefined
  {
    if setting.Num? { NumberKeyStartsWithDigit(setting.n); }
  }

  /** A reported 0 disables and 1 enables auto-relock; other numbers give undefined. */
  lemma AutoRelockDeviceValues(v: JsValue)
    ensures v.Num? && v.n >= 0 ==>
              AutoRelockFromDevice(v) == (if v.n == 0 then Bool(false) else if v.n == 1 then Bool(true) else Undefined)
    ensures v.Num? && v.n < 0 ==> AutoRelockFromDevice(v) == Undefined
  {
    if v.Num? {
      NumberKeyStartsWithDigit(v.n);
      if v.n >= 0 {
        NumberIndexesNumberKey(v.n, 0);
        NumberIndexesNumberKey(v.n, 1);
      }
    }
  }

  /** A reported 0, 1 or 2 gives off, low or normal; other numbers give undefined. */
  lemma SoundVolumeDeviceValues(v: JsValue)
    ensures v.Num? && v.n >= 0 ==>
              SoundVolumeFromDevice(v) ==
              (if v.n == 0 then Str("off") else if v.n == 1 then Str("low") else if v.n == 2 then Str("normal") else Undefined)
    ensures v.Num? && v.n < 0 ==> SoundVolumeFromDevice(v) == Undefined
  {
    if v.Num? {
      NumberKeyStartsWithDigit(v.n);
      if v.n >= 0 {
        NumberIndexesNumberKey(v.n, 0);
        NumberIndexesNumberKey(v.n, 1);
        NumberIndexesNumberKey(v.n, 2);
      }
    }
  }

  // Round trips

  /** The volume choices of the `sound_volume` setting. */
  datatype Volume = Off | Low | Normal

  function VolumeName(v: Volume): string {
    match v
    case Off => "off"
    case Low => "low"
    case Normal => "normal"
  }

  /**
   * Setting to device value and back is the identity on the legal settings, device value
   * to setting and back is the identity on the legal device values, and a missing setting
   * stands for the defaults (auto-relock on, volume normal).
   */
  lemma SettingsMapsRoundTrip(b: bool, vol: Volume, n: nat, m: nat)
    ensures AutoRelockFromDevice(MapAutoRelockSetting(Bool(b))) == Bool(b)
    ensures SoundVolumeFromDevice(MapSoundVolumeSetting(Str(VolumeName(vol)))) == Str(VolumeName(vol))
    ensures n <= 1 ==> MapAutoRelockSetting(AutoRelockFromDevice(Num(n))) == Num(n)
    ensures m <= 2 ==> MapSoundVolumeSetting(SoundVolumeFromDevice(Num(m))) == Num(m)
    ensures MapAutoRelockSetting(Undefined) == Num(1) && MapSoundVolumeSetting(Undefined) == Num(2)
  {
    AutoRelockSettingValues(Bool(b));
    AutoRelockDeviceValues(MapAutoRelockSetting(Bool(b)));
    SoundVolumeSettingValues(Str(VolumeName(vol)));
    SoundVolumeDeviceValues(MapSoundVolumeSetting(Str(VolumeName(vol))));
    AutoRelockDeviceValues(Num(n));
    AutoRelockSettingValues(AutoRelockFromDevice(Num(n)));
    SoundVolumeDeviceValues(Num(m));
    SoundVolumeSettingValues(SoundVolumeFromDevice(Num(m)));
    AutoRelockSettingValues(Undefined);
    SoundVolumeSettingValues(Undefined);
  }

  // The change set of saveSettingsToDevice

  /** Adds the device value of attribute `a` when its Homey key was changed. */
  function AddIfChanged(deviceSettings: DeviceSettings, settings: map<string, JsValue>, changedKeys: seq<string>, a: DeviceAttribute): DeviceSettings {
    if HomeyKey(a) in changedKeys then deviceSettings[a := DeviceValue(a, Get(settings, HomeyKey(a)))] else deviceSettings
  }

  /** The device values for the changed keys that name a vendor setting; other keys are ignored. */
  function ChangeSet(settings: map<string, JsValue>, changedKeys: seq<string>): DeviceSettings {
    AddIfChanged(AddIfChanged(map[], settings, changedKeys, AutoRelockTime), settings, changedKeys, SoundVolume)
  }

  /** An attribute is in the change set exactly when its Homey key was changed, with the device value of its new setting. */
  lemma ChangeSetKeys(settings: map<string, JsValue>, changedKeys: seq<string>)
    ensures forall a :: a in ChangeSet(settings, changedKeys) <==> HomeyKey(a) in changedKeys
    ensures forall a :: a in ChangeSet(settings, changedKeys) ==>
      ChangeSet(settings, changedKeys)[a] == DeviceValue(a, Get(settings, HomeyKey(a)))
  {
  }

  /** One more changed key adds its attribute's device value when it names a vendor setting, and nothing otherwise. */
  lemma ChangeSetStep(settings: map<string, JsValue>, changedKeys: seq<string>, changedKey: string)
    ensures ChangeSet(settings, changedKeys + [changedKey]) ==
      if changedKey == "auto_relock_time" then
        ChangeSet(settings, changedKeys)[AutoRelockTime := MapAutoRelockSetting(Get(settings, changedKey))]
      else if changedKey == "sound_volume" then
        ChangeSet(settings, changedKeys)[SoundVolume := MapSoundVolumeSetting(Get(settings, changedKey))]
      else ChangeSet(settings, changedKeys)
  {
    var before, after := ChangeSet(settings, changedKeys), ChangeSet(settings, changedKeys + [changedKey]);
    forall a ensures HomeyKey(a) in changedKeys + [changedKey] <==> HomeyKey(a) in changedKeys || HomeyKey(a) == changedKey {
    }
  }

  /** The loop of `saveSettingsToDevice` that fills `newDeviceSettings`. */
  method CollectDeviceSettings(settings: map<string, JsValue>, changedKeys: seq<string>)
    returns (newDeviceSettings: DeviceSettings)
    ensures newDeviceSettings == ChangeSet(settings, changedKeys)
  {
    newDeviceSettings := map[];
    for i := 0 to |changedKeys|
      invariant newDeviceSettings == ChangeSet(settings, changedKeys[..i])
    {
      var changedKey := changedKeys[i];
      var newSetting := Get(settings, changedKey);
      if changedKey == "auto_relock_time" {
        newDeviceSettings := newDeviceSettings[AutoRelockTime := MapAutoRelockSetting(newSetting)];
      } else if changedKey == "sound_volume" {
        newDeviceSettings := newDeviceSettings[SoundVolume := MapSoundVolumeSetting(newSetting)];
      }
      assert changedKeys[..i + 1] == changedKeys[..i] + [changedKey];
      ChangeSetStep(settings, changedKeys[..i], changedKey);
    }
    assert changedKeys[..|changedKeys|] == changedKeys;
  }

  /** The change set is empty, and nothing is written, exactly when neither vendor key changed. */
  lemma ChangeSetEmpty(settings: map<string, JsValue>, changedKeys: seq<string>)
    ensures |ChangeSet(settings, changedKeys)| == 0 <==>
      "auto_relock_time" !in changedKeys && "sound_volume" !in changedKeys
  {
    var m := ChangeSet(settings, changedKeys);
    if "auto_relock_time" in changedKeys {
      assert AutoRelockTime in m;
    } else if "sound_volume" in changedKeys {
      assert SoundVolume in m;
    } else {
      assert m == map[];
    }
  }

  // copyDeviceSettings

  /** A field of a `{autoRelockTime?, soundVolume?}` object; a missing field reads as undefined. */
  function Field(deviceSettings: DeviceSettings, a: DeviceAttribute): JsValue {
    if a in deviceSettings then deviceSettings[a] else Undefined
  }

  /** One `if` of `copyDeviceSettings`: add the attribute's Homey setting when its field is not null. */
  function CopyField(homeySettings: map<string, JsValue>, deviceSettings: DeviceSettings, a: DeviceAttribute): map<string, JsValue> {
    var v := Field(deviceSettings, a);
    if IsNullish(v) then homeySettings else homeySettings[HomeyKey(a) := SettingValue(a, v)]
  }

  /** The Homey settings `copyDeviceSettings` derives from reported attribute values. */
  function TranslateDeviceSettings(deviceSettings: DeviceSettings): map<string, JsValue> {
    CopyField(CopyField(map[], deviceSettings, AutoRelockTime), deviceSettings, SoundVolume)
  }

  /** Exactly the non-null attributes produce a key, each holding its attribute's translation, and no other key appears. */
  lemma TranslateKeys(deviceSettings: DeviceSettings)
    ensures forall a :: HomeyKey(a) in TranslateDeviceSettings(deviceSettings) <==> !IsNullish(Field(deviceSettings, a))
    ensures forall k :: k in TranslateDeviceSettings(deviceSettings) ==> k == "auto_relock_time" || k == "sound_volume"
    ensures forall a :: !IsNullish(Field(deviceSettings, a)) ==>
      TranslateDeviceSettings(deviceSettings)[HomeyKey(a)] == SettingValue(a, Field(deviceSettings, a))
  {
    assert HomeyKey(AutoRelockTime) != HomeyKey(SoundVolume);
  }

  /** Both settings hold legal values. */
  predicate IsLegalSettings(settings: map<string, JsValue>) {
    Get(settings, "auto_relock_time").Bool? &&
    Get(settings, "sound_volume") in {Str("off"), Str("low"), Str("normal")}
  }

  /** A legal setting survives the trip to its device value and back. */
  lemma AttributeRoundTrip(settings: map<string, JsValue>, a: DeviceAttribute)
    requires IsLegalSettings(settings)
    ensures SettingValue(a, DeviceValue(a, Get(settings, HomeyKey(a)))) == Get(settings, HomeyKey(a))
  {
    var v := Get(settings, HomeyKey(a));
    match a
    case AutoRelockTime =>
      SettingsMapsRoundTrip(v.b, Off, 0, 0);
    case SoundVolume =>
      var vol := if v == Str("off") then Off else if v == Str("low") then Low else Normal;
      SettingsMapsRoundTrip(true, vol, 0, 0);
  }

  /**
   * Pushing legal settings to the device and reading the written values back restores
   * exactly the changed settings.
   */
  lemma SettingsRoundTrip(settings: map<string, JsValue>, changedKeys: seq<string>)
    requires IsLegalSettings(settings)
    ensures TranslateDeviceSettings(ChangeSet(settings, changedKeys)) ==
      map k | k in {"auto_relock_time", "sound_volume"} && k in changedKeys :: Get(settings, k)
  {
    var ds := ChangeSet(settings, changedKeys);
    var lhs := TranslateDeviceSettings(ds);
    var rhs := map k | k in {"auto_relock_time", "sound_volume"} && k in changedKeys :: Get(settings, k);
    TranslateKeys(ds);
    AttributeRoundTrip(settings, AutoRelockTime);
    AttributeRoundTrip(settings, SoundVolume);
    forall k | k in rhs ensures k in lhs && lhs[k] == rhs[k] {
      var a := if k == "auto_relock_time" then AutoRelockTime else SoundVolume;
      assert HomeyKey(a) == k;
    }
    assert lhs.Keys == rhs.Keys;
  }

  /** Both attributes are reported with a legal device value. */
  predicate IsLegalDeviceSettings(deviceSettings: DeviceSettings) {
    deviceSettings.Keys == {AutoRelockTime, SoundVolume} &&
    deviceSettings[AutoRelockTime] in {Num(0), Num(1)} &&
    deviceSettings[SoundVolume] in {Num(0), Num(1), Num(2)}
  }

  /** Reading legal device values into settings and pushing both back writes the same values. */
  lemma DeviceRoundTrip(deviceSettings: DeviceSettings)
    requires IsLegalDeviceSettings(deviceSettings)
    ensures ChangeSet(TranslateDeviceSettings(deviceSettings), ["auto_relock_time", "sound_volume"]) == deviceSettings
  {
    var h := TranslateDeviceSettings(deviceSettings);
    TranslateKeys(deviceSettings);
    var r, v := deviceSettings[AutoRelockTime].n, deviceSettings[SoundVolume].n;
    SettingsMapsRoundTrip(true, Off, r, v);
    assert Get(h, "auto_relock_time") == AutoRelockFromDevice(Num(r)) by { assert HomeyKey(AutoRelockTime) in h; }
    assert Get(h, "sound_volume") == SoundVolumeFromDevice(Num(v)) by { assert HomeyKey(SoundVolume) in h; }
  }
}
