/**
 * The lock device object: the Homey settings it mirrors, whether it has a
 * Zigbee node, and the retry writer behind `writeSettings`. The two device
 * classes (the driver's and the library's) carry the same settings logic,
 * which is modelled once here.
 *
 * `setSettings` is Homey's: it merges the given keys into the stored settings
 * and does not call `onSettings`. Every call is recorded in `setSettingsCalls`.
 */
module LockDevice {
  import opened Results
  import opened JsValues
  import opened SettingsMaps
  import opened SettingsRetry

  /** The writer state after `saveSettingsToDevice(settings, changedKeys)`: one write of the change set, or none when it is empty. */
  function SaveEffect(s: WriterState, settings: map<string, JsValue>, changedKeys: seq<string>): WriterState {
    var newDeviceSettings := ChangeSet(settings, changedKeys);
    if |newDeviceSettings| > 0 then Step(s, Write(newDeviceSettings)) else s
  }

  /**
   * Saving writes exactly when a vendor key changed, and then issues one attempt carrying the
   * device values of the changed vendor settings and nothing else.
   */
  lemma SaveWritesChangedVendorKeys(s: WriterState, settings: map<string, JsValue>, changedKeys: seq<string>)
    requires WellFormed(s)
    ensures var t := SaveEffect(s, settings, changedKeys);
      && (t == s <==> "auto_relock_time" !in changedKeys && "sound_volume" !in changedKeys)
      && (t != s ==> t.attempts == s.attempts + [ChangeSet(settings, changedKeys)])
      && (t != s ==> forall a :: a in t.attempts[|s.attempts|] <==> HomeyKey(a) in changedKeys)
  {
    var m := ChangeSet(settings, changedKeys);
    ChangeSetEmpty(settings, changedKeys);
    ChangeSetKeys(settings, changedKeys);
    var t := SaveEffect(s, settings, changedKeys);
    if |m| > 0 {
      assert t.attempts == s.attempts + [m];
      assert t.attempts[|s.attempts|] == m;
      assert t != s by { assert |t.attempts| != |s.attempts|; }
    } else {
      assert t == s;
    }
  }

  /** A single reported attribute translates to its one setting, or to nothing when it is null. */
  lemma TranslateSingle(a: DeviceAttribute, v: JsValue)
    ensures TranslateDeviceSettings(map[a := v]) ==
      if IsNullish(v) then map[] else map[HomeyKey(a) := SettingValue(a, v)]
  {
    TranslateKeys(map[a := v]);
  }

  /**
   * A reported legal value is copied into the settings; saving that setting again writes the same
   * value back, so the report-and-echo loop is stable.
   */
  lemma ReportThenSaveEchoes(settings: map<string, JsValue>, a: DeviceAttribute, v: JsValue)
    requires a == AutoRelockTime ==> v in {Num(0), Num(1)}
    requires a == SoundVolume ==> v in {Num(0), Num(1), Num(2)}
    ensures var updated := settings + TranslateDeviceSettings(map[a := v]);
      ChangeSet(updated, [HomeyKey(a)]) == map[a := v]
  {
    var h := TranslateDeviceSettings(map[a := v]);
    TranslateKeys(map[a := v]);
    assert HomeyKey(a) in h;
    SettingsMapsRoundTrip(true, Off, v.n, v.n);
    var other := if a == AutoRelockTime then SoundVolume else AutoRelockTime;
    assert HomeyKey(other) !in [HomeyKey(a)];
  }

  /**
   * Copying attributes leaves the settings as they are exactly when every setting they translate
   * to already holds its translated value; in particular a repeated report changes nothing.
   */
  lemma ReportIdempotent(settings: map<string, JsValue>, deviceSettings: DeviceSettings)
    ensures var h := TranslateDeviceSettings(deviceSettings);
      settings + h == settings <==> forall k :: k in h ==> k in settings && settings[k] == h[k]
  {
    var h := TranslateDeviceSettings(deviceSettings);
    if settings + h == settings {
      forall k | k in h ensures k in settings && settings[k] == h[k] {
        assert (settings + h)[k] == h[k];
      }
    }
  }

  class LockDevice {
    /** `getSettings()`. */
    var settings: map<string, JsValue>
    /** `this.zclNode` is neither undefined nor null. */
    var hasZclNode: bool
    /** The attribute listeners were registered by `onNodeInit`. */
    var listening: bool
    /** Every `setSettings` payload, in call order. */
    var setSettingsCalls: seq<map<string, JsValue>>
    /** The `settingsInterval` field and the writes it drives. */
    const writer: SettingsWriter

    ghost predicate Valid()
      reads this, writer
    {
      writer.Valid()
    }

    constructor (settings: map<string, JsValue>, hasZclNode: bool)
      ensures Valid() && fresh(writer) && writer.State() == Idle
      ensures this.settings == settings && this.hasZclNode == hasZclNode
      ensures !listening && setSettingsCalls == []
    {
      this.settings := settings;
      this.hasZclNode := hasZclNode;
      listening := false;
      setSettingsCalls := [];
      writer := new SettingsWriter();
    }

    /** Homey's `setSettings(patch)`. */
    method SetSettings(patch: map<string, JsValue>)
      modifies this
      ensures settings == old(settings) + patch
      ensures setSettingsCalls == old(setSettingsCalls) + [patch]
      ensures hasZclNode == old(hasZclNode) && listening == old(listening)
    {
      settings := settings + patch;
      setSettingsCalls := setSettingsCalls + [patch];
    }

    /** `saveSettingsToDevice`: write the change set when it is not empty. */
    method SaveSettingsToDevice(newSettings: map<string, JsValue>, changedKeys: seq<string>)
      requires Valid()
      modifies writer
      ensures Valid()
      ensures writer.State() == SaveEffect(old(writer.State()), newSettings, changedKeys)
    {
      var newDeviceSettings := CollectDeviceSettings(newSettings, changedKeys);
      if |newDeviceSettings| > 0 {
        writer.WriteSettings(newDeviceSettings);
      }
    }

    /** `onSettings`: without a Zigbee node nothing is written. */
    method OnSettings(newSettings: map<string, JsValue>, changedKeys: seq<string>)
      requires Valid()
      modifies writer
      ensures Valid()
      ensures !hasZclNode ==> writer.State() == old(writer.State())
      ensures hasZclNode ==> writer.State() == SaveEffect(old(writer.State()), newSettings, changedKeys)
      ensures unchanged(this)
    {
      if !hasZclNode {
        return;
      }
      SaveSettingsToDevice(newSettings, changedKeys);
    }

    /**
     * `copyDeviceSettings`: build the Homey settings for the non-null attributes, store them with
     * one `setSettings` call when there is at least one, and return them.
     */
    method CopyDeviceSettings(deviceSettings: DeviceSettings) returns (homeySettings: map<string, JsValue>)
      modifies this
      ensures homeySettings == TranslateDeviceSettings(deviceSettings)
      ensures settings == old(settings) + homeySettings
      ensures setSettingsCalls == old(setSettingsCalls) + (if |homeySettings| > 0 then [homeySettings] else [])
      ensures hasZclNode == old(hasZclNode) && listening == old(listening)
      ensures unchanged(writer)
    {
      homeySettings := map[];
      var autoRelockTime := Field(deviceSettings, AutoRelockTime);
      if !IsNullish(autoRelockTime) {
        homeySettings := homeySettings["auto_relock_time" := AutoRelockFromDevice(autoRelockTime)];
      }
      var soundVolume := Field(deviceSettings, SoundVolume);
      if !IsNullish(soundVolume) {
        homeySettings := homeySettings["sound_volume" := SoundVolumeFromDevice(soundVolume)];
      }
      if |homeySettings| > 0 {
        SetSettings(homeySettings);
      }
    }

    /** The `attr.autoRelockTime` / `attr.soundVolume` listener: copy the one reported attribute. */
    method OnAttributeReport(a: DeviceAttribute, value: JsValue)
      requires listening
      modifies this
      ensures settings == old(settings) + TranslateDeviceSettings(map[a := value])
      ensures setSettingsCalls == old(setSettingsCalls) +
        (if IsNullish(value) then [] else [TranslateDeviceSettings(map[a := value])])
      ensures IsNullish(value) <==> setSettingsCalls == old(setSettingsCalls)
      ensures hasZclNode == old(hasZclNode) && listening
      ensures unchanged(writer)
    {
      var homeySettings := CopyDeviceSettings(map[a := value]);
      TranslateSingle(a, value);
    }

    /**
     * The settings part of `onNodeInit`: read both attributes, copy them, configure reporting.
     * A failure of the read or of the configuration is rethrown on first init, which ends init
     * before the listeners are registered; otherwise it is logged and init goes on.
     */
    method OnNodeInit(read: Result<DeviceSettings, string>, configureError: Option<string>, firstInit: bool)
      returns (thrown: Option<string>)
      modifies this
      ensures read.Failure? ==> thrown == (if firstInit then Some(read.error) else None)
      ensures read.Success? ==> thrown == (if firstInit then configureError else None)
      ensures read.Success? ==> settings == old(settings) + TranslateDeviceSettings(read.value)
      ensures read.Failure? ==> settings == old(settings)
      ensures read.Success? ==>
        setSettingsCalls == old(setSettingsCalls) + (var h := TranslateDeviceSettings(read.value); if |h| > 0 then [h] else [])
      ensures read.Failure? ==> setSettingsCalls == old(setSettingsCalls)
      ensures unchanged(writer)
      ensures thrown.None? ==> listening
      ensures thrown.Some? ==> listening == old(listening)
      ensures hasZclNode == old(hasZclNode)
    {
      var error: Option<string> := None;
      if read.Failure? {
        error := Some(read.error);
      } else {
        var _ := CopyDeviceSettings(read.value);
        error := configureError;
      }
      if error.Some? {
        if firstInit {
          return error;
        }
        // this.error(e): logged only
      }
      listening := true;
      thrown := None;
    }
  }
}
