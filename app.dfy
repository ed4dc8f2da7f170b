/**
 * The app's `auto_relock` flow cards. The condition reads the device's
 * `auto_relock_time` setting. The action sets it to the requested value and
 * pushes the matching device value, or does nothing when the setting already
 * holds that value.
 */
module App {
  import opened JsValues
  import opened SettingsMaps
  import opened SettingsRetry
  import opened LockDevice

  /** The condition card: the device's current `auto_relock_time` setting, undefined when unset. */
  function AutoRelockCondition(device: LockDevice): (r: JsValue)
    reads device
    ensures "auto_relock_time" in device.settings ==> r == device.settings["auto_relock_time"]
    ensures "auto_relock_time" !in device.settings ==> r == Undefined
  {
    Get(device.settings, "auto_relock_time")
  }

  /**
   * The action card with argument `enabled`. Afterwards the condition holds `enabled`. When it
   * already did, nothing changes. Otherwise the setting is stored first, with one `setSettings`,
   * then one write carrying only the new auto-relock device value (1 or 0) is started.
   */
  method AutoRelockAction(device: LockDevice, enabled: bool)
    requires device.Valid()
    modifies device, device.writer
    ensures device.Valid()
    ensures AutoRelockCondition(device) == Bool(enabled)
    ensures old(AutoRelockCondition(device)) == Bool(enabled) ==>
      unchanged(device) && unchanged(device.writer)
    ensures device.hasZclNode == old(device.hasZclNode) && device.listening == old(device.listening)
    ensures old(AutoRelockCondition(device)) != Bool(enabled) ==>
      && device.settings == old(device.settings)["auto_relock_time" := Bool(enabled)]
      && device.setSettingsCalls == old(device.setSettingsCalls) + [map["auto_relock_time" := Bool(enabled)]]
      && device.writer.State() ==
         Step(old(device.writer.State()), Write(map[AutoRelockTime := Num(if enabled then 1 else 0)]))
  {
    if Get(device.settings, "auto_relock_time") == Bool(enabled) {
      return;
    }
    device.SetSettings(map["auto_relock_time" := Bool(enabled)]);
    AutoRelockSettingValues(Bool(enabled));
    device.writer.WriteSettings(map[AutoRelockTime := MapAutoRelockSetting(Bool(enabled))]);
  }
}
