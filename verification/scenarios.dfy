/** Worked examples of the receiver with the Android SDK's constants. */
module Scenarios {
  import opened Wrappers
  import opened Platform
  import opened StatusRecord
  import opened Receiver

  /** A phone plugged into USB while charging at half capacity, scaled mode. */
  lemma PluggedInUsbScaled()
    ensures
      var intent := Intent(Sdk.actionPowerConnected, Some(2), Some(2), Some(50), Some(100));
      var r := OnReceive(Sdk, State(false, true, []), intent, intent);
      && r.isRegistered
      && r.sent == [Info(Some(0.5), Some(true), Some(true), Some(Usb), Some(PluggedIn))]
  {
  }

  /** A low-battery broadcast with no status and no level: the level comes
      from the battery query and the charging keys are left out. */
  lemma BatteryLowFallsBack()
    ensures
      var intent := Intent(Sdk.actionBatteryLow, None, None, None, None);
      var query := Intent(Sdk.actionBatteryChanged, None, None, Some(20), None);
      var r := OnReceive(Sdk, Fresh, intent, query);
      r.sent == [Info(Some(20.0), None, None, None, Some(BatteryLowLabel))]
  {
  }

  /** The initial status query in scaled mode. */
  lemma InitialQueryScaled()
    ensures
      var query := Intent(Sdk.actionBatteryChanged, None, None, Some(80), Some(100));
      GetBatteryStatus(Sdk, State(false, true, []), query, true)
        == Info(Some(0.8), None, None, None, Some(Initial))
  {
    SdkValid();
  }

  /** An action outside the table is reported as it is. */
  lemma UnknownActionPassesThrough()
    ensures
      var intent := Intent("com.example.CUSTOM", Some(3), Some(0), Some(7), None);
      OnReceive(Sdk, Fresh, intent, intent).sent
        == [Info(Some(7.0), Some(false), Some(false), Some(Unknown), Some("com.example.CUSTOM"))]
  {
  }
}
