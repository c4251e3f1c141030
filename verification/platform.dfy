/** The Android constants the receiver compares against: the battery status
    and plug codes of `BatteryManager` and the broadcast action identifiers of
    `Intent`. The receiver only ever tests them for equality, so they are kept
    abstract; `Valid` states the facts about them the receiver and the lemmas
    rely on (only `PlugFieldsAgree` uses the positivity of the plug codes),
    and `Sdk` holds the values the Android SDK actually uses. */
module Platform {

  /** The canonical trigger labels the receiver emits. */
  const PluggedIn: string := "pluggedin"
  const Unplugged: string := "unplugged"
  const BatteryLowLabel: string := "battery_low"
  const BatteryOkLabel: string := "battery_ok"
  const BatteryChangedLabel: string := "battery_changed"
  const Initial: string := "initial"
  const Request: string := "request"

  const Labels: set<string> :=
    {PluggedIn, Unplugged, BatteryLowLabel, BatteryOkLabel, BatteryChangedLabel, Initial, Request}

  datatype Constants = Constants(
    statusCharging: int,           // BatteryManager.BATTERY_STATUS_CHARGING
    statusFull: int,               // BatteryManager.BATTERY_STATUS_FULL
    pluggedAc: int,                // BatteryManager.BATTERY_PLUGGED_AC
    pluggedUsb: int,               // BatteryManager.BATTERY_PLUGGED_USB
    actionPowerConnected: string,  // Intent.ACTION_POWER_CONNECTED
    actionPowerDisconnected: string,
    actionBatteryLow: string,
    actionBatteryOkay: string,
    actionBatteryChanged: string)
  {
    /** The five action identifiers the trigger table recognises. */
    function Actions(): set<string> {
      {actionPowerConnected, actionPowerDisconnected, actionBatteryLow,
       actionBatteryOkay, actionBatteryChanged}
    }

    /** Plug codes are distinct positive numbers, the five actions are pairwise
        distinct, and no action identifier is spelled like a canonical label. */
    predicate Valid() {
      && pluggedUsb != pluggedAc
      && pluggedUsb > 0 && pluggedAc > 0
      && actionPowerConnected != actionPowerDisconnected
      && actionPowerConnected != actionBatteryLow
      && actionPowerConnected != actionBatteryOkay
      && actionPowerConnected != actionBatteryChanged
      && actionPowerDisconnected != actionBatteryLow
      && actionPowerDisconnected != actionBatteryOkay
      && actionPowerDisconnected != actionBatteryChanged
      && actionBatteryLow != actionBatteryOkay
      && actionBatteryLow != actionBatteryChanged
      && actionBatteryOkay != actionBatteryChanged
      && Actions() !! Labels
    }
  }

  /** The values of the Android SDK. */
  const Sdk: Constants := Constants(
    2, 5, 1, 2,
    "android.intent.action.ACTION_POWER_CONNECTED",
    "android.intent.action.ACTION_POWER_DISCONNECTED",
    "android.intent.action.BATTERY_LOW",
    "android.intent.action.BATTERY_OKAY",
    "android.intent.action.BATTERY_CHANGED")

  lemma SdkValid()
    ensures Sdk.Valid()
  {
  }
}
