/** The pure part of the broadcast receiver: reading the extras of a battery
    Intent, resolving the level, classifying the trigger, and filling in the
    keys of the status record handed to the listener. */
module StatusRecord {
  import opened Wrappers
  import opened Platform

  /** A battery Intent as the receiver sees it: its action and the four integer
      extras it reads (EXTRA_STATUS, EXTRA_PLUGGED, EXTRA_LEVEL, EXTRA_SCALE),
      each of which may be missing. */
  datatype Intent = Intent(
    action: string,
    status: Option<int>,
    plugged: Option<int>,
    level: Option<int>,
    scale: Option<int>)

  /** `getIntExtra(key, -1)`: the extra's value, or -1 when it is missing. */
  function IntExtra(extra: Option<int>): int {
    extra.GetOr(-1)
  }

  datatype PlugType = Usb | Ac | Unknown {
    /** The string stored under the "plugType" key. */
    function Name(): string {
      match this
      case Usb => "usb"
      case Ac => "ac"
      case Unknown => "unknown"
    }
  }

  /** The JSON object sent to the listener. It starts empty and each key is
      added by one of the `AddField` functions, so every key is optional. */
  datatype Info = Info(
    level: Option<real>,
    isCharging: Option<bool>,
    isPlugged: Option<bool>,
    plugType: Option<PlugType>,
    trigger: Option<string>)

  const Empty: Info := Info(None, None, None, None, None)

  /** The shape of every record the receiver emits: "level" and "trigger" are
      always there, the two plug keys come together, and only alongside
      "isCharging". */
  predicate WellFormed(info: Info) {
    && info.level.Some?
    && info.trigger.Some?
    && (info.isPlugged.Some? <==> info.plugType.Some?)
    && (info.isPlugged.Some? ==> info.isCharging.Some?)
  }

  /** Sets the "level" key and no other. */
  function AddFieldLevel(info: Info, level: real): (r: Info)
    ensures r.level == Some(level) && r.(level := info.level) == info
  {
    info.(level := Some(level))
  }

  /** Sets the "isCharging" key and no other. */
  function AddFieldCharging(info: Info, charging: bool): (r: Info)
    ensures r.isCharging == Some(charging) && r.(isCharging := info.isCharging) == info
  {
    info.(isCharging := Some(charging))
  }

  /** Adds "isPlugged" and "plugType"; `usb` is tested before `powerCord`. */
  function AddFieldPlug(info: Info, details: int, usb: bool, powerCord: bool): (r: Info)
    ensures r.isPlugged == Some(details > 0)
    ensures r.plugType.Some?
    ensures r.plugType.value == Usb <==> usb
    ensures r.plugType.value == Ac <==> !usb && powerCord
    ensures r.plugType.value == Unknown <==> !usb && !powerCord
    ensures r.(isPlugged := info.isPlugged, plugType := info.plugType) == info
  {
    info.(isPlugged := Some(details > 0),
          plugType := Some(if usb then Usb else if powerCord then Ac else Unknown))
  }

  /** Adds "isCharging" when the Intent carries a status, and the plug keys
      when it also carries a plug code. */
  function AddChargingFieldsFrom(c: Constants, info: Info, intent: Intent): (r: Info)
    ensures r.level == info.level && r.trigger == info.trigger
    ensures IntExtra(intent.status) <= -1 ==> r == info
    ensures IntExtra(intent.status) > -1 ==>
      r.isCharging == Some(IntExtra(intent.status) in {c.statusCharging, c.statusFull})
    ensures IntExtra(intent.plugged) <= -1 ==>
      r.isPlugged == info.isPlugged && r.plugType == info.plugType
    ensures IntExtra(intent.status) > -1 && IntExtra(intent.plugged) > -1 ==>
      && r.isPlugged == Some(IntExtra(intent.plugged) > 0)
      && r.plugType.Some?
      && (r.plugType.value == Usb <==> IntExtra(intent.plugged) == c.pluggedUsb)
      && (r.plugType.value == Ac <==>
            IntExtra(intent.plugged) == c.pluggedAc && IntExtra(intent.plugged) != c.pluggedUsb)
  {
    var status := IntExtra(intent.status);
    if status > -1 then
      var isCharging := status == c.statusCharging || status == c.statusFull;
      var withCharging := AddFieldCharging(info, isCharging);
      var chargePlug := IntExtra(intent.plugged);
      if chargePlug > -1 then
        AddFieldPlug(withCharging, chargePlug, chargePlug == c.pluggedUsb, chargePlug == c.pluggedAc)
      else
        withCharging
    else
      info
  }

  /** Starting from the empty object, the charging keys are present exactly
      when the Intent carries the extras they are read from. */
  lemma ChargingFieldsPresence(c: Constants, intent: Intent)
    ensures var r := AddChargingFieldsFrom(c, Empty, intent);
      && (r.isCharging.Some? <==> IntExtra(intent.status) > -1)
      && (r.isPlugged.Some? <==> IntExtra(intent.status) > -1 && IntExtra(intent.plugged) > -1)
      && (r.plugType.Some? <==> r.isPlugged.Some?)
      && r.level.None? && r.trigger.None?
  {
  }

  /** "isCharging" is true exactly for a present CHARGING or FULL status. */
  lemma ChargingIff(c: Constants, intent: Intent)
    ensures var r := AddChargingFieldsFrom(c, Empty, intent);
      && (r.isCharging == Some(true) <==>
            IntExtra(intent.status) > -1
            && (IntExtra(intent.status) == c.statusCharging || IntExtra(intent.status) == c.statusFull))
      && (r.isCharging == Some(false) <==>
            IntExtra(intent.status) > -1
            && IntExtra(intent.status) != c.statusCharging && IntExtra(intent.status) != c.statusFull)
  {
  }

  /** With the SDK's positive plug codes the two plug keys never disagree: a
      "usb" or "ac" plug type is always reported as plugged, and plug code 0
      ("on battery") is reported as unplugged of unknown type. */
  lemma PlugFieldsAgree(c: Constants, intent: Intent)
    requires c.Valid()
    ensures var r := AddChargingFieldsFrom(c, Empty, intent);
      && (r.plugType == Some(Usb) || r.plugType == Some(Ac) ==> r.isPlugged == Some(true))
      && (IntExtra(intent.status) > -1 && IntExtra(intent.plugged) == 0 ==>
            r.isPlugged == Some(false) && r.plugType == Some(Unknown))
      && (r.plugType == Some(Ac) <==>
            IntExtra(intent.status) > -1 && IntExtra(intent.plugged) == c.pluggedAc)
  {
  }

  // ---------------------------------------------------------------------------
  // Level resolution

  /** Level resolution is defined unless the scaled division would divide by a
      zero scale (Java yields Infinity or NaN there). */
  predicate LevelDefined(intent: Intent, scaled: bool) {
    scaled && IntExtra(intent.level) >= 0 && IntExtra(intent.scale) >= 0 ==>
      IntExtra(intent.scale) != 0
  }

  /** `getLevel`: the raw level when unscaled; when scaled, -1 for a missing
      (negative) level or scale, otherwise the fraction level/scale. */
  function GetLevel(intent: Intent, scaled: bool): (lv: real)
    requires LevelDefined(intent, scaled)
    ensures !scaled ==> lv == IntExtra(intent.level) as real
    ensures scaled && (IntExtra(intent.level) < 0 || IntExtra(intent.scale) < 0) ==> lv == -1.0
    ensures scaled && IntExtra(intent.level) >= 0 && IntExtra(intent.scale) >= 0 ==>
      lv >= 0.0 && lv * IntExtra(intent.scale) as real == IntExtra(intent.level) as real
    ensures lv < 0.0 <==> IntExtra(intent.level) < 0 || (scaled && IntExtra(intent.scale) < 0)
  {
    var level := IntExtra(intent.level);
    if !scaled then
      level as real
    else
      var scale := IntExtra(intent.scale);
      if level < 0 || scale < 0 then
        -1.0
      else
        level as real / scale as real
  }

  /** A scaled level never exceeds 1 while the raw level stays within the
      scale, and the scaled and unscaled readings agree on whether the level is
      known once the scale is present. */
  lemma ScaledLevelIsFraction(intent: Intent)
    requires 0 <= IntExtra(intent.level) <= IntExtra(intent.scale)
    requires IntExtra(intent.scale) > 0
    ensures 0.0 <= GetLevel(intent, true) <= 1.0
    ensures GetLevel(intent, true) * IntExtra(intent.scale) as real == GetLevel(intent, false)
  {
  }

  // ---------------------------------------------------------------------------
  // Trigger classification

  /** The canonical label of each recognised action. */
  function TriggerTable(c: Constants): map<string, string> {
    map[c.actionPowerConnected := PluggedIn,
        c.actionPowerDisconnected := Unplugged,
        c.actionBatteryLow := BatteryLowLabel,
        c.actionBatteryOkay := BatteryOkLabel,
        c.actionBatteryChanged := BatteryChangedLabel]
  }

  /** The if-chain of `addFieldTrigger`: exact matches against the five
      actions, anything else passed through unchanged. */
  function TriggerLabel(c: Constants, action: string): (t: string)
    ensures action !in c.Actions() ==> t == action
    ensures action in c.Actions() ==> t in Labels
    ensures c.Valid() ==>
      && (action == c.actionPowerConnected ==> t == PluggedIn)
      && (action == c.actionPowerDisconnected ==> t == Unplugged)
      && (action == c.actionBatteryLow ==> t == BatteryLowLabel)
      && (action == c.actionBatteryOkay ==> t == BatteryOkLabel)
      && (action == c.actionBatteryChanged ==> t == BatteryChangedLabel)
  {
    if action == c.actionPowerConnected then PluggedIn
    else if action == c.actionPowerDisconnected then Unplugged
    else if action == c.actionBatteryLow then BatteryLowLabel
    else if action == c.actionBatteryOkay then BatteryOkLabel
    else if action == c.actionBatteryChanged then BatteryChangedLabel
    else action
  }

  /** Sets the "trigger" key, to the action's label, and no other. */
  function AddFieldTrigger(c: Constants, info: Info, action: string): (r: Info)
    ensures r.trigger == Some(TriggerLabel(c, action)) && r.(trigger := info.trigger) == info
  {
    info.(trigger := Some(TriggerLabel(c, action)))
  }

  /** The if-chain agrees with the lookup table: the order of the tests does
      not matter once the actions are distinct. */
  lemma TriggerMatchesTable(c: Constants, action: string)
    requires c.Valid()
    ensures TriggerLabel(c, action) ==
      if action in TriggerTable(c) then TriggerTable(c)[action] else action
  {
  }

  /** Classifying a label again leaves it alone. */
  lemma TriggerIdempotent(c: Constants, action: string)
    requires c.Valid()
    ensures TriggerLabel(c, TriggerLabel(c, action)) == TriggerLabel(c, action)
  {
  }

  /** Two different inputs that are not themselves labels never share a
      trigger: the table loses no information about the action. */
  lemma TriggerInjective(c: Constants, a: string, b: string)
    requires c.Valid()
    requires a !in Labels && b !in Labels
    requires TriggerLabel(c, a) == TriggerLabel(c, b)
    ensures a == b
  {
  }
}
