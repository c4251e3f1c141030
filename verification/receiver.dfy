/** The receiver's state machine: the registration flag, the scaled-level
    configuration, and the sequence of records sent to its single listener
    (`owner.sendMessage` appends to `sent`). The platform query for the
    current battery state is passed in as the sticky Intent it would return. */
module Receiver {
  import opened Wrappers
  import opened Platform
  import opened StatusRecord

  datatype State = State(isRegistered: bool, isScaledLevel: bool, sent: seq<Info>)

  /** A freshly constructed receiver: not registered, unscaled, nothing sent. */
  const Fresh: State := State(false, false, [])

  /** Every record the receiver has sent is well formed. */
  predicate Invariant(r: State) {
    forall k :: 0 <= k < |r.sent| ==> WellFormed(r.sent[k])
  }

  /** The fallback query is needed only when the event's own level is
      negative, so its scale matters only then. */
  predicate CanReceive(intent: Intent, query: Intent, scaled: bool) {
    && LevelDefined(intent, scaled)
    && (GetLevel(intent, scaled) < 0.0 ==> LevelDefined(query, scaled))
  }

  /** The record `onReceive` builds: charging keys and trigger from the event,
      the level from the event unless it is negative, in which case the level
      of a fresh battery query is used, whatever its sign. */
  function ReceivedInfo(c: Constants, intent: Intent, query: Intent, scaled: bool): (info: Info)
    requires CanReceive(intent, query, scaled)
    ensures WellFormed(info)
    ensures info.(level := None, trigger := None) == AddChargingFieldsFrom(c, Empty, intent)
    ensures info.trigger == Some(TriggerLabel(c, intent.action))
    ensures GetLevel(intent, scaled) >= 0.0 ==> info.level == Some(GetLevel(intent, scaled))
    ensures GetLevel(intent, scaled) < 0.0 ==> info.level == Some(GetLevel(query, scaled))
  {
    var info := AddChargingFieldsFrom(c, Empty, intent);
    var level := GetLevel(intent, scaled);
    var resolved := if level < 0.0 then GetLevel(query, scaled) else level;  // retrieveBatteryLevel
    AddFieldTrigger(c, AddFieldLevel(info, resolved), intent.action)
  }

  /** `onReceive`: marks the receiver registered and sends exactly one record. */
  function OnReceive(c: Constants, r: State, intent: Intent, query: Intent): (r': State)
    requires CanReceive(intent, query, r.isScaledLevel)
    ensures r'.isRegistered
    ensures r'.isScaledLevel == r.isScaledLevel
    ensures |r'.sent| == |r.sent| + 1 && r'.sent[..|r.sent|] == r.sent
    ensures r'.sent[|r.sent|] == ReceivedInfo(c, intent, query, r.isScaledLevel)
  {
    State(true, r.isScaledLevel, r.sent + [ReceivedInfo(c, intent, query, r.isScaledLevel)])
  }

  /** `register`: a no-op when registered, otherwise it only sets the flag. */
  function Register(r: State): (r': State)
    ensures r'.isRegistered
    ensures r.isRegistered ==> r' == r
    ensures r'.(isRegistered := r.isRegistered) == r
  {
    if r.isRegistered then r else r.(isRegistered := true)
  }

  /** `unregister`: a no-op when unregistered, otherwise it only clears the flag. */
  function Unregister(r: State): (r': State)
    ensures !r'.isRegistered
    ensures !r.isRegistered ==> r' == r
    ensures r'.(isRegistered := r.isRegistered) == r
  {
    if r.isRegistered then r.(isRegistered := false) else r
  }

  lemma RegisterIdempotent(r: State)
    ensures Register(Register(r)) == Register(r)
    ensures Unregister(Unregister(r)) == Unregister(r)
    ensures Unregister(Register(r)) == Unregister(r)
    ensures Register(Unregister(r)) == Register(r)
  {
  }

  /** `getBatteryStatus`: built from the queried Intent alone, with no level
      fallback, and with trigger "initial" or "request". The label is still
      passed through the trigger table, which leaves it alone because no
      action identifier is spelled like a label. */
  function GetBatteryStatus(c: Constants, r: State, query: Intent, isInitial: bool): (info: Info)
    requires LevelDefined(query, r.isScaledLevel)
    ensures WellFormed(info)
    ensures info.(level := None, trigger := None) == AddChargingFieldsFrom(c, Empty, query)
    ensures info.level == Some(GetLevel(query, r.isScaledLevel))
    ensures c.Valid() ==> info.trigger == Some(if isInitial then Initial else Request)
  {
    var info := AddChargingFieldsFrom(c, Empty, query);
    var withLevel := AddFieldLevel(info, GetLevel(query, r.isScaledLevel));
    AddFieldTrigger(c, withLevel, if isInitial then Initial else Request)
  }

  /** `sendBatteryStatus`: sends the queried status without touching the flag. */
  function SendBatteryStatus(c: Constants, r: State, query: Intent, isInitial: bool): (r': State)
    requires LevelDefined(query, r.isScaledLevel)
    ensures r'.isRegistered == r.isRegistered && r'.isScaledLevel == r.isScaledLevel
    ensures r'.sent == r.sent + [GetBatteryStatus(c, r, query, isInitial)]
  {
    r.(sent := r.sent + [GetBatteryStatus(c, r, query, isInitial)])
  }

  /** The queried status is what `onReceive` would send for the queried Intent
      if its fallback query returned the same Intent, apart from the trigger. */
  lemma StatusMatchesReceivedSnapshot(c: Constants, r: State, query: Intent, isInitial: bool)
    requires LevelDefined(query, r.isScaledLevel)
    ensures GetBatteryStatus(c, r, query, isInitial).(trigger := None)
         == ReceivedInfo(c, query, query, r.isScaledLevel).(trigger := None)
  {
  }

  /** The fallback query matters only when the event's own level is negative. */
  lemma FallbackOnlyWhenNegative(c: Constants, intent: Intent, q1: Intent, q2: Intent, scaled: bool)
    requires CanReceive(intent, q1, scaled) && CanReceive(intent, q2, scaled)
    ensures GetLevel(intent, scaled) >= 0.0 ==>
      ReceivedInfo(c, intent, q1, scaled) == ReceivedInfo(c, intent, q2, scaled)
    ensures GetLevel(intent, scaled) < 0.0 ==>
      (ReceivedInfo(c, intent, q1, scaled) == ReceivedInfo(c, intent, q2, scaled)
       <==> GetLevel(q1, scaled) == GetLevel(q2, scaled))
  {
  }

  /** Every operation keeps every sent record well formed. */
  lemma InvariantPreserved(c: Constants, r: State, intent: Intent, query: Intent, isInitial: bool)
    requires Invariant(r)
    ensures Invariant(Register(r)) && Invariant(Unregister(r))
    ensures CanReceive(intent, query, r.isScaledLevel) ==> Invariant(OnReceive(c, r, intent, query))
    ensures LevelDefined(query, r.isScaledLevel) ==>
      Invariant(SendBatteryStatus(c, r, query, isInitial))
  {
  }

  // ---------------------------------------------------------------------------
  // A run of broadcasts delivered one after another

  /** One delivered broadcast together with what a battery query would return
      while it is being handled. */
  datatype Broadcast = Broadcast(intent: Intent, query: Intent)

  predicate AllReceivable(bs: seq<Broadcast>, scaled: bool) {
    forall k :: 0 <= k < |bs| ==> CanReceive(bs[k].intent, bs[k].query, scaled)
  }

  /** The platform calls `onReceive` once per broadcast, in order. */
  function Deliver(c: Constants, r: State, bs: seq<Broadcast>): (r': State)
    requires AllReceivable(bs, r.isScaledLevel)
    ensures r'.isScaledLevel == r.isScaledLevel
    ensures r'.isRegistered == (r.isRegistered || |bs| > 0)
    ensures |r'.sent| == |r.sent| + |bs|
    ensures r'.sent[..|r.sent|] == r.sent
    decreases |bs|
  {
    if |bs| == 0 then r
    else Deliver(c, OnReceive(c, r, bs[0].intent, bs[0].query), bs[1..])
  }

  /** Output order is input order: the k-th record sent during a run is the
      one built from the k-th broadcast, and nothing else is sent. */
  lemma {:induction false} DeliverLog(c: Constants, r: State, bs: seq<Broadcast>, k: nat)
    requires AllReceivable(bs, r.isScaledLevel)
    requires k < |bs|
    ensures Deliver(c, r, bs).sent[|r.sent| + k]
         == ReceivedInfo(c, bs[k].intent, bs[k].query, r.isScaledLevel)
    decreases |bs|
  {
    var r1 := OnReceive(c, r, bs[0].intent, bs[0].query);
    assert AllReceivable(bs[1..], r1.isScaledLevel) by {
      forall j | 0 <= j < |bs[1..]|
        ensures CanReceive(bs[1..][j].intent, bs[1..][j].query, r1.isScaledLevel)
      {
        assert bs[1..][j] == bs[j + 1];
      }
    }
    if k == 0 {
      var rn := Deliver(c, r1, bs[1..]);
      assert rn.sent[..|r1.sent|] == r1.sent;
      assert rn.sent[|r.sent|] == rn.sent[..|r1.sent|][|r.sent|];
    } else {
      DeliverLog(c, r1, bs[1..], k - 1);
      assert bs[1..][k - 1] == bs[k];
    }
  }

  /** A run keeps every sent record well formed. */
  lemma {:induction false} DeliverInvariant(c: Constants, r: State, bs: seq<Broadcast>)
    requires AllReceivable(bs, r.isScaledLevel)
    requires Invariant(r)
    ensures Invariant(Deliver(c, r, bs))
  {
    var r' := Deliver(c, r, bs);
    forall j | 0 <= j < |r'.sent|
      ensures WellFormed(r'.sent[j])
    {
      if j < |r.sent| {
        assert r'.sent[j] == r'.sent[..|r.sent|][j];
      } else {
        DeliverLog(c, r, bs, j - |r.sent|);
      }
    }
  }
}
