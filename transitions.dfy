/**
  * The alarm state machine of the security service as pure functions over its whole state,
  * and the properties its rules promise, for one event and for any sequence of events.
  */
module Transitions {
  import opened Constants
  import opened Sensors

  /**
    * Everything the service keeps: the persisted alarm and arming status, the remembered result
    * of the last image, the managed sensors, and every alarm status written (and announced) so far.
    */
  datatype State = State(
    alarm: AlarmStatus,
    arming: ArmingStatus,
    catDetected: bool,
    sensors: SensorTable,
    log: seq<AlarmStatus>)

  /**
    * The alarm status changed only through the write path: either nothing was written and the
    * status is as it was, or exactly one status was written and it is the new status.
    */
  predicate ChangedThroughWrite(before: State, after: State)
  {
    (after.log == before.log && after.alarm == before.alarm) || after.log == before.log + [after.alarm]
  }

  /** The single "set and notify" path: persist the alarm status and record the write. */
  function SetAlarm(st: State, a: AlarmStatus): (r: State)
    ensures r.alarm == a
    ensures |r.log| == |st.log| + 1 && r.log[..|st.log|] == st.log && r.log[|st.log|] == a
    ensures r.arming == st.arming && r.catDetected == st.catDetected && r.sensors == st.sensors
  {
    st.(alarm := a, log := st.log + [a])
  }

  /** A sensor event: `s` becomes active or inactive. */
  function ChangeSensor(st: State, s: Sensor, active: bool): (r: State)
    ensures CurrentActive(r.sensors, s) == active
    ensures st.sensors.Keys <= r.sensors.Keys <= st.sensors.Keys + {s.Key()}
    ensures forall k :: k in st.sensors && k != s.Key() ==> r.sensors[k] == st.sensors[k]
    ensures r.arming == st.arming && r.catDetected == st.catDetected
    ensures ChangedThroughWrite(st, r)
  {
    if CurrentActive(st.sensors, s) == active then st
    else
      var updated := st.(sensors := st.sensors[s.Key() := active]);
      if st.alarm == Alarm then updated
      else if active then
        if st.arming == Disarmed then updated
        else if st.alarm == NoAlarm then SetAlarm(updated, PendingAlarm)
        else SetAlarm(updated, Alarm)
      else if st.alarm == PendingAlarm && !AnyActive(updated.sensors) then SetAlarm(updated, NoAlarm)
      else updated
  }

  /** An arming change. */
  function SetArming(st: State, a: ArmingStatus): (r: State)
    ensures r.arming == a && r.catDetected == st.catDetected
    ensures r.sensors.Keys == st.sensors.Keys
    ensures a == Disarmed ==> r.sensors == st.sensors
    ensures r.alarm == st.alarm || r.alarm == (if a == Disarmed then NoAlarm else Alarm)
    ensures ChangedThroughWrite(st, r)
  {
    if a == Disarmed then SetAlarm(st, NoAlarm).(arming := a)
    else
      var reset := st.(sensors := ResetAll(st.sensors), arming := a);
      if st.catDetected && a == ArmedHome then SetAlarm(reset, Alarm) else reset
  }

  /** The outcome of analysing one camera image, `cat` being whether it shows a cat. */
  function ProcessImage(st: State, cat: bool): (r: State)
    ensures r.catDetected == cat
    ensures r.arming == st.arming && r.sensors == st.sensors
    ensures r.alarm == st.alarm || r.alarm == (if cat then Alarm else NoAlarm)
    ensures ChangedThroughWrite(st, r)
  {
    var remembered := st.(catDetected := cat);
    if cat && st.arming == ArmedHome then SetAlarm(remembered, Alarm)
    else if !cat && !AnyActive(st.sensors) then SetAlarm(remembered, NoAlarm)
    else remembered
  }

  /** Adding a sensor to the managed set; a sensor already there is kept as it is. */
  function AddSensor(st: State, s: Sensor): (r: State)
    ensures r.sensors.Keys == st.sensors.Keys + {s.Key()}
    ensures forall k :: k in st.sensors ==> r.sensors[k] == st.sensors[k]
    ensures s.Key() !in st.sensors ==> r.sensors[s.Key()] == s.active
    ensures r.alarm == st.alarm && r.log == st.log
    ensures r.arming == st.arming && r.catDetected == st.catDetected
  {
    if s.Key() in st.sensors then st
    else st.(sensors := st.sensors[s.Key() := s.active])
  }

  /** The inputs the service reacts to. */
  datatype Event =
    | SensorChanged(sensor: Sensor, active: bool)
    | ArmingChanged(status: ArmingStatus)
    | ImageProcessed(cat: bool)
    | SensorAdded(added: Sensor)

  function Step(st: State, e: Event): State
  {
    match e
    case SensorChanged(s, active) => ChangeSensor(st, s, active)
    case ArmingChanged(a) => SetArming(st, a)
    case ImageProcessed(cat) => ProcessImage(st, cat)
    case SensorAdded(s) => AddSensor(st, s)
  }

  /** The state after the events `es`, applied in order. */
  function Run(st: State, es: seq<Event>): State
    decreases |es|
  {
    if es == [] then st else Step(Run(st, es[..|es| - 1]), es[|es| - 1])
  }

  predicate IsSensorEvent(e: Event)
  {
    e.SensorChanged? || e.SensorAdded?
  }

  /** A disarmed system never stands in pending alarm or alarm. */
  predicate Consistent(st: State)
  {
    st.arming == Disarmed ==> st.alarm == NoAlarm
  }

  lemma RunAppend(st: State, es: seq<Event>, e: Event)
    ensures Run(st, es + [e]) == Step(Run(st, es), e)
  {
    assert (es + [e])[..|es|] == es;
  }

  // ---------------------------------------------------------------------------------------------
  // Sensor events

  /** Armed with no alarm, a sensor becoming active raises a pending alarm, written once. */
  lemma ArmedActivationPends(st: State, s: Sensor)
    requires st.arming != Disarmed && st.alarm == NoAlarm
    requires !CurrentActive(st.sensors, s)
    ensures ChangeSensor(st, s, true).alarm == PendingAlarm
    ensures ChangeSensor(st, s, true).log == st.log + [PendingAlarm]
    ensures ChangeSensor(st, s, true).sensors == st.sensors[s.Key() := true]
  {
  }

  /** Armed and pending, a sensor becoming active raises the alarm, whatever other sensors are active. */
  lemma ArmedActivationWhilePendingAlarms(st: State, s: Sensor)
    requires st.arming != Disarmed && st.alarm == PendingAlarm
    requires !CurrentActive(st.sensors, s)
    ensures ChangeSensor(st, s, true).alarm == Alarm
    ensures ChangeSensor(st, s, true).log == st.log + [Alarm]
  {
  }

  /** Disarmed, a sensor becoming active changes nothing but that sensor's flag. */
  lemma DisarmedActivationIgnored(st: State, s: Sensor)
    requires st.arming == Disarmed
    ensures ChangeSensor(st, s, true).alarm == st.alarm
    ensures ChangeSensor(st, s, true).log == st.log
  {
  }

  /**
    * Pending, a sensor becoming inactive returns the system to no alarm exactly when no sensor
    * remains active once its own flag is cleared; otherwise the pending alarm stays.
    */
  lemma DeactivationClearsPending(st: State, s: Sensor)
    requires st.alarm == PendingAlarm
    requires CurrentActive(st.sensors, s)
    ensures ChangeSensor(st, s, false).alarm == NoAlarm <==> !AnyActive(st.sensors[s.Key() := false])
    ensures ChangeSensor(st, s, false).alarm == PendingAlarm <==> AnyActive(st.sensors[s.Key() := false])
  {
  }

  /** While the alarm sounds, no sensor event changes it or writes an alarm status. */
  lemma AlarmIsSticky(st: State, s: Sensor, active: bool)
    requires st.alarm == Alarm
    ensures ChangeSensor(st, s, active).alarm == Alarm
    ensures ChangeSensor(st, s, active).log == st.log
  {
  }

  /** Setting a sensor to the flag it already has is a no-op, whatever the alarm status. */
  lemma RedundantChangeIsNoOp(st: State, s: Sensor, active: bool)
    requires CurrentActive(st.sensors, s) == active
    ensures ChangeSensor(st, s, active) == st
  {
  }

  /** Activation never lowers the severity of the alarm, and deactivation never raises it. */
  lemma SensorEventsRespectSeverity(st: State, s: Sensor)
    ensures Severity(ChangeSensor(st, s, true).alarm) >= Severity(st.alarm)
    ensures Severity(ChangeSensor(st, s, false).alarm) <= Severity(st.alarm)
  {
  }

  /** Once in alarm, any sequence of sensor events leaves the alarm in place and writes nothing. */
  lemma {:induction false} AlarmStickyUnderSensorEvents(st: State, es: seq<Event>)
    requires st.alarm == Alarm
    requires forall i :: 0 <= i < |es| ==> IsSensorEvent(es[i])
    ensures Run(st, es).alarm == Alarm
    ensures Run(st, es).log == st.log
  {
    if es != [] {
      AlarmStickyUnderSensorEvents(st, es[..|es| - 1]);
      var last := es[|es| - 1];
      assert IsSensorEvent(last);
      if last.SensorChanged? {
        AlarmIsSticky(Run(st, es[..|es| - 1]), last.sensor, last.active);
      }
    }
  }

  // ---------------------------------------------------------------------------------------------
  // Images

  /** A cat seen while armed-home raises the alarm, whatever the alarm status was. */
  lemma CatWhileArmedHomeAlarms(st: State)
    requires st.arming == ArmedHome
    ensures ProcessImage(st, true).alarm == Alarm
    ensures ProcessImage(st, true).log == st.log + [Alarm]
    ensures ProcessImage(st, true).catDetected
  {
  }

  /** An image without a cat clears the alarm exactly when no sensor is active; otherwise it leaves it. */
  lemma NoCatClearsOnlyWhenSensorsInactive(st: State)
    ensures !AnyActive(st.sensors) ==> ProcessImage(st, false).alarm == NoAlarm
    ensures !AnyActive(st.sensors) ==> ProcessImage(st, false).log == st.log + [NoAlarm]
    ensures AnyActive(st.sensors) ==> ProcessImage(st, false).alarm == st.alarm
    ensures AnyActive(st.sensors) ==> ProcessImage(st, false).log == st.log
    ensures !ProcessImage(st, false).catDetected
  {
  }

  /** A cat seen while disarmed or armed-away is only remembered: no alarm change, nothing written. */
  lemma CatWhenNotArmedHomeIgnored(st: State)
    requires st.arming != ArmedHome
    ensures ProcessImage(st, true).alarm == st.alarm
    ensures ProcessImage(st, true).log == st.log
    ensures ProcessImage(st, true).catDetected
  {
  }

  // ---------------------------------------------------------------------------------------------
  // Arming

  /** Disarming always writes no alarm, from any state. */
  lemma DisarmClearsAlarm(st: State)
    ensures SetArming(st, Disarmed).alarm == NoAlarm
    ensures SetArming(st, Disarmed).log == st.log + [NoAlarm]
    ensures SetArming(st, Disarmed).arming == Disarmed
    ensures SetArming(st, Disarmed).sensors == st.sensors
  {
  }

  /** Arming (home or away) keeps the managed sensors but leaves every one inactive. */
  lemma ArmingResetsSensors(st: State, a: ArmingStatus)
    requires a != Disarmed
    ensures SetArming(st, a).sensors.Keys == st.sensors.Keys
    ensures forall k :: k in SetArming(st, a).sensors ==> !SetArming(st, a).sensors[k]
    ensures SetArming(st, a).arming == a
  {
  }

  /** The bulk reset of arming is not a series of deactivations: it never lowers the alarm. */
  lemma ArmingNeverLowersAlarm(st: State, a: ArmingStatus)
    requires a != Disarmed
    ensures Severity(SetArming(st, a).alarm) >= Severity(st.alarm)
    ensures !st.catDetected || a == ArmedAway ==> SetArming(st, a).alarm == st.alarm
  {
  }

  /** Only images change the remembered cat result. */
  lemma {:induction false} CatFlagSurvives(st: State, es: seq<Event>)
    requires forall i :: 0 <= i < |es| ==> !es[i].ImageProcessed?
    ensures Run(st, es).catDetected == st.catDetected
  {
    if es != [] {
      CatFlagSurvives(st, es[..|es| - 1]);
    }
  }

  /**
    * A cat seen while disarmed is remembered: arming home later, after any events other than
    * further images, raises the alarm.
    */
  lemma CatRememberedAcrossArming(st: State, es: seq<Event>)
    requires forall i :: 0 <= i < |es| ==> !es[i].ImageProcessed?
    ensures Run(ProcessImage(st, true), es + [ArmingChanged(ArmedHome)]).alarm == Alarm
  {
    RunAppend(ProcessImage(st, true), es, ArmingChanged(ArmedHome));
    CatFlagSurvives(ProcessImage(st, true), es);
  }

  // ---------------------------------------------------------------------------------------------
  // The whole machine

  /**
    * Leaving the alarm state happens only by disarming or by an image without a cat while no
    * sensor is active, and each of those does leave it.
    */
  lemma AlarmLeftOnlyByDisarmOrClearImage(st: State, e: Event)
    requires st.alarm == Alarm
    ensures Step(st, e).alarm != Alarm <==>
      e == ArmingChanged(Disarmed) || (e == ImageProcessed(false) && !AnyActive(st.sensors))
  {
  }

  /** Every event keeps a disarmed system out of pending alarm and alarm. */
  lemma StepKeepsConsistent(st: State, e: Event)
    requires Consistent(st)
    ensures Consistent(Step(st, e))
  {
  }

  /** Any sequence of events keeps a disarmed system out of pending alarm and alarm. */
  lemma {:induction false} RunKeepsConsistent(st: State, es: seq<Event>)
    requires Consistent(st)
    ensures Consistent(Run(st, es))
  {
    if es != [] {
      RunKeepsConsistent(st, es[..|es| - 1]);
      StepKeepsConsistent(Run(st, es[..|es| - 1]), es[|es| - 1]);
    }
  }

  /** One event extends the write log by at most one entry, and any entry is the new alarm status. */
  lemma StepPersistsAlarm(st: State, e: Event)
    ensures Step(st, e).log == st.log || Step(st, e).log == st.log + [Step(st, e).alarm]
    ensures Step(st, e).log == st.log ==> Step(st, e).alarm == st.alarm
  {
  }

  /**
    * Every alarm change goes through the write path: after any events, the log only grew, and
    * either nothing was written and the alarm is as it was, or the last write is the alarm status.
    */
  lemma {:induction false} RunPersistsAlarm(st: State, es: seq<Event>)
    ensures |Run(st, es).log| >= |st.log| && Run(st, es).log[..|st.log|] == st.log
    ensures |Run(st, es).log| == |st.log| ==> Run(st, es).alarm == st.alarm
    ensures |Run(st, es).log| > |st.log| ==> Run(st, es).log[|Run(st, es).log| - 1] == Run(st, es).alarm
  {
    if es != [] {
      var before := Run(st, es[..|es| - 1]);
      RunPersistsAlarm(st, es[..|es| - 1]);
      StepPersistsAlarm(before, es[|es| - 1]);
      var after := Step(before, es[|es| - 1]);
      if after.log != before.log {
        assert after.log[..|st.log|] == before.log[..|st.log|];
      }
    }
  }
}
