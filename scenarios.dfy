/**
  * The documented cases of the security service's test suite, replayed against the class.
  * Each scenario builds a service over a repository in the state the asserted call sees, drives it
  * through the same calls, and promises what the case asserts: the alarm statuses written (the
  * values an argument captor on the repository would see) or the state read back.
  */
module Scenarios {
  import opened Constants
  import opened Sensors
  import opened Service

  const WindowSensor := Sensor("Window sensor", Window, false)
  const DoorSensor := Sensor("Door sensor", Door, false)
  const MotionSensor := Sensor("Motion sensor", Motion, false)

  /** Case 1: armed with no alarm, activating a sensor writes pending alarm, once. */
  method ArmedActivationPends(arming: ArmingStatus) returns (writes: seq<AlarmStatus>)
    requires arming != Disarmed
    ensures writes == [PendingAlarm]
  {
    var service := new SecurityService(NoAlarm, arming, map[]);
    var panel := new SensorPanel(service);
    panel.SetSensorActivity(WindowSensor, true);
    writes := service.alarmLog;
  }

  /** Case 2: armed and pending, activating a sensor writes alarm, once. */
  method ArmedActivationWhilePendingAlarms(arming: ArmingStatus) returns (writes: seq<AlarmStatus>)
    requires arming != Disarmed
    ensures writes == [Alarm]
  {
    var service := new SecurityService(PendingAlarm, arming, map[]);
    var panel := new SensorPanel(service);
    panel.AddSensor(DoorSensor);
    panel.SetSensorActivity(DoorSensor, true);
    writes := service.alarmLog;
  }

  /** Case 3: pending with one active sensor, deactivating it writes no alarm. */
  method LastDeactivationClearsPending(arming: ArmingStatus) returns (writes: seq<AlarmStatus>)
    ensures writes == [NoAlarm]
  {
    var service := new SecurityService(PendingAlarm, arming, map[MotionSensor.Key() := true]);
    service.ChangeSensorActivationStatus(MotionSensor.(active := true), false);
    writes := service.alarmLog;
  }

  /** Case 4: in alarm, activating two sensors and deactivating one leaves the alarm and writes nothing. */
  method SensorChangesDuringAlarm() returns (status: AlarmStatus, writes: seq<AlarmStatus>)
    ensures status == Alarm && writes == []
  {
    var service := new SecurityService(Alarm, ArmedHome, map[]);
    var panel := new SensorPanel(service);
    panel.AddSensor(MotionSensor);
    panel.SetSensorActivity(MotionSensor, true);
    panel.AddSensor(WindowSensor);
    panel.SetSensorActivity(WindowSensor, true);
    service.ChangeSensorActivationStatus(MotionSensor.(active := true), false);
    status, writes := service.alarmStatus, service.alarmLog;
  }

  /** Case 5: pending, with one sensor already active, activating another ends in alarm. */
  method SecondActivationWhilePendingAlarms(arming: ArmingStatus) returns (status: AlarmStatus)
    requires arming != Disarmed
    ensures status == Alarm
  {
    var service := new SecurityService(PendingAlarm, arming, map[MotionSensor.Key() := true]);
    var panel := new SensorPanel(service);
    panel.AddSensor(WindowSensor);
    panel.SetSensorActivity(WindowSensor, true);
    status := service.alarmStatus;
  }

  /** Case 6: deactivating an inactive sensor, twice, writes nothing, whatever the alarm status. */
  method InactiveDeactivationIsNoOp(alarm: AlarmStatus, arming: ArmingStatus)
    returns (status: AlarmStatus, writes: seq<AlarmStatus>)
    ensures status == alarm && writes == []
  {
    var service := new SecurityService(alarm, arming, map[]);
    var panel := new SensorPanel(service);
    panel.AddSensor(MotionSensor);
    panel.SetSensorActivity(MotionSensor, false);
    service.ChangeSensorActivationStatus(MotionSensor, false);
    status, writes := service.alarmStatus, service.alarmLog;
  }

  /** Case 7: a cat in the image while armed-home writes alarm, whatever the alarm status was. */
  method CatWhileArmedHome(alarm: AlarmStatus) returns (writes: seq<AlarmStatus>)
    ensures writes == [Alarm]
  {
    var service := new SecurityService(alarm, ArmedHome, map[]);
    service.ProcessImage(true);
    writes := service.alarmLog;
  }

  /** Case 8: after a cat raised the alarm, an image without a cat leaves it while a sensor is active. */
  method NoCatWithActiveSensor() returns (status: AlarmStatus, writes: seq<AlarmStatus>)
    ensures status == Alarm && writes == [Alarm]
  {
    var service := new SecurityService(NoAlarm, ArmedHome, map[]);
    var panel := new SensorPanel(service);
    service.ProcessImage(true);
    panel.AddSensor(WindowSensor);
    panel.SetSensorActivity(WindowSensor, true);
    service.ProcessImage(false);
    status, writes := service.alarmStatus, service.alarmLog;
  }

  /** Case 9: disarming writes no alarm, from any persisted state. */
  method Disarm(alarm: AlarmStatus, arming: ArmingStatus, stored: SensorTable) returns (writes: seq<AlarmStatus>)
    ensures writes == [NoAlarm]
  {
    var service := new SecurityService(alarm, arming, stored);
    service.SetArmingStatus(Disarmed);
    writes := service.alarmLog;
  }

  /** Case 10: three active sensors, then arming: every managed sensor reads back inactive. */
  method ArmingResetsActiveSensors(arming: ArmingStatus) returns (managed: set<Sensor>)
    requires arming != Disarmed
    ensures forall s :: s in managed ==> !s.active
    ensures WindowSensor in managed && DoorSensor in managed && MotionSensor in managed
  {
    var service := new SecurityService(NoAlarm, Disarmed, map[]);
    var panel := new SensorPanel(service);
    panel.AddSensor(WindowSensor);
    panel.SetSensorActivity(WindowSensor, true);
    panel.AddSensor(DoorSensor);
    panel.SetSensorActivity(DoorSensor, true);
    panel.AddSensor(MotionSensor);
    panel.SetSensorActivity(MotionSensor, true);
    service.SetArmingStatus(arming);
    managed := service.GetSensors();
  }

  /** Case 11: a cat seen while disarmed, then arming home, ends in alarm. */
  method ArmHomeAfterCatWhileDisarmed() returns (status: AlarmStatus, writes: seq<AlarmStatus>)
    ensures status == Alarm && writes == [Alarm]
  {
    var service := new SecurityService(NoAlarm, Disarmed, map[]);
    service.ProcessImage(true);
    service.SetArmingStatus(ArmedHome);
    status, writes := service.alarmStatus, service.alarmLog;
  }
}
