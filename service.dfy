/**
  * The security service as an object whose fields the operations update in place, and the sensor
  * panel that forwards the user's sensor actions to it. Every operation is specified by the pure
  * transition function of module Transitions that it implements.
  */
module Service {
  import opened Constants
  import opened Sensors
  import opened Transitions

  class SecurityService {
    // What the repository persists, read back as written.
    var alarmStatus: AlarmStatus
    var armingStatus: ArmingStatus
    var sensors: SensorTable
    // The result of the last image analysed, kept for the next arming change.
    var catDetected: bool
    // Every alarm status written through the set-and-notify path, oldest first.
    var alarmLog: seq<AlarmStatus>

    /** The whole state of the service as a value. */
    function Snapshot(): State
      reads this
    {
      State(alarmStatus, armingStatus, catDetected, sensors, alarmLog)
    }

    /** A service over a repository holding `alarm`, `arming` and `stored`; no cat seen yet. */
    constructor (alarm: AlarmStatus, arming: ArmingStatus, stored: SensorTable)
      ensures Snapshot() == State(alarm, arming, false, stored, [])
    {
      alarmStatus := alarm;
      armingStatus := arming;
      sensors := stored;
      catDetected := false;
      alarmLog := [];
    }

    /** Persists a new alarm status and announces it. */
    method SetAlarmStatus(status: AlarmStatus)
      modifies this
      ensures Snapshot() == SetAlarm(old(Snapshot()), status)
    {
      alarmStatus := status;
      alarmLog := alarmLog + [status];
    }

    /** The managed sensors, each with its current active flag. */
    function GetSensors(): (r: set<Sensor>)
      reads this
      ensures forall s :: s in r <==> s.Key() in sensors && sensors[s.Key()] == s.active
    {
      set k | k in sensors :: Sensor(k.name, k.kind, sensors[k])
    }

    /** Whether some managed sensor is active, found by a scan of the set. */
    method AnySensorActive() returns (any: bool)
      ensures any <==> AnyActive(sensors)
    {
      any := false;
      var pending := sensors.Keys;
      while pending != {} && !any
        invariant pending <= sensors.Keys
        invariant any ==> AnyActive(sensors)
        invariant !any ==> forall k :: k in sensors && k !in pending ==> !sensors[k]
        decreases pending
      {
        var k :| k in pending;
        any := sensors[k];
        pending := pending - {k};
      }
    }

    /** Adds a sensor to the managed set; one already managed is kept as it is. */
    method AddSensor(sensor: Sensor)
      modifies this
      ensures Snapshot() == Transitions.AddSensor(old(Snapshot()), sensor)
    {
      if sensor.Key() !in sensors {
        sensors := sensors[sensor.Key() := sensor.active];
      }
    }

    /** A sensor becomes active or inactive; the alarm status follows the sensor rules. */
    method ChangeSensorActivationStatus(sensor: Sensor, active: bool)
      modifies this
      ensures Snapshot() == ChangeSensor(old(Snapshot()), sensor, active)
    {
      var key := sensor.Key();
      var current := CurrentActive(sensors, sensor);
      if current == active {
        return;
      }
      sensors := sensors[key := active];
      if alarmStatus == Alarm {
        return;
      }
      if active {
        if armingStatus != Disarmed {
          if alarmStatus == NoAlarm {
            SetAlarmStatus(PendingAlarm);
          } else {
            SetAlarmStatus(Alarm);
          }
        }
      } else if alarmStatus == PendingAlarm {
        var any := AnySensorActive();
        if !any {
          SetAlarmStatus(NoAlarm);
        }
      }
    }

    /**
      * Changes the arming status. Disarming clears the alarm; arming resets every sensor to
      * inactive in place, and arming home raises the alarm if the last image showed a cat.
      */
    method SetArmingStatus(status: ArmingStatus)
      modifies this
      ensures Snapshot() == SetArming(old(Snapshot()), status)
    {
      if status == Disarmed {
        SetAlarmStatus(NoAlarm);
      } else {
        var pending := sensors.Keys;
        while pending != {}
          invariant pending <= sensors.Keys
          invariant sensors.Keys == old(sensors).Keys
          invariant forall k :: k in sensors ==> sensors[k] == (k in pending && old(sensors)[k])
          invariant alarmStatus == old(alarmStatus) && alarmLog == old(alarmLog)
          invariant armingStatus == old(armingStatus) && catDetected == old(catDetected)
          decreases pending
        {
          var k :| k in pending;
          sensors := sensors[k := false];
          pending := pending - {k};
        }
        assert sensors == ResetAll(old(sensors));
        if catDetected && status == ArmedHome {
          SetAlarmStatus(Alarm);
        }
      }
      armingStatus := status;
    }

    /** Reacts to the image analyser's verdict on one camera image. */
    method ProcessImage(cat: bool)
      modifies this
      ensures Snapshot() == Transitions.ProcessImage(old(Snapshot()), cat)
    {
      catDetected := cat;
      if cat && armingStatus == ArmedHome {
        SetAlarmStatus(Alarm);
      } else if !cat {
        var any := AnySensorActive();
        if !any {
          SetAlarmStatus(NoAlarm);
        }
      }
    }
  }

  /** The panel of sensor controls: each user action is forwarded to the service. */
  class SensorPanel {
    const service: SecurityService

    constructor (service: SecurityService)
      ensures this.service == service
    {
      this.service := service;
    }

    method AddSensor(sensor: Sensor)
      modifies service
      ensures service.Snapshot() == Transitions.AddSensor(old(service.Snapshot()), sensor)
    {
      service.AddSensor(sensor);
    }

    method SetSensorActivity(sensor: Sensor, active: bool)
      modifies service
      ensures service.Snapshot() == ChangeSensor(old(service.Snapshot()), sensor, active)
    {
      service.ChangeSensorActivationStatus(sensor, active);
    }
  }
}
