/** The closed enumerations of the security package's `constant` namespace. */
module Constants {

  /** The tri-state alarm of the home-security system. */
  datatype AlarmStatus = NoAlarm | PendingAlarm | Alarm

  /** Whether the system is monitoring, and in which mode. */
  datatype ArmingStatus = Disarmed | ArmedHome | ArmedAway

  /** The kinds of sensor a home can have. */
  datatype SensorType = Door | Window | Motion

  /** The severity order NoAlarm < PendingAlarm < Alarm implied by the transition rules. */
  function Severity(s: AlarmStatus): nat
  {
    match s
    case NoAlarm => 0
    case PendingAlarm => 1
    case Alarm => 2
  }
}
