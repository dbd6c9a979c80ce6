/** Sensors and the managed sensor set. */
module Sensors {
  import opened Constants

  /** The identity of a sensor: two sensors with the same name and type are the same set element. */
  datatype SensorKey = SensorKey(name: string, kind: SensorType)

  /** A sensor as a caller holds it: its identity and its own active flag (false when newly made). */
  datatype Sensor = Sensor(name: string, kind: SensorType, active: bool)
  {
    function Key(): SensorKey
    {
      SensorKey(name, kind)
    }
  }

  /** The managed sensor set, keyed by identity, each entry holding that sensor's active flag. */
  type SensorTable = map<SensorKey, bool>

  /** Some managed sensor is active. */
  predicate AnyActive(t: SensorTable)
  {
    exists k :: k in t && t[k]
  }

  /**
    * The active flag a sensor has before an event: the managed entry when the sensor is in the set
    * (the caller's object and the set's element are one object), otherwise the caller's own flag.
    */
  function CurrentActive(t: SensorTable, s: Sensor): bool
  {
    if s.Key() in t then t[s.Key()] else s.active
  }

  /** The bulk reset done when the system is armed: the same sensors, every one inactive. */
  function ResetAll(t: SensorTable): (r: SensorTable)
    ensures r.Keys == t.Keys
    ensures forall k :: k in r ==> !r[k]
    ensures !AnyActive(r)
  {
    map k | k in t :: false
  }
}
