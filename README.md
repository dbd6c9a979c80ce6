# Home-security alarm state machine

A Dafny model of the alarm state machine at the heart of the home-security application: the
`SecurityService` that combines three kinds of input into one alarm status (no alarm, pending
alarm, alarm):

- sensor events, where a door, window or motion sensor becomes active or inactive
  (`changeSensorActivationStatus`, reached from the sensor panel's `setSensorActivity`);
- arming changes (disarmed, armed-home, armed-away);
- the camera: whether the latest image shows a cat.

The service's behaviour is documented case by case in its test suite, and the model follows those
cases. Where a case leaves a choice open, the model makes these decisions:

- A sensor event that sets the flag the sensor already has is a no-op: nothing is evaluated and
  nothing is written. This is case 6 (`SecurityServiceTest.java:136`, deactivating an inactive
  sensor), taken for activation too.
- "All sensors inactive" is checked after the deactivated sensor's own flag is cleared. In case 3
  (`:81`, `:89`), the sensor being deactivated is the only active one, and the pending alarm must
  clear.
- The result of the last image is remembered for the next arming change. Case 11 (`:229-237`)
  sees a cat while disarmed and expects the alarm when it arms home.
- Arming clears every sensor in one bulk reset that triggers none of the deactivation rules. No
  test decides this: case 10 (`:203-225`) checks only the sensors' flags afterwards.

Layout:

- `constants.dfy` (module `Constants`): the enumerations `AlarmStatus`, `ArmingStatus` and
  `SensorType`, and the severity order of alarm statuses.
- `sensors.dfy` (module `Sensors`): a sensor's identity (name and type), the `Sensor` value a caller
  holds, and the managed set as a map from identity to active flag.
- `transitions.dfy` (module `Transitions`): the service's whole state as a value, one pure function
  per operation, `Step`/`Run` over sequences of events, and the lemmas about them.
- `service.dfy` (module `Service`): class `SecurityService`, whose fields are updated in place. Each
  method is proved to implement its pure function. Arming resets the sensors in a loop. The
  "is any sensor active" check is a scan. Class `SensorPanel` forwards sensor actions to the
  service.
- `scenarios.dfy` (module `Scenarios`): the test suite's eleven cases, replayed against the class.

Modelling decisions:

- The repository is the class's own fields, read back as written. Every alarm status written
  through the single set-and-notify path is appended to `alarmLog`. Those are the values an
  argument captor on the repository's `setAlarmStatus` sees, so "written once" and "last written
  value" are both stated exactly.
- Sensors are values. A `Sensor` passed to an operation carries the caller's active flag. When the
  sensor is managed, the managed entry is its current flag, because in the program the caller's
  object and the set's element are the same object. When it is not managed, the caller's flag is
  used. A sensor event writes the sensor back into the set. That is an insert for a sensor that
  was never added, as in case 1, where a sensor that was not added is activated. `addSensor` keeps
  an entry that is already present, as adding an equal element to a set does.
- The image analyser becomes a boolean argument of `ProcessImage`.
- The tests stub the repository, so `getAlarmStatus` returns the same value on every read. A
  scenario therefore starts from the state the asserted call sees. Case 3 starts with the motion
  sensor already active. Under read-your-writes, the test's own first activation would already
  have raised the pending alarm to alarm.

## Model

| member | source | states |
|---|---|---|
| `Sensors.ResetAll` | security/src/test/java/com/udacity/parent/security/util/SecurityServiceTest.java:203-225 | the arming reset keeps exactly the managed sensors and leaves none of them active |
| `Transitions.SetAlarm` | security/src/test/java/com/udacity/parent/security/util/SecurityServiceTest.java:57-59 | the set-and-notify path makes the given status current and appends exactly that one write to the log, changing nothing else |
| `Transitions.ChangeSensor` | security/src/test/java/com/udacity/parent/security/util/SecurityServiceTest.java:46-149 | a sensor event leaves the sensor with the requested flag, keeps every other sensor, the arming status and the remembered cat, and changes the alarm only through one write of the new status |
| `Transitions.SetArming` | security/src/test/java/com/udacity/parent/security/util/SecurityServiceTest.java:190-241 | an arming change records the new arming status, keeps the managed sensors (untouched when disarming) and the cat result, and moves the alarm only to no alarm (disarming) or alarm (arming), through one write |
| `Transitions.ProcessImage` | security/src/test/java/com/udacity/parent/security/util/SecurityServiceTest.java:151-188 | an image remembers its verdict, keeps arming and sensors, and moves the alarm only toward the verdict (alarm for a cat, no alarm otherwise), through one write |
| `Transitions.AddSensor` | security/src/test/java/com/udacity/parent/security/util/SecurityServiceTest.java:72 | adding a sensor makes it managed, keeps every existing entry, gives a new sensor its own flag, and has no alarm, arming or cat side effect |
| `Transitions.CatWhenNotArmedHomeIgnored` | security/src/test/java/com/udacity/parent/security/util/SecurityServiceTest.java:151-164 | a cat seen while disarmed or armed-away is remembered but changes no alarm status and writes nothing |
| `Transitions.ArmedActivationPends` | security/src/test/java/com/udacity/parent/security/util/SecurityServiceTest.java:46-60 | armed (home or away) with no alarm, an inactive sensor becoming active sets pending alarm with exactly one write and marks the sensor active |
| `Transitions.ArmedActivationWhilePendingAlarms` | security/src/test/java/com/udacity/parent/security/util/SecurityServiceTest.java:62-77 | armed and pending, an inactive sensor becoming active sets alarm with exactly one write, whatever other sensors are active |
| `Transitions.DisarmedActivationIgnored` | security/src/test/java/com/udacity/parent/security/util/SecurityServiceTest.java:46-77 | a disarmed system ignores sensor activation: the alarm status is unchanged and nothing is written |
| `Transitions.DeactivationClearsPending` | security/src/test/java/com/udacity/parent/security/util/SecurityServiceTest.java:79-93 | pending, deactivating an active sensor gives no alarm if and only if no sensor remains active, and keeps pending if and only if one does |
| `Transitions.AlarmIsSticky` | security/src/test/java/com/udacity/parent/security/util/SecurityServiceTest.java:95-113 | in alarm, no sensor activation or deactivation changes the alarm status or writes one |
| `Transitions.RedundantChangeIsNoOp` | security/src/test/java/com/udacity/parent/security/util/SecurityServiceTest.java:134-149 | setting a sensor to the flag it already has leaves the whole state unchanged, for every alarm status |
| `Transitions.SensorEventsRespectSeverity` | security/src/test/java/com/udacity/parent/security/util/SecurityServiceTest.java:46-149 | activation never lowers the alarm's severity and deactivation never raises it |
| `Transitions.AlarmStickyUnderSensorEvents` | security/src/test/java/com/udacity/parent/security/util/SecurityServiceTest.java:95-113 | from alarm, any sequence of sensor events and sensor additions ends in alarm with nothing written |
| `Transitions.CatWhileArmedHomeAlarms` | security/src/test/java/com/udacity/parent/security/util/SecurityServiceTest.java:151-164 | a cat image while armed-home sets alarm with one write, from any alarm status, and is remembered |
| `Transitions.NoCatClearsOnlyWhenSensorsInactive` | security/src/test/java/com/udacity/parent/security/util/SecurityServiceTest.java:166-188 | an image without a cat sets and writes no alarm when no sensor is active, and with an active sensor leaves the alarm status unchanged and writes nothing |
| `Transitions.DisarmClearsAlarm` | security/src/test/java/com/udacity/parent/security/util/SecurityServiceTest.java:190-201 | disarming writes no alarm from any state and leaves the sensors as they were |
| `Transitions.ArmingResetsSensors` | security/src/test/java/com/udacity/parent/security/util/SecurityServiceTest.java:203-225 | arming home or away keeps the managed sensors, makes every one inactive and records the new arming status |
| `Transitions.ArmingNeverLowersAlarm` | security/src/test/java/com/udacity/parent/security/util/SecurityServiceTest.java:203-241 | the arming reset is not a series of deactivations: it never lowers the alarm, and without a remembered cat (or when arming away) it leaves the alarm as it was |
| `Transitions.CatFlagSurvives` | security/src/test/java/com/udacity/parent/security/util/SecurityServiceTest.java:227-241 | only image results change the remembered cat result, across any sequence of other events |
| `Transitions.CatRememberedAcrossArming` | security/src/test/java/com/udacity/parent/security/util/SecurityServiceTest.java:227-241 | after a cat image, any events other than images followed by arming home end in alarm |
| `Transitions.AlarmLeftOnlyByDisarmOrClearImage` | security/src/test/java/com/udacity/parent/security/util/SecurityServiceTest.java:95-201 | an event takes the system out of alarm if and only if it is disarming, or an image without a cat while no sensor is active |
| `Transitions.StepKeepsConsistent` | security/src/test/java/com/udacity/parent/security/util/SecurityServiceTest.java:46-241 | every event keeps a disarmed system at no alarm |
| `Transitions.RunKeepsConsistent` | security/src/test/java/com/udacity/parent/security/util/SecurityServiceTest.java:46-241 | any sequence of events keeps a disarmed system at no alarm |
| `Transitions.StepPersistsAlarm` | security/src/test/java/com/udacity/parent/security/util/SecurityServiceTest.java:57-59 | one event writes at most one alarm status, that write is the new alarm status, and without a write the alarm status is unchanged |
| `Transitions.RunPersistsAlarm` | security/src/test/java/com/udacity/parent/security/util/SecurityServiceTest.java:180-187 | after any events the write log only grew, and the last value written is the current alarm status, or nothing was written and the status is unchanged |
| `Service.SecurityService.constructor` | security/src/test/java/com/udacity/parent/security/util/SecurityServiceTest.java:37-44 | a new service takes the repository's alarm status, arming status and sensors, with no cat seen and nothing written |
| `Service.SecurityService.SetAlarmStatus` | security/src/test/java/com/udacity/parent/security/util/SecurityServiceTest.java:57-59 | sets the alarm status and appends it to the log of statuses written to the repository (what the captor sees) and announced to the listeners (the `notify` of DisplayPanel.java:39-46), changing nothing else |
| `Service.SecurityService.GetSensors` | security/src/test/java/com/udacity/parent/security/util/SecurityServiceTest.java:221-224 | the sensors returned are exactly the managed ones, each with its current active flag |
| `Service.SecurityService.AnySensorActive` | security/src/test/java/com/udacity/parent/security/util/SecurityServiceTest.java:166-188 | the scan reports true if and only if some managed sensor is active |
| `Service.SecurityService.AddSensor` | security/src/test/java/com/udacity/parent/security/util/SecurityServiceTest.java:72 | adds a sensor not yet managed with its own flag and has no alarm side effect |
| `Service.SecurityService.ChangeSensorActivationStatus` | security/src/test/java/com/udacity/parent/security/util/SecurityServiceTest.java:46-149 | the new state is the sensor-event transition of the old state |
| `Service.SecurityService.SetArmingStatus` | security/src/test/java/com/udacity/parent/security/util/SecurityServiceTest.java:190-241 | the new state is the arming transition of the old state; the loop resets every sensor in place |
| `Service.SecurityService.ProcessImage` | security/src/test/java/com/udacity/parent/security/util/SecurityServiceTest.java:151-188 | the new state is the image transition of the old state |
| `Service.SensorPanel.constructor` | security/src/test/java/com/udacity/parent/security/util/SecurityServiceTest.java:40 | the panel is bound to the given service |
| `Service.SensorPanel.AddSensor` | security/src/test/java/com/udacity/parent/security/util/SecurityServiceTest.java:72 | adding through the panel is the service's sensor addition |
| `Service.SensorPanel.SetSensorActivity` | security/src/test/java/com/udacity/parent/security/util/SecurityServiceTest.java:56 | a panel action is the service's sensor event |
| `Scenarios.ArmedActivationPends` | security/src/test/java/com/udacity/parent/security/util/SecurityServiceTest.java:46-60 | case 1: armed home or away with no alarm, one activation writes exactly pending alarm |
| `Scenarios.ArmedActivationWhilePendingAlarms` | security/src/test/java/com/udacity/parent/security/util/SecurityServiceTest.java:62-77 | case 2: armed and pending, adding and activating the door sensor writes exactly alarm |
| `Scenarios.LastDeactivationClearsPending` | security/src/test/java/com/udacity/parent/security/util/SecurityServiceTest.java:79-93 | case 3: pending with only the motion sensor active, deactivating it writes exactly no alarm |
| `Scenarios.SensorChangesDuringAlarm` | security/src/test/java/com/udacity/parent/security/util/SecurityServiceTest.java:95-113 | case 4: in alarm, two activations and a deactivation leave alarm and write nothing |
| `Scenarios.SecondActivationWhilePendingAlarms` | security/src/test/java/com/udacity/parent/security/util/SecurityServiceTest.java:115-132 | case 5: pending with the motion sensor active, activating the window sensor ends in alarm |
| `Scenarios.InactiveDeactivationIsNoOp` | security/src/test/java/com/udacity/parent/security/util/SecurityServiceTest.java:134-149 | case 6: for every alarm status, deactivating an inactive sensor twice leaves the status and writes nothing |
| `Scenarios.CatWhileArmedHome` | security/src/test/java/com/udacity/parent/security/util/SecurityServiceTest.java:151-164 | case 7: from any alarm status, a cat image while armed-home writes exactly alarm |
| `Scenarios.NoCatWithActiveSensor` | security/src/test/java/com/udacity/parent/security/util/SecurityServiceTest.java:166-188 | case 8: a cat raises the alarm, a sensor is activated, and a later image without a cat leaves alarm |
| `Scenarios.Disarm` | security/src/test/java/com/udacity/parent/security/util/SecurityServiceTest.java:190-201 | case 9: from any persisted state, disarming writes exactly no alarm |
| `Scenarios.ArmingResetsActiveSensors` | security/src/test/java/com/udacity/parent/security/util/SecurityServiceTest.java:203-225 | case 10: three sensors activated, then arming: the three read back managed and inactive, and no sensor reads back active |
| `Scenarios.ArmHomeAfterCatWhileDisarmed` | security/src/test/java/com/udacity/parent/security/util/SecurityServiceTest.java:227-241 | case 11: a cat seen while disarmed, then arming home, ends in alarm with that single write |

## Left out

- `Transitions.ChangeSensor`: activating a sensor that is already active is a no-op, including while pending. The comment of case 5 (`SecurityServiceTest.java:117`) reads literally as "a sensor activated while already active" raising the alarm. The model does not take that reading, because the test's name (`:120`, "oneOtherSensorActivated") and its body (`:123-127`) activate a different sensor while one is active. That is what `Transitions.ArmedActivationWhilePendingAlarms` covers.
- Removing sensors (`removeSensor`) is not modelled. The test suite that documents the service never exercises it.
- Listener registration and fan-out are not modelled as objects. Listeners are registered with `addStatusListener` and `removeStatusListener`. The `notify` fan-out is modelled only as `alarmLog`, the list of alarm statuses written through the set-and-notify path. The `catDetected` and `sensorStatusChanged` callbacks are left out; their only listener here just renders.
- The image analyser and its confidence threshold are not modelled. Its network call and its floating-point threshold are replaced by the boolean verdict passed to `ProcessImage`.
- Persistence (preferences and JSON storage) is not modelled. It is the class's fields, read back as written.
- The Swing panels are not modelled. The sensor panel is kept only as the forwarding of its two actions.
- Threads are not modelled. The service is driven one call at a time.
- The getters `getAlarmStatus` and `getArmingStatus` are plain reads of the class's fields.
- Sensors are values held in a map, not shared mutable objects. Aliasing between a caller's sensor object and the managed set is represented by the rule that the managed entry decides the current flag.
