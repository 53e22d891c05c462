# Carousel controller model

This project is a Dafny model of the firmware core of a Teensy controller. The controller
drives a 16-slot rotary carousel of dropper assemblies. Each slot carries a permanent id and
a station position. The stations are cap injection and confirm, bulb pre-load, injection and
confirm, pipette injection and confirm, the two ejectors and the empty check. A stepper motor
advances the carousel by one station per move of 200 steps. Between two moves each pneumatic
subsystem acts inside the dwell window. The subsystems are the cap injector, the bulb
pre-loader and ram, the pipette twister and ram, and the junk and dropper ejectors. A
readiness interlock decides when the next move may start. After each stop,
`machineTracker` classifies the slots from the confirm sensors and counts completed and
errored droppers. It then looks for three consecutive slots with the same defect and pauses
the machine on such an outbreak.

The modules follow the sources:

- `Io` holds the 32-bit clock arithmetic (`Elapsed`), a sample of every input pin
  (`Inputs`) and the output pin levels (class `Outputs`).
- `Slot` models `SlotObject.h`. A `SlotObject` is a value, as the C++ array `SlotObject
  slots[16]` holds it by value. The setters return an updated copy.
- `Machine` models `MachineState.h` as a class with its flags and counters, the startup-ramp
  gates, the mode transitions and the readiness interlock.
- `Carousel` holds the index arithmetic of `updateSlotPositions` and `setSlotIdByPosition`:
  where each slot stands for a given origin, and which slot each station id names.
- `Defects` specifies the slot-flag updates of `machineTracker`, `setSlotErrors` and the
  consecutive-defect scan of `hasConsecutiveErrors` as functions on the sequence of slot
  values.
- `Tracker` composes those functions into one whole `machineTracker` run on the state the
  run changes.
- `Schedulers` specifies one call of `handleCapInjection`, `handleBulbSystem` and
  `handlePipetSystem` as functions on their `static` locals and outputs.
- `Timing` holds the motion profile and step-delay clamp, the dwell-fraction tests, the
  bulb pre-load one-shot and the not-ready watchdog, each with lemmas over runs of calls.
- `Motion` specifies the pulse train of `stepMotor` while moving.
- `Controller` is the global state of `src/main.cpp` as a class: the slot array, the
  station ids, the motor globals and the `static` locals of every handler. Each handler
  is a method whose `ensures` ties its new state to the specification functions above, so
  the lemmas proved there carry over to the code.

The clocks are parameters (`now`, `nowMs`). The dwell length `pauseAfter` is a parameter. Inputs are one
sampled `Inputs` value per call. Time differences use unsigned 32-bit wrap-around, as
`millis()`/`micros()` arithmetic does.

Some behaviours of `src/main.cpp` differ from what its names suggest; the model follows
the code as written:

- The step-delay curve has two legs. Every step at or after `ACCEL_STEPS` is on the
  deceleration leg, with progress counted from the end of acceleration
  (src/main.cpp:780-792). There is no hold at the minimum delay in the middle of a move.
- `handleCapInjection` tests the slot at the failed-eject station, position 0, through
  `slotIdFailedJunkEject`. It does not test the slot at the cap-injection station
  (src/main.cpp:700-726).
- `isReadyToMove` ignores `dropperSystemReady` and `inProduction`
  (include/MachineState.h:126-136).
- `homeMachine` sets `currentHomePosition` to 0 but does not recompute the slot positions.
  The model therefore only keeps the invariant that the positions are the layout of some
  origin (`Controller.Controller.Valid`).

## Model

| member | source | states |
|---|---|---|
| Io.Elapsed | src/main.cpp:1030 | `now - since` in unsigned 32-bit arithmetic: the plain difference when `since <= now`, else the difference plus 2^32 |
| Io.Outputs.constructor | src/main.cpp:1056-1127 | every actuator pin starts LOW |
| Slot.TruncMod16 | include/SlotObject.h:29 | the C++ `%`: the result differs from `a` by a multiple of 16, lies in [0, 16) for `a >= 0` and in (-16, 0] for negative `a` |
| Slot.StationPosition | include/SlotObject.h:38-48 | every station has a position in 0..15 |
| Slot.SlotObject.GetId | include/SlotObject.h:19 | the slot id |
| Slot.SlotObject.GetPosition | include/SlotObject.h:20 | the stored position; `SetPosition` ensures it reads back `p % 16` |
| Slot.SlotObject.HasError | include/SlotObject.h:21 | the error flag; `SetError` ensures it reads back the value set |
| Slot.SlotObject.HasJunk | include/SlotObject.h:22 | the junk flag; `SetJunk` ensures it reads back the value set |
| Slot.SlotObject.HasMissingBulb | include/SlotObject.h:23 | the missing-bulb flag; `SetMissingBulb` ensures it reads back the value set |
| Slot.SlotObject.HasMissingCap | include/SlotObject.h:24 | the missing-cap flag; `SetMissingCap` ensures it reads back the value set |
| Slot.SlotObject.HasFailedJunkEject | include/SlotObject.h:25 | the failed-eject flag; `SetFailedJunkEject` ensures it reads back the value set |
| Slot.SlotObject.ShouldFinishProduction | include/SlotObject.h:26 | the finish request; `SetFinishProduction` ensures it reads back the value set |
| Slot.SlotObject.IsAtFailedJunkEject | include/SlotObject.h:38 | the slot is at position 0; `IsAtExactlyOnePosition` proves it holds at that number and at no other |
| Slot.SlotObject.IsAtCapInjection | include/SlotObject.h:39 | the slot is at position 1; `IsAtExactlyOnePosition` proves it holds at that number and at no other |
| Slot.SlotObject.IsAtCapConfirm | include/SlotObject.h:40 | the slot is at position 2; `IsAtExactlyOnePosition` proves it holds at that number and at no other |
| Slot.SlotObject.IsAtBulbPreLoad | include/SlotObject.h:41 | the slot is at position 5; `IsAtExactlyOnePosition` proves it holds at that number and at no other |
| Slot.SlotObject.IsAtBulbInjection | include/SlotObject.h:42 | the slot is at position 6; `IsAtExactlyOnePosition` proves it holds at that number and at no other |
| Slot.SlotObject.IsAtBulbConfirm | include/SlotObject.h:43 | the slot is at position 6; `IsAtExactlyOnePosition` proves it holds at that number and at no other |
| Slot.SlotObject.IsAtPipetInjection | include/SlotObject.h:44 | the slot is at position 9; `IsAtExactlyOnePosition` proves it holds at that number and at no other |
| Slot.SlotObject.IsAtPipetConfirm | include/SlotObject.h:45 | the slot is at position 10; `IsAtExactlyOnePosition` proves it holds at that number and at no other |
| Slot.SlotObject.IsAtCompletedEjection | include/SlotObject.h:46 | the slot is at position 13; `IsAtExactlyOnePosition` proves it holds at that number and at no other |
| Slot.SlotObject.IsAtJunkEjection | include/SlotObject.h:47 | the slot is at position 14; `IsAtExactlyOnePosition` proves it holds at that number and at no other |
| Slot.SlotObject.IsAtJunkEjectConfirm | include/SlotObject.h:48 | the slot is at position 15; `IsAtExactlyOnePosition` proves it holds at that number and at no other |
| Slot.SlotObject.IsAt | include/SlotObject.h:38-48 | the check of station `st`; `IsAtExactlyOnePosition`, `StationsExclusive` and `NoStationAtGaps` prove where the checks hold |
| Slot.SlotObject.SetPosition | include/SlotObject.h:29 | the new position is `p % 16` with C++ sign rules, in range for `p >= 0`; every other field is kept |
| Slot.SlotObject.SetError | include/SlotObject.h:30 | the error flag takes the new value; every other field is kept |
| Slot.SlotObject.SetJunk | include/SlotObject.h:31 | the junk flag takes the new value; every other field is kept |
| Slot.SlotObject.SetMissingBulb | include/SlotObject.h:32 | the missing-bulb flag takes the new value; every other field is kept |
| Slot.SlotObject.SetMissingCap | include/SlotObject.h:33 | the missing-cap flag takes the new value; every other field is kept |
| Slot.SlotObject.SetFailedJunkEject | include/SlotObject.h:34 | the failed-junk-eject flag takes the new value; every other field is kept |
| Slot.SlotObject.SetFinishProduction | include/SlotObject.h:35 | the finish flag takes the new value; every other field is kept |
| Slot.NewSlot | include/SlotObject.h:16 | a new slot has the given id, position 0 and every flag false |
| Slot.IsAtExactlyOnePosition | include/SlotObject.h:38-48 | each `isAt*` check holds exactly at its station's position |
| Slot.StationsExclusive | include/SlotObject.h:38-48 | two checks hold together only for the same station or the two bulb stations, which share position 6 |
| Slot.NoStationAtGaps | include/SlotObject.h:38-48 | no check holds at positions 3, 4, 7, 8, 11 or 12 |
| Slot.SetPositionSelectsStation | include/SlotObject.h:29-48 | after `setPosition(p)` a check holds exactly when `p % 16` is its station's number; for a negative `p` not divisible by 16 none holds |
| Slot.SettersOverwrite | include/SlotObject.h:29-35 | calling any of the seven setters twice keeps the last value |
| Slot.SetPositionCommutes | include/SlotObject.h:29-35 | `setPosition` commutes with each of the six flag setters |
| Slot.SetErrorCommutes | include/SlotObject.h:30-35 | `setError` commutes with each of the other five flag setters |
| Slot.SetJunkCommutes | include/SlotObject.h:31-35 | `setJunk` commutes with the missing-bulb, missing-cap, failed-eject and finish setters |
| Slot.OtherFlagSettersCommute | include/SlotObject.h:32-35 | the missing-bulb, missing-cap, failed-eject and finish setters commute pairwise |
| Machine.GatesMonotone | include/MachineState.h:62-91 | an open gate implies every gate with a lower or equal threshold is open |
| Machine.GateStaysOpen | include/MachineState.h:62-91 | more completed advances never close a gate |
| Machine.CapInjectAlwaysOpen | include/MachineState.h:62-64 | the cap-inject gate is open for every non-negative count |
| Machine.Opens | include/MachineState.h:62-91 | the startup-ramp thresholds: cap injection at `>= 0`, then `> 1`, `> 4`, `> 5`, `> 5`, `> 8`, `> 9`, `> 12`, `> 13` and `> 14` completed advances; `GatesMonotone` and `GateStaysOpen` prove their order |
| Machine.MachineState.CanCapInjectStart | include/MachineState.h:62-64 | the cap-inject gate, `Opens(CapInject, positionsMoved)` |
| Machine.MachineState.CanCapConfirmStart | include/MachineState.h:65-67 | the cap-confirm gate, `Opens(CapConfirm, positionsMoved)` |
| Machine.MachineState.CanPreLoadBulbProcessStart | include/MachineState.h:68-70 | the bulb pre-load gate |
| Machine.MachineState.CanBulbProcessStart | include/MachineState.h:71-73 | the bulb-injection gate |
| Machine.MachineState.CanBulbConfirmStart | include/MachineState.h:74-76 | the bulb-confirm gate |
| Machine.MachineState.CanPipetProcessStart | include/MachineState.h:77-79 | the pipette-injection gate |
| Machine.MachineState.CanPipetConfirmStart | include/MachineState.h:80-82 | the pipette-confirm gate |
| Machine.MachineState.CanDropperEjectionStart | include/MachineState.h:83-85 | the dropper-ejection gate |
| Machine.MachineState.CanJunkEjectionStart | include/MachineState.h:86-88 | the junk-ejection gate |
| Machine.MachineState.CanCheckForEmptyStart | include/MachineState.h:89-91 | the empty-check gate |
| Machine.MachineState.constructor | include/MachineState.h:8-29 | starts stopped, not paused, out of production, needing homing, all subsystems ready and all counters zero |
| Machine.MachineState.IncrementDroppersCompleted | include/MachineState.h:38-40 | the completed count goes up by one |
| Machine.MachineState.IncrementErroredDroppers | include/MachineState.h:41-43 | the errored count goes up by one |
| Machine.MachineState.IncrementPositionsMoved | include/MachineState.h:55-57 | the advance count goes up by one |
| Machine.MachineState.Start | include/MachineState.h:92-101 | from stopped: leaves stopped, needs homing and enters production; from paused: resumes production; otherwise nothing changes |
| Machine.MachineState.Pause | include/MachineState.h:103-110 | unless stopped the machine becomes paused and out of production; both ejector pins go LOW in every case |
| Machine.MachineState.Stop | include/MachineState.h:112-117 | stopped, not paused, out of production and needing homing |
| Machine.MachineState.HomingComplete | include/MachineState.h:122-124 | homing is no longer needed |
| Machine.MachineState.SetPipetSystemReady | include/MachineState.h:139-141 | the pipette readiness flag takes the given value |
| Machine.MachineState.SetDropperSystemReady | include/MachineState.h:143-145 | the dropper readiness flag takes the given value |
| Machine.MachineState.SetCapInjectionReady | include/MachineState.h:146-148 | the cap readiness flag takes the given value |
| Machine.MachineState.SetBulbPreLoadReady | include/MachineState.h:149-151 | the pre-load readiness flag takes the given value |
| Machine.MachineState.SetBulbSystemReady | include/MachineState.h:153-155 | the bulb readiness flag takes the given value |
| Machine.MachineState.ResetAllPneumatics | include/MachineState.h:163-171 | the bulb, dropper, pipette and pre-load subsystems become not ready; the cap flag is kept |
| Machine.MachineState.IsReadyToMove | include/MachineState.h:126-136 | the readiness interlock: the bulb, cap, pre-load and pipette flags, homing done, not paused and not stopped; `NotReadyWhenSubsystemBusy` and `ReadyWhenAllSubsystemsReady` prove both directions |
| Machine.NotReadyWhenSubsystemBusy | include/MachineState.h:126-136 | the interlock fails whenever the bulb, cap, pre-load or pipette flag is false |
| Machine.ReadyWhenAllSubsystemsReady | include/MachineState.h:126-136 | with those four flags true the interlock holds exactly when homing is done and the machine is neither paused nor stopped |
| Carousel.PositionOf | src/main.cpp:563-571 | a slot's position for a given origin is a station number below 16 |
| Carousel.SlotAt | src/main.cpp:207-222 | the slot standing at a station is an id below 16 |
| Carousel.SlotAtInvertsPositionOf | src/main.cpp:563-571 | the slot found at a slot's position is that slot |
| Carousel.PositionOfInvertsSlotAt | src/main.cpp:563-571 | the slot found at a station stands at that station |
| Carousel.OriginLayoutIsIdentity | src/main.cpp:563-571 | with origin 0 every slot stands at the station numbered by its id |
| Carousel.PositionsInjective | src/main.cpp:563-571 | two slots never share a position |
| Carousel.PositionsArePermutation | src/main.cpp:563-571 | the 16 positions of one layout are exactly the stations 0..15 |
| Carousel.Advance | src/main.cpp:809-821 | one completed move leaves the origin below 16 |
| Carousel.AdvancesAddsModulo | src/main.cpp:809-821 | `n` completed moves give origin `(home + n) % 16` |
| Carousel.SixteenAdvancesReturnHome | src/main.cpp:809-821 | sixteen moves bring the origin back, and no smaller positive number of moves does |
| Carousel.AdvanceMovesEverySlotOneStation | src/main.cpp:563-571 | after one move every slot stands one station further on, modulo 16 |
| Carousel.StationsFor | src/main.cpp:190-200 | the station ids of a layout are all slot ids in range |
| Carousel.StationsForNamesTheSlotThere | src/main.cpp:207-222 | each station id names the slot at that station, and only that slot stands there |
| Carousel.StationsForDistinct | src/main.cpp:207-222 | stations at different positions hold different slots |
| Carousel.StationIdsExtensional | src/main.cpp:190-200 | two id records that agree at every station are equal |
| Carousel.AssignAt | src/main.cpp:208-221 | one loop iteration gives `id` to every station at position `p` and keeps the others |
| Carousel.AssignAll | src/main.cpp:207-222 | the station ids after the `setSlotIdByPosition` loop has visited the slots in index order; `AssignAllOverLayout` and `AssignAllGivesStationsFor` prove what it assigns |
| Carousel.AssignAllOverLayout | src/main.cpp:207-222 | after visiting a prefix of a layout, a station holds the slot there if that slot was visited, else its old id |
| Carousel.AssignAllGivesStationsFor | src/main.cpp:207-222 | a full visit assigns exactly the layout's station ids, whatever the ids were before |
| Defects.Placed | src/main.cpp:563-571 | placing keeps the id numbering and lays the slots out from the origin |
| Defects.PlacedIsBijection | src/main.cpp:563-571 | placing changes positions only; positions become pairwise distinct and each station holds its `SlotAt` slot |
| Defects.SamePlacesKeepLayout | src/main.cpp:563-571 | a flag-only change keeps the numbering and the layout |
| Defects.MarkErrors | src/main.cpp:281-287 | `setSlotErrors` on the slot values; keeps the slot count, and `MarkErrorsOnlySets` proves what it sets |
| Defects.MarkErrorsOnlySets | src/main.cpp:281-287 | a slot's error is set exactly when it was set or the slot has a junk, missing-bulb or missing-cap fault; no other field changes and no error is cleared |
| Defects.MarkErrorsIdempotent | src/main.cpp:281-287 | marking twice is marking once |
| Defects.FirstOutbreakFrom | src/main.cpp:224-245 | a found start index lies between the search start and 15 |
| Defects.FirstOutbreak | src/main.cpp:224-245 | the first start index of a cyclic triple, searched from 0; `FirstOutbreakFromIsFirst` and `FirstOutbreakIsFirstMatch` prove it is the first |
| Defects.FirstOutbreakFromIsFirst | src/main.cpp:224-245 | the search finds an outbreak with none before it, or reports none when there is none |
| Defects.FirstOutbreakIsFirstMatch | src/main.cpp:224-245 | an outbreak at `i` with none before it is the one the scan acts on |
| Defects.Cleared | src/main.cpp:247-264 | the cleared slot no longer carries the fault |
| Defects.ContainAt | src/main.cpp:247-268 | containment of the outbreak at `i`; keeps the slot count, and `ContainAtChangesOnlyTheTriple` and `ContainAtClearsMatchedKinds` prove what it changes |
| Defects.ContainAtChangesOnlyTheTriple | src/main.cpp:247-268 | containing the outbreak at `i` changes exactly the slots `i`, `i+1`, `i+2` (mod 16) |
| Defects.ContainAtClearsMatchedKinds | src/main.cpp:247-268 | in the triple every matched fault kind is cleared, other kinds are kept, the error flag is set, and id, position, failed eject and finish flags are kept |
| Defects.ClearIf | src/main.cpp:247-264 | one clearing block; keeps the slot count, and `ContainAtInBlocks` proves the blocks compose to `ContainAt` |
| Defects.ErrorAt | src/main.cpp:266-268 | the error block; keeps the slot count, and `ContainAtInBlocks` proves the blocks compose to `ContainAt` |
| Defects.ContainAtInBlocks | src/main.cpp:247-268 | the cap, junk, bulb and error blocks run in order amount to containing the triple |
| Defects.Scan | src/main.cpp:224-279 | the slots after `hasConsecutiveErrors`; keeps the slot count, and `ScanContainsFirstTriple` and `ScanWithoutOutbreakIsIdentity` prove what it does |
| Defects.ScanContainsFirstTriple | src/main.cpp:224-279 | three consecutive slots sharing a fault with no earlier outbreak are found and contained by the scan |
| Defects.ScanWithoutOutbreakIsIdentity | src/main.cpp:270-279 | a scan that finds no triple changes no slot |
| Defects.SlotAtOfNext | src/main.cpp:228-230 | stepping `k` indices forward adds `k` to the forward distance `SlotAt` measures, modulo 16 |
| Defects.GappedTripleHasNoRun | src/main.cpp:227-245 | slots `a`, `a+1`, `a+3` contain no three cyclically consecutive slots |
| Defects.NonConsecutiveTripleIgnored | src/main.cpp:224-279 | missing caps at `a`, `a+1`, `a+3` and no other fault: the scan finds nothing and changes nothing |
| Defects.StationsForTrackedDistinct | src/main.cpp:592-669 | the five stations the tracker writes hold five different slots in every layout |
| Defects.WithFault | src/main.cpp:600-631 | the slot carries the fault exactly when `b` holds |
| Defects.MarkFinish | src/main.cpp:592-598 | the finish request at the failed-eject station; keeps the slot count, and `ClassifyStopFrame` proves which slot it marks |
| Defects.Confirm | src/main.cpp:600-631 | one confirm station; keeps the slot count, and `ClassifyStopConfirmStations` proves when the flag is set or cleared |
| Defects.ClassifyConfirms | src/main.cpp:592-631 | the finish request and the three confirm stations; keeps the slot count, and `ClassifyStopConfirmStations` and `ClassifyStopFrame` prove its effect |
| Defects.CheckEmpty | src/main.cpp:656-669 | the empty check; keeps the slot count, and `ClassifyStopEmptyCheck` proves both sensor branches and the closed gate |
| Defects.ClassifyStop | src/main.cpp:592-669 | the classification of one stop; keeps the slot count, and `ClassifyStopConfirmStations`, `ClassifyStopEmptyCheck` and `ClassifyStopFrame` prove its effect |
| Defects.ClassifyStopConfirmStations | src/main.cpp:600-631 | each confirm station's fault flag is set exactly when its gate is open, the slot is not inert and the sensor shows the fault; otherwise it is cleared |
| Defects.ClassifyStopEmptyCheck | src/main.cpp:656-669 | with the gate open a slot seen empty loses every fault and the error, a slot seen full gets the failed-eject flag; with the gate closed the slot is unchanged |
| Defects.ClassifyStopFrame | src/main.cpp:592-669 | a finish request marks the slot at the failed-eject station; no slot outside the tracked stations changes |
| Defects.ClassifyStopKeepsPlaces | src/main.cpp:592-669 | classification changes flags only |
| Defects.ClassifyConfirmsKeepsPlaces | src/main.cpp:592-631 | the confirm phase changes flags only |
| Defects.CheckEmptyKeepsPlaces | src/main.cpp:656-669 | the empty check changes flags only |
| Defects.MarkErrorsKeepsPlaces | src/main.cpp:281-287 | `setSlotErrors` changes flags only |
| Defects.ScanKeepsPlaces | src/main.cpp:224-279 | the scan changes flags only |
| Tracker.Confirmed | src/main.cpp:592-631 | the confirm stations change only the slots; `RunScans` and `Defects.ClassifyStopConfirmStations` give the flags they set |
| Tracker.Ejected | src/main.cpp:633-654 | the ejector block changes only the counters and the two ejector pins; `RunCounts` and `RunEjectsInWindow` give how |
| Tracker.EmptyChecked | src/main.cpp:656-669 | the empty check changes only the slots; `Defects.ClassifyStopEmptyCheck` gives how |
| Tracker.ErrorsMarked | src/main.cpp:671 | `setSlotErrors` changes only the slots; `RunScans` and `Defects.MarkErrorsOnlySets` give how |
| Tracker.Scanned | src/main.cpp:224-279 | the scan changes only the slots and the three consecutive-defect flags; `ScannedFromFlags` and `RunScans` give the slots and flags it leaves |
| Tracker.ScanFlags | src/main.cpp:251-276 | the `hasConsecutive*` flags after a scan: an outbreak raises the flag of each kind it matched and keeps the others, no outbreak clears all three; `Controller.Controller.HasConsecutiveErrors` ensures its flags follow it |
| Tracker.ScannedFromFlags | src/main.cpp:224-279 | the scanned slots with flags as the scan sets them are the scan's result |
| Tracker.Halted | src/main.cpp:673-685 | the pauses change only the mode flags and the ejector pins; `RunHalts` gives when and how |
| Tracker.Marked | src/main.cpp:592-671 | the state just before the scan fits the station ids; `RunScans` scans exactly this state |
| Tracker.Run | src/main.cpp:592-685 | a whole tracker run keeps 16 slots and the station ids in range; `RunKeepsPlaces`, `RunCounts`, `RunScans`, `RunHalts` and `RunEjectsInWindow` give what it does |
| Tracker.EjectorsOff | src/main.cpp:688-697 | the ejectors go low when `off`; otherwise nothing changes |
| Tracker.RunKeepsPlaces | src/main.cpp:592-685 | a run keeps every slot's id and position |
| Tracker.RunCounts | src/main.cpp:633-654 | the errored count rises by one exactly when the junk gate is open and its slot is errored; the completed count exactly when the dropper gate is open and its slot is neither errored nor finished |
| Tracker.RunScans | src/main.cpp:592-685 | the final slots are the scan of the classified and error-marked slots, and the flags record what the scan found |
| Tracker.RunHalts | src/main.cpp:673-685 | an outbreak, a failed junk eject or a finished slot at the junk station ends with both ejectors low and, unless stopped, paused and out of production; any other run leaves the mode alone |
| Tracker.RunEjectsInWindow | src/main.cpp:633-654 | an ejector a run raises was raised within 18 ms of the stop at an open gate, the dropper only for a completed slot; a run that does not halt raises each pin exactly then |
| Schedulers.CapStep | src/main.cpp:700-726 | the cap pin follows production for a not-inert slot; moving makes the subsystem not ready; idle with a cap present or an inert slot makes it ready, and only then does it become ready |
| Schedulers.BulbEdges | src/main.cpp:448-465 | the edge block records the motor state and changes only the latch, the stop time and the two readiness flags |
| Schedulers.PreloadFire | src/main.cpp:474-490 | the latch's `fired` flag is set exactly when the one-shot fires; only the latch, the pre-load readiness and the cylinder change |
| Schedulers.PreloadRetract | src/main.cpp:493-505 | the retract block changes only the pre-load readiness and the cylinder |
| Schedulers.Preloader | src/main.cpp:474-505 | the preloader block changes only the latch, the pre-load readiness and the cylinder, and its latch has fired exactly when it had fired before or fires now |
| Schedulers.BulbRamExtend | src/main.cpp:515-541 | the extend half changes only the bulb readiness, the ram, the extended flag and the bulb-present flag |
| Schedulers.BulbRamRetract | src/main.cpp:542-553 | the retract half changes only the bulb readiness, the ram and the extended flag |
| Schedulers.BulbRam | src/main.cpp:513-560 | the ram block changes only the bulb readiness, the ram, the extended flag and the bulb-present flag |
| Schedulers.BulbStep | src/main.cpp:434-561 | one call of `handleBulbSystem` records the motor state and takes the stop time on the idle edge; `BulbRamWindow`, `PreloadCylinderWindow`, `BulbReadyForced` and `BulbNotReadyOnMovingEdge` prove its actuator rules |
| Schedulers.PreloadFiresIsLatchStep | src/main.cpp:448-490 | the bulb call's latch fires exactly as the pre-load one-shot of `Timing.PreloadStep` does |
| Schedulers.BulbRamWindow | src/main.cpp:513-560 | the bulb ram is raised only while idle with the gate open, inside [1%, 95%) of the dwell, for a slot that is not inert |
| Schedulers.PreloadCylinderWindow | src/main.cpp:474-505 | the pre-load cylinder is raised only when the latch fires in production for a slot that is not inert, and is low from 95% of the dwell on |
| Schedulers.BulbReadyForced | src/main.cpp:474-560 | a closed gate makes its part of the bulb subsystem ready; while idle an errored or finished slot does too, at the injection station once the ram home sensor is HIGH and at the pre-load station once the cylinder home sensor reads LOW |
| Schedulers.BulbNotReadyOnMovingEdge | src/main.cpp:448-465 | starting to move makes both bulb subsystems not ready while their gates are open |
| Schedulers.PipetDwell | src/main.cpp:370-400 | the idle branch changes only the ram, the readiness and the twister |
| Schedulers.PipetStep | src/main.cpp:311-408 | until the twister is first home the call drives the twister only and leaves ram and readiness alone; once homed it records the motor state and takes the stop time on the idle edge |
| Schedulers.PipetCycle | src/main.cpp:346-406 | the homed part changes only the ram, the readiness and the twister; a closed gate or an inert slot makes it ready, moving with an open gate makes it not ready and keeps the ram |
| Schedulers.PipetRamWindow | src/main.cpp:311-408 | the pipette ram is raised only while homed, idle, gate open, inside [1%, 90%) of the dwell and for a slot that is not inert |
| Schedulers.PipetTwisterRaise | src/main.cpp:352-366 | once homed, the twister is raised while moving with the gate open only after a quarter of the move |
| Schedulers.PipetReadyForced | src/main.cpp:397-406 | a closed gate or an inert slot makes the homed pipette subsystem ready |
| Timing.Constrain | src/main.cpp:794 | the clamp lies in [lo, hi], is `x` inside it and the nearer bound outside it |
| Timing.LegOf | src/main.cpp:780-792 | the leg of the delay curve: acceleration over the first `ACCEL_STEPS` steps, deceleration, counted from the end of acceleration, for every later step |
| Timing.StepDelay | src/main.cpp:780-794 | the step delay lies within the active profile's bounds, and within the nominal minimum and the slow maximum |
| Timing.Reached | src/main.cpp:370-395 | the dwell-fraction test `elapsed / pauseAfter >= pct / 100` in exact arithmetic; `ReachedMonotone` proves it is monotone |
| Timing.ReachedMonotone | src/main.cpp:370-395 | reaching a dwell fraction implies reaching every smaller one |
| Timing.QuarterMoved | src/main.cpp:357-361 | the twister test `stepsTaken / TOTAL_STEPS >= 0.25` in exact arithmetic; `QuarterMovedFromStep50` proves it holds from step 50 on |
| Timing.QuarterMovedFromStep50 | src/main.cpp:357-361 | a quarter of the 200-step move is reached exactly when at least 50 steps are done |
| Timing.PreloadStep | src/main.cpp:448-490 | the latch records the motor, is armed only on an idle edge and disarmed on a moving edge, and fires only while idle and once armed and not yet fired |
| Timing.PreloadFiresAtMostOncePerStop | src/main.cpp:448-490 | without an idle edge the latch fires at most once, and not at all once it has fired |
| Timing.WatchdogStep | src/main.cpp:1004-1041 | the watchdog fires exactly when the condition holds, it was tracking and 2000 ms have passed; a false condition discards tracking; tracking starts at `now` |
| Timing.WatchdogQuietBeforeTimeout | src/main.cpp:1004-1041 | a not-ready condition that lasts less than the timeout never pauses and keeps the first time |
| Timing.WatchdogResetRestarts | src/main.cpp:1017-1040 | one call with the condition false restarts the timing from the next call |
| Motion.MovingStep | src/main.cpp:796-828 | one call while moving does nothing until the edge is due, then toggles the step signal at `now`; `MovingStepCountsFallingEdges` proves how it counts and ends the move |
| Motion.StartsMoving | src/main.cpp:854-863 | the start decision while idle: the interlock holds, the dwell has passed since the last stop, the bulb ram is home and its pin is low; `Controller.Controller.StepWhileIdle` ensures that, with no pause requested, a move starts exactly then |
| Motion.MovingStepCountsFallingEdges | src/main.cpp:796-828 | a step is counted only on a due falling edge; the count stays at most 200 and the move ends exactly at 200 |
| Motion.MoveEndsAfterEdgesLeft | src/main.cpp:796-828 | with every edge due, the move ends after exactly the remaining edges |
| Motion.WholeMoveIs400Edges | src/main.cpp:796-828 | a move from rest lasts exactly 400 due edges |
| Controller.HandleLowSupplies | src/main.cpp:289-294 | low exactly when some supply sensor reads HIGH |
| Controller.ProfileFor | src/main.cpp:832-845 | the nominal profile (31, 616, 46, 15), or every constant times 16 while a supply is low |
| Controller.Controller.constructor | src/main.cpp:1056-1127 | the power-on globals followed by `setup`: slots laid out from origin 0, stopped, needing homing, every output low |
| Controller.Controller.UpdateSlotPositions | src/main.cpp:563-571 | every slot moves to `(currentHomePosition + id) % 16`, the advance count goes up by one |
| Controller.Controller.SetSlotIdByPosition | src/main.cpp:207-222 | the station ids become those of the current layout |
| Controller.Controller.SetSlotErrors | src/main.cpp:281-287 | the slots become `MarkErrors` of the old slots |
| Controller.Controller.ClearTriple | src/main.cpp:247-264 | one fault kind cleared in the triple |
| Controller.Controller.ErrorTriple | src/main.cpp:266-268 | the triple's error flags set |
| Controller.Controller.ContainTriple | src/main.cpp:247-276 | the slots become the scan's containment and each matched kind raises its consecutive-defect flag |
| Controller.Controller.HasConsecutiveErrors | src/main.cpp:224-279 | the slots become the scan of the old slots, the result says whether an outbreak exists, and the flags follow `ScanFlags` |
| Controller.Controller.ConfirmStation | src/main.cpp:600-631 | one confirm station's update of the slot there |
| Controller.Controller.ClassifyConfirmStations | src/main.cpp:592-631 | the tracked state becomes `Confirmed` of the old one |
| Controller.Controller.ConfirmSlots | src/main.cpp:592-631 | the slots become `ClassifyConfirms` of the old slots |
| Controller.Controller.CheckForEmpty | src/main.cpp:656-669 | the slots become `CheckEmpty` of the old slots |
| Controller.Controller.StartEjectors | src/main.cpp:633-654 | the tracked state becomes `Ejected` of the old one |
| Controller.Controller.HaltOn | src/main.cpp:673-685 | the tracked state becomes `Halted` of the old one |
| Controller.Controller.RunTracker | src/main.cpp:587-686 | the tracked state becomes `Run` of the old one and the tracker is no longer due |
| Controller.Controller.ClassifyAndEject | src/main.cpp:592-669 | the confirm stations, the ejectors and the empty check in order |
| Controller.Controller.MarkScanAndHalt | src/main.cpp:671-685 | `setSlotErrors`, the scan and the pauses in order |
| Controller.Controller.MarkAndScan | src/main.cpp:671-673 | `setSlotErrors` then the scan; the result says whether an outbreak was found |
| Controller.Controller.MachineTracker | src/main.cpp:574-698 | the stop time is taken on the idle edge, a due tracker run happens once per stop, and the ejectors go low while moving, stopped, paused or after 18 ms |
| Controller.Controller.EjectorsLow | src/main.cpp:688-697 | both ejectors low while moving, stopped or paused, or once the stop is older than 18 ms |
| Controller.Controller.HandleCapInjection | src/main.cpp:700-726 | the cap pin and readiness become `CapStep` of the old ones |
| Controller.Controller.HandleBulbSystem | src/main.cpp:434-561 | the bulb state becomes `BulbStep` of the old one |
| Controller.Controller.BulbMotorEdges | src/main.cpp:448-465 | the bulb state becomes `BulbEdges` of the old one |
| Controller.Controller.RunPreloader | src/main.cpp:474-505 | the bulb state becomes `Preloader` of the old one |
| Controller.Controller.FirePreloader | src/main.cpp:474-490 | the bulb state becomes `PreloadFire` of the old one |
| Controller.Controller.RetractPreloader | src/main.cpp:493-505 | the bulb state becomes `PreloadRetract` of the old one |
| Controller.Controller.RunBulbRam | src/main.cpp:513-560 | the bulb state becomes `BulbRam` of the old one |
| Controller.Controller.ExtendBulbRam | src/main.cpp:515-541 | the bulb state becomes `BulbRamExtend` of the old one |
| Controller.Controller.RetractBulbRam | src/main.cpp:542-553 | the bulb state becomes `BulbRamRetract` of the old one |
| Controller.Controller.HandlePipetSystem | src/main.cpp:311-408 | the pipette state becomes `PipetStep` of the old one |
| Controller.Controller.CyclePipet | src/main.cpp:336-406 | the pipette state becomes `PipetCycle` of the old one |
| Controller.Controller.PipetAtRest | src/main.cpp:370-400 | the pipette state becomes `PipetDwell` of the old one |
| Controller.Controller.StepMotor | src/main.cpp:772-865 | while moving: one `MovingStep` with the clamped profile delay and, on completion, the advance of the origin and slots; while idle: the supply profile, an honoured pause request, or the start decision |
| Controller.Controller.StepWhileMoving | src/main.cpp:796-828 | the moving branch: the motor becomes `MovingStep`, and the carousel advances exactly when the move completes |
| Controller.Controller.CompleteMove | src/main.cpp:809-821 | the motor stops, the origin advances by one, the slots are re-placed, the tracker is due and four subsystems become not ready |
| Controller.Controller.StepWhileIdle | src/main.cpp:830-864 | the idle branch: the supply profile, then a pending pause, or a start when the interlock, the dwell and the ram-home sensor allow it |
| Controller.Controller.SystemNotReadyTimeout | src/main.cpp:1004-1041 | the watchdog follows `WatchdogStep`; a firing pauses with the stall flag set; the flag clears once ready |
| Controller.Controller.HandleLowAirPressure | src/main.cpp:1043-1055 | low pressure recorded when the sensor reads LOW, which pauses the machine and drives both ejectors low |
| Controller.Controller.StartPressed | src/main.cpp:933-940 | `start` runs and both pending requests are dropped |
| Controller.Controller.PausePressed | src/main.cpp:942-948 | a pause is requested unless stopped or already paused |
| Controller.Controller.FinishPressed | src/main.cpp:950-959 | a finish is requested unless stopped |
| Controller.Controller.EmptySlots | src/main.cpp:867-914 | outside production the carousel is emptied and the machine ends stopped and needing homing; in production nothing changes |
| Controller.Controller.HomeMachine | src/main.cpp:728-768 | the origin is 0 and the motor starts; an abort stops the machine, a found home enters production |

## Left out

- The Nextion display, `updateStatus` strings and the caution log (include/MachineState.h:184-359) are output formatting only.
- Pin setup and `handleSupplyAlert` (src/main.cpp:295-309) only drive indicator lights and the buzzer.
- Button debouncing and edge detection in `handleButtons` are left out. A press is a call of `StartPressed`, `PausePressed` or `FinishPressed`, and a held empty-slots button is a call of `EmptySlots`.
- Controller.Controller.StepMotor: the floating-point `pow` curve of the step delay becomes the `curve` parameter, and the float-to-unsigned truncation is folded into it. Only the clamp and the leg selection are modelled.
- Timing.Reached: the float percentage comparisons become exact integer comparisons, which can differ from float rounding at a boundary.
- `motorPauseTime` and the display gating in `loop()` only feed the display.
- Controller.Controller.HomeMachine: the busy-wait loop of `homeMachine` is modelled by its outcome parameters. The timing of its pulses is not modelled.
- Controller.Controller.EmptySlots: the pulse loop of `emptySlots` is modelled by its outcome. Its delays are not modelled.
- `updatePauseAfterFromPot` (src/main.cpp:971-1002) reads the potentiometer. The dwell length is a parameter `pauseAfter`, any `u32`; the program keeps it within [90000, 400000] microseconds (src/main.cpp:993-994), so every property is proved for a wider range than occurs.
- Slot.NewSlot: the body of the `SlotObject(int)` constructor is not part of the sources. The model assumes all flags start false and the position starts at 0.
- Machine.MachineState.IncrementPositionsMoved: the C++ `int` counters never wrap in the model, because 2^31 advances are out of reach.
- Write-only statics (`motorStartTime`, `ramRetracted`, `preloadPulseStart`, `puasedStateProcessing`) are left out because nothing reads them. `currentPipetState` only mirrors the twister-homed static.
- The composition in `loop()` (src/main.cpp:1131-1174) is not a single Dafny step. Each handler it calls is a method, and their order is not modelled.
- `resetPositionsMoved` and `finishProduction` (include/MachineState.h:59-61, 118-120), the unused state enums, the `test` variable written for position 4 and the empty `if` at src/main.cpp:507-510 are dead code.
- Machine.MachineState.GetCompletedDropperCnt and Machine.MachineState.GetErrorDropperCnt are plain getters. They have no contract.
