/** The control loop of `src/main.cpp`: the global slot array, the station ids, the motor
    state and the `static` locals of each handler as fields of one controller object.
    Each method is one call of the function of the same name; the clock is passed in as
    a `u32` time stamp and the sensors as one `Inputs` sample. */
module Controller {
  import opened Io
  import opened Slot
  import opened Carousel
  import opened Machine
  import opened Defects
  import opened Timing
  import opened Tracker
  import opened Schedulers
  import opened Motion

  /** `handleLowSupplies`: some supply sensor reports its supply low (HIGH). The cap sensor
      is read first, then the bulb sensor, then the pipette sensor. */
  function HandleLowSupplies(inp: Inputs): (low: bool)
    ensures low <==> inp.capSupplySensor || inp.bulbSupplySensor || inp.pipetSupplySensor
  {
    if inp.capSupplySensor then true
    else if inp.bulbSupplySensor then true
    else inp.pipetSupplySensor
  }

  /** The motion profile `stepMotor` selects while idle. */
  function ProfileFor(low: bool): (p: Profile)
    ensures ProfileOk(p)
    ensures low ==> p.minStepDelay == 16 * NOMINAL.minStepDelay && p.maxStepDelay == 16 * NOMINAL.maxStepDelay &&
                    p.accelSteps == 16 * NOMINAL.accelSteps && p.decelSteps == 16 * NOMINAL.decelSteps
    ensures !low ==> p == Profile(31, 616, 46, 15)
  {
    if low then SLOW else NOMINAL
  }

  class Controller {
    const machine: MachineState
    const out: Outputs
    /** `SlotObject slots[16]`; element `i` is the slot with id `i`. */
    const slots: array<SlotObject>

    /** The origin the slot positions were last computed from. `homeMachine` resets
        `currentHomePosition` without recomputing positions, so the two can differ. */
    ghost var layout: nat

    /** The `slotId*` globals. */
    var ids: StationIds

    // Motor state
    var isMoving: bool
    var stepHigh: bool
    var stepsTaken: int
    var lastStepTime: u32
    var pauseStartTime: u32
    /** `MIN_STEP_DELAY`, `MAX_STEP_DELAY`, `ACCEL_STEPS`, `DECEL_STEPS`. */
    var profile: Profile
    var currentHomePosition: int
    var shouldRunTracker: bool

    // Operator requests
    var pauseRequested: bool
    var finishProdRequested: bool

    // `static` locals of machineTracker
    var trackerLastMotor: bool
    var trackerStopTime: u32

    // `static` locals of handleBulbSystem
    var bulbLastMotor: bool
    var bulbStopTime: u32
    var ramExtended: bool
    var preloadArmed: bool
    var preloadFiredThisStop: bool

    // `static` locals of handlePipetSystem (`currentPipetState` only mirrors homing)
    var pipetLastMotor: bool
    var pipetStopTime: u32
    var pipetHomingComplete: bool

    // `static` locals of systemNotReadyTimeout
    var tracking: bool
    var notReadySince: u32

    /** The slot array holds slots 0..15 in id order, laid out from `layout`; the station ids
        index valid slots; a move is short of its 200 pulses; the profile is one of the two. */
    ghost predicate Valid()
      reads this, slots
    {
      Indexed() && Numbered(slots[..]) && layout < SLOT_COUNT && LaidOut(slots[..], layout) &&
      0 <= currentHomePosition < SLOT_COUNT && 0 <= stepsTaken < TOTAL_STEPS && ProfileOk(profile)
    }

    /** The slot array has its 16 elements and every station id indexes it. */
    ghost predicate Indexed()
      reads this`ids
    {
      slots.Length == SLOT_COUNT && IdsInRange(ids)
    }

    /** The part of the state a tracker run changes. */
    ghost function TrackedState(): TrackerState
      reads slots, machine`totalErroredDroppers, machine`totalDroppersComplete
      reads machine`hasConsecutiveCapErrors, machine`hasConsecutivePipetErrors, machine`hasConsecutiveBulbErrors
      reads machine`isPaused, machine`inProduction, out`junkEjector, out`dropperEject
    {
      TrackerState(slots[..], machine.totalErroredDroppers, machine.totalDroppersComplete,
        machine.hasConsecutiveCapErrors, machine.hasConsecutivePipetErrors, machine.hasConsecutiveBulbErrors,
        machine.isPaused, machine.inProduction, out.junkEjector, out.dropperEject)
    }

    /** The part of the state a tracker run reads and leaves alone. */
    ghost function Context(): TrackerContext
      reads this`ids, this`finishProdRequested, machine`positionsMoved, machine`isStopped
    {
      TrackerContext(ids, machine.positionsMoved, finishProdRequested, machine.isStopped)
    }

    /** The globals at power-on followed by `setup`, whose last act is `updateSlotPositions`.
        The slots come from the `SlotObject(0)` .. `SlotObject(15)` initialisers; the station
        ids are zero-initialised globals. */
    constructor ()
      ensures Valid() && fresh(machine) && fresh(out) && fresh(slots)
      ensures slots[..] == Placed(seq(SLOT_COUNT, i => NewSlot(i)), 0) && layout == 0
      ensures machine.isStopped && !machine.isPaused && !machine.inProduction && machine.needsHoming
      ensures machine.positionsMoved == 1 && machine.totalDroppersComplete == 0 && machine.totalErroredDroppers == 0
      ensures machine.bulbSystemReady && machine.dropperSystemReady && machine.capInjectionReady
      ensures machine.bulbPreLoadReady && machine.pipetSystemReady
      ensures !isMoving && !stepHigh && stepsTaken == 0 && currentHomePosition == 0 && profile == NOMINAL
      ensures shouldRunTracker && !pauseRequested && !finishProdRequested
      ensures !preloadArmed && !preloadFiredThisStop && !ramExtended && !pipetHomingComplete && !tracking
      ensures !out.step && !out.pipetTwister && !out.pipetRam && !out.bulbRam
      ensures !out.bulbPreLoadCylinder && !out.capInject && !out.junkEjector && !out.dropperEject
    {
      machine := new MachineState();
      out := new Outputs();
      slots := new SlotObject[SLOT_COUNT](i => NewSlot(i));
      layout := 0;
      ids := StationIds(0, 0, 0, 0, 0, 0, 0, 0, 0, 0, 0);
      isMoving, stepHigh, stepsTaken := false, false, 0;
      lastStepTime, pauseStartTime := 0, 0;
      profile := NOMINAL;
      currentHomePosition := 0;
      shouldRunTracker := true;
      pauseRequested, finishProdRequested := false, false;
      trackerLastMotor, trackerStopTime := false, 0;
      bulbLastMotor, bulbStopTime := false, 0;
      ramExtended, preloadArmed, preloadFiredThisStop := false, false, false;
      pipetLastMotor, pipetStopTime, pipetHomingComplete := false, 0, false;
      tracking, notReadySince := false, 0;
      new;
      assert slots[..] == seq(SLOT_COUNT, i => NewSlot(i));
      UpdateSlotPositions();
    }

    // -------------------------------------------------------------------------
    // Slot bookkeeping

    /** `updateSlotPositions`: every slot moves to `(currentHomePosition + id) % 16`, which
        lays the carousel out from the current origin, and one more advance is counted. */
    method UpdateSlotPositions()
      requires slots.Length == SLOT_COUNT && Numbered(slots[..]) && 0 <= currentHomePosition < SLOT_COUNT
      modifies slots, this`layout, machine`positionsMoved
      ensures slots[..] == Placed(old(slots[..]), currentHomePosition)
      ensures layout == currentHomePosition && LaidOut(slots[..], layout) && Numbered(slots[..])
      ensures machine.positionsMoved == old(machine.positionsMoved) + 1
    {
      ghost var v := slots[..];
      for i := 0 to SLOT_COUNT
        invariant forall j :: 0 <= j < i ==> slots[j] == Placed(v, currentHomePosition)[j]
        invariant forall j :: i <= j < SLOT_COUNT ==> slots[j] == v[j]
        invariant unchanged(machine) && layout == old(layout)
      {
        var relativePos := (currentHomePosition + slots[i].GetId()) % SLOT_COUNT;
        slots[i] := slots[i].SetPosition(relativePos);
      }
      assert slots[..] == Placed(v, currentHomePosition);
      layout := currentHomePosition;
      machine.IncrementPositionsMoved();
    }

    /** `setSlotIdByPosition`: the slots are visited in index order and each station takes
        the id of the slot standing at its position; with the slots laid out, every station
        ends up naming the unique slot there. */
    method SetSlotIdByPosition()
      requires Valid()
      modifies this`ids
      ensures Valid()
      ensures ids == AssignAll(old(ids), slots[..])
      ensures ids == StationsFor(layout)
    {
      ghost var before := ids;
      for i := 0 to SLOT_COUNT
        invariant ids == AssignAll(before, slots[..i])
      {
        assert slots[..i + 1][..i] == slots[..i];
        ids := AssignAt(ids, slots[i].GetPosition(), slots[i].GetId());
      }
      assert slots[..SLOT_COUNT] == slots[..];
      AssignAllGivesStationsFor(before, slots[..], layout);
    }

    /** `setSlotErrors`: every slot with a junk, missing-bulb or missing-cap fault is
        marked errored; no error is ever cleared. */
    method SetSlotErrors()
      requires Valid()
      modifies slots
      ensures Valid()
      ensures slots[..] == MarkErrors(old(slots[..]))
      ensures TrackedState() == ErrorsMarked(old(TrackedState()))
    {
      ghost var v := slots[..];
      for i := 0 to SLOT_COUNT
        invariant forall j :: 0 <= j < i ==> slots[j] == MarkErrors(v)[j]
        invariant forall j :: i <= j < SLOT_COUNT ==> slots[j] == v[j]
      {
        if slots[i].HasJunk() || slots[i].HasMissingBulb() || slots[i].HasMissingCap() {
          slots[i] := slots[i].SetError(true);
        }
      }
      assert slots[..] == MarkErrors(v);
      MarkErrorsKeepsPlaces(v);
      SamePlacesKeepLayout(v, slots[..], layout);
    }

    /** One clearing block of `hasConsecutiveErrors`: fault `f` cleared in the triple at `i`
        (`setMissingCap(false)`, `setJunk(false)` or `setMissingBulb(false)` on each of them). */
    method ClearTriple(i: int, f: Fault)
      requires slots.Length == SLOT_COUNT && 0 <= i < SLOT_COUNT
      modifies slots
      ensures slots[..] == ClearIf(old(slots[..]), i, f, true)
    {
      var i1, i2 := (i + 1) % SLOT_COUNT, (i + 2) % SLOT_COUNT;
      Neighbours(i);
      slots[i] := Cleared(slots[i], f);
      slots[i1] := Cleared(slots[i1], f);
      slots[i2] := Cleared(slots[i2], f);
    }

    /** The last block of `hasConsecutiveErrors`: the triple at `i` errored. */
    method ErrorTriple(i: int)
      requires slots.Length == SLOT_COUNT && 0 <= i < SLOT_COUNT
      modifies slots
      ensures slots[..] == ErrorAt(old(slots[..]), i)
    {
      var i1, i2 := (i + 1) % SLOT_COUNT, (i + 2) % SLOT_COUNT;
      Neighbours(i);
      slots[i] := slots[i].SetError(true);
      slots[i1] := slots[i1].SetError(true);
      slots[i2] := slots[i2].SetError(true);
    }

    /** The body of the match branch of `hasConsecutiveErrors`: the matched kinds cleared in
        the triple at `i`, each raising its machine flag, then the three slots errored. */
    method ContainTriple(i: int, threeMissingCaps: bool, threeMissingPipets: bool, threeMissingBulbs: bool)
      requires Valid() && 0 <= i < SLOT_COUNT && FirstOutbreak(slots[..]) == Some(i)
      requires threeMissingCaps == TripleAt(slots[..], i, MissingCap)
      requires threeMissingPipets == TripleAt(slots[..], i, Junk)
      requires threeMissingBulbs == TripleAt(slots[..], i, MissingBulb)
      modifies slots, machine`hasConsecutiveCapErrors, machine`hasConsecutivePipetErrors, machine`hasConsecutiveBulbErrors
      ensures Valid() && slots[..] == ContainAt(old(slots[..]), i) == Scan(old(slots[..]))
      ensures machine.hasConsecutiveCapErrors == (old(machine.hasConsecutiveCapErrors) || threeMissingCaps)
      ensures machine.hasConsecutivePipetErrors == (old(machine.hasConsecutivePipetErrors) || threeMissingPipets)
      ensures machine.hasConsecutiveBulbErrors == (old(machine.hasConsecutiveBulbErrors) || threeMissingBulbs)
    {
      ghost var v := slots[..];
      if threeMissingCaps {
        ClearTriple(i, MissingCap);
        machine.hasConsecutiveCapErrors := true;
      }
      assert slots[..] == ClearIf(v, i, MissingCap, threeMissingCaps);
      if threeMissingPipets {
        ClearTriple(i, Junk);
        machine.hasConsecutivePipetErrors := true;
      }
      assert slots[..] == ClearIf(ClearIf(v, i, MissingCap, threeMissingCaps), i, Junk, threeMissingPipets);
      if threeMissingBulbs {
        ClearTriple(i, MissingBulb);
        machine.hasConsecutiveBulbErrors := true;
      }
      ErrorTriple(i);
      ContainAtInBlocks(v, i);
      ScanKeepsPlaces(v);
      SamePlacesKeepLayout(v, slots[..], layout);
    }

    /** `hasConsecutiveErrors`: finds the first starting index whose cyclic triple shares a
        missing cap, junk or a missing bulb, contains that triple and raises the machine flag
        of every kind found there; with no such triple all three flags are cleared. */
    method HasConsecutiveErrors() returns (found: bool)
      requires Valid()
      modifies slots, machine`hasConsecutiveCapErrors, machine`hasConsecutivePipetErrors, machine`hasConsecutiveBulbErrors
      ensures Valid()
      ensures slots[..] == Scan(old(slots[..]))
      ensures found <==> FirstOutbreak(old(slots[..])).Some?
      ensures ScanFlags(old(slots[..]),
        old(machine.hasConsecutiveCapErrors), old(machine.hasConsecutivePipetErrors), old(machine.hasConsecutiveBulbErrors),
        machine.hasConsecutiveCapErrors, machine.hasConsecutivePipetErrors, machine.hasConsecutiveBulbErrors)
    {
      ghost var v := slots[..];
      var i := 0;
      while i < SLOT_COUNT
        invariant 0 <= i <= SLOT_COUNT && slots[..] == v
        invariant forall j :: 0 <= j < i ==> !OutbreakAt(v, j)
        invariant unchanged(machine)
      {
        var i1, i2 := (i + 1) % SLOT_COUNT, (i + 2) % SLOT_COUNT;
        var threeMissingCaps := slots[i].HasMissingCap() && slots[i1].HasMissingCap() && slots[i2].HasMissingCap();
        var threeMissingPipets := slots[i].HasJunk() && slots[i1].HasJunk() && slots[i2].HasJunk();
        var threeMissingBulbs := slots[i].HasMissingBulb() && slots[i1].HasMissingBulb() && slots[i2].HasMissingBulb();
        if threeMissingCaps || threeMissingPipets || threeMissingBulbs {
          assert OutbreakAt(v, i);
          FirstOutbreakIsFirstMatch(v, i);
          ContainTriple(i, threeMissingCaps, threeMissingPipets, threeMissingBulbs);
          return true;
        }
        i := i + 1;
      }
      ScanWithoutOutbreakIsIdentity(v);
      machine.hasConsecutiveBulbErrors := false;
      machine.hasConsecutiveCapErrors := false;
      machine.hasConsecutivePipetErrors := false;
      assert slots[..] == v;
      return false;
    }
  
    // -------------------------------------------------------------------------
    // machineTracker

    /** One confirm station of `machineTracker` with the slot `k` standing there: fault `f`
        is set if the station `sees` it and the slot is neither finished nor errored, and
        cleared otherwise. */
    method ConfirmStation(k: int, f: Fault, sees: bool)
      requires slots.Length == SLOT_COUNT && 0 <= k < SLOT_COUNT
      modifies slots
      ensures slots[..] == Confirm(old(slots[..]), k, f, sees)
    {
      if sees && !slots[k].ShouldFinishProduction() && !slots[k].HasError() {
        slots[k] := WithFault(slots[k], f, true);
      } else {
        slots[k] := WithFault(slots[k], f, false);
      }
    }

    /** The confirm-station block of `machineTracker`: the finish request marks the slot at
        the failed-eject station, then the pipette, bulb and cap confirm stations give their
        verdicts on the slots standing there, each once its startup gate is open. */
    method ClassifyConfirmStations(inp: Inputs, ghost c: TrackerContext)
      requires Valid() && c == Context()
      modifies slots
      ensures Valid()
      ensures TrackedState() == Confirmed(old(TrackedState()), c, inp)
    {
      ghost var v := slots[..];
      ConfirmSlots(inp);
      ClassifyConfirmsKeepsPlaces(v, ids, inp, machine.positionsMoved, finishProdRequested);
      SamePlacesKeepLayout(v, slots[..], layout);
    }

    /** The slot updates of the confirm-station block. */
    method ConfirmSlots(inp: Inputs)
      requires Indexed()
      modifies slots
      ensures slots[..] == ClassifyConfirms(old(slots[..]), ids, inp, machine.positionsMoved, finishProdRequested)
    {
      ghost var v := slots[..];
      if finishProdRequested {
        var fe := ids.failedJunkEject;
        slots[fe] := slots[fe].SetFinishProduction(true);
      }
      assert slots[..] == MarkFinish(v, ids.failedJunkEject, finishProdRequested);
      ConfirmStation(ids.pipetConfirm, Junk, inp.pipetTipSensor && machine.CanPipetConfirmStart());
      ConfirmStation(ids.bulbInCapConfirm, MissingBulb, !inp.bulbInCapSensor && machine.CanBulbConfirmStart());
      ConfirmStation(ids.capInWheelConfirm, MissingCap, !inp.capInWheel && machine.CanCapConfirmStart());
    }

    /** The empty check of `machineTracker` at the eject-confirm station: a slot the sensor
        sees occupied is marked as a failed eject, a slot seen empty loses every fault and its
        error, and nothing happens before the check's startup gate opens. */
    method CheckForEmpty(inp: Inputs, ghost c: TrackerContext)
      requires Valid() && c == Context()
      modifies slots
      ensures Valid()
      ensures slots[..] == CheckEmpty(old(slots[..]), ids.junkConfirm, inp, machine.positionsMoved)
      ensures TrackedState() == EmptyChecked(old(TrackedState()), c, inp)
    {
      ghost var v := slots[..];
      var jc := ids.junkConfirm;
      if machine.CanCheckForEmptyStart() && inp.slotEmptySensor {
        slots[jc] := slots[jc].SetFailedJunkEject(true);
      } else if machine.CanCheckForEmptyStart() && !inp.slotEmptySensor {
        slots[jc] := slots[jc].SetFailedJunkEject(false);
        slots[jc] := slots[jc].SetJunk(false);
        slots[jc] := slots[jc].SetMissingBulb(false);
        slots[jc] := slots[jc].SetMissingCap(false);
        slots[jc] := slots[jc].SetError(false);
      }
      assert slots[..] == CheckEmpty(v, jc, inp, machine.positionsMoved);
      CheckEmptyKeepsPlaces(v, jc, inp, machine.positionsMoved);
      SamePlacesKeepLayout(v, slots[..], layout);
    }

    /** The ejector block of `machineTracker`: at the junk station an errored slot is
        counted and the junk ejector started; at the dropper station a slot neither errored
        nor finished is counted as completed and ejected. Each station acts only once its
        startup gate is open, and each pulse starts only within 18 ms of the stop. */
    method StartEjectors(stopDuration: u32, ghost c: TrackerContext)
      requires Indexed() && !isMoving && c == Context()
      modifies machine`totalErroredDroppers, machine`totalDroppersComplete, out`junkEjector, out`dropperEject
      ensures TrackedState() == Ejected(old(TrackedState()), c, stopDuration)
    {
      var junk, done := slots[ids.junkEjection], slots[ids.dropperEjection];
      if machine.CanJunkEjectionStart() {
        if stopDuration < EJECT_WINDOW_US && !isMoving {
          out.junkEjector := true;
        }
        if junk.HasError() {
          machine.IncrementErroredDroppers();
        }
      }
      if machine.CanDropperEjectionStart() && !done.HasError() && !done.ShouldFinishProduction() {
        machine.IncrementDroppersCompleted();
        if stopDuration < EJECT_WINDOW_US && !isMoving {
          out.dropperEject := true;
        }
      }
    }

    /** The pauses that end a tracker run: one after an outbreak (`found`), one for a failed
        junk eject at the failed-eject station, one for a finished slot at the junk station. */
    method HaltOn(found: bool, ghost c: TrackerContext)
      requires Indexed() && c == Context()
      modifies machine`isPaused, machine`inProduction, out`junkEjector, out`dropperEject
      ensures TrackedState() == Halted(old(TrackedState()), c, found)
    {
      var failed, junk := slots[ids.failedJunkEject], slots[ids.junkEjection];
      ghost var t0 := TrackedState();
      if found {
        machine.Pause(out);
      }
      assert TrackedState() == if found then PausedState(t0, c.stopped) else t0;
      if failed.HasFailedJunkEject() {
        machine.Pause(out);
      }
      assert TrackedState() == if found || failed.failedJunkEject then PausedState(t0, c.stopped) else t0;
      if junk.ShouldFinishProduction() {
        machine.Pause(out);
      }
    }

    /** The block of `machineTracker` that runs once per stop. */
    method RunTracker(inp: Inputs, stopDuration: u32, ghost c: TrackerContext)
      requires Valid() && !isMoving && c == Context()
      modifies this`shouldRunTracker, slots
      modifies machine`hasConsecutiveCapErrors, machine`hasConsecutivePipetErrors, machine`hasConsecutiveBulbErrors
      modifies machine`totalErroredDroppers, machine`totalDroppersComplete, machine`isPaused, machine`inProduction
      modifies out`junkEjector, out`dropperEject
      ensures Valid() && !shouldRunTracker
      ensures TrackedState() == Run(old(TrackedState()), c, inp, stopDuration)
    {
      shouldRunTracker := false;
      ClassifyAndEject(inp, stopDuration, c);
      MarkScanAndHalt(c);
    }

    /** The first half of a tracker run: the confirm stations, the ejectors, the empty check. */
    method ClassifyAndEject(inp: Inputs, stopDuration: u32, ghost c: TrackerContext)
      requires Valid() && !isMoving && c == Context()
      modifies slots, machine`totalErroredDroppers, machine`totalDroppersComplete, out`junkEjector, out`dropperEject
      ensures Valid()
      ensures TrackedState() == EmptyChecked(Ejected(Confirmed(old(TrackedState()), c, inp), c, stopDuration), c, inp)
    {
      ClassifyConfirmStations(inp, c);
      StartEjectors(stopDuration, c);
      CheckForEmpty(inp, c);
    }

    /** The second half: `setSlotErrors`, the outbreak scan and the pauses. */
    method MarkScanAndHalt(ghost c: TrackerContext)
      requires Valid() && c == Context()
      modifies slots, machine`hasConsecutiveCapErrors, machine`hasConsecutivePipetErrors, machine`hasConsecutiveBulbErrors
      modifies machine`isPaused, machine`inProduction, out`junkEjector, out`dropperEject
      ensures Valid()
      ensures var m := ErrorsMarked(old(TrackedState()));
        TrackedState() == Halted(Scanned(m), c, FirstOutbreak(m.slots).Some?)
    {
      var found := MarkAndScan();
      HaltOn(found, c);
    }

    /** `setSlotErrors` followed by the outbreak scan; reports whether an outbreak was found. */
    method MarkAndScan() returns (found: bool)
      requires Valid()
      modifies slots, machine`hasConsecutiveCapErrors, machine`hasConsecutivePipetErrors, machine`hasConsecutiveBulbErrors
      ensures Valid()
      ensures var m := ErrorsMarked(old(TrackedState()));
        TrackedState() == Scanned(m) && (found <==> FirstOutbreak(m.slots).Some?)
    {
      SetSlotErrors();
      ghost var m := TrackedState();
      found := HasConsecutiveErrors();
      ScannedFromFlags(m, TrackedState());
    }

    /** `machineTracker`. The stop time is taken on the moving-to-idle edge. Once per stop
        (while idle with `shouldRunTracker` set, which the move's completion sets) it runs
        the tracker block. Both ejectors are then driven low while moving, stopped or
        paused, and once the stop is more than 18 ms old. */
    method MachineTracker(inp: Inputs, now: u32)
      requires Valid()
      modifies this`trackerLastMotor, this`trackerStopTime, this`shouldRunTracker, slots
      modifies machine`hasConsecutiveCapErrors, machine`hasConsecutivePipetErrors, machine`hasConsecutiveBulbErrors
      modifies machine`totalErroredDroppers, machine`totalDroppersComplete, machine`isPaused, machine`inProduction
      modifies out`junkEjector, out`dropperEject
      ensures Valid()
      ensures trackerLastMotor == isMoving
      ensures trackerStopTime == if old(trackerLastMotor) && !isMoving then now else old(trackerStopTime)
      ensures shouldRunTracker == (old(shouldRunTracker) && isMoving)
      ensures var stop := Elapsed(now, trackerStopTime);
        var mid := if !isMoving && old(shouldRunTracker) then Run(old(TrackedState()), old(Context()), inp, stop)
                   else old(TrackedState());
        TrackedState() == EjectorsOff(mid, isMoving || machine.isStopped || mid.paused || stop > EJECT_WINDOW_US)
    {
      if trackerLastMotor && !isMoving {
        trackerStopTime := now;
      }
      trackerLastMotor := isMoving;
      var stopDuration := Elapsed(now, trackerStopTime);

      ghost var t0, c0 := TrackedState(), Context();
      if !isMoving && shouldRunTracker {
        RunTracker(inp, stopDuration, c0);
      }
      ghost var mid := TrackedState();
      assert mid == if !isMoving && old(shouldRunTracker) then Run(t0, c0, inp, stopDuration) else t0;
      assert machine.isPaused == mid.paused;

      EjectorsLow(stopDuration);
    }

    /** The tail of `machineTracker`: both ejectors driven low while moving, stopped or
        paused, and once the stop is more than 18 ms old. */
    method EjectorsLow(stopDuration: u32)
      modifies out`junkEjector, out`dropperEject
      ensures TrackedState() ==
        EjectorsOff(old(TrackedState()), isMoving || machine.isStopped || machine.isPaused || stopDuration > EJECT_WINDOW_US)
    {
      if isMoving || machine.isStopped || machine.isPaused {
        out.junkEjector := false;
        out.dropperEject := false;
      }
      if stopDuration > EJECT_WINDOW_US {
        out.junkEjector := false;
        out.dropperEject := false;
      }
    }
      // -------------------------------------------------------------------------
    // The dwell-window schedulers

    /** `handleCapInjection`: the cap-inject pin follows production and the slot at the
        failed-eject station; the subsystem is ready once idle with a cap at position or
        for an errored or finished slot, and never while moving. */
    method HandleCapInjection(inp: Inputs)
      requires Indexed()
      modifies out`capInject, machine`capInjectionReady
      ensures Cap(out.capInject, machine.capInjectionReady) ==
        CapStep(old(machine.capInjectionReady), machine.inProduction, Inert(slots[ids.failedJunkEject]),
                isMoving, inp.capPositionSensor)
    {
      var inert := Inert(slots[ids.failedJunkEject]);
      if machine.inProduction && !inert {
        out.capInject := true;
      } else {
        out.capInject := false;
      }
      if !isMoving && inp.capPositionSensor {
        machine.capInjectionReady := true;
      }
      if inert {
        machine.capInjectionReady := true;
      }
      if isMoving {
        machine.capInjectionReady := false;
      }
    }

    /** The state `handleBulbSystem` changes. */
    ghost function BulbOf(): Bulb
      reads this`bulbLastMotor, this`preloadArmed, this`preloadFiredThisStop, this`bulbStopTime, this`ramExtended
      reads machine`bulbSystemReady, machine`bulbPreLoadReady, machine`bulbPresent, out`bulbPreLoadCylinder, out`bulbRam
    {
      Bulb(Preload(bulbLastMotor, preloadArmed, preloadFiredThisStop), bulbStopTime, ramExtended,
           machine.bulbSystemReady, machine.bulbPreLoadReady, machine.bulbPresent, out.bulbPreLoadCylinder, out.bulbRam)
    }

    /** What `handleBulbSystem` reads besides its own state. */
    ghost function BulbViewOf(): BulbView
      requires Indexed()
      reads this`isMoving, this`ids, slots, machine`inProduction, machine`positionsMoved
    {
      BulbView(isMoving, machine.inProduction, machine.positionsMoved,
               Inert(slots[ids.bulbPreLoad]), Inert(slots[ids.bulbInjection]))
    }

    /** `handleBulbSystem`: the motor edges, the one-shot preloader and the bulb ram. */
    method HandleBulbSystem(inp: Inputs, now: u32, pauseAfter: u32)
      requires Indexed()
      modifies this`bulbLastMotor, this`bulbStopTime, this`ramExtended, this`preloadArmed, this`preloadFiredThisStop
      modifies machine`bulbSystemReady, machine`bulbPreLoadReady, machine`bulbPresent
      modifies out`bulbPreLoadCylinder, out`bulbRam
      ensures BulbOf() == BulbStep(old(BulbOf()), BulbViewOf(), inp, now, pauseAfter)
    {
      ghost var v := BulbViewOf();
      BulbMotorEdges(now);
      var stopDuration := Elapsed(now, bulbStopTime);
      RunPreloader(inp, stopDuration, pauseAfter, v);
      RunBulbRam(inp, stopDuration, pauseAfter, v);
    }

    /** The motor-edge block of `handleBulbSystem`. */
    method BulbMotorEdges(now: u32)
      modifies this`bulbLastMotor, this`bulbStopTime, this`preloadArmed, this`preloadFiredThisStop
      modifies machine`bulbSystemReady, machine`bulbPreLoadReady
      ensures BulbOf() == BulbEdges(old(BulbOf()), isMoving, now)
    {
      if bulbLastMotor && !isMoving {
        bulbStopTime := now;
        preloadArmed := true;
        preloadFiredThisStop := false;
      }
      if !bulbLastMotor && isMoving {
        machine.SetBulbSystemReady(false);
        machine.SetBulbPreLoadReady(false);
        preloadArmed := false;
      }
      bulbLastMotor := isMoving;
    }

    /** The preloader one-shot of `handleBulbSystem`, `stopDuration` into the dwell. */
    method RunPreloader(inp: Inputs, stopDuration: u32, pauseAfter: u32, ghost v: BulbView)
      requires Indexed() && v == BulbViewOf()
      modifies this`preloadFiredThisStop, machine`bulbPreLoadReady, out`bulbPreLoadCylinder
      ensures BulbOf() == Preloader(old(BulbOf()), v, inp, stopDuration, pauseAfter)
    {
      FirePreloader(inp, v);
      RetractPreloader(inp, stopDuration, pauseAfter);
    }

    /** The firing half of the preloader one-shot. */
    method FirePreloader(inp: Inputs, ghost v: BulbView)
      requires Indexed() && v == BulbViewOf()
      modifies this`preloadFiredThisStop, machine`bulbPreLoadReady, out`bulbPreLoadCylinder
      ensures BulbOf() == PreloadFire(old(BulbOf()), v, inp)
    {
      var inert := Inert(slots[ids.bulbPreLoad]);
      if !machine.CanPreLoadBulbProcessStart() {
        machine.SetBulbPreLoadReady(true);
      }
      if !isMoving && preloadArmed && !preloadFiredThisStop && machine.CanPreLoadBulbProcessStart() &&
         inp.bulbInPreLoadPosSensor {
        if machine.inProduction && !inert {
          out.bulbPreLoadCylinder := true;
        }
        preloadFiredThisStop := true;
      }
      if !isMoving && !inp.preLoadCylinderHomeSensor && inert {
        machine.SetBulbPreLoadReady(true);
      }
    }

    /** The fast retract of the preloader one-shot, `stopDuration` into the dwell. */
    method RetractPreloader(inp: Inputs, stopDuration: u32, pauseAfter: u32)
      modifies machine`bulbPreLoadReady, out`bulbPreLoadCylinder
      ensures BulbOf() == PreloadRetract(old(BulbOf()), inp, stopDuration, pauseAfter)
    {
      if preloadFiredThisStop {
        if Reached(stopDuration, pauseAfter, 95) {
          out.bulbPreLoadCylinder := false;
          if !inp.preLoadCylinderHomeSensor {
            machine.SetBulbPreLoadReady(true);
          }
        }
      }
    }

    /** The bulb-ram block of `handleBulbSystem`, `stopDuration` into the dwell. */
    method RunBulbRam(inp: Inputs, stopDuration: u32, pauseAfter: u32, ghost v: BulbView)
      requires Indexed() && v == BulbViewOf()
      modifies this`ramExtended, machine`bulbSystemReady, machine`bulbPresent, out`bulbRam
      ensures BulbOf() == BulbRam(old(BulbOf()), v, inp, stopDuration, pauseAfter)
    {
      if machine.CanBulbProcessStart() {
        if !isMoving {
          ExtendBulbRam(inp, stopDuration, pauseAfter, v);
          RetractBulbRam(inp, stopDuration, pauseAfter);
        }
      } else {
        machine.SetBulbSystemReady(true);
      }
    }

    /** The extend half of the bulb-ram block while idle. */
    method ExtendBulbRam(inp: Inputs, stopDuration: u32, pauseAfter: u32, ghost v: BulbView)
      requires Indexed() && v == BulbViewOf()
      modifies this`ramExtended, machine`bulbSystemReady, machine`bulbPresent, out`bulbRam
      ensures BulbOf() == BulbRamExtend(old(BulbOf()), v, inp, stopDuration, pauseAfter)
    {
      var inert := Inert(slots[ids.bulbInjection]);
      var inWindow := Reached(stopDuration, pauseAfter, 1) && !Reached(stopDuration, pauseAfter, 95);
      if inWindow && !out.bulbRam && inp.bulbInCapSensor {
        if !inert {
          out.bulbRam := true;
        }
        ramExtended := true;
      } else if inWindow && !out.bulbRam && !inp.bulbInCapSensor {
        machine.bulbPresent := false;
      }
      if inp.bulbRamHomeSensor && inert {
        machine.SetBulbSystemReady(true);
      }
    }

    /** The retract half of the bulb-ram block while idle. */
    method RetractBulbRam(inp: Inputs, stopDuration: u32, pauseAfter: u32)
      modifies this`ramExtended, machine`bulbSystemReady, out`bulbRam
      ensures BulbOf() == BulbRamRetract(old(BulbOf()), inp, stopDuration, pauseAfter)
    {
      if Reached(stopDuration, pauseAfter, 95) && out.bulbRam {
        out.bulbRam := false;
      }
      if ramExtended && inp.bulbRamHomeSensor && !out.bulbRam {
        machine.SetBulbSystemReady(true);
        ramExtended := false;
      }
    }

    /** The state `handlePipetSystem` changes. */
    ghost function PipetOf(): Pipet
      reads this`pipetHomingComplete, this`pipetLastMotor, this`pipetStopTime
      reads machine`pipetSystemReady, out`pipetTwister, out`pipetRam
    {
      Pipet(pipetHomingComplete, pipetLastMotor, pipetStopTime, machine.pipetSystemReady, out.pipetTwister, out.pipetRam)
    }

    /** `handlePipetSystem`: twister homing first; then the twister during the move and the
        ram during the dwell, for the slot at the pipette-injection station. */
    method HandlePipetSystem(inp: Inputs, now: u32, pauseAfter: u32)
      requires Indexed()
      modifies this`pipetHomingComplete, this`pipetLastMotor, this`pipetStopTime
      modifies machine`pipetSystemReady, out`pipetTwister, out`pipetRam
      ensures PipetOf() == PipetStep(old(PipetOf()), isMoving, machine.positionsMoved, Inert(slots[ids.pipetInjection]),
                                     stepsTaken, inp.pipetTwisterHomeSensor, now, pauseAfter)
    {
      var twisterAtHome := inp.pipetTwisterHomeSensor;
      if !pipetHomingComplete {
        if !twisterAtHome {
          out.pipetTwister := true;
        } else {
          out.pipetTwister := false;
          pipetHomingComplete := true;
        }
        return;
      }
      if pipetLastMotor && !isMoving {
        pipetStopTime := now;
      }
      pipetLastMotor := isMoving;
      CyclePipet(Inert(slots[ids.pipetInjection]), twisterAtHome, now, pauseAfter);
    }

    /** The homed part of `handlePipetSystem`, after the stop time has been taken; `inert` is
        whether the slot at the injection station is errored or finished. */
    method CyclePipet(inert: bool, twisterAtHome: bool, now: u32, pauseAfter: u32)
      modifies machine`pipetSystemReady, out`pipetTwister, out`pipetRam
      ensures PipetOf() == PipetCycle(old(PipetOf()), isMoving, machine.positionsMoved, inert,
                                      stepsTaken, twisterAtHome, now, pauseAfter)
    {
      if machine.CanPipetProcessStart() {
        if isMoving {
          if QuarterMoved(stepsTaken) {
            out.pipetTwister := true;
          }
          machine.SetPipetSystemReady(false);
        } else {
          PipetAtRest(inert, twisterAtHome, Elapsed(now, pipetStopTime), pauseAfter);
        }
        if inert {
          machine.SetPipetSystemReady(true);
        }
      } else {
        out.pipetTwister := true;
        machine.SetPipetSystemReady(true);
      }
    }

    /** The idle branch of `handlePipetSystem` with the gate open, `stopDuration` into the
        dwell; `inert` is whether the slot at the injection station is errored or finished. */
    method PipetAtRest(inert: bool, twisterAtHome: bool, stopDuration: u32, pauseAfter: u32)
      modifies machine`pipetSystemReady, out`pipetTwister, out`pipetRam
      ensures PipetOf() == PipetDwell(old(PipetOf()), inert, twisterAtHome, stopDuration, pauseAfter)
    {
      if Reached(stopDuration, pauseAfter, 1) && !Reached(stopDuration, pauseAfter, 90) && !out.pipetRam {
        if !inert {
          out.pipetRam := true;
        }
      }
      if Reached(stopDuration, pauseAfter, 90) {
        out.pipetRam := false;
        if twisterAtHome {
          machine.SetPipetSystemReady(true);
        }
      }
      if Reached(stopDuration, pauseAfter, 75) && out.pipetTwister && !inert {
        out.pipetTwister := false;
      }
    }

    // -------------------------------------------------------------------------
    // stepMotor

    /** The motor globals. */
    ghost function MotorOf(): Motor
      reads this`isMoving, this`stepHigh, this`stepsTaken, this`lastStepTime, this`pauseStartTime
    {
      Motor(isMoving, stepHigh, stepsTaken, lastStepTime, pauseStartTime)
    }

    /** `stepMotor`: one pulse edge while moving, the start decision while idle. The delay
        `curve` stands for the `pow` expression of each leg, computed in `float`. */
    method StepMotor(inp: Inputs, now: u32, pauseAfter: u32, curve: (Profile, Leg) -> int)
      requires Valid()
      modifies this`isMoving, this`stepHigh, this`stepsTaken, this`lastStepTime, this`pauseStartTime
      modifies this`currentHomePosition, this`shouldRunTracker, this`layout, slots, this`profile, this`pauseRequested
      modifies machine`positionsMoved, machine`bulbSystemReady, machine`dropperSystemReady, machine`pipetSystemReady
      modifies machine`bulbPreLoadReady, machine`isPaused, machine`inProduction
      modifies out`step, out`junkEjector, out`dropperEject
      ensures Valid()
      ensures old(isMoving) ==> profile == old(profile) && pauseRequested == old(pauseRequested)
      ensures old(isMoving) ==> machine.isPaused == old(machine.isPaused) && machine.inProduction == old(machine.inProduction)
      ensures old(isMoving) ==> out.junkEjector == old(out.junkEjector) && out.dropperEject == old(out.dropperEject)
      ensures old(isMoving) ==> var delay := StepDelay(profile, old(stepsTaken), curve);
        MotorOf() == MovingStep(old(MotorOf()), now, delay) &&
        out.step == (if Due(old(MotorOf()), now, delay) then !old(stepHigh) else old(out.step)) &&
        (Completes(old(MotorOf()), now, delay) ==> AdvancedFrom(old(currentHomePosition), old(slots[..]), old(machine.positionsMoved))) &&
        (!Completes(old(MotorOf()), now, delay) ==> StayedAt(old(currentHomePosition), old(slots[..]), old(layout), old(shouldRunTracker),
                                                            old(machine.positionsMoved), old(ReadinessOf())))
      ensures !old(isMoving) ==> StayedAt(old(currentHomePosition), old(slots[..]), old(layout), old(shouldRunTracker),
                                          old(machine.positionsMoved), old(ReadinessOf())) && out.step == old(out.step)
      ensures !old(isMoving) ==> profile == ProfileFor(HandleLowSupplies(inp)) && !pauseRequested
      ensures !old(isMoving) && old(pauseRequested) ==>
        MotorOf() == old(MotorOf()) && !out.junkEjector && !out.dropperEject &&
        (!machine.isStopped ==> machine.isPaused && !machine.inProduction) &&
        (machine.isStopped ==> machine.isPaused == old(machine.isPaused) && machine.inProduction == old(machine.inProduction))
      ensures !old(isMoving) && !old(pauseRequested) ==>
        machine.isPaused == old(machine.isPaused) && machine.inProduction == old(machine.inProduction) &&
        out.junkEjector == old(out.junkEjector) && out.dropperEject == old(out.dropperEject) &&
        MotorOf() == if StartsMoving(old(machine.IsReadyToMove()), old(MotorOf()), now, pauseAfter, inp.bulbRamHomeSensor, out.bulbRam)
                     then old(MotorOf()).(moving := true, lastStepTime := now) else old(MotorOf())
    {
      if isMoving {
        StepWhileMoving(now, curve);
      } else {
        StepWhileIdle(inp, now, pauseAfter);
      }
    }

    /** The four readiness flags a completed move resets. */
    ghost function ReadinessOf(): (bool, bool, bool, bool)
      reads machine`bulbSystemReady, machine`dropperSystemReady, machine`pipetSystemReady, machine`bulbPreLoadReady
    {
      (machine.bulbSystemReady, machine.dropperSystemReady, machine.pipetSystemReady, machine.bulbPreLoadReady)
    }

    /** The state left by a completed move: the tracker is due, the origin has advanced by
        one, the slots are laid out from it, one more advance is counted and the pneumatic
        subsystems are not ready. */
    ghost predicate AdvancedFrom(home: nat, v: seq<SlotObject>, moved: int)
      requires Numbered(v)
      reads this, slots, machine`positionsMoved, machine`bulbSystemReady, machine`dropperSystemReady
      reads machine`pipetSystemReady, machine`bulbPreLoadReady
    {
      shouldRunTracker && currentHomePosition == Advance(home) && slots[..] == Placed(v, currentHomePosition) &&
      layout == currentHomePosition && machine.positionsMoved == moved + 1 && ReadinessOf() == (false, false, false, false)
    }

    /** The carousel bookkeeping left as it was. */
    ghost predicate StayedAt(home: int, v: seq<SlotObject>, lay: nat, due: bool, moved: int, ready: (bool, bool, bool, bool))
      reads this, slots, machine`positionsMoved, machine`bulbSystemReady, machine`dropperSystemReady
      reads machine`pipetSystemReady, machine`bulbPreLoadReady
    {
      currentHomePosition == home && slots[..] == v && layout == lay && shouldRunTracker == due &&
      machine.positionsMoved == moved && ReadinessOf() == ready
    }

    /** The moving branch of `stepMotor`: once the delay for the current step has passed
        the step pin toggles; each falling edge counts a step, and the 200th ends the move,
        times the pause from now, resets the pneumatics and advances the carousel. */
    method StepWhileMoving(now: u32, curve: (Profile, Leg) -> int)
      requires Valid() && isMoving
      modifies this`isMoving, this`stepHigh, this`stepsTaken, this`lastStepTime, this`pauseStartTime
      modifies this`currentHomePosition, this`shouldRunTracker, this`layout, slots
      modifies machine`positionsMoved, machine`bulbSystemReady, machine`dropperSystemReady, machine`pipetSystemReady
      modifies machine`bulbPreLoadReady, out`step
      ensures Valid()
      ensures var delay := StepDelay(profile, old(stepsTaken), curve);
        MotorOf() == MovingStep(old(MotorOf()), now, delay) &&
        out.step == (if Due(old(MotorOf()), now, delay) then !old(stepHigh) else old(out.step)) &&
        (Completes(old(MotorOf()), now, delay) ==> AdvancedFrom(old(currentHomePosition), old(slots[..]), old(machine.positionsMoved))) &&
        (!Completes(old(MotorOf()), now, delay) ==> StayedAt(old(currentHomePosition), old(slots[..]), old(layout), old(shouldRunTracker),
                                                            old(machine.positionsMoved), old(ReadinessOf())))
    {
      var stepDelay := StepDelay(profile, stepsTaken, curve);
      if Elapsed(now, lastStepTime) >= stepDelay {
        if !stepHigh {
          out.step := true;
          stepHigh := true;
        } else {
          out.step := false;
          stepHigh := false;
          stepsTaken := stepsTaken + 1;
          if stepsTaken >= TOTAL_STEPS {
            CompleteMove(now);
          }
        }
        lastStepTime := now;
      }
    }

    /** The end of a move inside `stepMotor`. */
    method CompleteMove(now: u32)
      requires slots.Length == SLOT_COUNT && Numbered(slots[..]) && 0 <= currentHomePosition < SLOT_COUNT
      modifies this`isMoving, this`stepsTaken, this`pauseStartTime, this`currentHomePosition, this`shouldRunTracker
      modifies this`layout, slots, machine`positionsMoved, machine`bulbSystemReady, machine`dropperSystemReady
      modifies machine`pipetSystemReady, machine`bulbPreLoadReady
      ensures !isMoving && stepsTaken == 0 && pauseStartTime == now
      ensures AdvancedFrom(old(currentHomePosition), old(slots[..]), old(machine.positionsMoved))
      ensures Numbered(slots[..]) && LaidOut(slots[..], layout) && layout < SLOT_COUNT
    {
      shouldRunTracker := true;
      isMoving := false;
      pauseStartTime := now;
      stepsTaken := 0;
      machine.ResetAllPneumatics();
      currentHomePosition := (currentHomePosition + 1) % SLOT_COUNT;
      UpdateSlotPositions();
    }

    /** The idle branch of `stepMotor`: the motion profile follows the supply sensors; a
        pending pause request pauses the machine and nothing else happens; otherwise a move
        starts once the interlock holds, the dwell has passed and the bulb ram is home with
        its pin low. */
    method StepWhileIdle(inp: Inputs, now: u32, pauseAfter: u32)
      requires Valid() && !isMoving
      modifies this`profile, this`pauseRequested, this`isMoving, this`lastStepTime
      modifies machine`isPaused, machine`inProduction, out`junkEjector, out`dropperEject
      ensures Valid()
      ensures profile == ProfileFor(HandleLowSupplies(inp)) && !pauseRequested
      ensures old(pauseRequested) ==>
        MotorOf() == old(MotorOf()) && !out.junkEjector && !out.dropperEject &&
        (!machine.isStopped ==> machine.isPaused && !machine.inProduction) &&
        (machine.isStopped ==> machine.isPaused == old(machine.isPaused) && machine.inProduction == old(machine.inProduction))
      ensures !old(pauseRequested) ==>
        machine.isPaused == old(machine.isPaused) && machine.inProduction == old(machine.inProduction) &&
        out.junkEjector == old(out.junkEjector) && out.dropperEject == old(out.dropperEject) &&
        MotorOf() == if StartsMoving(old(machine.IsReadyToMove()), old(MotorOf()), now, pauseAfter, inp.bulbRamHomeSensor, out.bulbRam)
                     then old(MotorOf()).(moving := true, lastStepTime := now) else old(MotorOf())
    {
      profile := ProfileFor(HandleLowSupplies(inp));
      if pauseRequested {
        machine.Pause(out);
        pauseRequested := false;
        return;
      }
      if machine.IsReadyToMove() && Elapsed(now, pauseStartTime) >= pauseAfter {
        if inp.bulbRamHomeSensor && !out.bulbRam {
          isMoving := true;
          lastStepTime := now;
        }
      }
    }

    // -------------------------------------------------------------------------
    // Supervision

    /** The watchdog's `static` locals. */
    ghost function WatchdogOf(): Watchdog
      reads this`tracking, this`notReadySince
    {
      Watchdog(tracking, notReadySince)
    }

    /** `systemNotReadyTimeout`, at millisecond time `nowMs`: the timeout flag clears while
        ready to move; the machine pauses with the flag set once it has been idle, not
        ready, neither paused nor stopped for two seconds. */
    method SystemNotReadyTimeout(nowMs: u32)
      modifies this`tracking, this`notReadySince, machine`timeoutMachine, machine`isPaused, machine`inProduction
      modifies out`junkEjector, out`dropperEject
      ensures var condition := !isMoving && !old(machine.IsReadyToMove()) && !old(machine.isPaused) && !old(machine.isStopped);
        var w := WatchdogStep(old(WatchdogOf()), condition, nowMs);
        WatchdogOf() == w.next &&
        (w.fire ==>
           machine.timeoutMachine && machine.isPaused && !machine.inProduction && !out.junkEjector && !out.dropperEject) &&
        (!w.fire ==>
           machine.timeoutMachine == (old(machine.timeoutMachine) && !old(machine.IsReadyToMove())) &&
           machine.isPaused == old(machine.isPaused) && machine.inProduction == old(machine.inProduction) &&
           out.junkEjector == old(out.junkEjector) && out.dropperEject == old(out.dropperEject))
    {
      if machine.IsReadyToMove() {
        machine.timeoutMachine := false;
      }
      var condition := !isMoving && !machine.IsReadyToMove() && !machine.isPaused && !machine.isStopped;
      if condition {
        if !tracking {
          tracking := true;
          notReadySince := nowMs;
        } else if Elapsed(nowMs, notReadySince) >= TIMEOUT_MS {
          machine.Pause(out);
          tracking := false;
          machine.timeoutMachine := true;
        }
      } else {
        tracking := false;
      }
    }

    /** `handleLowAirPressure`: the air sensor reading LOW records low pressure and pauses
        the machine (the ejectors go low even when stopped); HIGH clears the record. */
    method HandleLowAirPressure(inp: Inputs)
      modifies machine`hasLowAirPressure, machine`isPaused, machine`inProduction, out`junkEjector, out`dropperEject
      ensures machine.hasLowAirPressure == !inp.lowAirSensor
      ensures !inp.lowAirSensor ==>
        !out.junkEjector && !out.dropperEject &&
        (!machine.isStopped ==> machine.isPaused && !machine.inProduction) &&
        (machine.isStopped ==> machine.isPaused == old(machine.isPaused) && machine.inProduction == old(machine.inProduction))
      ensures inp.lowAirSensor ==>
        machine.isPaused == old(machine.isPaused) && machine.inProduction == old(machine.inProduction) &&
        out.junkEjector == old(out.junkEjector) && out.dropperEject == old(out.dropperEject)
    {
      if !inp.lowAirSensor {
        machine.hasLowAirPressure := true;
        machine.Pause(out);
      } else {
        machine.hasLowAirPressure := false;
      }
    }

    // -------------------------------------------------------------------------
    // Operator buttons (each method is one debounced press edge of `handleButtons`)

    /** A start press: the machine starts or resumes and both pending requests are dropped. */
    method StartPressed()
      modifies machine`needsHoming, machine`isStopped, machine`inProduction, machine`isPaused
      modifies this`pauseRequested, this`finishProdRequested
      ensures !pauseRequested && !finishProdRequested && !machine.isStopped
      ensures old(machine.isStopped) ==> machine.needsHoming && machine.inProduction && machine.isPaused == old(machine.isPaused)
      ensures !old(machine.isStopped) && old(machine.isPaused) ==>
        !machine.isPaused && machine.inProduction && machine.needsHoming == old(machine.needsHoming)
      ensures !old(machine.isStopped) && !old(machine.isPaused) ==>
        !machine.isPaused && machine.inProduction == old(machine.inProduction) && machine.needsHoming == old(machine.needsHoming)
    {
      machine.Start();
      pauseRequested := false;
      finishProdRequested := false;
    }

    /** A pause press asks `stepMotor` to pause at the next stop, unless the machine is
        already stopped or paused. */
    method PausePressed()
      modifies this`pauseRequested
      ensures pauseRequested == (old(pauseRequested) || (!machine.isStopped && !machine.isPaused))
    {
      if !machine.isStopped && !machine.isPaused {
        pauseRequested := true;
      }
    }

    /** A finish press asks the tracker to mark the next slot as finished, unless stopped. */
    method FinishPressed()
      modifies this`finishProdRequested
      ensures finishProdRequested == (old(finishProdRequested) || !machine.isStopped)
    {
      if !machine.isStopped {
        finishProdRequested := true;
      }
    }

    /** `handleEmptySlots` with the empty-slots button held: outside production the
        carousel is emptied (`emptySlots`), which ends stopped with the junk ejector low
        and the twister high; the step pin ends low unless the pause button aborted before
        the first pulse (`abortedAtOnce`). In production nothing happens. */
    method EmptySlots(abortedAtOnce: bool)
      modifies machine`isStopped, machine`isPaused, machine`inProduction, machine`needsHoming
      modifies out`junkEjector, out`pipetTwister, out`step
      ensures old(machine.inProduction) ==>
        machine.isStopped == old(machine.isStopped) && machine.isPaused == old(machine.isPaused) &&
        machine.inProduction && machine.needsHoming == old(machine.needsHoming) &&
        out.junkEjector == old(out.junkEjector) && out.pipetTwister == old(out.pipetTwister) && out.step == old(out.step)
      ensures !old(machine.inProduction) ==>
        machine.isStopped && !machine.isPaused && !machine.inProduction && machine.needsHoming &&
        !out.junkEjector && out.pipetTwister && out.step == (if abortedAtOnce then old(out.step) else false)
    {
      if !machine.inProduction {
        if !abortedAtOnce {
          out.step := false;
        }
        out.junkEjector := false;
        out.pipetTwister := true;
        machine.Stop();
      }
    }

    /** `homeMachine`, by its outcome: the search loop ran (`searched`) and emitted at
        least one pulse (`pulsed`), the pause button aborted it (`aborted`, which stops the
        machine), and the home sensor read LOW at the end (`homeFound`, which puts the
        machine in production). The origin is reset to 0 without recomputing the slot
        positions, homing is complete and a move is started at `now`. */
    method HomeMachine(searched: bool, pulsed: bool, aborted: bool, homeFound: bool, now: u32)
      requires Valid() && (pulsed ==> searched) && (aborted ==> searched)
      modifies this`currentHomePosition, this`isMoving, this`lastStepTime
      modifies machine`isStopped, machine`isPaused, machine`inProduction, machine`needsHoming
      modifies out`capInject, out`junkEjector, out`step
      ensures Valid()
      ensures currentHomePosition == 0 && isMoving && lastStepTime == now && !machine.needsHoming
      ensures machine.isStopped == (aborted || old(machine.isStopped))
      ensures machine.isPaused == (!aborted && old(machine.isPaused))
      ensures machine.inProduction == (homeFound || (!aborted && old(machine.inProduction)))
      ensures out.capInject == (if searched || homeFound then false else old(out.capInject))
      ensures out.junkEjector == (if homeFound then false else old(out.junkEjector))
      ensures out.step == (if pulsed then false else old(out.step))
    {
      if searched {
        out.capInject := false;
      }
      if pulsed {
        out.step := false;
      }
      if aborted {
        machine.Stop();
      }
      if homeFound {
        machine.inProduction := true;
        out.junkEjector := false;
        out.capInject := false;
      }
      currentHomePosition := 0;
      machine.HomingComplete();
      isMoving := true;
      lastStepTime := now;
    }
  }
}
