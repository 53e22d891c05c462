/** One run of `machineTracker`, as a function on the part of the controller state it
    changes. The run happens once per stop; its stages follow the source in order: the
    confirm stations, the two ejectors, the empty check, `setSlotErrors`, the outbreak scan
    and the pauses. */
module Tracker {
  import opened Io
  import opened Slot
  import opened Carousel
  import opened Machine
  import opened Defects
  import opened Timing

  /** What a tracker run changes: the slots, the errored and completed dropper counters,
      the three `hasConsecutive*` flags, the pause and production modes, and the levels of
      the junk and dropper ejector pins. */
  datatype TrackerState = TrackerState(
    slots: seq<SlotObject>,
    errored: int,
    completed: int,
    capRun: bool,
    pipetRun: bool,
    bulbRun: bool,
    paused: bool,
    producing: bool,
    junkOut: bool,
    dropOut: bool)

  /** What a tracker run reads and leaves alone: the station ids, the completed advances,
      the finish request and whether the machine is stopped. */
  datatype TrackerContext = TrackerContext(ids: StationIds, moved: int, finishRequested: bool, stopped: bool)

  predicate Fits(t: TrackerState, c: TrackerContext)
  {
    |t.slots| == SLOT_COUNT && IdsInRange(c.ids)
  }

  /** The confirm stations (and the finish request), as `ClassifyConfirms`. */
  function Confirmed(t: TrackerState, c: TrackerContext, inp: Inputs): (r: TrackerState)
    requires Fits(t, c)
    ensures Fits(r, c) && r == t.(slots := r.slots)
  {
    t.(slots := ClassifyConfirms(t.slots, c.ids, inp, c.moved, c.finishRequested))
  }

  /** Whether the junk station counts its slot as errored, and the dropper station its
      slot as completed. */
  predicate CountsErrored(t: TrackerState, c: TrackerContext)
    requires Fits(t, c)
  {
    Opens(Gate.JunkEjection, c.moved) && t.slots[c.ids.junkEjection].error
  }

  predicate CountsCompleted(t: TrackerState, c: TrackerContext)
    requires Fits(t, c)
  {
    Opens(Gate.DropperEjection, c.moved) && !Inert(t.slots[c.ids.dropperEjection])
  }

  /** The ejector block, `stop` microseconds after the carousel came to rest. */
  function Ejected(t: TrackerState, c: TrackerContext, stop: u32): (r: TrackerState)
    requires Fits(t, c)
    ensures Fits(r, c) && r == t.(errored := r.errored, completed := r.completed, junkOut := r.junkOut, dropOut := r.dropOut)
  {
    var junkGate := Opens(Gate.JunkEjection, c.moved);
    var counted := CountsCompleted(t, c);
    t.(errored := if CountsErrored(t, c) then t.errored + 1 else t.errored,
       completed := if counted then t.completed + 1 else t.completed,
       junkOut := t.junkOut || (junkGate && stop < EJECT_WINDOW_US),
       dropOut := t.dropOut || (counted && stop < EJECT_WINDOW_US))
  }

  /** The empty check at the eject-confirm station, as `CheckEmpty`. */
  function EmptyChecked(t: TrackerState, c: TrackerContext, inp: Inputs): (r: TrackerState)
    requires Fits(t, c)
    ensures Fits(r, c) && r == t.(slots := r.slots)
  {
    t.(slots := CheckEmpty(t.slots, c.ids.junkConfirm, inp, c.moved))
  }

  /** `setSlotErrors`, as `MarkErrors`. */
  function ErrorsMarked(t: TrackerState): (r: TrackerState)
    ensures |r.slots| == |t.slots| && r == t.(slots := r.slots)
  {
    t.(slots := MarkErrors(t.slots))
  }

  /** The `hasConsecutive*` flags after a scan of the slots `v`, from their values before
      it: an outbreak raises the flag of each kind it matched and leaves the others; no
      outbreak clears all three. */
  predicate ScanFlags(v: seq<SlotObject>, cap0: bool, pipet0: bool, bulb0: bool, cap: bool, pipet: bool, bulb: bool)
    requires |v| == SLOT_COUNT
  {
    match FirstOutbreak(v)
    case Some(i) =>
      (cap <==> cap0 || TripleAt(v, i, MissingCap)) && (pipet <==> pipet0 || TripleAt(v, i, Junk)) &&
      (bulb <==> bulb0 || TripleAt(v, i, MissingBulb))
    case None => !cap && !pipet && !bulb
  }

  /** `hasConsecutiveErrors`: the scan, and the flags of the kinds it found. */
  function Scanned(t: TrackerState): (r: TrackerState)
    requires |t.slots| == SLOT_COUNT
    ensures |r.slots| == SLOT_COUNT && r == t.(slots := r.slots, capRun := r.capRun, pipetRun := r.pipetRun, bulbRun := r.bulbRun)
  {
    match FirstOutbreak(t.slots)
    case None => t.(capRun := false, pipetRun := false, bulbRun := false)
    case Some(i) =>
      t.(slots := Scan(t.slots),
         capRun := t.capRun || TripleAt(t.slots, i, MissingCap),
         pipetRun := t.pipetRun || TripleAt(t.slots, i, Junk),
         bulbRun := t.bulbRun || TripleAt(t.slots, i, MissingBulb))
  }

  /** The scanned slots and the flags `ScanFlags` allows are the scan's result. */
  lemma ScannedFromFlags(t: TrackerState, r: TrackerState)
    requires |t.slots| == SLOT_COUNT && r.slots == Scan(t.slots)
    requires ScanFlags(t.slots, t.capRun, t.pipetRun, t.bulbRun, r.capRun, r.pipetRun, r.bulbRun)
    requires r == t.(slots := r.slots, capRun := r.capRun, pipetRun := r.pipetRun, bulbRun := r.bulbRun)
    ensures r == Scanned(t)
  {
  }

  /** Whether the run ends in a pause: `found` (an outbreak), a failed junk eject at the
      failed-eject station, or a finished slot at the junk station. */
  predicate Halts(t: TrackerState, c: TrackerContext, found: bool)
    requires Fits(t, c)
  {
    found || t.slots[c.ids.failedJunkEject].failedJunkEject || t.slots[c.ids.junkEjection].finishProduction
  }

  /** The pauses that end a run. `pause` does not leave the stopped mode, but it always
      drives both ejector pins low. */
  function Halted(t: TrackerState, c: TrackerContext, found: bool): (r: TrackerState)
    requires Fits(t, c)
    ensures Fits(r, c) && r == t.(paused := r.paused, producing := r.producing, junkOut := r.junkOut, dropOut := r.dropOut)
  {
    if Halts(t, c, found) then PausedState(t, c.stopped) else t
  }

  /** One call of `pause`. */
  function PausedState(t: TrackerState, stopped: bool): TrackerState
  {
    if stopped then t.(junkOut := false, dropOut := false)
    else t.(paused := true, producing := false, junkOut := false, dropOut := false)
  }

  /** The slots just before the scan. */
  function Marked(t: TrackerState, c: TrackerContext, inp: Inputs, stop: u32): (r: TrackerState)
    requires Fits(t, c)
    ensures Fits(r, c)
  {
    var e := Ejected(Confirmed(t, c, inp), c, stop);
    var r := ErrorsMarked(EmptyChecked(e, c, inp));
    r
  }

  /** One whole tracker run. */
  function Run(t: TrackerState, c: TrackerContext, inp: Inputs, stop: u32): (r: TrackerState)
    requires Fits(t, c)
    ensures Fits(r, c)
  {
    var m := Marked(t, c, inp, stop);
    Halted(Scanned(m), c, FirstOutbreak(m.slots).Some?)
  }

  /** The tail of `machineTracker`: both ejector pins driven low when `off`. */
  function EjectorsOff(t: TrackerState, off: bool): (r: TrackerState)
    ensures r.slots == t.slots && (off ==> !r.junkOut && !r.dropOut)
    ensures !off ==> r == t
  {
    if off then t.(junkOut := false, dropOut := false) else t
  }

  // ---------------------------------------------------------------------------
  // Properties of one run

  /** A run changes flags only: every slot keeps its id and its station. */
  lemma RunKeepsPlaces(t: TrackerState, c: TrackerContext, inp: Inputs, stop: u32)
    requires Fits(t, c)
    ensures SamePlaces(t.slots, Run(t, c, inp, stop).slots)
  {
    var v1 := Confirmed(t, c, inp).slots;
    var v2 := CheckEmpty(v1, c.ids.junkConfirm, inp, c.moved);
    var v3 := MarkErrors(v2);
    ClassifyConfirmsKeepsPlaces(t.slots, c.ids, inp, c.moved, c.finishRequested);
    CheckEmptyKeepsPlaces(v1, c.ids.junkConfirm, inp, c.moved);
    MarkErrorsKeepsPlaces(v2);
    ScanKeepsPlaces(v3);
    SamePlacesTransitive(t.slots, v1, v2);
    SamePlacesTransitive(t.slots, v2, v3);
    SamePlacesTransitive(t.slots, v3, Scan(v3));
    assert Marked(t, c, inp, stop).slots == v3;
  }

  /** The counters count only at their stations: the errored count goes up by one exactly
      when the junk station's gate is open and its slot is errored after the confirm
      stations, and the completed count exactly when the dropper station's gate is open and
      its slot is neither errored nor finished. */
  lemma RunCounts(t: TrackerState, c: TrackerContext, inp: Inputs, stop: u32)
    requires Fits(t, c)
    ensures var r := Run(t, c, inp, stop);
      var v := ClassifyConfirms(t.slots, c.ids, inp, c.moved, c.finishRequested);
      r.errored == t.errored + (if Opens(Gate.JunkEjection, c.moved) && v[c.ids.junkEjection].error then 1 else 0) &&
      r.completed == t.completed +
        (if Opens(Gate.DropperEjection, c.moved) && !Inert(v[c.ids.dropperEjection]) then 1 else 0)
  {
    var m := Marked(t, c, inp, stop);
    assert m.errored == Ejected(Confirmed(t, c, inp), c, stop).errored;
    assert m.completed == Ejected(Confirmed(t, c, inp), c, stop).completed;
  }

  /** The slots at the end of a run are the scan of the slots after the confirm stations,
      the empty check and `setSlotErrors`, and the flags record what the scan found. */
  lemma RunScans(t: TrackerState, c: TrackerContext, inp: Inputs, stop: u32)
    requires Fits(t, c)
    ensures var r := Run(t, c, inp, stop);
      var v := ClassifyConfirms(t.slots, c.ids, inp, c.moved, c.finishRequested);
      var m := MarkErrors(CheckEmpty(v, c.ids.junkConfirm, inp, c.moved));
      r.slots == Scan(m) && ScanFlags(m, t.capRun, t.pipetRun, t.bulbRun, r.capRun, r.pipetRun, r.bulbRun)
  {
    var m := Marked(t, c, inp, stop);
    assert m.slots == MarkErrors(CheckEmpty(ClassifyConfirms(t.slots, c.ids, inp, c.moved, c.finishRequested), c.ids.junkConfirm, inp, c.moved));
    assert m.capRun == t.capRun && m.pipetRun == t.pipetRun && m.bulbRun == t.bulbRun;
    match FirstOutbreak(m.slots)
    case None =>
    case Some(i) =>
  }

  /** A run that finds an outbreak, a failed junk eject at the failed-eject station or a
      finished slot at the junk station ends with both ejectors low and, unless the machine
      is stopped, paused and out of production; any other run leaves the modes alone. */
  lemma RunHalts(t: TrackerState, c: TrackerContext, inp: Inputs, stop: u32)
    requires Fits(t, c)
    ensures var r := Run(t, c, inp, stop);
      var m := Marked(t, c, inp, stop).slots;
      var halt := FirstOutbreak(m).Some? ||
        r.slots[c.ids.failedJunkEject].failedJunkEject || r.slots[c.ids.junkEjection].finishProduction;
      (halt ==> !r.junkOut && !r.dropOut && (c.stopped || (r.paused && !r.producing))) &&
      (!halt ==> r.paused == t.paused && r.producing == t.producing)
  {
    var m := Marked(t, c, inp, stop);
    assert m.paused == t.paused && m.producing == t.producing;
  }

  /** An ejector pin a run raises was raised within 18 ms of the stop, at a station whose
      gate is open, and for the dropper only for a completed slot; a run that does not
      halt raises each pin exactly then. */
  lemma RunEjectsInWindow(t: TrackerState, c: TrackerContext, inp: Inputs, stop: u32)
    requires Fits(t, c)
    ensures var r := Run(t, c, inp, stop);
      var v := ClassifyConfirms(t.slots, c.ids, inp, c.moved, c.finishRequested);
      var junkRaise := Opens(Gate.JunkEjection, c.moved) && stop < EJECT_WINDOW_US;
      var dropRaise := Opens(Gate.DropperEjection, c.moved) && !Inert(v[c.ids.dropperEjection]) && stop < EJECT_WINDOW_US;
      (r.junkOut ==> t.junkOut || junkRaise) && (r.dropOut ==> t.dropOut || dropRaise) &&
      (!Halts(Scanned(Marked(t, c, inp, stop)), c, FirstOutbreak(Marked(t, c, inp, stop).slots).Some?) ==>
        r.junkOut == (t.junkOut || junkRaise) && r.dropOut == (t.dropOut || dropRaise))
  {
    var m := Marked(t, c, inp, stop);
    var e := Ejected(Confirmed(t, c, inp), c, stop);
    assert m.junkOut == e.junkOut && m.dropOut == e.dropOut;
  }
}
