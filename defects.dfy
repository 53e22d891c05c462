/** Defect detection and containment over the values of the 16 slots: the once-per-stop
    classification at the confirm stations, the aggregate error marking, and the
    circular three-in-a-row outbreak scan. */
module Defects {
  import opened Io
  import opened Slot
  import opened Carousel
  import opened Machine

  datatype Option<T> = None | Some(value: T)

  /** The slot values, indexed by slot id. */
  predicate Numbered(v: seq<SlotObject>)
  {
    |v| == SLOT_COUNT && forall i :: 0 <= i < SLOT_COUNT ==> v[i].id == i
  }

  /** The slot values after `updateSlotPositions` with origin `home`. */
  function Placed(v: seq<SlotObject>, home: nat): (r: seq<SlotObject>)
    requires Numbered(v)
    ensures Numbered(r) && LaidOut(r, home)
  {
    seq(SLOT_COUNT, i requires 0 <= i < SLOT_COUNT => v[i].(position := PositionOf(home, v[i].id)))
  }

  /** After placing, only positions have changed, the positions are pairwise distinct,
      and the slot at each station p is the one `SlotAt` names. */
  lemma PlacedIsBijection(v: seq<SlotObject>, home: nat)
    requires Numbered(v)
    ensures forall i :: 0 <= i < SLOT_COUNT ==> Placed(v, home)[i] == v[i].(position := Placed(v, home)[i].position)
    ensures forall i, j :: 0 <= i < j < SLOT_COUNT ==> Placed(v, home)[i].position != Placed(v, home)[j].position
    ensures forall p: nat :: p < SLOT_COUNT ==> Placed(v, home)[SlotAt(home, p)].position == p
  {
    var r := Placed(v, home);
    forall i, j | 0 <= i < j < SLOT_COUNT
      ensures r[i].position != r[j].position
    {
      if r[i].position == r[j].position {
        PositionsInjective(home, i, j);
      }
    }
    forall p: nat | p < SLOT_COUNT
      ensures r[SlotAt(home, p)].position == p
    {
      PositionOfInvertsSlotAt(home, p);
    }
  }

  /** `w` differs from `v` in flags only: every slot keeps its id and its position. */
  predicate SamePlaces(v: seq<SlotObject>, w: seq<SlotObject>)
  {
    |v| == |w| && forall j :: 0 <= j < |v| ==> w[j].id == v[j].id && w[j].position == v[j].position
  }

  /** A flag-only change keeps the numbering and the layout. */
  lemma SamePlacesKeepLayout(v: seq<SlotObject>, w: seq<SlotObject>, home: nat)
    requires SamePlaces(v, w) && Numbered(v) && LaidOut(v, home)
    ensures Numbered(w) && LaidOut(w, home)
  {
  }

  // ---------------------------------------------------------------------------
  // setSlotErrors

  /** The faults that make a slot errored; a failed junk eject does not. */
  predicate CountedFault(s: SlotObject)
  {
    s.junk || s.missingBulb || s.missingCap
  }

  /** `setSlotErrors`: every slot with a counted fault gets its error flag set. */
  function MarkErrors(v: seq<SlotObject>): (r: seq<SlotObject>)
    ensures |r| == |v|
  {
    seq(|v|, i requires 0 <= i < |v| => if CountedFault(v[i]) then v[i].(error := true) else v[i])
  }

  /** Marking never clears an error, changes no field but `error`, ignores failed junk
      ejects, and leaves a slot errored exactly when it was errored or has a counted fault. */
  lemma MarkErrorsOnlySets(v: seq<SlotObject>, i: int)
    requires 0 <= i < |v|
    ensures MarkErrors(v)[i] == v[i].(error := MarkErrors(v)[i].error)
    ensures MarkErrors(v)[i].error <==> v[i].error || CountedFault(v[i])
    ensures v[i].error ==> MarkErrors(v)[i].error
  {
  }

  /** Marking twice is marking once. */
  lemma MarkErrorsIdempotent(v: seq<SlotObject>)
    ensures MarkErrors(MarkErrors(v)) == MarkErrors(v)
  {
  }

  // ---------------------------------------------------------------------------
  // hasConsecutiveErrors

  /** The three fault kinds the scan looks for, in the order it handles them. */
  datatype Fault = MissingCap | Junk | MissingBulb

  predicate HasFault(s: SlotObject, f: Fault)
  {
    match f
    case MissingCap => s.missingCap
    case Junk => s.junk
    case MissingBulb => s.missingBulb
  }

  /** The two successors of index `i` round the carousel, without the remainder. */
  lemma Neighbours(i: int)
    requires 0 <= i < SLOT_COUNT
    ensures (i + 1) % SLOT_COUNT == if i + 1 < SLOT_COUNT then i + 1 else i + 1 - SLOT_COUNT
    ensures (i + 2) % SLOT_COUNT == if i + 2 < SLOT_COUNT then i + 2 else i + 2 - SLOT_COUNT
  {
  }

  /** Slots i, i+1 and i+2 (mod 16) all carry fault `f`. */
  predicate TripleAt(v: seq<SlotObject>, i: int, f: Fault)
    requires |v| == SLOT_COUNT && 0 <= i < SLOT_COUNT
  {
    HasFault(v[i], f) && HasFault(v[(i + 1) % SLOT_COUNT], f) && HasFault(v[(i + 2) % SLOT_COUNT], f)
  }

  predicate OutbreakAt(v: seq<SlotObject>, i: int)
    requires |v| == SLOT_COUNT && 0 <= i < SLOT_COUNT
  {
    TripleAt(v, i, MissingCap) || TripleAt(v, i, Junk) || TripleAt(v, i, MissingBulb)
  }

  /** The first starting index at or after `k` with an outbreak. */
  function FirstOutbreakFrom(v: seq<SlotObject>, k: nat): (r: Option<nat>)
    requires |v| == SLOT_COUNT && k <= SLOT_COUNT
    ensures r.Some? ==> k <= r.value < SLOT_COUNT
    decreases SLOT_COUNT - k
  {
    if k == SLOT_COUNT then None
    else if OutbreakAt(v, k) then Some(k)
    else FirstOutbreakFrom(v, k + 1)
  }

  /** The search finds an outbreak with none before it from `k` on, and finds nothing
      exactly when there is no outbreak from `k` on. */
  lemma {:induction false} FirstOutbreakFromIsFirst(v: seq<SlotObject>, k: nat)
    requires |v| == SLOT_COUNT && k <= SLOT_COUNT
    ensures var r := FirstOutbreakFrom(v, k);
      (r.Some? ==> OutbreakAt(v, r.value) && forall j :: k <= j < r.value ==> !OutbreakAt(v, j)) &&
      (r.None? <==> forall j :: k <= j < SLOT_COUNT ==> !OutbreakAt(v, j))
    decreases SLOT_COUNT - k
  {
    if k < SLOT_COUNT && !OutbreakAt(v, k) {
      FirstOutbreakFromIsFirst(v, k + 1);
    }
  }

  function FirstOutbreak(v: seq<SlotObject>): Option<nat>
    requires |v| == SLOT_COUNT
  {
    FirstOutbreakFrom(v, 0)
  }

  /** An outbreak at `i` with none before it is the first one. */
  lemma FirstOutbreakIsFirstMatch(v: seq<SlotObject>, i: nat)
    requires |v| == SLOT_COUNT && i < SLOT_COUNT && OutbreakAt(v, i)
    requires forall j :: 0 <= j < i ==> !OutbreakAt(v, j)
    ensures FirstOutbreak(v) == Some(i)
  {
    var r := FirstOutbreakFrom(v, 0);
    FirstOutbreakFromIsFirst(v, 0);
    assert r.Some?;
    assert !(r.value < i);
    assert !(i < r.value);
  }

  /** The slot with fault `f` cleared. */
  function Cleared(s: SlotObject, f: Fault): (r: SlotObject)
    ensures !HasFault(r, f)
  {
    match f
    case MissingCap => s.(missingCap := false)
    case Junk => s.(junk := false)
    case MissingBulb => s.(missingBulb := false)
  }

  /** A slot of a contained triple: the matched fault kinds cleared, the error set. */
  function Contained(s: SlotObject, cap: bool, junk: bool, bulb: bool): SlotObject
  {
    s.(missingCap := if cap then false else s.missingCap,
       junk := if junk then false else s.junk,
       missingBulb := if bulb then false else s.missingBulb,
       error := true)
  }

  /** The indices of the triple starting at `i`. */
  predicate InTriple(i: int, j: int)
  {
    j == i || j == (i + 1) % SLOT_COUNT || j == (i + 2) % SLOT_COUNT
  }

  /** Containment of the outbreak at `i`, written as the scan writes it: the three slots in
      turn, every matched kind cleared in each of them, then the three errors set. */
  function ContainAt(v: seq<SlotObject>, i: nat): (r: seq<SlotObject>)
    requires |v| == SLOT_COUNT && i < SLOT_COUNT
    ensures |r| == SLOT_COUNT
  {
    var cap, junk, bulb := TripleAt(v, i, MissingCap), TripleAt(v, i, Junk), TripleAt(v, i, MissingBulb);
    var i1, i2 := (i + 1) % SLOT_COUNT, (i + 2) % SLOT_COUNT;
    v[i := Contained(v[i], cap, junk, bulb)]
     [i1 := Contained(v[i1], cap, junk, bulb)]
     [i2 := Contained(v[i2], cap, junk, bulb)]
  }

  /** Containment changes exactly the three slots of the triple. */
  lemma ContainAtChangesOnlyTheTriple(v: seq<SlotObject>, i: nat, j: nat)
    requires |v| == SLOT_COUNT && i < SLOT_COUNT && j < SLOT_COUNT
    ensures InTriple(i, j) ==>
      ContainAt(v, i)[j] == Contained(v[j], TripleAt(v, i, MissingCap), TripleAt(v, i, Junk), TripleAt(v, i, MissingBulb))
    ensures !InTriple(i, j) ==> ContainAt(v, i)[j] == v[j]
  {
  }

  /** Each fault kind that forms the triple is cleared in all three slots, every kind that
      does not is left alone, and all three slots are errored. */
  lemma ContainAtClearsMatchedKinds(v: seq<SlotObject>, i: nat, j: nat, f: Fault)
    requires |v| == SLOT_COUNT && i < SLOT_COUNT && j < SLOT_COUNT && InTriple(i, j)
    ensures ContainAt(v, i)[j].error
    ensures TripleAt(v, i, f) ==> !HasFault(ContainAt(v, i)[j], f)
    ensures !TripleAt(v, i, f) ==> HasFault(ContainAt(v, i)[j], f) == HasFault(v[j], f)
    ensures ContainAt(v, i)[j].id == v[j].id && ContainAt(v, i)[j].position == v[j].position
    ensures ContainAt(v, i)[j].failedJunkEject == v[j].failedJunkEject
    ensures ContainAt(v, i)[j].finishProduction == v[j].finishProduction
  {
    ContainAtChangesOnlyTheTriple(v, i, j);
  }

  /** One clearing block of the scan, when `b` holds: fault `f` cleared in the triple at `i`. */
  function ClearIf(v: seq<SlotObject>, i: nat, f: Fault, b: bool): (r: seq<SlotObject>)
    requires |v| == SLOT_COUNT && i < SLOT_COUNT
    ensures |r| == SLOT_COUNT
  {
    if b then seq(SLOT_COUNT, j requires 0 <= j < SLOT_COUNT => if InTriple(i, j) then Cleared(v[j], f) else v[j])
    else v
  }

  /** The scan's last block: the triple at `i` errored. */
  function ErrorAt(v: seq<SlotObject>, i: nat): (r: seq<SlotObject>)
    requires |v| == SLOT_COUNT && i < SLOT_COUNT
    ensures |r| == SLOT_COUNT
  {
    seq(SLOT_COUNT, j requires 0 <= j < SLOT_COUNT => if InTriple(i, j) then v[j].(error := true) else v[j])
  }

  /** The scan's blocks, run one after another (caps, junk, bulbs, errors), contain the
      triple exactly as `ContainAt` describes. */
  lemma ContainAtInBlocks(v: seq<SlotObject>, i: nat)
    requires |v| == SLOT_COUNT && i < SLOT_COUNT
    ensures ContainAt(v, i) ==
      ErrorAt(ClearIf(ClearIf(ClearIf(v, i, MissingCap, TripleAt(v, i, MissingCap)),
                              i, Junk, TripleAt(v, i, Junk)),
                      i, MissingBulb, TripleAt(v, i, MissingBulb)), i)
  {
    forall j | 0 <= j < SLOT_COUNT
      ensures ContainAt(v, i)[j] ==
        ErrorAt(ClearIf(ClearIf(ClearIf(v, i, MissingCap, TripleAt(v, i, MissingCap)),
                                i, Junk, TripleAt(v, i, Junk)),
                        i, MissingBulb, TripleAt(v, i, MissingBulb)), i)[j]
    {
      ContainAtChangesOnlyTheTriple(v, i, j);
    }
  }

  /** The slot values after one scan. */
  function Scan(v: seq<SlotObject>): (r: seq<SlotObject>)
    requires |v| == SLOT_COUNT
    ensures |r| == SLOT_COUNT
  {
    match FirstOutbreak(v)
    case None => v
    case Some(i) => ContainAt(v, i)
  }

  /** Three consecutive slots sharing a fault, with no outbreak earlier in index order, are
      exactly the triple the scan contains. */
  lemma ScanContainsFirstTriple(v: seq<SlotObject>, i: nat, f: Fault)
    requires |v| == SLOT_COUNT && i < SLOT_COUNT && TripleAt(v, i, f)
    requires forall j :: 0 <= j < i ==> !OutbreakAt(v, j)
    ensures FirstOutbreak(v) == Some(i)
    ensures Scan(v) == ContainAt(v, i)
  {
    assert OutbreakAt(v, i);
    FirstOutbreakIsFirstMatch(v, i);
  }

  /** A scan that finds nothing changes nothing. */
  lemma ScanWithoutOutbreakIsIdentity(v: seq<SlotObject>)
    requires |v| == SLOT_COUNT && forall j :: 0 <= j < SLOT_COUNT ==> !OutbreakAt(v, j)
    ensures FirstOutbreak(v) == None && Scan(v) == v
  {
    FirstOutbreakFromIsFirst(v, 0);
  }

  /** `SlotAt(a, j)` is also the distance from index `a` to index `j` going forward round
      the carousel; stepping `k` indices on adds `k` to it, modulo 16. */
  lemma SlotAtOfNext(a: nat, j: nat, k: nat)
    requires a < SLOT_COUNT && j < SLOT_COUNT
    ensures SlotAt(a, (j + k) % SLOT_COUNT) == (SlotAt(a, j) + k) % SLOT_COUNT
  {
    var q1 := (j + k) / SLOT_COUNT;
    var q2 := (j - a) / SLOT_COUNT;
    assert (j + k) % SLOT_COUNT - a == SlotAt(a, j) + k + SLOT_COUNT * (q2 - q1);
    ModShift(SlotAt(a, j) + k, q2 - q1);
  }

  lemma ModShift(x: int, q: int)
    ensures (x + SLOT_COUNT * q) % SLOT_COUNT == x % SLOT_COUNT
  {
    var r := x / SLOT_COUNT;
    assert x + SLOT_COUNT * q == SLOT_COUNT * (r + q) + x % SLOT_COUNT;
  }

  /** The slots at forward distance 0, 1 and 3 from `a`, that is a, a+1 and a+3 (mod 16). */
  predicate GappedTriple(a: nat, j: nat)
  {
    SlotAt(a, j) in {0, 1, 3}
  }

  lemma GappedTripleHasNoRun(a: nat, i: nat)
    requires a < SLOT_COUNT && i < SLOT_COUNT
    ensures !(GappedTriple(a, i) && GappedTriple(a, (i + 1) % SLOT_COUNT) && GappedTriple(a, (i + 2) % SLOT_COUNT))
  {
    SlotAtOfNext(a, i, 1);
    SlotAtOfNext(a, i, 2);
  }

  /** Missing caps in the slots a, a+1 and a+3 (mod 16), and no other fault anywhere,
      never trigger containment. */
  lemma NonConsecutiveTripleIgnored(v: seq<SlotObject>, a: nat)
    requires |v| == SLOT_COUNT && a < SLOT_COUNT
    requires forall j :: 0 <= j < SLOT_COUNT ==> (v[j].missingCap <==> GappedTriple(a, j))
    requires forall j :: 0 <= j < SLOT_COUNT ==> !v[j].junk && !v[j].missingBulb
    ensures FirstOutbreak(v) == None && Scan(v) == v
  {
    forall i | 0 <= i < SLOT_COUNT
      ensures !OutbreakAt(v, i)
    {
      GappedTripleHasNoRun(a, i);
    }
    ScanWithoutOutbreakIsIdentity(v);
  }

  // ---------------------------------------------------------------------------
  // The once-per-stop classification in machineTracker

  /** A slot the schedulers must leave alone. */
  predicate Inert(s: SlotObject)
  {
    s.finishProduction || s.error
  }

  /** The confirm, eject-confirm and failed-eject stations hold five distinct slots. */
  predicate TrackedStationsDistinct(ids: StationIds)
  {
    IdsInRange(ids) &&
    var f, p, b, c, j := ids.failedJunkEject, ids.pipetConfirm, ids.bulbInCapConfirm, ids.capInWheelConfirm, ids.junkConfirm;
    f != p && f != b && f != c && f != j && p != b && p != c && p != j && b != c && b != j && c != j
  }

  lemma StationsForTrackedDistinct(home: nat)
    ensures TrackedStationsDistinct(StationsFor(home))
  {
    StationsForDistinct(home, Station.FailedJunkEject, Station.PipetConfirm);
    StationsForDistinct(home, Station.FailedJunkEject, Station.BulbConfirm);
    StationsForDistinct(home, Station.FailedJunkEject, Station.CapConfirm);
    StationsForDistinct(home, Station.FailedJunkEject, Station.JunkEjectConfirm);
    StationsForDistinct(home, Station.PipetConfirm, Station.BulbConfirm);
    StationsForDistinct(home, Station.PipetConfirm, Station.CapConfirm);
    StationsForDistinct(home, Station.PipetConfirm, Station.JunkEjectConfirm);
    StationsForDistinct(home, Station.BulbConfirm, Station.CapConfirm);
    StationsForDistinct(home, Station.BulbConfirm, Station.JunkEjectConfirm);
    StationsForDistinct(home, Station.CapConfirm, Station.JunkEjectConfirm);
  }

  /** A slot seen empty at the eject-confirm station: every fault and the error cleared. */
  function Emptied(s: SlotObject): SlotObject
  {
    s.(failedJunkEject := false, junk := false, missingBulb := false, missingCap := false, error := false)
  }

  /** The slot with fault `f` set to `b` (`setMissingCap`, `setJunk` or `setMissingBulb`). */
  function WithFault(s: SlotObject, f: Fault, b: bool): (r: SlotObject)
    ensures HasFault(r, f) == b
  {
    match f
    case MissingCap => s.(missingCap := b)
    case Junk => s.(junk := b)
    case MissingBulb => s.(missingBulb := b)
  }

  /** A finish request marks slot `k` to be finished. */
  function MarkFinish(v: seq<SlotObject>, k: int, finishRequested: bool): (r: seq<SlotObject>)
    requires 0 <= k < |v|
    ensures |r| == |v|
  {
    if finishRequested then v[k := v[k].(finishProduction := true)] else v
  }

  /** The verdict of one confirm station on slot `k`: fault `f` is set exactly when the
      station `sees` the fault and the slot is neither finished nor errored. */
  function Confirm(v: seq<SlotObject>, k: int, f: Fault, sees: bool): (r: seq<SlotObject>)
    requires 0 <= k < |v|
    ensures |r| == |v|
  {
    v[k := WithFault(v[k], f, sees && !Inert(v[k]))]
  }

  /** The first phase of one tracker run: the finish request at the failed-eject station,
      then the pipette, bulb and cap confirm stations in that order, each seeing its fault
      only once its startup gate is open. */
  function ClassifyConfirms(v: seq<SlotObject>, ids: StationIds, inp: Inputs, moved: int, finishRequested: bool): (r: seq<SlotObject>)
    requires |v| == SLOT_COUNT && IdsInRange(ids)
    ensures |r| == SLOT_COUNT
  {
    var v1 := MarkFinish(v, ids.failedJunkEject, finishRequested);
    var v2 := Confirm(v1, ids.pipetConfirm, Junk, inp.pipetTipSensor && Opens(Gate.PipetConfirm, moved));
    var v3 := Confirm(v2, ids.bulbInCapConfirm, MissingBulb, !inp.bulbInCapSensor && Opens(Gate.BulbConfirm, moved));
    Confirm(v3, ids.capInWheelConfirm, MissingCap, !inp.capInWheel && Opens(Gate.CapConfirm, moved))
  }

  /** The second phase: the empty check at the eject-confirm station `jc`. */
  function CheckEmpty(v: seq<SlotObject>, jc: int, inp: Inputs, moved: int): (r: seq<SlotObject>)
    requires |v| == SLOT_COUNT && 0 <= jc < SLOT_COUNT
    ensures |r| == SLOT_COUNT
  {
    if Opens(Gate.CheckForEmpty, moved) && inp.slotEmptySensor then v[jc := v[jc].(failedJunkEject := true)]
    else if Opens(Gate.CheckForEmpty, moved) && !inp.slotEmptySensor then v[jc := Emptied(v[jc])]
    else v
  }

  /** The slot-flag updates of one tracker run, before `setSlotErrors` and the scan. */
  function ClassifyStop(v: seq<SlotObject>, ids: StationIds, inp: Inputs, moved: int, finishRequested: bool): (r: seq<SlotObject>)
    requires |v| == SLOT_COUNT && IdsInRange(ids)
    ensures |r| == SLOT_COUNT
  {
    CheckEmpty(ClassifyConfirms(v, ids, inp, moved, finishRequested), ids.junkConfirm, inp, moved)
  }

  /** At each confirm station the fault flag is set exactly when the sensor shows the fault,
      the station's gate is open and the slot there was neither finished nor errored. */
  lemma ClassifyStopConfirmStations(v: seq<SlotObject>, ids: StationIds, inp: Inputs, moved: int, finishRequested: bool)
    requires |v| == SLOT_COUNT && TrackedStationsDistinct(ids)
    ensures ClassifyStop(v, ids, inp, moved, finishRequested)[ids.pipetConfirm].junk <==>
      inp.pipetTipSensor && Opens(Gate.PipetConfirm, moved) && !Inert(v[ids.pipetConfirm])
    ensures ClassifyStop(v, ids, inp, moved, finishRequested)[ids.bulbInCapConfirm].missingBulb <==>
      !inp.bulbInCapSensor && Opens(Gate.BulbConfirm, moved) && !Inert(v[ids.bulbInCapConfirm])
    ensures ClassifyStop(v, ids, inp, moved, finishRequested)[ids.capInWheelConfirm].missingCap <==>
      !inp.capInWheel && Opens(Gate.CapConfirm, moved) && !Inert(v[ids.capInWheelConfirm])
  {
  }

  /** The empty check at the eject-confirm station: a slot seen empty loses every fault and
      its error; a slot seen occupied is marked as a failed eject; a closed gate leaves it. */
  lemma ClassifyStopEmptyCheck(v: seq<SlotObject>, ids: StationIds, inp: Inputs, moved: int, finishRequested: bool)
    requires |v| == SLOT_COUNT && TrackedStationsDistinct(ids)
    ensures Opens(Gate.CheckForEmpty, moved) && !inp.slotEmptySensor ==>
      ClassifyStop(v, ids, inp, moved, finishRequested)[ids.junkConfirm] == Emptied(v[ids.junkConfirm])
    ensures Opens(Gate.CheckForEmpty, moved) && inp.slotEmptySensor ==>
      ClassifyStop(v, ids, inp, moved, finishRequested)[ids.junkConfirm] == v[ids.junkConfirm].(failedJunkEject := true)
    ensures !Opens(Gate.CheckForEmpty, moved) ==>
      ClassifyStop(v, ids, inp, moved, finishRequested)[ids.junkConfirm] == v[ids.junkConfirm]
  {
  }

  /** A finish request marks the slot at the failed-eject station; no other slot than the
      five tracked ones changes. */
  lemma ClassifyStopFrame(v: seq<SlotObject>, ids: StationIds, inp: Inputs, moved: int, finishRequested: bool, k: int)
    requires |v| == SLOT_COUNT && TrackedStationsDistinct(ids) && 0 <= k < SLOT_COUNT
    ensures ClassifyStop(v, ids, inp, moved, finishRequested)[ids.failedJunkEject] ==
      v[ids.failedJunkEject].(finishProduction := v[ids.failedJunkEject].finishProduction || finishRequested)
    ensures k != ids.failedJunkEject && k != ids.pipetConfirm && k != ids.bulbInCapConfirm &&
            k != ids.capInWheelConfirm && k != ids.junkConfirm ==>
      ClassifyStop(v, ids, inp, moved, finishRequested)[k] == v[k]
  {
  }

  lemma SamePlacesTransitive(u: seq<SlotObject>, v: seq<SlotObject>, w: seq<SlotObject>)
    requires SamePlaces(u, v) && SamePlaces(v, w)
    ensures SamePlaces(u, w)
  {
  }

  /** The classification sweep changes flags only. */
  lemma ClassifyStopKeepsPlaces(v: seq<SlotObject>, ids: StationIds, inp: Inputs, moved: int, finishRequested: bool)
    requires |v| == SLOT_COUNT && IdsInRange(ids)
    ensures SamePlaces(v, ClassifyStop(v, ids, inp, moved, finishRequested))
  {
    var c := ClassifyConfirms(v, ids, inp, moved, finishRequested);
    ClassifyConfirmsKeepsPlaces(v, ids, inp, moved, finishRequested);
    CheckEmptyKeepsPlaces(c, ids.junkConfirm, inp, moved);
    SamePlacesTransitive(v, c, CheckEmpty(c, ids.junkConfirm, inp, moved));
  }

  lemma ClassifyConfirmsKeepsPlaces(v: seq<SlotObject>, ids: StationIds, inp: Inputs, moved: int, finishRequested: bool)
    requires |v| == SLOT_COUNT && IdsInRange(ids)
    ensures SamePlaces(v, ClassifyConfirms(v, ids, inp, moved, finishRequested))
  {
  }

  lemma CheckEmptyKeepsPlaces(v: seq<SlotObject>, jc: int, inp: Inputs, moved: int)
    requires |v| == SLOT_COUNT && 0 <= jc < SLOT_COUNT
    ensures SamePlaces(v, CheckEmpty(v, jc, inp, moved))
  {
  }

  lemma MarkErrorsKeepsPlaces(v: seq<SlotObject>)
    ensures SamePlaces(v, MarkErrors(v))
  {
  }

  lemma ScanKeepsPlaces(v: seq<SlotObject>)
    requires |v| == SLOT_COUNT
    ensures SamePlaces(v, Scan(v))
  {
    match FirstOutbreak(v)
    case None =>
    case Some(i) =>
      forall j | 0 <= j < SLOT_COUNT
        ensures Scan(v)[j].id == v[j].id && Scan(v)[j].position == v[j].position
      {
        ContainAtChangesOnlyTheTriple(v, i, j);
      }
  }
}
