/** One carrier of the 16-slot carousel: its permanent id, the station it stands at,
    and its defect and finish-production flags.

    The controller keeps its slots in a C++ array of objects held by value, so each
    slot is modelled as a value: a getter reads a field, and a setter returns the slot
    with that one field replaced, which the caller stores back into its array element. */
module Slot {

  const SLOT_COUNT := 16

  /** C++ `a % 16` on `int`: truncating division, so the remainder has the sign of `a`. */
  function TruncMod16(a: int): (r: int)
    ensures (a - r) % 16 == 0
    ensures a >= 0 ==> 0 <= r < 16
    ensures a < 0 ==> -16 < r <= 0
  {
    if a >= 0 then a % 16 else -((-a) % 16)
  }

  /** The stations a slot can be asked about; the two bulb stations share position 6. */
  datatype Station =
    | FailedJunkEject | CapInjection | CapConfirm | BulbPreLoad | BulbInjection | BulbConfirm
    | PipetInjection | PipetConfirm | CompletedEjection | JunkEjection | JunkEjectConfirm

  /** The position number of each station. */
  function StationPosition(st: Station): (p: int)
    ensures 0 <= p < SLOT_COUNT
  {
    match st
    case FailedJunkEject => 0
    case CapInjection => 1
    case CapConfirm => 2
    case BulbPreLoad => 5
    case BulbInjection => 6
    case BulbConfirm => 6
    case PipetInjection => 9
    case PipetConfirm => 10
    case CompletedEjection => 13
    case JunkEjection => 14
    case JunkEjectConfirm => 15
  }

  datatype SlotObject = SlotObject(
    id: int,
    position: int,
    error: bool,
    junk: bool,
    missingBulb: bool,
    missingCap: bool,
    failedJunkEject: bool,
    finishProduction: bool)
  {
    // Getters

    function GetId(): int { id }
    function GetPosition(): int { position }
    predicate HasError() { error }
    predicate HasJunk() { junk }
    predicate HasMissingBulb() { missingBulb }
    predicate HasMissingCap() { missingCap }
    predicate HasFailedJunkEject() { failedJunkEject }
    predicate ShouldFinishProduction() { finishProduction }

    // Setters: each replaces its own field and keeps every other one

    function SetPosition(p: int): (s: SlotObject)
      ensures s.GetPosition() == TruncMod16(p)
      ensures p >= 0 ==> 0 <= s.GetPosition() < SLOT_COUNT
      ensures s.(position := position) == this
    {
      this.(position := TruncMod16(p))
    }

    function SetError(b: bool): (s: SlotObject)
      ensures s.HasError() == b && s.(error := error) == this
    {
      this.(error := b)
    }

    function SetJunk(b: bool): (s: SlotObject)
      ensures s.HasJunk() == b && s.(junk := junk) == this
    {
      this.(junk := b)
    }

    function SetMissingBulb(b: bool): (s: SlotObject)
      ensures s.HasMissingBulb() == b && s.(missingBulb := missingBulb) == this
    {
      this.(missingBulb := b)
    }

    function SetMissingCap(b: bool): (s: SlotObject)
      ensures s.HasMissingCap() == b && s.(missingCap := missingCap) == this
    {
      this.(missingCap := b)
    }

    function SetFailedJunkEject(b: bool): (s: SlotObject)
      ensures s.HasFailedJunkEject() == b && s.(failedJunkEject := failedJunkEject) == this
    {
      this.(failedJunkEject := b)
    }

    function SetFinishProduction(b: bool): (s: SlotObject)
      ensures s.ShouldFinishProduction() == b && s.(finishProduction := finishProduction) == this
    {
      this.(finishProduction := b)
    }

    // Position checks

    predicate IsAtFailedJunkEject() { position == 0 }
    predicate IsAtCapInjection() { position == 1 }
    predicate IsAtCapConfirm() { position == 2 }
    predicate IsAtBulbPreLoad() { position == 5 }
    predicate IsAtBulbInjection() { position == 6 }
    predicate IsAtBulbConfirm() { position == 6 }
    predicate IsAtPipetInjection() { position == 9 }
    predicate IsAtPipetConfirm() { position == 10 }
    predicate IsAtCompletedEjection() { position == 13 }
    predicate IsAtJunkEjection() { position == 14 }
    predicate IsAtJunkEjectConfirm() { position == 15 }

    /** The position check belonging to station `st`. */
    predicate IsAt(st: Station)
    {
      match st
      case FailedJunkEject => IsAtFailedJunkEject()
      case CapInjection => IsAtCapInjection()
      case CapConfirm => IsAtCapConfirm()
      case BulbPreLoad => IsAtBulbPreLoad()
      case BulbInjection => IsAtBulbInjection()
      case BulbConfirm => IsAtBulbConfirm()
      case PipetInjection => IsAtPipetInjection()
      case PipetConfirm => IsAtPipetConfirm()
      case CompletedEjection => IsAtCompletedEjection()
      case JunkEjection => IsAtJunkEjection()
      case JunkEjectConfirm => IsAtJunkEjectConfirm()
    }
  }

  /** `SlotObject(int id)`. Its body is not part of the source; this model assumes it
      stores the id and leaves the position at 0 and every flag false. */
  function NewSlot(id: int): (s: SlotObject)
    ensures s.GetId() == id && s.GetPosition() == 0
    ensures !s.HasError() && !s.HasJunk() && !s.HasMissingBulb() && !s.HasMissingCap()
    ensures !s.HasFailedJunkEject() && !s.ShouldFinishProduction()
  {
    SlotObject(id, 0, false, false, false, false, false, false)
  }

  /** Each position check holds at exactly one position, its station's number. */
  lemma IsAtExactlyOnePosition(s: SlotObject, st: Station)
    ensures s.IsAt(st) <==> s.GetPosition() == StationPosition(st)
  {
  }

  /** Two position checks that hold together name the same station, or are the bulb
      injection and bulb confirm checks, which both mean position 6. */
  lemma StationsExclusive(s: SlotObject, a: Station, b: Station)
    requires s.IsAt(a) && s.IsAt(b)
    ensures a == b || (a in {BulbInjection, BulbConfirm} && b in {BulbInjection, BulbConfirm})
  {
  }

  /** No station stands at positions 3, 4, 7, 8, 11 and 12. */
  lemma NoStationAtGaps(s: SlotObject, st: Station)
    requires s.GetPosition() in {3, 4, 7, 8, 11, 12}
    ensures !s.IsAt(st)
  {
  }

  /** After `setPosition(p)` exactly the check of the station numbered `p % 16` holds; a
      negative `p` leaves the slot at no station unless it is a multiple of 16. */
  lemma SetPositionSelectsStation(s: SlotObject, p: int, st: Station)
    ensures s.SetPosition(p).IsAt(st) <==> TruncMod16(p) == StationPosition(st)
    ensures p < 0 && p % 16 != 0 ==> !s.SetPosition(p).IsAt(st)
  {
  }

  /** Calling a setter twice keeps the last value, for every setter. */
  lemma SettersOverwrite(s: SlotObject, p: int, q: int, a: bool, b: bool)
    ensures s.SetPosition(p).SetPosition(q) == s.SetPosition(q)
    ensures s.SetError(a).SetError(b) == s.SetError(b)
    ensures s.SetJunk(a).SetJunk(b) == s.SetJunk(b)
    ensures s.SetMissingBulb(a).SetMissingBulb(b) == s.SetMissingBulb(b)
    ensures s.SetMissingCap(a).SetMissingCap(b) == s.SetMissingCap(b)
    ensures s.SetFailedJunkEject(a).SetFailedJunkEject(b) == s.SetFailedJunkEject(b)
    ensures s.SetFinishProduction(a).SetFinishProduction(b) == s.SetFinishProduction(b)
  {
  }

  /** `setPosition` commutes with every flag setter. */
  lemma SetPositionCommutes(s: SlotObject, p: int, a: bool)
    ensures s.SetPosition(p).SetError(a) == s.SetError(a).SetPosition(p)
    ensures s.SetPosition(p).SetJunk(a) == s.SetJunk(a).SetPosition(p)
    ensures s.SetPosition(p).SetMissingBulb(a) == s.SetMissingBulb(a).SetPosition(p)
    ensures s.SetPosition(p).SetMissingCap(a) == s.SetMissingCap(a).SetPosition(p)
    ensures s.SetPosition(p).SetFailedJunkEject(a) == s.SetFailedJunkEject(a).SetPosition(p)
    ensures s.SetPosition(p).SetFinishProduction(a) == s.SetFinishProduction(a).SetPosition(p)
  {
  }

  /** `setError` commutes with every other flag setter. */
  lemma SetErrorCommutes(s: SlotObject, a: bool, b: bool)
    ensures s.SetError(a).SetJunk(b) == s.SetJunk(b).SetError(a)
    ensures s.SetError(a).SetMissingBulb(b) == s.SetMissingBulb(b).SetError(a)
    ensures s.SetError(a).SetMissingCap(b) == s.SetMissingCap(b).SetError(a)
    ensures s.SetError(a).SetFailedJunkEject(b) == s.SetFailedJunkEject(b).SetError(a)
    ensures s.SetError(a).SetFinishProduction(b) == s.SetFinishProduction(b).SetError(a)
  {
  }

  /** `setJunk` commutes with the remaining flag setters. */
  lemma SetJunkCommutes(s: SlotObject, a: bool, b: bool)
    ensures s.SetJunk(a).SetMissingBulb(b) == s.SetMissingBulb(b).SetJunk(a)
    ensures s.SetJunk(a).SetMissingCap(b) == s.SetMissingCap(b).SetJunk(a)
    ensures s.SetJunk(a).SetFailedJunkEject(b) == s.SetFailedJunkEject(b).SetJunk(a)
    ensures s.SetJunk(a).SetFinishProduction(b) == s.SetFinishProduction(b).SetJunk(a)
  {
  }

  /** The missing-bulb, missing-cap, failed-eject and finish setters commute pairwise. */
  lemma OtherFlagSettersCommute(s: SlotObject, a: bool, b: bool)
    ensures s.SetMissingBulb(a).SetMissingCap(b) == s.SetMissingCap(b).SetMissingBulb(a)
    ensures s.SetMissingBulb(a).SetFailedJunkEject(b) == s.SetFailedJunkEject(b).SetMissingBulb(a)
    ensures s.SetMissingBulb(a).SetFinishProduction(b) == s.SetFinishProduction(b).SetMissingBulb(a)
    ensures s.SetMissingCap(a).SetFailedJunkEject(b) == s.SetFailedJunkEject(b).SetMissingCap(a)
    ensures s.SetMissingCap(a).SetFinishProduction(b) == s.SetFinishProduction(b).SetMissingCap(a)
    ensures s.SetFailedJunkEject(a).SetFinishProduction(b) == s.SetFinishProduction(b).SetFailedJunkEject(a)
  {
  }
}
