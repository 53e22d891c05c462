/** The carousel index model: where each slot stands for a given rotational origin,
    which slot stands at each station, and how one advance moves the origin. */
module Carousel {
  import opened Slot

  /** The station of slot `id` when the origin is `home` (`(currentHomePosition + id) % 16`;
      both operands are non-negative, so C++ and Dafny remainders agree). */
  function PositionOf(home: nat, id: nat): (p: nat)
    ensures p < SLOT_COUNT
  {
    (home + id) % SLOT_COUNT
  }

  /** The id of the slot standing at station `p` when the origin is `home`. */
  function SlotAt(home: nat, p: nat): (id: nat)
    ensures id < SLOT_COUNT
  {
    (p - home) % SLOT_COUNT
  }

  lemma SlotAtInvertsPositionOf(home: nat, id: nat)
    requires id < SLOT_COUNT
    ensures SlotAt(home, PositionOf(home, id)) == id
  {
    var k := (home + id) / SLOT_COUNT;
    assert PositionOf(home, id) - home == id - SLOT_COUNT * k;
  }

  lemma PositionOfInvertsSlotAt(home: nat, p: nat)
    requires p < SLOT_COUNT
    ensures PositionOf(home, SlotAt(home, p)) == p
  {
    var k := (p - home) / SLOT_COUNT;
    assert home + SlotAt(home, p) == p - SLOT_COUNT * k;
  }

  /** With the origin at 0 every slot stands at the station numbered by its id. */
  lemma OriginLayoutIsIdentity(id: nat)
    requires id < SLOT_COUNT
    ensures PositionOf(0, id) == id
  {
  }

  /** Distinct slots never share a station. */
  lemma PositionsInjective(home: nat, i: nat, j: nat)
    requires i < SLOT_COUNT && j < SLOT_COUNT && PositionOf(home, i) == PositionOf(home, j)
    ensures i == j
  {
    SlotAtInvertsPositionOf(home, i);
    SlotAtInvertsPositionOf(home, j);
  }

  /** The numbers below `n`. */
  function Below(n: nat): (r: set<nat>)
    ensures forall p: nat :: p in r <==> p < n
  {
    if n == 0 then {} else Below(n - 1) + {n - 1}
  }

  /** The 16 positions of one layout are exactly the stations 0..15. */
  lemma PositionsArePermutation(home: nat)
    ensures (set id: nat | id < SLOT_COUNT :: PositionOf(home, id)) == Below(SLOT_COUNT)
  {
    var image := set id: nat | id < SLOT_COUNT :: PositionOf(home, id);
    forall p | p in Below(SLOT_COUNT)
      ensures p in image
    {
      PositionOfInvertsSlotAt(home, p);
      assert PositionOf(home, SlotAt(home, p)) in image;
    }
  }

  /** One completed advance: `currentHomePosition = (currentHomePosition + 1) % 16`. */
  function Advance(home: nat): (h: nat)
    ensures h < SLOT_COUNT
  {
    (home + 1) % SLOT_COUNT
  }

  /** The origin after `n` completed advances. */
  function Advances(home: nat, n: nat): nat
  {
    if n == 0 then home else Advance(Advances(home, n - 1))
  }

  lemma {:induction false} AdvancesAddsModulo(home: nat, n: nat)
    requires home < SLOT_COUNT
    ensures Advances(home, n) == (home + n) % SLOT_COUNT
  {
    if n > 0 {
      AdvancesAddsModulo(home, n - 1);
      var k, p := (home + n - 1) / SLOT_COUNT, (home + n - 1) % SLOT_COUNT;
      assert home + n == SLOT_COUNT * k + p + 1;
      if p + 1 == SLOT_COUNT {
        assert home + n == SLOT_COUNT * (k + 1);
      }
    }
  }

  /** Sixteen completed advances bring the origin back to where it started. */
  lemma SixteenAdvancesReturnHome(home: nat)
    requires home < SLOT_COUNT
    ensures Advances(home, SLOT_COUNT) == home
    ensures forall n :: 0 < n < SLOT_COUNT ==> Advances(home, n) != home
  {
    AdvancesAddsModulo(home, SLOT_COUNT);
    forall n | 0 < n < SLOT_COUNT
      ensures Advances(home, n) != home
    {
      FewerAdvancesMoveHome(home, n);
    }
  }

  lemma FewerAdvancesMoveHome(home: nat, n: nat)
    requires home < SLOT_COUNT && 0 < n < SLOT_COUNT
    ensures Advances(home, n) != home
  {
    AdvancesAddsModulo(home, n);
    if home + n >= SLOT_COUNT {
      assert (home + n) % SLOT_COUNT == home + n - SLOT_COUNT;
    }
  }

  /** After an advance every slot stands one station further on. */
  lemma AdvanceMovesEverySlotOneStation(home: nat, id: nat)
    requires home < SLOT_COUNT
    ensures PositionOf(Advance(home), id) == (PositionOf(home, id) + 1) % SLOT_COUNT
  {
  }

  /** The ids the controller keeps for the slot at each station (`slotId*` in main.cpp). */
  datatype StationIds = StationIds(
    capInWheelInjection: int,
    capInWheelConfirm: int,
    bulbPreLoad: int,
    bulbInjection: int,
    bulbInCapConfirm: int,
    pipetInjection: int,
    pipetConfirm: int,
    dropperEjection: int,
    junkEjection: int,
    junkConfirm: int,
    failedJunkEject: int)

  /** The id kept for station `st`. */
  function IdAt(ids: StationIds, st: Station): int
  {
    match st
    case FailedJunkEject => ids.failedJunkEject
    case CapInjection => ids.capInWheelInjection
    case CapConfirm => ids.capInWheelConfirm
    case BulbPreLoad => ids.bulbPreLoad
    case BulbInjection => ids.bulbInjection
    case BulbConfirm => ids.bulbInCapConfirm
    case PipetInjection => ids.pipetInjection
    case PipetConfirm => ids.pipetConfirm
    case CompletedEjection => ids.dropperEjection
    case JunkEjection => ids.junkEjection
    case JunkEjectConfirm => ids.junkConfirm
  }

  predicate IdsInRange(ids: StationIds)
  {
    0 <= ids.capInWheelInjection < SLOT_COUNT && 0 <= ids.capInWheelConfirm < SLOT_COUNT &&
    0 <= ids.bulbPreLoad < SLOT_COUNT && 0 <= ids.bulbInjection < SLOT_COUNT &&
    0 <= ids.bulbInCapConfirm < SLOT_COUNT && 0 <= ids.pipetInjection < SLOT_COUNT &&
    0 <= ids.pipetConfirm < SLOT_COUNT && 0 <= ids.dropperEjection < SLOT_COUNT &&
    0 <= ids.junkEjection < SLOT_COUNT && 0 <= ids.junkConfirm < SLOT_COUNT &&
    0 <= ids.failedJunkEject < SLOT_COUNT
  }

  /** The station ids for the layout with origin `home`. */
  function StationsFor(home: nat): (ids: StationIds)
    ensures IdsInRange(ids)
  {
    StationIds(SlotAt(home, 1), SlotAt(home, 2), SlotAt(home, 5), SlotAt(home, 6), SlotAt(home, 6),
               SlotAt(home, 9), SlotAt(home, 10), SlotAt(home, 13), SlotAt(home, 14), SlotAt(home, 15),
               SlotAt(home, 0))
  }

  /** Each station id names the unique slot standing at that station. */
  lemma StationsForNamesTheSlotThere(home: nat, st: Station, id: nat)
    requires id < SLOT_COUNT
    ensures PositionOf(home, IdAt(StationsFor(home), st)) == StationPosition(st)
    ensures PositionOf(home, id) == StationPosition(st) <==> id == IdAt(StationsFor(home), st)
  {
    PositionOfInvertsSlotAt(home, StationPosition(st));
    SlotAtInvertsPositionOf(home, id);
  }

  /** Stations at different positions hold different slots. */
  lemma StationsForDistinct(home: nat, a: Station, b: Station)
    requires StationPosition(a) != StationPosition(b)
    ensures IdAt(StationsFor(home), a) != IdAt(StationsFor(home), b)
  {
    StationsForNamesTheSlotThere(home, a, 0);
    StationsForNamesTheSlotThere(home, b, 0);
  }

  /** Two id records that agree at every station are equal. */
  lemma StationIdsExtensional(a: StationIds, b: StationIds)
    requires forall st :: IdAt(a, st) == IdAt(b, st)
    ensures a == b
  {
    assert IdAt(a, FailedJunkEject) == IdAt(b, FailedJunkEject) && IdAt(a, CapInjection) == IdAt(b, CapInjection);
    assert IdAt(a, CapConfirm) == IdAt(b, CapConfirm) && IdAt(a, BulbPreLoad) == IdAt(b, BulbPreLoad);
    assert IdAt(a, BulbInjection) == IdAt(b, BulbInjection) && IdAt(a, BulbConfirm) == IdAt(b, BulbConfirm);
    assert IdAt(a, PipetInjection) == IdAt(b, PipetInjection) && IdAt(a, PipetConfirm) == IdAt(b, PipetConfirm);
    assert IdAt(a, CompletedEjection) == IdAt(b, CompletedEjection) && IdAt(a, JunkEjection) == IdAt(b, JunkEjection);
    assert IdAt(a, JunkEjectConfirm) == IdAt(b, JunkEjectConfirm);
  }

  /** One iteration of `setSlotIdByPosition`: every station numbered `p` takes `id`. */
  function AssignAt(ids: StationIds, p: int, id: int): (r: StationIds)
    ensures forall st :: IdAt(r, st) == if StationPosition(st) == p then id else IdAt(ids, st)
  {
    ids.(capInWheelInjection := if p == 1 then id else ids.capInWheelInjection,
         capInWheelConfirm := if p == 2 then id else ids.capInWheelConfirm,
         bulbPreLoad := if p == 5 then id else ids.bulbPreLoad,
         bulbInjection := if p == 6 then id else ids.bulbInjection,
         bulbInCapConfirm := if p == 6 then id else ids.bulbInCapConfirm,
         pipetInjection := if p == 9 then id else ids.pipetInjection,
         pipetConfirm := if p == 10 then id else ids.pipetConfirm,
         dropperEjection := if p == 13 then id else ids.dropperEjection,
         junkEjection := if p == 14 then id else ids.junkEjection,
         junkConfirm := if p == 15 then id else ids.junkConfirm,
         failedJunkEject := if p == 0 then id else ids.failedJunkEject)
  }

  /** The ids after visiting the slots `v` in index order. */
  function AssignAll(ids: StationIds, v: seq<SlotObject>): StationIds
    decreases |v|
  {
    if |v| == 0 then ids else AssignAt(AssignAll(ids, v[..|v| - 1]), v[|v| - 1].position, v[|v| - 1].id)
  }

  /** The slots of layout `home`, in id order. */
  predicate LaidOut(v: seq<SlotObject>, home: nat)
  {
    forall j :: 0 <= j < |v| ==> v[j].id == j && v[j].position == PositionOf(home, j)
  }

  /** Visiting a prefix of a layout gives each station the id of the slot there when that
      slot is in the prefix, and leaves the station's old id otherwise. */
  lemma {:induction false} AssignAllOverLayout(ids: StationIds, v: seq<SlotObject>, home: nat, st: Station)
    requires |v| <= SLOT_COUNT && LaidOut(v, home)
    ensures IdAt(AssignAll(ids, v), st) ==
      if SlotAt(home, StationPosition(st)) < |v| then SlotAt(home, StationPosition(st)) else IdAt(ids, st)
    decreases |v|
  {
    if |v| > 0 {
      var n := |v| - 1;
      assert LaidOut(v[..n], home);
      AssignAllOverLayout(ids, v[..n], home, st);
      StationsForNamesTheSlotThere(home, st, n);
    }
  }

  /** A full visit of a layout assigns exactly the station ids of that layout, whatever the
      ids were before. */
  lemma AssignAllGivesStationsFor(ids: StationIds, v: seq<SlotObject>, home: nat)
    requires |v| == SLOT_COUNT && LaidOut(v, home)
    ensures AssignAll(ids, v) == StationsFor(home)
  {
    forall st
      ensures IdAt(AssignAll(ids, v), st) == IdAt(StationsFor(home), st)
    {
      AssignAllOverLayout(ids, v, home, st);
    }
    StationIdsExtensional(AssignAll(ids, v), StationsFor(home));
  }
}
