/** The dwell-window schedulers of the control loop, as values: one call of
    `handleCapInjection`, `handleBulbSystem` or `handlePipetSystem` maps the scheduler's
    `static` locals, the readiness flags and the pin levels it drives to their new values.
    The dwell fractions are read from the stop time each scheduler keeps for itself. */
module Schedulers {
  import opened Io
  import opened Machine
  import opened Timing

  // ---------------------------------------------------------------------------
  // handleCapInjection

  /** The cap-inject pin level and `capInjectionReady` after one call. */
  datatype Cap = Cap(inject: bool, ready: bool)

  /** One call of `handleCapInjection`. `inert` is whether the slot at the failed-eject
      station (position 0) is errored or finished. */
  function CapStep(ready: bool, producing: bool, inert: bool, moving: bool, capAtPosition: bool): (r: Cap)
    ensures r.inject <==> producing && !inert
    ensures moving ==> !r.ready
    ensures !moving && (capAtPosition || inert) ==> r.ready
    ensures r.ready && !ready ==> !moving && (capAtPosition || inert)
  {
    var ready1 := if !moving && capAtPosition then true else ready;
    var ready2 := if inert then true else ready1;
    Cap(producing && !inert, if moving then false else ready2)
  }

  // ---------------------------------------------------------------------------
  // handleBulbSystem

  /** The state one call of `handleBulbSystem` changes: its `static` locals (the preload
      latch, the stop time and `ramExtended`), `bulbSystemReady`, `bulbPreLoadReady`,
      `bulbPresent`, and the preload-cylinder and bulb-ram pin levels. */
  datatype Bulb = Bulb(
    latch: Preload,
    stopTime: u32,
    ramExtended: bool,
    systemReady: bool,
    preloadReady: bool,
    bulbPresent: bool,
    cylinder: bool,
    ram: bool)

  /** What the call reads besides its own state: the motor, the production mode, the
      completed advances, and whether the slots at the preload and injection stations are
      errored or finished. */
  datatype BulbView = BulbView(moving: bool, producing: bool, moved: int, preloadInert: bool, injectInert: bool)

  /** The motor-edge block: the idle edge records the stop time and arms the preload latch
      for this stop; the moving edge makes both bulb subsystems not ready and disarms it. */
  function BulbEdges(b: Bulb, moving: bool, now: u32): (r: Bulb)
    ensures r.latch.lastMotor == moving
    ensures r.(latch := b.latch, stopTime := b.stopTime, systemReady := b.systemReady, preloadReady := b.preloadReady) == b
  {
    var movingEdge := !b.latch.lastMotor && moving;
    b.(latch := PreloadStep(b.latch, moving, false).next,
       stopTime := if b.latch.lastMotor && !moving then now else b.stopTime,
       systemReady := !movingEdge && b.systemReady,
       preloadReady := !movingEdge && b.preloadReady)
  }

  /** Whether the preload latch fires in this call, after the motor-edge block: idle,
      armed, not yet fired this stop, the gate open and a bulb in the preload position. */
  predicate PreloadFires(b: Bulb, v: BulbView, inp: Inputs)
  {
    !v.moving && b.latch.armed && !b.latch.fired && Opens(Gate.PreLoadBulbProcess, v.moved) && inp.bulbInPreLoadPosSensor
  }

  /** The first half of the preloader block: a closed gate makes the preloader ready; the
      latch fires, raising the cylinder while in production for a slot neither errored nor
      finished; an errored or finished slot makes it ready while idle with the cylinder
      away from home. */
  function PreloadFire(b: Bulb, v: BulbView, inp: Inputs): (r: Bulb)
    ensures r.(latch := b.latch, preloadReady := b.preloadReady, cylinder := b.cylinder) == b
    ensures r.latch == b.latch.(fired := b.latch.fired || PreloadFires(b, v, inp))
  {
    var fire := PreloadFires(b, v, inp);
    b.(latch := b.latch.(fired := b.latch.fired || fire),
       preloadReady := b.preloadReady || !Opens(Gate.PreLoadBulbProcess, v.moved) ||
                       (!v.moving && !inp.preLoadCylinderHomeSensor && v.preloadInert),
       cylinder := b.cylinder || (fire && v.producing && !v.preloadInert))
  }

  /** The second half, `e` microseconds into the dwell: a latch fired this stop retracts
      the cylinder from 95% of the dwell on, which makes the preloader ready with the
      cylinder away from home. */
  function PreloadRetract(b: Bulb, inp: Inputs, e: u32, pauseAfter: int): (r: Bulb)
    ensures r.(preloadReady := b.preloadReady, cylinder := b.cylinder) == b
  {
    if b.latch.fired && Reached(e, pauseAfter, 95) then
      b.(cylinder := false, preloadReady := b.preloadReady || !inp.preLoadCylinderHomeSensor)
    else b
  }

  /** The preloader block. */
  function Preloader(b: Bulb, v: BulbView, inp: Inputs, e: u32, pauseAfter: int): (r: Bulb)
    ensures r.(latch := b.latch, preloadReady := b.preloadReady, cylinder := b.cylinder) == b
    ensures r.latch == b.latch.(fired := b.latch.fired || PreloadFires(b, v, inp))
  {
    PreloadRetract(PreloadFire(b, v, inp), inp, e, pauseAfter)
  }

  /** The extend half of the bulb-ram block while idle, `e` microseconds into the dwell:
      over [1%, 95%) of the dwell with the ram low, a cap holding a bulb gets the ram (for a
      slot neither errored nor finished) and an empty one records the missing bulb; an
      errored or finished slot makes the subsystem ready once the ram is home. */
  function BulbRamExtend(b: Bulb, v: BulbView, inp: Inputs, e: u32, pauseAfter: int): (r: Bulb)
    ensures r.(systemReady := b.systemReady, ram := b.ram, ramExtended := b.ramExtended, bulbPresent := b.bulbPresent) == b
  {
    var window := Reached(e, pauseAfter, 1) && !Reached(e, pauseAfter, 95) && !b.ram;
    b.(ram := b.ram || (window && inp.bulbInCapSensor && !v.injectInert),
       ramExtended := b.ramExtended || (window && inp.bulbInCapSensor),
       bulbPresent := if window && !inp.bulbInCapSensor then false else b.bulbPresent,
       systemReady := b.systemReady || (inp.bulbRamHomeSensor && v.injectInert))
  }

  /** The retract half: the ram is lowered from 95% of the dwell on, and an extended ram
      seen home again with its pin low makes the subsystem ready. */
  function BulbRamRetract(b: Bulb, inp: Inputs, e: u32, pauseAfter: int): (r: Bulb)
    ensures r.(systemReady := b.systemReady, ram := b.ram, ramExtended := b.ramExtended) == b
  {
    var ram := if Reached(e, pauseAfter, 95) && b.ram then false else b.ram;
    var home := b.ramExtended && inp.bulbRamHomeSensor && !ram;
    b.(ram := ram, ramExtended := if home then false else b.ramExtended, systemReady := b.systemReady || home)
  }

  /** The bulb-ram block, `e` microseconds into the dwell: with the gate closed the
      subsystem is ready; while moving nothing happens; while idle the ram extends, then
      retracts. */
  function BulbRam(b: Bulb, v: BulbView, inp: Inputs, e: u32, pauseAfter: int): (r: Bulb)
    ensures r.(systemReady := b.systemReady, ram := b.ram, ramExtended := b.ramExtended, bulbPresent := b.bulbPresent) == b
  {
    if !Opens(Gate.BulbProcess, v.moved) then b.(systemReady := true)
    else if v.moving then b
    else BulbRamRetract(BulbRamExtend(b, v, inp, e, pauseAfter), inp, e, pauseAfter)
  }

  /** One call of `handleBulbSystem`: the motor edges, the preloader, then the bulb ram,
      both timed from the stop time the edge block leaves. */
  function BulbStep(b: Bulb, v: BulbView, inp: Inputs, now: u32, pauseAfter: int): (r: Bulb)
    ensures r.latch.lastMotor == v.moving
    ensures r.stopTime == if b.latch.lastMotor && !v.moving then now else b.stopTime
  {
    var d := BulbEdges(b, v.moving, now);
    var e := Elapsed(now, d.stopTime);
    BulbRam(Preloader(d, v, inp, e, pauseAfter), v, inp, e, pauseAfter)
  }

  /** The latch of a call fires exactly when the preload one-shot of the timing model
      fires for the same motor state and readiness. */
  lemma PreloadFiresIsLatchStep(b: Bulb, v: BulbView, inp: Inputs, now: u32, pauseAfter: int)
    ensures var p := PreloadStep(b.latch, v.moving, Opens(Gate.PreLoadBulbProcess, v.moved) && inp.bulbInPreLoadPosSensor);
      PreloadFires(BulbEdges(b, v.moving, now), v, inp) == p.fire &&
      BulbStep(b, v, inp, now, pauseAfter).latch == p.next
  {
  }

  /** The bulb ram is raised only while idle with the gate open, within [1%, 95%) of the
      dwell, into a cap holding a bulb, for a slot neither errored nor finished; from 95%
      of the dwell on it is low. */
  lemma BulbRamWindow(b: Bulb, v: BulbView, inp: Inputs, now: u32, pauseAfter: int)
    ensures var r := BulbStep(b, v, inp, now, pauseAfter);
      var e := Elapsed(now, r.stopTime);
      (r.ram && !b.ram ==>
         !v.moving && Opens(Gate.BulbProcess, v.moved) &&
         Reached(e, pauseAfter, 1) && !Reached(e, pauseAfter, 95) && inp.bulbInCapSensor && !v.injectInert) &&
      (!v.moving && Opens(Gate.BulbProcess, v.moved) && Reached(e, pauseAfter, 95) ==> !r.ram)
  {
  }

  /** The preload cylinder is raised only by the latch firing, in production, for a slot
      neither errored nor finished; once the latch has fired this stop and 95% of the dwell
      has passed it is low. */
  lemma PreloadCylinderWindow(b: Bulb, v: BulbView, inp: Inputs, now: u32, pauseAfter: int)
    ensures var r := BulbStep(b, v, inp, now, pauseAfter);
      var fire := PreloadStep(b.latch, v.moving, Opens(Gate.PreLoadBulbProcess, v.moved) && inp.bulbInPreLoadPosSensor).fire;
      (r.cylinder && !b.cylinder ==> fire && v.producing && !v.preloadInert && !v.moving) &&
      (r.latch.fired && Reached(Elapsed(now, r.stopTime), pauseAfter, 95) ==> !r.cylinder)
  {
  }

  /** A closed gate makes its part of the bulb subsystem ready; so does, while idle, an
      errored or finished slot at the injection station once the ram is home, or at the
      pre-load station once the cylinder home sensor reads LOW. */
  lemma BulbReadyForced(b: Bulb, v: BulbView, inp: Inputs, now: u32, pauseAfter: int)
    ensures var r := BulbStep(b, v, inp, now, pauseAfter);
      (!Opens(Gate.BulbProcess, v.moved) ==> r.systemReady) &&
      (!Opens(Gate.PreLoadBulbProcess, v.moved) ==> r.preloadReady) &&
      (Opens(Gate.BulbProcess, v.moved) && !v.moving && inp.bulbRamHomeSensor && v.injectInert ==> r.systemReady) &&
      (!v.moving && !inp.preLoadCylinderHomeSensor && v.preloadInert ==> r.preloadReady)
  {
  }

  /** Starting to move makes both bulb subsystems not ready while their gates are open;
      only the retract of a preload fired at the last stop, with the cylinder home sensor
      LOW, makes the preloader ready again in that call. */
  lemma BulbNotReadyOnMovingEdge(b: Bulb, v: BulbView, inp: Inputs, now: u32, pauseAfter: int)
    requires !b.latch.lastMotor && v.moving
    ensures var r := BulbStep(b, v, inp, now, pauseAfter);
      var retracted := r.latch.fired && Reached(Elapsed(now, r.stopTime), pauseAfter, 95) && !inp.preLoadCylinderHomeSensor;
      (Opens(Gate.BulbProcess, v.moved) ==> !r.systemReady) &&
      (Opens(Gate.PreLoadBulbProcess, v.moved) && !retracted ==> !r.preloadReady)
  {
  }

  // ---------------------------------------------------------------------------
  // handlePipetSystem

  /** The state one call of `handlePipetSystem` changes: its `static` locals (homing done,
      the last motor state, the stop time), `pipetSystemReady`, and the twister and ram
      pin levels. */
  datatype Pipet = Pipet(homed: bool, lastMotor: bool, stopTime: u32, ready: bool, twister: bool, ram: bool)

  /** The idle branch with the gate open: the ram is raised over [1%, 90%) of the dwell for
      a slot neither errored nor finished and lowered from 90% on, when the subsystem is
      ready if the twister is home; the twister is turned back from 75% on. */
  function PipetDwell(p: Pipet, inert: bool, twisterHome: bool, e: u32, pauseAfter: int): (r: Pipet)
    ensures r.(ram := p.ram, ready := p.ready, twister := p.twister) == p
  {
    var ram1 := if Reached(e, pauseAfter, 1) && !Reached(e, pauseAfter, 90) && !p.ram && !inert then true else p.ram;
    p.(ram := if Reached(e, pauseAfter, 90) then false else ram1,
       ready := if Reached(e, pauseAfter, 90) && twisterHome then true else p.ready,
       twister := if Reached(e, pauseAfter, 75) && p.twister && !inert then false else p.twister)
  }

  /** One call of `handlePipetSystem`. Until the twister has first been seen home the call
      only drives it towards home. `inert` is whether the slot at the pipette-injection
      station is errored or finished. */
  function PipetStep(p: Pipet, moving: bool, moved: int, inert: bool, stepsTaken: int, twisterHome: bool,
                     now: u32, pauseAfter: int): (r: Pipet)
    ensures !p.homed ==> r.homed == twisterHome && r.twister == !twisterHome && r.ram == p.ram && r.ready == p.ready
    ensures p.homed ==> r.homed && r.lastMotor == moving
    ensures p.homed ==> r.stopTime == if p.lastMotor && !moving then now else p.stopTime
  {
    if !p.homed then
      if !twisterHome then p.(twister := true) else p.(twister := false, homed := true)
    else
      var q := p.(lastMotor := moving, stopTime := if p.lastMotor && !moving then now else p.stopTime);
      PipetCycle(q, moving, moved, inert, stepsTaken, twisterHome, now, pauseAfter)
  }

  /** The homed part of `handlePipetSystem`, after the stop time has been taken. */
  function PipetCycle(q: Pipet, moving: bool, moved: int, inert: bool, stepsTaken: int, twisterHome: bool,
                      now: u32, pauseAfter: int): (r: Pipet)
    ensures r.(ram := q.ram, ready := q.ready, twister := q.twister) == q
    ensures !Opens(Gate.PipetProcess, moved) || inert ==> r.ready
    ensures Opens(Gate.PipetProcess, moved) && moving && !inert ==> !r.ready && r.ram == q.ram
  {
    if Opens(Gate.PipetProcess, moved) then
      var r := if moving then q.(twister := q.twister || QuarterMoved(stepsTaken), ready := false)
               else PipetDwell(q, inert, twisterHome, Elapsed(now, q.stopTime), pauseAfter);
      if inert then r.(ready := true) else r
    else q.(twister := true, ready := true)
  }

  /** The pipette ram is raised only while homed, idle and with the gate open, within
      [1%, 90%) of the dwell, for a slot neither errored nor finished; from 90% on it is low. */
  lemma PipetRamWindow(p: Pipet, moving: bool, moved: int, inert: bool, stepsTaken: int, twisterHome: bool,
                       now: u32, pauseAfter: int)
    ensures var r := PipetStep(p, moving, moved, inert, stepsTaken, twisterHome, now, pauseAfter);
      var e := Elapsed(now, r.stopTime);
      (r.ram && !p.ram ==>
         p.homed && !moving && Opens(Gate.PipetProcess, moved) && !inert &&
         Reached(e, pauseAfter, 1) && !Reached(e, pauseAfter, 90)) &&
      (p.homed && !moving && Opens(Gate.PipetProcess, moved) && Reached(e, pauseAfter, 90) ==> !r.ram)
  {
  }

  /** Once homed, the twister is raised while moving with the gate open only after a
      quarter of the move, and during homing only while the twister is away from home. */
  lemma PipetTwisterRaise(p: Pipet, moving: bool, moved: int, inert: bool, stepsTaken: int, twisterHome: bool,
                          now: u32, pauseAfter: int)
    ensures var r := PipetStep(p, moving, moved, inert, stepsTaken, twisterHome, now, pauseAfter);
      (p.homed && moving && Opens(Gate.PipetProcess, moved) ==> (r.twister <==> p.twister || QuarterMoved(stepsTaken))) &&
      (!p.homed ==> r.twister == !twisterHome && r.homed == twisterHome)
  {
  }

  /** A closed gate, or an errored or finished slot at the injection station, makes the
      pipette subsystem ready once homed; moving with the gate open and a live slot makes
      it not ready. */
  lemma PipetReadyForced(p: Pipet, moving: bool, moved: int, inert: bool, stepsTaken: int, twisterHome: bool,
                         now: u32, pauseAfter: int)
    requires p.homed
    ensures var r := PipetStep(p, moving, moved, inert, stepsTaken, twisterHome, now, pauseAfter);
      (!Opens(Gate.PipetProcess, moved) || inert ==> r.ready) &&
      (Opens(Gate.PipetProcess, moved) && moving && !inert ==> !r.ready)
  {
  }
}
