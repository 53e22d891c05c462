/** The controller's view of the hardware: the microsecond and millisecond clocks,
    the discrete inputs sampled once per call, and the discrete outputs. */
module Io {

  /** Values of the Teensy's 32-bit `unsigned long` (micros(), millis()). */
  type u32 = x: int | 0 <= x < 0x1_0000_0000

  /** `now - since` computed in 32-bit unsigned arithmetic, as the controller does
      for every elapsed-time measurement. */
  function Elapsed(now: u32, since: u32): (d: u32)
    ensures since <= now ==> d == now - since
    ensures now < since ==> d == now + 0x1_0000_0000 - since
  {
    (now - since) % 0x1_0000_0000
  }

  /** One sample of every discrete input the core reads; `true` is HIGH. */
  datatype Inputs = Inputs(
    homeSensor: bool,                // LOW when the carousel is at its origin
    pipetTipSensor: bool,            // HIGH when the pipette-confirm station sees a defect
    bulbRamHomeSensor: bool,         // HIGH when the bulb ram is home
    bulbInPreLoadPosSensor: bool,    // HIGH when a bulb waits in the preload position
    preLoadCylinderHomeSensor: bool,
    bulbInCapSensor: bool,           // HIGH when a bulb sits in the cap
    capInWheel: bool,                // HIGH when a cap is present at the cap-confirm station
    capPositionSensor: bool,
    slotEmptySensor: bool,           // HIGH when the slot at the empty check is NOT empty
    pipetTwisterHomeSensor: bool,    // HIGH when the twister is home
    pipetSupplySensor: bool,         // HIGH when the pipette supply is low
    bulbSupplySensor: bool,          // HIGH when the bulb supply is low
    capSupplySensor: bool,           // HIGH when the cap supply is low
    lowAirSensor: bool               // LOW when the air pressure is low
  )

  /** The level last written to each actuator pin; `true` is HIGH. Reading an output
      pin back (`digitalRead(bulbRamPin)`) returns this level. */
  class Outputs {
    var step: bool
    var pipetTwister: bool
    var pipetRam: bool
    var bulbRam: bool
    var bulbPreLoadCylinder: bool
    var capInject: bool
    var junkEjector: bool
    var dropperEject: bool

    /** All actuators LOW, as `setup` leaves them. */
    constructor ()
      ensures !step && !pipetTwister && !pipetRam && !bulbRam
      ensures !bulbPreLoadCylinder && !capInject && !junkEjector && !dropperEject
    {
      step, pipetTwister, pipetRam, bulbRam := false, false, false, false;
      bulbPreLoadCylinder, capInject, junkEjector, dropperEject := false, false, false, false;
    }
  }
}
