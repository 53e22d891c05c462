/** The process-wide machine state: top-level mode flags, per-subsystem readiness,
    the startup-ramp gates over the advance counter, counters and diagnostic flags. */
module Machine {
  import opened Io

  /** The startup-ramp gates, one per `can*Start` query. */
  datatype Gate =
    | CapInject | CapConfirm | PreLoadBulbProcess | BulbProcess | BulbConfirm
    | PipetProcess | PipetConfirm | DropperEjection | JunkEjection | CheckForEmpty

  /** Whether gate `g` is open after `moved` completed advances. */
  predicate Opens(g: Gate, moved: int)
  {
    match g
    case CapInject => moved >= 0
    case CapConfirm => moved > 1
    case PreLoadBulbProcess => moved > 4
    case BulbProcess => moved > 5
    case BulbConfirm => moved > 5
    case PipetProcess => moved > 8
    case PipetConfirm => moved > 9
    case DropperEjection => moved > 12
    case JunkEjection => moved > 13
    case CheckForEmpty => moved > 14
  }

  /** The gates in order of their thresholds. */
  function Rank(g: Gate): nat
  {
    match g
    case CapInject => 0
    case CapConfirm => 1
    case PreLoadBulbProcess => 2
    case BulbProcess => 3
    case BulbConfirm => 3
    case PipetProcess => 4
    case PipetConfirm => 5
    case DropperEjection => 6
    case JunkEjection => 7
    case CheckForEmpty => 8
  }

  /** An open gate implies every gate of lower or equal threshold is open. */
  lemma GatesMonotone(g: Gate, h: Gate, moved: int)
    requires Rank(g) <= Rank(h) && Opens(h, moved)
    ensures Opens(g, moved)
  {
  }

  /** More advances never close a gate. */
  lemma GateStaysOpen(g: Gate, moved: int, later: int)
    requires moved <= later && Opens(g, moved)
    ensures Opens(g, later)
  {
  }

  /** The cap-injection gate is open for every count the machine can reach. */
  lemma CapInjectAlwaysOpen(moved: int)
    requires moved >= 0
    ensures Opens(CapInject, moved)
  {
  }

  class MachineState {
    var hasConsecutiveBulbErrors: bool
    var hasConsecutiveCapErrors: bool
    var hasConsecutivePipetErrors: bool

    var isPaused: bool
    var isStopped: bool
    var inProduction: bool
    var needsHoming: bool

    var positionsMoved: int
    var bulbSystemReady: bool
    var dropperSystemReady: bool
    var capInjectionReady: bool
    var bulbPreLoadReady: bool
    var pipetSystemReady: bool
    var totalDroppersComplete: int
    var totalErroredDroppers: int
    var hasLowAirPressure: bool
    var timeoutMachine: bool
    var bulbPresent: bool

    /** The mode and readiness flags at power-on. */
    predicate Initial()
      reads this
    {
      !hasConsecutiveBulbErrors && !hasConsecutiveCapErrors && !hasConsecutivePipetErrors &&
      isStopped && !isPaused && !inProduction && needsHoming &&
      positionsMoved == 0 && totalDroppersComplete == 0 && totalErroredDroppers == 0 &&
      bulbSystemReady && dropperSystemReady && capInjectionReady && bulbPreLoadReady && pipetSystemReady &&
      !hasLowAirPressure && !timeoutMachine && bulbPresent
    }

    constructor ()
      ensures Initial()
    {
      hasConsecutiveBulbErrors, hasConsecutiveCapErrors, hasConsecutivePipetErrors := false, false, false;
      isPaused, isStopped, inProduction, needsHoming := false, true, false, true;
      positionsMoved := 0;
      bulbSystemReady, dropperSystemReady, capInjectionReady := true, true, true;
      bulbPreLoadReady, pipetSystemReady := true, true;
      totalDroppersComplete, totalErroredDroppers := 0, 0;
      hasLowAirPressure, timeoutMachine, bulbPresent := false, false, true;
    }

    // Counters

    method IncrementDroppersCompleted()
      modifies this`totalDroppersComplete
      ensures totalDroppersComplete == old(totalDroppersComplete) + 1
    {
      totalDroppersComplete := totalDroppersComplete + 1;
    }

    method IncrementErroredDroppers()
      modifies this`totalErroredDroppers
      ensures totalErroredDroppers == old(totalErroredDroppers) + 1
    {
      totalErroredDroppers := totalErroredDroppers + 1;
    }

    function GetCompletedDropperCnt(): int reads this { totalDroppersComplete }
    function GetErrorDropperCnt(): int reads this { totalErroredDroppers }

    method IncrementPositionsMoved()
      modifies this`positionsMoved
      ensures positionsMoved == old(positionsMoved) + 1
    {
      positionsMoved := positionsMoved + 1;
    }

    // Startup-ramp gates

    predicate CanCapInjectStart() reads this { Opens(CapInject, positionsMoved) }
    predicate CanCapConfirmStart() reads this { Opens(CapConfirm, positionsMoved) }
    predicate CanPreLoadBulbProcessStart() reads this { Opens(PreLoadBulbProcess, positionsMoved) }
    predicate CanBulbProcessStart() reads this { Opens(BulbProcess, positionsMoved) }
    predicate CanBulbConfirmStart() reads this { Opens(BulbConfirm, positionsMoved) }
    predicate CanPipetProcessStart() reads this { Opens(PipetProcess, positionsMoved) }
    predicate CanPipetConfirmStart() reads this { Opens(PipetConfirm, positionsMoved) }
    predicate CanDropperEjectionStart() reads this { Opens(DropperEjection, positionsMoved) }
    predicate CanJunkEjectionStart() reads this { Opens(JunkEjection, positionsMoved) }
    predicate CanCheckForEmptyStart() reads this { Opens(CheckForEmpty, positionsMoved) }

    // Mode transitions

    /** From Stopped: production pending on a fresh homing. From Paused: resume. */
    method Start()
      modifies this`needsHoming, this`isStopped, this`inProduction, this`isPaused
      ensures old(isStopped) ==>
        needsHoming && !isStopped && inProduction && isPaused == old(isPaused)
      ensures !old(isStopped) && old(isPaused) ==>
        !isPaused && inProduction && needsHoming == old(needsHoming) && !isStopped
      ensures !old(isStopped) && !old(isPaused) ==>
        needsHoming == old(needsHoming) && !isStopped && !isPaused && inProduction == old(inProduction)
    {
      if isStopped {
        needsHoming := true;
        isStopped := false;
        inProduction := true;
      } else if isPaused {
        isPaused := false;
        inProduction := true;
      }
    }

    /** Pauses unless stopped; drives both ejectors low in every case. */
    method Pause(out: Outputs)
      modifies this`isPaused, this`inProduction, out`junkEjector, out`dropperEject
      ensures !old(isStopped) ==> isPaused && !inProduction
      ensures old(isStopped) ==> isPaused == old(isPaused) && inProduction == old(inProduction)
      ensures !out.junkEjector && !out.dropperEject
    {
      if !isStopped {
        isPaused := true;
        inProduction := false;
      }
      out.junkEjector := false;
      out.dropperEject := false;
    }

    /** Stopped from any state; the next start re-homes. */
    method Stop()
      modifies this`isStopped, this`isPaused, this`inProduction, this`needsHoming
      ensures isStopped && !isPaused && !inProduction && needsHoming
    {
      isStopped := true;
      isPaused := false;
      inProduction := false;
      needsHoming := true;
    }

    method HomingComplete()
      modifies this`needsHoming
      ensures !needsHoming
    {
      needsHoming := false;
    }

    /** The readiness interlock. The dropper subsystem's flag and `inProduction` take no part. */
    predicate IsReadyToMove()
      reads this
    {
      bulbSystemReady && capInjectionReady && bulbPreLoadReady && pipetSystemReady &&
      !needsHoming && !isPaused && !isStopped
    }

    // Readiness setters

    method SetPipetSystemReady(ready: bool)
      modifies this`pipetSystemReady
      ensures pipetSystemReady == ready
    {
      pipetSystemReady := ready;
    }

    method SetDropperSystemReady(ready: bool)
      modifies this`dropperSystemReady
      ensures dropperSystemReady == ready
    {
      dropperSystemReady := ready;
    }

    method SetCapInjectionReady(ready: bool)
      modifies this`capInjectionReady
      ensures capInjectionReady == ready
    {
      capInjectionReady := ready;
    }

    method SetBulbPreLoadReady(ready: bool)
      modifies this`bulbPreLoadReady
      ensures bulbPreLoadReady == ready
    {
      bulbPreLoadReady := ready;
    }

    method SetBulbSystemReady(ready: bool)
      modifies this`bulbSystemReady
      ensures bulbSystemReady == ready
    {
      bulbSystemReady := ready;
    }

    /** Every pneumatic subsystem except cap injection becomes not ready. */
    method ResetAllPneumatics()
      modifies this`bulbSystemReady, this`dropperSystemReady, this`pipetSystemReady, this`bulbPreLoadReady
      ensures !bulbSystemReady && !dropperSystemReady && !pipetSystemReady && !bulbPreLoadReady
    {
      bulbSystemReady := false;
      dropperSystemReady := false;
      pipetSystemReady := false;
      bulbPreLoadReady := false;
    }
  }

  /** The interlock fails whenever one of the four watched readiness flags is false. */
  lemma NotReadyWhenSubsystemBusy(m: MachineState)
    requires !m.bulbSystemReady || !m.capInjectionReady || !m.bulbPreLoadReady || !m.pipetSystemReady
    ensures !m.IsReadyToMove()
  {
  }

  /** With all four flags true, the interlock holds exactly when homing is done and the
      machine is neither paused nor stopped; the dropper flag makes no difference. */
  lemma ReadyWhenAllSubsystemsReady(m: MachineState)
    requires m.bulbSystemReady && m.capInjectionReady && m.bulbPreLoadReady && m.pipetSystemReady
    ensures m.IsReadyToMove() <==> !m.needsHoming && !m.isPaused && !m.isStopped
  {
  }
}
