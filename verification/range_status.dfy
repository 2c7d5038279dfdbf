/**
 * Range-status codes a sensor reports. The device sends a raw byte; the eight named
 * codes below are the ones the driver knows, and any other byte is kept as it is.
 */
module RangeStatuses {
  import opened Basics

  datatype RangeStatus =
    | MeasurementValid    // 0
    | SigmaFailure        // 1: sigma estimator above threshold
    | SignalFailure       // 2: signal below threshold
    | OutOfBounds         // 4: signal phase out of bounds
    | HardwareFailure     // 5: VCSEL failure
    | WrapTargetFailure   // 7: warning, wrapped target does not match phases
    | ProcessingFailure   // 8: internal over- or underflow
    | RangeInvalid        // 14: reported range is invalid

  /** The byte the device uses for a named status. */
  function Code(s: RangeStatus): uint8 {
    match s
    case MeasurementValid => 0
    case SigmaFailure => 1
    case SignalFailure => 2
    case OutOfBounds => 4
    case HardwareFailure => 5
    case WrapTargetFailure => 7
    case ProcessingFailure => 8
    case RangeInvalid => 14
  }

  /** The named status a byte stands for, or None for a byte without a name. */
  function Named(code: uint8): (r: Option<RangeStatus>)
    ensures r.Some? ==> Code(r.value) == code
    ensures r.None? <==> code !in {0, 1, 2, 4, 5, 7, 8, 14}
  {
    if code == 0 then Some(MeasurementValid)
    else if code == 1 then Some(SigmaFailure)
    else if code == 2 then Some(SignalFailure)
    else if code == 4 then Some(OutOfBounds)
    else if code == 5 then Some(HardwareFailure)
    else if code == 7 then Some(WrapTargetFailure)
    else if code == 8 then Some(ProcessingFailure)
    else if code == 14 then Some(RangeInvalid)
    else None
  }

  /** Naming a status's code gives the status back: the codes are pairwise distinct. */
  lemma NamedCode(s: RangeStatus)
    ensures Named(Code(s)) == Some(s)
  {
  }
}
