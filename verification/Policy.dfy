/** The allocation policy: a side-effect-free chain of conditions. */
module Policy {
  import opened Shared

  datatype PolicyConfig = PolicyConfig(
    qodThreshold: CongestionLevel,
    mediumThreshold: CongestionLevel,
    enableSlice: bool,
    alwaysProtect: bool)

  datatype Decision = Decision(action: NetworkAction, rule: Rule)

  function Rank(c: CongestionLevel): nat {
    match c
    case Low => 0
    case Medium => 1
    case High => 2
  }

  /** What a worker builds from the one setting it reads; the rest are the defaults. */
  function WorkerConfig(alwaysProtect: bool): PolicyConfig {
    PolicyConfig(Medium, High, true, alwaysProtect)
  }

  function Decide(criticality: Criticality, congestion: CongestionLevel, reachable: bool,
                  safety: bool, sliceAvailable: bool, suspended: bool, cfg: PolicyConfig): Decision
  {
    var strongest := if sliceAvailable && cfg.enableSlice then QOD_AND_SLICE else QOD;
    if !reachable then
      Decision(NONE, GUARD_DEVICE_UNREACHABLE)
    else if suspended then
      Decision(strongest, SUSPENDED_LOAD_PROTECT)
    else if criticality == LOW then
      Decision(NONE, ROUTINE_NO_ACTION)
    else if safety && cfg.alwaysProtect then
      Decision(strongest, SAFETY_CRITICAL_ALWAYS_PROTECT)
    else if criticality == MEDIUM then
      if Rank(congestion) >= Rank(cfg.mediumThreshold)
      then Decision(QOD, MEDIUM_CRITICALITY_HIGH_CONGESTION)
      else Decision(NONE, MEDIUM_CRITICALITY_NETWORK_HEALTHY)
    else if Rank(congestion) < Rank(cfg.qodThreshold) then
      Decision(NONE, HIGH_CRITICALITY_NETWORK_HEALTHY)
    else if safety && sliceAvailable && cfg.enableSlice then
      Decision(QOD_AND_SLICE, SAFETY_CRITICAL_CONGESTED_SLICE)
    else
      Decision(QOD, HIGH_CRITICALITY_CONGESTED)
  }

  /** The call the workflow makes for an operation that is moving, on a device that answered. */
  function Judge(criticality: Criticality, congestion: CongestionLevel, safety: bool, cfg: PolicyConfig): Decision {
    Decide(criticality, congestion, true, safety, true, false, cfg)
  }

  /** The call the workflow makes for an operation that halted with its load committed. */
  function JudgeSuspended(congestion: CongestionLevel, reachable: bool, cfg: PolicyConfig): Decision {
    Decide(HIGH, congestion, reachable, true, true, true, cfg)
  }
}
