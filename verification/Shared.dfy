/** The wire vocabulary shared by the agent, the server and the dashboard. */
module Shared {

  datatype Option<+T> = None | Some(value: T)

  datatype Criticality = LOW | MEDIUM | HIGH

  /** Nokia's Congestion Insights levels, in rising order. */
  datatype CongestionLevel = Low | Medium | High

  datatype NetworkAction = NONE | QOD | QOD_AND_SLICE

  datatype QosStatus = REQUESTED | AVAILABLE | UNAVAILABLE

  datatype DecisionStep =
    | DEVICE_CHECKED
    | CONGESTION_CHECKED
    | CRITICALITY_ASSESSED
    | DECIDED
    | ALLOCATED
    | QOS_STATUS_CHANGED
    | RELEASED
    | FAILED

  /** The branches of the allocation policy, named as the trail names them. */
  datatype Rule =
    | GUARD_DEVICE_UNREACHABLE
    | SUSPENDED_LOAD_PROTECT
    | ROUTINE_NO_ACTION
    | SAFETY_CRITICAL_ALWAYS_PROTECT
    | MEDIUM_CRITICALITY_HIGH_CONGESTION
    | MEDIUM_CRITICALITY_NETWORK_HEALTHY
    | HIGH_CRITICALITY_NETWORK_HEALTHY
    | SAFETY_CRITICAL_CONGESTED_SLICE
    | HIGH_CRITICALITY_CONGESTED

  /** How much protection an action buys: the order "escalate only" is about. */
  function Protection(a: NetworkAction): nat {
    match a
    case NONE => 0
    case QOD => 1
    case QOD_AND_SLICE => 2
  }

  /** One decision event, as the workflow hands it to the emit activity. */
  datatype Record = Record(
    step: DecisionStep,
    nameonly action: Option<NetworkAction> := None,
    nameonly reachable: Option<bool> := None,
    nameonly criticality: Option<Criticality> := None,
    nameonly congestion: Option<CongestionLevel> := None,
    nameonly session: Option<string> := None,
    nameonly slice: Option<string> := None,
    nameonly qos: Option<QosStatus> := None,
    nameonly rule: Option<Rule> := None)
}
