/** Routing modes and data classification. */
module RoutingPolicy {
  import opened Common

  datatype HybridMode = LocalStrict | LocalFirst | Balanced | CloudFirst

  datatype DataClassification = Unknown | Sensitive | Internal | Public

  datatype WorkloadClass = Interactive | Batch

  function EgressRank(mode: HybridMode): nat {
    match mode
    case LocalStrict => 0
    case LocalFirst => 1
    case Balanced => 2
    case CloudFirst => 3
  }

  /** The mode itself if it lets out no more than the maximum, otherwise a refusal. */
  function RestrictTo(mode: HybridMode, maximum: HybridMode): Option<HybridMode> {
    if EgressRank(mode) <= EgressRank(maximum) then Some(mode) else None
  }

  predicate ForcesLocal(c: DataClassification) { c == Unknown || c == Sensitive }
}
