/** Dnssec: the status of a target from the statuses of its address records. */
module Dnssec {
  import opened Lifecycle
  import opened Wrappers

  /**
   The worst status decides: bogus before indeterminate before insecure before secure, and no
   conclusive status at all is indeterminate. Neither order nor repetition matters.
   */
  method AggregateStatus(statuses: seq<DnssecStatus>) returns (status: DnssecStatus)
    ensures status == Bogus <==> Bogus in statuses
    ensures status == IndeterminateProof <==>
      Bogus !in statuses && (IndeterminateProof in statuses || (Insecure !in statuses && Secure !in statuses))
    ensures status == Insecure <==> Bogus !in statuses && IndeterminateProof !in statuses && Insecure in statuses
    ensures status == Secure <==>
      Bogus !in statuses && IndeterminateProof !in statuses && Insecure !in statuses && Secure in statuses
  {
    var aggregate: Option<DnssecStatus> := None;
    for i := 0 to |statuses|
      invariant Bogus !in statuses[..i]
      invariant aggregate in {None, Some(IndeterminateProof), Some(Insecure), Some(Secure)}
      invariant aggregate == Some(IndeterminateProof) <==> IndeterminateProof in statuses[..i]
      invariant aggregate == Some(Insecure) <==> IndeterminateProof !in statuses[..i] && Insecure in statuses[..i]
      invariant aggregate == Some(Secure) <==>
        IndeterminateProof !in statuses[..i] && Insecure !in statuses[..i] && Secure in statuses[..i]
    {
      assert statuses[..i + 1] == statuses[..i] + [statuses[i]];
      match statuses[i] {
        case Bogus => return Bogus;
        case IndeterminateProof => aggregate := Some(IndeterminateProof);
        case Insecure => if aggregate != Some(IndeterminateProof) { aggregate := Some(Insecure); }
        case Secure => if aggregate.None? { aggregate := Some(Secure); }
        case NotApplicable =>
      }
    }
    assert statuses[..|statuses|] == statuses;
    status := if aggregate.Some? then aggregate.value else IndeterminateProof;
  }
}
