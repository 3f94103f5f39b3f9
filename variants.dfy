/**
 * How the two card-status builders relate: on a listing of SMC-B cards only
 * they emit the same rows in the same order with the same values; the ePA
 * rows lack the telematik id tag.
 */
module Variants {
  import opened Cards
  import KonnektorGauges
  import EpaGauges

  predicate AllSmcb(probes: seq<Probe>) {
    forall k :: 0 <= k < |probes| ==> EpaGauges.IsSmcb(probes[k])
  }

  lemma {:induction false} SmcbOnlyKeepsAllSmcb(probes: seq<Probe>)
    requires AllSmcb(probes)
    ensures EpaGauges.SmcbOnly(probes) == probes
  {
    if probes != [] {
      assert EpaGauges.IsSmcb(probes[0]);
      SmcbOnlyKeepsAllSmcb(probes[1..]);
    }
  }

  lemma VariantsAgree(probes: seq<Probe>)
    requires AllSmcb(probes)
    ensures |EpaGauges.CardRows(Listed(probes))| == |KonnektorGauges.CardRows(Listed(probes))|
    ensures forall k :: 0 <= k < |probes| ==>
      && EpaGauges.CardRows(Listed(probes))[k].value == KonnektorGauges.CardRows(Listed(probes))[k].value
      && EpaGauges.CardRows(Listed(probes))[k].tags == KonnektorGauges.CardRows(Listed(probes))[k].tags - {TelematikIdTag}
  {
    SmcbOnlyKeepsAllSmcb(probes);
  }
}
