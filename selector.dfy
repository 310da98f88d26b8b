/**
 * Statement selection: the position of the first statement whose nature is
 * "STANDALONE", with 0 as the fallback when there is none.
 */
module Selector {
  import opened Wrappers
  import opened Financials

  const Standalone := "STANDALONE"

  predicate IsStandalone(e: Statement) {
    e.nature == Some(Standalone)
  }

  /** Specification: the first standalone position, or None when no statement is standalone. */
  function FirstStandalone(fs: Financials): (r: Option<nat>)
    ensures r.Some? ==> r.value < |fs| && IsStandalone(fs[r.value])
    ensures r.Some? ==> forall j :: 0 <= j < r.value ==> !IsStandalone(fs[j])
    ensures r.None? <==> forall j :: 0 <= j < |fs| ==> !IsStandalone(fs[j])
  {
    if |fs| == 0 then None
    else if IsStandalone(fs[0]) then Some(0)
    else
      match FirstStandalone(fs[1..])
      case None => None
      case Some(k) => Some(k + 1)
  }

  /**
   * Scans the statements in order and returns the position of the first
   * standalone one; returns 0 when none is standalone (including an empty list).
   */
  method LatestFinancialIndex(fs: Financials) returns (k: nat)
    ensures k == 0 || k < |fs|
    ensures (exists j :: 0 <= j < |fs| && IsStandalone(fs[j])) ==>
              k < |fs| && IsStandalone(fs[k]) && forall j :: 0 <= j < k ==> !IsStandalone(fs[j])
    ensures (forall j :: 0 <= j < |fs| ==> !IsStandalone(fs[j])) ==> k == 0
    ensures k == FirstStandalone(fs).GetOr(0)
  {
    var index := 0;
    while index < |fs|
      invariant index <= |fs|
      invariant forall j :: 0 <= j < index ==> !IsStandalone(fs[j])
    {
      if IsStandalone(fs[index]) {
        return index;
      }
      index := index + 1;
    }
    return 0;
  }
}
