/**
 * Worked cases: concrete statements and the flags the rules give them,
 * including the GREEN-inclusive boundaries.
 */
module Scenarios {
  import opened Wrappers
  import opened Financials
  import opened Selector
  import opened Ratios
  import opened Flags

  /** A standalone statement built from the six figures the rules read. */
  function MakeStatement(
    netRevenue: Option<real>, interest: Option<real>, pbit: Option<real>,
    depreciation: Option<real>, longTerm: Option<real>, shortTerm: Option<real>): (e: Statement)
    ensures RecordedNetRevenue(e) == netRevenue && RecordedInterest(e) == interest
    ensures RecordedPbit(e) == pbit && RecordedDepreciation(e) == depreciation
    ensures RecordedLongTermBorrowings(e) == longTerm && RecordedShortTermBorrowings(e) == shortTerm
    ensures IsStandalone(e)
  {
    Statement(
      Some(Standalone),
      Some(ProfitAndLoss(Some(LineItems(netRevenue, interest, pbit)), Some(DepreciationBreakup(depreciation)))),
      Some(BalanceSheet(Some(Liabilities(longTerm, shortTerm)))))
  }

  /**
   * Revenue 60,000,000 and nothing else: revenue GREEN, borrowing WHITE
   * (no borrowings), coverage 1 and so RED.
   */
  lemma RevenueOnlyStatement()
    ensures var fs := [MakeStatement(Some(60000000.0), Some(0.0), Some(0.0), Some(0.0), None, None)];
      && IscrDefined(fs, 0)
      && TotalRevenue5crFlag(fs, 0) == Green
      && BorrowingToRevenueFlag(fs, 0) == White
      && Iscr(fs, 0) == 1.0
      && IscrFlag(fs, 0) == Red
  {
  }

  /**
   * Revenue 10,000,000 with borrowings 2,000,000 + 500,000: the ratio is
   * exactly 0.25, which is GREEN; coverage 3,500,001 / 1,000,001 is GREEN;
   * revenue below 5 crore is RED.
   */
  lemma LeveragedStatement()
    ensures var fs := [MakeStatement(Some(10000000.0), Some(1000000.0), Some(3000000.0),
                                     Some(500000.0), Some(2000000.0), Some(500000.0))];
      && IscrDefined(fs, 0)
      && TotalRevenue5crFlag(fs, 0) == Red
      && TotalBorrowing(fs, 0) == 0.25
      && BorrowingToRevenueFlag(fs, 0) == Green
      && IscrFlag(fs, 0) == Green
  {
  }

  /** Coverage of exactly 2 is GREEN: numerator 2, no interest. */
  lemma IscrBoundaryIsGreen()
    ensures var fs := [MakeStatement(None, None, Some(1.0), None, None, None)];
      && IscrDefined(fs, 0) && Iscr(fs, 0) == 2.0 && IscrFlag(fs, 0) == Green
  {
  }

  /** A consolidated statement followed by a standalone one: the standalone one, at position 1, is selected. */
  lemma StandaloneAfterConsolidated()
    ensures var fs := [Statement(Some("CONSOLIDATED"), None, None), Statement(Some(Standalone), None, None)];
      FirstStandalone(fs) == Some(1)
  {
  }

  /** The selector loop itself on the same two statements picks position 1. */
  method SelectStandaloneAfterConsolidated() returns (k: nat)
    ensures k == 1
  {
    var fs := [Statement(Some("CONSOLIDATED"), None, None), Statement(Some(Standalone), None, None)];
    StandaloneAfterConsolidated();
    k := LatestFinancialIndex(fs);
  }

  /** The selector loop on an empty list falls back to position 0. */
  method SelectFromEmptyList() returns (k: nat)
    ensures k == 0
  {
    k := LatestFinancialIndex([]);
  }
}
