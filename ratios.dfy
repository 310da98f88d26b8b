/**
 * Ratio calculators. Each reads one statement by position; a position past
 * the end of the list yields the zero sentinel, and a missing field counts
 * as 0. Numbers are exact reals.
 */
module Ratios {
  import opened Financials

  /** Net revenue of the selected statement. */
  function TotalRevenue(fs: Financials, i: nat): (r: real)
    ensures i >= |fs| ==> r == 0.0
    ensures i < |fs| ==> r == RecordedNetRevenue(fs[i]).GetOr(0.0)
  {
    if i < |fs| then NetRevenue(fs[i]) else 0.0
  }

  /** Long-term plus short-term borrowings of a statement, each missing one as 0. */
  function Borrowings(e: Statement): real {
    RecordedLongTermBorrowings(e).GetOr(0.0) + RecordedShortTermBorrowings(e).GetOr(0.0)
  }

  /**
   * Borrowings over revenue; 0 when revenue is 0, whatever the borrowings,
   * and 0 when the position is out of range.
   */
  function TotalBorrowing(fs: Financials, i: nat): (r: real)
    ensures i >= |fs| ==> r == 0.0
    ensures TotalRevenue(fs, i) == 0.0 ==> r == 0.0
    ensures TotalRevenue(fs, i) != 0.0 ==> i < |fs| && r * TotalRevenue(fs, i) == Borrowings(fs[i])
  {
    if i < |fs| then
      var totalBorrowings := LongTermBorrowings(fs[i]) + ShortTermBorrowings(fs[i]);
      var revenue := TotalRevenue(fs, i);
      if revenue == 0.0 then 0.0 else totalBorrowings / revenue
    else
      0.0
  }

  /**
   * The interest-coverage formula divides by interest + 1, so it is defined
   * only when that is not 0 (interest == -1 raises in the original and is
   * excluded here).
   */
  predicate IscrDefined(fs: Financials, i: nat) {
    i < |fs| ==> RecordedInterest(fs[i]).GetOr(0.0) != -1.0
  }

  /** Numerator of the interest-coverage ratio: PBIT + depreciation + 1. */
  function CoverageNumerator(e: Statement): real {
    RecordedPbit(e).GetOr(0.0) + RecordedDepreciation(e).GetOr(0.0) + 1.0
  }

  /** Denominator of the interest-coverage ratio: interest + 1. */
  function CoverageDenominator(e: Statement): real {
    RecordedInterest(e).GetOr(0.0) + 1.0
  }

  /** Interest service coverage ratio (PBIT + depreciation + 1) / (interest + 1). */
  function Iscr(fs: Financials, i: nat): (r: real)
    requires IscrDefined(fs, i)
    ensures i >= |fs| ==> r == 0.0
    ensures i < |fs| ==> r * CoverageDenominator(fs[i]) == CoverageNumerator(fs[i])
  {
    if i < |fs| then
      var e := fs[i];
      (Pbit(e) + Depreciation(e) + 1.0) / (Interest(e) + 1.0)
    else
      0.0
  }

  // -----------------------------------------------------------------------
  // Properties of the calculators
  // -----------------------------------------------------------------------

  /** With no statements at all, every calculator returns the zero sentinel. */
  lemma EmptyRecordGivesZero(i: nat)
    ensures TotalRevenue([], i) == 0.0
    ensures TotalBorrowing([], i) == 0.0
    ensures Iscr([], i) == 0.0
  {
  }

  /** For an in-range statement with no fields, the coverage ratio is exactly 1, not the sentinel 0. */
  lemma BlankStatementIscrIsOne(fs: Financials, i: nat)
    requires i < |fs| && fs[i].pnl.None?
    ensures IscrDefined(fs, i)
    ensures Iscr(fs, i) == 1.0
  {
  }

  /** With no interest recorded, the ratio is the numerator itself. */
  lemma IscrWithoutInterest(fs: Financials, i: nat)
    requires i < |fs| && RecordedInterest(fs[i]).None?
    ensures IscrDefined(fs, i)
    ensures Iscr(fs, i) == CoverageNumerator(fs[i])
  {
  }

  /** The coverage ratio is 0 exactly when the position is out of range or PBIT + depreciation == -1. */
  lemma IscrZeroIff(fs: Financials, i: nat)
    requires IscrDefined(fs, i)
    ensures Iscr(fs, i) == 0.0 <==> i >= |fs| || CoverageNumerator(fs[i]) == 0.0
  {
  }

  /** For an in-range statement with non-zero revenue, the ratio is 0 exactly when the borrowings sum to 0. */
  lemma BorrowingZeroIff(fs: Financials, i: nat)
    requires i < |fs| && TotalRevenue(fs, i) != 0.0
    ensures TotalBorrowing(fs, i) == 0.0 <==> Borrowings(fs[i]) == 0.0
  {
  }
}
