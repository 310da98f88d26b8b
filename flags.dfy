/**
 * Flag evaluators: each recomputes its ratio and maps it through fixed,
 * GREEN-inclusive thresholds; a ratio of exactly 0 is read as "data
 * missing" and gives WHITE.
 */
module Flags {
  import opened Wrappers
  import opened Financials
  import opened Ratios

  /** The five flag values. MediumRisk is for display only; no rule produces it. */
  datatype Flag = Red | Green | Amber | MediumRisk | White {

    /** The numeric code of the flag. */
    function Code(): (c: nat)
      ensures c <= 4
      ensures c == 0 <==> this == Red
      ensures c == 1 <==> this == Green
      ensures c == 2 <==> this == Amber
      ensures c == 4 <==> this == White
    {
      match this
      case Red => 0
      case Green => 1
      case Amber => 2
      case MediumRisk => 3
      case White => 4
    }
  }

  /** Minimum coverage ratio for GREEN. */
  const IscrGreenMinimum: real := 2.0
  /** Minimum revenue for GREEN: 5 crore, i.e. 50,000,000. */
  const RevenueGreenMinimum: real := 50000000.0
  /** Maximum borrowing-to-revenue ratio for GREEN. */
  const BorrowingGreenMaximum: real := 0.25

  /** WHITE for a zero ratio, GREEN from 2 upwards, RED otherwise. */
  function IscrFlag(fs: Financials, i: nat): (f: Flag)
    requires IscrDefined(fs, i)
    ensures f == White <==> Iscr(fs, i) == 0.0
    ensures f == Green <==> Iscr(fs, i) != 0.0 && Iscr(fs, i) >= IscrGreenMinimum
    ensures f == Red <==> Iscr(fs, i) != 0.0 && Iscr(fs, i) < IscrGreenMinimum
    ensures f != Amber && f != MediumRisk
  {
    var value := Iscr(fs, i);
    if value == 0.0 then White
    else if value >= IscrGreenMinimum then Green
    else Red
  }

  /** WHITE for zero revenue, GREEN from 50,000,000 upwards, RED otherwise (negative revenue included). */
  function TotalRevenue5crFlag(fs: Financials, i: nat): (f: Flag)
    ensures f == White <==> TotalRevenue(fs, i) == 0.0
    ensures f == Green <==> TotalRevenue(fs, i) >= RevenueGreenMinimum
    ensures f == Red <==> TotalRevenue(fs, i) != 0.0 && TotalRevenue(fs, i) < RevenueGreenMinimum
    ensures f != Amber && f != MediumRisk
  {
    var revenue := TotalRevenue(fs, i);
    if revenue == 0.0 then White
    else if revenue >= RevenueGreenMinimum then Green
    else Red
  }

  /** WHITE for a zero ratio, GREEN up to 0.25 (negative ratios included), AMBER above. */
  function BorrowingToRevenueFlag(fs: Financials, i: nat): (f: Flag)
    ensures f == White <==> TotalBorrowing(fs, i) == 0.0
    ensures f == Green <==> TotalBorrowing(fs, i) != 0.0 && TotalBorrowing(fs, i) <= BorrowingGreenMaximum
    ensures f == Amber <==> TotalBorrowing(fs, i) > BorrowingGreenMaximum
    ensures f != Red && f != MediumRisk
  {
    var ratio := TotalBorrowing(fs, i);
    if ratio == 0.0 then White
    else if ratio <= BorrowingGreenMaximum then Green
    else Amber
  }

  // -----------------------------------------------------------------------
  // The flags in terms of the statement's own figures
  // -----------------------------------------------------------------------

  /** Out of range, every rule falls back to WHITE. */
  lemma OutOfRangeAllWhite(fs: Financials, i: nat)
    requires i >= |fs|
    ensures IscrDefined(fs, i)
    ensures IscrFlag(fs, i) == White
    ensures TotalRevenue5crFlag(fs, i) == White
    ensures BorrowingToRevenueFlag(fs, i) == White
  {
  }

  /**
   * An in-range statement with no sections: revenue and borrowing flags are
   * WHITE, but the coverage ratio is 1 and its flag is RED, not WHITE.
   */
  lemma BlankStatementFlags(fs: Financials, i: nat)
    requires i < |fs| && fs[i].pnl.None? && fs[i].bs.None?
    ensures IscrDefined(fs, i)
    ensures IscrFlag(fs, i) == Red
    ensures TotalRevenue5crFlag(fs, i) == White
    ensures BorrowingToRevenueFlag(fs, i) == White
  {
  }

  /** Sign facts used below: for r * d == n with d != 0, how r compares with t follows from how n compares with t * d. */
  lemma ScaledComparison(r: real, d: real, n: real, t: real)
    requires d != 0.0 && r * d == n
    ensures d > 0.0 ==> (r >= t <==> n >= t * d) && (r <= t <==> n <= t * d)
    ensures d < 0.0 ==> (r >= t <==> n <= t * d) && (r <= t <==> n >= t * d)
  {
  }

  /**
   * Coverage flag from the figures: for an in-range statement it is WHITE
   * exactly when PBIT + depreciation + 1 == 0, and GREEN exactly when that
   * numerator is at least twice interest + 1 (for a positive denominator;
   * the comparison flips for a negative one).
   */
  lemma {:induction false} IscrFlagFromFigures(fs: Financials, i: nat)
    requires i < |fs| && IscrDefined(fs, i)
    ensures var n, d := CoverageNumerator(fs[i]), CoverageDenominator(fs[i]);
      && (IscrFlag(fs, i) == White <==> n == 0.0)
      && (d > 0.0 ==> (IscrFlag(fs, i) == Green <==> n != 0.0 && n >= 2.0 * d))
      && (d < 0.0 ==> (IscrFlag(fs, i) == Green <==> n != 0.0 && n <= 2.0 * d))
  {
    var n, d := CoverageNumerator(fs[i]), CoverageDenominator(fs[i]);
    IscrZeroIff(fs, i);
    ScaledComparison(Iscr(fs, i), d, n, 2.0);
  }

  /**
   * Borrowing flag from the figures: with non-zero revenue it is WHITE
   * exactly when the borrowings sum to 0, and GREEN exactly when they are
   * non-zero and at most a quarter of revenue (at least, for negative revenue).
   */
  lemma {:induction false} BorrowingFlagFromFigures(fs: Financials, i: nat)
    requires i < |fs| && TotalRevenue(fs, i) != 0.0
    ensures var b, rev := Borrowings(fs[i]), TotalRevenue(fs, i);
      && (BorrowingToRevenueFlag(fs, i) == White <==> b == 0.0)
      && (rev > 0.0 ==> (BorrowingToRevenueFlag(fs, i) == Green <==> b != 0.0 && 4.0 * b <= rev))
      && (rev < 0.0 ==> (BorrowingToRevenueFlag(fs, i) == Green <==> b != 0.0 && 4.0 * b >= rev))
  {
    var b, rev := Borrowings(fs[i]), TotalRevenue(fs, i);
    BorrowingZeroIff(fs, i);
    ScaledComparison(TotalBorrowing(fs, i), rev, b, BorrowingGreenMaximum);
  }

  /** The revenue flag from the recorded figure: an absent net revenue is WHITE, a negative one RED. */
  lemma RevenueFlagFromFigures(fs: Financials, i: nat)
    requires i < |fs|
    ensures RecordedNetRevenue(fs[i]).None? ==> TotalRevenue5crFlag(fs, i) == White
    ensures RecordedNetRevenue(fs[i]) == Some(RevenueGreenMinimum) ==> TotalRevenue5crFlag(fs, i) == Green
    ensures (RecordedNetRevenue(fs[i]).Some? && RecordedNetRevenue(fs[i]).value < 0.0) ==> TotalRevenue5crFlag(fs, i) == Red
  {
  }
}
