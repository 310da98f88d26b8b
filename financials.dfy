/**
 * The financial record the rules read: an ordered sequence of statements,
 * each a nested structure whose sections and numeric fields may be absent.
 *
 * A statement is a nested dictionary in the original system:
 *   nature
 *   pnl.lineItems.{net_revenue, interest, profit_before_interest_and_tax}
 *   pnl.depreciation_breakup.depreciation_and_amortization
 *   bs.liabilities.{long_term_borrowings, short_term_borrowings}
 * Every level is an `Option` here, so "section absent" and "field absent"
 * are both representable.
 */
module Financials {
  import opened Wrappers

  datatype LineItems = LineItems(
    netRevenue: Option<real>,
    interest: Option<real>,
    profitBeforeInterestAndTax: Option<real>)

  datatype DepreciationBreakup = DepreciationBreakup(depreciationAndAmortization: Option<real>)

  datatype ProfitAndLoss = ProfitAndLoss(
    lineItems: Option<LineItems>,
    depreciationBreakup: Option<DepreciationBreakup>)

  datatype Liabilities = Liabilities(
    longTermBorrowings: Option<real>,
    shortTermBorrowings: Option<real>)

  datatype BalanceSheet = BalanceSheet(liabilities: Option<Liabilities>)

  datatype Statement = Statement(
    nature: Option<string>,
    pnl: Option<ProfitAndLoss>,
    bs: Option<BalanceSheet>)

  /** The `financials` list of a record. */
  type Financials = seq<Statement>

  // ---------------------------------------------------------------------
  // The value of each field as recorded: None when the field or any
  // section enclosing it is absent.
  // ---------------------------------------------------------------------

  function RecordedNetRevenue(e: Statement): Option<real> {
    match e.pnl
    case None => None
    case Some(p) =>
      match p.lineItems
      case None => None
      case Some(l) => l.netRevenue
  }

  function RecordedInterest(e: Statement): Option<real> {
    match e.pnl
    case None => None
    case Some(p) =>
      match p.lineItems
      case None => None
      case Some(l) => l.interest
  }

  function RecordedPbit(e: Statement): Option<real> {
    match e.pnl
    case None => None
    case Some(p) =>
      match p.lineItems
      case None => None
      case Some(l) => l.profitBeforeInterestAndTax
  }

  function RecordedDepreciation(e: Statement): Option<real> {
    match e.pnl
    case None => None
    case Some(p) =>
      match p.depreciationBreakup
      case None => None
      case Some(d) => d.depreciationAndAmortization
  }

  function RecordedLongTermBorrowings(e: Statement): Option<real> {
    match e.bs
    case None => None
    case Some(b) =>
      match b.liabilities
      case None => None
      case Some(l) => l.longTermBorrowings
  }

  function RecordedShortTermBorrowings(e: Statement): Option<real> {
    match e.bs
    case None => None
    case Some(b) =>
      match b.liabilities
      case None => None
      case Some(l) => l.shortTermBorrowings
  }

  // ---------------------------------------------------------------------
  // The lookups the rules perform: each absent section reads as an empty
  // one and each absent field as 0.
  // ---------------------------------------------------------------------

  const EmptyProfitAndLoss := ProfitAndLoss(None, None)
  const EmptyLineItems := LineItems(None, None, None)
  const EmptyDepreciationBreakup := DepreciationBreakup(None)
  const EmptyBalanceSheet := BalanceSheet(None)
  const EmptyLiabilities := Liabilities(None, None)

  function NetRevenue(e: Statement): (r: real)
    ensures r == RecordedNetRevenue(e).GetOr(0.0)
  {
    e.pnl.GetOr(EmptyProfitAndLoss).lineItems.GetOr(EmptyLineItems).netRevenue.GetOr(0.0)
  }

  function Interest(e: Statement): (r: real)
    ensures r == RecordedInterest(e).GetOr(0.0)
  {
    e.pnl.GetOr(EmptyProfitAndLoss).lineItems.GetOr(EmptyLineItems).interest.GetOr(0.0)
  }

  function Pbit(e: Statement): (r: real)
    ensures r == RecordedPbit(e).GetOr(0.0)
  {
    e.pnl.GetOr(EmptyProfitAndLoss).lineItems.GetOr(EmptyLineItems).profitBeforeInterestAndTax.GetOr(0.0)
  }

  function Depreciation(e: Statement): (r: real)
    ensures r == RecordedDepreciation(e).GetOr(0.0)
  {
    e.pnl.GetOr(EmptyProfitAndLoss).depreciationBreakup.GetOr(EmptyDepreciationBreakup).depreciationAndAmortization.GetOr(0.0)
  }

  function LongTermBorrowings(e: Statement): (r: real)
    ensures r == RecordedLongTermBorrowings(e).GetOr(0.0)
  {
    e.bs.GetOr(EmptyBalanceSheet).liabilities.GetOr(EmptyLiabilities).longTermBorrowings.GetOr(0.0)
  }

  function ShortTermBorrowings(e: Statement): (r: real)
    ensures r == RecordedShortTermBorrowings(e).GetOr(0.0)
  {
    e.bs.GetOr(EmptyBalanceSheet).liabilities.GetOr(EmptyLiabilities).shortTermBorrowings.GetOr(0.0)
  }

  /** A statement with no nature and no sections at all. */
  const BlankStatement := Statement(None, None, None)
}
