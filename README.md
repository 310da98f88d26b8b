# Credit-risk rules: a Dafny model

This project models the rule engine of a credit-risk assessment tool (`rules.py`).
Given a company's financial record (an ordered list of financial statements), the engine

- selects a statement: the first one whose nature is `"STANDALONE"`, or position 0 when none is;
- computes three ratios from the statement at a given position: net revenue, borrowings over
  revenue, and the interest service coverage ratio (ISCR), (PBIT + depreciation + 1) / (interest + 1);
- maps each ratio to a traffic-light flag through fixed thresholds that are inclusive on the GREEN side.

A missing section or field counts as 0, and a position past the end of the list gives the sentinel 0.
A ratio of exactly 0 gives WHITE ("data missing"). Flags carry the codes RED=0, GREEN=1, AMBER=2,
MEDIUM_RISK=3 and WHITE=4. MEDIUM_RISK is display-only, and the model proves that no rule produces it.

Files:

- `wrappers.dfy`: `Option`.
- `financials.dfy`: the statement as nested datatypes. Each numeric field has two readings. The
  `Recorded*` functions give the field as recorded, or None when it or an enclosing section is absent.
  The lookups the rules use (`NetRevenue`, `Interest`, ...) follow the original's chained
  "get with default" access.
- `selector.dfy`: the statement selector. It is a method with a loop, specified by the recursive
  function `FirstStandalone`.
- `ratios.dfy`: the three ratio calculators and lemmas about them.
- `flags.dfy`: the flag values, the three evaluators, and lemmas that express each flag in terms
  of the statement's own figures.
- `scenarios.dfy`: worked statements and the flags they receive, including the threshold boundaries.

Numbers are exact `real`s. Positions are `nat`s.

## Model

| member | source | states |
|---|---|---|
| `Flags.Flag.Code` | rules.py:3-8 | RED, GREEN, AMBER and WHITE have the codes 0, 1, 2 and 4, each code unique to its flag; every code is at most 4 (MEDIUM_RISK is the remaining 3) |
| `Selector.FirstStandalone` | rules.py:23-26 | Some(k) only if entry k is standalone and no earlier entry is; None exactly when no entry is standalone |
| `Selector.LatestFinancialIndex` | rules.py:9-26 | the result is 0 or a valid position; when a standalone entry exists, the result is the first one; when none exists (empty list included), the result is 0; the result agrees with `FirstStandalone` |
| `Financials.NetRevenue` | rules.py:44 | the recorded net revenue, or 0 when it, `lineItems` or `pnl` is absent |
| `Financials.LongTermBorrowings` | rules.py:65 | the recorded long-term borrowings, or 0 when it, `liabilities` or `bs` is absent |
| `Financials.ShortTermBorrowings` | rules.py:66 | the recorded short-term borrowings, or 0 when absent at any level |
| `Financials.Pbit` | rules.py:92 | the recorded profit before interest and tax, or 0 when absent at any level |
| `Financials.Depreciation` | rules.py:93 | the recorded depreciation and amortization, or 0 when it, `depreciation_breakup` or `pnl` is absent |
| `Financials.Interest` | rules.py:94 | the recorded interest, or 0 when absent at any level |
| `Ratios.TotalRevenue` | rules.py:28-46 | 0 past the end of the list; otherwise the selected entry's recorded net revenue, or 0 when it is absent |
| `Ratios.TotalBorrowing` | rules.py:48-73 | 0 past the end of the list; 0 whenever revenue is 0, whatever the borrowings; otherwise the ratio times revenue equals long-term plus short-term borrowings, each missing one counted as 0 |
| `Ratios.Iscr` | rules.py:75-98 | 0 past the end of the list; otherwise the ratio times (interest + 1) equals PBIT + depreciation + 1, with missing fields as 0 |
| `Ratios.EmptyRecordGivesZero` | rules.py:42-98 | with an empty statement list, all three calculators return 0 at every position |
| `Ratios.BlankStatementIscrIsOne` | rules.py:90-96 | an in-range statement with no profit-and-loss section has ISCR exactly 1, not the sentinel 0 |
| `Ratios.IscrWithoutInterest` | rules.py:94-95 | with no interest recorded, ISCR is PBIT + depreciation + 1 |
| `Ratios.IscrZeroIff` | rules.py:90-98 | ISCR is 0 exactly when the position is out of range or PBIT + depreciation + 1 is 0 |
| `Ratios.BorrowingZeroIff` | rules.py:67-71 | for an in-range entry with non-zero revenue, the borrowing ratio is 0 exactly when the borrowings sum to 0 |
| `Flags.IscrFlag` | rules.py:100-121 | WHITE iff ISCR is 0; GREEN iff ISCR is non-zero and at least 2; RED iff it is non-zero and below 2; never AMBER or MEDIUM_RISK |
| `Flags.TotalRevenue5crFlag` | rules.py:123-144 | WHITE iff revenue is 0; GREEN iff revenue is at least 50,000,000; RED iff it is non-zero and below that (negative revenue included); never AMBER or MEDIUM_RISK |
| `Flags.BorrowingToRevenueFlag` | rules.py:146-167 | WHITE iff the ratio is 0; GREEN iff it is non-zero and at most 0.25 (negative ratios included); AMBER iff it exceeds 0.25; never RED or MEDIUM_RISK |
| `Flags.OutOfRangeAllWhite` | rules.py:42-46 | past the end of the list, all three flags are WHITE |
| `Flags.BlankStatementFlags` | rules.py:115-121 | an in-range statement with no sections gets WHITE for revenue and borrowing, but RED (not WHITE) for ISCR |
| `Flags.IscrFlagFromFigures` | rules.py:115-121 | for an in-range statement: the ISCR flag is WHITE iff PBIT + depreciation + 1 is 0; it is GREEN iff that numerator is non-zero and at least 2 × (interest + 1) when the denominator is positive, or at most that when the denominator is negative |
| `Flags.BorrowingFlagFromFigures` | rules.py:161-167 | for an in-range statement with non-zero revenue: WHITE iff the borrowings sum to 0; GREEN iff they are non-zero and 4 × borrowings ≤ revenue (≥ when revenue is negative) |
| `Flags.RevenueFlagFromFigures` | rules.py:138-144 | absent net revenue gives WHITE; revenue of exactly 50,000,000 gives GREEN; negative revenue gives RED |
| `Scenarios.RevenueOnlyStatement` | rules.py:115-167 | revenue 60,000,000 with no borrowings and zero interest, PBIT and depreciation: revenue GREEN, borrowing WHITE, ISCR 1 and so RED |
| `Scenarios.LeveragedStatement` | rules.py:115-167 | revenue 10,000,000 with borrowings of 2,000,000 + 500,000 gives a ratio of exactly 0.25, which is GREEN; ISCR 3,500,001 / 1,000,001 is GREEN; revenue is RED |
| `Scenarios.IscrBoundaryIsGreen` | rules.py:118-119 | ISCR of exactly 2 is GREEN |
| `Scenarios.StandaloneAfterConsolidated` | rules.py:23-25 | for a consolidated entry followed by a standalone one, the first standalone position is 1 |
| `Scenarios.SelectStandaloneAfterConsolidated` | rules.py:23-25 | the selector loop on a consolidated entry followed by a standalone one returns 1 |
| `Scenarios.SelectFromEmptyList` | rules.py:23-26 | the selector loop on an empty list returns the fallback 0 |

## Left out

- The statement list is always present. Unlike the ratio calculators, which fall back to an empty list
  (`data.get("financials", [])`, rules.py:43, 64, 91), the selector passes `data.get("financials")` with
  no default (rules.py:23), so a record without that key raises TypeError instead of returning 0. The
  model does not claim the selector tolerates a missing list.
- Ratios.Iscr: requires interest + 1 to be non-zero (`IscrDefined`). When interest is -1, the original
  raises ZeroDivisionError (rules.py:95), which its handler at rules.py:97 does not catch. The exception
  is not modelled.
- Flags.IscrFlag: inherits the `IscrDefined` precondition from `Ratios.Iscr` for the same reason.
- Python's dynamic-typing failures are not modelled: entries that are not dictionaries, keys present
  with the value None, and non-numeric values. Sections and fields are either present with the right
  shape or absent.
- Negative positions are not modelled. Python indexes them from the end of the list. Positions are
  `nat`; callers pass the selector's non-negative result.
- Floating-point rounding is not modelled. Arithmetic is exact `real` arithmetic in place of Python
  floats. Where this changes a flag: a non-zero borrowing ratio or coverage ratio can underflow to 0.0
  in floats (rules.py:71, 95), and the original then gives WHITE where the model gives GREEN or RED.
- Overflow in true division is not modelled: a very large integer figure makes the division at
  rules.py:71 or rules.py:95 raise OverflowError, which the handlers do not catch; the model's exact
  reals always produce a value.
- The unused `datetime` import (rules.py:1) is not modelled.
- Reading the record, combining flags into an overall score, and presentation belong to the surrounding
  system and are not part of this model.
