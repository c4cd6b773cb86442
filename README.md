# Stock analysis for production: a Dafny model

This project models the decision rule of the stock-analysis application
(`aplicar_regras_com_alertas` in `app.py`). The application takes the
product structure (a bill of materials: item code and quantity per unit),
a stock snapshot (item code, category prefix, balance), a destination
category (PL or PV) and a number of units to produce. Its output is one
row per distinct item. Each row holds:

- the required quantity;
- the item's five stock pools (PL, PV, RP, MP, AA);
- a status: Ok, a purchase of N units, or "transposition needed";
- the transfer notes taken on the way.

The model is in five modules:

- `Ordering` (`ordering.dfy`): Python's order on strings, which pandas'
  `groupby` uses to sort its groups. It also has insertion into a strictly
  sorted key list and a subsequence relation with its lemmas.
- `Demand` (`demand.dfy`): the structure's lines when scaled by the unit
  count, the per-code sums, and the grouping loop `GroupByItem`.
- `Stock` (`stock.dfy`): the categories, stock rows and the `Pools`
  record. An item's pools are built by exact-code, exact-prefix
  summation.
- `Allocation` (`allocation.dfy`): the per-item rule. `DrainPrefix` and
  `Decision` are the specification functions. `Decide` is the
  step-by-step method with the loop over the source list, proved equal to
  `Decision`. The remaining members are the lemmas about the rule.
- `Analysis` (`analysis.dfy`): the outer loop `ApplyRulesWithAlerts`,
  which produces the result rows.

Quantities are unbounded integers. The status is the datatype
`Ok | Purchase(n) | NeedsTransposition`. An alert is the value
`Alert(amount, source, kind)`, where `kind` is `TransferTo(dest)` or
`DirectUse`; it is not a formatted string. The destination is the subtype
`{PL, PV}` of `Category`, which matches the two choices the user interface
offers.

How the rule works, as the code has it:

- The shortfall is the required quantity minus the destination pool. If
  it is at most zero, the item is Ok and has no alerts.
- Otherwise the shortfall is drained *partially* from the sources in a
  fixed order: MP, AA, PV for destination PL, and MP, AA, PL for
  destination PV. Each source gives `min(shortfall, pool)`, and the amount
  is recorded only when it is positive.
- For PL only, RP is then used directly, but only if RP alone covers the
  whole remainder.
- A positive remainder is bought. Otherwise the item needs a
  transposition.

`StatusClosedForm` gives an independent closed form of this rule. Let
`Reach` be the destination pool plus the positive parts of MP, AA and the
other destination's pool. A purchase is then of `required - Reach`.

What the code does, and therefore what the model does:

- Stock rows match an item by exact code only. There is no correlation
  of codes by prefix or suffix.
- A shortfall is drained partially. It may take from several sources in
  turn; no single source has to cover it alone.
- There are three statuses: Ok, Purchase(n) and NeedsTransposition. The
  code computes no cost and no summary over the rows.
- A PL need of 100 with PV 30 and RP 40 takes PV's 30. RP's 40 does not
  cover the remaining 70 alone, so RP is not used and 70 are bought
  (`PartialDrainThenPurchase`).
- A PV need of 50 with MP 20 and AA 40 takes 20 from MP and 30 from AA,
  and needs a transposition (`TwoSourcesForPV`).
- A purchase is of `required - Reach`, and `Reach` leaves RP out.

## Model

| member | source | states |
|---|---|---|
| Demand.ScaledTotal | app.py:8-9 | the per-code sum of the scaled lines is the unit count times the per-code sum of the original lines; scaling adds and removes no item code |
| Demand.AbsentTotal | app.py:9 | a code no line names sums to zero |
| Demand.GroupByItem | app.py:9 | returns the distinct codes in strictly increasing (pandas' sorted) order and maps exactly the structure's codes to the sums of their lines |
| Ordering.Insert | app.py:9 | inserting a code into a strictly sorted key list keeps it strictly sorted and adds exactly that code |
| Stock.PoolSumAppend | app.py:16-22 | a pool sum over a split snapshot is the sum of the pool sums of the parts |
| Stock.PoolSumUnfed | app.py:14-22 | rows none of which has the item's exact code and the pool's prefix contribute zero to that pool |
| Stock.PoolSumPermutation | app.py:14-22 | two snapshots with the same rows, in any order, give the same pool sum |
| Stock.PoolsOrderFree | app.py:14-22 | any rearrangement of the stock rows (same multiset) gives the same five pools |
| Stock.PoolsIgnoreOthers | app.py:14-22 | rows with a different item code, or with a prefix outside PL/PV/RP/MP/AA, leave all five pools unchanged |
| Stock.PoolsCountMatch | app.py:14-22 | a row with the item's exact code and a known prefix adds its balance to that prefix's pool and to no other |
| Allocation.Decide | app.py:24-56 | the step-by-step drain yields exactly the verdict `Decision` (its loop invariant keeps `falta` between 0 and the initial shortfall and equal to the shortfall minus the amount transposed so far); the status is Ok iff the destination pool covers the need, and an Ok item has no alerts |
| Allocation.StepBounds | app.py:37-41 | one source's turn either changes nothing or takes a positive amount, at most the source pool and the open shortfall, as one new transfer note; the shortfall stays non-negative and does not grow |
| Allocation.DrainBalance | app.py:36-41 | after the drain the remainder is between 0 and the shortfall, and remainder plus the amounts taken equals the shortfall |
| Allocation.DrainAlerts | app.py:36-41 | every note takes a positive amount, at most its source pool, from a listed source, as a transfer to the destination |
| Allocation.DrainWithinOpen | app.py:36-41 | every amount is at most the shortfall still open when it is taken |
| Allocation.DrainOrder | app.py:36-41 | the alerts' sources are a subsequence of the source list, in its order |
| Allocation.DrainRest | app.py:36-51 | the remainder after the drain is the shortfall minus the positive parts of the sources, floored at zero |
| Allocation.DrainIgnores | app.py:36-51 | the drain depends only on the pools in its source list |
| Allocation.OkIff | app.py:24-30 | the status is Ok iff the destination pool is at least the required quantity; an Ok verdict has no alerts |
| Allocation.StatusClosedForm | app.py:24-56 | the status is Ok, NeedsTransposition or Purchase(required - Reach) by the closed-form conditions on the destination pool, Reach and (for PL) RP |
| Allocation.SettlesShortfall | app.py:53-56 | Purchase(n) has n > 0 and n plus the alert amounts equals the shortfall; NeedsTransposition has alert amounts summing exactly to the shortfall |
| Allocation.AlertsBounded | app.py:36-51 | every alert amount is positive and at most its source pool; an alert is a direct use iff its source is RP; every other alert is a transfer to the destination |
| Allocation.AlertOrder | app.py:35-51 | the alerts' sources follow MP, AA, PV, RP for PL and MP, AA, PL for PV, with at most one alert per source |
| Allocation.DrainNothingOpen | app.py:36-41 | with no open shortfall no source gives anything and no note is taken |
| Allocation.RPDirectUse | app.py:42-44 | for every item, Ok or not, RP is used directly iff the destination is PL and RP alone holds the whole positive remainder of the drain; it is then the last alert, takes exactly that remainder, and the status is NeedsTransposition |
| Allocation.PVIgnoresRP | app.py:45-51 | for destination PV the verdict does not depend on the RP pool |
| Allocation.TransferFromPV | app.py:35-56 | a PL need of 100 with PV 150 is one transfer of 100 from PV and a transposition |
| Allocation.PartialDrainThenPurchase | app.py:35-56 | a PL need of 100 with PV 30 and RP 40 transfers 30 from PV, leaves RP unused and buys 70 |
| Allocation.TwoSourcesForPV | app.py:45-56 | a PV need of 50 with MP 20 and AA 40 transfers 20 from MP and 30 from AA and needs a transposition |
| Analysis.ApplyRulesWithAlerts | app.py:6-66 | one row per distinct item of the structure (no item code twice), in strictly increasing item order; each row requires the unit count times its item's summed lines and carries that item's pools and verdict |

## Left out

- The Streamlit user interface is not modelled: page set-up, uploaders, selectors, buttons, spinner, table display and rerun. It is presentation only.
- Reading the spreadsheets, writing the result workbook and the download buffer are not modelled, because they are file I/O.
- Column renaming and selection are not modelled. The model takes well-typed records.
- The status and alert texts are not modelled: emoji, wording, `int(...)` formatting and the `" | "` join of the alerts. The model keeps the status as a datatype and the alerts as an ordered sequence of values.
- Quantities are integers, not floats. This makes `int(falta)` the identity. pandas' 64-bit integers, which wrap on overflow, are modelled as unbounded integers; the scaling at `app.py:8` and the subtraction at `app.py:25` therefore never wrap in the model. Nothing in the rule depends on the wrap.
- The source scales the caller's quantity column in place, so the caller's input is changed. The model computes new scaled lines instead and leaves the input unchanged.
- pandas behaviours outside well-typed string codes are not modelled. These are groupby dropping missing codes, and equality between codes of different types.
- The source has one loop in the PL branch and one in the PV branch, with different literal source lists. `Decide` has a single loop over `Sources(dest)`, which is the same list for each branch.
- The variable `transposicao` is computed but never read. `Decide` keeps it as a local, with the invariant that it plus the remaining shortfall equals the initial shortfall.
