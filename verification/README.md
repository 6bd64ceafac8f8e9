# Verification of the trading workstation

A Dafny model of the parts of this repository where money or price history can go wrong, with proofs about every run,
every reachable state and every input. `dafny verify dfyconfig.toml` checks all of it.

Prices and quantities are exact reals; where a value may be missing, not a number or infinite, it is an `Option` or a
`Numbers.Num`. Code that updates state in place is a class or a method with loops, proved equal to a specification
function; the properties are lemmas about those functions.

- **Proposals, Approvals, ApprovalSteps**: the proposal table with its transition graph, and approvers and rejecters
  racing on it. Every table call is a step of its own and an order RPC is two, the request and the reply, so the
  lemmas speak of every interleaving of any number of actors, with other callers adding, annotating and deleting rows
  in between.
- **ResizePlan, ResizeRun, ResizeLaws, ResizeTerms, ResizeCover**: scaling a portfolio to a bound with truncated share
  counts, and the protocol that sends the deltas and brings protective orders to the new size against a broker that
  may fail, time out or half succeed at any call, and whose cancels take effect when they like. What a run asks for
  and what comes of it is a sequence of events; ResizeRun proves which sequences and reports are possible, ResizeLaws
  what holds at every moment of each, ResizeTerms what is asked for field by field, and ResizeCover how much the
  re-created orders cover.
- **Ledger, Events**: pairing fills into round trips at average cost, excluding fills, and totals per strategy.
- **BarQuality, BarStore, Gaps, Backfill**: what a possible bar is and the mask that decides it fast, the tick table
  with its range-delete-then-insert writes and merges, the search for missing sessions, and the downloads that fill
  them in any order.
- **TickBars**: bars made of live ticks; published bars never change, and no volume is lost.
- **Columns, RegularHours, Indicators, VwapReclaim, LateDayMomentum, OpeningDriveFade, GapReversion,
  OpeningRangeBreakout**: the column arithmetic of five intraday strategies, whole-day broadcasts included, what the
  indicators are on numbers, and the proof that a backtest signal is the one that the bars so far give.
- **Settings**: decoding, ranking, and the save that a crash may stop anywhere.
- **Decimals, OptionTickers**: printing and parsing option tickers.
- **Common, Numbers**: options, results, JSON values, floating-point values with an exact finite part.

What the code does not quite do is part of the result. Where a property fails it is proved exactly when it holds, and
a lemma gives an input with which it fails:

- A proposal is marked FAILED after a refusal, a connection error or an unexpected exception, although its order may be
  live (`trader/sdk.py:1701-1724`); the comments there say that no order was placed. A refusal hides an order when a
  position-crossing order is split, its reduction placed and its remainder refused
  (`trader/trading/trading_runtime.py:1476-1484`), and a connection error raised by the service is one for the client
  (`trader/messaging/clientserver.py:548-579`).
- A protective order can be live together with its replacement: `cancel_order` confirms that a cancel was requested
  (`trader/trading/executioner.py:492-498`), not that the order is gone.
- The protective orders of a position are each re-created at its whole new size (`trader/sdk.py:2088`), so two stops
  that each covered a part of it come back covering more than it.
- A merge is map override only if no downloaded bar with a close is impossible (`trader/data/data_access.py:592`), and
  reads back one bar a date only without stored rows that have no bar size (`trader/data/duckdb_store.py:274`).
- A live bar can change after it was published if the period does not divide the midnight the windows are counted
  from, because `floor` counts from the epoch (`trader/data/market_data.py:137`).
- Volume is counted twice after a bar without a running total (`trader/data/market_data.py:125`).
- Two strategies can see the day's open in the backtest before it was there, if bars have a close but no open
  (`strategies/opening_drive_fade.py:69`, `strategies/gap_reversion.py:66`).
- A position of a fraction of a share can shrink in a plan meant to grow (`trader/sdk.py:98`).
- Settings recovered from the backup are lost if the next save stops after copying the unreadable file over it
  (`trader/settings_store.py:136-137`), and a symbol that is not text escapes `load()` (`trader/settings_store.py:119`).

## Model

| member | source | states |
|---|---|---|
| Proposals.ProposalStore.Add | trader/data/proposal_store.py:80-129 | A proposal that is not PENDING is refused and changes nothing; any other gets the next id, and its row holds its terms and its metadata with the exchange, currency and group hints packed in |
| Proposals.ProposalStore.UpdateMetadata | trader/data/proposal_store.py:131-164 | Merges the extra keys over the old ones in one row; a terminal row is refused, a missing row ignored, nothing else changes |
| Proposals.ProposalStore.UpdateStatus | trader/data/proposal_store.py:166-223 | Refuses an unknown status, a missing row, the status already held and every move outside the transition graph, each with its own error and no change; otherwise sets the status and the optional columns given |
| Proposals.ProposalStore.TryTransition | trader/data/proposal_store.py:225-260 | Compare-and-swap: changes the row and says true only if the row is in the expected status; a legal move from another status, or of a missing row, is false and changes nothing |
| Proposals.ProposalStore.Delete | trader/data/proposal_store.py:284-308 | Removes the row, unless it is terminal and the call is not forced |
| Proposals.StoredProposalReadsBack | trader/data/proposal_store.py:95-104 | A stored proposal reads back as itself if and only if its metadata has none of the three reserved keys |
| Proposals.AlwaysWellFormed | trader/data/proposal_store.py:107-129 | After any sequence of calls every row has an id that the sequence has already issued |
| Proposals.PathsAreShort | trader/data/proposal_transitions.py:32-56 | Every path of the transition graph that begins PENDING makes at most two moves, and only its last status can be terminal |
| Proposals.EveryHistoryIsAPath | trader/data/proposal_store.py:170-176 | Under any sequence of calls, forced deletes included, the statuses a row shows begin with PENDING, follow the graph, and are at most three |
| Proposals.TerminalRowsNeverChange | trader/data/proposal_store.py:134-142 | A terminal row keeps every column through any further calls other than a forced delete of that row |
| Proposals.OnlyTheFirstSwapWins | trader/data/proposal_store.py:225-233 | Of two swaps of one row out of the same status the first succeeds and the second is refused and changes nothing; no other row is touched |
| Proposals.TransitionsAre | trader/data/proposal_transitions.py:32-56 | The seven edges of the state machine by name, and the four statuses without an edge out |
| Proposals.AddSays | trader/data/proposal_store.py:80-129 | Column by column and key by key: a new row has the next id, PENDING, everything the proposal holds, and each hint over the proposal's own metadata; no other row changes |
| Proposals.MetadataSays | trader/data/proposal_store.py:131-164 | Key by key, what a read after the merge gives: the new value under a new key and the old one under any other; no other column but the time of change, and no other row |
| Proposals.StatusSays | trader/data/proposal_store.py:166-223 | A status write succeeds if and only if the status is known and one edge away; then the row has it and the order ids and reason given, the old ones where none are, and no other row changes; each refusal has its error, in order |
| Proposals.SwapSays | trader/data/proposal_store.py:225-260 | A swap is true if and only if it is along an edge and the row is in the expected status, which then moves with the columns given; otherwise nothing changes |
| Proposals.RemoveSays | trader/data/proposal_store.py:284-308 | A delete takes out the one row and no other, and is refused exactly for a terminal row without force |
| Approvals.StepKeepsInv | trader/sdk.py:1562-1724 | Every step of every actor, and every add, annotation and delete by others, keeps the invariant tying rows, claims, orders and actors together |
| Approvals.ReachableInv | trader/sdk.py:1562-1724 | The invariant holds in every state that any interleaving of any number of approvers and rejecters leads to |
| Approvals.AtMostOneOrder | trader/sdk.py:1592-1598 | In every reachable state no two uses of the order RPC are for one proposal |
| Approvals.OneWinner | trader/sdk.py:1592-1598 | Of all approvers of a proposal at most one is past the claim or has returned with a placed or unknown order |
| Approvals.RejectedIsNeverSent | trader/sdk.py:1562-1570 | Once a reject has won, no order was sent for the proposal, none ever will be, and the row stays REJECTED until deleted |
| Approvals.ExecutedMeansConfirmed | trader/sdk.py:1707-1715 | An EXECUTED row has an order that is live at the broker, whose reply was success, with exactly the order ids in the row |
| Approvals.TimedOutStaysApproved | trader/sdk.py:1689-1700 | The row of a submission that timed out is APPROVED, and never anything else in any continuation, until it is deleted |
| Approvals.RowsFollowReplies | trader/sdk.py:1689-1724 | Once its approver has returned, a proposal for which an order was sent is FAILED if and only if the reply was a refusal, a connection error or an unexpected exception, EXECUTED if and only if it was success, and APPROVED if and only if it was a timeout, whatever became of the order and unless the row was deleted |
| Approvals.FailedHidesAnOrderOnlyAfter | trader/sdk.py:1701-1724 | A FAILED row with an order, live or not, had one of those three replies |
| Approvals.CondemningRepliesHideOrders | trader/sdk.py:1701-1724 | For each of the three replies a concrete run that ends with a live order on a FAILED row |
| Approvals.FlipSplitEndsFailed | trader/trading/trading_runtime.py:1472-1484 | Holding 3 and approving SELL 5: the reduction of 3 is live, the opening 2 are refused, and the row says FAILED |
| Approvals.OrdersMatchTheirRows | trader/sdk.py:1606-1688 | Every order carries the terms of its row and a positive quantity: the row's own when it names one |
| Approvals.VerdictsAreTrue | trader/sdk.py:1562-1724 | A success returned names an EXECUTED row and its order ids, a timeout an APPROVED one, and a true from reject a REJECTED row for which nothing was sent |
| ApprovalSteps.LookSays | trader/sdk.py:1562-1568 | A reject of a missing proposal is false at once, any other goes on; nothing else changes |
| ApprovalSteps.RejectSays | trader/sdk.py:1569-1570 | In any state: the answer is true if and only if the row is PENDING; then the row is REJECTED with the reason given, the proposal counts as rejected and every other row is as it was; otherwise the table is |
| ApprovalSteps.LoneRejecterRejects | trader/sdk.py:1562-1570 | A reachable run from an added proposal to a REJECTED row with the reason given and a true answer |
| ApprovalSteps.ReadSays | trader/sdk.py:1574-1590 | An approval of a missing or not PENDING proposal ends there with its own error, any other goes on with the terms of the row |
| ApprovalSteps.ClaimSays | trader/sdk.py:1592-1604 | The claim of a PENDING row makes it APPROVED, with no other column changed but the time, and the caller its only winner; any other claim changes nothing |
| ApprovalSteps.PrepareSays | trader/sdk.py:1606-1660 | An order is prepared if and only if the contract is resolved and the row's own quantity, or without one the shares its amount buys, is positive, and for exactly that quantity |
| ApprovalSteps.CondemnSays | trader/sdk.py:1625-1660 | Without a price or a quantity the row is set to FAILED |
| ApprovalSteps.SubmitSays | trader/sdk.py:1676-1688 | One order leaves, for this proposal, with the terms read and the quantity prepared; no row changes |
| ApprovalSteps.ReceiveSays | trader/sdk.py:1689-1724 | A reply is kept with its order: success is to be settled, a timeout ends the approval, all else is a failure |
| ApprovalSteps.SettleSays | trader/sdk.py:1707-1715 | A success makes the APPROVED row EXECUTED with exactly the order ids of the reply |
| ApprovalSteps.FailSays | trader/sdk.py:1701-1724 | A failure makes the APPROVED row FAILED and changes nothing else |
| ApprovalSteps.FailuresAreWritten | trader/sdk.py:1701-1724 | In every reachable state an approver that returned a failure left its row FAILED unless it was deleted, and one about to write still finds it APPROVED |
| ApprovalSteps.LoneApproverExecutes | trader/sdk.py:1572-1724 | A reachable run from an added proposal to an EXECUTED row with the ids of the reply |
| ResizePlan.Adjust | trader/sdk.py:90-123 | There is no adjustment exactly if the position is a whole-share size that the scale leaves in place; any other leads from what is held to the scaled size without its fraction, on the same side of zero and less than a share short of it, and buys exactly to raise |
| ResizePlan.ComputeResizeDeltas | trader/sdk.py:55-125 | Scale times total is the bound that the total violates, the maximum before the minimum; if it violates none or is zero the scale is 1 and nothing is adjusted; otherwise the adjustments are those of all positions in order |
| ResizePlan.ScaleMeetsBounds | trader/sdk.py:80-88 | The scale times the total is the violated bound, and 1 without one |
| ResizePlan.TotalJoins | trader/sdk.py:72-75 | The total is the sum over the positions of the size of each value, the base-currency one where it is given |
| ResizePlan.AdjustmentsJoin | trader/sdk.py:89-123 | The adjustments are those of the positions one by one, none left out, in order |
| ResizePlan.ResizedIsWithinAShare | trader/sdk.py:98-99 | For a scale that is not negative, truncation loses less than one share of the scaled size and never crosses zero |
| ResizePlan.BuysExactlyToRaise | trader/sdk.py:104-109 | The action is BUY exactly when the delta is positive, for longs and shorts |
| ResizePlan.FlipsOnlyOnNegativeBounds | trader/sdk.py:80-98 | A position changes side exactly when its size times the scale is -1 or less, which needs a negative bound |
| ResizePlan.GrowShrinksExactlyFractions | trader/sdk.py:83-99 | A plan meant to grow shrinks a position exactly when the scaled size is below the next whole share; never for whole-share positions |
| ResizePlan.HalfAShareIsSold | trader/sdk.py:98-98 | Half a share in a portfolio that is to grow by half is sold |
| ResizePlan.ShrinkNeverGrows | trader/sdk.py:81-99 | A scale below 1 enlarges no position |
| ResizePlan.PlanMeetsItsBound | trader/sdk.py:75-125 | Where a bound applies, the resized portfolio is worth at most the bound and falls short of it by less than the sum of the prices |
| ResizePlan.AdjustmentsAreSound | trader/sdk.py:89-123 | Every adjustment has a non-zero delta that leads to its target, the matching action, and no change of side |
| ResizeRun.Broker.CancelOrder | trader/trading/executioner.py:492-498 | A cancel is only asked for: the order may be gone at once, later or never, and success says no more than that the request was made |
| ResizeRun.Broker.PlaceStandaloneOrder | trader/trading/trading_runtime.py:2050-2168 | An order of an unsupported type, one that does not reduce the position, and one larger than it are never placed nor confirmed; any other may be placed whatever the reply, and is if the reply is success |
| ResizeRun.Broker.LivePositionQty | trader/sdk.py:1957-1973 | The signed position of the instrument, or zero when it cannot be read |
| ResizeRun.AwaitGrownPosition | trader/sdk.py:1975-1995 | True if and only if some reading reached the target's size, the last one taken, and then the position has that size and side; false means that every one of the allowed polls fell short; only that instrument's position has moved |
| ResizeRun.ResetProtective | trader/sdk.py:2113-2159 | One protective order: a cancel is asked for, a replacement only if it was acknowledged, at the new size and fitting what is held at that moment; the requests and the messages are exactly those of how it went |
| ResizeRun.ResetProtectives | trader/sdk.py:2113-2159 | The same for all protective orders of a step, one after the other |
| ResizeRun.ExecuteStep | trader/sdk.py:2008-2159 | The delta is sent once; only if it was confirmed, the contract resolved and a growth filled are protective orders touched, and the requests and the report are exactly those of how far it got |
| ResizeRun.ExecuteResizePlan | trader/sdk.py:1997-2161 | Whatever the broker does, the requests made, the book they leave and the report are those of a possible run of the plan, step by step in order; the laws below are about every such run |
| ResizeLaws.RunIsDisciplined | trader/sdk.py:2070-2076 | In every run only orders of the plan are cancelled, and an order is placed only for one whose cancel was acknowledged, of the same instrument, and that has no replacement yet |
| ResizeLaws.CountAtEveryMoment | trader/sdk.py:2113-2159 | At every moment the live protective orders of an instrument are the original ones, less those gone without a replacement, plus those live beside theirs: never more than the original ones and the acknowledged cancels still live, and no more than the original ones exactly when the doubled do not outnumber the lost; replacements are not shared |
| ResizeLaws.BoundHoldsExactlyWithoutOverlap | trader/sdk.py:2070-2076 | An order and its replacement are never live together if and only if none is placed while the acknowledged cancel of the one it replaces is yet to take effect; then no instrument ever has more live orders than at the start, and where each had one at most this holds only then |
| ResizeLaws.TwoLiveStops | trader/trading/executioner.py:492-498 | A concrete run that leaves two live stops where there was one, with no failure and no warning reported |
| ResizeLaws.LossHidesOverlap | trader/sdk.py:2113-2159 | A concrete run in which a stop is live beside its replacement although the count is that of the start, since another was lost |
| ResizeLaws.EveryStepSettles | trader/sdk.py:2008-2159 | A step reported as failed or skipped has its orders live and untouched at every moment of the run; of any other step each order ends with a replacement of its own at the new size, or is named in a warning |
| ResizeLaws.ReportNamesSkippedSteps | trader/sdk.py:2050-2112 | The report says of a step that it failed or was skipped if and only if it ended before its protective orders |
| ResizeLaws.EveryRequestFits | trader/sdk.py:2134-2147 | Every order asked for re-creates one the plan lists, is no larger than the position held at that moment, and unless its size is zero reduces it |
| ResizeLaws.EveryPlacedOrderFits | trader/trading/trading_runtime.py:2078-2103 | Whatever happens to the position during the run, what is placed is of a supported type, reduces what is held at that moment, and exceeds it by no more than the tolerance of the check |
| ResizeLaws.EachDeltaIsSentOnce | trader/sdk.py:2008-2067 | In every run each delta is sent exactly once, in plan order |
| ResizeTerms.RequestsKeepTheirTerms | trader/sdk.py:2134-2147 | In every run each order asked for has the instrument, side, type, prices, trailing percent, time in force and reference of the listed order it replaces, and the size of the target |
| ResizeTerms.NothingBeforeItsCancel | trader/sdk.py:2113-2133 | In every run nothing is asked for in place of an order before an event that acknowledges its own cancel |
| ResizeTerms.HeirsLiveOn | trader/sdk.py:2134-2147 | The replacement an order ends with is live at the new size with that order's terms, at its limit price if a limit, its stop price if a stop, and its trailing percent, or else amount, if a trail |
| ResizeTerms.MarketOrdersAreTheDeltas | trader/sdk.py:2022-2043 | The market orders of a run are one a step, in order, each for the whole delta on its side |
| ResizeTerms.ReportIs | trader/sdk.py:2044-2161 | Message by message: the successes are the deltas and the replacements that were confirmed, the failures the deltas that were not, the warnings the contracts not found, the targets not reached, and the cancels and replacements not confirmed |
| ResizeCover.ReplacementsCoverOnceExactly | trader/sdk.py:2088-2141 | In every run of a plan the replacements of a step together cover no more than its new position, if and only if the plan lists at most one order for it that is no stop-limit, or closes the position |
| ResizeCover.TwoStopsCoverTwice | trader/sdk.py:2088-2141 | Stops of 60 and 40 on 100 shares trimmed to 50: all goes well, nothing is reported as wrong, and the two new stops sell 100 |
| Ledger.PairFill | trader/data/event_store.py:308-340 | One fill changes the lot of its own key only; what that key held or bought, in quantity and cost, is what is closed, held or dropped; a sale closes the smaller of what is sold and held if it finds a lot, and is counted as unmatched if not |
| Ledger.PurchaseMeans | trader/data/event_store.py:318-324 | On the fill itself: BUY in any case with a positive quantity adds that quantity and its cost to the lot of its key, closes nothing and touches no other lot |
| Ledger.SaleMeans | trader/data/event_store.py:325-340 | SELL closes the smaller of what is sold and held, at the fill's own price and time against the lot's entry, and leaves the rest of the lot unless it is dust; without a lot it is counted as unmatched and changes nothing |
| Ledger.OthersMeanNothing | trader/data/event_store.py:308-319 | Any other action, a quantity that is missing, bad or not positive, or a bad price changes nothing |
| Ledger.PairFillsLongOnly | trader/data/event_store.py:293-345 | The closed trades, open lots and unmatched sales of a sequence of fills, as the fold of the single turns |
| Ledger.CostBasisIsConserved | trader/data/event_store.py:293-345 | For every fill sequence and key: what was bought, in quantity and in cost, is what was closed, is still held, or was dropped as dust |
| Ledger.DroppedIsDust | trader/data/event_store.py:336-338 | Each dropped remainder is positive and at most 1e-9 |
| Ledger.EachTradeIsWellPriced | trader/data/event_store.py:330-335 | Every closed trade has a positive quantity and a pnl of exit less entry times quantity |
| Ledger.PnlIsProceedsLessCost | trader/data/event_store.py:331-335 | The total pnl of a key is its matched proceeds less its matched cost |
| Ledger.KeysAreIndependent | trader/data/event_store.py:308-316 | Two fill sequences with the same fills of a key give that key the same trades and lot, whatever is interleaved |
| Ledger.OthersAlone | trader/data/event_store.py:308-340 | Leaving out one key's fills leaves every other key's trades and lots, in order |
| Ledger.UnmatchedSplits | trader/data/event_store.py:326-328 | The unmatched sales are those of a key plus those of all the others |
| Ledger.ExcludingAFlatBlock | trader/data/event_store.py:192-206 | Leaving one key's fills out of a stretch that the key enters and leaves flat removes exactly the trades and unmatched sales those fills make alone; every other trade and every open lot stays |
| Events.EventStore.SetFillExclusion | trader/data/event_store.py:253-290 | Succeeds exactly when every id is a fill, and then annotates exactly those; otherwise names the first that is not, with the ids before it annotated and nothing else changed |
| Events.ReincludingRestores | trader/data/event_store.py:280-285 | Re-including an excluded fill restores it if and only if it carried neither annotation key before |
| Events.AnnotationSays | trader/data/event_store.py:278-285 | Key by key: what an annotation leaves under each key, and that nothing else of the event changes |
| Events.KeptOfOne | trader/data/event_store.py:192-206 | A fill is kept for the ledger unless it is annotated as excluded; events of other kinds never are |
| Events.ExclusionLeavesOut | trader/data/event_store.py:196-205 | Excluding all of a key's live fills in a stretch of the table leaves the ledger that stretch without the key |
| Events.ExclusionRemovesOnlyTheBlock | trader/data/event_store.py:192-236 | Such an exclusion of a flat stretch takes out exactly the trades its fills close among themselves, and no other trade or open lot |
| Events.RealizedPnlByStrategy | trader/data/event_store.py:177-236 | Trades, lots and unmatched sales of the fills that are not excluded, the number of those that are, and one bucket for each strategy with a closed trade or an open lot, holding that strategy's totals, wins, today's share and open lots |
| Events.SumsStep | trader/data/event_store.py:217-225 | Booking one more trade keeps every bucket the summary of its own strategy's trades |
| Events.SummariesAdd | trader/data/event_store.py:217-225 | What a bucket says of two stretches of trades is the sum of what it says of each |
| Events.SummaryOfOne | trader/data/event_store.py:217-225 | One trade gives its own strategy its profit, for today if it closed today, and a win if it gained; other strategies nothing |
| BarQuality.CheckBar | trader/data/bar_quality.py:80-140 | The findings are exactly the broken rules that no rule of an earlier group forestalls, the empty bar a warning and the rest errors; an error is among them exactly when no market can have printed the bar |
| BarQuality.CheckTimes | trader/data/bar_quality.py:159-174 | The findings are exactly the unreadable timestamps, those before the last readable one, and those seen before, each at its bar |
| BarQuality.CheckSeries | trader/data/bar_quality.py:148-175 | The findings are exactly those of each bar by itself and of its place in time |
| BarQuality.SequenceFindings | trader/data/bar_quality.py:159-174 | A series has an ordering or duplicate finding exactly when its readable timestamps do not strictly increase |
| BarQuality.ErrorFreeSeries | trader/data/bar_quality.py:148-175 | It is free of errors exactly when no bar is impossible and its timestamps are all readable and strictly increase |
| BarQuality.MaskAgreesWithRules | trader/data/bar_quality.py:257-300 | For every row, NaN and infinite fields included, the vectorised mask is set exactly when the slow rules find an error |
| BarQuality.MaskWithoutColumns | trader/data/bar_quality.py:270-273 | Without price columns the mask refuses nothing; without a volume column it judges as the rules do with a good volume |
| BarStore.TickStore.WriteTable | trader/data/duckdb_store.py:334-412 | One transaction: the rows of the symbol in the frame's date range and bar sizes are replaced by the frame |
| BarStore.TickStore.Write | trader/data/data_access.py:388-442 | Impossible bars go to quarantine, the others to the table, nothing is lost between them |
| BarStore.ImpossibleBreaksARule | trader/data/bar_quality.py:257-300 | The bars held back are exactly those in which the rules for a single bar find an error |
| BarStore.PossibleCount | trader/data/data_access.py:388-442 | Every other bar passes the filter as often as the frame has it |
| BarStore.WriteCounts | trader/data/duckdb_store.py:334-412 | Row by row: a write deletes exactly the rows dated between some two bars of the frame in one of its bar sizes, or in any if it names none, and adds every bar as often as the frame has it |
| BarStore.TickStore.WriteResolveOverlap | trader/data/data_access.py:563-601 | Bars without a close are dropped, the rest is merged over what is stored with the last at each date winning, and the result is written |
| BarStore.DropDuplicatesKeepsSeries | trader/data/data_access.py:588-593 | Keeping the last row of each date keeps the series of last values |
| BarStore.WriteReplacesRange | trader/data/duckdb_store.py:368-392 | A write of bars of one size replaces the rows of its range, keeps the rest of the series, and leaves every row of another symbol or bar size as it was |
| BarStore.MergeKeepsStoreClean | trader/data/data_access.py:563-601 | Whatever is merged, the store keeps one possible bar a date, and every row of another symbol or bar size |
| BarStore.MergeIsExactly | trader/data/data_access.py:563-601 | For any download: at each date the merge leaves the old series overridden by the new, except where the new bar is impossible; nothing new is stored there, and the old bar is lost exactly when it lies among the bars written |
| BarStore.MergeOverrides | trader/data/data_access.py:588-601 | With no impossible bar among the new ones, the stored series becomes the old one overridden by the new |
| BarStore.MergeOverridesExactlyWithoutImpossibleBars | trader/data/data_access.py:592-601 | The merge is map override if and only if no new bar that has a close is impossible; one that is wins over a stored bar and is then dropped |
| BarStore.GoodBarIsLost | trader/data/data_access.py:592-592 | Bars at 1, 2 and 3 are stored; merging an impossible one for 2 leaves no bar there |
| BarStore.ReadsInOrder | trader/data/duckdb_store.py:257-300 | A read of a clean store has strictly increasing timestamps and is the stored series |
| BarStore.UntaggedRowsAreDuplicated | trader/data/duckdb_store.py:274-274 | Rows without a bar size are read but not deleted: after a merge each date reads back once if and only if there was no such row in the readable window |
| BarStore.UntaggedBarReadsTwice | trader/data/duckdb_store.py:274-274 | A bar stored without a bar size reads back twice after a merge of another |
| Gaps.Runs | trader/data/data_access.py:718-734 | The loop over the sessions returns exactly the maximal runs of absent sessions, ordered and disjoint, covering every absent session and no present one |
| Gaps.Missing | trader/data/data_access.py:678-734 | The same for the sessions of a date range and the days that carry a bar with a close |
| Gaps.RunsHoldNoPresentDay | trader/data/data_access.py:718-732 | No present session lies in a returned range |
| Gaps.GapsAreUnique | trader/data/data_access.py:718-734 | Any two lists of ranges that fit that description have the same ranges |
| Backfill.Download | trader/data_service.py:103-139 | A download that fails, or whose write raises, is reported and changes no tick; any other leaves the ticks as a write of all possible bars of its reply does, and puts all others in quarantine |
| Backfill.Pull | trader/data_service.py:289-312 | Every task is run, and the counts and errors are those of the downloads that failed |
| Backfill.RunAllCount | trader/data/duckdb_store.py:375-407 | After any tasks on disjoint days the table holds, row by row, what none of them erases and what all of them add |
| Backfill.BackfillStoresTheReplies | trader/data_service.py:103-139 | After any honest downloads on disjoint days every possible bar that came back is stored as often as it came, nothing else is added, and only rows of the same security and size among the dates that came back are deleted |
| Backfill.AnyOrderGivesTheSameTable | trader/data_service.py:269-297 | Tasks on disjoint days leave the same rows in whatever order they reach the table |
| Backfill.GapTasksAreDisjoint | trader/data_service.py:269-290 | The tasks made from the gaps of any number of securities touch disjoint days of each |
| Backfill.BackfillKeepsGoodBars | trader/data/duckdb_store.py:375-407 | Filling the gaps of any securities together never deletes a bar with a close on a session of its security, nor any row of another security or bar size |
| Backfill.BackfillClosesTheGaps | trader/data/data_access.py:701-734 | For each security: if every absent session of it was delivered a possible bar with a close, the next look for its gaps finds none, whatever became of the others |
| TickBars.PublishedBarsNeverChange | trader/data/market_data.py:132-140 | For time-ordered ticks and a period that divides the midnight they are counted from, the bars of the first ticks are the first bars of all of them |
| TickBars.StableExactlyWhenAligned | trader/data/market_data.py:134-138 | Published bars of all streams beginning on a day never change if and only if that midnight is a multiple of the period, as it always is for a period that divides the day |
| TickBars.TwoTicksOneWindow | trader/data/market_data.py:134-138 | Two ticks with which a bar changes after it was published, for every period that does not divide the midnight |
| TickBars.ClosedWindowsAreFixed | trader/data/market_data.py:112-114 | A window that closed before some tick gets nothing from that tick on |
| TickBars.BarsAreCoherent | trader/data/market_data.py:112-114 | Each bar opens at the first price of its window, closes at the last, and its high and low are attained there and bound every price of it, open and close included |
| TickBars.BarsCarryLastQuotes | trader/data/market_data.py:128-130 | VWAP, bid, ask, last and last size of a bar are the last ones of its window, and missing only if the window has none |
| TickBars.NewestTickIsCarried | trader/data/market_data.py:112-131 | Field by field, the bar of the newest tick's window has the price, quotes and counter of that tick |
| TickBars.BarsCountTheirTicks | trader/data/market_data.py:131-131 | A bar counts the priced ticks of its window |
| TickBars.EveryPriceIsInABar | trader/data/market_data.py:112-114 | The windows with a bar are exactly those with a priced tick |
| TickBars.WindowHoldsItsTick | trader/data/market_data.py:107-114 | A window begins a whole number of periods after the midnight, no later than its tick and less than a period before it |
| TickBars.NoWindowIsPassedOver | trader/data/market_data.py:132-144 | The bars are those of exactly the windows with a priced tick, all of them, or all before the forming one where it is to be left out and has one |
| TickBars.BarsDescribeTheirTicks | trader/data/market_data.py:107-144 | On time-ordered ticks the bars ascend, one a window, each coherent with its ticks |
| TickBars.QuotesAreLast | trader/data/market_data.py:119-119 | The running total a bar's volume is taken from is the last one of its window |
| TickBars.VolumesAddUp | trader/data/market_data.py:118-124 | Over every run of the counter the bar volumes add up to where the counter stands, plus its value before each fall, plus what is counted again after a bar without a counter |
| TickBars.NothingCountedTwice | trader/data/market_data.py:118-124 | With counters that are not negative no bar volume is negative, and volume is counted twice exactly when the counter goes on from a positive value after a bar without one |
| TickBars.VolumeIsConserved | trader/data/market_data.py:118-126 | Up to any bar that is reported the law holds for the volumes in the bars, with nothing counted twice when every bar has a counter |
| TickBars.BarsCountVolumeOnceExactly | trader/data/market_data.py:118-126 | With counters that are not negative, the volumes of the first bars add up to no less than was traded, and to just that if and only if the counter never goes on from a positive value after a bar without one |
| TickBars.MissingCounterCountsTwice | trader/data/market_data.py:125-125 | Three ticks whose bars report 230 although 130 was traded |
| Columns.VwapOfPrefix | strategies/vwap_reclaim.py:55-59 | The session VWAP of a bar does not depend on later bars |
| Columns.VwapNeedsClose | strategies/vwap_reclaim.py:55-59 | The VWAP is no number where the close is none |
| Indicators.VwapIsTheAverage | strategies/vwap_reclaim.py:55-59 | The session VWAP is the money traded on the day so far over the shares, and the close while there are none |
| Indicators.RollingMeanIs | strategies/vwap_reclaim.py:67-67 | A rolling mean is that of the numbers among the last values of its window, given enough of them |
| Columns.FirstIs | strategies/vwap_reclaim.py:63-65 | The transform "first" is exactly the day's earliest value, and NaN exactly if there is none |
| Columns.LastIs | strategies/gap_reversion.py:67-67 | The aggregate "last" is exactly the day's latest value, and NaN exactly if there is none |
| Columns.LowestIs | strategies/opening_drive_fade.py:70-70 | The transform "min" is exactly the value of the day that no other is below |
| Columns.HighestIs | strategies/late_day_momentum.py:73-73 | The transform "max" is exactly the value of the day that no other is above |
| VwapReclaim.OpenVwapLooksAhead | strategies/vwap_reclaim.py:63-65 | The broadcast column differs from that of the bars so far exactly where the day's first price in regular hours is yet to come |
| VwapReclaim.BuysExactlyOnReclaims | strategies/vwap_reclaim.py:99-131 | A bar buys if and only if it is in the entry window, the day has dipped 0.3% from its first price to its low so far, and the price crosses the VWAP from below on volume |
| VwapReclaim.SignalIsCausal | strategies/vwap_reclaim.py:38-131 | What bar i signals on the whole history is what it signals on bars 0..i, for every history |
| VwapReclaim.LiveEqualsBacktest | strategies/vwap_reclaim.py:84-97 | The live strategy on the bars so far says what the backtest says at that bar |
| LateDayMomentum.DayBeforeFinds | strategies/late_day_momentum.py:76-80 | The day before is the latest day of the history that is earlier, and there is none only if no day is |
| LateDayMomentum.PriorDaysAreSettled | strategies/late_day_momentum.py:77-80 | The days the trailing mean is taken over are all earlier than the bar's own and do not depend on later bars |
| LateDayMomentum.DailyRangeIsSettled | strategies/late_day_momentum.py:73-77 | The full range of a day is settled once no bar of it is to come |
| LateDayMomentum.BuysExactlyOnTrends | strategies/late_day_momentum.py:100-134 | A bar buys if and only if it is in the entry window, half a per cent above the VWAP, not falling, on volume, and the session's range so far is 1.15 times the mean range of the days before |
| LateDayMomentum.SignalIsCausal | strategies/late_day_momentum.py:41-134 | For time-ordered bars what bar i signals on the whole history is what it signals on bars 0..i, although every bar is given its whole day's range |
| Indicators.PriorDaysAre | strategies/late_day_momentum.py:77-80 | The trailing days are exactly the latest earlier days of the history, as many as asked for or there are, in order |
| Indicators.PriorMeanIs | strategies/late_day_momentum.py:77-80 | The trailing mean is that of the ranges of the latest five earlier days, of those that are numbers, given at least three |
| Indicators.DailyRangeIs | strategies/late_day_momentum.py:73-77 | A day's range is from the lowest low to the highest high of its regular hours |
| OpeningDriveFade.DriveLowIsTheLow | strategies/opening_drive_fade.py:64-70 | The drive low is the lowest low of the day's drive window and some bar of it has it |
| OpeningDriveFade.DriveLowIsSettled | strategies/opening_drive_fade.py:64-70 | At a bar that may enter, the broadcast drive low does not depend on later bars |
| OpeningDriveFade.BuysExactlyOnFades | strategies/opening_drive_fade.py:111-153 | A bar buys if and only if it is in the entry window, below the VWAP, oversold, on fading volume and near the low of the opening drive, and that drive from the day's first open was 1.5 times the average true range |
| OpeningDriveFade.SignalIsCausal | strategies/opening_drive_fade.py:39-153 | For time-ordered bars, a bar whose day has an open by then signals the same with and without the bars after it |
| OpeningDriveFade.BarsWithOpensAreCausal | strategies/opening_drive_fade.py:39-153 | So does every bar that has an open itself |
| OpeningDriveFade.CausalExactlyWhen | strategies/opening_drive_fade.py:69-69 | Later bars can change what the last bar signals if and only if its day has no open yet and everything but the size of the drive asks to buy |
| OpeningDriveFade.FallingBarsLookAhead | strategies/opening_drive_fade.py:69-69 | A concrete history whose last bar is such a case |
| Indicators.TrueRangeIs | strategies/opening_drive_fade.py:73-76 | The true range is the largest of the bar's own range and its distances from the close before |
| Indicators.AtrIs | strategies/opening_drive_fade.py:77-78 | The average true range is the mean of the last 5460, given at least 390 |
| Indicators.RsiIs | strategies/opening_drive_fade.py:84-88 | The relative strength is that of the last 14 changes, from their mean rise and mean fall, and no number if nothing fell |
| GapReversion.SessionBeforeFinds | strategies/gap_reversion.py:63-69 | The prior session is the latest earlier day with a bar in regular hours |
| GapReversion.PriorCloseIsSettled | strategies/gap_reversion.py:67-68 | The prior session's close does not depend on later bars |
| GapReversion.TradesOrNot | strategies/gap_reversion.py:90-146 | After the first 40 bars: in regular hours from 15:45 every bar says SELL whatever the gap; before, the fade rules decide; outside, nothing is said |
| GapReversion.FadesExactly | strategies/gap_reversion.py:112-146 | Before the flat time a bar buys if and only if the gap from the prior session's last close to the day's first open is down and moderate and the price crosses the VWAP upwards on volume; it sells if and only if the gap is moderate and the price crosses downwards, after a gap up only on volume |
| GapReversion.SignalIsCausal | strategies/gap_reversion.py:34-146 | For time-ordered bars, a bar whose day has an open by then signals the same with and without the bars after it |
| GapReversion.BarsWithOpensAreCausal | strategies/gap_reversion.py:34-146 | So does every bar that has an open itself |
| GapReversion.CausalExactlyWhen | strategies/gap_reversion.py:66-72 | Later bars can change what the last bar signals if and only if its day has no open yet, it trades before the flat time after a finite non-zero prior close, and it crosses the VWAP so that some gap would have it traded |
| GapReversion.ReclaimingBarsLookAhead | strategies/gap_reversion.py:66-72 | A concrete history whose last bar is such a case |
| OpeningRangeBreakout.OpeningRanges | strategies/opening_range_breakout.py:113-140 | For any history the single pass publishes after the window the range that its day had when it was first frozen, and NaN before; a window that reopens changes nothing |
| OpeningRangeBreakout.PublishedIsTheRange | strategies/opening_range_breakout.py:113-140 | Where no window reopens, that is the highest high and lowest low of the whole window of the day |
| OpeningRangeBreakout.ReopenedWindowIsIgnored | strategies/opening_range_breakout.py:131-136 | Once a range was published, every later bar of that day after the window gets the same one, even if the window reopened in between |
| OpeningRangeBreakout.RangeIsTheWindows | strategies/opening_range_breakout.py:99-140 | The published range bounds every bar of the day's window in the whole history, its ends are attained there, it is absent before the window closes, and afterwards only if no bar of it had a high |
| OpeningRangeBreakout.TimeOrderClosesWindows | strategies/opening_range_breakout.py:93-102 | Bars in time order never reopen a window that ends after the night hours, which is what the pass relies on |
| OpeningRangeBreakout.Precompute | strategies/opening_range_breakout.py:78-151 | The columns of the strategy for any history, with the ranges of the single pass |
| OpeningRangeBreakout.SignalsExactlyOnBreakouts | strategies/opening_range_breakout.py:171-205 | Inside the session, after the window and on volume, a bar buys if and only if its close is above every high of the window and the one before was not, and sells if and only if it is below every low likewise and does not buy |
| OpeningRangeBreakout.ExitsAre | strategies/opening_range_breakout.py:48-64 | A BUY carries a flatten time if and only if flattening is on, the set minutes before the close and never before midnight, and a hold limit if and only if it is not zero |
| OpeningRangeBreakout.LiveEqualsBacktest | strategies/opening_range_breakout.py:153-171 | For any history, reopened windows included, the live strategy on the bars so far says what the backtest says at that bar |
| Settings.NormalizeSymbol | trader/settings_store.py:52-61 | What is accepted has 1 to 15 letters, digits, dots or hyphens, the first a letter or digit, in upper case |
| Settings.NormalSymbols | trader/settings_store.py:52-61 | Such a symbol is left as it is |
| Settings.NormalizeSymbols | trader/settings_store.py:63-73 | The loop returns the first fault in order, or the normal symbols if there are at most ten |
| Settings.WatchlistsStay | trader/settings_store.py:63-73 | Normalising leaves exactly the lists of at most ten distinct normal symbols as they are |
| Settings.RankedIsSorted | trader/settings_store.py:98-98 | The history is sorted by usage count and then date, highest first |
| Settings.RankedIsStable | trader/settings_store.py:98-98 | Entries that rank the same keep their order |
| Settings.Decode | trader/settings_store.py:75-106 | The decoder checks schema, source and symbols in order, drops history items that do not decode, and keeps the hundred that rank highest |
| Settings.DecodedIsWellFormed | trader/settings_store.py:75-106 | Whatever a file holds, what is decoded from it has a known source, a normal watchlist, and a sorted history of at most 100 normal entries used at least once |
| Settings.EncodingIsLossless | trader/settings_store.py:134-134 | Decoding encoded settings is the identity if and only if they are well formed, so on everything ever decoded |
| Settings.KeysAreRead | trader/settings_store.py:75-106 | Key by key: what a readable file says is what its settings have, and a missing key takes the value of fresh settings |
| Settings.UISettingsStore.Load | trader/settings_store.py:114-128 | The file if it can be read, else the backup, else the defaults, with the warning that fits; a fault it does not catch escapes |
| Settings.UISettingsStore.Save | trader/settings_store.py:130-162 | Bad symbols are refused before anything is touched; otherwise the disk is as the save leaves it at whatever point it stops, and the settings are replaced only if it ran through |
| Settings.FinishedSaveIsLoaded | trader/settings_store.py:130-162 | From any disk, one without a file included: once its file is in place, load() returns what was saved, with its symbols normalised and nothing else changed, if and only if that is well formed; the file of before is the backup, and a save that stops earlier leaves the file as it was |
| Settings.CrashKeepsOldOrNew | trader/settings_store.py:130-162 | If the file decodes, then after a save of any settings stopped anywhere load() returns the old or the new ones, the new exactly once their file is in place and can be read, and never the defaults for want of a file |
| Settings.StoppedSavesKeepTheFile | trader/settings_store.py:130-162 | Any number of saves that all stop short leave load() returning the file's settings |
| Settings.SafeExactlyWhenReadable | trader/settings_store.py:136-138 | A save is safe if and only if the file itself can be read: settings recovered from the backup are lost if the next save stops after copying the bad file over it |
| Settings.RecoveredLayoutIsLost | trader/settings_store.py:136-138 | An unreadable file with good settings in its backup, and a save that stops after copying it: the settings were recovered, and are lost for the defaults |
| Settings.LoadRaisesExactly | trader/settings_store.py:114-128 | load() raises if and only if the file has a good schema and source and a watchlist in which a value that is not text comes before any other fault, or the file is refused and the backup is such a one |
| Settings.NumbersForSymbolsEscape | trader/settings_store.py:63-67 | Such a file: a number for a symbol; no backup is tried |
| Settings.UISettingsStore.UpdateHistory | trader/settings_store.py:164-175 | Bad symbols change nothing; otherwise the history becomes the ranked and capped one with the symbols used |
| Settings.UseCountsOnce | trader/settings_store.py:166-173 | Each symbol used counts once more and is dated now; the entries of all others are as they were |
| Settings.UsedHistoryKeepsTheTop | trader/settings_store.py:174-175 | The new history is sorted, and entries are left out only beyond the hundredth and only below all that are kept |
| OptionTickers.Parse | trader/sdk.py:3044-3076 | The parser with its scan for the letters of the symbol returns what the ticker says, or the error |
| OptionTickers.RoundTrip | trader/sdk.py:3043-3102 | Parsing a built ticker gives back what it was built from if and only if the symbol is letters only, the year is in 2000-2099, the right is one character in upper case, and the strike, taken as exact, is a whole number of thousandths (in floating point the multiplication by 1000 can fall short of one and lose it) |
| OptionTickers.TickersAreDistinct | trader/sdk.py:3079-3102 | Two such contracts with one ticker are the same contract |
| OptionTickers.TickerIs | trader/sdk.py:3045-3102 | AAPL, 20 March 2026, call at 250 is O:AAPL260320C00250000, both ways |
| Decimals.IntOfSigned | trader/sdk.py:3101-3102 | A number printed with leading zeros reads back as itself, whatever its sign and length |

## Left out

General:

- Rounding of floating-point numbers, overflow and the sign of zero; prices and quantities are exact.
- Time zones and exchange calendars: a bar carries its day and minute on the exchange's clock, a calendar is an
  ascending list of days, and timestamps count seconds on that clock.
- Letters outside ASCII in upper-casing, stripping and `isalpha`.
- The texts of messages and log lines; failures carry what they are about instead.
- `trader/trading/order_math.py`, the execution specification and the rest of the trader service: share counts for a
  notional and broker replies are whatever they may be.
- Network, RPC, vendor and database calls themselves: a transaction is one step, a reply is any reply.

Proposals and approvals:

- The shape of the execution specification; it is stored and compared as one value among the terms.
- `query` and its ordering.
- Sizing in base currency and contract multipliers: a quote yields some whole share count or none.
- Other callers of the status methods: approve and reject are the only ones in this repository, so other callers only
  add, annotate and delete.
- A success reply is taken to be true: the order is live then, under the ids given. No other reply says anything.

Resizing:

- How the plan finds the protective orders of a symbol (`compute_resize_plan`): a plan is taken to have one step an
  instrument, listing each of its orders once as it is at the broker, and positions as they are when it starts.
- Protective orders that fire during a run, and anyone else trading the same instruments or cancelling these orders; a
  market order moves its position towards the target and not beyond.
- Positions of other symbols of the same name, which the exit-class check falls back to when a position reads as zero.
- Contracts cached by symbol are taken to be those of the plan.
- ResizePlan.PlanMeetsItsBound: assumes that a position is worth its size times a price that is not negative, and a
  maximum that is not negative.

Ledger:

- The order of open lots, in the ledger and in a strategy's bucket, and the statement that selects the fills in time
  order.
- Quantities and prices of fills that are NaN or infinite, which a DOUBLE column can hold: a NaN quantity passes the
  code's `qty <= 0` and makes its lot NaN.
- Metadata text that is no JSON, which the code reads as no metadata.

Bar store and backfill:

- The path on which the mask raises and the frame is written unfiltered, and a quarantine that fails.
- Frames without price or volume columns in writes, and a store without a bar size of its own.
- A close that is text: the code's `notna()` keeps such a row, here it counts as missing.
- Findings about spacing and jumps in `trader/data/bar_quality.py`.
- The whole-range download when there is no calendar or the search for gaps raises.
- Backfill.BackfillKeepsGoodBars: assumes that the vendor answers within the days it was asked for and tags its bars,
  that the range asked about consists of whole days, and that no security is asked for twice.
- Backfill.AnyOrderGivesTheSameTable: compares tables as bags of rows, since the table has no order.

Ticks and strategies:

- TickBars.PublishedBarsNeverChange: periods of a fixed length only.
- Bars and frames are taken to come in time order where a lemma says so; the clock may be put back at night.
- The base class method that returns no live signal for the strategies without their own `on_prices`.
- OpeningRangeBreakout.SignalsExactlyOnBreakouts: assumes that no window reopens after it closed, as in time-ordered
  bars; for other histories the range is the one that was frozen first.
- A flatten time of 24:00 or later, which raises in the opening-range strategy.
- The names of strategies in signals, and columns of the state that no signal reads.

Settings and option tickers:

- JSON text: a file holds a JSON value or nothing readable, and writing a value and reading it back gives that value;
  infinite and NaN numbers do not occur in it.
- Whole numbers written with underscores or with digits outside ASCII, which `int()` accepts and the decoder here
  refuses.
- How `str()` prints values that are not text, and the order of keys in a JSON object: any function may do it.
- Settings.UISettingsStore.Save: takes the settings by value; in place, the caller's object has its symbols normalised
  even when the save stops later.
- File permissions, and losing a backup that was written but not yet on the disk.
- `suggestions`, which only filters the history.
- OptionTickers.Parse: a strike in another notation that `float()` accepts than a sign and digits is an error here.
- Text that `strptime` refuses as a date; an expiration is a date already.
