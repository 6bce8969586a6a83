# Trading engine: a verified model

This project models the parts of the trading engine whose correctness is hard to see by reading one
function, and proves properties of them with Dafny.

- **The live order protocol** (`TradeProtocol`, `TradeSafety`, `TradeTheorems`, `TradeEntries`, `TradeExits`). `_execute_live`,
  `create_bracket`, `close`, `resolve_pending_closes` and `reconcile_brackets` as a transition system with one
  step per `await`, interleaved in any order with each other and with a broker that may fill, reject, cancel and
  trigger the resting OCO whenever it likes. Requests may be lost before or after they take effect.
- **The same code call by call** (`Broker`, `PositionBook`, `Settlement`, `Executor`). Classes over the mock broker's
  lifecycle, the book and the executor, in which any broker call may fail.
- **Stateful engines against a simple specification**: the ratcheting guard and its index (`Guards`), the durable
  command table with crashes (`Commands`), the candle aggregator (`Aggregator`), the structure registry, its exits and
  its cold-start rebuild (`StructureRegistry`, `StructureExits`), the token bucket (`TokenBuckets`), the order-count
  guard (`OrderGuard`) and the sliding-window limiter (`CallLimiter`).
- **Arithmetic and combinatorics**: defined-risk payoffs through sizing and `decide()` (`Payoffs`,
  `StructureChoice`, `RiskPipeline`, `RiskViews`), risk as filled (`FillRisk`), depth-walk fills (`DepthWalk`, `Money`), max pain
  (`MaxPain`), combinatorial and purged cross-validation (`Combinations`, `Folds`, `Cpcv`, `PurgedCv`).

Prices are reals and quantities unbounded integers. The broker, the clock, prices and quotes are parameters.

## What the proofs found

Where a claim does not hold of the code as it stands, the model keeps the code, gives a run or an input on which
the claim fails, and proves exactly when it holds.

- *One exit per position.* An exit that is sent can over-exit its position if and only if there was no room for it:
  another exit or the bracket may still fill, or the OCO is still to be placed (`TradeExits.SendOverExitsIff`, for every
  reachable state and under no assumption; `TradeExits.GuardedNeverOverExits` is the run that always leaves room).
  `close` does not look at that, so as code it relies on six conditions: one close in flight, no close before the entry
  is done with its OCO, bracket cancellation that leaves nothing resting, a net-quantity query that answers, a triggered
  leg that has filled or died before the query, and no other position on the instrument. Dropping any one of them, and
  keeping the others, lets a run exit twice (`TradeTheorems.ExactlyTheRules`). The second fails inside the engine itself:
  `create_bracket` arms the guard before it places the OCO, so a tick in between can exit a position whose bracket is
  still to come. The fourth fails when the query errors, because `close` then goes on to the market exit. The sixth can
  be told from the book (`TradeTheorems.OnePositionNoDoubleExit`, `TradeTheorems.BookSaysOneIsRight`).
- *Book and broker balance* per instrument, up to what is parked, unbooked or exiting, if and only if what closed
  positions were exited beyond their quantity cancels out - in every reachable state, under no assumption
  (`TradeTheorems.Conservation`). They balance in every state of every run if and only if the same six conditions hold
  (`TradeTheorems.ExactlyTheRules`).
- *What nothing undoes.* An OCO whose deletion failed has its row retired all the same, so nothing retries it and it
  rests until it fires (`TradeTheorems.StrandedUntilFired`); so does an OCO whose answer was lost when it was placed
  (`TradeEntries.LostOcoRests`). A position parked because the broker was already flat has no exit order to ask about
  and is never resolved (`TradeTheorems.ParkedForever`). A parked position can still be closed, by some run, if and only
  if its exit order is known and neither rejected nor cancelled (`TradeEntries.ParkedClosesIff`).
- *An entry has to be reconciled* if and only if a placement or a poll of it went unanswered, or the last poll after its
  cancel did not find the clip over (`TradeEntries.ReconcileIff`); answered throughout, it sends every clip as long as
  each is seen COMPLETE, and ends with all of the request booked (`TradeEntries.WholeEntry`). New entries are blocked if
  and only if some entry ended unsafely, and then for good (`TradeEntries.BlockedIff`, `TradeEntries.BlockedForGood`).
- *Every broker fill is booked* when an entry returns without blocking new ones, if and only if no fill arrives after
  a clip's last poll: `_cancel_and_confirm` confirms a dead order without reading its fill again
  (`TradeTheorems.ExactlyFrozen`). The scripted mock broker never does that.
- *The recorded worst case of an accepted F&O structure is the true one* if and only if the 0.85-1.15 scan of spot
  reaches the losing strike (`RiskPipeline.RecordedWorstIsTrueIff`). With the default steps of 50 points, a credit
  spread on an underlying at 1000 has its wing outside the scan and loses 85 against a budget of 35
  (`RiskPipeline.ScanFallsShort`). A decision keeps within a budget at every settlement if and only if the worst its
  strikes and premium allow, times its lots, does (`RiskPipeline.BudgetHeldIff`).
- *Fill-based risk encloses every settlement* if and only if a credit structure was filled for a credit, or a debit
  one for a debit (`FillRisk.FillRiskEnclosesIff`). A credit spread filled for a small debit records that debit as its
  whole risk and passes the overrun gate (`FillRisk.CreditFilledForDebit`). What that gate keeps loses no more than the
  allowed overrun if and only if its family pays to open it or its wider side, less what was received, fits
  (`FillRisk.KeptLossBoundedIff`). A condor whose put side is wider than its
  call side is measured by the call side alone (`FillRisk.CondorEnclosesIff`, `FillRisk.LopsidedCondor`).
- *The order-count guard's minute cap* holds on every run if and only if the day is never rolled within a minute of an
  order: the roll at midnight empties the list of recent orders (`OrderGuard.BoundIffCalm`,
  `OrderGuard.MidnightForgets`).
- *No size bought and sold back gains per unit* if and only if the price past the bids, slipped, stays under the best
  ask, slipped - always, while slippage takes no more than the whole price (`DepthWalk.NoRoundTripProfit`).
- *A command is claimed at most five times* unless it brings the engine down: recovery is not an attempt, so it is then
  claimed and recovered without end (`Commands.CrashLoop`); on every run claims exceed attempts by the recoveries and a
  claim that stands or succeeded (`Commands.Accounting`).
- *The token indexes stay exact* if and only if an id that is registered again keeps its token, for guards, or all of
  its tokens, for structures (`Guards.GuardManager.Arm`, `StructureRegistry.StructureManager.Register`).

## Model

| member | source | states |
|---|---|---|
| TradeTheorems.EntryEndsProtectedOrBlocked | execution/executor.py:197-259 | on every run, a returned entry either has an unsafe outcome and new entries are blocked, or leaves nothing pending at the broker, has booked the sum of its observed fills and armed a guard over them; clips go out in order, each after a COMPLETE one |
| TradeTheorems.NoDoubleExit | execution/executor.py:311-351 | under the six conditions no interleaving exits more than was entered or sends a second market exit |
| TradeTheorems.ExactlyTheRules | execution/executor.py:293-420 | exits stay bounded on every run if and only if all six conditions hold, and so does the balance of book and broker |
| TradeTheorems.WithoutAfterEntry | execution/brackets.py:23-78 | a close between arming the guard and placing the OCO leads to selling twice |
| TradeTheorems.WithoutAnswers | execution/executor.py:327-338 | when the net-quantity query fails, a position its bracket already closed is exited again |
| TradeTheorems.WithoutSettled | execution/executor.py:388-401 | a triggered leg that has not filled is invisible to the query, and both sell |
| TradeTheorems.WithoutCancels | execution/executor.py:293-309 | a bracket whose deletion failed can still sell after the market exit |
| TradeTheorems.WithoutSerial | execution/executor.py:318-320 | two closes that both read an open row both send an exit |
| TradeTheorems.WithoutAlone | execution/executor.py:388-401 | another position on the instrument hides that this one is already flat |
| TradeTheorems.Conservation | execution/executor.py:173-259 | per instrument, in every reachable state and under any conditions, broker net = open book quantity + unexited remainder of parked positions + unbooked entry fills - exits in flight - what closed positions were exited beyond their quantity; without the last sum it holds exactly when that sum is zero; with fills frozen, only RECONCILE_REQUIRED entries leave unbooked fills |
| TradeTheorems.RulesBalance | execution/executor.py:293-420 | under the six conditions that last sum is zero in every reachable state |
| TradeTheorems.ReconcileSilentIff | execution/position_book.py:243-262 | in every reachable state with no exit executing, book and broker agree on an instrument exactly when the parked remainder, the unbooked fills and what closed positions were exited beyond their quantity cancel |
| TradeTheorems.OneAtQueriesIsAlone | execution/executor.py:388-401 | a run that only ever asks about the one unfinished, fully booked position of an instrument is told the quantity of that position alone |
| TradeTheorems.OnePositionNoDoubleExit | execution/executor.py:311-351 | five conditions, and one unfinished, fully booked position on the instrument at every query of the run, bound its exits |
| TradeTheorems.BookSaysOneIsRight | execution/executor.py:388-401 | with fills frozen, the book tells when that is so: every entry on the instrument done and dealt with, every other position closed or never opened |
| TradeExits.GuardedNeverOverExits | execution/executor.py:311-386 | with no assumption on the broker or on concurrency, a run that sends exits only where there is room never exits more than was entered |
| TradeExits.SendOverExitsIff | execution/executor.py:364-386 | in every reachable state and under any conditions, what is out once an exit has been sent can over-exit the position if and only if there was no room for it |
| TradeExits.RoomForBooked | execution/executor.py:293-309 | a fully booked position has room exactly when every exit sent before died unfilled, no OCO is still to be placed, and the bracket is gone or its leg died unfilled |
| TradeExits.RulesLeaveRoom | execution/executor.py:311-351 | the six conditions leave room wherever an exit is sent |
| TradeTheorems.FailedDeletionStrands | execution/executor.py:403-420 | a failed deletion leaves the OCO resting with its row retired and no close left to delete it |
| TradeTheorems.StrandedUntilFired | execution/executor.py:403-420 | on every run such an OCO rests until it fires: nothing retries the deletion |
| TradeTheorems.ParkedForever | execution/executor.py:461-472 | on every run a position parked without an exit order stays parked |
| TradeTheorems.CancelWindow | execution/executor.py:261-277 | a fill between the last poll and the cancel is confirmed away and never booked |
| TradeTheorems.ExactlyFrozen | execution/executor.py:214-226 | returned entries that do not block new ones have booked every broker fill, on every run, if and only if fills stop at the last poll |
| TradeEntries.WholeEntry | execution/executor.py:197-216 | on every run, an entry whose placements and polls are all answered and whose clips were all seen COMPLETE has sent every clip and booked all that was asked for, and is PROTECTED exactly if a guard is armed over it |
| TradeEntries.AllClipsSent | execution/executor.py:197-226 | in every reachable state an entry that is dealt with and past its clips either has booked all that was asked for or stopped at a clip it did not see COMPLETE |
| TradeEntries.ReconcileIff | execution/executor.py:199-226 | on every run an entry ends RECONCILE_REQUIRED if and only if some placement or poll went unanswered, or the last poll after its cancel did not find the clip over |
| TradeEntries.BlockedIff | execution/executor.py:248-249 | in every reachable state new entries are blocked if and only if some entry ended unsafely |
| TradeEntries.BlockedForGood | execution/executor.py:137-140 | once blocked, no run starts another entry or lifts the block |
| TradeEntries.EntryIsShort | execution/executor.py:156-259 | on every run an entry of n clips takes at most 13 n + 13 steps |
| TradeEntries.EntryCanMove | execution/executor.py:173-259 | in every reachable state an entry that has not ended has a step to take |
| TradeEntries.CloseAdvances | execution/executor.py:311-386 | each step of a close brings it nearer to its end, sixteen steps at most, and no other step moves it |
| TradeEntries.CloseCanMove | execution/executor.py:311-386 | in every reachable state a close that has not returned has a step to take, and one that has leaves its position closed or parked |
| TradeEntries.ParkedClosesIff | execution/executor.py:461-489 | in every reachable state a parked position with no close running can be closed by some run if and only if its exit order is known and neither rejected nor cancelled |
| TradeEntries.ExitPollLeads | execution/executor.py:364-386 | a poll of an exit parks the position without an order exactly when it fails, books exactly a COMPLETE of the whole quantity, and parks any other end with the order's id |
| TradeEntries.OutlastedIsParkedWithId | execution/executor.py:364-386 | an exit whose order outlasts its polls is parked so that it can still be resolved |
| TradeEntries.LostOcoRests | execution/brackets.py:23-78 | on every run an OCO that was placed but whose answer was lost is never removed and rests until it fires |
| TradeSafety.StepKeeps | execution/executor.py:156-259 | every step of every task and of the broker keeps the invariant of all trades and the blocking flag |
| TradeSafety.RunKeeps | execution/executor.py:293-503 | the invariant holds along every run obeying any subset of the rules |
| Executor.SliceCovers | execution/executor.py:79-86 | clips add up to the request, are positive, stay within the freeze limit and all but the last come to it |
| Executor.Executor.PollOrder | execution/executor.py:156-171 | an answer comes back exactly when every poll is answered; it holds the fill of the order, and its status exactly when that is terminal; a timeout means every poll was spent |
| Executor.Executor.ConfirmDead | execution/executor.py:268-277 | confirmed exactly when the last of at most eight polls is answered and finds the order terminal; an order whose fill is final is confirmed if and only if it is dead and one of eight polls is answered |
| Executor.Executor.CancelAndConfirm | execution/executor.py:261-277 | confirmation means the order is dead; after two polls it never changes the fill; for an order whose fill is final it is dead unless it was working and the cancel was lost, and confirmed exactly if it is dead and one of eight polls is answered |
| Executor.Executor.WorkClip | execution/executor.py:199-226 | one order at most; with every call up to the last poll answered the clip's fill is counted and the next clip asked for exactly on COMPLETE, and the remainder is dealt with exactly if there is none, the order was cleanly rejected, or it is over and one of eight polls after the cancel is answered; with a call unanswered nothing is counted and nothing dealt with |
| Executor.Executor.WorkClips | execution/executor.py:197-226 | orders match the clips in order, all but the last COMPLETE; stopping short with every order COMPLETE means a remainder not dealt with; with every call answered it is dealt with and every fill counted |
| Executor.Executor.CreateBracket | execution/brackets.py:23-78 | the guard is armed with the decision's levels whatever becomes of the OCO; the OCO rests, sized to the fill, unless the request was lost, and the position and a bracket row name it exactly when the answer arrived |
| Executor.Executor.BookFill | execution/executor.py:229-243 | a fill becomes exactly one open position of that quantity, with its guard and, where the OCO was placed and answered, its bracket row, and no other guard or bracket is touched |
| Executor.Executor.ExecuteLive | execution/executor.py:173-259 | whichever requests fail: refused without an order, or protected and exactly booked, or new entries blocked; with every call of the clip loop answered it never needs reconciling, and if also every order is COMPLETE all clips were sent, the whole quantity is booked, the outcome is PROTECTED where a guard is configured, and the flag is as before; the OCO rests for that fill where both levels are set and the request arrived |
| Executor.Executor.Conclude | execution/order_lifecycle.py:24-40 | an unsafe outcome blocks new entries, and only an unsafe one |
| OrderPolicy.Outcome | execution/order_lifecycle.py:24-40 | reconcile exactly if the remainder is not dealt with; protected exactly if it is and a fill is bracketed; a clean no-fill exactly if it is and nothing filled; unsafe exactly if the remainder is in doubt or a fill is bare |
| Executor.DealtMeansHandled | execution/executor.py:218-226 | a dealt-with remainder leaves no order pending and every fill counted |
| Executor.EntryConserves | execution/executor.py:197-259 | an entry widens the gap between broker and book by exactly its unbooked fills, by none unless it needs reconciliation |
| Executor.Executor.MarketExit | execution/executor.py:103-129 | one order, of the opposite side and whole quantity, unless the request was lost, polled twelve times at most; full exactly when every call is answered and the order is COMPLETE |
| Executor.Executor.DoLiveExit | execution/executor.py:364-386 | closed exactly when every call is answered and the exit order is COMPLETE, else parked, with the order's id exactly when every call was answered |
| Executor.Executor.CancelBracket | execution/executor.py:293-309 | exactly the bracket rows of the position are retired, and its OCO is gone unless the request to delete it was lost |
| Executor.Executor.ExitUnlessFlat | execution/executor.py:327-338 | a position the broker reports flat is parked with no order; any other sends one exit, and is closed exactly on an answered COMPLETE, parked with the order's id on any other answered end and without one when a call was not answered |
| Executor.Executor.Close | execution/executor.py:311-351 | a row that is not open is left alone; otherwise its brackets are retired, the deletion of its OCO is asked for, its guard is disarmed, and its exit goes as the broker's net quantity and the answers have it: closed exactly on an answered COMPLETE |
| Executor.ExitConserves | execution/executor.py:364-386 | a booked close keeps the gap between broker and book, a parked one widens it by the unexited quantity |
| Executor.Executor.ResolveOne | execution/executor.py:461-489 | a parked position closes exactly when its exit order is known, COMPLETE, and the poll is answered |
| Executor.Executor.ResolvePendingCloses | execution/executor.py:461-489 | every parked position is resolved in order, closed only on an answered COMPLETE and always on one that is its own; the count is that of the positions closed |
| Settlement.ParkedIsResolved | execution/executor.py:461-489 | a parked position whose exit order no other waits for is closed if and only if that order is known, COMPLETE, and its poll was answered |
| Executor.Executor.ReconcileBrackets | execution/executor.py:403-420 | exactly the brackets of positions no longer open are retired and counted, and an OCO is gone exactly when it was one of theirs and the request to delete it arrived |
| Broker.MockKeepsContract | broker/mock_broker.py:118-161 | the scripted order never over-fills, is final once terminal, and its fill is fixed after two polls |
| Broker.ScriptPlays | broker/mock_broker.py:118-138 | what a fresh order shows after any number of polls, for each of the five scripts |
| Broker.MockOrder.Advance | broker/mock_broker.py:118-138 | the order takes the next step of its script and its last history row is its state |
| Broker.MockOrder.Cancel | broker/mock_broker.py:156-161 | a live order becomes cancelled with its fill kept; a terminal one is unchanged |
| Broker.NetAppend | broker/mock_broker.py:109-116 | the net quantity of two lists of orders is the sum of theirs |
| Broker.NetUpdate | broker/mock_broker.py:109-116 | a change of one order moves the net quantity by its signed change of fill |
| Broker.Gateway.Place | broker/mock_broker.py:140-146 | an order appears unless the request was lost, and its id is known only if the answer arrived |
| Broker.Gateway.History | broker/mock_broker.py:148-151 | a history call advances its order even when the answer is lost; an answer ends in the order's present state |
| Broker.Gateway.NetQuantity | broker/mock_broker.py:109-116 | an answer is the signed sum of all fills on the instrument |
| PositionBook.PositionBook.ClosePosition | execution/position_book.py:157-180 | an open or parked row is closed, a closed one is left and reported |
| PositionBook.PositionBook.PendingCloses | execution/position_book.py:232-234 | the parked positions, in order, whether or not their exit order is known |
| PositionBook.ParkedIdsAre | execution/position_book.py:232-234 | only parked positions are listed, in increasing order |
| PositionBook.ParkedIsListed | execution/position_book.py:232-234 | every parked position is listed |
| PositionBook.PositionBook.Reconcile | execution/position_book.py:243-262 | an instrument is reported if and only if the open book and the broker rows disagree, with both quantities |
| PositionBook.OpenQtyUpdate | execution/position_book.py:243-262 | replacing one row moves the open quantity by the difference of the two rows |
| PositionBook.BookRowsAgree | execution/position_book.py:243-262 | a broker that reports one row for each open position comes to the book's quantity on every instrument |
| PositionBook.RowQtyAppend | execution/position_book.py:243-262 | broker rows add up per instrument, in any split |
| Guards.Guard.Check | execution/guards.py:34-76 | one check yields the specified levels and never loosens the stop; it signals Time exactly once square-off has come, with nothing moved, else Stop exactly if the price gains no more than the stop now does, else Target exactly if one is set and the price gains at least as much |
| Guards.PriceIsFollowed | execution/guards.py:42-55 | the peak covers every price so far, a trailed stop is within its trail of the peak and no tighter than that asks, no stop is loosened, and an R once set stays |
| Guards.ProfitIsKept | execution/guards.py:56-64 | once earned, breakeven keeps the entry and the lock keeps its share of the best gain; the stop moves for nothing else and never back |
| Guards.Guard.Modify | engine/main.py:614-636 | a level on the wrong side of the entry is refused, any other taken |
| Guards.ClosedForm | execution/guards.py:34-76 | for every guard, armed with its R or without, the stop after any prices is a one-shot function of the initial stop, the peak, the best gain and R |
| Guards.RiskFromFirstStop | execution/guards.py:51-58 | a guard armed without its R behaves as one armed with the distance to the stop of its first check, and stays without where that is zero |
| Guards.RatchetKeepsFloor | execution/guards.py:42-64 | for longs and shorts the stop after any prices keeps a gain that is the most of what the initial stop, the trail off the peak, breakeven from its number of R and the lock from its share of the target distance each keep |
| Guards.BestCovers | execution/guards.py:42-50 | peak and best gain cover every price seen and the guard's memory, and are one of them |
| Guards.SignalAt | execution/guards.py:34-76 | the check of the k-th price signals Time exactly once square-off has come, else Stop exactly if the gain is at or below that floor, else Target exactly at or beyond the target |
| Guards.FirstSignalIs | execution/guards.py:34-76 | over any prices the first check to signal is the first to meet square-off, the floor or the target, none earlier does, and it stops out exactly at the floor before square-off |
| Guards.NewPeakSurvives | execution/guards.py:34-76 | a tick making a new strict peak never stops out |
| Guards.ModifyRestored | engine/main.py:614-636 | after any operator change, before the first check or later, the next check restores every level the peak has earned |
| Guards.Reflection | execution/guards.py:34-76 | a short is the price reflection of a long, levels and signals alike |
| Guards.GuardManager.Arm | execution/guards.py:84-86 | the index stays exact if and only if re-arming keeps the token |
| Guards.GuardManager.Disarm | execution/guards.py:88-93 | the guard is gone and the index stays exact |
| Guards.GuardManager.ForToken | execution/guards.py:99-100 | exactly the armed positions of the token |
| Guards.GuardManager.OnPrice | execution/executor.py:422-439 | a signal, exactly that of the guard's check, disarms before anything is awaited, so closes never outnumber armings; no other guard moves |
| Commands.OldestPicks | common/commands.py:53-69 | a claim takes pending rows only, in creation order |
| Commands.OldestFirst | common/commands.py:53-69 | a pending row is left out only for a full batch of older ones |
| Commands.CommandTable.Enqueue | common/commands.py:35-51 | a known key adds no row and returns the existing id |
| Commands.CommandTable.ClaimOldest | common/commands.py:53-69 | exactly the oldest pending rows are claimed |
| Commands.FifthFailureIsLast | common/commands.py:75-83 | a command can be claimed again after each of four failures, and the fifth dead-letters it |
| Commands.RecoveryFrees | common/commands.py:85-91 | recovery resets exactly the claimed and executing commands to be claimed again with their attempts as they were, leaves all else as it was, and recovering again changes nothing |
| Commands.CommandTable.Drain | engine/main.py:594-643 | one turn claims the oldest batch and runs each command of it |
| Commands.RunAllOnce | engine/main.py:594-643 | each command of a batch runs once, no other row moves |
| Commands.Accounting | common/commands.py:24-91 | on every run with crashes: claims = attempts + recoveries + one if claimed or succeeded; dead letters have used five attempts, all others fewer; keys stay unique |
| Commands.StepsFollowNextState | common/commands.py:24-33 | every table update is what `next_state` says or the boot-time reset, and finished commands never move |
| Commands.CrashFreeEnds | engine/main.py:594-643 | crash-free processing is finite and stops only when every command is finished |
| Commands.CrashLoop | engine/main.py:864-870 | a command can be claimed and recovered any number of times with no attempt recorded |
| Aggregator.CandleAggregator.AddTick | data/aggregator.py:67-101 | a tick passes through every interval's cell, and the candles it closed are returned in order |
| Aggregator.CandleAggregator.Flush | data/aggregator.py:103-107 | every building candle is returned once and the state is empty |
| Aggregator.AddedOnKey | data/aggregator.py:67-101 | a tick changes only the cells of its own instrument, each as one step, whatever intervals are listed |
| Aggregator.EmittedThenFlushed | data/aggregator.py:67-107 | emitted then flushed candles of a key depend on that key's own ticks alone |
| Aggregator.BucketIsFloor | data/aggregator.py:23-28 | a bucket starts at the last multiple of its width since midnight |
| Aggregator.BucketSpans | data/aggregator.py:23-28 | a tick lies in the one, three, five or fifteen minutes, or the day, from the start of its bucket, and buckets start at whole multiples of that |
| Aggregator.SummaryExtremes | data/aggregator.py:89-97 | the high is a tick's price that none exceeds, the low one that none is below, and volume counts from the least cumulative volume read |
| Aggregator.LastOiIs | data/aggregator.py:98-99 | a candle's open interest is the last one any of its ticks reported |
| Aggregator.BucketsNest | data/aggregator.py:20-28 | buckets of a dividing width nest in the wider ones |
| Aggregator.OutputIsGroupBy | data/aggregator.py:67-107 | for any mix of ticks, candles are first/max/min/last per group, groups lose no tick and strictly increase in time, and in a time-ordered stream each is one bucket |
| Aggregator.WideIsMergedNarrow | data/aggregator.py:67-107 | a wide interval's OHLC is the merge of the narrow candles of the same stream |
| Aggregator.FifteenFromNarrower | data/aggregator.py:20-28 | the 1m, 3m and 5m widths all divide 15m, and every width divides the day |
| Aggregator.DayVolume | data/aggregator.py:92-98 | with a cumulative volume that never falls, day volume = candle volumes + jumps between buckets |
| Payoffs.NetPremium | fno_backtest/instruments.py:56-63 | the loop's premium is the signed sum over option legs |
| Payoffs.PayoffLessPremium | fno_backtest/instruments.py:38-63 | an options-only structure settles at its intrinsic value less the premium |
| Payoffs.PayoffScales | fno_signals/pipeline.py:55-59 | scaling by lots scales the payoff at every spot |
| Payoffs.ScanExactIff | fno_backtest/instruments.py:65-77 | the 600-point scan finds the minimum over every spot if and only if it reaches the outer strike of the wider wing |
| StructureChoice.NearestMonotone | fno_signals/structures.py:16-21 | a farther target never selects a nearer strike, even across lists ordered differently |
| StructureChoice.ArgNearestIsFirstLeast | fno_signals/structures.py:16-21 | the selected strike is nearest, and the first of the nearest in chain order |
| StructureChoice.PickFailsOnlyWhenEmpty | fno_signals/structures.py:24-48 | a strike and price are found unless the option type is absent |
| StructureChoice.FirstQuotePrices | fno_signals/structures.py:23-26 | of several quotes for one strike the first names its price |
| StructureChoice.StrikesAppend | fno_signals/structures.py:15-20 | strikes keep the order of the chain, which decides ties |
| StructureChoice.PayoffIsTent | fno_backtest/instruments.py:38-54 | every family's payoff is a flat top less two clamped wings, times the quantity |
| StructureChoice.SelectedIsAimed | fno_signals/structures.py:29-89 | every leg is a quote of the chain, of its family's type and side, and none of that type is nearer the target its family aims it at |
| StructureChoice.SelectedIsOrdered | fno_signals/structures.py:29-89 | selected structures have their family's legs with wings in order; the condor by monotone selection over equal strike lists |
| StructureChoice.SelectFailsIff | fno_signals/structures.py:29-89 | nothing is selected if and only if a quote type the family needs is missing or a vertical's two strikes do not come out in order |
| StructureChoice.CollapseIsOneStrike | fno_signals/structures.py:16-21 | with widths not pointing inwards, they do not exactly when one strike is nearest to both targets |
| StructureChoice.ScanExact | fno_signals/structures.py:92-95 | for a selected structure the scan is exact if and only if 0.85-1.15 of spot reaches the losing strike |
| RiskPipeline.EffectiveRBounded | fno_signals/sizing.py:21-23 | confidence shrinks the budget in proportion, from nothing to all of the per-trade share of capital, and never inflates it |
| RiskPipeline.SizeMultiplierRamps | ml/models.py:59-70 | nothing below the veto, all from the neutral mark on, and the part of the way between them |
| RiskPipeline.PortfolioLeft | fno_signals/risk.py:29-31 | what is open and what is left make up the portfolio's share of capital, and nothing is left once that is used up |
| RiskPipeline.LotsAreMost | fno_signals/sizing.py:26-35 | the lots taken are the largest number whose worst case fits the cap, the effective R and the remaining R |
| RiskPipeline.AcceptedInBudget | fno_signals/pipeline.py:62-126 | every accepted decision is well built and records a worst case within effective R and remaining R |
| RiskPipeline.DecisionsAreExplained | fno_signals/pipeline.py:62-126 | a trade is refused for a reason if and only if that reason holds, said of the market and the portfolio alone, and none before it does; it is accepted if and only if none holds |
| RiskPipeline.RecordedWorstIsTrueIff | fno_signals/pipeline.py:93-107 | the recorded worst case covers every settlement if and only if the scan reaches the losing strike, and is always attained |
| RiskPipeline.BudgetHeldIff | fno_signals/pipeline.py:93-107 | no settlement loses more than a given budget if and only if the worst of the structure's payoff, from its strikes and premium, times units and lots, stays within it |
| RiskPipeline.SettlementInBudget | fno_signals/pipeline.py:62-126 | with strikes within 0.85-1.15 of spot, no settlement anywhere loses more than effective R or remaining R |
| RiskPipeline.TradeShareOfCapital | fno_signals/sizing.py:21-35 | whatever the confidence, a trade records no more than its share of capital |
| RiskViews.PayoffFollowsView | fno_signals/regime.py:19-41 | an accepted structure for a bullish view never pays less at a higher settlement, for a bearish one never more, and for a neutral one pays its most between its short strikes |
| RiskViews.PremiumFollowsRegime | fno_signals/regime.py:10-41 | on a chain whose prices are ordered by strike, an accepted structure takes premium in if and only if the view is neutral or the IV rank is above 60 |
| RiskViews.AcceptedFamily | fno_signals/regime.py:10-41 | an accepted family is bullish, bearish or the condor as the view is, and a credit family if and only if the view is neutral or the IV rank is above 60 |
| RiskViews.SelectedInSteps | fno_signals/structures.py:28-89 | every leg of what a decision selects is the quote nearest to where its family aims it, in widths and wings of whole steps from the call strike nearest to spot |
| RiskViews.LimitsHold | fno_signals/pipeline.py:104-116 | an accepted decision and what is open risk no more than the portfolio's share of capital; it is never taken at the day's loss limit or with the book full, nor if a scenario loses more than the buffered worst case |
| RiskViews.GridRefuses | fno_signals/pipeline.py:109-116 | a sizing the scenario grid refuses is one that some scenario takes below the buffered worst case of its lots |
| RiskViews.SizedFromConfidence | fno_signals/pipeline.py:75-100 | the R an accepted decision was sized from is that of its confidence, shrunk; the confidence is the meta-model's where there is one |
| RiskViews.ConfidenceShrinks | fno_signals/pipeline.py:75-100 | a confidence counts for nothing below the veto, in full from the neutral mark on, and between them for the part of the way it has come |
| RiskPipeline.ScanFallsShort | fno_signals/structures.py:92-95 | an accepted credit spread with a far wing loses 85 within a budget of 35 |
| FillRisk.ExpiryRange | execution/structures.py:96-103 | the settlements of a filled structure range over exactly one interval, both ends attained |
| FillRisk.FillRiskEnclosesIff | execution/structures.py:32-42 | every settlement lies within [-max loss, max profit] if and only if the fill had its family's sign, up to the paisa floors |
| FillRisk.CondorEnclosesIff | execution/structures.py:24-42 | a condor is enclosed if and only if its wider side is covered by its call side, filled for a credit, or by the one-paisa floor |
| FillRisk.LopsidedCondor | execution/structures.py:24-42 | a condor with calls 50 apart and puts 100 apart records a risk of 2250 and loses 6000 |
| FillRisk.FillRiskIsTight | execution/structures.py:32-42 | above the floors both bounds are attained |
| FillRisk.KeptLossBoundedIff | execution/structures.py:155-168 | what the gate keeps, of any shape and filled at any prices, loses at most the overrun of its modelled loss if and only if its family pays to open it or its wider side less the net received fits that overrun |
| FillRisk.CreditFilledForDebit | execution/structures.py:155-168 | a credit spread filled for a debit is kept at a recorded risk of 75 and loses 3825 |
| StructureRegistry.StructureManager.Register | execution/structures.py:111-114 | the index stays exact if and only if re-registering keeps every token |
| StructureRegistry.StructureManager.Unregister | execution/structures.py:116-122 | the structure is gone and the index stays exact |
| StructureRegistry.StructureManager.ForToken | execution/structures.py:124-125 | exactly the structures with a leg in the token |
| StructureRegistry.Desk.OpenStructure | execution/structures.py:131-199 | a structure is registered, leg for leg as quoted, if and only if every leg is quoted and the filled risk is within the overrun; otherwise nothing of it stays open; the rows there were before are as they were |
| StructureRegistry.CheckBook | execution/structures.py:217-244 | true exactly when every leg's book is two-sided and within the allowed spread and crossing them all loses no more than the cap on the defined loss; then with the rounded crossing price of each token |
| StructureRegistry.Desk.CloseStructure | execution/structures.py:202-276 | closes exactly the rows of its legs and forgets the guard exactly when forced, unchecked, quoted sanely or out of retries, and returns the P&L booked at the crossing prices or the marks; otherwise postpones with nothing changed but the retry count |
| StructureRegistry.CheckedExitIsCapped | execution/structures.py:217-266 | a checked exit realises no less than minus the cap on the defined loss, up to fees and half a paisa a unit, where legs have their own tokens and no crossing price rounds to zero |
| StructureExits.ExitIsAtOrBeyondTouch | execution/structures.py:235-235 | with slippage between nothing and the whole price a long gets no more than the bid and a short pays no less than the ask, exactly those without slippage, and worse by its share of them with it |
| StructureExits.MoreSlipNeverHelps | execution/structures.py:235-235 | more slippage gets a long less and costs a short more |
| StructureExits.CheckedCrossesForLess | execution/structures.py:217-244 | a checked exit crosses for no more than the structure is worth at the middle of its books, which then is within the cap on the defined loss |
| StructureExits.SaneBookIff | execution/structures.py:226-242 | a book is sane if and only if every leg is two-sided with its touch no further apart than the allowed percentage of its middle and the crossing costs no more than 1.15 times, or the configured multiple of, the defined loss |
| StructureExits.WaitsForRetries | execution/structures.py:246-251 | an unforced exit over a bad book waits as often as it is allowed to and then goes ahead |
| StructureExits.PnlFromEntry | execution/structures.py:76-83 | a leg makes nothing at its entry, a long gains what its price rises for each unit, and a short what it falls |
| StructureExits.BookedIsPnlLessFees | execution/position_book.py:157-180 | what is booked for a leg is its P&L at the price it closed at less the fees of both trades, to half a paisa |
| StructureExits.ClosesAtFirstPrice | execution/executor.py:341-341 | a leg closes at the price asked for, else a live quote, else its mark, else its entry |
| StructureExits.UncheckedClosesAtMarks | execution/structures.py:216-266 | an exit that was not checked closes a marked leg at its mark |
| StructureExits.GuardBoundsItsLegs | execution/structures.py:153-180 | the guard of a vertical or symmetric condor filled as its family has it, a credit one for a credit and a debit one for a debit, names the most its own legs can lose and make at any settlement |
| StructureExits.KeptWithinOverrun | execution/structures.py:155-180 | a fully quoted order is kept unless it was filled for more risk than was modelled and its overrun; the defaults are a quarter of overrun and half of target and stop |
| StructureExits.VerdictIff | execution/structures.py:85-93 | a fully priced structure books from its share of the maximum profit on, else cuts from its share of the maximum loss on, else holds |
| StructureExits.BetterMarksBetterVerdict | execution/structures.py:76-93 | better marks never turn a hold into a cut or a booking into either |
| StructureRegistry.RegroupingRestores | execution/structures.py:291-314 | regrouping live rows in any order finds exactly the registered structures, each as it was persisted |
| StructureRegistry.Desk.RebuildStructures | execution/structures.py:279-319 | a cold start restores the same registry, guard for guard, and the same token index; the covered rows are exactly those of structures |
| StructureRegistry.RestoredExactly | execution/structures.py:181-186 | with amounts in whole paise only leg order and the retry count differ |
| StructureRegistry.CombinedPnl | execution/structures.py:76-83 | the combined mark less fees, or nothing unless every leg is priced |
| StructureRegistry.SumPermuted | execution/structures.py:76-83 | the combined mark does not depend on the order of the legs |
| StructureRegistry.RestoredDecidesAlike | execution/structures.py:85-93 | a restored guard books, stops and holds on exactly the prices the original would have |
| DepthWalk.CrossableSorted | execution/simulator.py:37-42 | dropping unusable levels keeps a book sorted and adds none |
| DepthWalk.CrossableKeeps | execution/simulator.py:37-42 | exactly the levels with a price and a quantity are kept, as often as they are listed |
| DepthWalk.SlippageCosts | execution/simulator.py:71-80 | slippage takes its ten-thousandths of the price against the side that crosses, and a unit past the book pays the penalty's multiple of that on the worst price |
| DepthWalk.FillPrice | execution/simulator.py:52-80 | the fill is the slipped average of the first units of the book rounded to paise, and there is none only without any price |
| Money.CentsKeepOrder | execution/simulator.py:80-80 | rounding keeps the order of prices and moves each by at most half a paisa |
| Money.NearestIsEven | execution/simulator.py:80-80 | rounding takes the nearest whole paisa, and of two the even one |
| DepthWalk.Walk | execution/simulator.py:61-78 | every unit is filled, each at its level's price or past the book at the beyond price |
| DepthWalk.BookVwapFill | fno_backtest/fills.py:35-62 | the second walk fills at the same specified price, at the first level's for no quantity or a negative one, at nothing on an empty book |
| DepthWalk.Agree | fno_backtest/fills.py:35-62 | at equal penalty the two implementations agree, up to the rounding of the first, on every quantity of every non-empty book |
| DepthWalk.AverageRises | execution/simulator.py:61-78 | on a rising book the average unit never gets cheaper with size |
| DepthWalk.SizeCosts | execution/simulator.py:52-80 | a larger buy never pays less per unit, rounded or not; a larger sale never earns more if and only if slippage takes no more than the whole price or the averages are equal |
| DepthWalk.WalkSplits | execution/simulator.py:64-78 | walking q and then q' units of the consumed book costs what walking both does |
| DepthWalk.ConsumedBook | execution/simulator.py:64-78 | what is left of the book is sorted, as deep as it should be and past it costs the same |
| DepthWalk.NoRoundTripProfit | execution/simulator.py:52-80 | on an uncrossed book no size bought and sold back gains per unit if and only if the slipped price past the bids stays under the slipped best ask, as it does while slippage takes no more than the whole price |
| MaxPain.MaxPain | features/options.py:140-152 | the lowest of the strikes with the least payout, none only for an empty chain |
| MaxPain.MaxPainIsGlobalIff | features/options.py:140-152 | the listed minimum is the minimum over every settlement price if and only if neither calls nor puts have negative total open interest |
| MaxPain.NonNegativeOi | features/options.py:140-152 | non-negative rows make both totals non-negative |
| Combinations.ChoicesEnumerate | backtest/cpcv.py:41-41 | the choices are exactly the k-subsets, each once and in lexicographic order |
| Combinations.BinomIsFactorialQuotient | backtest/cpcv.py:27-31 | the recurrence is n! / (k! (n-k)!) |
| Combinations.EachHeldEqually | backtest/cpcv.py:41-41 | each block is in C(G-1, k-1) choices |
| Combinations.PathsExact | backtest/cpcv.py:27-31 | C(G,k) k / G is a whole number |
| Folds.BlocksCover | backtest/cpcv.py:15-24 | the blocks end exactly at the last observation and differ in size by one at most, the larger ones first |
| Folds.BlockEmpty | ml/cv.py:40-43 | a block is empty exactly when its number reaches the number of positions |
| Folds.HeldOutEqually | backtest/cpcv.py:41-50 | whatever is trained on, each position is held out in equally many splits |
| Cpcv.MakeGroups | backtest/cpcv.py:15-24 | consecutive near-equal blocks covering every observation |
| Cpcv.CpcvSplits | backtest/cpcv.py:33-50 | none for degenerate parameters; otherwise one per choice, in order, each observation held out in exactly `n_backtest_paths` of them; in every split an observation trains if and only if it is not held out and follows no held-out one within the embargo |
| Cpcv.TrainIsEmbargoed | backtest/cpcv.py:43-49 | an observation trains if and only if neither it nor any of the embargo's length before it is held out |
| PurgedCv.ResumeIsAfter | ml/cv.py:46-48 | training resumes exactly at the labels whose embargo-earlier label starts after every held-out label ended |
| PurgedCv.PurgedKFold | ml/cv.py:34-50 | folds are the consecutive blocks; training keeps exactly the labels ending by the block's start or resuming after it; misaligned, bad or empty input fails as it does there |
| PurgedCv.FoldNeverLeaks | ml/cv.py:34-50 | no training label shares time with a held-out one |
| PurgedCv.EmbargoBars | ml/cv.py:22-23 | the whole part of its share of the observations |
| PurgedCv.FoldTrainsIff | ml/cv.py:34-50 | a label trains if and only if it is not held out and ends by the start of every held-out label, or the one an embargo before it starts once each has ended |
| PurgedCv.CombinatorialPurgedCv | ml/cv.py:59-87 | one fold per choice until an empty block; training keeps exactly the labels clear of every chosen block |
| PurgedCv.CombosNeverLeak | ml/cv.py:74-86 | across every chosen block no training label shares time with a held-out one |
| PurgedCv.ComboTrainsIff | ml/cv.py:74-86 | a label trains if and only if it is not held out and, for each chosen block, ends before all its labels start or comes an embargo after all have ended |
| PurgedCv.HeldOutOncePerPath | ml/cv.py:53-56 | each index is held out in exactly `num_cpcv_paths` folds |
| TokenBuckets.TokenBucket.Pass | data/rate_governor.py:49-62 | one locked pass keeps the level within [0, capacity], and grants exactly when the refilled level covers the request |
| TokenBuckets.WindowBound | data/rate_governor.py:34-62 | for any interleaving of callers, any window grants at most a full bucket plus what accrues in it |
| TokenBuckets.LoneWaiterGrantedIff | data/rate_governor.py:60-62 | a lone caller back after its wait is granted if and only if the bucket can hold its request |
| TokenBuckets.ReturningEarlyRefused | data/rate_governor.py:60-62 | the wait is no longer than needed |
| OrderGuard.RateGovernor.CheckOrderGuard | data/rate_governor.py:118-138 | the check rolls the day, forgets orders older than a minute and passes exactly below both caps |
| OrderGuard.RecordKeeps | data/rate_governor.py:140-142 | recording an order in flight keeps the minute and day bounds |
| OrderGuard.RateGovernor.Call | data/rate_governor.py:94-115 | an order is checked once and recorded exactly when a try succeeds; only refusals for too many requests are retried, five times at most |
| OrderGuard.WindowLimits | data/rate_governor.py:94-142 | within one day, with at most c calls in flight, no minute holds more than cap - 1 + c orders, and no day more than its cap - 1 + c |
| OrderGuard.BoundReached | data/rate_governor.py:94-142 | some run does put cap - 1 + c orders into one minute |
| OrderGuard.MidnightForgets | data/rate_governor.py:118-124 | wherever the day may roll within a minute of an order, some run puts cap - 1 + c + 1 orders into one minute |
| OrderGuard.BoundIffCalm | data/rate_governor.py:118-138 | over all orders of all days, no minute ever holds more than cap - 1 + c of them if and only if no roll drops an order younger than a minute |
| CallLimiter.Limiter.RateOk | api/auth.py:95-105 | granted exactly when fewer than the limit were granted since the latest cutoff; other keys are untouched |
| CallLimiter.OneWindow | api/auth.py:95-105 | with one window length the latest cutoff is the closed trailing window |
| CallLimiter.WindowHoldsLimit | api/auth.py:95-105 | no closed window of that length ever holds more than the limit |
| CallLimiter.GrantedIff | api/auth.py:95-105 | a call is granted if and only if the closed window before it holds fewer grants than the limit |

## Left out

- Prices, fees, notional and realised P&L of live orders: the executor model follows quantities and states.
- TradeProtocol.AfterExit: `reconcile_brackets` reads its list of active brackets and acts on one of them in one step.
- Executor.Executor.MarketExit: the product check of `market_exit` is the one the entry gate already made, and is not repeated.
- Executor.Executor.Close: every broker call may fail, but bracket triggering between calls is only in the transition system.
- Database statements succeed and are atomic; tables are sequences keyed by serial ids.
- `positions()` rows of the mock broker carry no instrument token; the broker's net quantity per instrument stands for them.
- PositionBook.PositionBook.ClosePosition: realised P&L and the trade row it is written to are not modelled.
- StructureRegistry.Desk.CloseStructure: live quotes and the cost model are parameters, and structure guards are values in a map.
- StructureRegistry.Desk.OpenStructure: legs are filled and closed by the simulator, whose closes always succeed.
- RiskPipeline.Decide: the signal, the hard gates and the scenario grid are inputs.
- PurgedCv.EmbargoBars: a negative embargo percentage, which would index from the end, is excluded.
- Aggregator.Candles: cells are values in a map rather than shared objects.
- Payoffs.ProfileMin: `max_profit` and break-evens of the scan are not modelled.
- CallLimiter.Limiter.RateOk: time does not run backwards for a key, as with a monotonic clock.
- Alerts, cooldowns, tick validation and coalescing, mode switching, adoption of broker positions, and the simulator's quotes.
- Kite, HTTP, Redis and SQL plumbing, the LLM layer, the dashboard, reports, strategies, indicators, Greeks, VaR and model training.
