# Verified models of the ADR 0043 harness and the momentum research scripts

A Dafny 4.11 project that models the parts of the trading workbench whose promises span many steps, and proves those
promises for every run, every input and every interleaving. `dafny verify dfyconfig.toml` checks everything.

## What is modelled

**The crash-tolerant canary** (`orders`, `canary`, `canary_safety`, `canary_theorems`, `canary_limits`,
`canary_complete`, `canary_run`, `canary_endings`). The enforce canary sells and tries to buy one protected leg under
a lock file, a checkpoint replaced atomically, deterministic client order ids, an intent written before the side
effect, and one seam that pairs a submit with a settlement barrier. It is a transition system: lock file, checkpoint,
order rows, requests on the wire and positions are durable; each process has a program counter and its own copy of the
checkpoint. Any number of processes enter, crash and restart between any two instructions, the broker acts whenever it
likes, the operator may trade by hand when nothing is live, and a request can still be on the wire when its sender is
gone. `CanaryRunner` writes the program once more as methods on objects, from `main` down, branch by branch, with its
lock file and its checkpoint; a coupling invariant ties both files to the transition system, and the contracts say how
each method ends, as a function of what it finds and of the answers it gets. `CanaryEndings` reads that function: when
an invocation is refused, stopped, or comes through.

**The churn driver** (`churn`, `churn_safety`, `churn_exposure`, `churn_theorems`, `churn_ledger`, `churn_run`,
`shares`, `share_limits`). The phase-0 loop buys and sells one setup symbol until the day's loss reaches a target,
with the same order path. `ChurnRunner` is the loop on objects; what its turns bring decides how many round trips it
completes and how it ends. `Shares` is its cap-aware order sizing, which every buy of a run carries.

**The momentum engine** (`selection`, `selection_theorems`, `selection_order`, `selection_trace`, `selection_exit`,
`selection_cap`, `cap_effect`, `cap_fixed`, `selection_witnesses`, `sizing`, `sizing_bounds`, `sizing_inputs`,
`regime`, `regime_days`, `ledger`, `accounting`, `accounting_laws`, `rebalancing`, `policy_run`, `policy_laws`,
`book_turnover`). Selection with hysteresis, displacement and a sector counter; sizing by clamping and renormalising;
the buffered regime gauge; the two day simulators; turnover. Arithmetic is over the reals.

**Printers and parsers** (`text`, `jcs`, `jcs_decode`, `jcs_strict`, `jcs_theorems`, `frames`, `frame_headers`,
`credentials`, `credential_lines`, `credential_file`, `rotation`). The canonical JSON encoder of RFC 8785, the reader
of `git cat-file --batch` frames, and the credential table. Text is a sequence of code points; bytes are numbers below
256.

**The log watcher** (`watcher`, `watcher_verdicts`, `watcher_dates`, `watcher_stops`). Restart budget and alert
cooldown over all sequences of passes, the verdict on each issue from the restarts and alerts really made, restarts by
the date they are recorded on, and the real restarts beside the saved ones when passes stop before they save.

`options`, `counting` and `reals` hold what several models share.

## Where the code differs from what is said about it

These are theorems about the code as it is: where a promise fails, what reaches the failure and the exact
condition under which it holds, or, where only a sufficient one is proved, the word "enough".

- Canary: the lock excludes a second process exactly while the operator removes a lock file with nothing live
  (`ClearIsSafeIff`, `CarelessClearSubmitsTwice`). A refusal of A3 is submitted again by a later life exactly when
  it never got a row, against the header's "never re-runs a completed side effect" (`RefusalRepeatsIffNoRow`,
  `RowEndsSubmission`); a run that completes through such a refusal is refused by every later life, which looks
  for A3's order (`CompletesWithoutRow`, `CompletedForever`). A session dropped between A4 and A5 can "resume at
  the first incomplete step" exactly while the account is still reduction-only, which a successful A4 has ended
  (`ResumesIff`, `CrashAfterA4Strands`). The library says the deterministic id closes the window between submit and
  checkpoint; it prevents a second order, but if the crash comes before the broker id is committed no later life
  ever gets past A2 (`CrashInRouterOrphans`, `OrphanForever`, `PassesIffAcknowledged`). For one whole-share
  reduction quantity across all lives (it is read from `ADR0043_REDUCE_QTY` at every start, and the router rounds
  a fractional quantity of a non-fractionable asset to whole shares) the three refusals of A2's rebind branch can never
  fire (`RebindIsSound`). A cancelled or partly filled A2 passes the barrier and fails the assertion, and so does a
  full one after trading by hand between lives (`BarrierMeansFilled`, `PositionAtBarrier`).
- Churn: `run_leg`'s re-entry branch is never taken, since the index it works on is always new
  (`LegsNeverRepeat`). The preflight asks for flat books and no open order. That bounds the invocation's exposure
  in every continuation exactly when no request of a dead invocation is still in flight
  (`BoundedIffNoneInFlight`), and a run from an empty disk can reach a preflight where one is
  (`StrayIsReachable`). A caller cannot see the wire, but a ledger without a row that waits for its broker id is
  enough (`ClearLedgerIsSafe`). `finish` never has anything to flatten.
- `admissible_shares` says "the largest order the limits admit"; it rounds half to even, so it keeps that
  promise exactly when the tightest cap does not round up (`AdmittedIff`, `OvershootWitness`).
- Selection: the result depends on the order in which the held set is walked exactly when the strongest carried
  name to be displaced and the weakest to be kept are tied, which can be told before the call
  (`OrderDoesNotMatterIff`, `TiesDependOnOrder`). With the sector cap one pass can leave out a name far above one it
  keeps, and two days need not settle the book (`CapNeedsMorePasses`). A pass ends at a fixed point exactly when no
  name it refused has room at the end and still beats the weakest (`FixedPointIff`). The cap changes nothing at
  all exactly when every name the uncapped rules take in finds room in its sector at its turn
  (`CapChangesNothingIff`), for which no known sector with three of the carried and entering names is enough
  (`SparseChangesNothing`, `CappedPassSelects`, `CappedConverges`).
- Sizing: a book none of whose names starts under the floor ends at or under the cap exactly when it began so,
  which is a condition on the shares of the inverse volatilities, and likewise for the floor (`CapHoldsIff`,
  `FloorHoldsIff`): clamping only approaches a bound that is broken. Eight rounds miss it beyond the tolerance as
  soon as a name starts 0.004 over the cap (`EightRoundsAreNotEnough`); a five-name book keeps its 0.20 cap exactly
  with equal volatilities (`CapHoldsIffVolsEqual`, `FiveNamesMissTheCap`, `CapBrokenBeyondTolerance`).
- Frames: a batch that ends early is accepted exactly when it still holds the newline of its last header; the
  last content is then returned short (`CutBatch`).
- Credentials: a row whose email or password contains `---` is lost (`LostIffDashes`). The rows of a reason of
  several lines are read in front of the table (`FileIsReasonAndRows`, `ReasonCanAddAnEntry`); the file is read as
  its table alone exactly when each user of such a row has a readable row of their own (`ReadAsItsRowsIff`).
  Verifying right after a rotation can therefore fail, exactly as `RotateThenVerify` says (`TwiceNamedMismatch`).
- Watcher: the budget counts checks, so three restarts can be recorded on one date, and never four
  (`ThreeRecordedOnOneDate`, `RecordedBound`); no third can come today exactly when no restart straddled the last
  midnight or the day is too short for as many checks as would make two (`TwoRecordedIff`). A pass that stops before
  it saves forgets its restarts (`StoppedPassForgets`); the limits then hold of the real restarts in every
  continuation exactly when what is forgotten is old enough or on file, and no third restart fits into the day
  (`LimitsHoldIffHarmless`), and each stopped pass adds at most two restarts to a date, or one if it finds the
  container down once (`StoppedBound`).

## Model

| member | source | states |
|---|---|---|
| Orders.NewestRow | apps/backend/scripts/adr0043_canary_lib.py:864-889 | the local half of the lookup returns a row of the id exactly when one exists |
| Orders.FirstAtBroker | apps/backend/scripts/adr0043_canary_lib.py:864-889 | the broker half sees an order of the id exactly when one reached the broker |
| Orders.RouterKeepsShape | apps/backend/app/orders/router.py:176-395 | every move of the router keeps one row and one request per id, each request behind its committed row |
| Orders.RouterKeepsPlace | apps/backend/app/orders/router.py:607-672 | after each move the ledger holds exactly what the router's position says it has done, up to the acknowledged order |
| Orders.RouterTouchesOneRow | apps/backend/app/orders/router.py:176-395 | submitting trades nothing by itself and leaves every other row and request alone |
| CanarySafety.StepKeepsInv | apps/backend/scripts/adr0043_canary_run.py:176-405 | every instruction, crash, restart, operator action, trade by hand between lives and broker event keeps the run invariant |
| CanarySafety.LookUpExact | apps/backend/scripts/adr0043_canary_lib.py:864-889 | a lookup of a step's id succeeds exactly when its row is committed, and then returns that row |
| CanaryTheorems.AtMostOnce | apps/backend/scripts/adr0043_canary_lib.py:676-700 | over every run at most one process is inside the lock, each client order id has at most one row and one request, and no request lacks its row |
| CanaryTheorems.AtMostTwoRequests | apps/backend/scripts/adr0043_canary_run.py:176-325 | over every run at most one sell and one buy of the leg leave for the broker |
| CanaryTheorems.RebindIsSound | apps/backend/scripts/adr0043_canary_run.py:179-197 | whatever was traded by hand between lives, a rebind to A2's order always passes its three refusals, and the stored expectation is the position at that order's submission less the reduced quantity |
| CanaryTheorems.MarkHasCause | apps/backend/scripts/adr0043_canary_run.py:395-405 | a process past the barrier passed it itself, in the same life |
| CanaryTheorems.A3OnlyAfterBarrier | apps/backend/scripts/adr0043_canary_run.py:276-317 | A3 is handed to the router only after A2's barrier returned in the same life, with A2's order closed and every fill booked |
| CanaryTheorems.BarrierMeansFilled | apps/backend/scripts/adr0043_canary_run.py:241-257 | with no A3 request filled, when the barrier returns the ledgers agree, and the position is the expected one exactly when the unfilled part of the order equals what was traded by hand since |
| CanaryTheorems.PositionAtBarrier | apps/backend/scripts/adr0043_canary_run.py:206-257 | from the commit of A2's row to the barrier, in any later life, the position differs from the recorded expectation by the unfilled quantity and the trades by hand between |
| CanaryLimits.CarelessClearSubmitsTwice | apps/backend/scripts/adr0043_canary_lib.py:676-700 | if the operator removes the lock of a live process, a run exists with two processes inside and two rows under A2's one id |
| CanaryLimits.ClearIsSafeIff | apps/backend/scripts/adr0043_canary_lib.py:676-700 | from any state of any run, clearing the lock file keeps a second process out of every continuation exactly when nothing is live |
| CanaryLimits.RowEndsSubmission | apps/backend/scripts/adr0043_canary_run.py:179-204 | once a step's row exists no later life submits that step again |
| CanaryLimits.RefusalRepeatsIffNoRow | apps/backend/scripts/adr0043_canary_run.py:306-316 | after A2 settled and with nothing live, some continuation of an incomplete run submits A3 again exactly when A3 left no row |
| CanaryLimits.CrashAfterA4Strands | apps/backend/scripts/adr0043_canary_run.py:341-357 | a crash right after A4 is recorded and has left reduction-only leaves the run stranded |
| CanaryLimits.StrandedForever | apps/backend/scripts/adr0043_canary_run.py:444-518 | a stranded run never records A5, submits nothing and keeps its checkpoint, however often it is restarted while the loss state stands |
| CanaryLimits.ResumesIff | apps/backend/scripts/adr0043_canary_run.py:444-476 | with A4 recorded, A5 not and nothing live, some run records A5 while the loss state stands exactly when that state is reduction-only |
| CanaryLimits.CrashInRouterOrphans | apps/backend/app/orders/router.py:607-672 | a crash anywhere between the commit of A2's row and of its broker id leaves the row without one, whatever the broker has done |
| CanaryLimits.OrphanForever | apps/backend/app/orders/settlement.py:298-304 | once A2's row is left without a broker id, no later barrier returns, no row changes, nothing is submitted and no step beyond A2 is recorded, over every run |
| CanaryLimits.PassesIffAcknowledged | apps/backend/scripts/adr0043_canary_lib.py:605-633 | with nothing live, an incomplete run with A2's row can still reach a returning barrier exactly when the broker id was committed |
| CanaryComplete.CompletedForever | apps/backend/scripts/adr0043_canary_run.py:408-441 | over every run a completed checkpoint, its orders and its submissions stay as they are, and the check of its two orders succeeds exactly when A3 left a row |
| CanaryComplete.CompletesWithoutRow | apps/backend/scripts/adr0043_canary_run.py:279-325 | from any incomplete state with A2 settled, nothing live and no A3 row, a run exists that completes without one |
| CanaryRunner.Checkpoint.constructor | apps/backend/scripts/adr0043_canary_lib.py:618-628 | loading takes the file if there is one, else a fresh run id that is saved before anything else |
| CanaryRunner.Checkpoint.RecordIntent | apps/backend/scripts/adr0043_canary_lib.py:650-658 | the intent becomes the held quantity and its expected remainder, on disk when the call returns |
| CanaryRunner.Checkpoint.RecordStep | apps/backend/scripts/adr0043_canary_lib.py:663-666 | the step joins the completed ones, on disk when the call returns |
| CanaryRunner.SingleInstance.Enter | apps/backend/scripts/adr0043_canary_lib.py:683-695 | entry succeeds exactly when nobody holds the lock |
| CanaryRunner.Invoke | apps/backend/scripts/adr0043_canary_run.py:408-536 | a second process is refused at the lock and changes nothing; any other invocation is out of the lock when it returns, with at most two more rows, and ends as `RunEnding` says of what it found and of the answers; a completed checkpoint changes nothing; a finished run has A2 settled, every step on disk, and asked for the recovery exactly if no earlier life had |
| CanaryRunner.CanaryRun.Submit | apps/backend/app/orders/router.py:176-395 | the order is turned down exactly as its fate says, reaches the broker exactly when the broker takes the request before the answer is over, and otherwise the run has raised and left; at most one row is added |
| CanaryRunner.CanaryRun.Settle | apps/backend/scripts/adr0043_canary_lib.py:1247-1279 | the barrier returns exactly when, after the broker's events, the order is closed, its row has its broker id, and with the missing fill the positions agree; otherwise the run has stopped and left |
| CanaryRunner.CanaryRun.StepA2 | apps/backend/scripts/adr0043_canary_run.py:176-239 | a run that finds A2's order submits nothing and goes on exactly when that order settles; without one it is refused exactly when too little is held, and goes on exactly when its sell is admitted, taken and settled |
| CanaryRunner.CanaryRun.FreshA2 | apps/backend/scripts/adr0043_canary_run.py:206-239 | with enough held the intent on disk is the position of that moment and its remainder; the step goes on exactly when the sell is admitted, taken and settled |
| CanaryRunner.CanaryRun.StepA3 | apps/backend/scripts/adr0043_canary_run.py:279-325 | an order that is there or a buy that is turned down is recorded and the run goes on; a buy that the broker takes stops it, and one without an answer raises |
| CanaryRunner.CanaryRun.StopUnplanned | apps/backend/scripts/adr0043_canary_lib.py:1293-1313 | an A3 order that reached the broker is settled and its fills booked if the barrier can return, and the run stops either way |
| CanaryRunner.CanaryRun.Execute | apps/backend/scripts/adr0043_canary_run.py:395-405 | the steps end as `StepsEnding` says; a run that comes back through the end has A2 settled and every step recorded, and added at most two rows; every other ending has left the lock |
| CanaryEndings.CompletedEnds | apps/backend/scripts/adr0043_canary_run.py:408-441 | a completed checkpoint is accepted exactly when A3's order is on file and the rest of its evidence holds, and refused otherwise |
| CanaryEndings.RefusedIff | apps/backend/scripts/adr0043_canary_run.py:468-476 | any other checkpoint, whatever it has recorded, is refused exactly for a loss state that is not reduction-only, a leg that is not held, or a first sell of more than is held |
| CanaryEndings.ResumedEnds | apps/backend/scripts/adr0043_canary_run.py:176-204 | a run that finds A2's order stops exactly when that order does not settle; otherwise it goes on with an A3 order that is there or a buy that is turned down, stops with one that arrives and raises with one that gets no answer |
| CanaryEndings.FirstSellEnds | apps/backend/scripts/adr0043_canary_run.py:206-239 | a first sell that is turned down stops the run, one without an answer raises, and one that arrives is settled like an order that was there |
| CanaryEndings.ResumesBehindSettledA2 | apps/backend/scripts/adr0043_canary_run.py:279-325 | from every reachable state with A2 settled, whatever ended the life before, the next invocation comes through when the account is reduction-only, the leg held, the ledgers agree, nothing moves, and A3 has its order or has it turned down |
| Shares.Tightest | apps/backend/scripts/adr0043_canary_lib.py:586-586 | the value is one of the caps and no larger than any |
| Shares.HalfEvenIsNearest | apps/backend/scripts/adr0043_canary_lib.py:586-586 | the rounding gives a nearest integer, and of two the even one |
| Shares.WithinHalfAShare | apps/backend/scripts/adr0043_canary_lib.py:571-586 | the order exceeds no cap by more than half a share |
| Shares.NotionalNearCeiling | apps/backend/scripts/adr0043_canary_lib.py:571-586 | its notional is at most the ceiling plus half a share's price |
| Shares.MonotoneInLimits | apps/backend/scripts/adr0043_canary_lib.py:571-586 | relaxing any limit never shrinks the order |
| Shares.AntitoneInPrice | apps/backend/scripts/adr0043_canary_lib.py:571-586 | a dearer share is never bought in larger number, whatever the limits |
| Shares.AdmittedIff | apps/backend/scripts/adr0043_canary_lib.py:571-586 | the order is within every cap, and then the largest such, exactly when the tightest cap is not negative and does not round up |
| ShareLimits.AffordsIff | apps/backend/scripts/adr0043_canary_lib.py:576-585 | a number of shares is within the ceiling, every limit the account has, the rest of its gross limit and its buying power exactly up to the tightest cap |
| ShareLimits.OrderIsNearest | apps/backend/scripts/adr0043_canary_lib.py:571-586 | the order is the whole number nearest to what can be afforded, halves going to the even one, and nothing at a price that is not positive |
| Shares.OvershootWitness | apps/backend/scripts/adr0043_canary_lib.py:586-586 | a share at 9 under the default ceiling gives 25002 of notional against 25000 |
| ChurnSafety.NextIndexIsUnused | apps/backend/scripts/adr0043_churn_driver.py:237-238 | no order carries the next leg's id |
| ChurnSafety.StepKeepsInv | apps/backend/scripts/adr0043_churn_driver.py:564-741 | every instruction, crash and restart keeps the ledger and checkpoint invariant |
| ChurnTheorems.LegsNeverRepeat | apps/backend/scripts/adr0043_churn_driver.py:201-238 | the leg keys are exactly 0 to k-1, no leg has two rows or requests, and the re-entry branch is never taken |
| ChurnTheorems.ExposureBound | apps/backend/scripts/adr0043_churn_driver.py:683-763 | after any history, if nothing is in flight at its own preflight, the position is between zero and the last buy's quantity at every instruction, zero outside a leg, and worth at most the ceiling and half a share |
| ChurnTheorems.SubmissionPoint | apps/backend/scripts/adr0043_churn_driver.py:564-640 | likewise at every submission all earlier legs are settled, filled and alternating, nothing is alive, and the position is zero for a buy and the bought quantity for a sell |
| ChurnTheorems.FinishInBand | apps/backend/scripts/adr0043_churn_driver.py:690-741 | likewise a finished invocation is flat with its last day change in the terminal band, within its round trips |
| ChurnTheorems.BoundedIffNoneInFlight | apps/backend/scripts/adr0043_churn_driver.py:525-537 | at every reachable preflight that passes with loss under target, trips left and a quote that sizes a buy, all continuations of the invocation stay bounded exactly when no request is in flight |
| ChurnLedger.ClearLedgerMeansNoneInFlight | apps/backend/app/orders/router.py:607-672 | over every run a request in flight has its row in the ledger, pending and without a broker id |
| ChurnLedger.ClearLedgerIsSafe | apps/backend/scripts/adr0043_churn_driver.py:514-533 | after any history, an invocation whose ledger has no such row at its preflight stays bounded |
| ChurnTheorems.StrayIsReachable | apps/backend/scripts/adr0043_churn_driver.py:525-537 | a run from an empty disk reaches such a preflight with a request in flight |
| ChurnTheorems.SizedIsNearest | apps/backend/scripts/adr0043_churn_driver.py:717-722 | every buy is the whole number of shares nearest to what the account affords within the setup's ceiling, with no gross exposure in use |
| ChurnRunner.ChurnDriver.RunLeg | apps/backend/scripts/adr0043_churn_driver.py:564-640 | a leg comes back exactly when the broker takes its request, closes it filled in full with the positions agreeing and nothing open, and the other checks hold; then one row is added |
| ChurnRunner.ChurnDriver.VerifyAfter | apps/backend/scripts/adr0043_churn_driver.py:653-680 | the run goes on exactly when the leg is filled in full, the positions agree, nothing is open and the other checks hold; otherwise it has stopped and left |
| ChurnRunner.ChurnDriver.Run | apps/backend/scripts/adr0043_churn_driver.py:683-741 | for every sequence of turns: a failed preflight is refused with no new row; otherwise the run ends as `RunsTo` says of the turns; with the first loss in the band it finishes at once with no new row; at most two rows a round trip; a finished run is flat if nothing was in flight when it began |
| ChurnRunner.ChurnDriver.Lap | apps/backend/scripts/adr0043_churn_driver.py:690-741 | one turn of the loop goes on exactly when the loss is short of the boundary, trips and time are left, a quote sizes a buy and both legs go through; otherwise it ends as its snapshot says |
| ChurnRunner.RunIsDetermined | apps/backend/scripts/adr0043_churn_driver.py:683-741 | what `Run` promises leaves one number of round trips and one ending for every sequence of turns |
| ChurnRunner.FirstSnapshotDecides | apps/backend/scripts/adr0043_churn_driver.py:690-704 | a run finishes without a round trip exactly when the first loss lies in the closed band from target to target plus overshoot, and overshoots without one exactly below it |
| Selection.SelectN | apps/backend/scripts/backtest_momentum_stage3.py:57-105 | the loops over book and counter compute the selection whose meaning the rows of `SelectionExit`, `SelectionTheorems` and the others state |
| SelectionExit.LeavesOnlySo | apps/backend/scripts/backtest_momentum_stage3.py:67-76 | a held name that is not chosen is not ranked today, or ranked below 2n on both closes, or is at least 0.30 below a chosen newcomer |
| SelectionExit.ChosenOnlySo | apps/backend/scripts/backtest_momentum_stage3.py:57-105 | with or without the cap, whoever is chosen is ranked today, is held or among the first n, and did not rank below 2n on both closes |
| SelectionExit.StaysIff | apps/backend/scripts/backtest_momentum_stage3.py:67-76 | a ranked held name that no chosen newcomer outdoes stays exactly when it did not rank below 2n on both closes |
| SelectionWitnesses.OneCloseIsNotEnough | apps/backend/scripts/backtest_momentum_stage3.py:67-76 | of five names, the one ranked 12 today is kept when it ranked 8 before and dropped when it ranked 11 |
| Selection.CountsReplace | apps/backend/scripts/backtest_momentum_stage3.py:99-103 | the sector counter stays the true count of the book through a replacement |
| SelectionTheorems.OnePassSelects | apps/backend/scripts/backtest_momentum_stage3.py:72-105 | from at most n names: rank order, no duplicates, at most n, newcomers best, dropped weakest and beaten by 0.30, nobody left out who is 0.30 above a chosen name |
| SelectionOrder.SelectionIsUniqueIff | apps/backend/scripts/backtest_momentum_stage3.py:72-105 | those rules determine the book exactly when no dropped carried name has the score of a kept one |
| SelectionOrder.OrderDoesNotMatterIff | apps/backend/scripts/backtest_momentum_stage3.py:72-105 | every order of the held names gives one result exactly when, counted from the carried and entering names before the call, the scores beside the cut differ |
| SelectionOrder.ClearIffNoTie | apps/backend/scripts/backtest_momentum_stage3.py:93-103 | the count made before the call is how many carried names a selection drops, so the scores beside the cut differ exactly when no dropped name is tied with a kept one |
| SelectionWitnesses.TiesDependOnOrder | apps/backend/scripts/backtest_momentum_stage3.py:96-100 | with two tied carried names of a five-name book it does |
| SelectionTheorems.ConvergesInTwoDays | apps/backend/scripts/backtest_momentum_stage3.py:201-209 | with unchanged ranks the book is constant from the second selection on, from any book and earlier ranks, so the change trigger is quiet from the third day |
| SelectionWitnesses.FirstDayIsNotFinal | apps/backend/scripts/backtest_momentum_stage3.py:67-73 | for a five-name book the first and second selection of an unchanged day can differ |
| SelectionCap.ConditionalSelect | apps/backend/scripts/backtest_momentum_stage2.py:92-128 | the five-name rules choose what the parametric ones choose at five |
| SelectionCap.CapHolds | apps/backend/scripts/backtest_momentum_stage3.py:75-105 | a known sector's final count is at most two, or what was carried |
| SelectionCap.NeverThreeOfASector | apps/backend/scripts/backtest_momentum_stage3.py:75-105 | over any days from an empty book no known sector ever has three names |
| CapEffect.CapChangesNothingIff | apps/backend/scripts/backtest_momentum_stage3.py:85-105 | the capped and the uncapped selection agree exactly when every name the uncapped one takes in finds room in its sector at its turn |
| CapEffect.SparseChangesNothing | apps/backend/scripts/backtest_momentum_stage3.py:79-105 | they agree when no known sector has three of the carried and entering names |
| CapEffect.CappedPassSelects | apps/backend/scripts/backtest_momentum_stage3.py:75-105 | then one capped pass is a fixed point of the rules |
| CapEffect.CappedConverges | apps/backend/scripts/backtest_momentum_stage3.py:201-209 | and with unchanged ranks the capped book is constant from the second selection on |
| CapFixedPoint.FixedPointIff | apps/backend/scripts/backtest_momentum_stage3.py:93-103 | with or without the cap, another pass changes nothing exactly when no name refused at its turn finds room at the end and beats the weakest |
| SelectionWitnesses.CapNeedsMorePasses | apps/backend/scripts/backtest_momentum_stage3.py:93-103 | without that, a five-name selection leaves out a name with room that beats one it keeps, and the book still changes on the third unchanged day |
| Sizing.Weigh | apps/backend/scripts/backtest_momentum_stage3.py:109-129 | the clamp-and-renormalise loop computes the weights that the rows of `Sizing`, `SizingInputs` and `SizingBounds` describe |
| Sizing.SortSorts | apps/backend/scripts/backtest_momentum_stage3.py:117-118 | the values behind the median are the volatilities, ascending |
| Sizing.WeightsAreABook | apps/backend/scripts/backtest_momentum_stage3.py:109-129 | every weight is positive and they sum to exactly one |
| Sizing.CalmerNamesWeighMore | apps/backend/scripts/backtest_momentum_stage3.py:116-129 | a name no more volatile than another never weighs less, and no round widens the ratio of two weights |
| Sizing.RoundNarrows | apps/backend/scripts/backtest_momentum_stage3.py:124-127 | one round keeps the order of any two weights and does not widen their ratio |
| SizingInputs.PresentAreMeasured | apps/backend/scripts/backtest_momentum_stage3.py:117-117 | the volatilities behind the fallback are those of the measured names, each once and in order |
| SizingInputs.FallbackIsMedian | apps/backend/scripts/backtest_momentum_stage3.py:118-119 | a name without a volatility is sized by the median of the measured ones |
| SizingInputs.MedianIsMiddle | apps/backend/scripts/backtest_momentum_stage3.py:118-118 | the median is the value between two halves of one size, or halfway between the two that meet there |
| SizingInputs.UntouchedWeights | apps/backend/scripts/backtest_momentum_stage3.py:116-129 | where they are within 0 and 0.20 for five names, 0.075 and 0.15 for others, half an equal share and half the share of the inverse volatilities are the weights |
| SizingInputs.EqualWeightsAreEqual | apps/backend/scripts/backtest_momentum_stage3.py:113-114 | under the equal scheme each of k names weighs one k-th |
| SizingBounds.BoundsHoldIffStopped | apps/backend/scripts/backtest_momentum_stage3.py:124-129 | the result is within its bounds exactly when some round stopped the loop |
| SizingBounds.WithinStays | apps/backend/scripts/backtest_momentum_stage3.py:124-129 | a book within its bounds before the first round is left exactly as it is |
| SizingBounds.BoundsFitIffEnoughNames | apps/backend/scripts/backtest_momentum_stage3.py:123-129 | weights of a number of names can be within the bounds exactly for five or more names of the five-name book, and seven to thirteen of the others |
| SizingBounds.CapHoldsIff | apps/backend/scripts/backtest_momentum_stage3.py:109-129 | in a book of any size with no name under the floor every final weight is at or under the cap exactly when every share of the inverse volatilities is at most twice the cap less an equal share |
| SizingBounds.FloorHoldsIff | apps/backend/scripts/backtest_momentum_stage3.py:109-129 | the same of the floor, with no name over the cap |
| SizingBounds.EightRoundsAreNotEnough | apps/backend/scripts/backtest_momentum_stage3.py:123-129 | with no name under the floor and one that starts 0.004 over the cap, all eight rounds run and the bound is still broken beyond 1e-9 |
| SizingBounds.FiveNamesMissTheCap | apps/backend/scripts/backtest_momentum_stage3.py:123-129 | some final weight exceeds 0.20 by a fixed share of the lightest name's initial gap |
| SizingBounds.CapHoldsIffVolsEqual | apps/backend/scripts/backtest_momentum_stage3.py:116-129 | five names stay at or under 0.20 exactly when their volatilities are equal |
| SizingBounds.CapBrokenBeyondTolerance | apps/backend/scripts/backtest_momentum_stage3.py:123-129 | from a gap above 0.0015625 all eight rounds run and the bound is still broken beyond 1e-9 |
| Regime.GrossSeries | apps/backend/scripts/backtest_momentum_stage4.py:98-126 | the counters compute the declarative gauge: the latest confirmed pair of usable days decides, unusable days fail open |
| Regime.UnusableDaysDoNotCount | apps/backend/scripts/backtest_momentum_stage4.py:105-107 | removing an unusable day changes no other day's exposure |
| Regime.TurnsAreTwoDaysApart | apps/backend/scripts/backtest_momentum_stage4.py:113-120 | the buffered gauge turns only on a confirmed pair, so turns are at least two usable days apart |
| Regime.GrossIsAShare | apps/backend/scripts/backtest_momentum_stage4.py:98-126 | exposure is between zero and one for every variant |
| RegimeDays.OneDayGauges | apps/backend/scripts/backtest_momentum_stage4.py:98-126 | without a level or a positive average every variant is fully invested; A compares the level with its average, C with 102% and 98% of it |
| RegimeDays.BufferedIsOffIff | apps/backend/scripts/backtest_momentum_stage4.py:113-120 | B is off on a readable day exactly when two readable days in a row were at most 99% of their averages and no two in a row since were at least 101% |
| Ledger.MarkBook | apps/backend/scripts/backtest_momentum_stage4.py:177-186 | marking in any order of the held names gives each name its marked sleeve |
| Ledger.MarkingTelescopes | apps/backend/scripts/backtest_momentum_stage2.py:188-198 | a marked sleeve is its allocation times the last price seen over the first, whatever prices are missing |
| Ledger.TotalIsOrderFree | apps/backend/scripts/backtest_momentum_stage4.py:187-187 | the sum of the sleeves does not depend on the order of the names |
| Accounting.Simulate | apps/backend/scripts/backtest_momentum_stage4.py:176-238 | the day loop computes the account that the rows of `Accounting` and `AccountingLaws` describe |
| AccountingLaws.ScoredDay | apps/backend/scripts/backtest_momentum_stage4.py:199-238 | over every run a scored day changes nothing but the marks exactly when names and exposure stand, no held weight is more than 0.04 off and less than ten days have passed since the last trade; otherwise it rebuilds the book, and a later trade's turnover is what it buys |
| AccountingLaws.UnscoredDay | apps/backend/scripts/backtest_momentum_stage4.py:194-197 | a day without scores changes nothing but the marks |
| AccountingLaws.ScoredDayFollows | apps/backend/scripts/backtest_momentum_stage4.py:199-238 | after every scored day the exposure is the day's within 1e-9, the names are the selected ones unless it asks for none, and no held weight is more than 0.04 off |
| AccountingLaws.FlipTrades | apps/backend/scripts/backtest_momentum_stage4.py:201-202 | a change of exposure alone, or of names alone, rebuilds the book that day |
| AccountingLaws.SinceCounts | apps/backend/scripts/backtest_momentum_stage4.py:206-208 | the counter is the number of days since the last trade, or since the beginning |
| AccountingLaws.CurveIsWorth | apps/backend/scripts/backtest_momentum_stage4.py:176-189 | the curve has one point a day, what the account is worth at that day's closes before it trades |
| AccountingLaws.OpensWith | apps/backend/scripts/backtest_momentum_stage4.py:159-174 | the account opens with 100000, nothing held and full exposure |
| Accounting.EquityIsConserved | apps/backend/scripts/backtest_momentum_stage4.py:176-238 | from the first trade on the equity is the sleeves plus the cash at every point of every run, and it stays positive |
| Accounting.EveryTradeIsCheap | apps/backend/scripts/backtest_momentum_stage4.py:219-224 | each turnover is in [0,1], the first is one half, and a trade costs at most ten basis points |
| Accounting.TotalTurnoverBound | apps/backend/scripts/backtest_momentum_stage4.py:219-223 | the total turnover is at most the number of trades less a half |
| Accounting.TradeAtZeroGoesToCash | apps/backend/scripts/backtest_momentum_stage4.py:209-234 | a trade at zero gross leaves everything in cash |
| Accounting.FlatUntilExposureRises | apps/backend/scripts/backtest_momentum_stage4.py:176-238 | from then on the curve is flat until a day asks for exposure again |
| Rebalancing.Decide | apps/backend/scripts/backtest_momentum_stage4.py:196-214 | selection and sizing together deliver positive base weights that sum to one over the selected names |
| PolicyRun.Simulate | apps/backend/scripts/backtest_momentum_stage2.py:187-246 | the day loop computes the account and the lengths of all holdings |
| PolicyLaws.DayFollowsThePolicy | apps/backend/scripts/backtest_momentum_stage2.py:200-235 | over every run a day on which the policy asks for a trade and names a target trades to that target at ten basis points of the turnover, dates who comes in and records who goes out; any other day changes nothing but the marks |
| PolicyLaws.TradeSplitsEvenly | apps/backend/scripts/backtest_momentum_stage2.py:215-233 | a trade leaves every name of the target an equal part of the equity, at the day's close |
| PolicyLaws.TradeCountsBothSides | apps/backend/scripts/backtest_momentum_stage2.py:217-223 | its turnover is half of what it buys and sells |
| PolicyLaws.CurveIsWorth | apps/backend/scripts/backtest_momentum_stage2.py:187-199 | the curve has one point a day, what the account is worth at that day's closes before it trades |
| PolicyRun.SleevesTelescope | apps/backend/scripts/backtest_momentum_stage2.py:188-198 | between trades every held sleeve is its allocation times last over first price seen since the trade |
| PolicyRun.HoldingsAreEntries | apps/backend/scripts/backtest_momentum_stage2.py:226-246 | the recorded holdings, open ones included, are exactly the entries |
| PolicyRun.DaysAreConserved | apps/backend/scripts/backtest_momentum_stage2.py:226-246 | their lengths add up to the names held times the days they were held |
| BookTurnover.OneWayTurnover | apps/backend/scripts/backtest_momentum_window.py:92-100 | the half-L1 loop gives one minus the shared names over the larger book, and one half when exactly one book is empty |
| BookTurnover.OneWayMeaning | apps/backend/scripts/backtest_momentum_window.py:92-100 | zero exactly for equal books, one exactly for disjoint non-empty ones, symmetric |
| BookTurnover.ReplacedPart | apps/backend/scripts/backtest_momentum_window.py:92-100 | opening or closing a book turns over one half, and between books of one size it is the replaced part |
| BookTurnover.AnnualizedTurnover | apps/backend/scripts/backtest_momentum_window.py:82-105 | the mean is in [0,1] for every history and the annual figure is the total per year of the span |
| Text.ValueOfDigits | apps/backend/scripts/adr0043_dbox_freeze_manifest.py:91-92 | decimal printing is undone by reading |
| Text.DigitsOfValue | apps/backend/scripts/adr0043_dbox_freeze_manifest.py:91-92 | a number without leading zeros is the decimal printing of its value |
| Text.UnitsOfTells | apps/backend/scripts/adr0043_dbox_freeze_manifest.py:102-102 | a code point has one UTF-16 unit, or above U+FFFF the two surrogates that add up to it |
| Text.BytesOfTell | apps/backend/scripts/adr0043_dbox_freeze_manifest.py:102-102 | each unit is two bytes, the higher first |
| Text.Utf8OfTells | apps/backend/scripts/adr0043_dbox_freeze_manifest.py:110-111 | each code point has the shortest UTF-8 form that reads as it (section 3 of RFC 3629) |
| Text.BytesOrderIsUnitOrder | apps/backend/scripts/adr0043_dbox_freeze_manifest.py:102-102 | comparing UTF-16 big-endian bytes compares code units (section 3.2.3 of RFC 8785) |
| Text.UnitsAreInjective | apps/backend/scripts/adr0043_dbox_freeze_manifest.py:102-102 | distinct keys have distinct code units |
| Text.Utf8IsInjective | apps/backend/scripts/adr0043_dbox_freeze_manifest.py:110-111 | distinct texts have distinct UTF-8 bytes |
| Jcs.Escape | apps/backend/scripts/adr0043_dbox_freeze_manifest.py:56-79 | the escaping loop writes the string that the strict decoder reads as it, and no other text is read so (`JcsStrict.StringIsEscaped`) |
| JcsDecode.StringRoundTrip | apps/backend/scripts/adr0043_dbox_freeze_manifest.py:56-79 | every string is read back from its escaped form by a decoder that accepts a short escape where there is one, lower-case u00 escapes for the other controls, and no escape for anything else |
| JcsDecode.RoundTrip | apps/backend/scripts/adr0043_dbox_freeze_manifest.py:82-107 | decoding an encoding followed by any tail that does not start with a digit returns the value, members in key order, and that tail |
| JcsStrict.StringIsEscaped | apps/backend/scripts/adr0043_dbox_freeze_manifest.py:56-79 | whatever that decoder reads as a string is the string in its escaped form (section 3.2.2.2 of RFC 8785) |
| JcsStrict.OnlyText | apps/backend/scripts/adr0043_dbox_freeze_manifest.py:82-107 | of a value whose members stand in key order, the encoding is the only text read as it |
| JcsStrict.Marks | apps/backend/scripts/adr0043_dbox_freeze_manifest.py:84-106 | the marks and words of the grammar are the characters of JSON |
| JcsTheorems.KeyOrderIsUnitOrder | apps/backend/scripts/adr0043_dbox_freeze_manifest.py:102-102 | members are ordered by UTF-16 code units |
| JcsTheorems.NotCodePointOrder | apps/backend/scripts/adr0043_dbox_freeze_manifest.py:102-102 | U+10000 sorts before U+FF21, against code point order |
| JcsTheorems.SortSorts | apps/backend/scripts/adr0043_dbox_freeze_manifest.py:101-106 | distinct keys are written in strictly ascending order |
| JcsTheorems.SameEncodesAlike | apps/backend/scripts/adr0043_dbox_freeze_manifest.py:82-107 | insertion order does not show in the encoding or in the error |
| JcsTheorems.EncodingIdentifies | apps/backend/scripts/adr0043_dbox_freeze_manifest.py:82-107 | two encodable values have one encoding exactly when they map the same keys to the same values throughout |
| JcsTheorems.BytesIdentify | apps/backend/scripts/adr0043_dbox_freeze_manifest.py:110-111 | the same of the canonical bytes the digest is taken on |
| JcsTheorems.EncodesIffClean | apps/backend/scripts/adr0043_dbox_freeze_manifest.py:82-107 | encoding succeeds exactly when there is no float, no foreign value and no surrogate in a key, at any depth |
| Frames.ReadBlobs | scripts/check_deploy_archive_determinism.py:94-113 | the offset loop yields the contents of the frames, or the first error, which the next rows tell for whole batches, cut ones and any header |
| Frames.BatchRoundTrip | scripts/check_deploy_archive_determinism.py:94-113 | for every list of byte strings the frames read back to exactly those strings in order |
| Frames.CutBatch | scripts/check_deploy_archive_determinism.py:99-113 | for every batch and every cut the reader succeeds exactly when the last header keeps its newline, with every earlier content intact and the last as long as what is there |
| FrameHeaders.FieldsAreWords | scripts/check_deploy_archive_determinism.py:104-104 | however the words of a header are spaced, they are its fields |
| FrameHeaders.HeaderDecides | scripts/check_deploy_archive_determinism.py:102-110 | for every header line the third word decides: without one, or with one that is no number, there is an error; else so many bytes are the content, or as many as there are |
| FrameHeaders.BadHeaderEnds | scripts/check_deploy_archive_determinism.py:99-113 | behind any frames read in full, the first header that does not say how long its object is ends the reading with its error |
| FrameHeaders.AnyHeaderReads | scripts/check_deploy_archive_determinism.py:99-112 | a frame whose header is spaced differently or says more is read like any other, and the rest follows |
| FrameHeaders.NoLineNoFrame | scripts/check_deploy_archive_determinism.py:103-103 | without a newline there is an error |
| Frames.Classify | scripts/check_deploy_archive_determinism.py:143-156 | the loop fills the two lists with the paths of their verdicts and the reported count is the identical ones |
| Frames.Partition | scripts/check_deploy_archive_determinism.py:143-156 | identical, waived and mismatched partition the compared paths |
| FrameHeaders.ListHolds | scripts/check_deploy_archive_determinism.py:143-156 | each list holds, in order, the paths that are equal to their blob, differ and end in .bat, or differ and do not |
| Frames.Compare | scripts/check_deploy_archive_determinism.py:136-156 | the report names exactly the paths whose archived bytes differ from the blob and are not allowed to |
| Credentials.ParseCredentialFile | scripts/rotate_user_passwords.py:93-103 | the loop over lines keeps the last entry of each user |
| Credentials.RowRoundTrip | scripts/rotate_user_passwords.py:97-102 | a written row is read back exactly unless its line has three dashes |
| CredentialLines.LineEnds | scripts/rotate_user_passwords.py:96-96 | each line end of Unicode closes a line, the carriage return unless a line feed follows |
| CredentialLines.LineEndsTogether | scripts/rotate_user_passwords.py:96-96 | a carriage return and a line feed together close one line |
| CredentialLines.LineAlone | scripts/rotate_user_passwords.py:96-96 | a text without such marks is one line, or none when it is empty |
| CredentialLines.LineIsRead | scripts/rotate_user_passwords.py:97-102 | every line is read as the number of its first cell and the trimmed third cell exactly when it begins like a row, is no heading, has no three dashes, three cells and a first one in decimal digits |
| Credentials.LostIffDashes | scripts/rotate_user_passwords.py:97-98 | that happens exactly when the email or the password has them |
| CredentialFile.LinesOfJoin | scripts/rotate_user_passwords.py:96-96 | splitting joined lines returns them |
| CredentialFile.FileIsReasonAndRows | scripts/rotate_user_passwords.py:93-142 | for every reason, parsing the written file yields the rows of the reason and then those of the table |
| CredentialFile.ReadAsItsRowsIff | scripts/rotate_user_passwords.py:93-142 | the file is read as its table alone exactly when every user of a row of the reason has a readable row in the table |
| CredentialFile.OneLineReason | scripts/rotate_user_passwords.py:97-97 | a reason of one line holds no row |
| CredentialFile.TableRoundTrip | scripts/rotate_user_passwords.py:93-142 | for every reason, the entries are the users with a surviving row, each with the last surviving password, and the remaining users of the reason |
| CredentialFile.ReasonCanAddAnEntry | scripts/rotate_user_passwords.py:114-133 | a further line of the reason that is a row is read as if it stood first in the table |
| Rotation.WriteCredentials | scripts/rotate_user_passwords.py:113-133 | the file is its fixed lines and one line per row |
| Rotation.Rotate | scripts/rotate_user_passwords.py:148-177 | it writes rows and hashes for every listed user exactly when the arguments are acceptable, and nothing otherwise |
| Rotation.Verify | scripts/rotate_user_passwords.py:196-214 | the code is 2 without rows, 0 when every entry has a stored hash and goes with it, else 1, in any order of the entries |
| Rotation.RotateThenVerify | scripts/rotate_user_passwords.py:148-214 | for every reason, verifying a rotation returns 2 exactly when no row can be read, and 0 exactly when one can, each surviving password goes with its user's last hash and so does every other row of the reason |
| Rotation.PlainReasonVerifies | scripts/rotate_user_passwords.py:148-214 | a reason without rows of further users changes nothing of that |
| Rotation.DistinctUsersVerify | scripts/rotate_user_passwords.py:148-214 | with no user named twice only rows of the reason can fail |
| Rotation.TwiceNamedMismatch | scripts/rotate_user_passwords.py:167-172 | a user named twice whose last row is lost is reported as a mismatch, whatever the reason |
| Watcher.LogWatcher.BudgetOk | scripts/ops/log_watcher.py:219-231 | the budget is opened or rolled to the date before it is judged, and the answer is cooldown and count |
| Watcher.LogWatcher.BudgetSpend | scripts/ops/log_watcher.py:234-237 | one more restart on the budget's day, recorded at the given time |
| Watcher.LogWatcher.Remediate | scripts/ops/log_watcher.py:240-277 | only environment faults below level 4 are acted on, containers within their budget |
| Watcher.LogWatcher.RunPass | scripts/ops/log_watcher.py:296-313 | the loop leaves the state and the three lists of the pass, which `WatcherVerdicts` tells from what was really done |
| WatcherVerdicts.VerdictIsDeserved | scripts/ops/log_watcher.py:219-313 | an issue is fixed exactly when it is below level 4 and a full disk, or a container neither restarted within 1800 seconds nor twice that UTC date; else suppressed exactly when its fingerprint was alerted within six hours; restarts and alerts are made exactly so |
| WatcherVerdicts.PassReports | scripts/ops/log_watcher.py:296-313 | after any passes, each list of the next pass holds, in order, exactly the issues that deserve its verdict |
| Watcher.EachIssueOnce | scripts/ops/log_watcher.py:296-313 | every issue is in exactly one of fixed, alerted and suppressed |
| Watcher.Level4IsNeverFixed | scripts/ops/log_watcher.py:247-248 | no level-4 issue is ever fixed |
| Watcher.BudgetsHold | scripts/ops/log_watcher.py:219-313 | over all passes: at most two restarts admitted on a date, half an hour after the last recorded one, alerts six hours apart |
| WatcherDates.RecordedBound | scripts/ops/log_watcher.py:234-237 | at most three restarts are recorded on a date, and three only if one was checked the day before |
| WatcherDates.TwoRecordedIff | scripts/ops/log_watcher.py:219-237 | after any passes, no continuation records a third restart of a container today exactly when none straddled into today or the day is too short for as many checks as would make two |
| WatcherDates.ThreeRecordedOnOneDate | scripts/ops/log_watcher.py:219-237 | after a restart checked before midnight and recorded after it, three can be recorded on one date |
| WatcherStops.Host.OnePass | scripts/ops/log_watcher.py:280-355 | a pass loads the file, handles every issue and saves; a stopped one has restarted and not saved |
| WatcherStops.LimitsHoldIffHarmless | scripts/ops/log_watcher.py:353-355 | after any run with stopped passes that kept the limits, every continuation by completed passes keeps them of the real restarts exactly when what the file forgot no longer matters |
| WatcherStops.StoppedBound | scripts/ops/log_watcher.py:219-237 | with stopped passes at most two restarts of a container are admitted on a date, and two more for each of them, or one if it finds the container down once |
| WatcherStops.LosslessKeepsLimits | scripts/ops/log_watcher.py:219-237 | while no stopped pass has restarted anything the limits hold |
| WatcherStops.StoppedPassForgets | scripts/ops/log_watcher.py:353-355 | one stopped pass is enough to lose a restart that still matters |

## Left out

Assumptions of the canary and churn models, each of them a statement about something outside the harness:

- An order that reached the broker is visible to the next lookup; the settlement barrier returns only when the
  broker is done with the order and the local position reflects its fills; nothing else trades the symbol while
  a process is live; the checkpoint is never deleted and the lock file only when nothing runs; the reduction
  quantity is the same whole number of shares in every life.
- Client order ids are constructors over a run number, not rendered strings; timestamps as run ids are assumed
  distinct.
- The risk engine, the fractional-share rounding of the router, the reservation and decision ledgers and the
  evidence document: their checks enter as outcomes that may go either way.
- A4 and A5 beyond their place in the step order: the recovery and cooldown services are not part of this model.
- ChurnRunner.ChurnDriver.VerifyAfter: the checks other than fill, position and open orders enter as one flag
  that may fail, since what they look at (loss state, breaker, limits, protected legs) is not part of this model.
- ChurnTheorems.BoundedIffNoneInFlight: the preflight also refuses while a reservation is held, which stops some
  stray sells of a locked account before they can do harm; reservations are not part of this model.
- CanaryRunner.Invoke: what a completed run recorded besides its two orders (recovery check, verdict, evidence file
  and digest, control events) enters as one flag; the loss-control mode is the required one, and the other protected
  legs are held.
- Wall-clock budgets, quotes and the freshness bound enter as given values of a turn.

Other limits of the models:

- Decimal arithmetic is exact here; the 28-digit context precision and IEEE rounding are not modelled.
- Names and sectors are numbers in the momentum models, since only their equality matters.
- `compute_day`, the market proxy, the price store and `_apply_sector_cap` are not part of this model; scores,
  moving averages, closes and volatilities are given inputs, absent where the code allows it.
- PolicyRun.Simulate: the four policies enter as an arbitrary order per day; weekly and on-change would add
  only easy members.
- Accounting.Simulate: the target of each day is an arbitrary pick with the properties `Rebalancing.Decide`
  proves; holding periods, worst gap, risk-off share and the summary ratios are left out there.
- Frames.ReadBlobs: sizes are plain digits, as git prints them; signs and underscores, which `int` would take,
  and headers that are not ASCII are not modelled.
- Credentials.ParseCredentialFile: only ASCII digits count as digits of a user id.
- Rotation.WriteCredentials: the wording of the fixed lines is a parameter; what is used of it is that no such
  line begins like a row and that the heading begins as it does. The atomic replace of the file is left out.
- Jcs.Escape: strings with lone surrogates are escaped as the code does; the UTF-8 step then has no result.
- SHA-256, bcrypt and the random generator: a hash is any value, and verifying is any predicate.
- SizingBounds.BoundsHoldIffStopped: the condition speaks of the rounds; in terms of the volatilities there are
  `CapHoldsIff` and `FloorHoldsIff`, which leave out books that start with both bounds broken, and those are about
  the bounds themselves, not about 1e-9 around them.
- WatcherStops.LimitsHoldIffHarmless: it speaks of restarts; whether the alerts of a stopped pass were sent before
  it stopped is not modelled.
- The log watcher's scanning, classification and notifications; passes are assumed not to overlap and the clock
  not to run backwards.
