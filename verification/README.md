# ATRA: verified model of the trading runtime and its gateway

ATRA runs an automated trading agent on the operator's own machine. The runtime proposes swaps and liquidity
actions, a risk engine decides, and an executor simulates them on paper or signs them for a chain. A gateway
connects the runtime to Telegram. This project models the parts of it that keep state over time or do exact
arithmetic, and proves what the design promises about them.

| module | models |
|---|---|
| `Common`, `Trades` | result types; the trade row, its status machine and the guarded store |
| `StateStore` | mode, pause, emergency stop and the LIVE activation checklist, with a process death between any two writes |
| `LiveProtocol`, `LiveExecutor`, `LiveEffects`, `LiveOutcomes` | both LIVE executors: sign, record, broadcast, book, settle at boot; an environment that confirms, reverts, stalls, flips switches and kills processes; what every answer does, and the runs this leads to |
| `Reconcile` | both boot reconcilers over the shared trade table, the ledger and the LP store |
| `PairMath`, `Valuation`, `PaperLp` | pair mint and burn formulas, USD valuation and price strings, the paper LP executor |
| `JsonScanner` | the fence, the one-pass JSON object scanner written twice, and a printer it inverts |
| `Throttle` | the password throttle shared by sign-in and re-authentication |
| `Transactions` | the transaction wrapper that counts its nesting, and the migrations |
| `Pairing`, `HubBudget`, `HubSockets` | pairing codes and Telegram links, the frame budget of a socket, the sockets and the alarm |

State the source updates in place is a class whose methods are proved against functions on values (`Step`, `Next`,
`Settle`, `After`, `Exec`). The main results are lemmas about every run of those functions, and each formula or decision
those functions use has a law that does not name it (`MintedIff`, `KeyIsUsedIff`, `ConfirmedLpLeaves`, `ActivatesIff`,
`PairedIff`, `OpenAfterIff`). Time is an event parameter. The environment (chain, adapters, vault, clients, operator,
process deaths) is the choice of events.

## What turned out not to hold

Each of these has a lemma with the input or a run from the initial state, and a statement of exactly when the promise
does hold.

- A process that dies between writing a fill to the swap ledger and marking the row filled books that fill again at the
  next boot (`TornFillBooksTwice`). A swap's fill is entered once for every such death and once more when its priced row
  is filled, so at most once if and only if there was no such death, or one after which the row was never filled
  (`BookedExactly`).
- The running liquidity executor also enters first and marks second, so an add's tokens can be counted twice the same
  way (`TornAddCountsTwice`). A liquidity fill is entered at most once if and only if there was no such death, or a
  single one after which the row was never filled or its last entry was lost or moved nothing (`BookedExactly`).
- The liquidity reconciler marks first, so the same death loses the entry for good (`TornLpFillIsLost`, reached by
  `OwedIsReached`). The event that fills a liquidity row enters its fill if and only if there is something to enter and
  no death falls between mark and entry (`LpFillIsEnteredIff`); filled rows never change again (`FilledIsFinal`).
- A confirmed swap the ledger refuses (no amount in the receipt and no minimum in the quote, or a price of zero that
  is not written as the literal `0`) throws out of the swap reconciliation at every boot, however the chain moves on. No
  later swap row and no liquidity row is settled again (`PoisonBlocksEveryBoot`). The store and the executor accept such
  a row (`PoisonExists`; a missing minimum is read as zero), but the proposal schema and the risk engine do not: a swap
  needs a positive amount, a quote with a minimum its slippage limit accepts, and prices above zero. While every row in
  flight was allowed on those terms no pass throws and a boot settles in any order (`DecidedTablesSettle`). The swap
  pass ends exactly when no such row is listed (`SwapPassEndsIff`), the liquidity pass exactly when it meets no
  confirmed removal of zero tokens from a held position (`LpPassEndsIff`).
- A comment at the swap reconciler says the two run safely in either order, one at the liquidity reconciler that it must
  run first. The passes themselves commute, thrown or not (`DesksCommute`). A boot stops at the first throw, and the
  services start the swap pass first, so there the order matters exactly when a poisoned swap row is listed and some
  liquidity row would end, or the liquidity pass meets a removal of nothing and some swap row before any poisoned one
  would move (`BootOrderMattersIff`; `BootOrderMatters` is a table where it does).
- A stop whose process dies between its mode write and its checklist reset keeps recordings that later activate LIVE
  (`TornStopKeepsChecklist`). A later switch to LIVE rests on a recording older than a stop, torn or whole, if and only
  if the stop died before its reset, no other reset landed since and some step was not recorded again
  (`StopIsOutlivedIff`). An activation and a boot that both die after their mode write let one set of
  recordings serve two activations (`TornActivationSharesRecordings`). Two activations share a recording if and only if
  no reset landed from the first to the second and some step was not recorded again (`SharedIff`); an activation that
  dies after its mode write is covered by the next boot that completes (`DemotionSpendsRecordings`).
- A COMMIT that throws decrements the nesting depth twice, and the next transaction is not atomic
  (`ThrownCommitBreaksAtomicity`). The depth is restored exactly when that does not happen (`DepthRestoredIff`). Each
  such COMMIT costs one more level, without bound (`AnyDepthIsReached`): with n levels lost, every program runs as it
  would on an intact handle with its outermost n levels of wrapping taken off (`LostLevelsRunUnwrapped`), so a write is
  undone exactly when more than n calls are wrapped around it (`UndoneIff`). A migration that breaks on such a handle
  keeps the statements it got through (`BrokenFileKeepsItsRows`).
- Halving removals close a position only in a pool where one base unit of the LP token is worth a unit of each asset;
  in every other pool the run ends in a refused, still open position (`HalvingClosesIff`).
- An object whose own text holds the closing fence is not read back (`FencedObject`). Among prose without braces an
  object comes back if and only if the reply holds no pair of fences or its first pair stands around the object
  (`ProseReplyIff`); a reply that is only an object, if and only if its text holds no pair (`WholeReplyIff`).
- A burn can return a profit at the new pool price once fees have grown the pool, but a grown product does not decide it
  (`GrownProductDoesNotDecide`). No deposit gains if and only if the old reserves are worth at least the new ones at the
  new pool price (`ImpermanentLossIff`).

## Model

| member | source | states |
|---|---|---|
| Trades.TradeStore.Transition | runtime/src/trading/trades.ts:273-304 | a transition outside the table throws and changes nothing; any other changes the status of that row alone |
| Trades.TradeStore.MarkSigned | runtime/src/trading/trades.ts:194-196 | the hash is written in the same statement as the move to signed, and only with it |
| Trades.TradeStore.ListInFlight | runtime/src/trading/trades.ts:264-270 | lists the rows of `InFlightIds` |
| Trades.InFlightIdsAre | runtime/src/trading/trades.ts:264-270 | that list holds exactly the dispatched, signed and broadcast rows, each once, oldest first |
| Trades.EveryMoveAdvances | runtime/src/trading/trades.ts:38-48 | every legal move goes to a later stage and leaves all other rows alone, so a terminal row never moves |
| Trades.WaysIn | runtime/src/trading/trades.ts:38-48 | the only ways into each state: filled from dispatch on paper or from broadcast, failed from anything in flight |
| StateStore.Store.constructor | runtime/src/core/state.ts:108-134 | a process that finds LIVE comes up in PAPER with an empty checklist |
| StateStore.Store.SetGlobalPause | runtime/src/core/state.ts:248-253 | moves the pause switch and nothing else |
| StateStore.Store.SetEmergencyStop | runtime/src/core/state.ts:294-307 | engaging drops to PAPER and clears the checklist; clearing restores neither |
| StateStore.Store.RecordActivationStep | runtime/src/core/state.ts:368-372 | the step counts as recent from now on |
| StateStore.Store.ActivateLive | runtime/src/core/state.ts:392-415 | succeeds if and only if neither switch is engaged and every step has a recording at most 600 000 ms old; consumes the steps; a throw changes nothing |
| StateStore.Store.RevertToPaper | runtime/src/core/state.ts:431-434 | always lands in PAPER with an empty checklist |
| StateStore.Prefixes | runtime/src/core/state.ts:294-307 | the database a death leaves after any number of an operation's statements |
| StateStore.BootPrefixes | runtime/src/core/state.ts:123-131 | the same for the demotion at boot |
| StateStore.LandedLeaves | runtime/src/core/state.ts:294-434 | that database in full: a stop engages its switch, then drops the mode, then clears the checklist; an activation switches, then consumes the steps, then stamps itself |
| StateStore.BootLeaves | runtime/src/core/state.ts:123-131 | and for a boot that finds LIVE: PAPER first, then an empty checklist |
| StateStore.SafeStep | runtime/src/core/state.ts:294-434 | every event, torn or whole, keeps: a running process under a stop is in PAPER, and LIVE has an activation stamp |
| StateStore.RecordedStep | runtime/src/core/state.ts:392-415 | every event keeps: each switch to LIVE had six recordings of the last ten minutes, newer than the last reset; one that reached its own reset shares none with a later one (`SharedIff` has the general case) |
| StateStore.EveryRun | runtime/src/core/state.ts:123-434 | the invariants of `SafeStep` and `RecordedStep` hold at every reachable state |
| StateStore.LiveAfter | runtime/src/core/state.ts:392-428 | a process is LIVE after an event only by a whole activation or by having been LIVE through a quiet one |
| StateStore.SwitchIsLogged | runtime/src/core/state.ts:392-415 | the activations these laws speak of are the switches to LIVE: an event is logged exactly when it leaves a PAPER database LIVE |
| StateStore.LiveMeansSession | runtime/src/core/state.ts:392-428 | a LIVE process is inside a session: an activation with six recent steps and no stop, revert or death since |
| StateStore.SharedIff | runtime/src/core/state.ts:123-434 | two switches to LIVE share a recording if and only if no reset landed from the first to the second and some step was not recorded again in between |
| StateStore.OlderRecordingIff | runtime/src/core/state.ts:123-434 | a switch to LIVE rests on a recording older than an earlier event if and only if no reset landed from that event on and some step was not recorded from it on |
| StateStore.ResetStartsOver | runtime/src/core/state.ts:146-154 | after any reset, by whatever operation or boot, switches to LIVE rest on recordings made after it and share none with earlier ones |
| StateStore.StopIsOutlivedIff | runtime/src/core/state.ts:294-307 | a later switch to LIVE rests on a recording older than a stop, torn or whole, if and only if the stop died before its reset, no other reset landed since and some step was not recorded again |
| StateStore.StopRestartsChecklist | runtime/src/core/state.ts:294-307 | in particular, after a completed stop every later switch to LIVE rests on recordings made after it |
| StateStore.DemotionSpendsRecordings | runtime/src/core/state.ts:123-131 | an activation that died after its mode write shares no recording with any later one, once a boot completed its demotion |
| StateStore.ChecklistCanBeWalked | runtime/src/core/state.ts:368-415 | the checklist can be walked from a fresh database, so the two torn runs below start from reachable states |
| StateStore.ActivatesIff | runtime/src/core/state.ts:340-415 | over every run: an activation of an installed, running process reaches LIVE if and only if no switch is engaged and each step was recorded at most ten minutes ago with no reset since, and changes nothing otherwise |
| StateStore.TornStopKeepsChecklist | runtime/src/core/state.ts:294-307 | a stop that dies before its reset keeps recordings that then activate LIVE |
| StateStore.TornActivationSharesRecordings | runtime/src/core/state.ts:392-415 | two deaths after mode writes let one set of recordings serve two activations |
| LiveProtocol.StepKeeps | runtime/src/execution/live.ts:123-660 | every event, deaths between any two durable writes included, keeps the invariant that ties rows, executions, signatures, broadcasts, chain and bookings together |
| LiveProtocol.EveryRun | runtime/src/execution/live.ts:123-660 | the invariant holds at every reachable state |
| LiveProtocol.RowsAgreeWithChain | runtime/src/execution/live.ts:208-301 | everything broadcast is named by its own row; no row is failed while its transaction is confirmed; filled means confirmed; signed and broadcast rows have a hash |
| LiveProtocol.OneSignaturePerRow | runtime/src/execution/live.ts:310-467 | across restarts a row gets at most one signature, each in LIVE with no switch engaged, within the approved fee (rounded up to a lamport on Solana) and to the approved contract, or for an approval alone to its token, letter case aside |
| LiveProtocol.BookedExactly | runtime/src/execution/live.ts:585-660 | how often each row's fill was entered, as an equality over deaths, lost and empty fills; at most once if and only if no death fell between entry and mark, or a single one did and no entry followed it: for a swap because the row was never filled, for a liquidity row also because the last entry was lost or empty |
| LiveProtocol.ControlIsTrace | runtime/src/execution/live.ts:349-356 | the switches the executors read are a run of the state store, deaths included |
| LiveProtocol.WhoSigns | runtime/src/execution/live.ts:372-449 | only an execution that was about to sign and got a prepared transaction adds a signature, with the switches as they stand at that moment |
| LiveProtocol.SigningIsInSession | runtime/src/liquidity/live.ts:318-402 | every use of the key is LIVE, not stopped, not paused, and inside an activation session, whatever moved during the awaits |
| LiveEffects.StartLeaves | runtime/src/execution/live.ts:123-150 | a start outside LIVE or under a switch changes nothing; otherwise the row is dispatched, a swap with its prices on disk first |
| LiveEffects.AnswerLeaves | runtime/src/execution/live.ts:151-533 | the state every other answer leaves: failed before the key, left for the reconciler after it, failed once broadcast only by a revert |
| LiveEffects.KeyIsUsedIff | runtime/src/execution/live.ts:372-471 | the key is used if and only if the switches pass at that moment, the fee and the target or programs are the approved ones and the vault answers; then hash, row and broadcast follow in order, and otherwise the row fails unsigned |
| LiveEffects.ConfirmedSwapLeaves | runtime/src/execution/live.ts:585-660 | a confirmed swap is entered and filled, filled without a line when unpriced, or left open when the receipt or, if it is silent, the quote gives nothing to book |
| LiveEffects.ConfirmedLpLeaves | runtime/src/liquidity/live.ts:517-705 | a confirmed add raises its pool by the receipt's mint, or else the quote's minimum; a removal lowers it by the row's burn; every other pool stays, and what is refused leaves the row open |
| LiveEffects.UnconfirmedLeaves | runtime/src/execution/live.ts:217-296 | at boot an unsigned or reverted row fails and one without a final answer stays |
| LiveEffects.SwapAtBootLeaves | runtime/src/execution/live.ts:297-299 | at boot a confirmed swap is entered then filled, filled without a line, or left open when the ledger refuses it |
| LiveEffects.LpAtBootLeaves | runtime/src/liquidity/live.ts:750-802 | at boot a confirmed liquidity row is filled, then its pool moves by the receipt's mint or the row's burn, and nothing stands in for a missing mint |
| LiveEffects.PositionsAreAddsLessRemovals | runtime/src/liquidity/live.ts:517-802 | over every run a pool's position is the tokens adds entered less the tokens removals entered, and none of zero is kept |
| LiveOutcomes.FilledIsFinal | runtime/src/execution/live.ts:208-301 | over every later run a filled row stays as it is, with the same number of entries |
| LiveOutcomes.PlansStay | runtime/src/risk/types.ts:183-216 | over every run only the state, hash and prices of a row change, and every liquidity row keeps its pool, its burn and its minimum |
| LiveOutcomes.LpFillIsEnteredIff | runtime/src/liquidity/live.ts:517-802 | the event that fills a liquidity row enters its fill if and only if the row, receipt and position give it something to enter and no death falls between mark and entry |
| LiveOutcomes.SettleIsThePassStep | runtime/src/execution/live.ts:217-299 | settling a row without a death is what the reconcilers' pass does with it: same table, positions and number of entries |
| LiveOutcomes.DyingBooksTwice | runtime/src/execution/live.ts:637-660 | wherever a run stands before booking a priced swap, a death between ledger and mark enters the fill twice by the end of the next boot |
| LiveOutcomes.TornFillBooksTwice | runtime/src/execution/live.ts:123-660 | a run from the initial state, through checklist, activation, signing and landing, that ends with one filled row entered twice |
| LiveOutcomes.TornAddCountsTwice | runtime/src/liquidity/live.ts:517-705 | a run from the initial state that ends with one filled add whose tokens the position counts twice |
| LiveOutcomes.TornLpFillIsLost | runtime/src/liquidity/live.ts:750-802 | from any reachable row that is owed an entry at boot, a death between mark and entry fills it, and no later event of any run enters it |
| LiveOutcomes.OwedIsReached | runtime/src/liquidity/live.ts:119-160 | a run from the initial state reaches such a row |
| LiveOutcomes.StaleDecisionIsSafeIff | runtime/src/execution/live.ts:217-300 | deciding on a row as listed earlier is safe exactly unless it was dispatched then and has been signed and broadcast since, with a fate that is not a revert |
| LiveExecutor.Executor.FailTrade | runtime/src/execution/live.ts:692-705 | marks the row failed and swallows a conflict |
| LiveExecutor.Executor.Execute | runtime/src/execution/live.ts:123-150 | refuses off LIVE, otherwise stores the prices and dispatches, with room for a death in between |
| LiveExecutor.Executor.SignAndSend | runtime/src/execution/live.ts:372-421 | the key is used only if switches, fee and target or programs pass again; any one that does not fails the row |
| LiveExecutor.Executor.UseKey | runtime/src/execution/live.ts:421-471 | the hash is on disk before the bytes are handed over, at any death |
| LiveExecutor.Executor.BookAndMark | runtime/src/execution/live.ts:637-660 | ledger first, mark second |
| LiveExecutor.Executor.BookFill | runtime/src/execution/live.ts:585-660 | approvals book nothing, liquidity fills go to the LP store, swaps to the ledger when priced; a refusal leaves the row open |
| LiveExecutor.Executor.MarkAndBook | runtime/src/liquidity/live.ts:750-802 | mark first, position second |
| LiveExecutor.Executor.Resume | runtime/src/execution/live.ts:151-533 | what every await's answer leads to: next step, failure, or a row left for the reconciler |
| LiveExecutor.Executor.Settle | runtime/src/execution/live.ts:217-300 | one row at boot, by the chain's answer, with room for a death after each write |
| LiveExecutor.Executor.Handle | runtime/src/execution/live.ts:123-660 | one event of the executor equals one step of the protocol |
| LiveExecutor.Live | runtime/src/execution/live.ts:123-660 | any sequence of events driven through the executor ends in that run's state, with the invariant |
| Reconcile.Ledger.RecordFill | runtime/src/trading/ledger.ts:184-197 | throws before writing exactly when a fill moves nothing or has no price; appends otherwise |
| Reconcile.LpStore.BookAdd | runtime/src/liquidity/store.ts:353-407 | adds the minted tokens; refuses an add that minted nothing |
| Reconcile.LpStore.BookRemove | runtime/src/liquidity/store.ts:419-470 | refuses to burn nothing, more than is held or without a position; deletes an emptied position |
| Reconcile.SwapReconciler.BookFill | runtime/src/execution/live.ts:585-660 | books and fills, or throws and changes nothing when the ledger refuses; the line holds the receipt's amount whenever it reports one, and the quote's minimum only when it does not |
| Reconcile.SwapReconciler.SettleRow | runtime/src/execution/live.ts:217-299 | row, ledger, report and throw of one settled row |
| Reconcile.SwapReconciler.Reconcile | runtime/src/execution/live.ts:208-301 | the loop over the listed rows computes `Reconciled`, report included |
| Reconcile.LpReconciler.BookReconciled | runtime/src/liquidity/live.ts:750-802 | fills the row, then moves the position by what was minted or burned when that can be booked |
| Reconcile.LpReconciler.SettleRow | runtime/src/liquidity/live.ts:224-278 | row, positions, report and throw of one settled row |
| Reconcile.LpReconciler.Reconcile | runtime/src/liquidity/live.ts:221-279 | the loop computes `Reconciled` for the liquidity desk |
| Reconcile.PassRows | runtime/src/execution/live.ts:217-300 | a pass that ends fails the rows that were never signed or reverted, fills the confirmed ones, leaves the rest of its desk, and touches no other row |
| Reconcile.ForDeskIff | runtime/src/liquidity/live.ts:224-240 | which rows each desk settles: liquidity actions and approvals for them on one side, all other rows in flight on the other |
| Reconcile.JudgeIff | runtime/src/execution/live.ts:217-299 | which rows are abandoned, reverted and confirmed |
| Reconcile.OneFill | runtime/src/execution/live.ts:605-650 | exactly which fills the ledger refuses, and the one line of every other |
| Reconcile.UptoLedgers | runtime/src/liquidity/live.ts:224-278 | a pass writes only its own desk's ledger |
| Reconcile.UptoFrame | runtime/src/liquidity/live.ts:224-278 | a pass depends only on its own desk's rows and ledger: tables that agree on those give it the same report, throw and entries |
| Reconcile.UptoFills | runtime/src/execution/live.ts:637-650 | the ledger grows by one line for each confirmed, priced row that is no approval, in row order, with the receipt's amount or, if it is silent, the quote's minimum |
| Reconcile.UptoReport | runtime/src/execution/live.ts:208-301 | each counter is the number of listed rows with that verdict |
| Reconcile.ReportBalances | runtime/src/execution/live.ts:208-301 | checked = filled + failed + still pending |
| Reconcile.OtherDeskUnaffected | runtime/src/liquidity/live.ts:224-240 | a pass of one desk, thrown or not, changes neither the rows nor the outcome of the other |
| Reconcile.DesksCommute | runtime/src/liquidity/live.ts:216-240 | the desks split the in-flight rows, and both orders give the same rows, ledgers, reports and throws, thrown or not |
| Reconcile.PassChangesIff | runtime/src/execution/live.ts:208-301 | a pass changes the books if and only if it gets to a row it does not leave as it is |
| Reconcile.BootOrderMattersIff | runtime/src/core/services.ts:403-424 | the order of the two passes matters at a boot exactly when a poisoned swap row is listed and some liquidity row would end, or the liquidity pass meets a removal of nothing and some swap row with no poisoned one before it would move |
| Reconcile.BootOrderMatters | runtime/src/core/services.ts:403-424 | a table where it does: a poisoned swap row and a liquidity row that died before it was signed |
| Reconcile.LpChangesIff | runtime/src/liquidity/live.ts:224-278 | the liquidity pass changes something if and only if it lists a row whose answer is not to wait |
| Reconcile.DecidedTablesSettle | runtime/src/risk/types.ts:166-262 | while every row in flight was allowed with a positive amount, minimum, prices and burn, no pass throws and a boot ends the same in either order |
| Reconcile.SecondPassIsIdle | runtime/src/execution/live.ts:208-301 | a second pass over an unchanged chain changes nothing and checks exactly the rows left pending |
| Reconcile.SwapPassEndsIff | runtime/src/execution/live.ts:625-653 | the swap pass throws if and only if it lists a poisoned row |
| Reconcile.LpPassEndsIff | runtime/src/liquidity/live.ts:783-802 | the liquidity pass throws if and only if it meets a confirmed removal of zero tokens from a pool that then has a position |
| Reconcile.PoisonBlocksEveryBoot | runtime/src/core/services.ts:403-424 | with one poisoned row, at every boot and with any other answers of the chain, the swap pass throws, no later swap row and no liquidity row is settled, and no position moves |
| Reconcile.PoisonExists | runtime/src/execution/live.ts:625-653 | a confirmed swap without a reported amount or a quoted minimum, which the store and the executor accept, is such a row |
| PairMath.MintCovered | runtime/src/liquidity/paper.ts:171-174 | what a mint claims of either reserve is covered by the deposit of that asset |
| PairMath.MintedIff | runtime/src/liquidity/paper.ts:171-174 | the mint is the largest amount whose claim on both reserves the deposit covers |
| PairMath.ShareIff | runtime/src/liquidity/paper.ts:283-285 | a burn returns the largest amount covered by its part of the reserve |
| PairMath.AddThenBurn | runtime/src/liquidity/paper.ts:171-285 | burning at once what an add minted returns no more of either asset than went in |
| PairMath.ImpermanentLossIff | runtime/src/liquidity/paper.ts:171-285 | no deposit gains by a full burn at moved reserves, valued at the new pool price and floors included, if and only if the old reserves are worth at least the new ones there |
| PairMath.ImpermanentLoss | runtime/src/liquidity/paper.ts:171-285 | in particular when the product did not grow |
| PairMath.GrownProductDoesNotDecide | runtime/src/liquidity/paper.ts:283-285 | with a grown product every deposit can still lose, or one can gain |
| PairMath.RemovalsClose | runtime/src/liquidity/proposal.ts:256-261 | halving takes exactly ceil(log2 n) + 1 removals, which burn n in all |
| PairMath.QuotedIff | runtime/src/liquidity/proposal.ts:274-280 | a removal is quoted, not dust, exactly when its share of both reserves is at least one unit |
| PairMath.HalvingClosesIff | runtime/src/liquidity/proposal.ts:256-280 | halving with the dust refusal closes a position if and only if both reserves are at least the supply |
| Valuation.TvlWithinRounding | runtime/src/liquidity/proposal.ts:529-540 | the TVL is what the reserves are worth, short by less than two micro-USD, and refused exactly without a price or with unsupported decimals |
| Valuation.PositionWithinRounding | runtime/src/liquidity/proposal.ts:553-567 | a position is worth its part of both reserves, short by less than two micro-USD and one base unit of each |
| Valuation.MicrosBounds | runtime/src/risk/money.ts:96-115 | a micro-USD value is the exact one rounded to the side asked for |
| Valuation.PositionMonotone | runtime/src/liquidity/proposal.ts:553-567 | a larger position is never worth less |
| Valuation.SplittingNeverGains | runtime/src/liquidity/proposal.ts:553-567 | splitting a position never raises its total value |
| Valuation.PositionWithinTvl | runtime/src/liquidity/proposal.ts:529-567 | a position within the supply is worth at most the pool |
| Valuation.SupplyWorth | runtime/src/liquidity/proposal.ts:570-575 | the supply at the derived price is worth at most the TVL, and less than one rounding short of it |
| Valuation.DeviationPassesIff | runtime/src/liquidity/proposal.ts:182-191 | a pool passes limit L if and only if both sides can be valued and (high - low) * 10000 <= L * low; with a worthless side, only from 10000 on |
| Valuation.CeilAtMost | runtime/src/liquidity/proposal.ts:543-550 | the rounded-up quotient is within a limit exactly when the exact one is |
| Valuation.ParsePrint | runtime/src/risk/money.ts:60-66 | rendering an integer gives a part the parser accepts and reads back |
| Valuation.PriceRoundTrip | runtime/src/liquidity/proposal.ts:578-582 | the rendered price parses back to the same atto value |
| Valuation.PriceFormIff | runtime/src/risk/money.ts:22-75 | a price string is accepted exactly when it is digits without a leading zero, alone or with a dot and one to eighteen digits |
| Valuation.PriceIsItsDigits | runtime/src/risk/money.ts:69-75 | it is worth its whole part and its digits after the dot, in atto-USD |
| PaperLp.CostReleased | runtime/src/liquidity/store.ts:440 | the released basis is the smallest amount that covers the burned share of it, and all of it when everything is burned |
| PaperLp.PaperLpExecutor.AdjustPaper | runtime/src/liquidity/paper.ts:376-391 | a balance moves by the delta, or throws before it would go negative |
| PaperLp.PaperLpExecutor.BookAdd | runtime/src/liquidity/store.ts:353-407 | opens or grows a position at what was paid |
| PaperLp.PaperLpExecutor.BookRemove | runtime/src/liquidity/store.ts:419-470 | shrinks or deletes it, releasing the cost of the share |
| PaperLp.PaperLpExecutor.AddWrites | runtime/src/liquidity/paper.ts:192-223 | the writes of an add succeed together exactly when both debits are covered and something was minted |
| PaperLp.PaperLpExecutor.Add | runtime/src/liquidity/paper.ts:152-223 | mints the largest amount the deposit backs and writes everything, or changes nothing |
| PaperLp.PaperLpExecutor.Remove | runtime/src/liquidity/paper.ts:268-328 | returns the largest amounts the burn covers and writes everything, or changes nothing |
| PaperLp.PaperLpExecutor.Fail | runtime/src/liquidity/paper.ts:393-399 | marks the row failed, or leaves it where that is illegal |
| PaperLp.PaperLpExecutor.Execute | runtime/src/liquidity/paper.ts:96-150 | an execution that does not fill leaves balances, positions and results unchanged; the row ends filled exactly when the book was written |
| PaperLp.AddFillsIff | runtime/src/liquidity/paper.ts:162-223 | exactly when an add fills: reserves, prices, a deposit that backs one LP token and the quoted minimum, both debits covered |
| PaperLp.RemoveFillsIff | runtime/src/liquidity/paper.ts:278-328 | exactly when a removal fills: supply, prices, a burn that covers both minimums, a position that holds it |
| PaperLp.Moved | runtime/src/liquidity/paper.ts:192-311 | what a fill moves at a pool, and that it moves nothing at another |
| PaperLp.NothingFromNothing | runtime/src/liquidity/paper.ts:162-328 | over any run against standing reserves, balance * supply + lp * reserve never grows for either asset |
| PaperLp.FillIsRecorded | runtime/src/liquidity/paper.ts:206-326 | every fill leaves one result row with its fee rounded up, its proceeds and its released cost, an exit exactly when the position is gone; a failure leaves the book as it was |
| PaperLp.BookStep | runtime/src/liquidity/paper.ts:206-326 | each execution moves basis, released cost and proceeds by what it paid and got |
| PaperLp.BasisConserved | runtime/src/liquidity/store.ts:353-470 | over any run, basis plus everything released equals what was paid in |
| PaperLp.AverageCostNeverRises | runtime/src/liquidity/store.ts:437-470 | a removal never raises the booked cost, nor the carried amounts, per remaining LP token |
| PaperLp.RemovalIsProportional | runtime/src/liquidity/store.ts:437-470 | what a removal leaves, exactly: the remaining share of both carried amounts, rounded down, and the basis less the smallest cover of the burned share |
| PaperLp.HalvingClosesThePosition | runtime/src/liquidity/proposal.ts:256-261 | filled REMOVE_LIQUIDITY executions delete an n-token position with exactly the (ceil(log2 n) + 1)-th, and stop there |
| PaperLp.NoProfitWhileNothingMoves | runtime/src/liquidity/paper.ts:183-326 | with reserves and prices standing still, no run that starts and ends without the position realizes a profit before fees |
| JsonScanner.ExtractJsonObject | runtime/src/llm/provider.ts:442-475 | the loop computes `Extract` |
| JsonScanner.ExtractIsShortestBalanced | runtime/src/llm/provider.ts:436-475 | on every text: the shortest prefix from the first brace whose braces outside strings cancel, or nothing exactly when there is none |
| JsonScanner.ValuePasses | runtime/src/llm/provider.ts:442-475 | every printed JSON value leaves the scanner as it found it and never below its level |
| JsonScanner.PrintedObjectIsExtracted | runtime/src/llm/provider.ts:442-475 | after any text without a brace and before any text, exactly the printed object is returned |
| JsonScanner.CutObjectIsNotExtracted | runtime/src/llm/provider.ts:442-475 | an object cut short is never extracted |
| JsonScanner.FencedIsThePreferredMatch | runtime/src/llm/provider.ts:436-439 | the fence found is the regular expression's match: leftmost, greedy introduction, lazy body; none exactly when nothing matches |
| JsonScanner.StripFenceIsCore | runtime/src/llm/provider.ts:436-439 | which characters count as spaces or fold to the tag never changes what is extracted |
| JsonScanner.StripUndoesFencing | runtime/src/llm/provider.ts:436-439 | stripping takes exactly the fences, a tag and spaces put around a text that holds none |
| JsonScanner.TrimChangesNothing | runtime/src/llm/provider.ts:407 | trimming the reply never changes what is extracted |
| JsonScanner.ParseStructured | runtime/src/llm/provider.ts:406-415 | the runtime's reading is the extraction of the text between the fences |
| JsonScanner.ParseReply | model/atra-4b/evaluate.py:524-562 | the evaluator's reading is the same one |
| JsonScanner.FencedObject | runtime/src/llm/provider.ts:436-475 | a fenced object comes back if and only if its own text holds no fence, and otherwise nothing does; what stands before its opening fence does not matter as long as it holds no fence |
| JsonScanner.ObjectAmongFences | runtime/src/llm/provider.ts:406-475 | by where the first pair of fences stands: none, the object is read; opened before it, the object is read whole or not at all; opened after its brace, another brace after the object is needed to read the same text |
| JsonScanner.ProseReplyIff | runtime/src/llm/provider.ts:406-475 | an object among prose without opening braces comes back if and only if no pair of fences is found, or the first pair stands around it |
| JsonScanner.WholeReplyIff | runtime/src/llm/provider.ts:406-475 | a reply that is one object is read back if and only if its own text holds no fence followed by another |
| Throttle.AuthService.BeginAttempt | runtime/src/core/auth.ts:126-152 | refuses exactly while locked, and then changes nothing; otherwise counts the attempt before any check |
| Throttle.AuthService.RecordSuccess | runtime/src/core/auth.ts:154-156 | a success clears count and lock |
| Throttle.RecentAre | runtime/src/core/auth.ts:136 | a failure counts exactly while it is less than fifteen minutes old |
| Throttle.FifthLocks | runtime/src/core/auth.ts:136-151 | an admitted attempt locks for five minutes exactly when four checks of the last fifteen minutes stand before it |
| Throttle.ThrottledRun | runtime/src/core/auth.ts:126-152 | within one lockout period: at most four checks, all still counted, or five and a lock past its end |
| Throttle.FivePerLockout | runtime/src/core/auth.ts:44-152 | from any stored row, over any interleaving and restarts, five minutes without a success admit at most five checks |
| Throttle.FivePerLockoutOver | runtime/src/core/auth.ts:44-152 | an interval of length T without a success admits at most 5 * ceil(T / 5 min) |
| Throttle.AtMostFourStored | runtime/src/core/auth.ts:136-151 | the stored list never holds more than four entries, none beside a lock |
| Throttle.TrimmingChangesNothing | runtime/src/core/auth.ts:136-151 | trimming the list at every attempt decides exactly as an untrimmed log of all checks would |
| Throttle.FifthCheckLocksIff | runtime/src/core/auth.ts:126-151 | over every run, an attempt that is let through locks if and only if four checks since the last success or lockout are less than fifteen minutes old |
| Throttle.NoLockUnderFive | runtime/src/core/auth.ts:138-140 | nobody is locked out by fewer than five checks since the last success |
| Transactions.Database.Transaction | runtime/src/db/database.ts:149-173 | depth, BEGIN, COMMIT, ROLLBACK and the rethrow, as `Exec` gives them |
| Transactions.Database.Migrate | runtime/src/db/database.ts:209-248 | each pending file whole or not at all, in order, up to the one that throws; a whole pass returns exactly the names that are done now and were not before |
| Transactions.InsideIsFlat | runtime/src/db/database.ts:149-173 | a nested call only adds its writes: depth, transaction and commands are left alone |
| Transactions.OutsideIsAtomic | runtime/src/db/database.ts:149-173 | over every call tree with throws and catches, nested transactions refine one atomic level and restore the depth |
| Transactions.CmdsArePaired | runtime/src/db/database.ts:149-173 | every BEGIN is answered by exactly one COMMIT or ROLLBACK |
| Transactions.SecondBeginThrows | runtime/src/db/database.ts:149-173 | a BEGIN inside a transaction throws and changes nothing |
| Transactions.EscapingThrowRestores | runtime/src/db/database.ts:149-173 | a call throws exactly when its body or its COMMIT does, and then the prior database is back |
| Transactions.CaughtInnerThrowKeepsWrites | runtime/src/db/database.ts:149-173 | an inner throw caught by the outer body keeps the inner writes |
| Transactions.DepthFallsByThrownCommits | runtime/src/db/database.ts:149-173 | any body lowers the depth by exactly one for each COMMIT that threw |
| Transactions.DepthRestoredIff | runtime/src/db/database.ts:149-173 | one call restores the depth if and only if its COMMIT did not throw |
| Transactions.LostLevelsRunUnwrapped | runtime/src/db/database.ts:149-173 | with n levels lost, any program does exactly what it would do on an intact handle without its outermost n levels of wrapping, whatever its own COMMITs answer |
| Transactions.LostLevelsAreAtomicBelow | runtime/src/db/database.ts:149-173 | while the COMMITs below those levels hold, the database, throw and commands are those of the calls below them, each whole or not at all |
| Transactions.ThrownCommitLosesALevel | runtime/src/db/database.ts:149-173 | with one level lost, a wrapped body runs as if it were not wrapped |
| Transactions.AnyDepthIsReached | runtime/src/db/database.ts:149-173 | thrown COMMITs take a new handle to every depth below zero, with nothing written |
| Transactions.UndoneIff | runtime/src/db/database.ts:149-173 | with n levels lost, a write followed by a throw is undone if and only if more than n calls are wrapped around it |
| Transactions.ThrownCommitBreaksAtomicity | runtime/src/db/database.ts:149-173 | so from a new handle, for every n, a write inside n calls that throw can be kept |
| Transactions.RerunsReachTheUnbrokenRun | runtime/src/db/database.ts:209-248 | however many attempts broke, wherever, each on a newly opened handle, the first unbroken pass reaches the database of a single unbroken run |
| Transactions.BrokenFileKeepsItsRows | runtime/src/db/database.ts:209-248 | on the same handle after any number of thrown COMMITs, a file that breaks keeps the statements it got through, unrecorded |
| Pairing.PairingStore.StorePairOffer | gateway/src/pairing.ts:47-72 | withdraws the installation's own unused codes, clamps to ten minutes, and refuses a hash another installation has on offer |
| Pairing.PairingStore.ConsumePairCode | gateway/src/pairing.ts:80-93 | redeems an unused, unexpired code once, for its row's installation |
| Pairing.PairingStore.LinkTelegram | gateway/src/pairing.ts:145-174 | links, and unlinks and returns the user's other installations |
| Pairing.PairingStore.UnlinkInstall | gateway/src/pairing.ts:177-183 | removes the link and the unused codes |
| Pairing.PairingStore.PurgeStale | gateway/src/pairing.ts:186-198 | keeps exactly the unused codes that expired at most a day ago or not yet |
| Pairing.PairingStore.Pair | gateway/src/webhook.ts:164-208 | limited, malformed, unknown, refused or paired, with the state each leaves |
| Pairing.CodesAreBacked | gateway/src/pairing.ts:47-93 | an unused code is the last accepted offer of its hash, unredeemed, with at most ten minutes to live |
| Pairing.RedeemedOnceByTheLastOfferer | gateway/src/pairing.ts:47-93 | each accepted offer is redeemed at most once, for the installation that offered the hash last, within ten minutes |
| Pairing.EveryRun | gateway/src/pairing.ts:47-183 | at every reachable state an installation has at most one unused code and a user at most one installation |
| Pairing.OfferStays | gateway/src/pairing.ts:62-68 | a code on offer never moves to another installation, and goes only by its own installation's offer or unlink |
| Pairing.OfferLeaves | gateway/src/pairing.ts:47-72 | an offer takes only its own installation's unused codes, is refused exactly while another installation has the code on offer, and lives at most ten minutes |
| Pairing.OfferIsRedeemable | gateway/src/pairing.ts:47-93 | an accepted offer stays redeemable for its installation to its end, through any events but its redemption and its installation's own next offer or unlinking |
| Pairing.PurgeTakesNoOffer | gateway/src/pairing.ts:186-198 | purging takes nothing that could still be redeemed |
| Pairing.UnlinkLeaves | gateway/src/pairing.ts:177-183 | unlinking takes the link and the unused codes of that installation and nothing else |
| Pairing.PairedIff | gateway/src/webhook.ts:164-208 | exactly when a pairing succeeds, is refused or fails, and the links, chat and codes each leaves |
| Pairing.NoDirectTakeover | gateway/src/webhook.ts:196-208 | an installation that passes from one user to another was unlinked in between |
| Pairing.LinkedOnlyByOwnOffer | gateway/src/webhook.ts:187-208 | a link appears only by a code the installation itself offered last, within ten minutes, for a user who then drives it alone |
| Pairing.DisplacedIsExact | gateway/src/pairing.ts:151-171 | displaced is exactly the set of installations that lost their link; no other link changes |
| Pairing.SpentUntilOfferedAgain | gateway/src/pairing.ts:47-93 | a redeemed code stays unredeemable over any run in which no new offer of it is accepted |
| Pairing.RefusalSpendsTheCode | gateway/src/webhook.ts:187-204 | a refused pairing changes no link, and nobody redeems that code in any later run until it is offered again |
| HubBudget.HubSocket.Charge | gateway/src/hub.ts:677-699 | the charge is written back before anything else, and a breach closes the socket |
| HubBudget.HubSocket.WebSocketMessage | gateway/src/hub.ts:259-293 | what a message leaves in the attachment, the hello write included |
| HubBudget.Spent | gateway/src/hub.ts:173-205 | what a charge of one kind does to the window and count of any kind; exactly 60 frames and 5 offers a minute and 30 notifies an hour pass |
| HubBudget.EveryMessageIsOneFrame | gateway/src/hub.ts:259-293 | the frame charges of a run are its messages, one each; notifies and offers are charged at most once per such message |
| HubBudget.MessageIsChargedAs | gateway/src/hub.ts:259-293 | the charges of one message in full, and what it leaves: greeted exactly by a hello that passes, open exactly while every charge passes |
| HubBudget.UnknownSocketCloses | gateway/src/hub.ts:259-264 | a message on a socket without an attachment closes it uncharged |
| HubBudget.GreetedIsChargedOnce | gateway/src/hub.ts:259-293 | over every run notifies and offers are charged exactly once each when the socket is greeted and the frame passes, and never else |
| HubBudget.NoChargeIsLost | gateway/src/hub.ts:259-293 | each counter is exactly the number of charges since its window began, and exactly the first cap of them passed |
| HubBudget.TwiceTheCapPerWindow | gateway/src/hub.ts:173-205 | any half-open minute admits at most 120 frames and 10 offers, any half-open hour at most 60 notifies |
| HubBudget.OpenMeansNeverRefused | gateway/src/hub.ts:677-699 | the first refused charge closes the socket for good |
| HubSockets.HubObject.CloseSockets | gateway/src/hub.ts:231-237 | closes every socket of the installation and no other |
| HubSockets.HubObject.EnsureAlarm | gateway/src/hub.ts:701-706 | sets the alarm only when none is pending |
| HubSockets.HubObject.Fetch | gateway/src/hub.ts:222-247 | supersedes, accepts, ensures the alarm |
| HubSockets.HubObject.Alarm | gateway/src/hub.ts:333-360 | closes exactly the stale and the silent, and sets the alarm again exactly when a socket stays open |
| HubSockets.EveryRun | gateway/src/hub.ts:222-360 | whatever the clock does, an installation has at most one open socket and an open socket means a pending alarm |
| HubSockets.OpenAfterIff | gateway/src/hub.ts:222-360 | a socket stays open exactly through the events that spare it: none of its own installation's and no sweep it fails, by 120 s of silence or 30 s without a hello |
| HubSockets.SparedStaysOpen | gateway/src/hub.ts:222-360 | over any run a socket that every event spares is still open |
| HubSockets.AlarmAfterIff | gateway/src/hub.ts:333-360 | a sweep sets the alarm a minute ahead exactly when it leaves a socket open, a connection when none is pending |
| HubSockets.OpenMeansHeardFrom | gateway/src/hub.ts:333-360 | with the alarm on time, an open socket was heard from in the last 180 s, and within 90 s of connecting has said hello; a late alarm adds its lateness |
| HubSockets.QuietWithoutSockets | gateway/src/hub.ts:351-360 | from a moment with no open socket until the next connection, the alarm fires at most once and then none is pending |

## Left out

- LiveProtocol: a signature's hash is its position in the log, a fresh injective name; chain answers are final and truthful, and a receipt carries the hash it was asked for.
- LiveProtocol: one execution per row at a time, and only of allowed rows, as the caller's contract says; wallets, chain registry entries and audit writes do not throw.
- LiveProtocol: of LIVE liquidity fills only the change of the position is entered; amounts, cost basis, notes and P&L rows are not carried, and token decimals are taken as supported.
- LiveProtocol: `lp_rebalance` and `lp_claim` rows settle at boot without a position entry, as in the source.
- LiveExecutor: events of different executions interleave, so an execution is a program counter in a field and not a stack; the poll loop is one event per answer.
- StateStore: reason texts, audit rows, hooks, enabled chains and the setup flag.
- Reconcile: prices and amounts that are malformed strings; the ledger's own positions and P&L; decimals above 36.
- PaperLp: malformed price and amount strings, which fail an execution as a zero price does; audit rows, cooldowns and rebalance counters; one chain and protocol per pool key.
- Valuation: the risk engine, quotes, slippage bounds and the rest of the proposal builder.
- JsonScanner: `JSON.parse` and schema validation after extraction; text is a sequence of characters, so surrogate halves are not told apart; the regular expressions are described by what they match, not run.
- Throttle: a corrupt row is read as an empty one; `changePassword` verifies a password without asking the throttle, so it is outside these bounds; the session and token rows.
- Transactions: ROLLBACK is taken not to throw; SQL text that itself begins or commits a transaction; an unreadable migrations directory.
- Pairing: hashing and normalisation of codes (same code, same hash; distinct codes, distinct hashes); the rate limiter is a parameter; races between the statements of one pair call; update replay protection.
- HubBudget: its socket holds the budget and HubSockets' the liveness of one connection; the two never read each other's fields, and a socket closed for its budget is a `Gone` event there.
- HubBudget: a budget lives as long as its socket, so a reconnect starts a fresh one; what a handler does after its first await writes no attachment and is not a step.
- HubSockets: events run whole because the platform's gates hold others back during storage calls; closing a closing socket is taken not to throw; pending replies, quotas and broadcasts.
- Network, RPC, signing primitives, key derivation, Telegram, HTTP routes, the dashboard, training and evaluation metrics are not part of this model.
