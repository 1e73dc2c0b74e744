# MarketPilot trade-cost simulator: core model in Dafny

This project models the plain logic of the MarketPilot simulator page. It has four parts:

- **Depth ladder** (`DepthLadder`, `depth_ladder.dfy`). The order-book view keeps the first ten levels of each L2 book side. It adds running cumulative quantities in best-first order, shows the ask side reversed, and derives the mid price from the two best prices.
- **Maker/taker post-processing** (`MakerTaker`, `maker_taker.dfy`). This is the deterministic rule applied to the maker/taker estimator's output:
  - a market order is forced to full taker;
  - a missing output or a zero sum defaults to full taker;
  - a sum more than 0.001 away from one is renormalised.
- **Simulation page** (`Simulation`, `simulation.dfy`). It covers the form schema bounds, the four updates of the nullable output record, and the sequential slippage → impact → maker/taker pipeline of one run. It also covers the debounce effect. The page is a state machine `Step` over form edits, book updates, the debounce timer firing, and runs settling.
- **Feed connection** (`FeedConnection`, `feed_connection.dfy`). This is the WebSocket hook's state machine: connect, the open/message/error/close handlers, the reconnect timer and teardown.

Shared records are in `MarketTypes` (`market_types.dfy`), which mirrors the TypeScript types. `Option`, `Result` and small sequence helpers are in `Base` (`base.dfy`).

Modelling choices:
- Prices and quantities are exact `real`s.
- `parseFloat` is a parameter `parse: string -> Option<real>`, where `None` is NaN. A NaN quantity poisons every later running total, so such a total is `None`.
- The three estimators are external calls. Their answers are inputs to the model (`Replies`): a value, or a rejection with its message. The maker/taker answer is the raw output, which may be missing.
- Timers are modelled by the handle the code keeps and by whether the timer is still scheduled. The debounce timer also records when it is due.
- The elapsed time `performance.now() - startTime` is the difference of two event times.
- In-flight runs are named by a counter. The counter exists only to say which run settles. The code has no sequence numbers and never checks one.

Behaviour of the code worth knowing:
- The three estimator calls are awaited one after another, and a rejection skips the rest (`RunPipeline`).
- The code has no staleness discard: if an older run settles after a newer one, the older run's results are shown (`StaleRunOverwritesNewer`).
- Without a book, fees are filled in only when the fee figure that the run's closure captured was null; the page invariant shows that figure is the current one. So with no feed, the fee figure can stay stale after an edit (`NoBookUpdate`, `ElapseWithoutBook`).
- A failed run keeps the previous fee figure. It does not recompute it (`FailureUpdate`).
- The invalid-form update clears every estimate (`InvalidFormUpdate`).
- `runSimulation` depends on the fee figure, so a change of that figure re-runs the debounce effect. With a valid form, that schedules another run (`FeeChangeSchedulesAnotherRun`); with an invalid form, it lays the fee-only update over the settled run's output (`SettlePublished`).
- A close schedules a reconnect only while no timer handle is held. The handle is released on open, never when the timer fires (see Findings).

## Model

| member | source | states |
|---|---|---|
| DepthLadder.AccumulateIsPrefixDepth | src/components/market-pilot/OrderBookDisplay.tsx:35-53 | the running-total `map` yields, for each row, the summed quantity of every level up to and including it |
| DepthLadder.BestFirstLadder | src/components/market-pilot/OrderBookDisplay.tsx:45-53 | a side yields min(length, 10) rows; row i copies level i's price and quantity strings, and its total is the depth of levels 0..i |
| DepthLadder.Aggregate | src/components/market-pilot/OrderBookDisplay.tsx:32-56 | with no snapshot both ladders are empty. Bids are shown best first with prefix totals. Displayed ask i is best-first level n-1-i, carrying the prefix depth accumulated in best-first order |
| DepthLadder.LadderTotalsNonDecreasing | src/components/market-pilot/OrderBookDisplay.tsx:45-53 | with non-negative quantities, each total is defined and never smaller than the totals before it in best-first order |
| DepthLadder.DepthGrowsWithPrefix | src/components/market-pilot/OrderBookDisplay.tsx:37-47 | with non-negative quantities, the depth of a longer prefix is at least the depth of a shorter one |
| DepthLadder.AskLadderEnds | src/components/market-pilot/OrderBookDisplay.tsx:35-43 | the last displayed ask is the best ask, and its total is that level's own quantity; with non-negative quantities the first displayed ask carries the largest total |
| DepthLadder.MidPrice | src/components/market-pilot/OrderBookDisplay.tsx:58-67 | the mid price exists exactly when both sides are non-empty and both best prices parse; it is their average, and it lies between them when the book is not crossed |
| DepthLadder.WorkedExample | src/components/market-pilot/OrderBookDisplay.tsx:32-66 | asks (100,1),(101,2) display as (101,2,3),(100,1,1); bids (99,3),(98,1) get totals 3, 4; the mid price is 99.5 |
| MakerTaker.Normalize | src/ai/flows/maker-taker-prediction.ts:70-95 | a market order or a missing output gives maker 0 / taker 1, and so does a zero sum. A sum more than 0.001 off is scaled to sum exactly to one. Otherwise the pair is unchanged. Every result is within 0.001 of summing to one |
| MakerTaker.NormalizeStaysInUnitInterval | src/ai/flows/maker-taker-prediction.ts:81-88 | if the estimator's pair lies in [0,1], as the output schema demands, the result lies in [0,1] |
| MakerTaker.NormalizeIdempotent | src/ai/flows/maker-taker-prediction.ts:73-91 | post-processing its own result changes nothing |
| MakerTaker.MarketSpellings | src/ai/flows/maker-taker-prediction.ts:74 | the order type is matched case-insensitively: "market", "MARKET", "Market" and the Kelvin-sign spelling select the override; "limit", " market" and "" do not |
| MakerTaker.ScaleBySum | src/ai/flows/maker-taker-prediction.ts:86-87 | dividing both proportions by their non-zero sum yields parts that sum to one and scale back to the originals |
| Simulation.Validate | src/app/page.tsx:20-27 | a form is accepted exactly when quantity ≥ 0.01, 0 ≤ volatility ≤ 1 and 0 ≤ fee rate ≤ 0.1; the accepted values are copied through |
| Simulation.FormBoundaries | src/app/page.tsx:20-27 | the text fields never decide validity; the defaults are valid; each bound is inclusive and the values just beyond it are rejected |
| Simulation.InvalidFormUpdate | src/app/page.tsx:169-181 | with numeric quantity and fee rate, fees and net cost become quantity × fee rate, every estimate is cleared and the latency is kept; otherwise nothing changes |
| Simulation.NoBookUpdate | src/app/page.tsx:64-76 | with no book, the output changes only if the captured fee figure was null. It then gets fees = quantity × fee rate, net cost = fees plus the previous slippage and impact (missing ones count as 0), and a cleared maker/taker split |
| Simulation.SuccessUpdate | src/app/page.tsx:116-128 | a completed run replaces every field: fees = quantity × fee rate, net cost = slippage + fees + impact, the normalised split and the latency |
| Simulation.FailureUpdate | src/app/page.tsx:139-147 | a failed run clears the estimates, keeps the previous fee figure, sets net cost to it and records the latency |
| Simulation.ImpactRequestFor | src/app/page.tsx:95-102 | every market-impact request uses trade duration 1, risk aversion 0.5 and both impact coefficients 0.1 |
| Simulation.RunPipeline | src/app/page.tsx:82-130 | estimators are called in the order slippage, impact, maker/taker, each only if the previous one answered. The run succeeds exactly when all three answer, with the normalised split; otherwise it fails with the first rejection |
| Simulation.RejectionSkipsLaterCalls | src/app/page.tsx:91-112 | after a rejection, what the later estimators would have answered has no effect |
| Simulation.Effect | src/app/page.tsx:163-194 | the pending timer is always cancelled. An invalid form gets the fee-only update and no timer. A valid form gets exactly one timer, due 500 ms later, capturing the current form, book and fee figure |
| Simulation.EffectIdempotent | src/app/page.tsx:163-183 | running the effect again on its own result changes nothing |
| Simulation.Mounted | src/app/page.tsx:35-59 | the page starts with an empty output, no book and one run scheduled for the default form |
| Simulation.MountedSatisfiesInvariant | src/app/page.tsx:35-43 | the initial page satisfies the page invariant |
| Simulation.EffectKeepsInvariant | src/app/page.tsx:163-194 | the debounce effect keeps the output record consistent and leaves a timer only for a valid form |
| Simulation.StepKeepsInvariant | src/app/page.tsx:63-194 | every event keeps run names fresh, keeps a timer only for a valid form, and keeps a pending timer holding the latest inputs: the current form's values, the current book and the current fee figure. It keeps the output consistent: slippage and impact appear together; the split appears only with them and sums to 1 ± 0.001; net cost is the sum of the three costs, or the fees alone |
| Simulation.EditsStartNothing | src/app/page.tsx:163-194 | form edits never start a run, never touch the book and never change the loading flag |
| Simulation.EditsCoalesce | src/app/page.tsx:163-187 | after any burst of edits, at most one run is pending. It exists exactly when the last edit is valid, captures the last edit's values, and is due 500 ms after it |
| Simulation.NotDueDoesNothing | src/app/page.tsx:185-187 | the timer does nothing before its delay has passed |
| Simulation.ElapseWithoutBook | src/app/page.tsx:64-76 | firing without a book starts no run and applies the no-book update of the captured fee figure, which is the current one |
| Simulation.ElapseWithBook | src/app/page.tsx:78-80 | firing with a book starts exactly one run with the captured values and the current time; it raises the loading flag, clears the run error and leaves the output alone |
| Simulation.SettleOutcome | src/app/page.tsx:116-150 | whatever the form holds, a run whose estimators all answered publishes its own estimates and latency, and a rejected run degrades the output and records its message; either way the run leaves the in-flight set and the loading flag drops |
| Simulation.SettlePublished | src/app/page.tsx:120-194 | after a run settles the page shows its outcome; only when the form is invalid and the outcome changed the fee figure does the re-run effect lay the fee-only update on top of it |
| Simulation.StaleRunOverwritesNewer | src/app/page.tsx:63-151 | with a valid form, an older run that settles successfully after a newer one overwrites the newer run's output with its own |
| Simulation.FeeChangeSchedulesAnotherRun | src/app/page.tsx:151-194 | with a valid form, a settled run that changes the fee figure re-runs the effect, which schedules a further run 500 ms later |
| FeedConnection.Connect | src/hooks/useWebSocket.ts:13-18 | connecting is a no-op while the socket is open; otherwise a new socket replaces it |
| FeedConnection.MountConnects | src/hooks/useWebSocket.ts:7-11 | initially there is no snapshot, no connection, no error and no timer; mounting creates the first socket |
| FeedConnection.HandlerEffects | src/hooks/useWebSocket.ts:20-56 | open: socket open, connected, error cleared, timer cleared and released. Parsed message: snapshot replaced. Unparsed message: snapshot kept, error "Failed to parse market data." set. Error: error "WebSocket connection error." set, disconnected, nothing scheduled. Close: disconnected, and a timer is scheduled only when no handle was held |
| FeedConnection.StepKeepsInvariant | src/hooks/useWebSocket.ts:46-56 | a reconnect timer is only ever scheduled while its handle is held |
| FeedConnection.TimerFiringKeepsReference | src/hooks/useWebSocket.ts:50-54 | the timer firing reconnects but keeps its handle |
| FeedConnection.TeardownReleases | src/hooks/useWebSocket.ts:62-69 | teardown cancels the pending timer and closes a connecting or open socket |
| FeedConnection.StrandedForever | src/hooks/useWebSocket.ts:46-56 | once the socket is closed with a stale handle and no timer, no event short of a new mount creates a socket again |
| FeedConnection.OneFailedReconnectStrands | src/hooks/useWebSocket.ts:20-56 | open, close, timer fires, new socket closes without opening: the feed is stranded |
| FeedConnection.CloseAfterTeardownReconnects | src/hooks/useWebSocket.ts:46-69 | the close event caused by teardown schedules a reconnect after unmount; when it fires, a second socket is created |
| FeedConnection.CorrectedCloseAlwaysSchedules | src/hooks/useWebSocket.ts:46-56 | in the corrected hook, the handle is held exactly while a timer is scheduled, and every close while mounted leaves a reconnect scheduled |
| FeedConnection.CorrectedNothingAfterTeardown | src/hooks/useWebSocket.ts:62-69 | in the corrected hook, after teardown no timer is scheduled and no socket is created until the next mount |
| FeedConnection.CorrectedRecoversFromFailedReconnect | src/hooks/useWebSocket.ts:50-54 | in the corrected hook, the sequence that strands the original leaves a reconnect scheduled |

## Left out

- `parseFloat`, `toString` and `toFixed`: parsing is the abstract `parse` parameter. The totals are kept as numbers rather than strings, and the mid price is not rounded to two decimals, because those are float formatting.
- IEEE floating point: rounding is not modelled. Exact `real` arithmetic makes the renormalised pair sum to exactly one.
- NaN in form fields: an emptied number input gives `parseFloat("")`, which is NaN and still has type number. The model's numeric form fields are either a real or not a number. A NaN fee figure is not representable.
- Rendering: JSX, `OutputPanel`, `InputPanel`, toasts, console logging and the WebSocket-error toast effect are presentation only.
- Estimator internals: the prompts and flows behind slippage and market impact are external calls, and their answers are inputs. The maker/taker prompt is the same; only its post-processing is modelled.
- React scheduling: state updates are taken to apply immediately and in event order. Batching and render timing are not modelled. The effect's cleanup on unmount of the page is not modelled.
- Reconnect delay: the 5-second delay is not modelled as time. A scheduled reconnect timer fires whenever the `ReconnectTimerFired` event occurs.
- WebSocket transport: socket events are applied to the current socket only. An error event does not change the ready state. A payload that parses as JSON is taken as a snapshot, because the code only casts it.
- MakerTaker.LowerChar: covers only the characters that can lower into an ASCII letter (A–Z and the Kelvin sign). Every other character maps to itself, which is enough to decide whether the lowered text equals "market", but it is not all of `toLowerCase`.
- `isLoading` and `simulationError` are kept in the page state, but only as the flags the code sets.

## Findings

| source | as written | input that shows it | evidently intended | confidence | as-written member | corrected member |
|---|---|---|---|---|---|---|
| src/hooks/useWebSocket.ts:50-54 | the reconnect callback calls `connect()` but never resets `reconnectTimer.current`, and only `onopen` does | open, close, the timer fires, the new socket closes without ever opening: `onclose` sees a handle and schedules nothing, so the feed never reconnects | the handle is released when the timer fires, so every close schedules one retry | medium, not executed | FeedConnection.OneFailedReconnectStrands | FeedConnection.CorrectedRecoversFromFailedReconnect |
| src/hooks/useWebSocket.ts:62-69 | teardown closes the socket but leaves its `onclose` handler attached | open, teardown, then the close event that `close()` causes: a reconnect is scheduled after unmount, and when it fires a second socket is created | handlers are detached and the handle released on teardown, so nothing happens after unmount | medium, not executed | FeedConnection.CloseAfterTeardownReconnects | FeedConnection.CorrectedNothingAfterTeardown |

In both rows the as-written `FeedConnection.Step` remains the model of the hook. `FeedConnection.CorrectedStep` is the corrected hook, and `FeedConnection.CorrectedCloseAlwaysSchedules` proves its retry property for every close.
