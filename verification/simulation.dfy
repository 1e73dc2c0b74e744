/** The simulation page (src/app/page.tsx): form validation, the updates of
    the nullable output record, the sequential estimator pipeline of
    `runSimulation`, and the debounce effect that decides when a run is
    scheduled. The page is a state machine over `Page` driven by `Step`. */
module Simulation {
  import opened Base
  import opened MarketTypes
  import MakerTaker

  /** Quiet period before a scheduled run starts, in milliseconds. */
  const DEBOUNCE_DELAY: real := 500.0

  /** Form schema bounds. */
  const MIN_QUANTITY: real := 0.01
  const MAX_VOLATILITY: real := 1.0
  const MAX_FEE_RATE: real := 0.1

  /** The fixed model parameters of every market-impact request. */
  const TRADE_DURATION: real := 1.0
  const RISK_AVERSION: real := 0.5
  const TEMPORARY_IMPACT_COEFFICIENT: real := 0.1
  const PERMANENT_IMPACT_COEFFICIENT: real := 0.1

  /** Form values that passed the schema. */
  datatype TradeParams = TradeParams(
    exchange: string,
    spotAsset: string,
    orderType: string,
    quantity: real,
    volatility: real,
    feeRate: real)

  /** The form's default values. */
  const DefaultForm: FormValues :=
    FormValues("OKX", "BTC-USDT-SWAP", "market", Some(100.0), Some(0.02), Some(0.001))

  /** The output record before anything was computed. */
  const NoOutputs: OutputData := OutputData(None, None, None, None, None, None, None)

  predicate WithinBounds(quantity: real, volatility: real, feeRate: real) {
    && quantity >= MIN_QUANTITY
    && 0.0 <= volatility <= MAX_VOLATILITY
    && 0.0 <= feeRate <= MAX_FEE_RATE
  }

  /** `formSchema.safeParse`: the parsed values, or `None` when the form is invalid. */
  function Validate(form: FormValues): (r: Option<TradeParams>)
    ensures r.Some? <==>
      && form.quantity.Some? && form.volatility.Some? && form.feeRate.Some?
      && WithinBounds(form.quantity.value, form.volatility.value, form.feeRate.value)
    ensures r.Some? ==>
      && r.value.quantity == form.quantity.value
      && r.value.volatility == form.volatility.value
      && r.value.feeRate == form.feeRate.value
      && r.value.exchange == form.exchange
      && r.value.spotAsset == form.spotAsset
      && r.value.orderType == form.orderType
  {
    match (form.quantity, form.volatility, form.feeRate)
    case (Some(q), Some(v), Some(f)) =>
      if WithinBounds(q, v, f) then Some(TradeParams(form.exchange, form.spotAsset, form.orderType, q, v, f))
      else None
    case _ => None
  }

  /** The text fields never decide validity, and the bounds are inclusive
      exactly where the schema says so. */
  lemma FormBoundaries(form: FormValues, exchange: string, spotAsset: string, orderType: string)
    ensures Validate(form.(exchange := exchange, spotAsset := spotAsset, orderType := orderType)).Some?
            == Validate(form).Some?
    ensures Validate(DefaultForm).Some?
    ensures Validate(DefaultForm.(quantity := Some(0.01))).Some?
    ensures Validate(DefaultForm.(quantity := Some(0.009))).None?
    ensures Validate(DefaultForm.(volatility := Some(0.0))).Some?
    ensures Validate(DefaultForm.(volatility := Some(1.0))).Some?
    ensures Validate(DefaultForm.(volatility := Some(1.01))).None?
    ensures Validate(DefaultForm.(volatility := Some(-0.01))).None?
    ensures Validate(DefaultForm.(feeRate := Some(0.0))).Some?
    ensures Validate(DefaultForm.(feeRate := Some(-0.01))).None?
    ensures Validate(DefaultForm.(feeRate := Some(0.1))).Some?
    ensures Validate(DefaultForm.(feeRate := Some(0.11))).None?
    ensures Validate(DefaultForm.(feeRate := None)).None?
  {
  }

  /** The synchronous fee figure. */
  function Fees(p: TradeParams): real {
    p.quantity * p.feeRate
  }

  /** None of the estimator-dependent figures is shown. */
  predicate EstimatesCleared(o: OutputData) {
    o.expectedSlippage.None? && o.marketImpact.None? && o.makerProportion.None? && o.takerProportion.None?
  }

  /** The output record's own invariant: slippage and impact are present
      together, maker and taker are present together and only with the cost
      estimates and then sum to one within the tolerance, and the net cost is
      the sum of the three costs when they are present and the fees alone
      otherwise. */
  predicate Consistent(o: OutputData) {
    && (o.expectedSlippage.Some? <==> o.marketImpact.Some?)
    && (o.makerProportion.Some? <==> o.takerProportion.Some?)
    && (o.makerProportion.Some? ==>
          && o.expectedSlippage.Some?
          && Abs(o.makerProportion.value + o.takerProportion.value - 1.0) <= MakerTaker.TOLERANCE)
    && (o.expectedSlippage.Some? ==>
          && o.expectedFees.Some?
          && o.netCost == Some(o.expectedSlippage.value + o.expectedFees.value + o.marketImpact.value))
    && (o.expectedSlippage.None? ==> o.netCost == o.expectedFees)
  }

  /** The invalid-form branch of the debounce effect: when quantity and fee
      rate are numbers, show the fee-only figure and clear every estimate,
      keeping the latency; otherwise leave the output alone. */
  function InvalidFormUpdate(prev: OutputData, form: FormValues): (r: OutputData)
    ensures form.quantity.Some? && form.feeRate.Some? ==>
      && EstimatesCleared(r)
      && r.expectedFees == Some(form.quantity.value * form.feeRate.value)
      && r.netCost == r.expectedFees
      && r.internalLatency == prev.internalLatency
    ensures form.quantity.None? || form.feeRate.None? ==> r == prev
  {
    if form.quantity.Some? && form.feeRate.Some? then
      var fees := form.quantity.value * form.feeRate.value;
      prev.(expectedSlippage := None, marketImpact := None, makerProportion := None,
            takerProportion := None, expectedFees := Some(fees), netCost := Some(fees))
    else prev
  }

  /** The no-order-book branch of a run. `capturedFees` is the fee figure the
      run's closure saw when it was scheduled: only when it was null are the
      fees filled in, the net cost rebuilt from the previous costs (a missing
      one counting as zero) and the maker/taker split cleared. */
  function NoBookUpdate(capturedFees: Option<real>, prev: OutputData, p: TradeParams): (r: OutputData)
    ensures capturedFees.Some? ==> r == prev
    ensures capturedFees.None? ==>
      && r.expectedFees == Some(Fees(p))
      && r.netCost == Some(Fees(p) + prev.expectedSlippage.GetOr(0.0) + prev.marketImpact.GetOr(0.0))
      && r.makerProportion.None? && r.takerProportion.None?
      && r.expectedSlippage == prev.expectedSlippage
      && r.marketImpact == prev.marketImpact
      && r.internalLatency == prev.internalLatency
  {
    if capturedFees.None? then
      var fees := Fees(p);
      prev.(expectedFees := Some(fees),
            netCost := Some(fees + prev.expectedSlippage.GetOr(0.0) + prev.marketImpact.GetOr(0.0)),
            makerProportion := None, takerProportion := None)
    else prev
  }

  /** The three estimates of a completed run. */
  datatype Estimates = Estimates(slippage: real, impact: real, split: Proportions)

  /** A completed run replaces every field of the output. */
  function SuccessUpdate(p: TradeParams, e: Estimates, latency: real): (r: OutputData)
    ensures r.expectedFees == Some(Fees(p))
    ensures r.expectedSlippage == Some(e.slippage) && r.marketImpact == Some(e.impact)
    ensures r.netCost == Some(e.slippage + Fees(p) + e.impact)
    ensures r.makerProportion == Some(e.split.maker) && r.takerProportion == Some(e.split.taker)
    ensures r.internalLatency == Some(latency)
  {
    var fees := Fees(p);
    OutputData(Some(e.slippage), Some(fees), Some(e.impact), Some(e.slippage + fees + e.impact),
               Some(e.split.maker), Some(e.split.taker), Some(latency))
  }

  /** A failed run clears the estimates, falls back to the previous fee figure
      for the net cost without recomputing the fees, and records the latency. */
  function FailureUpdate(prev: OutputData, latency: real): (r: OutputData)
    ensures EstimatesCleared(r)
    ensures r.expectedFees == prev.expectedFees && r.netCost == prev.expectedFees
    ensures r.internalLatency == Some(latency)
  {
    prev.(expectedSlippage := None, marketImpact := None, makerProportion := None,
          takerProportion := None, netCost := prev.expectedFees, internalLatency := Some(latency))
  }

  // ---------------------------------------------------------------------------
  // The estimator pipeline of one run

  datatype SlippageRequest = SlippageRequest(orderBookData: RawOrderBook, quantity: real, volatility: real)

  datatype ImpactRequest = ImpactRequest(
    orderSize: real,
    assetVolatility: real,
    tradeDuration: real,
    riskAversion: real,
    temporaryImpactCoefficient: real,
    permanentImpactCoefficient: real)

  datatype MakerTakerRequest = MakerTakerRequest(orderBookData: RawOrderBook, quantity: real, orderType: string)

  /** One awaited call to an external estimator. */
  datatype EstimatorCall =
    | SlippageCall(slippageRequest: SlippageRequest)
    | ImpactCall(impactRequest: ImpactRequest)
    | MakerTakerCall(makerTakerRequest: MakerTakerRequest)

  /** What each estimator would answer: a value or a rejection. The maker/taker
      estimator's value is its raw output, `None` when it produced none. */
  datatype Replies = Replies(
    slippage: Result<real>,
    impact: Result<real>,
    makerTaker: Result<Option<Proportions>>)

  /** The calls a run made, in order, and how it ended. */
  datatype PipelineRun = PipelineRun(calls: seq<EstimatorCall>, result: Result<Estimates>)

  /** The market-impact request of a run: the order's size and volatility with
      the fixed model parameters. */
  function ImpactRequestFor(p: TradeParams): (r: ImpactRequest)
    ensures r.orderSize == p.quantity && r.assetVolatility == p.volatility
    ensures r.tradeDuration == 1.0 && r.riskAversion == 0.5
    ensures r.temporaryImpactCoefficient == 0.1 && r.permanentImpactCoefficient == 0.1
  {
    ImpactRequest(p.quantity, p.volatility, TRADE_DURATION, RISK_AVERSION,
                  TEMPORARY_IMPACT_COEFFICIENT, PERMANENT_IMPACT_COEFFICIENT)
  }

  /** The message of the first rejection among the calls that were made. */
  function FirstRejection(replies: Replies): string {
    if replies.slippage.Err? then replies.slippage.message
    else if replies.impact.Err? then replies.impact.message
    else if replies.makerTaker.Err? then replies.makerTaker.message
    else ""
  }

  /** The `try` block of `runSimulation`: slippage, then market impact, then
      maker/taker, each awaited before the next; the first rejection ends the
      run. The maker/taker value is the flow's normalised pair. */
  function RunPipeline(p: TradeParams, book: RawOrderBook, replies: Replies): (r: PipelineRun)
    ensures 1 <= |r.calls| <= 3
    ensures r.calls[0] == SlippageCall(SlippageRequest(book, p.quantity, p.volatility))
    ensures |r.calls| >= 2 <==> replies.slippage.Ok?
    ensures |r.calls| >= 2 ==> r.calls[1] == ImpactCall(ImpactRequestFor(p))
    ensures |r.calls| == 3 <==> replies.slippage.Ok? && replies.impact.Ok?
    ensures |r.calls| == 3 ==> r.calls[2] == MakerTakerCall(MakerTakerRequest(book, p.quantity, p.orderType))
    ensures r.result.Ok? <==> replies.slippage.Ok? && replies.impact.Ok? && replies.makerTaker.Ok?
    ensures r.result.Ok? ==>
      r.result.value == Estimates(replies.slippage.value, replies.impact.value,
                                  MakerTaker.Normalize(p.orderType, replies.makerTaker.value))
    ensures r.result.Err? ==> r.result.message == FirstRejection(replies)
  {
    var first := SlippageCall(SlippageRequest(book, p.quantity, p.volatility));
    match replies.slippage
    case Err(m) => PipelineRun([first], Err(m))
    case Ok(slippage) =>
      var second := ImpactCall(ImpactRequestFor(p));
      match replies.impact
      case Err(m) => PipelineRun([first, second], Err(m))
      case Ok(impact) =>
        var calls := [first, second, MakerTakerCall(MakerTakerRequest(book, p.quantity, p.orderType))];
        match replies.makerTaker
        case Err(m) => PipelineRun(calls, Err(m))
        case Ok(estimate) =>
          PipelineRun(calls, Ok(Estimates(slippage, impact, MakerTaker.Normalize(p.orderType, estimate))))
  }

  /** A rejection skips the later estimators: what they would have answered
      does not matter. */
  lemma RejectionSkipsLaterCalls(p: TradeParams, book: RawOrderBook, replies: Replies,
                                 impact: Result<real>, makerTaker: Result<Option<Proportions>>)
    ensures replies.slippage.Err? ==>
      RunPipeline(p, book, replies) == RunPipeline(p, book, replies.(impact := impact, makerTaker := makerTaker))
    ensures replies.impact.Err? ==>
      RunPipeline(p, book, replies) == RunPipeline(p, book, replies.(makerTaker := makerTaker))
  {
  }

  // ---------------------------------------------------------------------------
  // The page as a state machine

  /** The debounce timer's pending run: what its closure captured. */
  datatype PendingRun = PendingRun(
    params: TradeParams,
    book: Option<RawOrderBook>,
    capturedFees: Option<real>,
    dueAt: real)

  /** A started run awaiting its estimators. */
  datatype InFlightRun = InFlightRun(params: TradeParams, book: RawOrderBook, startedAt: real)

  /** The page's state: the watched form and book, the output record, the
      debounce timer, the runs still awaiting their estimators (named by the
      order in which they started), the loading flag and the run error. */
  datatype Page = Page(
    form: FormValues,
    book: Option<RawOrderBook>,
    outputs: OutputData,
    debounce: Option<PendingRun>,
    inFlight: map<nat, InFlightRun>,
    nextRun: nat,
    isLoading: bool,
    simulationError: Option<string>)

  datatype PageEvent =
    | FormEdited(form: FormValues)
    | BookReceived(book: RawOrderBook)
    | DebounceElapsed
    | RunSettled(run: nat, replies: Replies)

  /** The debounce effect: cancel the pending timer; an invalid form gets the
      fee-only update and no timer, a valid one gets exactly one new timer
      capturing the current form, book and fee figure. */
  function Effect(s: Page, now: real): (r: Page)
    ensures r.form == s.form && r.book == s.book
    ensures r.inFlight == s.inFlight && r.nextRun == s.nextRun
    ensures r.isLoading == s.isLoading && r.simulationError == s.simulationError
    ensures r.debounce.Some? <==> Validate(s.form).Some?
    ensures Validate(s.form).None? ==> r.outputs == InvalidFormUpdate(s.outputs, s.form)
    ensures Validate(s.form).Some? ==>
      && r.outputs == s.outputs
      && r.debounce.value == PendingRun(Validate(s.form).value, s.book, s.outputs.expectedFees, now + DEBOUNCE_DELAY)
  {
    match Validate(s.form)
    case None => s.(debounce := None, outputs := InvalidFormUpdate(s.outputs, s.form))
    case Some(p) => s.(debounce := Some(PendingRun(p, s.book, s.outputs.expectedFees, now + DEBOUNCE_DELAY)))
  }

  /** `runSimulation` is rebuilt whenever the fee figure changes, and the
      effect depends on it: such a change re-runs the effect. */
  function RerunOnFeeChange(before: Page, after: Page, now: real): Page {
    if after.outputs.expectedFees != before.outputs.expectedFees then Effect(after, now) else after
  }

  /** The debounce timer fires once it is due: without a book the fee-only
      branch runs at once, otherwise a run starts and awaits its estimators. */
  function Elapse(s: Page, now: real): Page {
    match s.debounce
    case None => s
    case Some(pending) =>
      if now < pending.dueAt then s
      else
        var s1 := s.(debounce := None);
        match pending.book
        case None => s1.(outputs := NoBookUpdate(pending.capturedFees, s1.outputs, pending.params))
        case Some(book) =>
          s1.(inFlight := s1.inFlight[s1.nextRun := InFlightRun(pending.params, book, now)],
              nextRun := s1.nextRun + 1, isLoading := true, simulationError := None)
  }

  /** A started run's estimators have answered: publish its result into the
      output record as it is now, whatever other runs did meanwhile. */
  function Settle(s: Page, run: nat, replies: Replies, now: real): Page {
    if run !in s.inFlight then s
    else
      var r := s.inFlight[run];
      var latency := now - r.startedAt;
      var s1 := s.(inFlight := s.inFlight - {run}, isLoading := false);
      match RunPipeline(r.params, r.book, replies).result
      case Ok(e) => s1.(outputs := SuccessUpdate(r.params, e, latency))
      case Err(m) => s1.(outputs := FailureUpdate(s.outputs, latency), simulationError := Some(m))
  }

  /** One event at time `now` (milliseconds). */
  function Step(s: Page, e: PageEvent, now: real): Page {
    match e
    case FormEdited(f) => Effect(s.(form := f), now)
    case BookReceived(b) => Effect(s.(book := Some(b)), now)
    case DebounceElapsed => RerunOnFeeChange(s, Elapse(s, now), now)
    case RunSettled(run, replies) => RerunOnFeeChange(s, Settle(s, run, replies, now), now)
  }

  /** The page right after mounting: default form, no book, empty output, and
      the effect's first run. */
  function Mounted(now: real): (s: Page)
    ensures s.outputs == NoOutputs && s.book.None? && s.inFlight == map[]
    ensures s.debounce == Some(PendingRun(Validate(DefaultForm).value, None, None, now + DEBOUNCE_DELAY))
  {
    Effect(Page(DefaultForm, None, NoOutputs, None, map[], 0, false, None), now)
  }

  /** The page invariant: run names are fresh; a pending timer only exists for
      a valid form and always holds the latest inputs (the current form's
      values, the current book and the current fee figure); and the output
      record is consistent. */
  predicate Invariant(s: Page) {
    && (forall run :: run in s.inFlight ==> run < s.nextRun)
    && (s.debounce.Some? ==>
          && Validate(s.form).Some?
          && s.debounce.value.params == Validate(s.form).value
          && s.debounce.value.book == s.book
          && s.debounce.value.capturedFees == s.outputs.expectedFees)
    && Consistent(s.outputs)
  }

  lemma EffectKeepsInvariant(s: Page, now: real)
    requires (forall run :: run in s.inFlight ==> run < s.nextRun) && Consistent(s.outputs)
    ensures Invariant(Effect(s, now))
  {
  }

  /** Every event keeps the page invariant. */
  lemma StepKeepsInvariant(s: Page, e: PageEvent, now: real)
    requires Invariant(s)
    ensures Invariant(Step(s, e, now))
  {
    match e
    case FormEdited(f) => EffectKeepsInvariant(s.(form := f), now);
    case BookReceived(b) => EffectKeepsInvariant(s.(book := Some(b)), now);
    case DebounceElapsed =>
      var a := Elapse(s, now);
      if a.outputs.expectedFees != s.outputs.expectedFees { EffectKeepsInvariant(a, now); }
    case RunSettled(run, replies) =>
      var a := Settle(s, run, replies, now);
      if run in s.inFlight {
        var r := s.inFlight[run];
        var pr := RunPipeline(r.params, r.book, replies);
        if pr.result.Ok? {
          assert Consistent(a.outputs);
        }
      }
      if a.outputs.expectedFees != s.outputs.expectedFees { EffectKeepsInvariant(a, now); }
  }

  /** The page starts out satisfying its invariant. */
  lemma MountedSatisfiesInvariant(now: real)
    ensures Invariant(Mounted(now))
  {
  }

  /** A sequence of form edits, each with the time it happened. */
  datatype Edit = Edit(form: FormValues, at: real)

  function ApplyEdits(s: Page, edits: seq<Edit>): Page
    decreases |edits|
  {
    if edits == [] then s
    else
      var last := edits[|edits| - 1];
      Step(ApplyEdits(s, edits[..|edits| - 1]), FormEdited(last.form), last.at)
  }

  /** Edits alone never start a run nor touch the book. */
  lemma {:induction false} EditsStartNothing(s: Page, edits: seq<Edit>)
    ensures ApplyEdits(s, edits).inFlight == s.inFlight
    ensures ApplyEdits(s, edits).nextRun == s.nextRun
    ensures ApplyEdits(s, edits).book == s.book
    ensures ApplyEdits(s, edits).isLoading == s.isLoading
    decreases |edits|
  {
    if edits != [] {
      EditsStartNothing(s, edits[..|edits| - 1]);
    }
  }

  /** Debounce coalescing: after any burst of edits at most one run is
      pending, it is pending exactly when the last edit left the form valid,
      and it captures the last edit's values and is due a full quiet period
      after the last edit. */
  lemma EditsCoalesce(s: Page, edits: seq<Edit>)
    requires |edits| > 0
    ensures var r := ApplyEdits(s, edits);
      var last := edits[|edits| - 1];
      && r.inFlight == s.inFlight && r.nextRun == s.nextRun
      && r.form == last.form
      && (r.debounce.Some? <==> Validate(last.form).Some?)
      && (r.debounce.Some? ==>
            && r.debounce.value.params == Validate(last.form).value
            && r.debounce.value.book == s.book
            && r.debounce.value.dueAt == last.at + DEBOUNCE_DELAY)
  {
    EditsStartNothing(s, edits[..|edits| - 1]);
  }

  /** A timer that is not yet due does nothing. */
  lemma NotDueDoesNothing(s: Page, now: real)
    requires s.debounce.Some? && now < s.debounce.value.dueAt
    ensures Step(s, DebounceElapsed, now) == s
  {
  }

  /** The timer fires without a book: no estimator runs, no run starts, and
      the output gets the no-book update of the captured fee figure, which is
      the current one. */
  lemma ElapseWithoutBook(s: Page, now: real)
    requires Invariant(s)
    requires s.debounce.Some? && s.debounce.value.book.None? && now >= s.debounce.value.dueAt
    ensures var r := Step(s, DebounceElapsed, now);
      && r.inFlight == s.inFlight && r.nextRun == s.nextRun
      && r.outputs == NoBookUpdate(s.debounce.value.capturedFees, s.outputs, s.debounce.value.params)
      && r.outputs == NoBookUpdate(s.outputs.expectedFees, s.outputs, s.debounce.value.params)
      && r.simulationError == s.simulationError
  {
  }

  /** The timer fires with a book: exactly one run starts, with the captured
      values and the current time; the loading flag is raised, the run error
      cleared, and the output untouched. */
  lemma ElapseWithBook(s: Page, now: real)
    requires s.debounce.Some? && s.debounce.value.book.Some? && now >= s.debounce.value.dueAt
    ensures var r := Step(s, DebounceElapsed, now);
      && r.inFlight == s.inFlight[s.nextRun := InFlightRun(s.debounce.value.params, s.debounce.value.book.value, now)]
      && r.nextRun == s.nextRun + 1
      && r.debounce.None?
      && r.outputs == s.outputs
      && r.isLoading && r.simulationError.None?
  {
  }

  /** A run whose estimators all answered replaces the output with its own
      estimates and the elapsed time; one with a rejection degrades the
      output and records the rejection. Either way the loading flag drops,
      even when other runs are still in flight. Nothing here looks at the
      form. */
  lemma SettleOutcome(s: Page, run: nat, replies: Replies, now: real)
    requires run in s.inFlight
    ensures var r := Settle(s, run, replies, now);
      var started := s.inFlight[run];
      var pr := RunPipeline(started.params, started.book, replies);
      && r.inFlight == s.inFlight - {run}
      && !r.isLoading
      && r.form == s.form && r.book == s.book && r.debounce == s.debounce
      && (pr.result.Ok? ==>
            && r.outputs == SuccessUpdate(started.params, pr.result.value, now - started.startedAt)
            && r.simulationError == s.simulationError)
      && (pr.result.Err? ==>
            && r.outputs == FailureUpdate(s.outputs, now - started.startedAt)
            && r.simulationError == Some(pr.result.message))
  {
  }

  /** What the page shows once a run has settled. With a valid form, it is the
      run's own outcome. With an invalid form, it is also the run's outcome,
      unless that outcome changed the fee figure: then the re-run effect
      applies the fee-only update on top of it. */
  lemma SettlePublished(s: Page, run: nat, replies: Replies, now: real)
    requires run in s.inFlight
    ensures var settled := Settle(s, run, replies, now);
      var r := Step(s, RunSettled(run, replies), now);
      && r.inFlight == settled.inFlight && r.isLoading == settled.isLoading
      && r.simulationError == settled.simulationError
      && (Validate(s.form).Some? ==> r.outputs == settled.outputs)
      && (Validate(s.form).None? && settled.outputs.expectedFees == s.outputs.expectedFees ==>
            r.outputs == settled.outputs)
      && (Validate(s.form).None? && settled.outputs.expectedFees != s.outputs.expectedFees ==>
            r.outputs == InvalidFormUpdate(settled.outputs, s.form))
  {
  }

  /** There is no staleness check: with a valid form, when an earlier run
      settles after a later one, the earlier run's estimates are what the page
      shows. */
  lemma StaleRunOverwritesNewer(s: Page, older: nat, newer: nat, repliesNew: Replies, repliesOld: Replies,
                                t1: real, t2: real)
    requires Invariant(s) && Validate(s.form).Some?
    requires older < newer && older in s.inFlight && newer in s.inFlight
    requires RunPipeline(s.inFlight[older].params, s.inFlight[older].book, repliesOld).result.Ok?
    ensures var r := Step(Step(s, RunSettled(newer, repliesNew), t1), RunSettled(older, repliesOld), t2);
      var o := s.inFlight[older];
      r.outputs == SuccessUpdate(o.params, RunPipeline(o.params, o.book, repliesOld).result.value, t2 - o.startedAt)
  {
    StepKeepsInvariant(s, RunSettled(newer, repliesNew), t1);
    var mid := Step(s, RunSettled(newer, repliesNew), t1);
    assert older in mid.inFlight && mid.inFlight[older] == s.inFlight[older];
    SettleOutcome(mid, older, repliesOld, t2);
    SettlePublished(mid, older, repliesOld, t2);
  }

  /** A settled run that changes the fee figure re-runs the effect, which with
      a valid form schedules yet another run. */
  lemma FeeChangeSchedulesAnotherRun(s: Page, run: nat, replies: Replies, now: real)
    requires Invariant(s) && Validate(s.form).Some?
    requires run in s.inFlight
    requires Step(s, RunSettled(run, replies), now).outputs.expectedFees != s.outputs.expectedFees
    ensures Step(s, RunSettled(run, replies), now).debounce.Some?
    ensures Step(s, RunSettled(run, replies), now).debounce.value.dueAt == now + DEBOUNCE_DELAY
  {
  }

  /** Re-running the effect on its own result changes nothing, so the re-run
      its own fee-only update triggers is invisible. */
  lemma EffectIdempotent(s: Page, now: real)
    ensures Effect(Effect(s, now), now) == Effect(s, now)
  {
  }
}
