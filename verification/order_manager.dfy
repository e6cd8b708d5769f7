/**
 Broker-tick pricing, preflight and guarded submission of BUY orders. The broker is the sequence of
 answers it gives; every method also returns what it sent, so contracts can speak of both.
 */
module OrderManagement {
  import opened Wrappers
  import opened Rounding

  datatype OrderError =
    | InvalidPriceIncrement
    | PriceBelowBrokerIncrement
    | PreflightIncrementUnstable
    | PreflightFailed

  /** An increment parsed out of a rejection message; the parser never yields zero. */
  type Increment = x: real | x > 0.0 witness 0.05

  // ---------------------------------------------------------------- tick arithmetic

  function TickUnits(value: real, increment: real): int
    requires increment > 0.0
  {
    (value / increment).Floor
  }

  function TickPrice(units: int, increment: real): real {
    units as real * increment
  }

  /** BUY limits are ceilings: snap down to the broker's grid. */
  function SnapPrice(value: real, increment: real): (r: Result<real, OrderError>)
    ensures r.Success? ==> WholeCents(r.value)
  {
    if increment <= 0.0 then Failure(InvalidPriceIncrement)
    else
      var price := TickPrice(TickUnits(value, increment), increment);
      if price <= 0.0 then Failure(PriceBelowBrokerIncrement) else Success(RoundPrice(price))
  }

  lemma TickPriceMonotone(low: int, high: int, increment: real)
    requires low <= high && increment > 0.0
    ensures TickPrice(low, increment) <= TickPrice(high, increment)
  {
  }

  /** The grid point below a value, and the next one above it. */
  lemma TickFloor(value: real, increment: real)
    requires increment > 0.0
    ensures TickPrice(TickUnits(value, increment), increment) <= value
    ensures value < TickPrice(TickUnits(value, increment) + 1, increment)
  {
    var ratio := value / increment;
    assert ratio * increment == value;
    TickBounds(value, increment, TickUnits(value, increment), ratio);
  }

  lemma TickBounds(value: real, increment: real, units: int, ratio: real)
    requires increment > 0.0 && value == ratio * increment && units as real <= ratio < (units + 1) as real
    ensures TickPrice(units, increment) <= value < TickPrice(units + 1, increment)
  {
    Scale(units as real, ratio, increment);
    ScaleStrict(ratio, (units + 1) as real, increment);
  }

  lemma Scale(x: real, y: real, factor: real)
    requires x <= y && factor >= 0.0
    ensures x * factor <= y * factor
  {
  }

  lemma ScaleStrict(x: real, y: real, factor: real)
    requires x < y && factor > 0.0
    ensures x * factor < y * factor
  {
  }

  /** Whatever the increment, snapping a whole-cent limit never raises it. */
  lemma SnapNeverRaises(value: real, increment: real)
    requires WholeCents(value) && SnapPrice(value, increment).Success?
    ensures SnapPrice(value, increment).value <= value
  {
    TickFloor(value, increment);
    RoundPriceBelowCents(TickPrice(TickUnits(value, increment), increment), value);
  }

  lemma WholeCentTicks(increment: real, units: int)
    requires WholeCents(increment)
    ensures WholeCents(TickPrice(units, increment))
  {
    var cents := RoundHalfEven(increment * 100.0);
    assert increment * 100.0 == cents as real;
    var price := units as real * increment;
    assert price * 100.0 == units as real * cents as real;
    IntProduct(units, cents);
    WholeCentsOf(price, units * cents);
  }

  lemma WholeCentsOf(value: real, cents: int)
    requires value * 100.0 == cents as real
    ensures WholeCents(value)
  {
    RoundHalfEvenOfInteger(cents);
  }

  lemma IntProduct(m: int, n: int)
    ensures m as real * n as real == (m * n) as real
  {
  }

  /** On a whole-cent grid the snapped price is the largest tick not above the limit, for any limit. */
  lemma SnapIsLargestTick(value: real, increment: real, units: int)
    requires increment > 0.0 && WholeCents(increment) && SnapPrice(value, increment).Success?
    ensures SnapPrice(value, increment).value == TickPrice(TickUnits(value, increment), increment)
    ensures SnapPrice(value, increment).value <= value
    ensures TickPrice(units, increment) <= value ==> TickPrice(units, increment) <= SnapPrice(value, increment).value
  {
    var most := TickUnits(value, increment);
    WholeCentTicks(increment, most);
    RoundPriceOfCents(TickPrice(most, increment));
    TickFloor(value, increment);
    if units <= most {
      TickPriceMonotone(units, most, increment);
    } else {
      TickPriceMonotone(most + 1, units, increment);
    }
  }

  // ---------------------------------------------------------------- preflight

  datatype PreflightAnswer =
    | Costs(currentIncrement: Option<real>, buyingPower: Option<real>, estimatedCost: Option<real>)
    | ValidationRejected(discovered: Option<Increment>)
    | RequestFailed

  datatype PreflightCheck = PreflightCheck(
    limitPrice: real,
    quantity: int,
    currentIncrement: Option<real>,
    buyingPower: Option<real>,
    estimatedCost: Option<real>)

  datatype Request = Request(price: real, quantity: int)

  predicate Known(increment: Option<real>) {
    increment.Some? && increment.value != 0.0
  }

  /** The price a preflight for `limitPrice` settles on once the increment is known, or without one. */
  function SettledPrice(limitPrice: real, increment: Option<real>): Result<real, OrderError> {
    if Known(increment) then SnapPrice(limitPrice, increment.value) else Success(RoundPrice(limitPrice))
  }

  /** An answer that can send the preflight round again. */
  predicate MovesIncrement(answer: PreflightAnswer) {
    answer.ValidationRejected? || (answer.Costs? && Known(answer.currentIncrement))
  }

  /** The answer prices the check, at the price and quantity it was sent with. */
  predicate Answers(answer: PreflightAnswer, request: Request, check: PreflightCheck) {
    && answer.Costs?
    && check.buyingPower == answer.buyingPower && check.estimatedCost == answer.estimatedCost
    && request == Request(check.limitPrice, check.quantity)
    && (Known(answer.currentIncrement) ==> check.currentIncrement == answer.currentIncrement)
  }

  /** A payload price after the increment correction that precedes submission. */
  function CorrectedPrice(price: real, increment: Option<real>): Result<real, OrderError> {
    if Known(increment) then SnapPrice(price, increment.value) else Success(price)
  }

  lemma SettledPriceBound(limitPrice: real, increment: Option<real>)
    requires WholeCents(limitPrice) && SettledPrice(limitPrice, increment).Success?
    ensures SettledPrice(limitPrice, increment).value <= limitPrice
    ensures WholeCents(SettledPrice(limitPrice, increment).value)
  {
    if Known(increment) {
      SnapNeverRaises(limitPrice, increment.value);
    } else {
      RoundPriceOfCents(limitPrice);
    }
  }

  // ---------------------------------------------------------------- submission

  datatype PlaceAnswer =
    | Accepted(brokerOrderId: string)
    | MissingOrderId
    | HttpError(status: int, increment: Option<Increment>)
    | OtherFailure

  /** A 4xx other than timeout, conflict and throttling proves the order was not taken. */
  predicate DefiniteRejection(answer: PlaceAnswer) {
    answer.HttpError? && 400 <= answer.status < 500 && answer.status !in {408, 409, 429}
  }

  predicate IncrementRejection(answer: PlaceAnswer) {
    answer.HttpError? && answer.status in {400, 422} && answer.increment.Some?
  }

  /** Neither accepted nor definitely rejected: the broker may hold the order. */
  predicate Uncertain(answer: PlaceAnswer) {
    !answer.Accepted? && !DefiniteRejection(answer)
  }

  datatype OrderResult = OrderResult(
    orderId: Option<string>,
    actualLimitPrice: Option<real>,
    incrementRejected: bool,
    submissionUncertain: bool,
    submissionAttempted: bool)

  datatype Submission = Submission(orderId: string, price: real, quantity: int, answer: PlaceAnswer)

  /** An uncertain BUY keeps the client order id as its reconciliation identity. */
  function BuyResult(clientOrderId: string, price: real, answer: PlaceAnswer): OrderResult {
    match answer
    case Accepted(brokerOrderId) => OrderResult(Some(brokerOrderId), Some(price), false, false, true)
    case _ =>
      OrderResult(if Uncertain(answer) then Some(clientOrderId) else None, Some(price),
                  IncrementRejection(answer), Uncertain(answer), true)
  }

  function NotSubmitted(): OrderResult {
    OrderResult(None, None, false, false, false)
  }

  predicate AllDefinite(submissions: seq<Submission>) {
    forall s :: s in submissions ==> DefiniteRejection(s.answer)
  }

  /**
   One identity, at most two submissions, prices that do not rise, and a second one only after a
   definite increment rejection of the first.
   */
  predicate BoundedRetry(submissions: seq<Submission>, clientOrderId: string, limitPrice: real, quantity: int) {
    && |submissions| <= 2
    && (forall s :: s in submissions ==>
          s.orderId == clientOrderId && s.quantity == quantity && s.price <= limitPrice)
    && (|submissions| == 2 ==>
          && submissions[1].price <= submissions[0].price
          && DefiniteRejection(submissions[0].answer)
          && IncrementRejection(submissions[0].answer))
  }

  datatype Placement = Placement(result: Result<OrderResult, OrderError>, submissions: seq<Submission>)

  /**
   A whole placement as a function of what answered it: the increment known beforehand, the guard's
   verdicts, the broker's answers, and the preflight of the corrected price.
   */
  function PlaceWith(
    limitPrice: real, quantity: int, clientOrderId: string, increment: Option<real>, guards: (bool, bool),
    answers: (PlaceAnswer, PlaceAnswer), recheck: Result<PreflightCheck, OrderError>): Placement
  {
    match CorrectedPrice(RoundPrice(limitPrice), increment)
    case Failure(error) => Placement(Failure(error), [])
    case Success(price) =>
      var first := Submission(clientOrderId, price, quantity, answers.0);
      if guards.0 then Placement(Success(NotSubmitted()), [])
      else if !IncrementRejection(answers.0) then
        Placement(Success(BuyResult(clientOrderId, price, answers.0)), [first])
      else
        match SnapPrice(price, answers.0.increment.value)
        case Failure(error) => Placement(Failure(error), [first])
        case Success(_) =>
          if recheck.Failure? || guards.1 then Placement(Success(NotSubmitted()), [first])
          else
            var final := recheck.value.limitPrice;
            Placement(Success(BuyResult(clientOrderId, final, answers.1)),
                      [first, Submission(clientOrderId, final, quantity, answers.1)])
  }

  /** A successful preflight of the corrected price settles on it under the increment it returns. */
  predicate Rechecks(
    limitPrice: real, increment: Option<real>, answer: PlaceAnswer, recheck: Result<PreflightCheck, OrderError>)
  {
    recheck.Success? && IncrementRejection(answer) ==>
      var price := CorrectedPrice(RoundPrice(limitPrice), increment);
      && price.Success? && SnapPrice(price.value, answer.increment.value).Success?
      && SettledPrice(SnapPrice(price.value, answer.increment.value).value, recheck.value.currentIncrement)
         == Success(recheck.value.limitPrice)
  }

  /**
   How often a placement submits. Not at all when the price cannot be put on the known grid or the guard
   refuses; twice when the broker refuses the price with a 400 or 422 that names its increment, and the
   corrected price passes its preflight and the guard; once otherwise.
   */
  lemma SubmissionsExactly(
    limitPrice: real, quantity: int, clientOrderId: string, increment: Option<real>, guards: (bool, bool),
    answers: (PlaceAnswer, PlaceAnswer), recheck: Result<PreflightCheck, OrderError>)
    ensures var sent := PlaceWith(limitPrice, quantity, clientOrderId, increment, guards, answers, recheck).submissions;
            var onGrid := if increment.Some? && increment.value != 0.0
                          then SnapPrice(RoundPrice(limitPrice), increment.value) else Success(RoundPrice(limitPrice));
            && |sent| <= 2
            && (|sent| == 0 <==> onGrid.Failure? || guards.0)
            && (|sent| == 2 <==>
                  && onGrid.Success? && !guards.0
                  && answers.0.HttpError? && (answers.0.status == 400 || answers.0.status == 422)
                  && answers.0.increment.Some? && SnapPrice(onGrid.value, answers.0.increment.value).Success?
                  && recheck.Success? && !guards.1)
            && (|sent| >= 1 ==> sent[0] == Submission(clientOrderId, onGrid.value, quantity, answers.0))
            && (|sent| == 2 ==> sent[1] == Submission(clientOrderId, recheck.value.limitPrice, quantity, answers.1))
  {
  }

  /**
   What a BUY leaves to hold: the broker's id when it was accepted; nothing after a 4xx other than 408, 409
   and 429; and otherwise the client's own id, as the submission is uncertain.
   */
  lemma HeldExactly(clientOrderId: string, price: real, answer: PlaceAnswer)
    ensures var result := BuyResult(clientOrderId, price, answer);
            var refused := answer.HttpError? && 400 <= answer.status <= 499
                           && answer.status != 408 && answer.status != 409 && answer.status != 429;
            && result.orderId == (if answer.Accepted? then Some(answer.brokerOrderId)
                                  else if refused then None else Some(clientOrderId))
            && result.submissionUncertain == (!answer.Accepted? && !refused)
            && result.submissionAttempted && result.actualLimitPrice == Some(price)
  {
  }

  /** The increment that an answer of the broker's discloses. */
  function Disclosed(answer: PreflightAnswer): Option<real> {
    match answer
    case Costs(currentIncrement, _, _) => currentIncrement
    case ValidationRejected(Some(discovered)) => Some(discovered)
    case _ => None
  }

  /** The order manager's learned increments, by option symbol and by underlying. */
  class OrderManager {
    var priceIncrements: map<string, real>
    var underlyingIncrements: map<string, real>
    const underlyingOf: string -> Option<string>

    constructor (underlyingOf: string -> Option<string>)
      ensures priceIncrements == map[] && underlyingIncrements == map[]
      ensures this.underlyingOf == underlyingOf
    {
      priceIncrements, underlyingIncrements := map[], map[];
      this.underlyingOf := underlyingOf;
    }

    function LookupPriceIncrement(symbol: string): Option<real>
      reads this
    {
      if symbol in priceIncrements then Some(priceIncrements[symbol])
      else match underlyingOf(symbol)
           case None => None
           case Some(underlying) =>
             if underlying in underlyingIncrements then Some(underlyingIncrements[underlying]) else None
    }

    /** The cached increment, or failing that the one the broker discloses now. */
    function IncrementFor(symbol: string, disclosed: Option<real>): Option<real>
      reads this
    {
      var cached := LookupPriceIncrement(symbol);
      if cached.Some? then cached else disclosed
    }

    method CachePriceIncrement(symbol: string, increment: real)
      modifies this
      ensures priceIncrements == old(priceIncrements)[symbol := increment]
      ensures underlyingIncrements ==
              (match underlyingOf(symbol)
               case None => old(underlyingIncrements)
               case Some(underlying) => old(underlyingIncrements)[underlying := increment])
      ensures LookupPriceIncrement(symbol) == Some(increment)
    {
      priceIncrements := priceIncrements[symbol := increment];
      match underlyingOf(symbol)
      case None =>
      case Some(underlying) => underlyingIncrements := underlyingIncrements[underlying := increment];
    }

    /** The limit on the grid that the broker has just disclosed, which is cached unless it is negative. */
    method SnapToDiscovered(symbol: string, limitPrice: real, discovered: real) returns (r: Result<real, OrderError>)
      modifies this
      ensures r == SnapPrice(limitPrice, discovered)
      ensures discovered > 0.0 ==> LookupPriceIncrement(symbol) == Some(discovered)
      ensures discovered <= 0.0 ==>
                priceIncrements == old(priceIncrements) && underlyingIncrements == old(underlyingIncrements)
    {
      if discovered <= 0.0 {
        return Failure(InvalidPriceIncrement);
      }
      CachePriceIncrement(symbol, discovered);
      return SnapPrice(limitPrice, discovered);
    }

    /**
     Preflight until the broker prices exactly the limit snapped to the increment it reports, giving
     up after three requests.
     */
    method PreflightEntry(symbol: string, limitPrice: real, quantity: int, answers: seq<PreflightAnswer>)
      returns (r: Result<PreflightCheck, OrderError>, sent: seq<Request>)
      requires |answers| >= 3
      modifies this
      ensures 0 <= |sent| <= 3
      ensures forall k :: 0 <= k < |sent| ==> sent[k].quantity == quantity
      ensures r.Success? ==>
                && sent != []
                && Answers(answers[|sent| - 1], sent[|sent| - 1], r.value)
                && r.value.quantity == quantity
                && SettledPrice(limitPrice, r.value.currentIncrement) == Success(r.value.limitPrice)
      ensures r == Failure(PreflightIncrementUnstable) ==>
                && |sent| == 3
                && forall k :: 0 <= k < 3 ==> MovesIncrement(answers[k])
      ensures r == Failure(PreflightFailed) ==>
                sent != [] && (answers[|sent| - 1].RequestFailed? || answers[|sent| - 1] == ValidationRejected(None))
      ensures r == Failure(InvalidPriceIncrement) || r == Failure(PriceBelowBrokerIncrement) ==>
                var last := if sent == [] then old(LookupPriceIncrement(symbol)) else Disclosed(answers[|sent| - 1]);
                Known(last) && SnapPrice(limitPrice, last.value) == Failure(r.error)
    {
      var price := RoundPrice(limitPrice);
      var increment := LookupPriceIncrement(symbol);
      sent := [];
      for attempt := 0 to 3
        invariant |sent| == attempt
        invariant forall k :: 0 <= k < |sent| ==> sent[k].quantity == quantity
        invariant !Known(increment) ==> price == RoundPrice(limitPrice)
        invariant attempt == 0 ==> increment == old(LookupPriceIncrement(symbol))
        invariant attempt > 0 ==> increment == Disclosed(answers[attempt - 1])
        invariant forall k :: 0 <= k < attempt ==> MovesIncrement(answers[k])
      {
        if Known(increment) {
          var snapped := SnapPrice(limitPrice, increment.value);
          if snapped.Failure? {
            return Failure(snapped.error), sent;
          }
          price := snapped.value;
        }
        sent := sent + [Request(price, quantity)];
        match answers[attempt]
        case RequestFailed =>
          return Failure(PreflightFailed), sent;
        case ValidationRejected(discovered) =>
          if discovered.None? {
            return Failure(PreflightFailed), sent;
          }
          increment := Some(discovered.value);
          CachePriceIncrement(symbol, discovered.value);
        case Costs(discovered, buyingPower, estimatedCost) =>
          if Known(discovered) {
            increment := discovered;
            var corrected := SnapToDiscovered(symbol, limitPrice, discovered.value);
            if corrected.Failure? {
              return Failure(corrected.error), sent;
            }
            if corrected.value != price {
              price := corrected.value;
              continue;
            }
          }
          return Success(PreflightCheck(price, quantity, increment, buyingPower, estimatedCost)), sent;
      }
      return Failure(PreflightIncrementUnstable), sent;
    }

    /** Correct the payload price to the known or freshly disclosed increment, which is then cached. */
    method ApplyIncrementCorrection(symbol: string, price: real, disclosed: Option<real>)
      returns (r: Result<real, OrderError>)
      modifies this
      ensures r == CorrectedPrice(price, old(IncrementFor(symbol, disclosed)))
      ensures if old(LookupPriceIncrement(symbol)).None? && Known(disclosed)
              then LookupPriceIncrement(symbol) == disclosed
              else priceIncrements == old(priceIncrements) && underlyingIncrements == old(underlyingIncrements)
    {
      var increment := LookupPriceIncrement(symbol);
      if increment.None? {
        increment := disclosed;
        if Known(increment) {
          CachePriceIncrement(symbol, increment.value);
        }
      }
      if Known(increment) {
        return SnapPrice(price, increment.value);
      }
      return Success(price);
    }

    /**
     Submit a BUY under a guard, retrying once at the corrected price after a definite increment
     rejection. `guards` are the guard's verdicts at its two calls; a failure is an exception raised by
     the price arithmetic, which the caller treats as an uncertain submission.
     */
    method PlaceEntryOrder(
      symbol: string, limitPrice: real, quantity: int, clientOrderId: string,
      disclosed: Option<real>, guards: (bool, bool),
      placeAnswers: (PlaceAnswer, PlaceAnswer), preflightAnswers: seq<PreflightAnswer>)
      returns (r: Result<OrderResult, OrderError>, submissions: seq<Submission>,
               recheck: Result<PreflightCheck, OrderError>)
      requires WholeCents(limitPrice) && |preflightAnswers| >= 3
      modifies this
      ensures Placement(r, submissions) ==
              PlaceWith(limitPrice, quantity, clientOrderId, old(IncrementFor(symbol, disclosed)), guards,
                placeAnswers, recheck)
      ensures Rechecks(limitPrice, old(IncrementFor(symbol, disclosed)), placeAnswers.0, recheck)
      ensures BoundedRetry(submissions, clientOrderId, limitPrice, quantity)
      ensures r.Failure? ==> AllDefinite(submissions)
      ensures r.Success? && r.value.orderId.None? ==> AllDefinite(submissions)
      ensures r.Success? && r.value.orderId.Some? ==>
                && submissions != []
                && AllDefinite(submissions[..|submissions| - 1])
                && var last := submissions[|submissions| - 1];
                   && r.value.actualLimitPrice == Some(last.price)
                   && (r.value.submissionUncertain <==> Uncertain(last.answer))
                   && (if last.answer.Accepted? then r.value.orderId == Some(last.answer.brokerOrderId)
                       else Uncertain(last.answer) && r.value.orderId == Some(clientOrderId))
    {
      submissions, recheck := [], Failure(PreflightFailed);
      RoundPriceOfCents(limitPrice);
      var payloadPrice := RoundPrice(limitPrice);
      var corrected := ApplyIncrementCorrection(symbol, payloadPrice, disclosed);
      if corrected.Failure? {
        return Failure(corrected.error), submissions, recheck;
      }
      ghost var increment := old(IncrementFor(symbol, disclosed));
      if Known(increment) {
        SettledPriceBound(payloadPrice, increment);
      }
      var price := corrected.value;
      if guards.0 {
        return Success(NotSubmitted()), submissions, recheck;
      }
      var first := BuyResult(clientOrderId, price, placeAnswers.0);
      submissions := [Submission(clientOrderId, price, quantity, placeAnswers.0)];
      if first.orderId.Some? || !first.incrementRejected {
        return Success(first), submissions, recheck;
      }
      var learned := placeAnswers.0.increment.value;
      CachePriceIncrement(symbol, learned);
      var retryPrice := SnapPrice(price, learned);
      if retryPrice.Failure? {
        return Failure(retryPrice.error), submissions, recheck;
      }
      SnapNeverRaises(price, learned);
      var sent;
      recheck, sent := PreflightEntry(symbol, retryPrice.value, quantity, preflightAnswers);
      if recheck.Failure? {
        return Success(NotSubmitted()), submissions, recheck;
      }
      SettledPriceBound(retryPrice.value, recheck.value.currentIncrement);
      if guards.1 {
        return Success(NotSubmitted()), submissions, recheck;
      }
      var final := recheck.value.limitPrice;
      submissions := submissions + [Submission(clientOrderId, final, quantity, placeAnswers.1)];
      return Success(BuyResult(clientOrderId, final, placeAnswers.1)), submissions, recheck;
    }
  }
}
