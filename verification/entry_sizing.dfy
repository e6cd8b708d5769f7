/**
 Sizing a live entry: the largest affordable quantity, then preflights of exactly that quantity until
 the broker's own costs no longer shrink it. Cash and risk previews are inputs.
 */
module EntrySizing {
  import opened Wrappers
  import opened Rounding
  import opened OrderManagement

  datatype SizingReason =
    | CashBlocked
    | CashUnavailable
    | InsufficientCash
    | RiskBlocked
    | LossHeadroomExceeded
    | InsufficientBudget
    | PreflightUnstable
    | PreflightError(error: OrderError)
    | PriceExceedsLimit

  /** The cash guard's preview, when there is a guard; capacity is what remains of the budget. */
  datatype CashPreview = NoCashGuard | CashPreview(blocked: bool, enforced: bool, capacity: Option<real>)

  /** The risk manager's preview, when there is one. */
  datatype RiskPreview =
    | NoRiskManager
    | RiskPreview(allowed: bool, headroomExceeded: bool, headroom: Option<real>)

  /** Price per share, the planned stop, the premium cap and the cash to set aside for fees. */
  datatype SizingInputs = SizingInputs(
    price: real,
    stopLossPct: Option<real>,
    premiumCap: real,
    extraCash: real,
    cash: CashPreview,
    risk: RiskPreview)

  function ContractCost(price: real): real { price * 100.0 }

  function PositionCost(price: real, quantity: int): real { TickPrice(quantity, ContractCost(price)) }

  function LossPerContract(price: real, pct: real): real { price * pct * 100.0 }

  lemma LossPerContractPositive(price: real, pct: real)
    requires price > 0.0 && pct > 0.0
    ensures LossPerContract(price, pct) > 0.0
  {
  }

  /** The planned stop loss of a position, rounded to cents; unknown without a usable stop. */
  function PlannedStopLoss(price: real, quantity: int, stopLossPct: Option<real>): Option<real> {
    if price <= 0.0 || quantity <= 0 || stopLossPct.None? || stopLossPct.value <= 0.0 then None
    else Some(RoundHalfEven(TickPrice(quantity, LossPerContract(price, stopLossPct.value)) * 100.0) as real / 100.0)
  }

  lemma PlannedStopLossMonotone(price: real, low: int, high: int, stopLossPct: Option<real>)
    requires 0 < low <= high && PlannedStopLoss(price, low, stopLossPct).Some?
    ensures PlannedStopLoss(price, high, stopLossPct).Some?
    ensures PlannedStopLoss(price, low, stopLossPct).value <= PlannedStopLoss(price, high, stopLossPct).value
  {
    var each := LossPerContract(price, stopLossPct.value);
    LossPerContractPositive(price, stopLossPct.value);
    TickPriceMonotone(low, high, each);
    RoundHalfEvenMonotone(TickPrice(low, each) * 100.0, TickPrice(high, each) * 100.0);
  }

  function NonNegative(x: real): real { if x > 0.0 then x else 0.0 }

  predicate CashOpen(cash: CashPreview) {
    cash.NoCashGuard? || (!cash.blocked && (cash.enforced ==> cash.capacity.Some?))
  }

  predicate RiskOpen(risk: RiskPreview) {
    risk.NoRiskManager? || risk.allowed || (risk.headroomExceeded && risk.headroom.Some?)
  }

  predicate WithinCash(i: SizingInputs, quantity: int) {
    i.cash.CashPreview? && i.cash.enforced && i.cash.capacity.Some? ==>
      PositionCost(i.price, quantity) <= NonNegative(i.cash.capacity.value - i.extraCash)
  }

  predicate WithinLoss(i: SizingInputs, quantity: int) {
    i.risk.RiskPreview? && i.risk.headroom.Some? ==>
      var loss := PlannedStopLoss(i.price, quantity, i.stopLossPct);
      loss.Some? && loss.value <= i.risk.headroom.value
  }

  /** A quantity every owner of a limit would accept. */
  predicate Fits(i: SizingInputs, upper: int, quantity: int) {
    && 1 <= quantity <= upper
    && CashOpen(i.cash) && RiskOpen(i.risk)
    && PositionCost(i.price, quantity) <= i.premiumCap
    && WithinCash(i, quantity)
    && WithinLoss(i, quantity)
  }

  /** The limits in dollars, at 100 shares a contract. */
  predicate AllowedInDollars(i: SizingInputs, upper: int, quantity: int) {
    var dollars := i.price * 100.0 * quantity as real;
    && 1 <= quantity <= upper
    && dollars <= i.premiumCap
    && (i.cash.CashPreview? ==>
          && !i.cash.blocked
          && (i.cash.enforced ==>
                && i.cash.capacity.Some?
                && (dollars <= i.cash.capacity.value - i.extraCash || dollars <= 0.0)))
    && (i.risk.RiskPreview? ==>
          && (i.risk.allowed || (i.risk.headroomExceeded && i.risk.headroom.Some?))
          && (i.risk.headroom.Some? ==>
                var loss := PlannedStopLoss(i.price, quantity, i.stopLossPct);
                loss.Some? && loss.value <= i.risk.headroom.value))
  }

  lemma PositionCostInDollars(price: real, quantity: int)
    ensures PositionCost(price, quantity) == price * 100.0 * quantity as real
  {
  }

  /** The planned loss is the stop's share of the position, to the nearest cent. */
  lemma PlannedStopLossInDollars(price: real, quantity: int, stopLossPct: Option<real>)
    ensures PlannedStopLoss(price, quantity, stopLossPct).Some? <==>
            price > 0.0 && quantity > 0 && stopLossPct.Some? && stopLossPct.value > 0.0
    ensures PlannedStopLoss(price, quantity, stopLossPct).Some? ==>
              var loss := PlannedStopLoss(price, quantity, stopLossPct).value;
              WholeCents(loss) && -0.005 <= loss - price * 100.0 * quantity as real * stopLossPct.value <= 0.005
  {
    if PlannedStopLoss(price, quantity, stopLossPct).Some? {
      var pct := stopLossPct.value;
      SamePlannedLoss(price, quantity, pct);
      NearestCent(TickPrice(quantity, LossPerContract(price, pct)));
    }
  }

  /** A sum rounded to cents is whole cents and within half a cent of it. */
  lemma NearestCent(dollars: real)
    ensures var cents := RoundHalfEven(dollars * 100.0) as real / 100.0;
            WholeCents(cents) && -0.005 <= cents - dollars <= 0.005
  {
    RoundHalfEvenOfInteger(RoundHalfEven(dollars * 100.0));
  }

  lemma SamePlannedLoss(price: real, quantity: int, pct: real)
    ensures TickPrice(quantity, LossPerContract(price, pct)) == price * 100.0 * quantity as real * pct
  {
    var n := quantity as real;
    calc {
      n * (price * pct * 100.0);
      n * ((price * 100.0) * pct);
      (n * (price * 100.0)) * pct;
      price * 100.0 * n * pct;
    }
  }

  lemma FitsInDollars(i: SizingInputs, upper: int, quantity: int)
    requires i.price > 0.0
    ensures Fits(i, upper, quantity) <==> AllowedInDollars(i, upper, quantity)
  {
    PositionCostInDollars(i.price, quantity);
  }

  /** Why not even one contract may be bought, in the order in which the limits are asked. */
  function RefusalOfOne(i: SizingInputs, upper: int): Option<SizingReason> {
    var wanted := upper >= 1 && i.price * 100.0 <= i.premiumCap;
    if i.cash.CashPreview? && i.cash.blocked then Some(CashBlocked)
    else if i.cash.CashPreview? && i.cash.enforced && i.cash.capacity.None? then Some(CashUnavailable)
    else if i.cash.CashPreview? && i.cash.enforced
            && !(wanted && i.price * 100.0 <= i.cash.capacity.value - i.extraCash) then Some(InsufficientCash)
    else if i.risk.RiskPreview? && !i.risk.allowed && !i.risk.headroomExceeded then Some(RiskBlocked)
    else if i.risk.RiskPreview? && i.risk.headroom.None? && !i.risk.allowed then Some(LossHeadroomExceeded)
    else if i.risk.RiskPreview? && i.risk.headroom.Some? && !(wanted && WithinLoss(i, 1))
    then Some(LossHeadroomExceeded)
    else if wanted then None
    else Some(InsufficientBudget)
  }

  ghost predicate LargestFit(i: SizingInputs, upper: int, quantity: int) {
    Fits(i, upper, quantity) && forall k :: k > quantity ==> !Fits(i, upper, k)
  }

  /** The largest quantity costs no more than the cap, and one contract more breaks one of the limits in dollars. */
  lemma LargestFitInDollars(i: SizingInputs, upper: int, quantity: int)
    requires i.price > 0.0 && LargestFit(i, upper, quantity)
    ensures AllowedInDollars(i, upper, quantity) && !AllowedInDollars(i, upper, quantity + 1)
    ensures i.price * 100.0 * quantity as real <= i.premiumCap
  {
    FitsInDollars(i, upper, quantity);
    FitsInDollars(i, upper, quantity + 1);
  }

  lemma ContractCostPositive(price: real)
    requires price > 0.0
    ensures ContractCost(price) > 0.0
  {
  }

  /** Floor division by the contract cost counts the affordable contracts. */
  lemma AffordableIff(price: real, budget: real, quantity: int)
    requires price > 0.0
    ensures ContractCost(price) > 0.0
    ensures PositionCost(price, quantity) <= budget <==> quantity <= TickUnits(budget, ContractCost(price))
  {
    var cost := ContractCost(price);
    ContractCostPositive(price);
    var most := TickUnits(budget, cost);
    TickFloor(budget, cost);
    if quantity <= most {
      TickPriceMonotone(quantity, most, cost);
    } else {
      TickPriceMonotone(most + 1, quantity, cost);
    }
  }

  /** Loss headroom is downward closed, so a binary search finds its edge. */
  lemma WithinLossDownward(i: SizingInputs, low: int, high: int)
    requires 0 < low <= high && WithinLoss(i, high)
    ensures WithinLoss(i, low)
  {
    if i.risk.RiskPreview? && i.risk.headroom.Some? {
      PlannedStopLossMonotone(i.price, low, high, i.stopLossPct);
    }
  }

  function Smaller(x: int, y: int): int { if x <= y then x else y }

  /** The largest quantity of at most `quantity` whose planned loss stays within the headroom. */
  method LargestWithinLoss(i: SizingInputs, quantity: int) returns (low: int)
    requires i.risk.RiskPreview? && i.risk.headroom.Some?
    ensures 0 <= low
    ensures low > 0 ==> low <= quantity && WithinLoss(i, low)
    ensures forall k :: low < k <= quantity ==> !WithinLoss(i, k)
  {
    low := 0;
    var high := quantity;
    while low < high
      invariant 0 <= low && (low <= high || low == 0)
      invariant high <= quantity
      invariant low > 0 ==> low <= quantity && WithinLoss(i, low)
      invariant forall k :: high < k <= quantity ==> !WithinLoss(i, k)
      decreases high - low
    {
      var candidate := (low + high + 1) / 2;
      var loss := PlannedStopLoss(i.price, candidate, i.stopLossPct);
      if loss.Some? && loss.value <= i.risk.headroom.value {
        low := candidate;
      } else {
        forall k | candidate <= k <= high ensures !WithinLoss(i, k) {
          if WithinLoss(i, k) {
            WithinLossDownward(i, candidate, k);
          }
        }
        high := candidate - 1;
      }
    }
  }

  /** Advisory sizing: no reason means the largest fitting quantity, a reason means nothing fits. */
  method FitLiveQuantity(i: SizingInputs, upper: int) returns (quantity: int, reason: Option<SizingReason>)
    requires i.price > 0.0
    ensures reason.None? ==> LargestFit(i, upper, quantity)
    ensures reason.Some? ==> quantity <= 0 && forall k :: !Fits(i, upper, k)
    ensures reason == RefusalOfOne(i, upper)
  {
    var cost := ContractCost(i.price);
    ContractCostPositive(i.price);
    var byCap := TickUnits(i.premiumCap, cost);
    quantity := Smaller(upper, byCap);
    forall k | Fits(i, upper, k) ensures k <= quantity {
      AffordableIff(i.price, i.premiumCap, k);
    }
    AffordableIff(i.price, i.premiumCap, quantity);
    AffordableIff(i.price, i.premiumCap, 1);
    if i.cash.CashPreview? {
      if i.cash.blocked {
        return 0, Some(CashBlocked);
      }
      if i.cash.enforced {
        if i.cash.capacity.None? {
          return 0, Some(CashUnavailable);
        }
        var budget := NonNegative(i.cash.capacity.value - i.extraCash);
        quantity := Smaller(quantity, TickUnits(budget, cost));
        forall k | Fits(i, upper, k) ensures k <= quantity {
          AffordableIff(i.price, budget, k);
        }
        AffordableIff(i.price, budget, quantity);
        AffordableIff(i.price, i.premiumCap, quantity);
        AffordableIff(i.price, budget, 1);
        if quantity < 1 {
          return 0, Some(InsufficientCash);
        }
      }
    }
    if i.risk.RiskPreview? {
      if !i.risk.allowed && !i.risk.headroomExceeded {
        return 0, Some(RiskBlocked);
      }
      if i.risk.headroom.Some? {
        var sized := LargestWithinLoss(i, quantity);
        forall k | Fits(i, upper, k) ensures k <= sized {
        }
        if sized >= 1 {
          WithinLossDownward(i, 1, sized);
        }
        if sized < 1 {
          return 0, Some(LossHeadroomExceeded);
        }
        AffordableIff(i.price, i.premiumCap, sized);
        if i.cash.CashPreview? && i.cash.enforced {
          AffordableIff(i.price, NonNegative(i.cash.capacity.value - i.extraCash), quantity);
          AffordableIff(i.price, NonNegative(i.cash.capacity.value - i.extraCash), sized);
        }
        quantity := sized;
      } else if !i.risk.allowed {
        return 0, Some(LossHeadroomExceeded);
      }
    }
    if quantity > 0 {
      return quantity, None;
    }
    return quantity, Some(InsufficientBudget);
  }

  // ---------------------------------------------------------------- preflight and resize

  /** One round of the resize loop: the broker's preflight, then fresh previews. */
  datatype Round = Round(
    disclosed: Option<real>,
    preflightFails: bool,
    buyingPower: Option<real>,
    estimatedCost: Option<real>,
    cash: CashPreview,
    risk: RiskPreview)

  /** A sized entry: what is reserved, submitted at most, and what it was last priced as. */
  datatype SizedEntry = SizedEntry(quantity: int, limitPrice: real, requiredCash: real)

  function AtLeast(x: Option<real>, y: real): real {
    if x.Some? && x.value > y then x.value else y
  }

  /** `max(buying power, estimated cost, price * quantity * 100)` with missing costs as zero. */
  function BrokerRequirement(r: Round, price: real, quantity: int): real {
    AtLeast(r.buyingPower, AtLeast(r.estimatedCost, AtLeast(Some(0.0), PositionCost(price, quantity))))
  }

  function CostOr0(x: Option<real>): real { if x.Some? then x.value else 0.0 }

  /** The cash reservation: broker figures, or the sizing cost plus the broker's own fees. */
  function RequiredCash(r: Round, sizingPrice: real, limitPrice: real, quantity: int): real {
    var fees := NonNegative(CostOr0(r.estimatedCost) - PositionCost(limitPrice, quantity));
    AtLeast(r.buyingPower, AtLeast(r.estimatedCost, AtLeast(Some(0.0), PositionCost(sizingPrice, quantity) + fees)))
  }

  /** A sized entry that its limits allow, spending no more than the cap and the cash it will reserve. */
  predicate WithinSpend(e: SizedEntry, entryPrice: real, sizingPrice: real, premiumCap: real) {
    && e.quantity >= 1
    && WholeCents(e.limitPrice) && e.limitPrice <= entryPrice <= sizingPrice
    && PositionCost(e.limitPrice, e.quantity) <= PositionCost(sizingPrice, e.quantity) <= premiumCap
    && PositionCost(sizingPrice, e.quantity) <= e.requiredCash
  }

  lemma PositionCostInPrice(low: real, high: real, quantity: int)
    requires low <= high && quantity >= 0
    ensures PositionCost(low, quantity) <= PositionCost(high, quantity)
  {
    Scale(low, high, 100.0);
    var n := quantity as real;
    assert n * ContractCost(low) <= n * ContractCost(high) by {
      Scale(ContractCost(low), ContractCost(high), n);
    }
  }

  lemma RequiredCashCovers(r: Round, sizingPrice: real, limitPrice: real, quantity: int)
    ensures var required := RequiredCash(r, sizingPrice, limitPrice, quantity);
            var cost := r.estimatedCost;
            var dollars := sizingPrice * 100.0 * quantity as real;
            var fees := if cost.Some? then cost.value - limitPrice * 100.0 * quantity as real
                        else 0.0 - limitPrice * 100.0 * quantity as real;
            && required >= dollars && required >= dollars + fees && required >= 0.0
            && (r.buyingPower.Some? ==> required >= r.buyingPower.value) && (cost.Some? ==> required >= cost.value)
            && (required == dollars || required == dollars + fees || required == 0.0
                || Some(required) in {r.buyingPower, cost})
  {
    PositionCostInDollars(sizingPrice, quantity);
    PositionCostInDollars(limitPrice, quantity);
  }

  lemma SizedWithinSpend(entryPrice: real, inputs: SizingInputs, round: Round, limitPrice: real, quantity: int)
    requires WholeCents(limitPrice) && limitPrice <= entryPrice <= inputs.price && Fits(inputs, quantity, quantity)
    ensures WithinSpend(SizedEntry(quantity, limitPrice, RequiredCash(round, inputs.price, limitPrice, quantity)),
                        entryPrice, inputs.price, inputs.premiumCap)
  {
    PositionCostInPrice(limitPrice, inputs.price, quantity);
  }

  /** The inputs of a refit: the broker's costs beyond the position are set aside, and the previews are new. */
  function Refit(first: SizingInputs, round: Round, asked: Request): SizingInputs {
    first.(extraCash := NonNegative(BrokerRequirement(round, asked.price, asked.quantity)
                                    - PositionCost(asked.price, asked.quantity)),
           cash := round.cash,
           risk := round.risk)
  }

  /** What the limits are, and the quantity they are asked for, after the preflights so far. */
  function InputsAfter(first: SizingInputs, rounds: seq<Round>, preflighted: seq<Request>): SizingInputs
    requires |preflighted| <= |rounds|
  {
    var n := |preflighted|;
    if n == 0 then first else Refit(first, rounds[n - 1], preflighted[n - 1])
  }

  function UpperAfter(upper: int, preflighted: seq<Request>): int {
    if preflighted == [] then upper else preflighted[|preflighted| - 1].quantity
  }

  /**
   Each preflight is for the settled price, and for the largest quantity that fitted after the one before
   it, which was too many.
   */
  ghost predicate Asked(entryPrice: real, first: SizingInputs, upper: int, rounds: seq<Round>,
                        preflighted: seq<Request>)
  {
    preflighted != [] && |preflighted| <= |rounds| ==>
      var n := |preflighted| - 1;
      && Asked(entryPrice, first, upper, rounds, preflighted[..n])
      && !rounds[n].preflightFails
      && SettledPrice(entryPrice, rounds[n].disclosed) == Success(preflighted[n].price)
      && LargestFit(InputsAfter(first, rounds, preflighted[..n]), UpperAfter(upper, preflighted[..n]),
                    preflighted[n].quantity)
      && (n > 0 ==> preflighted[n].quantity < preflighted[n - 1].quantity)
  }

  /** The quantities asked for are among those requested, and shrink. */
  lemma {:induction false} AskedShrinks(entryPrice: real, first: SizingInputs, upper: int, rounds: seq<Round>,
                                        preflighted: seq<Request>)
    requires |preflighted| <= |rounds| && Asked(entryPrice, first, upper, rounds, preflighted)
    ensures forall k :: 0 <= k < |preflighted| ==> 1 <= preflighted[k].quantity <= upper
    ensures forall j, k :: 0 <= j < k < |preflighted| ==> preflighted[k].quantity < preflighted[j].quantity
  {
    if preflighted != [] {
      AskedShrinks(entryPrice, first, upper, rounds, preflighted[..|preflighted| - 1]);
    }
  }

  /**
   When sizing fails after these preflights. Either not even one contract fits any more, for that reason;
   or the quantity still shrank, and it was the third preflight, or the next preflight failed.
   */
  predicate SizingFails(entryPrice: real, first: SizingInputs, upper: int, rounds: seq<Round>,
                        preflighted: seq<Request>, reason: SizingReason)
  {
    var n := |preflighted|;
    && n <= |rounds|
    && var inputs, most := InputsAfter(first, rounds, preflighted), UpperAfter(upper, preflighted);
       match RefusalOfOne(inputs, most)
       case Some(refusal) => reason == refusal
       case None =>
         && (n > 0 ==> !Fits(inputs, most, most))
         && (if n >= 3 then reason == PreflightUnstable
             else
               && n < |rounds|
               && (if rounds[n].preflightFails then reason == PreflightError(PreflightFailed)
                   else
                     && SettledPrice(entryPrice, rounds[n].disclosed).Failure?
                     && reason == PreflightError(SettledPrice(entryPrice, rounds[n].disclosed).error)))
  }

  /** The fit after a preflight, at the larger of its price and the sizing price. */
  method RefitQuantity(first: SizingInputs, round: Round, asked: Request)
    returns (quantity: int, reason: Option<SizingReason>)
    requires 0.0 < first.price && asked.price <= first.price
    ensures reason.None? ==> LargestFit(Refit(first, round, asked), asked.quantity, quantity)
    ensures reason == RefusalOfOne(Refit(first, round, asked), asked.quantity)
  {
    var required := BrokerRequirement(round, asked.price, asked.quantity);
    var price := if asked.price > first.price then asked.price else first.price;
    var inputs := SizingInputs(price, first.stopLossPct, first.premiumCap,
                               NonNegative(required - PositionCost(asked.price, asked.quantity)),
                               round.cash, round.risk);
    quantity, reason := FitLiveQuantity(inputs, asked.quantity);
  }

  /**
   Fit, then preflight exactly the fitted quantity, at most three times. On success nothing has grown,
   the last preflight was for exactly the final quantity and price, and the spend is bounded.
   */
  method SizeLiveEntry(
    entryPrice: real, sizingPrice: real, stopLossPct: Option<real>, premiumCap: real, upper: int,
    cash: CashPreview, risk: RiskPreview, rounds: seq<Round>)
    returns (r: Result<SizedEntry, SizingReason>, preflighted: seq<Request>)
    requires WholeCents(entryPrice) && 0.0 < entryPrice <= sizingPrice && |rounds| >= 3
    ensures |preflighted| <= 3
    ensures var first := SizingInputs(sizingPrice, stopLossPct, premiumCap, 0.0, cash, risk);
            && Asked(entryPrice, first, upper, rounds, preflighted)
            && (r.Failure? ==> SizingFails(entryPrice, first, upper, rounds, preflighted, r.error))
            && (r.Success? ==> preflighted != []
                               && Fits(InputsAfter(first, rounds, preflighted), r.value.quantity, r.value.quantity))
    ensures r.Success? ==>
              && WithinSpend(r.value, entryPrice, sizingPrice, premiumCap)
              && preflighted != []
              && preflighted[|preflighted| - 1] == Request(r.value.limitPrice, r.value.quantity)
              && r.value.requiredCash ==
                 RequiredCash(rounds[|preflighted| - 1], sizingPrice, r.value.limitPrice, r.value.quantity)
  {
    preflighted := [];
    var first := SizingInputs(sizingPrice, stopLossPct, premiumCap, 0.0, cash, risk);
    var quantity, reason := FitLiveQuantity(first, upper);
    if reason.Some? {
      return Failure(reason.value), preflighted;
    }
    for attempt := 0 to 3
      invariant |preflighted| == attempt
      invariant Asking(entryPrice, first, upper, rounds, preflighted, quantity)
    {
      var round := rounds[attempt];
      var settled := SettledPrice(entryPrice, round.disclosed);
      if round.preflightFails {
        AskingFails(entryPrice, first, upper, rounds, preflighted, quantity, PreflightError(PreflightFailed));
        return Failure(PreflightError(PreflightFailed)), preflighted;
      }
      if settled.Failure? {
        AskingFails(entryPrice, first, upper, rounds, preflighted, quantity, PreflightError(settled.error));
        return Failure(PreflightError(settled.error)), preflighted;
      }
      var limitPrice := settled.value;
      SettledPriceBound(entryPrice, round.disclosed);
      AskedGrows(entryPrice, first, upper, rounds, preflighted, Request(limitPrice, quantity));
      preflighted := preflighted + [Request(limitPrice, quantity)];
      var fitted, blocked := RefitQuantity(first, round, Request(limitPrice, quantity));
      if blocked.Some? {
        return Failure(blocked.value), preflighted;
      }
      if fitted == quantity {
        if limitPrice > entryPrice + 0.000000001 {
          return Failure(PriceExceedsLimit), preflighted;
        }
        SizedWithinSpend(entryPrice, InputsAfter(first, rounds, preflighted), round, limitPrice, quantity);
        return Success(SizedEntry(quantity, limitPrice, RequiredCash(round, sizingPrice, limitPrice, quantity))),
          preflighted;
      }
      quantity := fitted;
    }
    AskingFails(entryPrice, first, upper, rounds, preflighted, quantity, PreflightUnstable);
    return Failure(PreflightUnstable), preflighted;
  }

  /** The next quantity to preflight, and what led to it. */
  ghost predicate Asking(entryPrice: real, first: SizingInputs, upper: int, rounds: seq<Round>,
                         preflighted: seq<Request>, quantity: int)
  {
    && |preflighted| <= |rounds|
    && Asked(entryPrice, first, upper, rounds, preflighted)
    && RefusalOfOne(InputsAfter(first, rounds, preflighted), UpperAfter(upper, preflighted)).None?
    && LargestFit(InputsAfter(first, rounds, preflighted), UpperAfter(upper, preflighted), quantity)
    && (preflighted != [] ==> quantity < preflighted[|preflighted| - 1].quantity)
  }

  lemma AskedGrows(entryPrice: real, first: SizingInputs, upper: int, rounds: seq<Round>, preflighted: seq<Request>,
                   next: Request)
    requires Asking(entryPrice, first, upper, rounds, preflighted, next.quantity) && |preflighted| < |rounds|
    requires !rounds[|preflighted|].preflightFails
    requires SettledPrice(entryPrice, rounds[|preflighted|].disclosed) == Success(next.price)
    ensures Asked(entryPrice, first, upper, rounds, preflighted + [next])
    ensures next.quantity >= 1
  {
    assert (preflighted + [next])[..|preflighted|] == preflighted;
  }

  /** While a quantity is still asked for, only the third preflight or a failing one ends the sizing. */
  lemma AskingFails(entryPrice: real, first: SizingInputs, upper: int, rounds: seq<Round>, preflighted: seq<Request>,
                    quantity: int, reason: SizingReason)
    requires Asking(entryPrice, first, upper, rounds, preflighted, quantity)
    requires var n := |preflighted|;
             if n >= 3 then reason == PreflightUnstable
             else if n < |rounds| && rounds[n].preflightFails then reason == PreflightError(PreflightFailed)
             else
               && n < |rounds| && SettledPrice(entryPrice, rounds[n].disclosed).Failure?
               && reason == PreflightError(SettledPrice(entryPrice, rounds[n].disclosed).error)
    ensures SizingFails(entryPrice, first, upper, rounds, preflighted, reason)
  {
  }
}
