/** Entry limit selection against a live quote, under a ceiling that is frozen at the first usable quote. */
module EntryPricing {
  import opened Wrappers
  import opened Rounding
  import opened OrderManagement

  const MAX_ABSURD_ENTRY_SPREAD_PCT: real := 1.50
  const PRICE_THROUGH_CONCESSION_USD: real := 0.10
  const DEFAULT_MAX_CHASE_PCT: real := 0.15
  const DEFAULT_WIDE_SPREAD_PCT: real := 0.20
  const CENT: real := 0.01

  datatype TimestampStatus = CurrentQuote | MissingTimestamp | UnprovenTimestamp

  datatype Quote = Quote(bid: Option<real>, ask: Option<real>, openInterest: Option<real>, timestamp: TimestampStatus)

  datatype Policy = Policy(requireOpenInterest: bool, preferredMaxSpreadPct: Option<real>)

  /** The pricing inputs one attempt carries; the first three are the frozen references, once set. */
  datatype Params = Params(
    originalMid: Option<real>,
    wideMarket: Option<bool>,
    priceCeiling: Option<real>,
    maxChasePct: Option<real>,
    priceThroughTarget: Option<real>,
    repriceStep: bool)

  datatype Block =
    | TimestampMissing
    | StaleOrUnproven
    | MissingBidAsk
    | CrossedBidAsk
    | OpenInterestMissing
    | SpreadUnavailable
    | SpreadAbsurd
    | CeilingUnusable

  datatype Pricing =
    | Priced(limitPrice: real, ceiling: real, originalMid: real, wideMarket: bool)
    | Blocked(reasons: seq<Block>)

  function Mid(bid: real, ask: real): real { (bid + ask) / 2.0 }

  function SpreadPct(q: Quote): Option<real> {
    if q.bid.None? || q.ask.None? || Mid(q.bid.value, q.ask.value) <= 0.0 then None
    else Some((q.ask.value - q.bid.value) / Mid(q.bid.value, q.ask.value))
  }

  function When(condition: bool, block: Block): seq<Block> { if condition then [block] else [] }

  function QuoteBlocks(q: Quote, policy: Policy): seq<Block> {
    var noQuote := q.bid.None? || q.ask.None? || q.bid.value <= 0.0 || q.ask.value <= 0.0;
    var spread := SpreadPct(q);
    When(q.timestamp.MissingTimestamp?, TimestampMissing)
    + When(q.timestamp.UnprovenTimestamp?, StaleOrUnproven)
    + When(noQuote, MissingBidAsk)
    + When(!noQuote && q.ask.value < q.bid.value, CrossedBidAsk)
    + When((policy.requireOpenInterest && q.openInterest.None?)
           || (q.openInterest.Some? && q.openInterest.value <= 0.0), OpenInterestMissing)
    + When(spread.None? && q.bid.Some? && q.ask.Some?, SpreadUnavailable)
    + When(spread.Some? && spread.value > MAX_ABSURD_ENTRY_SPREAD_PCT, SpreadAbsurd)
  }

  predicate IsWideMarket(q: Quote, policy: Policy) {
    var threshold := if policy.preferredMaxSpreadPct.Some? && policy.preferredMaxSpreadPct.value != 0.0
                     then policy.preferredMaxSpreadPct.value else DEFAULT_WIDE_SPREAD_PCT;
    SpreadPct(q).Some? && SpreadPct(q).value > threshold
  }

  function Least(x: real, y: real): real { if x <= y then x else y }

  /** A usable quote has both sides, positive and uncrossed. */
  lemma UsableQuote(q: Quote, policy: Policy)
    requires QuoteBlocks(q, policy) == []
    ensures q.bid.Some? && q.ask.Some? && 0.0 < q.bid.value <= q.ask.value
  {
  }

  function CeilingFor(params: Params, originalMid: real, wide: bool): real {
    var ceiling :=
      if params.priceCeiling.Some? then params.priceCeiling.value
      else
        var chase := if params.maxChasePct.Some? then params.maxChasePct.value else DEFAULT_MAX_CHASE_PCT;
        var chased := originalMid * (1.0 + chase);
        if wide then Least(chased, originalMid + PRICE_THROUGH_CONCESSION_USD) else chased;
    if params.priceThroughTarget.Some? then Least(ceiling, params.priceThroughTarget.value) else ceiling
  }

  function SelectEntryLimit(q: Quote, params: Params, policy: Policy): Result<Pricing, OrderError> {
    var blocks := QuoteBlocks(q, policy);
    if blocks != [] then Success(Blocked(blocks))
    else
      UsableQuote(q, policy);
      var bid, ask := q.bid.value, q.ask.value;
      var mid := Mid(bid, ask);
      var given := params.originalMid.Some? && params.originalMid.value != 0.0;
      var originalMid := if given then params.originalMid.value else mid;
      var wide := if params.wideMarket.Some? then params.wideMarket.value else IsWideMarket(q, policy);
      var ceiling := CeilingFor(params, originalMid, wide);
      var proposed := if params.repriceStep then (if wide then mid else ask)
                      else if wide then bid + 0.25 * (ask - bid) else mid;
      if ceiling <= 0.0 then Success(Blocked([CeilingUnusable]))
      else
        match SnapPrice(Least(Least(proposed, ask), ceiling), CENT)
        case Failure(error) => Failure(error)
        case Success(limit) => Success(Priced(limit, ceiling, originalMid, wide))
  }

  /** A selected limit is whole cents, positive, and under the ask and every ceiling that was given. */
  lemma LimitWithinCeilings(q: Quote, params: Params, policy: Policy)
    requires SelectEntryLimit(q, params, policy).Success? && SelectEntryLimit(q, params, policy).value.Priced?
    ensures var p := SelectEntryLimit(q, params, policy).value;
            && WholeCents(p.limitPrice) && 0.0 < p.limitPrice
            && q.ask.Some? && p.limitPrice <= q.ask.value
            && p.limitPrice <= p.ceiling
            && (params.priceCeiling.Some? ==> p.ceiling <= params.priceCeiling.value)
            && (params.priceThroughTarget.Some? ==> p.ceiling <= params.priceThroughTarget.value)
  {
    UsableQuote(q, policy);
    var p := SelectEntryLimit(q, params, policy).value;
    var bid, ask := q.bid.value, q.ask.value;
    var proposed := if params.repriceStep then (if p.wideMarket then Mid(bid, ask) else ask)
                    else if p.wideMarket then bid + 0.25 * (ask - bid) else Mid(bid, ask);
    var bound := Least(Least(proposed, ask), p.ceiling);
    assert WholeCents(CENT) by { WholeCentsOf(CENT, 1); }
    SnapIsLargestTick(bound, CENT, 0);
  }

  /** The quote may be priced: proven current, two-sided, uncrossed, open and not absurdly wide. */
  predicate Usable(q: Quote, policy: Policy) {
    && q.timestamp == CurrentQuote
    && q.bid.Some? && q.ask.Some? && 0.0 < q.bid.value <= q.ask.value
    && (policy.requireOpenInterest ==> q.openInterest.Some?)
    && (q.openInterest.Some? ==> q.openInterest.value > 0.0)
    && q.ask.value - q.bid.value <= 1.50 * ((q.bid.value + q.ask.value) / 2.0)
  }

  lemma UsableExactly(q: Quote, policy: Policy)
    ensures QuoteBlocks(q, policy) == [] <==> Usable(q, policy)
  {
    if q.bid.Some? && q.ask.Some? && 0.0 < q.bid.value <= q.ask.value {
      QuotientBound(q.ask.value - q.bid.value, Mid(q.bid.value, q.ask.value), 1.50);
    }
  }

  lemma QuotientBound(x: real, y: real, bound: real)
    requires y > 0.0
    ensures x / y > bound <==> x > bound * y
  {
    var quotient := x / y;
    assert quotient * y == x;
    if quotient > bound {
      ScaleStrict(bound, quotient, y);
    } else {
      Scale(quotient, bound, y);
    }
  }

  /** The market is wide when the caller says so, or failing that when the spread is over the threshold of its mid. */
  predicate Wide(q: Quote, params: Params, policy: Policy)
    requires q.bid.Some? && q.ask.Some?
  {
    if params.wideMarket.Some? then params.wideMarket.value
    else
      var threshold := match policy.preferredMaxSpreadPct
                       case Some(pct) => if pct != 0.0 then pct else 0.20
                       case None => 0.20;
      q.ask.value - q.bid.value > threshold * ((q.bid.value + q.ask.value) / 2.0)
  }

  /** First a quarter of the spread over the bid of a wide market, else the mid; for a reprice the mid, else the ask. */
  function Proposed(q: Quote, params: Params, wide: bool): real
    requires q.bid.Some? && q.ask.Some?
  {
    var bid, ask := q.bid.value, q.ask.value;
    match (params.repriceStep, wide)
    case (false, true) => 0.75 * bid + 0.25 * ask
    case (true, false) => ask
    case _ => 0.5 * bid + 0.5 * ask
  }

  /** No usable ceiling exceeds any of these, and it is one of them. */
  predicate IsCeiling(ceiling: real, params: Params, originalMid: real, wide: bool) {
    var chase := if params.maxChasePct.Some? then params.maxChasePct.value else 0.15;
    var own := match params.priceCeiling
               case Some(given) => {given}
               case None => {originalMid * (1.0 + chase)} + (if wide then {originalMid + 0.10} else {});
    var all := own + (if params.priceThroughTarget.Some? then {params.priceThroughTarget.value} else {});
    ceiling in all && forall bound :: bound in all ==> ceiling <= bound
  }

  lemma CeilingIsLeast(params: Params, originalMid: real, wide: bool)
    ensures IsCeiling(CeilingFor(params, originalMid, wide), params, originalMid, wide)
  {
  }

  lemma CentIsWhole()
    ensures WholeCents(CENT)
  {
    WholeCentsOf(CENT, 1);
  }

  /** Snapping to cents fails exactly below one cent. */
  lemma SnapToCents(value: real)
    ensures SnapPrice(value, CENT).Success? <==> value >= 0.01
    ensures SnapPrice(value, CENT).Success? ==>
              && SnapPrice(value, CENT).value <= value
              && forall price :: WholeCents(price) && price <= value ==> price <= SnapPrice(value, CENT).value
  {
    TickFloor(value, CENT);
    CentIsWhole();
    if SnapPrice(value, CENT).Success? {
      forall price | WholeCents(price) && price <= value ensures price <= SnapPrice(value, CENT).value {
        SnapIsLargestTick(value, CENT, RoundHalfEven(price * 100.0));
      }
      SnapIsLargestTick(value, CENT, 0);
    }
  }

  function MidOf(q: Quote, params: Params): real
    requires q.bid.Some? && q.ask.Some?
  {
    if params.originalMid.Some? && params.originalMid.value != 0.0 then params.originalMid.value
    else (q.bid.value + q.ask.value) / 2.0
  }

  lemma WideIsWideMarket(q: Quote, params: Params, policy: Policy)
    requires Usable(q, policy)
    ensures Wide(q, params, policy) ==
            if params.wideMarket.Some? then params.wideMarket.value else IsWideMarket(q, policy)
  {
    var spread, mid := q.ask.value - q.bid.value, Mid(q.bid.value, q.ask.value);
    if policy.preferredMaxSpreadPct.Some? {
      QuotientBound(spread, mid, policy.preferredMaxSpreadPct.value);
    }
    QuotientBound(spread, mid, 0.20);
  }

  /** What becomes of a usable quote: the snapped least of the proposed price, the ask and the ceiling. */
  lemma UsableSelection(q: Quote, params: Params, policy: Policy)
    requires Usable(q, policy)
    ensures var wide := Wide(q, params, policy);
            var ceiling := CeilingFor(params, MidOf(q, params), wide);
            SelectEntryLimit(q, params, policy) ==
            if ceiling <= 0.0 then Success(Blocked([CeilingUnusable]))
            else
              match SnapPrice(Least(Least(Proposed(q, params, wide), q.ask.value), ceiling), CENT)
              case Failure(error) => Failure(error)
              case Success(limit) => Success(Priced(limit, ceiling, MidOf(q, params), wide))
  {
    UsableExactly(q, policy);
    WideIsWideMarket(q, params, policy);
    var bid, ask := q.bid.value, q.ask.value;
    var wide := Wide(q, params, policy);
    assert Proposed(q, params, wide) == if params.repriceStep then (if wide then Mid(bid, ask) else ask)
                                        else if wide then bid + 0.25 * (ask - bid) else Mid(bid, ask);
  }

  /** A quote that is not usable is blocked, and never priced. */
  lemma UnusableIsBlocked(q: Quote, params: Params, policy: Policy)
    requires !Usable(q, policy)
    ensures var r := SelectEntryLimit(q, params, policy); r.Success? && r.value.Blocked?
  {
    UsableExactly(q, policy);
  }

  /**
   The selection for a usable quote, exactly. It is blocked only under a ceiling that is not positive.
   Otherwise the limit is the largest whole cent that exceeds neither the proposed price, nor the ask, nor
   the ceiling; only when there is none does the selection raise.
   */
  lemma SelectionExactly(q: Quote, params: Params, policy: Policy)
    requires Usable(q, policy)
    ensures var r := SelectEntryLimit(q, params, policy);
            var wide := Wide(q, params, policy);
            var ceiling := CeilingFor(params, MidOf(q, params), wide);
            && IsCeiling(ceiling, params, MidOf(q, params), wide)
            && (r.Success? && r.value.Blocked? <==> ceiling <= 0.0)
            && (r.Failure? <==> ceiling > 0.0
                                && !(0.01 <= Proposed(q, params, wide) && 0.01 <= q.ask.value && 0.01 <= ceiling))
            && (r.Success? && r.value.Priced? ==>
                  && r.value.ceiling == ceiling && r.value.wideMarket == wide && r.value.originalMid == MidOf(q, params)
                  && IsLargestCent(r.value.limitPrice, Proposed(q, params, wide), q.ask.value, ceiling))
  {
    UsableSelection(q, params, policy);
    var wide := Wide(q, params, policy);
    var ceiling := CeilingFor(params, MidOf(q, params), wide);
    CeilingIsLeast(params, MidOf(q, params), wide);
    SnapToCents(Least(Least(Proposed(q, params, wide), q.ask.value), ceiling));
  }

  /** The largest whole cent under all three bounds. */
  ghost predicate IsLargestCent(limit: real, proposed: real, ask: real, ceiling: real) {
    && WholeCents(limit) && limit <= proposed && limit <= ask && limit <= ceiling
    && forall price :: WholeCents(price) && price <= proposed && price <= ask && price <= ceiling ==> price <= limit
  }

  /** What the planner freezes for a contract after its first approved quote. */
  function Freeze(params: Params, p: Pricing): Params
    requires p.Priced?
  {
    params.(originalMid := Some(p.originalMid), wideMarket := Some(p.wideMarket), priceCeiling := Some(p.ceiling))
  }

  /**
   Once frozen, no later quote moves the ceiling: every limit selected for the contract, initial or
   rebuilt, stays at or below the ceiling of its first usable quote.
   */
  lemma FrozenCeilingNeverChases(first: Quote, later: Quote, params: Params, policy: Policy)
    requires SelectEntryLimit(first, params, policy).Success? && SelectEntryLimit(first, params, policy).value.Priced?
    ensures var frozen := SelectEntryLimit(first, params, policy).value;
            var again := SelectEntryLimit(later, Freeze(params, frozen), policy);
            again.Success? && again.value.Priced? ==>
              && again.value.ceiling == frozen.ceiling
              && again.value.limitPrice <= frozen.ceiling
              && Freeze(Freeze(params, frozen), again.value).priceCeiling == Freeze(params, frozen).priceCeiling
  {
    LimitWithinCeilings(first, params, policy);
    var frozen := SelectEntryLimit(first, params, policy).value;
    var again := SelectEntryLimit(later, Freeze(params, frozen), policy);
    if again.Success? && again.value.Priced? {
      LimitWithinCeilings(later, Freeze(params, frozen), policy);
    }
  }
}
