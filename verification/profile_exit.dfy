/**
 The exit-profile ladder: one evaluation per quote over a per-trade state object.

 `Step` is the ladder as a function of the prior state; `EvaluateProfileExit` is the same ladder as the
 runtime runs it, updating a `ProfileExitState` in place. What a whole run of evaluations keeps is
 proved in module `LadderRuns`.
 */
module ProfileExit {
  import opened Wrappers
  import ExitPolicy
  import Rounding
  import SessionClock

  datatype Rule =
    | HoldRule
    | InitialStop
    | DisasterStop
    | Target1Partial
    | Target2Runner
    | HighWaterGiveback
    | PolicyFloor
    | NoProgress
    | MaxHold
    | EodFlat

  datatype FsmAction = Hold | SquareOff | PartialScale | StopToBreakeven | HardFlat

  datatype Reason =
    | NoPosition
    | NoRisk
    | PremiumUnavailable
    | ProfileHold
    | EodFlatReached
    | PremiumDisasterStop
    | BreakevenStop
    | InitialStopReached
    | PolicyFloorReached
    | Target1Full
    | Target1Banked
    | Target2Reached
    | GivebackReached
    | MaxHoldReached
    | NoProgressReached
    | MoveStopToBreakeven

  datatype GivebackTier = Off | Strict | Moderate | Loose | UnknownTier

  datatype FloorPolicy =
    | NoFloorPolicy
    | ProfitPreservation(lockArmR: real, lockFloorR: real)
    | DynamicEnvelope(activationR: real, initialFloorR: real, floorAtT1R: real, curvature: real, ratchetStepR: real)

  /** The exit-profile dials. Times of day are minutes after midnight. */
  datatype Fields = Fields(
    target1R: Option<real>,
    target2R: Option<real>,
    target1Quantity: real,
    initialStopPct: Option<real>,
    premiumDisasterStopPct: Option<real>,
    optionStopFallbackPct: real,
    targetR: real,
    noProgressSeconds: Option<int>,
    maxHoldSeconds: Option<int>,
    givebackTier: GivebackTier,
    breakevenAfterT1: bool,
    eodFlat: bool,
    hardFlatTime: int,
    noProgressFavorableFloorR: real,
    floorPolicy: FloorPolicy,
    explicitGivebackArmR: Option<real>,
    explicitGivebackRetrace: Option<real>)

  predicate Positive(x: Option<real>) {
    x.Some? && x.value > 0.0
  }

  /** The premium-percentage stop distance that defines R. */
  function StopPct(f: Fields): (pct: real)
    ensures pct > 0.0
  {
    if Positive(f.initialStopPct) then f.initialStopPct.value
    else if Positive(f.premiumDisasterStopPct) then f.premiumDisasterStopPct.value
    else if f.optionStopFallbackPct > 0.0 then f.optionStopFallbackPct
    else 0.45
  }

  function TierArmR(tier: GivebackTier): Option<real> {
    match tier
    case Strict => Some(1.0)
    case Moderate => Some(1.25)
    case Loose => Some(1.5)
    case _ => None
  }

  function GivebackArmR(f: Fields): Option<real> {
    if f.explicitGivebackArmR.Some? then f.explicitGivebackArmR else TierArmR(f.givebackTier)
  }

  function GivebackRetrace(f: Fields): real {
    if f.explicitGivebackRetrace.Some? then f.explicitGivebackRetrace.value
    else match f.givebackTier
         case Strict => 0.33
         case Loose => 0.66
         case _ => 0.50
  }

  function EffectiveTarget1R(f: Fields): Option<real> {
    if Positive(f.target1R) then f.target1R else None
  }

  function EffectiveTarget2R(f: Fields): Option<real> {
    if Positive(f.target2R) then f.target2R
    else if f.targetR > 0.0 then Some(f.targetR)
    else None
  }

  // ---------------------------------------------------------------- carried state

  datatype LadderState = LadderState(
    peakPremium: real,
    target1Banked: bool,
    target1Premium: Option<real>,
    stopAtBreakeven: bool,
    bankedQuantity: int,
    breakevenEmitted: bool,
    shadowAdvanced: bool,
    seedEntryPremium: Option<real>,
    seedQuantity: Option<int>)

  function FreshState(entryPremium: real, seedQuantity: Option<int>): LadderState {
    LadderState(entryPremium, false, None, false, 0, false, false, Some(entryPremium), seedQuantity)
  }

  /** Per-trade ladder state, updated in place by every evaluation. */
  class ProfileExitState {
    var peakPremium: real
    var target1Banked: bool
    var target1Premium: Option<real>
    var stopAtBreakeven: bool
    var bankedQuantity: int
    var breakevenEmitted: bool
    var shadowAdvanced: bool
    var seedEntryPremium: Option<real>
    var seedQuantity: Option<int>

    ghost function View(): LadderState
      reads this
    {
      LadderState(peakPremium, target1Banked, target1Premium, stopAtBreakeven, bankedQuantity,
                  breakevenEmitted, shadowAdvanced, seedEntryPremium, seedQuantity)
    }

    constructor New(entryPremium: real, seedQuantity: Option<int>)
      ensures View() == FreshState(entryPremium, seedQuantity)
    {
      peakPremium := entryPremium;
      target1Banked := false;
      target1Premium := None;
      stopAtBreakeven := false;
      bankedQuantity := 0;
      breakevenEmitted := false;
      shadowAdvanced := false;
      seedEntryPremium := Some(entryPremium);
      this.seedQuantity := seedQuantity;
    }

    /** Whatever a shadow run accumulated, the first live evaluation starts from a fresh ladder. */
    method ReseedForLive(entryPremium: real, seedQuantity: Option<int>)
      modifies this
      ensures View() == FreshState(entryPremium, if seedQuantity.Some? then seedQuantity else old(this.seedQuantity))
    {
      peakPremium := entryPremium;
      target1Banked := false;
      target1Premium := None;
      stopAtBreakeven := false;
      bankedQuantity := 0;
      breakevenEmitted := false;
      shadowAdvanced := false;
      seedEntryPremium := Some(entryPremium);
      if seedQuantity.Some? {
        this.seedQuantity := seedQuantity;
      }
    }
  }

  // ---------------------------------------------------------------- one evaluation

  datatype Decision = Decision(
    rule: Rule,
    action: FsmAction,
    reason: Reason,
    exit: bool,
    exitQuantity: int,
    targetStopPrice: Option<real>,
    cancelProtectionOrders: bool)

  datatype LadderError =
    | MissingBarClock
    | EnvelopeTargetMissing
    | EnvelopeRejected(error: ExitPolicy.EnvelopeError)
    | ZeroRatchetStep

  type Outcome = Result<Decision, LadderError>

  /** What stays fixed over the evaluations of one trade. */
  datatype Trade = Trade(
    fields: Fields,
    entryPremium: real,
    quantity: int,
    entryTime: Option<int>,
    calendar: SessionClock.Calendar,
    pow: ExitPolicy.Power)

  /** One evaluation's inputs: the exit-reference premium, the bar clock, and the instant. */
  datatype Tick = Tick(currentPremium: Option<real>, barTime: Option<int>, now: int, requireBarTime: bool)

  function HoldFor(reason: Reason): Outcome {
    Success(Decision(HoldRule, Hold, reason, false, 0, None, false))
  }

  function FullExit(rule: Rule, action: FsmAction, reason: Reason, quantity: int): Outcome {
    Success(Decision(rule, action, reason, true, quantity, None, true))
  }

  function PartialExit(quantity: int): Outcome {
    Success(Decision(Target1Partial, PartialScale, Target1Banked, true, quantity, None, true))
  }

  function BreakevenMove(entryPremium: real): Outcome {
    Success(Decision(Target1Partial, StopToBreakeven, MoveStopToBreakeven, false, 0, Some(entryPremium), false))
  }

  function RemainingQuantity(quantity: int, bankedQuantity: int): int {
    if quantity - bankedQuantity > 0 then quantity - bankedQuantity else quantity
  }

  /** The contracts to bank at target 1: a real fraction is strictly inside the position when it can be. */
  function PartialQuantity(quantity: int, fraction: real): (banked: int)
    ensures quantity > 1 && fraction < 1.0 ==> 1 <= banked < quantity
    ensures quantity <= 1 || fraction >= 1.0 ==> banked == quantity
  {
    if fraction >= 1.0 || quantity <= 1 then quantity
    else
      var banked := Rounding.RoundHalfEven(quantity as real * fraction);
      if banked < 1 then 1 else if banked > quantity - 1 then quantity - 1 else banked
  }

  /** Where the fraction of the position is not at its very ends, the bank is the nearest whole number of contracts. */
  lemma PartialIsNearest(quantity: int, fraction: real)
    requires quantity > 1 && fraction < 1.0
    ensures var share, banked := quantity as real * fraction, PartialQuantity(quantity, fraction) as real;
            && (share <= 1.0 ==> banked == 1.0)
            && (share >= (quantity - 1) as real ==> banked == (quantity - 1) as real)
            && (1.0 <= share <= (quantity - 1) as real ==> -0.5 <= banked - share <= 0.5)
  {
    var share := quantity as real * fraction;
    Rounding.RoundHalfEvenOfInteger(1);
    Rounding.RoundHalfEvenOfInteger(quantity - 1);
    if share <= 1.0 {
      Rounding.RoundHalfEvenMonotone(share, 1.0);
    } else {
      Rounding.RoundHalfEvenMonotone(1.0, share);
    }
    if share >= (quantity - 1) as real {
      Rounding.RoundHalfEvenMonotone((quantity - 1) as real, share);
    } else {
      Rounding.RoundHalfEvenMonotone(share, (quantity - 1) as real);
    }
  }

  function Risk(t: Trade): real {
    StopPct(t.fields) * t.entryPremium
  }

  lemma RiskPositive(t: Trade)
    requires t.entryPremium > 0.0
    ensures Risk(t) > 0.0
  {
  }

  /** A premium's distance from entry, in R. */
  function InR(t: Trade, premium: real): real
    requires Risk(t) > 0.0
  {
    (premium - t.entryPremium) / Risk(t)
  }

  function PriceAtR(entryPremium: real, risk: real, r: real): real {
    entryPremium + r * risk
  }

  /** The peak excursion of earlier ticks, in R and never negative. */
  function PeakR(entryPremium: real, risk: real, peakPremium: real): real
    requires risk > 0.0
  {
    if peakPremium - entryPremium > 0.0 then (peakPremium - entryPremium) / risk else 0.0
  }

  const RATCHET_EPSILON: real := 0.0000000001

  /** The envelope floor snapped down to the ratchet grid that starts at the initial floor. */
  function QuantisedFloor(initialFloorR: real, stepR: real, raw: real): real
    requires stepR != 0.0
  {
    initialFloorR + ((raw - initialFloorR) / stepR + RATCHET_EPSILON).Floor as real * stepR
  }

  /** The named policy's floor for a peak, if the policy has one armed. */
  function PolicyFloorR(t: Trade, peakR: real): Result<Option<real>, LadderError> {
    match t.fields.floorPolicy
    case NoFloorPolicy => Success(None)
    case ProfitPreservation(armR, floorR) => Success(if peakR >= armR then Some(floorR) else None)
    case DynamicEnvelope(activationR, initialFloorR, floorAtT1R, curvature, stepR) =>
      match EffectiveTarget1R(t.fields)
      case None => Failure(EnvelopeTargetMissing)
      case Some(target1R) =>
        var envelope := ExitPolicy.Envelope(activationR, target1R, initialFloorR, floorAtT1R, curvature);
        match ExitPolicy.EvaluateRiskEnvelope(t.pow, peakR, envelope)
        case Failure(error) => Failure(EnvelopeRejected(error))
        case Success(raw) =>
          if stepR == 0.0 then Failure(ZeroRatchetStep)
          else Success(Some(QuantisedFloor(initialFloorR, stepR, raw)))
  }

  /** The giveback floor for a peak, once the peak has armed it. */
  function GivebackFloorR(f: Fields, peakR: real): Option<real> {
    var armR := GivebackArmR(f);
    if armR.Some? && peakR >= armR.value then Some(ExitPolicy.RetracedPeak(peakR, GivebackRetrace(f))) else None
  }

  function DisasterPrice(t: Trade): Option<real> {
    if Positive(t.fields.premiumDisasterStopPct)
    then Some(t.entryPremium * (1.0 - t.fields.premiumDisasterStopPct.value))
    else None
  }

  predicate BreakevenArmed(t: Trade, s: LadderState) {
    s.target1Banked && t.fields.breakevenAfterT1
  }

  /** Breakeven after a banked target 1, the initial premium stop before. */
  function ActiveStopPrice(t: Trade, s: LadderState): real {
    if BreakevenArmed(t, s) then t.entryPremium else t.entryPremium - Risk(t)
  }

  function ElapsedSeconds(t: Trade, now: int): Option<int> {
    if t.fields.eodFlat then SessionClock.WallElapsed(t.entryTime, now)
    else SessionClock.RegularSessionElapsed(t.calendar, t.entryTime, now)
  }

  predicate Target1Reached(t: Trade, s: LadderState, current: real) {
    var target := EffectiveTarget1R(t.fields);
    && !s.target1Banked
    && target.Some?
    && t.fields.target1Quantity > 0.0
    && current >= PriceAtR(t.entryPremium, Risk(t), target.value)
  }

  predicate RunnerReached(t: Trade, s: LadderState, current: real) {
    var target := EffectiveTarget2R(t.fields);
    && (s.target1Banked || EffectiveTarget1R(t.fields).None? || t.fields.target1Quantity <= 0.0)
    && target.Some?
    && current >= PriceAtR(t.entryPremium, Risk(t), target.value)
  }

  predicate MaxHoldReachedAt(f: Fields, elapsed: Option<int>) {
    elapsed.Some? && f.maxHoldSeconds.Some? && elapsed.value >= f.maxHoldSeconds.value
  }

  predicate NoProgressAt(f: Fields, elapsed: Option<int>, peakR: real) {
    && elapsed.Some? && f.noProgressSeconds.Some?
    && elapsed.value >= f.noProgressSeconds.value
    && peakR < f.noProgressFavorableFloorR
  }

  function BankTarget1(t: Trade, s: LadderState, current: real): (Outcome, LadderState) {
    var bank := PartialQuantity(t.quantity, t.fields.target1Quantity);
    var touched := s.(target1Banked := true, target1Premium := Some(current));
    if bank >= t.quantity || t.fields.target1Quantity >= 1.0 then
      (FullExit(Target1Partial, SquareOff, Target1Full, t.quantity), touched.(bankedQuantity := t.quantity))
    else
      (PartialExit(bank),
       touched.(bankedQuantity := bank, stopAtBreakeven := s.stopAtBreakeven || t.fields.breakevenAfterT1))
  }

  /** The time stops, then the pending breakeven move, then a hold that may raise the peak. */
  function TimersAndHold(t: Trade, s: LadderState, current: real, elapsed: Option<int>): (Outcome, LadderState)
    requires Risk(t) > 0.0
  {
    var f := t.fields;
    var peakR := PeakR(t.entryPremium, Risk(t), s.peakPremium);
    var remaining := RemainingQuantity(t.quantity, s.bankedQuantity);
    if MaxHoldReachedAt(f, elapsed) then (FullExit(MaxHold, SquareOff, MaxHoldReached, remaining), s)
    else if NoProgressAt(f, elapsed, peakR) then (FullExit(NoProgress, SquareOff, NoProgressReached, remaining), s)
    else if s.stopAtBreakeven && !s.breakevenEmitted then
      (BreakevenMove(t.entryPremium), s.(breakevenEmitted := true))
    else (HoldFor(ProfileHold), if current > s.peakPremium then s.(peakPremium := current) else s)
  }

  /** The rungs below the protective stops and floors, in priority order. */
  function TargetsAndTimers(t: Trade, s: LadderState, current: real, elapsed: Option<int>): (Outcome, LadderState)
    requires Risk(t) > 0.0
  {
    var remaining := RemainingQuantity(t.quantity, s.bankedQuantity);
    var giveback := GivebackFloorR(t.fields, PeakR(t.entryPremium, Risk(t), s.peakPremium));
    if Target1Reached(t, s, current) then BankTarget1(t, s, current)
    else if RunnerReached(t, s, current) then (FullExit(Target2Runner, SquareOff, Target2Reached, remaining), s)
    else if giveback.Some? && InR(t, current) <= giveback.value then
      (FullExit(HighWaterGiveback, SquareOff, GivebackReached, remaining), s)
    else TimersAndHold(t, s, current, elapsed)
  }

  function QuotedStep(t: Trade, s: LadderState, current: real, elapsed: Option<int>): (Outcome, LadderState)
    requires Risk(t) > 0.0
  {
    var peakR := PeakR(t.entryPremium, Risk(t), s.peakPremium);
    var currentR := InR(t, current);
    var remaining := RemainingQuantity(t.quantity, s.bankedQuantity);
    var disaster := DisasterPrice(t);
    if disaster.Some? && current <= disaster.value then
      (FullExit(DisasterStop, SquareOff, PremiumDisasterStop, remaining), s)
    else if current <= ActiveStopPrice(t, s) then
      var reason := if BreakevenArmed(t, s) then BreakevenStop else InitialStopReached;
      (FullExit(InitialStop, SquareOff, reason, remaining), s)
    else
      match PolicyFloorR(t, peakR)
      case Failure(error) => (Failure(error), s)
      case Success(floor) =>
        if floor.Some? && currentR <= floor.value then
          (FullExit(PolicyFloor, SquareOff, PolicyFloorReached, remaining), s)
        else TargetsAndTimers(t, s, current, elapsed)
  }

  /** One evaluation of the ladder. */
  function Step(t: Trade, tick: Tick, s: LadderState): (Outcome, LadderState) {
    var f := t.fields;
    if t.entryPremium <= 0.0 || t.quantity <= 0 then (HoldFor(NoPosition), s)
    else if Risk(t) <= 0.0 then (HoldFor(NoRisk), s)
    else if f.eodFlat && tick.barTime.None? && tick.requireBarTime then (Failure(MissingBarClock), s)
    else if f.eodFlat && tick.barTime.Some? && tick.barTime.value >= f.hardFlatTime then
      (FullExit(EodFlat, HardFlat, EodFlatReached, RemainingQuantity(t.quantity, s.bankedQuantity)), s)
    else if tick.currentPremium.None? then (HoldFor(PremiumUnavailable), s)
    else QuotedStep(t, s, tick.currentPremium.value, ElapsedSeconds(t, tick.now))
  }

  method BankTarget1InPlace(t: Trade, current: real, state: ProfileExitState) returns (outcome: Outcome)
    modifies state
    ensures outcome == BankTarget1(t, old(state.View()), current).0
    ensures state.View() == BankTarget1(t, old(state.View()), current).1
    ensures outcome.Success? && state.target1Banked
    ensures t.quantity > 0 ==>
              (outcome.value.action == PartialScale <==> t.quantity > 1 && t.fields.target1Quantity < 1.0)
    ensures outcome.value.action == PartialScale ==>
              && 0 < outcome.value.exitQuantity == state.bankedQuantity < t.quantity
              && (t.fields.breakevenAfterT1 ==> state.stopAtBreakeven)
    ensures outcome.value.action != PartialScale ==>
              outcome.value.exitQuantity == state.bankedQuantity == t.quantity
  {
    var f := t.fields;
    var bank := PartialQuantity(t.quantity, f.target1Quantity);
    state.target1Banked := true;
    state.target1Premium := Some(current);
    if bank >= t.quantity || f.target1Quantity >= 1.0 {
      state.bankedQuantity := t.quantity;
      return FullExit(Target1Partial, SquareOff, Target1Full, t.quantity);
    }
    state.bankedQuantity := bank;
    if f.breakevenAfterT1 {
      state.stopAtBreakeven := true;
    }
    return PartialExit(bank);
  }

  method EvaluateTimersAndHold(t: Trade, current: real, elapsed: Option<int>, state: ProfileExitState)
    returns (outcome: Outcome)
    requires Risk(t) > 0.0
    modifies state
    ensures outcome == TimersAndHold(t, old(state.View()), current, elapsed).0
    ensures state.View() == TimersAndHold(t, old(state.View()), current, elapsed).1
  {
    var f := t.fields;
    var peakR := PeakR(t.entryPremium, Risk(t), state.peakPremium);
    var remaining := RemainingQuantity(t.quantity, state.bankedQuantity);
    if elapsed.Some? {
      if f.maxHoldSeconds.Some? && elapsed.value >= f.maxHoldSeconds.value {
        return FullExit(MaxHold, SquareOff, MaxHoldReached, remaining);
      }
      if f.noProgressSeconds.Some? && elapsed.value >= f.noProgressSeconds.value
         && peakR < f.noProgressFavorableFloorR {
        return FullExit(NoProgress, SquareOff, NoProgressReached, remaining);
      }
    }

    if state.stopAtBreakeven && !state.breakevenEmitted {
      state.breakevenEmitted := true;
      return BreakevenMove(t.entryPremium);
    }

    if current > state.peakPremium {
      state.peakPremium := current;
    }
    return HoldFor(ProfileHold);
  }

  /** Rungs 2 to 5 and the closing peak update, on a quote that no protective level has stopped. */
  method EvaluateTargetsAndTimers(t: Trade, current: real, elapsed: Option<int>, state: ProfileExitState)
    returns (outcome: Outcome)
    requires Risk(t) > 0.0
    modifies state
    ensures outcome == TargetsAndTimers(t, old(state.View()), current, elapsed).0
    ensures state.View() == TargetsAndTimers(t, old(state.View()), current, elapsed).1
  {
    var f, entry := t.fields, t.entryPremium;
    var risk := Risk(t);
    var peakR := PeakR(entry, risk, state.peakPremium);
    var currentR := InR(t, current);
    var remaining := RemainingQuantity(t.quantity, state.bankedQuantity);

    var target1 := EffectiveTarget1R(f);
    if !state.target1Banked && target1.Some? && f.target1Quantity > 0.0 {
      if current >= PriceAtR(entry, risk, target1.value) {
        outcome := BankTarget1InPlace(t, current, state);
        return;
      }
    }

    var target2 := EffectiveTarget2R(f);
    if (state.target1Banked || target1.None? || f.target1Quantity <= 0.0) && target2.Some? {
      if current >= PriceAtR(entry, risk, target2.value) {
        return FullExit(Target2Runner, SquareOff, Target2Reached, remaining);
      }
    }

    var armR := GivebackArmR(f);
    if armR.Some? && peakR >= armR.value {
      if currentR <= ExitPolicy.RetracedPeak(peakR, GivebackRetrace(f)) {
        return FullExit(HighWaterGiveback, SquareOff, GivebackReached, remaining);
      }
    }

    outcome := EvaluateTimersAndHold(t, current, elapsed, state);
  }

  /** Rungs 1 to 5 on a quoted tick. */
  method EvaluateQuote(t: Trade, current: real, elapsed: Option<int>, state: ProfileExitState)
    returns (outcome: Outcome)
    requires Risk(t) > 0.0
    modifies state
    ensures outcome == QuotedStep(t, old(state.View()), current, elapsed).0
    ensures state.View() == QuotedStep(t, old(state.View()), current, elapsed).1
  {
    var f, entry := t.fields, t.entryPremium;
    var risk := Risk(t);
    var peakR := PeakR(entry, risk, state.peakPremium);
    var currentR := InR(t, current);
    var remaining := RemainingQuantity(t.quantity, state.bankedQuantity);

    var disaster := DisasterPrice(t);
    if disaster.Some? && current <= disaster.value {
      return FullExit(DisasterStop, SquareOff, PremiumDisasterStop, remaining);
    }
    if state.target1Banked && f.breakevenAfterT1 {
      if current <= entry {
        return FullExit(InitialStop, SquareOff, BreakevenStop, remaining);
      }
    } else if current <= entry - risk {
      return FullExit(InitialStop, SquareOff, InitialStopReached, remaining);
    }

    var policyFloor := PolicyFloorR(t, peakR);
    if policyFloor.Failure? {
      return Failure(policyFloor.error);
    }
    var floor := policyFloor.value;
    if floor.Some? && currentR <= floor.value {
      return FullExit(PolicyFloor, SquareOff, PolicyFloorReached, remaining);
    }
    outcome := EvaluateTargetsAndTimers(t, current, elapsed, state);
  }

  /** One evaluation of the ladder on a trade's state object. */
  method EvaluateProfileExit(t: Trade, tick: Tick, state: ProfileExitState) returns (outcome: Outcome)
    requires SessionClock.Valid(t.calendar)
    modifies state
    ensures outcome == Step(t, tick, old(state.View())).0
    ensures state.View() == Step(t, tick, old(state.View())).1
  {
    var f, entry := t.fields, t.entryPremium;
    if entry <= 0.0 || t.quantity <= 0 {
      return HoldFor(NoPosition);
    }
    if StopPct(f) * entry <= 0.0 {
      return HoldFor(NoRisk);
    }
    var elapsed: Option<int>;
    if f.eodFlat {
      elapsed := SessionClock.WallElapsed(t.entryTime, tick.now);
      if tick.barTime.None? {
        if tick.requireBarTime {
          return Failure(MissingBarClock);
        }
      } else if tick.barTime.value >= f.hardFlatTime {
        return FullExit(EodFlat, HardFlat, EodFlatReached, RemainingQuantity(t.quantity, state.bankedQuantity));
      }
    } else {
      elapsed := SessionClock.ElapsedRegularSessionSeconds(t.calendar, t.entryTime, tick.now);
    }
    if tick.currentPremium.None? {
      return HoldFor(PremiumUnavailable);
    }
    outcome := EvaluateQuote(t, tick.currentPremium.value, elapsed, state);
  }
}
