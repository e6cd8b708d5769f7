/**
 The ladder read as a list of rungs, each a condition on prices and times: a quote is decided by the
 first rung that holds. And what the recorded peak is, over a whole run.
 */
module LadderRungs {
  import opened Wrappers
  import opened ProfileExit
  import opened LadderRuns
  import ExitPolicy

  const RUNGS :=
    [DisasterStop, InitialStop, PolicyFloor, Target1Partial, Target2Runner, HighWaterGiveback, MaxHold, NoProgress]

  predicate AtOrBelow(premium: real, level: Option<real>) { level.Some? && premium <= level.value }

  predicate AtOrAbove(premium: real, level: Option<real>) { level.Some? && premium >= level.value }

  /** The rung's own condition on a quote, whatever the other rungs say. */
  predicate Holds(t: Trade, s: LadderState, current: real, elapsed: Option<int>, rung: Rule)
    requires Risk(t) > 0.0
  {
    var f, peakR := t.fields, PeakR(t.entryPremium, Risk(t), s.peakPremium);
    match rung
    case DisasterStop => AtOrBelow(current, DisasterPrice(t))
    case InitialStop =>
      current <= (if s.target1Banked && f.breakevenAfterT1 then t.entryPremium else t.entryPremium - Risk(t))
    case PolicyFloor => AtOrBelow(current, PolicyFloorPrice(t, peakR))
    case Target1Partial =>
      !s.target1Banked && f.target1Quantity > 0.0 && AtOrAbove(current, FloorPrice(t, EffectiveTarget1R(f)))
    case Target2Runner =>
      && (s.target1Banked || EffectiveTarget1R(f).None? || f.target1Quantity <= 0.0)
      && AtOrAbove(current, FloorPrice(t, EffectiveTarget2R(f)))
    case HighWaterGiveback => AtOrBelow(current, FloorPrice(t, GivebackFloorR(f, peakR)))
    case MaxHold => elapsed.Some? && f.maxHoldSeconds.Some? && f.maxHoldSeconds.value <= elapsed.value
    case NoProgress =>
      && elapsed.Some? && f.noProgressSeconds.Some? && f.noProgressSeconds.value <= elapsed.value
      && peakR < f.noProgressFavorableFloorR
    case _ => false
  }

  /** The first rung from the k-th on that holds. */
  function FirstFrom(t: Trade, s: LadderState, current: real, elapsed: Option<int>, k: nat): (first: Option<nat>)
    requires Risk(t) > 0.0
    ensures first.Some? ==> k <= first.value < |RUNGS| && Holds(t, s, current, elapsed, RUNGS[first.value])
    ensures forall j :: k <= j < (if first.Some? then first.value else |RUNGS|) ==>
              !Holds(t, s, current, elapsed, RUNGS[j])
    decreases |RUNGS| - k
  {
    if k >= |RUNGS| then None
    else if Holds(t, s, current, elapsed, RUNGS[k]) then Some(k)
    else FirstFrom(t, s, current, elapsed, k + 1)
  }

  /** The outcome is the rung's exit: target 1 for the contracts to bank, any other for all that is left. */
  predicate DecidedBy(t: Trade, s: LadderState, o: Outcome, first: Option<nat>) {
    && o.Success? && (o.value.exit <==> first.Some?)
    && (first.Some? ==>
          && first.value < |RUNGS| && o.value.rule == RUNGS[first.value]
          && o.value.exitQuantity == (if o.value.rule == Target1Partial
                                      then PartialQuantity(t.quantity, t.fields.target1Quantity)
                                      else RemainingQuantity(t.quantity, s.bankedQuantity))
          && o.value.reason == ReasonOf(t, s, o.value.rule)
          && o.value.action == (if o.value.reason == Target1Banked then PartialScale else SquareOff)
          && o.value.targetStopPrice.None? && o.value.cancelProtectionOrders)
  }

  /** The reason an exit gives: the stop says which of the two it was, target 1 whether it banked or closed. */
  function ReasonOf(t: Trade, s: LadderState, rung: Rule): Reason {
    match rung
    case DisasterStop => PremiumDisasterStop
    case InitialStop => if s.target1Banked && t.fields.breakevenAfterT1 then BreakevenStop else InitialStopReached
    case PolicyFloor => PolicyFloorReached
    case Target1Partial =>
      if PartialQuantity(t.quantity, t.fields.target1Quantity) < t.quantity then Target1Banked else Target1Full
    case Target2Runner => Target2Reached
    case HighWaterGiveback => GivebackReached
    case MaxHold => MaxHoldReached
    case NoProgress => NoProgressReached
    case _ => ProfileHold
  }

  lemma TimersDecide(t: Trade, s: LadderState, current: real, elapsed: Option<int>)
    requires Risk(t) > 0.0
    ensures DecidedBy(t, s, TimersAndHold(t, s, current, elapsed).0, FirstFrom(t, s, current, elapsed, 6))
  {
    assert FirstFrom(t, s, current, elapsed, 8).None?;
  }

  lemma NextRung(t: Trade, s: LadderState, current: real, elapsed: Option<int>, k: nat)
    requires Risk(t) > 0.0 && k < |RUNGS|
    ensures FirstFrom(t, s, current, elapsed, k) ==
            if Holds(t, s, current, elapsed, RUNGS[k]) then Some(k) else FirstFrom(t, s, current, elapsed, k + 1)
  {
  }

  lemma Target1Decides(t: Trade, s: LadderState, current: real, elapsed: Option<int>)
    requires Risk(t) > 0.0 && t.quantity > 0 && Target1Reached(t, s, current)
    ensures DecidedBy(t, s, TargetsAndTimers(t, s, current, elapsed).0, FirstFrom(t, s, current, elapsed, 3))
  {
    NextRung(t, s, current, elapsed, 3);
    assert Holds(t, s, current, elapsed, Target1Partial);
  }

  lemma TargetsDecide(t: Trade, s: LadderState, current: real, elapsed: Option<int>)
    requires Risk(t) > 0.0 && t.quantity > 0
    ensures DecidedBy(t, s, TargetsAndTimers(t, s, current, elapsed).0, FirstFrom(t, s, current, elapsed, 3))
  {
    if Target1Reached(t, s, current) {
      Target1Decides(t, s, current, elapsed);
    } else {
      NextRung(t, s, current, elapsed, 3);
      NextRung(t, s, current, elapsed, 4);
      NextRung(t, s, current, elapsed, 5);
      assert !Holds(t, s, current, elapsed, Target1Partial);
      assert Holds(t, s, current, elapsed, Target2Runner) <==> RunnerReached(t, s, current);
      ProtectiveRungsHold(t, s, current, elapsed);
      TimersDecide(t, s, current, elapsed);
    }
  }

  /** A quoted evaluation that the end of the day does not decide. */
  predicate Intraday(t: Trade, tick: Tick) {
    && tick.currentPremium.Some?
    && (t.fields.eodFlat ==>
       if tick.barTime.Some? then tick.barTime.value < t.fields.hardFlatTime else !tick.requireBarTime)
  }

  lemma ProtectiveRungsHold(t: Trade, s: LadderState, current: real, elapsed: Option<int>)
    requires Risk(t) > 0.0
    ensures var peakR := PeakR(t.entryPremium, Risk(t), s.peakPremium);
            var floor, giveback := PolicyFloorR(t, peakR), GivebackFloorR(t.fields, peakR);
            && (floor.Success? ==> (Holds(t, s, current, elapsed, PolicyFloor) <==>
                                    floor.value.Some? && InR(t, current) <= floor.value.value))
            && (Holds(t, s, current, elapsed, HighWaterGiveback) <==>
               giveback.Some? && InR(t, current) <= giveback.value)
  {
    var peakR := PeakR(t.entryPremium, Risk(t), s.peakPremium);
    var floor, giveback := PolicyFloorR(t, peakR), GivebackFloorR(t.fields, peakR);
    if floor.Success? && floor.value.Some? {
      InRAgainstPrice(t, current, floor.value.value);
    }
    if giveback.Some? {
      InRAgainstPrice(t, current, giveback.value);
    }
  }

  /** The two stops come before everything that the policy can spoil. */
  lemma StopsDecide(t: Trade, s: LadderState, current: real, elapsed: Option<int>)
    requires Risk(t) > 0.0
    requires Holds(t, s, current, elapsed, DisasterStop) || Holds(t, s, current, elapsed, InitialStop)
    ensures FirstFrom(t, s, current, elapsed, 0).Some? && FirstFrom(t, s, current, elapsed, 0).value < 2
    ensures DecidedBy(t, s, QuotedStep(t, s, current, elapsed).0, FirstFrom(t, s, current, elapsed, 0))
  {
    assert Holds(t, s, current, elapsed, RUNGS[0]) || Holds(t, s, current, elapsed, RUNGS[1]);
  }

  lemma FloorsDecide(t: Trade, s: LadderState, current: real, elapsed: Option<int>)
    requires Risk(t) > 0.0 && t.quantity > 0
    requires !Holds(t, s, current, elapsed, DisasterStop) && !Holds(t, s, current, elapsed, InitialStop)
    ensures var o, first := QuotedStep(t, s, current, elapsed).0, FirstFrom(t, s, current, elapsed, 0);
            && (first.Some? ==> first.value >= 2)
            && if PolicyFloorR(t, PeakR(t.entryPremium, Risk(t), s.peakPremium)).Success?
               then DecidedBy(t, s, o, first) else o.Failure?
  {
    ProtectiveRungsHold(t, s, current, elapsed);
    TargetsDecide(t, s, current, elapsed);
    NextRung(t, s, current, elapsed, 0);
    NextRung(t, s, current, elapsed, 1);
    NextRung(t, s, current, elapsed, 2);
  }

  /**
   A quote exits exactly when some rung holds, and by the first rung that does. With an unusable
   policy only the two stops above it can still close the trade.
   */
  lemma FirstRungDecides(t: Trade, tick: Tick, s: LadderState)
    requires LiveTrade(t) && Risk(t) > 0.0 && Intraday(t, tick)
    ensures var current, elapsed := tick.currentPremium.value, ElapsedSeconds(t, tick.now);
            var o, first := Step(t, tick, s).0, FirstFrom(t, s, current, elapsed, 0);
            var usable := PolicyFloorR(t, PeakR(t.entryPremium, Risk(t), s.peakPremium)).Success?;
            if usable || (first.Some? && first.value < 2) then DecidedBy(t, s, o, first) else o.Failure?
  {
    var current, elapsed := tick.currentPremium.value, ElapsedSeconds(t, tick.now);
    assert Step(t, tick, s) == QuotedStep(t, s, current, elapsed);
    if Holds(t, s, current, elapsed, DisasterStop) || Holds(t, s, current, elapsed, InitialStop) {
      StopsDecide(t, s, current, elapsed);
    } else {
      FloorsDecide(t, s, current, elapsed);
    }
  }

  /** A protective rung closes the trade only at or below the level it protects. */
  lemma ProtectiveExitsAreAtTheLevel(t: Trade, tick: Tick, s: LadderState)
    requires LiveTrade(t) && Risk(t) > 0.0 && Intraday(t, tick) && Exits(Step(t, tick, s).0)
    requires Step(t, tick, s).0.value.rule in {DisasterStop, InitialStop, PolicyFloor, HighWaterGiveback}
    ensures tick.currentPremium.value <= ProtectiveLevel(t, s)
  {
    ProtectiveRungsHold(t, s, tick.currentPremium.value, ElapsedSeconds(t, tick.now));
  }

  // ---------------------------------------------------------------- the rungs in dollars

  /** The stop distance is the first positive one of three dials, or else 45%. */
  lemma StopIsFirstPositiveDial(f: Fields) returns (k: nat)
    ensures var dials := [f.initialStopPct, f.premiumDisasterStopPct, Some(f.optionStopFallbackPct), Some(0.45)];
            && k < 4 && dials[k] == Some(StopPct(f)) && StopPct(f) > 0.0
            && forall j :: 0 <= j < k && dials[j].Some? ==> dials[j].value <= 0.0
  {
    k := if f.initialStopPct.Some? && f.initialStopPct.value > 0.0 then 0
         else if f.premiumDisasterStopPct.Some? && f.premiumDisasterStopPct.value > 0.0 then 1
         else if f.optionStopFallbackPct > 0.0 then 2
         else 3;
  }

  /** R is the stop distance of the entry premium. */
  lemma RiskInDollars(t: Trade)
    ensures Risk(t) == t.entryPremium * StopPct(t.fields)
  {
  }

  /** What the premium has gained at its recorded peak, in dollars a share. */
  function PeakGain(t: Trade, s: LadderState): real {
    if s.peakPremium <= t.entryPremium then 0.0 else s.peakPremium - t.entryPremium
  }

  /** When and how much of the peak gain is given back, by dial or by tier. */
  predicate GivebackDials(f: Fields, armR: real, retrace: real) {
    && (if f.explicitGivebackArmR.Some? then armR == f.explicitGivebackArmR.value
        else || (f.givebackTier == Strict && armR == 1.0)
             || (f.givebackTier == Moderate && armR == 1.25)
             || (f.givebackTier == Loose && armR == 1.5))
    && (if f.explicitGivebackRetrace.Some? then retrace == f.explicitGivebackRetrace.value
        else retrace == (if f.givebackTier == Strict then 0.33 else if f.givebackTier == Loose then 0.66 else 0.50))
  }

  lemma StopsInDollars(t: Trade, s: LadderState, current: real, elapsed: Option<int>)
    requires Risk(t) > 0.0
    ensures var pct, entry := t.fields.premiumDisasterStopPct, t.entryPremium;
            && (Holds(t, s, current, elapsed, DisasterStop) <==>
                pct.Some? && pct.value > 0.0 && current <= entry * (1.0 - pct.value))
            && (Holds(t, s, current, elapsed, InitialStop) <==>
                if s.target1Banked && t.fields.breakevenAfterT1 then current <= entry else entry - current >= Risk(t))
  {
  }

  lemma Target1InDollars(t: Trade, s: LadderState, current: real, elapsed: Option<int>)
    requires Risk(t) > 0.0
    ensures var f := t.fields;
            Holds(t, s, current, elapsed, Target1Partial) <==>
            && !s.target1Banked && f.target1Quantity > 0.0
            && f.target1R.Some? && f.target1R.value > 0.0 && current >= t.entryPremium + f.target1R.value * Risk(t)
  {
  }

  lemma Target2InDollars(t: Trade, s: LadderState, current: real, elapsed: Option<int>)
    requires Risk(t) > 0.0
    ensures var f := t.fields;
            Holds(t, s, current, elapsed, Target2Runner) <==>
            && (s.target1Banked || f.target1R.None? || f.target1R.value <= 0.0 || f.target1Quantity <= 0.0)
            && (if f.target2R.Some? && f.target2R.value > 0.0
                then current >= t.entryPremium + f.target2R.value * Risk(t)
                else f.targetR > 0.0 && current >= t.entryPremium + f.targetR * Risk(t))
  {
  }

  lemma PeakInDollars(t: Trade, s: LadderState, r: real)
    requires Risk(t) > 0.0
    ensures PriceAtR(0.0, Risk(t), PeakR(t.entryPremium, Risk(t), s.peakPremium)) == PeakGain(t, s)
    ensures PeakR(t.entryPremium, Risk(t), s.peakPremium) >= r <==> PeakGain(t, s) >= r * Risk(t)
  {
    var peakR, risk := PeakR(t.entryPremium, Risk(t), s.peakPremium), Risk(t);
    assert peakR * risk == PeakGain(t, s);
    if peakR >= r {
      PriceAtRMonotone(0.0, risk, r, peakR);
    } else {
      ProductStrict(risk, peakR, r);
    }
  }

  lemma RetracedInDollars(entry: real, risk: real, peakR: real, gain: real, retrace: real)
    requires PriceAtR(0.0, risk, peakR) == gain
    ensures PriceAtR(entry, risk, ExitPolicy.RetracedPeak(peakR, retrace)) == entry + gain * (1.0 - retrace)
  {
    assert peakR * risk == gain;
    Regroup(peakR, 1.0 - retrace, risk);
  }

  lemma Regroup(x: real, y: real, z: real)
    ensures (x * y) * z == (x * z) * y
  {
  }

  /** The giveback fires at what is left of the peak gain, once the gain has reached its arm. */
  lemma GivebackInDollars(t: Trade, s: LadderState, current: real, elapsed: Option<int>, armR: real, retrace: real)
    requires Risk(t) > 0.0 && GivebackDials(t.fields, armR, retrace)
    ensures Holds(t, s, current, elapsed, HighWaterGiveback) <==>
            PeakGain(t, s) >= armR * Risk(t) && current <= t.entryPremium + PeakGain(t, s) * (1.0 - retrace)
  {
    PeakInDollars(t, s, armR);
    var peakR := PeakR(t.entryPremium, Risk(t), s.peakPremium);
    RetracedInDollars(t.entryPremium, Risk(t), peakR, PeakGain(t, s), retrace);
    DialsAreUsed(t.fields, peakR, armR, retrace);
  }

  lemma DialsAreUsed(f: Fields, peakR: real, armR: real, retrace: real)
    requires GivebackDials(f, armR, retrace)
    ensures GivebackFloorR(f, peakR) == if peakR >= armR then Some(ExitPolicy.RetracedPeak(peakR, retrace)) else None
  {
  }

  /** Without a dial and without a tier there is no giveback. */
  lemma NoGiveback(t: Trade, s: LadderState, current: real, elapsed: Option<int>)
    requires Risk(t) > 0.0 && t.fields.explicitGivebackArmR.None? && t.fields.givebackTier in {Off, UnknownTier}
    ensures !Holds(t, s, current, elapsed, HighWaterGiveback)
  {
  }

  lemma NoProgressInDollars(t: Trade, s: LadderState, current: real, elapsed: Option<int>)
    requires Risk(t) > 0.0
    ensures var f := t.fields;
            Holds(t, s, current, elapsed, NoProgress) <==>
            && elapsed.Some? && f.noProgressSeconds.Some? && f.noProgressSeconds.value <= elapsed.value
            && PeakGain(t, s) < f.noProgressFavorableFloorR * Risk(t)
  {
    PeakInDollars(t, s, t.fields.noProgressFavorableFloorR);
  }

  /** The profit-preservation policy arms on the peak gain and then keeps its fixed floor. */
  lemma PreservationInDollars(t: Trade, s: LadderState, current: real, elapsed: Option<int>, armR: real, floorR: real)
    requires Risk(t) > 0.0 && t.fields.floorPolicy == ProfitPreservation(armR, floorR)
    ensures Holds(t, s, current, elapsed, PolicyFloor) <==>
            PeakGain(t, s) >= armR * Risk(t) && current <= t.entryPremium + floorR * Risk(t)
  {
    PeakInDollars(t, s, armR);
  }

  /** The ratchet: the largest grid point from the initial floor that is not above the raw floor. */
  lemma QuantisedIsLargestGridPoint(initialFloorR: real, stepR: real, raw: real) returns (k: int)
    requires stepR > 0.0
    ensures QuantisedFloor(initialFloorR, stepR, raw) == PriceAtR(initialFloorR, stepR, k as real)
    ensures var slack := RATCHET_EPSILON * stepR;
            && PriceAtR(initialFloorR, stepR, k as real) <= raw + slack
            && raw + slack < PriceAtR(initialFloorR, stepR, (k + 1) as real)
  {
    var ratio := (raw - initialFloorR) / stepR + RATCHET_EPSILON;
    k := ratio.Floor;
    ScaledRatio(raw - initialFloorR, stepR);
    assert PriceAtR(initialFloorR, stepR, ratio) == raw + RATCHET_EPSILON * stepR;
    PriceAtRMonotone(initialFloorR, stepR, k as real, ratio);
    PriceAtRStrict(initialFloorR, stepR, ratio, (k + 1) as real);
  }

  lemma PriceAtRStrict(entryPremium: real, risk: real, low: real, high: real)
    requires risk > 0.0 && low < high
    ensures PriceAtR(entryPremium, risk, low) < PriceAtR(entryPremium, risk, high)
  {
    ProductStrict(risk, low, high);
  }

  lemma ScaledRatio(x: real, step: real)
    requires step > 0.0
    ensures (x / step + RATCHET_EPSILON) * step == x + RATCHET_EPSILON * step
  {
    var q := x / step;
    assert q * step == x;
    Distribute(q, RATCHET_EPSILON, step);
  }

  lemma Distribute(x: real, y: real, z: real)
    ensures (x + y) * z == x * z + y * z
  {
  }

  /** The dynamic envelope's floor is its raw floor at the peak, put on that grid. */
  lemma EnvelopeOnGrid(t: Trade, peakR: real, e: ExitPolicy.Envelope, stepR: real)
    requires t.fields.floorPolicy == DynamicEnvelope(e.activationR, e.initialFloorR, e.floorAtT1R, e.curvature, stepR)
    requires stepR > 0.0 && t.fields.target1R == Some(e.target1R) && e.target1R > 0.0 && ExitPolicy.Valid(e)
    ensures PolicyFloorR(t, peakR) ==
            Success(Some(QuantisedFloor(e.initialFloorR, stepR, ExitPolicy.EnvelopeFloor(t.pow, peakR, e))))
  {
  }

  /** A policy is unusable, whatever the peak, exactly when it is an envelope with one of these faults. */
  lemma UnusableExactly(t: Trade, peakR: real)
    ensures PolicyFloorR(t, peakR).Failure? <==>
            match t.fields.floorPolicy
            case DynamicEnvelope(activationR, initialFloorR, floorAtT1R, curvature, stepR) =>
              || t.fields.target1R.None? || t.fields.target1R.value <= 0.0 || t.fields.target1R.value <= activationR
              || curvature <= 0.0 || floorAtT1R < initialFloorR || floorAtT1R > t.fields.target1R.value || stepR == 0.0
            case _ => false
    ensures t.fields.floorPolicy.NoFloorPolicy? ==> PolicyFloorR(t, peakR) == Success(None)
  {
  }

  // ---------------------------------------------------------------- the recorded peak

  /** The i-th tick was quoted and plainly held. */
  predicate PlainHold(t: Trade, start: LadderState, ticks: seq<Tick>, i: nat)
    requires i < |ticks|
  {
    ticks[i].currentPremium.Some? && OutcomeAt(t, start, ticks, i) == HoldFor(ProfileHold)
  }

  lemma {:induction false} PeakBoundsPlainHolds(t: Trade, start: LadderState, ticks: seq<Tick>, n: nat)
    requires n <= |ticks|
    ensures var peak := StateAt(t, start, ticks, n).peakPremium;
            && start.peakPremium <= peak
            && forall i :: 0 <= i < n && PlainHold(t, start, ticks, i) ==> ticks[i].currentPremium.value <= peak
  {
    if n > 0 {
      PeakBoundsPlainHolds(t, start, ticks, n - 1);
      PeakNext(t, start, ticks, n - 1);
    }
  }

  lemma {:induction false} PeakIsReached(t: Trade, start: LadderState, ticks: seq<Tick>, n: nat) returns (i: int)
    requires n <= |ticks|
    ensures -1 <= i < n
    ensures var peak := StateAt(t, start, ticks, n).peakPremium;
            if i == -1 then peak == start.peakPremium
            else PlainHold(t, start, ticks, i) && ticks[i].currentPremium.value == peak
  {
    i := -1;
    if n > 0 {
      PeakNext(t, start, ticks, n - 1);
      if StateAt(t, start, ticks, n).peakPremium == StateAt(t, start, ticks, n - 1).peakPremium {
        i := PeakIsReached(t, start, ticks, n - 1);
      } else {
        i := n - 1;
      }
    }
  }

  /** The recorded peak is the largest of the seed and the premiums of the plain holds, and no other. */
  lemma PeakIsLargestPlainHold(t: Trade, start: LadderState, ticks: seq<Tick>, n: nat)
    requires n <= |ticks|
    ensures var peak := StateAt(t, start, ticks, n).peakPremium;
            && start.peakPremium <= peak
            && (forall i :: 0 <= i < n && PlainHold(t, start, ticks, i) ==> ticks[i].currentPremium.value <= peak)
            && (peak == start.peakPremium
                || exists i :: 0 <= i < n && PlainHold(t, start, ticks, i) && ticks[i].currentPremium.value == peak)
  {
    PeakBoundsPlainHolds(t, start, ticks, n);
    var i := PeakIsReached(t, start, ticks, n);
  }

  lemma PeakNext(t: Trade, start: LadderState, ticks: seq<Tick>, i: nat)
    requires i < |ticks|
    ensures StateAt(t, start, ticks, i + 1).peakPremium ==
            if PlainHold(t, start, ticks, i)
            then ExitPolicy.Max(StateAt(t, start, ticks, i).peakPremium, ticks[i].currentPremium.value)
            else StateAt(t, start, ticks, i).peakPremium
  {
    PeakStep(t, ticks[i], StateAt(t, start, ticks, i));
  }

  lemma PeakStep(t: Trade, tick: Tick, s: LadderState)
    ensures var (o, after) := Step(t, tick, s);
            after.peakPremium ==
            if o == HoldFor(ProfileHold) && tick.currentPremium.Some?
            then ExitPolicy.Max(s.peakPremium, tick.currentPremium.value) else s.peakPremium
  {
  }
}
