/**
 What the exit ladder keeps over every run of evaluations of one trade: protection never loosens,
 contracts are conserved, and the time limits are met.
 */
module LadderRuns {
  import opened Wrappers
  import opened ProfileExit
  import ExitPolicy
  import SessionClock

  // ---------------------------------------------------------------- runs

  /** The ladder state after the first `i` ticks. */
  function StateAt(t: Trade, start: LadderState, ticks: seq<Tick>, i: nat): LadderState
    requires i <= |ticks|
  {
    if i == 0 then start else Step(t, ticks[i - 1], StateAt(t, start, ticks, i - 1)).1
  }

  function OutcomeAt(t: Trade, start: LadderState, ticks: seq<Tick>, i: nat): Outcome
    requires i < |ticks|
  {
    Step(t, ticks[i], StateAt(t, start, ticks, i)).0
  }

  predicate Exits(outcome: Outcome) {
    outcome.Success? && outcome.value.exit
  }

  /** The trade is a real position and its power behaves as one. */
  ghost predicate LiveTrade(t: Trade) {
    t.entryPremium > 0.0 && t.quantity > 0 && ExitPolicy.IsPower(t.pow)
  }

  // ---------------------------------------------------------------- the protective level

  function Higher(level: real, other: Option<real>): real {
    if other.Some? then ExitPolicy.Max(level, other.value) else level
  }

  function FloorPrice(t: Trade, floorR: Option<real>): Option<real> {
    if floorR.Some? then Some(PriceAtR(t.entryPremium, Risk(t), floorR.value)) else None
  }

  /** The named policy floor as a price; a policy that raises contributes none. */
  function PolicyFloorPrice(t: Trade, peakR: real): Option<real> {
    var floor := PolicyFloorR(t, peakR);
    if floor.Success? then FloorPrice(t, floor.value) else None
  }

  /** The highest premium at which some protective rung would close the position now. */
  function ProtectiveLevel(t: Trade, s: LadderState): real
    requires Risk(t) > 0.0
  {
    var peakR := PeakR(t.entryPremium, Risk(t), s.peakPremium);
    Higher(Higher(Higher(ActiveStopPrice(t, s), DisasterPrice(t)), PolicyFloorPrice(t, peakR)),
           FloorPrice(t, GivebackFloorR(t.fields, peakR)))
  }

  lemma QuotientMonotone(x: real, y: real, divisor: real)
    requires divisor > 0.0 && x <= y
    ensures x / divisor <= y / divisor
  {
  }

  lemma QuotientAntitone(x: real, y: real, divisor: real)
    requires divisor < 0.0 && x <= y
    ensures y / divisor <= x / divisor
  {
  }

  lemma PriceAtRMonotone(entryPremium: real, risk: real, low: real, high: real)
    requires risk > 0.0 && low <= high
    ensures PriceAtR(entryPremium, risk, low) <= PriceAtR(entryPremium, risk, high)
  {
  }

  /** Comparing in R and comparing prices agree. */
  lemma InRAgainstPrice(t: Trade, premium: real, r: real)
    requires Risk(t) > 0.0
    ensures InR(t, premium) <= r <==> premium <= PriceAtR(t.entryPremium, Risk(t), r)
  {
    var risk, ratio := Risk(t), InR(t, premium);
    assert ratio * risk == premium - t.entryPremium;
    assert PriceAtR(t.entryPremium, risk, ratio) == premium;
    if ratio <= r {
      PriceAtRMonotone(t.entryPremium, risk, ratio, r);
    } else {
      ProductStrict(risk, r, ratio);
    }
  }

  lemma ProductStrict(scale: real, x: real, y: real)
    requires scale > 0.0 && x < y
    ensures x * scale < y * scale
  {
  }

  lemma PeakRMonotone(entryPremium: real, risk: real, low: real, high: real)
    requires risk > 0.0 && low <= high
    ensures 0.0 <= PeakR(entryPremium, risk, low) <= PeakR(entryPremium, risk, high)
  {
    if low - entryPremium > 0.0 {
      QuotientMonotone(low - entryPremium, high - entryPremium, risk);
      QuotientMonotone(0.0, low - entryPremium, risk);
    } else if high - entryPremium > 0.0 {
      QuotientMonotone(0.0, high - entryPremium, risk);
    }
  }

  lemma GridMonotone(base: real, step: real, m: int, n: int)
    requires (step > 0.0 && m <= n) || (step < 0.0 && n <= m)
    ensures base + m as real * step <= base + n as real * step
  {
  }

  /** Snapping to the ratchet grid keeps the order of the raw floors. */
  lemma QuantisedFloorMonotone(initialFloorR: real, stepR: real, low: real, high: real)
    requires stepR != 0.0 && low <= high
    ensures QuantisedFloor(initialFloorR, stepR, low) <= QuantisedFloor(initialFloorR, stepR, high)
  {
    var x, y := (low - initialFloorR) / stepR, (high - initialFloorR) / stepR;
    if stepR > 0.0 {
      QuotientMonotone(low - initialFloorR, high - initialFloorR, stepR);
    } else {
      QuotientAntitone(low - initialFloorR, high - initialFloorR, stepR);
    }
    GridMonotone(initialFloorR, stepR, (x + RATCHET_EPSILON).Floor, (y + RATCHET_EPSILON).Floor);
  }

  /** A floor, once there, stays there and only rises. */
  predicate Rises(before: Option<real>, after: Option<real>) {
    before.Some? ==> after.Some? && before.value <= after.value
  }

  lemma PolicyFloorMonotone(t: Trade, low: real, high: real)
    requires ExitPolicy.IsPower(t.pow) && low <= high
    ensures PolicyFloorR(t, low).Success? ==>
              PolicyFloorR(t, high).Success? && Rises(PolicyFloorR(t, low).value, PolicyFloorR(t, high).value)
  {
    var policy := t.fields.floorPolicy;
    if policy.DynamicEnvelope? && PolicyFloorR(t, low).Success? {
      var envelope := ExitPolicy.Envelope(policy.activationR, EffectiveTarget1R(t.fields).value,
                                          policy.initialFloorR, policy.floorAtT1R, policy.curvature);
      ExitPolicy.EnvelopeMonotone(t.pow, envelope, low, high);
      QuantisedFloorMonotone(policy.initialFloorR, policy.ratchetStepR,
                             ExitPolicy.EnvelopeFloor(t.pow, low, envelope),
                             ExitPolicy.EnvelopeFloor(t.pow, high, envelope));
    }
  }

  lemma GivebackFloorMonotone(f: Fields, low: real, high: real)
    requires GivebackRetrace(f) <= 1.0 && low <= high
    ensures Rises(GivebackFloorR(f, low), GivebackFloorR(f, high))
  {
    ExitPolicy.RetracedPeakMonotone(low, high, GivebackRetrace(f));
  }

  lemma FloorPriceMonotone(t: Trade, before: Option<real>, after: Option<real>)
    requires Risk(t) > 0.0 && Rises(before, after)
    ensures Rises(FloorPrice(t, before), FloorPrice(t, after))
  {
    if before.Some? {
      PriceAtRMonotone(t.entryPremium, Risk(t), before.value, after.value);
    }
  }

  /** The state moved forward: a higher or equal peak, and a banked target stays banked. */
  predicate Advanced(before: LadderState, after: LadderState) {
    before.peakPremium <= after.peakPremium && (before.target1Banked ==> after.target1Banked)
  }

  lemma LevelMonotone(t: Trade, before: LadderState, after: LadderState)
    requires Risk(t) > 0.0 && ExitPolicy.IsPower(t.pow) && GivebackRetrace(t.fields) <= 1.0
    requires Advanced(before, after)
    ensures ProtectiveLevel(t, before) <= ProtectiveLevel(t, after)
  {
    var low := PeakR(t.entryPremium, Risk(t), before.peakPremium);
    var high := PeakR(t.entryPremium, Risk(t), after.peakPremium);
    PeakRMonotone(t.entryPremium, Risk(t), before.peakPremium, after.peakPremium);
    PolicyFloorMonotone(t, low, high);
    if PolicyFloorR(t, low).Success? {
      FloorPriceMonotone(t, PolicyFloorR(t, low).value, PolicyFloorR(t, high).value);
    }
    GivebackFloorMonotone(t.fields, low, high);
    FloorPriceMonotone(t, GivebackFloorR(t.fields, low), GivebackFloorR(t.fields, high));
    assert ActiveStopPrice(t, before) <= ActiveStopPrice(t, after);
  }

  lemma StepAdvances(t: Trade, tick: Tick, s: LadderState)
    ensures Advanced(s, Step(t, tick, s).1)
  {
  }

  lemma {:induction false} RunAdvances(t: Trade, start: LadderState, ticks: seq<Tick>, i: nat, j: nat)
    requires i <= j <= |ticks|
    ensures Advanced(StateAt(t, start, ticks, i), StateAt(t, start, ticks, j))
    decreases j
  {
    if i < j {
      RunAdvances(t, start, ticks, i, j - 1);
      StepAdvances(t, ticks[j - 1], StateAt(t, start, ticks, j - 1));
    }
  }

  /** Over any run, from any state, the protective level never loosens. */
  lemma LevelNeverLoosens(t: Trade, start: LadderState, ticks: seq<Tick>, i: nat, j: nat)
    requires LiveTrade(t) && GivebackRetrace(t.fields) <= 1.0 && i <= j <= |ticks|
    ensures Risk(t) > 0.0
    ensures ProtectiveLevel(t, StateAt(t, start, ticks, i)) <= ProtectiveLevel(t, StateAt(t, start, ticks, j))
  {
    RiskPositive(t);
    RunAdvances(t, start, ticks, i, j);
    LevelMonotone(t, StateAt(t, start, ticks, i), StateAt(t, start, ticks, j));
  }

  /** A quoted tick that neither raises nor exits has its premium strictly above the current level. */
  lemma KeptOnlyAboveLevel(t: Trade, tick: Tick, s: LadderState)
    requires LiveTrade(t) && Risk(t) > 0.0 && tick.currentPremium.Some?
    requires Step(t, tick, s).0.Success? && !Step(t, tick, s).0.value.exit
    ensures tick.currentPremium.value > ProtectiveLevel(t, s)
  {
    var current := tick.currentPremium.value;
    var peakR := PeakR(t.entryPremium, Risk(t), s.peakPremium);
    var floor := PolicyFloorR(t, peakR);
    assert floor.Success?;
    if floor.value.Some? {
      InRAgainstPrice(t, current, floor.value.value);
    }
    var giveback := GivebackFloorR(t.fields, peakR);
    if giveback.Some? {
      InRAgainstPrice(t, current, giveback.value);
    }
  }

  /**
   Every quoted hold and every stop-to-breakeven of a run is strictly above the protective level of
   its own tick and of every earlier tick: no level once reached is ever given up without an exit.
   */
  lemma HoldsStayAboveEveryEarlierLevel(t: Trade, start: LadderState, ticks: seq<Tick>, i: nat, j: nat)
    requires LiveTrade(t) && GivebackRetrace(t.fields) <= 1.0 && i <= j < |ticks|
    requires ticks[j].currentPremium.Some?
    requires OutcomeAt(t, start, ticks, j).Success? && !OutcomeAt(t, start, ticks, j).value.exit
    ensures Risk(t) > 0.0
    ensures ticks[j].currentPremium.value > ProtectiveLevel(t, StateAt(t, start, ticks, i))
  {
    LevelNeverLoosens(t, start, ticks, i, j);
    KeptOnlyAboveLevel(t, ticks[j], StateAt(t, start, ticks, j));
  }

  // ------------------------------------------------- exactly when the level never loosens

  /** The ratchet law for one retrace fraction, over every trade that uses it and every run. */
  ghost predicate RatchetLaw(retrace: real) {
    forall t: Trade, start: LadderState, ticks: seq<Tick>, i: nat, j: nat ::
      LiveTrade(t) && Risk(t) > 0.0 && GivebackRetrace(t.fields) == retrace && i <= j <= |ticks| ==>
        ProtectiveLevel(t, StateAt(t, start, ticks, i)) <= ProtectiveLevel(t, StateAt(t, start, ticks, j))
  }

  /** A one-dollar entry with R of one dollar, protected by nothing but its stop and the giveback. */
  function GivebackOnlyTrade(armR: real, retrace: real): Trade {
    Trade(Fields(None, None, 1.0, Some(1.0), None, 0.45, 0.0, None, None, Off, true, true, 955, 0.25,
                 NoFloorPolicy, Some(armR), Some(retrace)),
          1.0, 1, None, SessionClock.Calendar(t => t, d => None), ExitPolicy.IntegerPower)
  }

  function PlainQuote(premium: real): Tick {
    Tick(Some(premium), None, 0, false)
  }

  lemma GivebackOnlyHold(armR: real, retrace: real, s: LadderState, premium: real)
    requires s == FreshState(1.0, None).(peakPremium := s.peakPremium) && s.peakPremium >= 1.0
    requires premium > s.peakPremium
    requires s.peakPremium - 1.0 >= armR ==> premium - 1.0 > ExitPolicy.RetracedPeak(s.peakPremium - 1.0, retrace)
    ensures Step(GivebackOnlyTrade(armR, retrace), PlainQuote(premium), s)
         == (HoldFor(ProfileHold), s.(peakPremium := premium))
  {
    var t := GivebackOnlyTrade(armR, retrace);
    assert Risk(t) == 1.0;
    assert PeakR(1.0, 1.0, s.peakPremium) == s.peakPremium - 1.0;
    assert InR(t, premium) == premium - 1.0;
  }

  lemma GivebackOnlyLevel(armR: real, retrace: real, s: LadderState)
    requires s == FreshState(1.0, None).(peakPremium := s.peakPremium)
    requires s.peakPremium >= 1.0 && s.peakPremium - 1.0 >= armR
    ensures Risk(GivebackOnlyTrade(armR, retrace)) == 1.0
    ensures ProtectiveLevel(GivebackOnlyTrade(armR, retrace), s)
         == ExitPolicy.Max(0.0, 1.0 + ExitPolicy.RetracedPeak(s.peakPremium - 1.0, retrace))
  {
    assert PeakR(1.0, 1.0, s.peakPremium) == s.peakPremium - 1.0;
  }

  /** With the arm at `0.5 / retrace`, the floor at the arm is above the floor one R up. */
  lemma OverfullRetraceFloors(retrace: real, armR: real)
    requires retrace > 1.0 && armR * retrace == 0.5
    ensures 0.0 < armR < 0.5
    ensures ExitPolicy.RetracedPeak(armR, retrace) == armR - 0.5
    ensures ExitPolicy.RetracedPeak(1.0, retrace) < armR - 0.5
  {
    var square := retrace * retrace;
    assert (2.0 * retrace - 1.0) * (retrace - 1.0) == 2.0 * square - 3.0 * retrace + 1.0;
    assert (2.0 * retrace - 1.0) * (retrace - 1.0) > 0.0;
    var gap := armR + retrace - 1.5;
    assert 2.0 * (retrace * gap) == 2.0 * square - 3.0 * retrace + 1.0;
    PositiveFactor(retrace, gap);
  }

  /** A retrace above the whole peak: the second new high lowers the level the first one set. */
  lemma OverfullRetraceLoosens(retrace: real)
    requires retrace > 1.0
    ensures !RatchetLaw(retrace)
  {
    ExitPolicy.IntegerPowerIsPower();
    var armR := 0.5 / retrace;
    OverfullRetraceFloors(retrace, armR);
    var t := GivebackOnlyTrade(armR, retrace);
    var start := FreshState(1.0, None);
    var first, second := start.(peakPremium := 1.0 + armR), start.(peakPremium := 2.0);
    var ticks := [PlainQuote(1.0 + armR), PlainQuote(2.0)];
    GivebackOnlyHold(armR, retrace, start, 1.0 + armR);
    GivebackOnlyHold(armR, retrace, first, 2.0);
    GivebackOnlyLevel(armR, retrace, first);
    GivebackOnlyLevel(armR, retrace, second);
    assert StateAt(t, start, ticks, 0) == start;
    assert StateAt(t, start, ticks, 1) == first;
    assert StateAt(t, start, ticks, 2) == second;
    assert LiveTrade(t) && GivebackRetrace(t.fields) == retrace;
  }

  lemma PositiveFactor(scale: real, x: real)
    requires scale > 0.0 && scale * x > 0.0
    ensures x > 0.0
  {
  }

  /** The level never loosens exactly for retrace fractions of at most the whole peak. */
  lemma RatchetLawExactly(retrace: real)
    ensures RatchetLaw(retrace) <==> retrace <= 1.0
  {
    if retrace <= 1.0 {
      forall t: Trade, start: LadderState, ticks: seq<Tick>, i: nat, j: nat
        | LiveTrade(t) && Risk(t) > 0.0 && GivebackRetrace(t.fields) == retrace && i <= j <= |ticks|
        ensures ProtectiveLevel(t, StateAt(t, start, ticks, i)) <= ProtectiveLevel(t, StateAt(t, start, ticks, j))
      {
        LevelNeverLoosens(t, start, ticks, i, j);
      }
    } else {
      OverfullRetraceLoosens(retrace);
    }
  }

  // ---------------------------------------------------------------- conservation

  predicate IsPartial(outcome: Outcome) {
    outcome.Success? && outcome.value.action == PartialScale
  }

  predicate IsFullExit(outcome: Outcome) {
    Exits(outcome) && !IsPartial(outcome)
  }

  predicate IsBreakevenMove(outcome: Outcome) {
    outcome.Success? && outcome.value.action == StopToBreakeven
  }

  function Count(b: bool): nat { if b then 1 else 0 }

  function SoldIn(outcome: Outcome): int {
    if Exits(outcome) then outcome.value.exitQuantity else 0
  }

  /** Contracts sold, partials, breakeven moves and full exits over the first `n` ticks. */
  datatype Tally = Tally(sold: int, partials: nat, breakevens: nat, fullExits: nat)

  function TallyAt(t: Trade, start: LadderState, ticks: seq<Tick>, n: nat): Tally
    requires n <= |ticks|
  {
    if n == 0 then Tally(0, 0, 0, 0)
    else
      var before, o := TallyAt(t, start, ticks, n - 1), OutcomeAt(t, start, ticks, n - 1);
      Tally(before.sold + SoldIn(o), before.partials + Count(IsPartial(o)),
            before.breakevens + Count(IsBreakevenMove(o)), before.fullExits + Count(IsFullExit(o)))
  }

  /** Until the first full exit the state accounts for every contract sold. */
  predicate Accounted(t: Trade, s: LadderState, tally: Tally) {
    && tally.sold == s.bankedQuantity
    && tally.partials == Count(s.target1Banked)
    && (if s.target1Banked then 0 < s.bankedQuantity < t.quantity else s.bankedQuantity == 0)
    && tally.breakevens == Count(s.breakevenEmitted)
    && (s.breakevenEmitted ==> s.stopAtBreakeven)
    && (s.stopAtBreakeven ==> s.target1Banked)
  }

  lemma StepAccounts(t: Trade, tick: Tick, s: LadderState, before: Tally)
    requires t.quantity > 0 && Accounted(t, s, before)
    ensures var (o, after) := Step(t, tick, s);
            && (IsFullExit(o) ==> before.sold + SoldIn(o) == t.quantity)
            && (IsPartial(o) ==> before.partials == 0 && 0 < SoldIn(o) < t.quantity)
            && (IsBreakevenMove(o) ==> before.partials == 1 && before.breakevens == 0)
            && (!IsFullExit(o) ==>
                  Accounted(t, after, Tally(before.sold + SoldIn(o), before.partials + Count(IsPartial(o)),
                                            before.breakevens + Count(IsBreakevenMove(o)), 0)))
  {
  }

  lemma {:induction false} RunAccounts(t: Trade, seed: Option<int>, ticks: seq<Tick>, n: nat)
    requires t.quantity > 0 && n <= |ticks|
    requires TallyAt(t, FreshState(t.entryPremium, seed), ticks, n).fullExits == 0
    ensures Accounted(t, StateAt(t, FreshState(t.entryPremium, seed), ticks, n),
                      TallyAt(t, FreshState(t.entryPremium, seed), ticks, n))
  {
    if n > 0 {
      var start := FreshState(t.entryPremium, seed);
      RunAccounts(t, seed, ticks, n - 1);
      StepAccounts(t, ticks[n - 1], StateAt(t, start, ticks, n - 1), TallyAt(t, start, ticks, n - 1));
    }
  }

  /**
   From a fresh state and with the original quantity on every tick: before the first full exit there
   is at most one partial and at most one breakeven move, the move only after the partial; and the
   first full exit brings the total sold to exactly the quantity.
   */
  lemma ContractsAreConserved(t: Trade, seed: Option<int>, ticks: seq<Tick>, n: nat)
    requires t.quantity > 0 && n < |ticks|
    requires TallyAt(t, FreshState(t.entryPremium, seed), ticks, n).fullExits == 0
    ensures var start := FreshState(t.entryPremium, seed);
            var tally, o := TallyAt(t, start, ticks, n), OutcomeAt(t, start, ticks, n);
            && 0 <= tally.sold < t.quantity
            && tally.breakevens <= tally.partials <= 1
            && (IsPartial(o) ==> tally.partials == 0 && 0 < SoldIn(o) < t.quantity)
            && (IsBreakevenMove(o) ==> tally.partials == 1 && tally.breakevens == 0)
            && (IsFullExit(o) ==> TallyAt(t, start, ticks, n + 1).sold == t.quantity)
  {
    var start := FreshState(t.entryPremium, seed);
    RunAccounts(t, seed, ticks, n);
    StepAccounts(t, ticks[n], StateAt(t, start, ticks, n), TallyAt(t, start, ticks, n));
  }

  // ---------------------------------------------------------------- the breakeven move

  /** The stop is to move to entry exactly after the partial of a profile that asks for it. */
  predicate MoveIsDue(t: Trade, s: LadderState) {
    s.stopAtBreakeven <==> s.target1Banked && t.fields.breakevenAfterT1
  }

  /** This is so until the first full exit. */
  lemma {:induction false} BreakevenIsDue(t: Trade, seed: Option<int>, ticks: seq<Tick>, n: nat)
    requires n <= |ticks| && TallyAt(t, FreshState(t.entryPremium, seed), ticks, n).fullExits == 0
    ensures MoveIsDue(t, StateAt(t, FreshState(t.entryPremium, seed), ticks, n))
  {
    if n > 0 {
      BreakevenIsDue(t, seed, ticks, n - 1);
      StepKeepsDue(t, ticks[n - 1], StateAt(t, FreshState(t.entryPremium, seed), ticks, n - 1));
    }
  }

  lemma StepKeepsDue(t: Trade, tick: Tick, s: LadderState)
    requires MoveIsDue(t, s)
    ensures var (o, after) := Step(t, tick, s); !IsFullExit(o) ==> MoveIsDue(t, after)
  {
  }

  /** A quote that neither exits nor raises makes the pending move, and otherwise plainly holds. */
  lemma KeptQuoteExactly(t: Trade, tick: Tick, s: LadderState)
    requires LiveTrade(t) && Risk(t) > 0.0 && tick.currentPremium.Some?
    requires Step(t, tick, s).0.Success? && !Step(t, tick, s).0.value.exit
    ensures var d := Step(t, tick, s).0.value;
            if s.stopAtBreakeven && !s.breakevenEmitted
            then d.action == StopToBreakeven && d.targetStopPrice == Some(t.entryPremium) && d.exitQuantity == 0
            else d.action == Hold && d.reason == ProfileHold && d.targetStopPrice == None
  {
  }

  /**
   From a fresh state, with the original quantity on every tick: the first quote after the partial that
   neither exits nor raises moves the stop to entry, once, and without a partial or without the dial no
   quote ever does. So after any such quote there has been a move for the partial.
   */
  lemma BreakevenFollowsPartial(t: Trade, seed: Option<int>, ticks: seq<Tick>, n: nat)
    requires LiveTrade(t) && n < |ticks| && ticks[n].currentPremium.Some?
    requires TallyAt(t, FreshState(t.entryPremium, seed), ticks, n).fullExits == 0
    requires var o := OutcomeAt(t, FreshState(t.entryPremium, seed), ticks, n); o.Success? && !o.value.exit
    ensures var start := FreshState(t.entryPremium, seed);
            var before, after := TallyAt(t, start, ticks, n), TallyAt(t, start, ticks, n + 1);
            var d := OutcomeAt(t, start, ticks, n).value;
            && (d.action == StopToBreakeven <==>
                t.fields.breakevenAfterT1 && before.partials == 1 && before.breakevens == 0)
            && (d.action == StopToBreakeven ==> d.targetStopPrice == Some(t.entryPremium))
            && after.breakevens == (if t.fields.breakevenAfterT1 then after.partials else 0)
  {
    var start := FreshState(t.entryPremium, seed);
    var s := StateAt(t, start, ticks, n);
    RiskPositive(t);
    RunAccounts(t, seed, ticks, n);
    BreakevenIsDue(t, seed, ticks, n);
    KeptQuoteExactly(t, ticks[n], s);
    NoMoveWithoutDial(t, seed, ticks, n);
  }

  lemma {:induction false} NoMoveWithoutDial(t: Trade, seed: Option<int>, ticks: seq<Tick>, n: nat)
    requires t.quantity > 0 && n <= |ticks|
    requires TallyAt(t, FreshState(t.entryPremium, seed), ticks, n).fullExits == 0
    ensures !t.fields.breakevenAfterT1 ==> TallyAt(t, FreshState(t.entryPremium, seed), ticks, n).breakevens == 0
  {
    RunAccounts(t, seed, ticks, n);
    BreakevenIsDue(t, seed, ticks, n);
  }

  // ---------------------------------------------------------------- time limits

  /** Past the hard-flat time an intraday trade is closed whole, quoted or not. */
  lemma HardFlatAlwaysCloses(t: Trade, tick: Tick, s: LadderState)
    requires LiveTrade(t) && Risk(t) > 0.0 && t.fields.eodFlat
    requires tick.barTime.Some? && tick.barTime.value >= t.fields.hardFlatTime
    ensures var o := Step(t, tick, s).0;
            && o.Success? && o.value.exit && o.value.action == HardFlat
            && o.value.exitQuantity == RemainingQuantity(t.quantity, s.bankedQuantity)
  {
  }

  /** After any tick at or past hard flat the whole position has been sold, whatever the run before it. */
  lemma HardFlatSellsEverything(t: Trade, seed: Option<int>, ticks: seq<Tick>, n: nat)
    requires LiveTrade(t) && t.fields.eodFlat && n < |ticks|
    requires ticks[n].barTime.Some? && ticks[n].barTime.value >= t.fields.hardFlatTime
    requires TallyAt(t, FreshState(t.entryPremium, seed), ticks, n).fullExits == 0
    ensures TallyAt(t, FreshState(t.entryPremium, seed), ticks, n + 1).sold == t.quantity
  {
    RiskPositive(t);
    ContractsAreConserved(t, seed, ticks, n);
    HardFlatAlwaysCloses(t, ticks[n], StateAt(t, FreshState(t.entryPremium, seed), ticks, n));
  }

  /** Before any rung: what an intraday trade does at the end of the day, and what a missing quote does. */
  lemma BeforeTheRungs(t: Trade, tick: Tick, s: LadderState)
    requires LiveTrade(t)
    ensures var (o, after) := Step(t, tick, s);
            var flat := t.fields.eodFlat && tick.barTime.Some? && tick.barTime.value >= t.fields.hardFlatTime;
            var blind := t.fields.eodFlat && tick.barTime.None? && tick.requireBarTime;
            && (blind ==> o == Failure(MissingBarClock) && after == s)
            && (o == Failure(MissingBarClock) ==> blind)
            && (flat ==> o.Success? && o.value.reason == EodFlatReached && o.value.rule == EodFlat && after == s)
            && (!blind && !flat && tick.currentPremium.None? ==> o == HoldFor(PremiumUnavailable) && after == s)
  {
    RiskPositive(t);
  }

  /**
   No quoted tick at or past a time limit leaves the position untouched: it exits, or an unusable
   policy raised. The no-progress limit binds while the peak of earlier ticks is below its floor.
   */
  lemma TimeLimitsAreMet(t: Trade, tick: Tick, s: LadderState)
    requires LiveTrade(t) && Risk(t) > 0.0 && tick.currentPremium.Some?
    requires
      var elapsed, f := ElapsedSeconds(t, tick.now), t.fields;
      || (elapsed.Some? && f.maxHoldSeconds.Some? && elapsed.value >= f.maxHoldSeconds.value)
      || (elapsed.Some? && f.noProgressSeconds.Some? && elapsed.value >= f.noProgressSeconds.value
          && PeakR(t.entryPremium, Risk(t), s.peakPremium) < f.noProgressFavorableFloorR)
    ensures Step(t, tick, s).0.Failure? || Exits(Step(t, tick, s).0)
  {
  }

  /** The time held: on the wall clock for an intraday trade, in open seconds for an overnight one. */
  lemma HeldToTheLimit(t: Trade, tick: Tick, s: LadderState)
    requires LiveTrade(t) && tick.currentPremium.Some? && t.entryTime.Some? && t.entryTime.value <= tick.now
    requires t.fields.maxHoldSeconds.Some?
    requires var held := if t.fields.eodFlat then tick.now - t.entryTime.value
                         else SessionClock.OpenSeconds(t.calendar, t.entryTime.value, tick.now);
             held >= t.fields.maxHoldSeconds.value
    ensures Step(t, tick, s).0.Failure? || Exits(Step(t, tick, s).0)
  {
    RiskPositive(t);
    TimeLimitsAreMet(t, tick, s);
  }

  /** Once an intraday trade has been held to its limit, every later quoted tick exits or raises. */
  lemma MaxHoldStaysReached(t: Trade, start: LadderState, ticks: seq<Tick>, i: nat, j: nat)
    requires LiveTrade(t) && i <= j < |ticks| && ticks[i].now <= ticks[j].now
    requires t.entryTime.Some? && t.entryTime.value <= ticks[i].now
    requires SessionClock.Valid(t.calendar)
    requires t.fields.maxHoldSeconds.Some? && ticks[j].currentPremium.Some?
    requires ElapsedSeconds(t, ticks[i].now).value >= t.fields.maxHoldSeconds.value
    ensures OutcomeAt(t, start, ticks, j).Failure? || Exits(OutcomeAt(t, start, ticks, j))
  {
    RiskPositive(t);
    SessionClock.SessionClockLaws(t.calendar, t.entryTime.value, ticks[i].now, ticks[j].now);
    TimeLimitsAreMet(t, ticks[j], StateAt(t, start, ticks, j));
  }
}
