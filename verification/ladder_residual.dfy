/**
 The ladder for a caller whose position shrinks with the partial: it passes the residual quantity on
 every tick after target 1. When the exits it is told to make still add up to the position, exactly.
 */
module LadderResidual {
  import opened Wrappers
  import opened ProfileExit
  import opened LadderRuns
  import ExitPolicy
  import SessionClock

  /** The trade as such a caller passes it: less what the state has banked. */
  function Residual(t: Trade, s: LadderState): Trade {
    t.(quantity := t.quantity - s.bankedQuantity)
  }

  function ResidualState(t: Trade, seed: Option<int>, ticks: seq<Tick>, n: nat): LadderState
    requires n <= |ticks|
  {
    if n == 0 then FreshState(t.entryPremium, seed)
    else
      var s := ResidualState(t, seed, ticks, n - 1);
      Step(Residual(t, s), ticks[n - 1], s).1
  }

  function ResidualOutcome(t: Trade, seed: Option<int>, ticks: seq<Tick>, n: nat): Outcome
    requires n < |ticks|
  {
    var s := ResidualState(t, seed, ticks, n);
    Step(Residual(t, s), ticks[n], s).0
  }

  function ResidualTally(t: Trade, seed: Option<int>, ticks: seq<Tick>, n: nat): Tally
    requires n <= |ticks|
  {
    if n == 0 then Tally(0, 0, 0, 0)
    else
      var before, o := ResidualTally(t, seed, ticks, n - 1), ResidualOutcome(t, seed, ticks, n - 1);
      Tally(before.sold + SoldIn(o), before.partials + Count(IsPartial(o)),
            before.breakevens + Count(IsBreakevenMove(o)), before.fullExits + Count(IsFullExit(o)))
  }

  /** What target 1 banks of the whole position. */
  function Bank(t: Trade): int { PartialQuantity(t.quantity, t.fields.target1Quantity) }

  predicate BankedInFull(t: Trade, s: LadderState) {
    s.target1Banked ==> s.bankedQuantity == Bank(t)
  }

  /** The banked contracts are subtracted a second time from the residual. */
  function LastExit(t: Trade, s: LadderState): int {
    if s.target1Banked && t.quantity > 2 * s.bankedQuantity then t.quantity - 2 * s.bankedQuantity
    else t.quantity - s.bankedQuantity
  }

  lemma ResidualStepAccounts(t: Trade, tick: Tick, s: LadderState, before: Tally)
    requires t.quantity > 0 && Accounted(t, s, before) && BankedInFull(t, s)
    ensures var (o, after) := Step(Residual(t, s), tick, s);
            && (IsFullExit(o) ==> SoldIn(o) == LastExit(t, s))
            && (IsPartial(o) ==> before.partials == 0 && SoldIn(o) == Bank(t))
            && (!IsFullExit(o) ==>
                  && BankedInFull(t, after)
                  && Accounted(t, after, Tally(before.sold + SoldIn(o), before.partials + Count(IsPartial(o)),
                                               before.breakevens + Count(IsBreakevenMove(o)), 0)))
  {
    if s.target1Banked {
      BankedStep(t, tick, s);
    } else {
      assert Residual(t, s) == t;
      StepAccounts(t, tick, s, before);
      UnbankedStep(t, tick, s);
    }
  }

  /** After the partial no other can follow, and a full exit takes what is left of the quantity passed. */
  lemma BankedStep(t: Trade, tick: Tick, s: LadderState)
    requires s.target1Banked && 0 < s.bankedQuantity < t.quantity
    ensures var (o, after) := Step(Residual(t, s), tick, s);
            && !IsPartial(o) && after.target1Banked && after.bankedQuantity == s.bankedQuantity
            && after.stopAtBreakeven == s.stopAtBreakeven
            && (IsFullExit(o) ==> SoldIn(o) == RemainingQuantity(t.quantity - s.bankedQuantity, s.bankedQuantity))
            && (IsBreakevenMove(o) ==> s.stopAtBreakeven && !s.breakevenEmitted && after.breakevenEmitted)
            && (!IsBreakevenMove(o) ==> after.breakevenEmitted == s.breakevenEmitted)
  {
  }

  lemma UnbankedStep(t: Trade, tick: Tick, s: LadderState)
    requires !s.target1Banked && s.bankedQuantity == 0 && t.quantity > 0
    ensures var (o, after) := Step(t, tick, s);
            && (IsFullExit(o) ==> SoldIn(o) == t.quantity)
            && (IsPartial(o) ==> SoldIn(o) == Bank(t) == after.bankedQuantity)
            && (after.target1Banked && !IsFullExit(o) ==> after.bankedQuantity == Bank(t))
  {
  }

  lemma {:induction false} ResidualRunAccounts(t: Trade, seed: Option<int>, ticks: seq<Tick>, n: nat)
    requires t.quantity > 0 && n <= |ticks| && ResidualTally(t, seed, ticks, n).fullExits == 0
    ensures Accounted(t, ResidualState(t, seed, ticks, n), ResidualTally(t, seed, ticks, n))
    ensures BankedInFull(t, ResidualState(t, seed, ticks, n))
  {
    if n > 0 {
      ResidualRunAccounts(t, seed, ticks, n - 1);
      ResidualStepAccounts(t, ticks[n - 1], ResidualState(t, seed, ticks, n - 1), ResidualTally(t, seed, ticks, n - 1));
    }
  }

  /**
   Over every run from a fresh state: the first full exit brings the contracts sold to the whole
   position exactly when there was no partial before it, or the partial banked at least half.
   */
  lemma ResidualCallersClose(t: Trade, seed: Option<int>, ticks: seq<Tick>, n: nat)
    requires t.quantity > 0 && n < |ticks| && ResidualTally(t, seed, ticks, n).fullExits == 0
    requires IsFullExit(ResidualOutcome(t, seed, ticks, n))
    ensures ResidualTally(t, seed, ticks, n + 1).sold == t.quantity <==>
            ResidualTally(t, seed, ticks, n).partials == 0 || t.quantity <= 2 * Bank(t)
    ensures ResidualTally(t, seed, ticks, n + 1).sold <= t.quantity
  {
    ResidualRunAccounts(t, seed, ticks, n);
    ResidualStepAccounts(t, ticks[n], ResidualState(t, seed, ticks, n), ResidualTally(t, seed, ticks, n));
  }

  // ---------------------------------------------------------------- a run whose exits do not add up

  /** Five contracts at one dollar, R of half a dollar, two fifths banked at one R. */
  const FIVE := Trade(
    Fields(Some(1.0), None, 0.4, Some(0.5), None, 0.45, 0.0, None, None, Off, true, true, 955, 0.25,
           NoFloorPolicy, None, None),
    1.0, 5, None, SessionClock.Calendar(t => t, d => None), ExitPolicy.IntegerPower)

  lemma FiveBanksTwo()
    ensures Step(FIVE, PlainQuote(2.0), FreshState(1.0, None)).0 == PartialExit(2)
    ensures Step(FIVE, PlainQuote(2.0), FreshState(1.0, None)).1
         == FreshState(1.0, None).(target1Banked := true, target1Premium := Some(2.0), bankedQuantity := 2,
           stopAtBreakeven := true)
  {
    assert Risk(FIVE) == 0.5;
    assert PriceAtR(1.0, 0.5, 1.0) == 1.5;
    assert Bank(FIVE) == 2;
  }

  /** The stop after the partial exits for one of the three contracts that are left: for three of five in all. */
  lemma FiveExitsForThree()
    ensures var ticks := [PlainQuote(2.0), PlainQuote(0.1)];
            && ResidualOutcome(FIVE, None, ticks, 0) == PartialExit(2)
            && ResidualOutcome(FIVE, None, ticks, 1) == FullExit(InitialStop, SquareOff, BreakevenStop, 1)
            && ResidualTally(FIVE, None, ticks, 2).sold == 3
  {
    var ticks := [PlainQuote(2.0), PlainQuote(0.1)];
    FiveBanksTwo();
    var s0 := ResidualState(FIVE, None, ticks, 0);
    assert s0 == FreshState(1.0, None) && Residual(FIVE, s0) == FIVE;
    var s1 := ResidualState(FIVE, None, ticks, 1);
    assert s1.bankedQuantity == 2 && Residual(FIVE, s1).quantity == 3;
    assert Risk(Residual(FIVE, s1)) == 0.5;
    assert ResidualOutcome(FIVE, None, ticks, 1) == FullExit(InitialStop, SquareOff, BreakevenStop, 1);
    assert ResidualTally(FIVE, None, ticks, 0).sold == 0;
    assert ResidualTally(FIVE, None, ticks, 1).sold == 2;
  }
}
