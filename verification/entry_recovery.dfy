/**
 When the recovery loop of `plan_entry` goes on: a recoverable attempt is always followed by another one
 until the candidates, and for a stale quote the rebuild, are used up.
 */
module EntryRecovery {
  import opened Wrappers
  import opened Rounding
  import opened OrderManagement
  import opened EntryProtocol
  import opened EntrySafety

  /** A fresh quote may be fetched once, for the same candidate. */
  predicate Rebuilds(s: State, t: State)
    requires s.plan.Some?
  {
    && s.plan.value.kind == FreshnessBlock && !s.rebuildUsed
    && t.rebuildUsed && t.rank == s.rank
  }

  /** Any other block that another contract may not meet moves to the next candidate. */
  predicate MovesOn(s: State, t: State)
    requires s.plan.Some?
  {
    && (s.plan.value.kind == ContractBlock || (s.plan.value.kind == FreshnessBlock && s.rebuildUsed))
    && t.rank == s.rank + 1 && t.rank <= MAX_RANK && t.rebuildUsed == s.rebuildUsed
  }

  /** Another attempt begins only from a decided, unordered plan: by the rebuild, or one candidate further. */
  lemma EveryRepeatIsOneMove(c: Call, s: State, e: Event)
    requires Step(c, s, e).index != s.index
    ensures s.pc.Deciding? && e.Decide? && s.plan.Some? && !s.plan.value.ordered
    ensures Rebuilds(s, Step(c, s, e)) || MovesOn(s, Step(c, s, e))
    ensures Step(c, s, e).index == s.index + 1 && Step(c, s, e).attempt == NO_ATTEMPT
  {
    if !s.pc.Deciding? && !s.pc.Selecting? {
      StepKeepsCounters(c, s, e);
    }
  }

  /** An unordered plan gives the call up only for one of these reasons. */
  predicate GivesUp(s: State)
    requires s.plan.Some?
  {
    match s.plan.value.kind
    case NoReasons => true
    case OtherBlock => true
    case ContractBlock => s.rank >= MAX_RANK
    case FreshnessBlock => s.rank >= MAX_RANK && s.rebuildUsed
  }

  /** The decision is to return exactly for an order or a reason to give up, and otherwise to try again. */
  lemma DecisionExactly(c: Call, s: State)
    requires s.pc.Deciding? && s.plan.Some?
    ensures var t := Step(c, s, Decide);
            && (t.pc.Returned? <==> s.plan.value.ordered || GivesUp(s))
            && (t.pc.Returned? ==> t == s.(pc := Returned))
            && (!t.pc.Returned? ==> t.index == s.index + 1 && (Rebuilds(s, t) || MovesOn(s, t)))
            && (!t.pc.Returned? && s.index + 1 < MAX_ATTEMPTS ==> t.pc.Selecting?)
  {
  }

  /** A returned plan is an order, the last attempt's with a reason to give up, or the previous one's. */
  predicate ReturnedFor(c: Call, s: State) {
    s.pc.Returned? && s.plan.Some? && !s.plan.value.ordered && s.plan.value.id == CurrentId(c, s) ==> GivesUp(s)
  }

  lemma {:induction false} RunReturnsFor(c: Call, w: World, events: seq<Event>)
    requires SafeStart(c, w)
    ensures ReturnedFor(c, Run(c, w, events))
  {
    if events != [] {
      var n := |events| - 1;
      var s := Run(c, w, events[..n]);
      RunReturnsFor(c, w, events[..n]);
      RunKeeps(c, w, events[..n]);
      StepReturnsFor(c, s, events[n]);
    }
  }

  lemma StepReturnsFor(c: Call, s: State, e: Event)
    requires Invariant(c, s) && ReturnedFor(c, s)
    ensures ReturnedFor(c, Step(c, s, e))
  {
    if !Stopped(s.pc) && Step(c, s, e).pc.Returned? {
      ReturnsWhere(c, s, e);
      if s.pc.Deciding? {
        DecisionExactly(c, s);
      }
    }
  }

  lemma ReturningPoint(c: Call, s: State, e: Event)
    requires !Stopped(s.pc) && Step(c, s, e).pc.Returned?
    ensures s.pc.Deciding? || s.pc.Selecting?
  {
  }

  lemma ReturningStep(c: Call, s: State, e: Event)
    requires s.pc.Deciding? || s.pc.Selecting?
    requires Step(c, s, e).pc.Returned?
    ensures (s.pc.Deciding? && e.Decide? && s.plan.Some?) || (s.pc.Selecting? && e.SelectorEmpty? && s.index > 0)
    ensures Step(c, s, e) == s.(pc := Returned)
  {
  }

  /** The call returns a plan from its decision, or the previous attempt's when the selector is empty. */
  lemma ReturnsWhere(c: Call, s: State, e: Event)
    requires Invariant(c, s) && !Stopped(s.pc) && Step(c, s, e).pc.Returned?
    ensures (s.pc.Deciding? && e.Decide? && s.plan.Some?)
            || (s.pc.Selecting? && e.SelectorEmpty? && UnorderedBefore(s, CurrentId(c, s)))
    ensures Step(c, s, e) == s.(pc := Returned)
  {
    ReturningPoint(c, s, e);
    ReturningStep(c, s, e);
    assert AtPc(c, s, CurrentId(c, s), CurrentRow(c, s));
  }

  /**
   In every reachable state: a returned plan without an order that some other contract or quote might
   have cured comes after the last candidate, and for a stale quote after the rebuild as well.
   */
  lemma RecoveryIsExhausted(c: Call, w: World, s: State)
    requires SafeStart(c, w) && Reachable(c, w, s)
    requires s.pc.Returned? && s.plan.Some? && !s.plan.value.ordered && s.plan.value.id == CurrentId(c, s)
    requires s.plan.value.kind == ContractBlock || s.plan.value.kind == FreshnessBlock
    ensures s.rank == 4
    ensures s.plan.value.kind == FreshnessBlock ==> s.rebuildUsed
  {
    var events :| Run(c, w, events) == s;
    RunReturnsFor(c, w, events);
    RunKeeps(c, w, events);
  }

  /** A call begins with its first candidate, the rebuild unused, and the references it was given. */
  lemma CallStartsFresh(c: Call, w: World)
    ensures var s := Run(c, w, []);
            && s.pc.Selecting? && s.index == 0 && s.rank == 0 && !s.rebuildUsed && s.plan.None?
            && s.references == c.references && s.world == w
  {
  }

  /**
   Without a candidate left the previous plan is returned, and without a previous plan the call raises.
   Without a signal the call returns nothing.
   */
  lemma SelectorEmptyExactly(c: Call, s: State)
    requires s.pc.Selecting?
    ensures Step(c, s, SelectorEmpty) == s.(pc := if s.index == 0 then Raised else Returned)
    ensures s.index == 0 ==> Step(c, s, NoSignal) == s.(pc := ReturnedNothing)
  {
  }

  /** A call that has ended stays as it ended, and a crash ends any other where it is. */
  lemma EndedStays(c: Call, s: State, e: Event)
    ensures Stopped(s.pc) ==> Step(c, s, e) == s
    ensures !Stopped(s.pc) ==> Step(c, s, Crash) == s.(pc := Crashed)
  {
  }

  /** The attempt is unwound, and its plan says why. */
  predicate BlockedFor(c: Call, s: State, t: State, kind: BlockKind) {
    t.pc.Unwinding? && t.plan == Some(Plan(CurrentId(c, s), false, kind))
  }

  /** Whoever refuses an attempt after it was sized gives the reason that its plan carries. */
  lemma RefusalsSayWhy(c: Call, s: State, kind: BlockKind)
    ensures s.pc.ReservingCash? ==> BlockedFor(c, s, Step(c, s, CashRefused(kind)), kind)
    ensures s.pc.ReservingRisk? ==> BlockedFor(c, s, Step(c, s, RiskRefused(kind)), kind)
    ensures s.pc.Guarding? ==> BlockedFor(c, s, Step(c, s, GuardBlocked(kind)), kind)
  {
  }

  /** So does a guard that refuses a submission or its retry. */
  lemma RefusedSubmissionsSayWhy(c: Call, s: State, kind: BlockKind, disclosed: Option<real>)
    ensures s.pc.CorrectingPrice? && CorrectedPrice(RoundPrice(s.attempt.limitPrice), disclosed).Success? ==>
              BlockedFor(c, s, Step(c, s, PriceCorrected(disclosed, Some(kind))), kind)
    ensures s.pc.Repreflighting? && SettledPrice(s.pc.corrected, disclosed).Success? ==>
              BlockedFor(c, s, Step(c, s, Repreflighted(true, disclosed, Some(kind))), kind)
  {
  }

  /** The unwinding keeps the plan, and ends in the decision or in an exception. */
  lemma UnwindingKeepsThePlan(c: Call, s: State, e: Event)
    requires s.pc.Unwinding?
    ensures var t := Step(c, s, e);
            && t.plan == s.plan && t.index == s.index && t.rank == s.rank && t.rebuildUsed == s.rebuildUsed
            && (t.pc.Unwinding? || t.pc.Deciding? || t.pc.Raised? || t.pc.Crashed?)
  {
    UnwindingFrame(c, s, e);
  }

  /** A blocked attempt's plan says why, and an order ends the loop at once. */
  lemma BlockedPlanSaysWhy(c: Call, s: State, newRank: nat, priced: Option<Quoting>, kind: BlockKind)
    requires s.pc.Selecting? && s.rank <= newRank <= MAX_RANK
    ensures var t := Step(c, s, AttemptBlocked(newRank, priced, kind));
            t.plan == Some(Plan(CurrentId(c, s), false, kind)) && t.rank == newRank
            && Step(c, Step(c, t, CleanupDone), Decide).pc.Returned? == GivesUp(t)
  {
    var t := Step(c, s, AttemptBlocked(newRank, priced, kind));
    DecisionExactly(c, Step(c, t, CleanupDone));
  }
}
