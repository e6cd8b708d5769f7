/**
 A `plan_entry` call that ends by an exception: nothing is live at the broker then, but reservations can
 stay behind. Exactly which exceptions leave one, over every run.
 */
module EntryExceptions {
  import opened Wrappers
  import opened OrderManagement
  import opened EntrySizing
  import opened EntryProtocol
  import opened EntrySafety

  predicate Reserved(row: Row) { row.cash.Some? || row.risk }

  /** The step raises: the call was still running and has ended by an exception. */
  predicate Raises(c: Call, s: State, e: Event) {
    !Stopped(s.pc) && Step(c, s, e).pc.Raised?
  }

  /** Some release other than the one that raised after taking effect is still owed. */
  predicate StillOwed(row: Row, action: Cleanup, applied: bool) {
    || (row.cash.Some? && !(applied && action == ReleaseCash))
    || (row.risk && !(applied && action == ReleaseRisk))
  }

  /**
   The exceptions that leave a reservation behind: the cash guard's own after it has reserved, the
   final guard's after a grant, and a cleanup's while a release is still owed.
   */
  predicate LeavesReservation(c: Call, s: State, e: Event) {
    || (s.pc.ReservingCash? && e == CashRaised(true))
    || (s.pc.Guarding? && e.GuardRaised? && (s.attempt.cashGranted || s.attempt.riskGranted))
    || (s.pc.Unwinding? && s.pc.todo != [] && e.CleanupRaised? && StillOwed(CurrentRow(c, s), s.pc.todo[0], e.applied))
  }

  // ---------------------------------------------------------------- one step

  /** Outside these three places the call raises only while choosing, with nothing begun. */
  lemma RaisesWhere(c: Call, s: State, e: Event)
    requires Raises(c, s, e)
    ensures s.pc.Selecting? || s.pc.ReservingCash? || s.pc.Guarding? || s.pc.Unwinding?
  {
  }

  lemma CleanupRaisedLeaves(c: Call, s: State, e: Event)
    requires s.pc.Unwinding? && StepUnwinding(c, s, e).pc.Raised?
    ensures s.pc.todo != [] && e.CleanupRaised?
    ensures Reserved(CurrentRow(c, StepUnwinding(c, s, e))) <==> StillOwed(CurrentRow(c, s), s.pc.todo[0], e.applied)
  {
  }

  lemma GuardRaisedLeaves(c: Call, s: State, e: Event)
    requires Invariant(c, s) && s.pc.Guarding? && StepGuarding(c, s, e).pc.Raised?
    ensures e.GuardRaised? && CurrentRow(c, StepGuarding(c, s, e)) == CurrentRow(c, s)
    ensures Reserved(CurrentRow(c, s)) <==> s.attempt.cashGranted || s.attempt.riskGranted
  {
    assert Armed(c, CurrentId(c, s), s.attempt, CurrentRow(c, s));
  }

  lemma CashRaisedLeaves(c: Call, s: State, e: Event)
    requires CurrentRow(c, s) == EMPTY_ROW && s.pc.ReservingCash? && StepCash(c, s, e).pc.Raised?
    ensures e.CashRaised? && (Reserved(CurrentRow(c, StepCash(c, s, e))) <==> e.persisted)
  {
  }

  lemma ChoosingRaisedLeaves(c: Call, s: State, e: Event)
    requires CurrentRow(c, s) == EMPTY_ROW && s.pc.Selecting? && StepSelecting(c, s, e).pc.Raised?
    ensures !Reserved(CurrentRow(c, StepSelecting(c, s, e)))
  {
  }

  /** An exception leaves nothing live, and a reservation exactly in those three cases. */
  lemma RaisedStepExactly(c: Call, s: State, e: Event)
    requires Invariant(c, s) && Raises(c, s, e)
    ensures !MayHold(CurrentRow(c, Step(c, s, e)))
    ensures Reserved(CurrentRow(c, Step(c, s, e))) <==> LeavesReservation(c, s, e)
  {
    StepKeeps(c, s, e);
    RaisesWhere(c, s, e);
    match s.pc
    case Selecting => ChoosingRaisedLeaves(c, s, e);
    case ReservingCash => CashRaisedLeaves(c, s, e);
    case Guarding => GuardRaisedLeaves(c, s, e);
    case _ => CleanupRaisedLeaves(c, s, e);
  }

  // ---------------------------------------------------------------- over runs

  /** The step of a run at which the call raised; nothing happens after it. */
  lemma {:induction false} RaisingStep(c: Call, w: World, events: seq<Event>) returns (k: nat)
    requires Run(c, w, events).pc.Raised?
    ensures k < |events| && Raises(c, Run(c, w, events[..k]), events[k])
    ensures Run(c, w, events) == Step(c, Run(c, w, events[..k]), events[k])
  {
    var n := |events| - 1;
    if Run(c, w, events[..n]).pc.Raised? {
      k := RaisingStep(c, w, events[..n]);
      assert events[..n][..k] == events[..k];
    } else {
      k := n;
    }
  }

  /**
   Over every run that ends by an exception: no trade of the call is live, every other trade has
   nothing reserved, and the current one exactly if its exception was one of those that leave something.
   */
  lemma RaisedCallExactly(c: Call, w: World, events: seq<Event>) returns (k: nat)
    requires SafeStart(c, w) && Run(c, w, events).pc.Raised?
    ensures var s := Run(c, w, events);
            && k < |events| && Raises(c, Run(c, w, events[..k]), events[k])
            && (forall id: TradeId :: id >= c.firstId ==> !MayHold(RowOf(s.world, id)))
            && (forall id: TradeId :: id >= c.firstId && Reserved(RowOf(s.world, id)) ==> id == CurrentId(c, s))
            && (Reserved(CurrentRow(c, s)) <==> LeavesReservation(c, Run(c, w, events[..k]), events[k]))
  {
    k := RaisingStep(c, w, events);
    RunKeeps(c, w, events[..k]);
    RunKeeps(c, w, events);
    RaisedStepExactly(c, Run(c, w, events[..k]), events[k]);
    var s := Run(c, w, events);
    forall id: TradeId | id >= c.firstId && id != CurrentId(c, s)
      ensures !MayHold(RowOf(s.world, id)) && !Reserved(RowOf(s.world, id))
    {
      assert Elsewhere(c, s, id);
    }
  }

  // ---------------------------------------------------------------- a run that leaves both reservations

  /** Sized, with its cash and its intent... */
  lemma GrantedCash(c: Call, q: Quoting, entry: SizedEntry)
    requires Sizes(c, c.references, q, entry)
    ensures var s := Step(c, Step(c, Start(c, map[]), AttemptSized(0, q, entry)), CashGranted(true));
            s.pc.WritingIntent? && CurrentRow(c, s).cash.Some? && CurrentRow(c, s).sent == []
  {
  }

  lemma WrittenIntent(c: Call, s: State)
    requires s.pc.WritingIntent? && CurrentRow(c, s).cash.Some? && CurrentRow(c, s).sent == []
    ensures var t := Step(c, s, IntentWritten);
            && t.pc.ReservingRisk? && CurrentRow(c, t).cash.Some? && CurrentRow(c, t).sent == []
            && (c.hasIntentRepository ==> !IntentClosed(CurrentRow(c, t)))
  {
  }

  /** ...and its risk, when the guard raises. */
  lemma GuardRaisesAfterGrants(c: Call, s: State)
    requires s.pc.ReservingRisk? && CurrentRow(c, s).cash.Some? && CurrentRow(c, s).sent == []
    ensures var t := Step(c, Step(c, s, RiskGranted(true)), GuardRaised);
            && t.pc.Raised? && CurrentRow(c, t).cash.Some? && CurrentRow(c, t).risk && CurrentRow(c, t).sent == []
            && CurrentRow(c, t).intent == CurrentRow(c, s).intent
  {
  }

  /** Any call that can size an entry can raise with both reservations held and nothing submitted. */
  lemma RaisedGuardLeavesReservations(c: Call, q: Quoting, entry: SizedEntry) returns (s: State)
    requires Sizes(c, c.references, q, entry)
    ensures Reachable(c, map[], s) && s.pc.Raised?
    ensures var row := CurrentRow(c, s);
            row.cash.Some? && row.risk && row.sent == [] && (c.hasIntentRepository ==> !IntentClosed(row))
  {
    s := Start(c, map[]);
    assert Run(c, map[], []) == s;
    GrantedCash(c, q, entry);
    s := TwoSteps(c, s, AttemptSized(0, q, entry), CashGranted(true));
    WrittenIntent(c, s);
    ReachableStep(c, map[], s, IntentWritten);
    s := Step(c, s, IntentWritten);
    GuardRaisesAfterGrants(c, s);
    s := TwoSteps(c, s, RiskGranted(true), GuardRaised);
  }
}
