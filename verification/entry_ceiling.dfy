/**
 The price bound of a whole `plan_entry` call: the first approved quote of a contract freezes its
 ceiling, and no BUY of any attempt, in any reachable state, is ever above it.
 */
module EntryCeiling {
  import opened Wrappers
  import opened OrderManagement
  import opened EntrySizing
  import opened EntryProtocol
  import opened EntrySafety
  import EntryPricing
  import Rounding

  // ---------------------------------------------------------------- frozen references

  /** References are made by freezing, so each has its ceiling. */
  predicate HasCeilings(references: References) {
    forall contract :: contract in references ==> references[contract].priceCeiling.Some?
  }

  predicate Extends(earlier: References, later: References) {
    forall contract :: contract in earlier ==> contract in later && later[contract] == earlier[contract]
  }

  /** The first approved pricing of a contract is what is frozen, and nothing else ever changes. */
  lemma FirstPricingIsFrozen(c: Call, references: References, q: Quoting)
    requires HasCeilings(references)
    ensures var frozen := FreezeFirst(c, references, q);
            && Extends(references, frozen) && HasCeilings(frozen)
            && (forall contract :: contract in frozen && contract !in references ==>
                  contract == q.contract && ApprovedPricing(c, references, q).Some?
                  && frozen[contract].priceCeiling == Some(ApprovedPricing(c, references, q).value.ceiling))
            && (ApprovedPricing(c, references, q).Some? ==> q.contract in frozen)
  {
  }

  /**
   The first approved pricing of a contract freezes its mid, its width and its ceiling, and leaves the
   other inputs as they are configured, whether the attempt is then sized or blocked.
   */
  lemma FirstPricingFreezesAll(c: Call, s: State, newRank: nat, q: Quoting, kind: BlockKind, entry: SizedEntry)
    requires s.pc.Selecting? && s.rank <= newRank <= MAX_RANK
    requires q.contract !in s.references && ApprovedPricing(c, s.references, q).Some?
    ensures var p := ApprovedPricing(c, s.references, q).value;
            var frozen := EntryPricing.Params(Some(p.originalMid), Some(p.wideMarket), Some(p.ceiling),
                                 c.params.maxChasePct, c.params.priceThroughTarget, c.params.repriceStep);
            && Step(c, s, AttemptBlocked(newRank, Some(q), kind)).references == s.references[q.contract := frozen]
            && (Sizes(c, s.references, q, entry) ==>
                  Step(c, s, AttemptSized(newRank, q, entry)).references == s.references[q.contract := frozen])
  {
  }

  /** A limit selected under frozen references, or freezing them, is under the frozen ceiling. */
  lemma SelectedIsUnderCeiling(c: Call, references: References, q: Quoting)
    requires HasCeilings(references) && ApprovedPricing(c, references, q).Some?
    ensures UnderCeiling(FreezeFirst(c, references, q), q.contract, ApprovedPricing(c, references, q).value.limitPrice)
  {
    EntryPricing.LimitWithinCeilings(q.quote, ParamsFor(c, references, q.contract), c.policy);
  }

  predicate UnderCeiling(references: References, contract: Contract, price: real) {
    && contract in references && references[contract].priceCeiling.Some?
    && price <= references[contract].priceCeiling.value
  }

  predicate SentUnder(references: References, row: Row) {
    forall k :: 0 <= k < |row.sent| ==> UnderCeiling(references, row.sent[k].contract, row.sent[k].price)
  }

  /** The attempt submits its own contract only, and only once it is sized. */
  predicate OwnSends(a: Attempt, row: Row) {
    (row.sent != [] ==> a.quantity >= 1) && forall k :: 0 <= k < |row.sent| ==> row.sent[k].contract == a.contract
  }

  predicate CeilingInvariant(c: Call, s: State) {
    && HasCeilings(s.references)
    && (s.attempt.quantity >= 1 ==> UnderCeiling(s.references, s.attempt.contract, s.attempt.limitPrice))
    && OwnSends(s.attempt, CurrentRow(c, s))
    && forall id: TradeId :: c.firstId <= id < CurrentId(c, s) ==> SentUnder(s.references, RowOf(s.world, id))
  }

  // ---------------------------------------------------------------- preservation

  /** A step inside an attempt touches no other trade and submits nothing but the attempt's contract. */
  predicate OwnStep(c: Call, s: State, t: State) {
    && SameAttempt(s, t)
    && (t.world == s.world || t.world == s.world[CurrentId(c, s) := CurrentRow(c, t)])
    && (OwnSends(s.attempt, CurrentRow(c, s)) ==> OwnSends(t.attempt, CurrentRow(c, t)))
  }

  lemma OwnStepKeeps(c: Call, s: State, t: State)
    requires CeilingInvariant(c, s) && OwnStep(c, s, t)
    ensures CeilingInvariant(c, t)
  {
    forall id: TradeId | c.firstId <= id < CurrentId(c, t) ensures SentUnder(t.references, RowOf(t.world, id)) {
      assert RowOf(t.world, id) == RowOf(s.world, id);
      assert SentUnder(s.references, RowOf(s.world, id));
    }
  }

  lemma CashOwn(c: Call, s: State, e: Event)
    ensures OwnStep(c, s, StepCash(c, s, e))
  {
    assert CurrentRow(c, StepCash(c, s, e)).sent == CurrentRow(c, s).sent;
  }

  lemma IntentOwn(c: Call, s: State, e: Event)
    ensures OwnStep(c, s, StepIntent(c, s, e))
  {
    assert CurrentRow(c, StepIntent(c, s, e)).sent == CurrentRow(c, s).sent;
  }

  lemma RiskOwn(c: Call, s: State, e: Event)
    ensures OwnStep(c, s, StepRisk(c, s, e))
  {
    assert CurrentRow(c, StepRisk(c, s, e)).sent == CurrentRow(c, s).sent;
  }

  lemma UnwindingOwn(c: Call, s: State, e: Event)
    requires s.pc.Unwinding?
    ensures OwnStep(c, s, StepUnwinding(c, s, e))
  {
    assert CurrentRow(c, StepUnwinding(c, s, e)).sent == CurrentRow(c, s).sent;
  }

  lemma SendOwn(c: Call, s: State, price: real, pc: Pc)
    requires s.attempt.quantity >= 1
    ensures OwnStep(c, s, SendBuy(c, s, price, pc))
  {
    var row, after := CurrentRow(c, s), CurrentRow(c, SendBuy(c, s, price, pc));
    assert after.sent == row.sent + [Sent(s.attempt.contract, price, s.attempt.quantity, None)];
  }

  lemma CorrectingOwn(c: Call, s: State, e: Event)
    requires s.attempt.quantity >= 1
    ensures OwnStep(c, s, StepCorrecting(c, s, e))
  {
    if e.PriceCorrected? {
      var price := CorrectedPrice(Rounding.RoundPrice(s.attempt.limitPrice), e.disclosed);
      if price.Success? {
        SendOwn(c, s, price.value, AwaitingFirst);
      }
    }
  }

  lemma RepreflightOwn(c: Call, s: State, e: Event)
    requires s.attempt.quantity >= 1 && s.pc.Repreflighting?
    ensures OwnStep(c, s, StepRepreflight(c, s, e))
  {
    if e.Repreflighted? {
      var price := SettledPrice(s.pc.corrected, e.disclosed);
      if price.Success? {
        SendOwn(c, s, price.value, AwaitingSecond);
      }
    }
  }

  lemma AnswerOwn(c: Call, s: State, answer: PlaceAnswer)
    ensures OwnStep(c, s, StepAnswer(c, s, answer))
  {
    var row, t := CurrentRow(c, s), StepAnswer(c, s, answer);
    if row.sent != [] {
      assert t.world == RecordAnswer(c, s, answer).world;
      var after := CurrentRow(c, t);
      assert |after.sent| == |row.sent|;
      assert forall k :: 0 <= k < |row.sent| ==> after.sent[k].contract == row.sent[k].contract;
    }
  }

  lemma SubmissionOwn(c: Call, s: State, e: Event)
    requires s.attempt.quantity >= 1 && Submitting(s.pc) && !e.Crash?
    ensures OwnStep(c, s, Step(c, s, e))
  {
    match s.pc
    case CorrectingPrice => CorrectingOwn(c, s, e);
    case Repreflighting(_) => RepreflightOwn(c, s, e);
    case AwaitingFirst => if e.Answered? { AnswerOwn(c, s, e.answer); }
    case AwaitingSecond => if e.Answered? { AnswerOwn(c, s, e.answer); }
    case _ =>
  }

  /** Before anything is submitted the references may grow and the attempt may be sized under them. */
  lemma GrowingKeeps(c: Call, s: State, t: State)
    requires CeilingInvariant(c, s) && t.world == s.world && t.index == s.index
    requires CurrentRow(c, s).sent == [] && Extends(s.references, t.references) && HasCeilings(t.references)
    requires t.attempt.quantity >= 1 ==> UnderCeiling(t.references, t.attempt.contract, t.attempt.limitPrice)
    ensures CeilingInvariant(c, t)
  {
    forall id: TradeId | c.firstId <= id < CurrentId(c, t) ensures SentUnder(t.references, RowOf(t.world, id)) {
      assert SentUnder(s.references, RowOf(s.world, id));
    }
  }

  predicate Choosing(c: Call, s: State) {
    s.pc.Selecting? && CurrentRow(c, s).sent == [] && s.attempt == NO_ATTEMPT
  }

  lemma BlockedKeepsCeiling(c: Call, s: State, newRank: nat, priced: Option<Quoting>, kind: BlockKind)
    requires Choosing(c, s) && CeilingInvariant(c, s)
    ensures var t := StepSelecting(c, s, AttemptBlocked(newRank, priced, kind));
            CeilingInvariant(c, t) && Extends(s.references, t.references)
  {
    if priced.Some? {
      FirstPricingIsFrozen(c, s.references, priced.value);
    }
    GrowingKeeps(c, s, StepSelecting(c, s, AttemptBlocked(newRank, priced, kind)));
  }

  lemma SizedIsUnderCeiling(c: Call, references: References, quoting: Quoting, entry: SizedEntry)
    requires HasCeilings(references) && Sizes(c, references, quoting, entry)
    ensures var frozen := FreezeFirst(c, references, quoting);
            Extends(references, frozen) && HasCeilings(frozen) &&
              UnderCeiling(frozen, quoting.contract, entry.limitPrice)
  {
    FirstPricingIsFrozen(c, references, quoting);
    SelectedIsUnderCeiling(c, references, quoting);
  }

  lemma SizedKeepsCeiling(c: Call, s: State, newRank: nat, quoting: Quoting, entry: SizedEntry)
    requires Choosing(c, s) && CeilingInvariant(c, s)
    ensures var t := StepSelecting(c, s, AttemptSized(newRank, quoting, entry));
            CeilingInvariant(c, t) && Extends(s.references, t.references)
  {
    if Sizes(c, s.references, quoting, entry) {
      SizedIsUnderCeiling(c, s.references, quoting, entry);
      GrowingKeeps(c, s, StepSelecting(c, s, AttemptSized(newRank, quoting, entry)));
    }
  }

  lemma SelectingKeepsCeiling(c: Call, s: State, e: Event)
    requires Choosing(c, s) && CeilingInvariant(c, s)
    ensures CeilingInvariant(c, StepSelecting(c, s, e))
    ensures Extends(s.references, StepSelecting(c, s, e).references)
  {
    if e.AttemptBlocked? {
      BlockedKeepsCeiling(c, s, e.newRank, e.priced, e.kind);
    } else if e.AttemptSized? {
      SizedKeepsCeiling(c, s, e.newRank, e.quoting, e.entry);
    } else {
      GrowingKeeps(c, s, StepSelecting(c, s, e));
    }
  }

  /** What the attempt submitted is under its ceiling, since none of it is above the attempt's limit. */
  lemma CurrentIsUnder(c: Call, s: State)
    requires Invariant(c, s) && CeilingInvariant(c, s)
    ensures SentUnder(s.references, CurrentRow(c, s))
  {
    var row := CurrentRow(c, s);
    forall k | 0 <= k < |row.sent| ensures UnderCeiling(s.references, row.sent[k].contract, row.sent[k].price) {
      assert Submits(s.attempt, row);
    }
  }

  lemma NextAttemptKeepsCeiling(c: Call, s: State, t: State)
    requires CeilingInvariant(c, s) && SentUnder(s.references, CurrentRow(c, s))
    requires t.index == s.index + 1 && t.world == s.world && t.references == s.references
    requires t.attempt == NO_ATTEMPT && CurrentRow(c, t) == EMPTY_ROW
    ensures CeilingInvariant(c, t)
  {
  }

  lemma DecidingKeepsCeiling(c: Call, s: State)
    requires Invariant(c, s) && CeilingInvariant(c, s) && s.pc.Deciding?
    ensures CeilingInvariant(c, StepDeciding(s)) && StepDeciding(s).references == s.references
  {
    var t := StepDeciding(s);
    CurrentIsUnder(c, s);
    if t.index != s.index {
      assert Elsewhere(c, s, s.index + 1 + c.firstId);
      NextAttemptKeepsCeiling(c, s, t);
    }
  }

  lemma StepKeepsCeiling(c: Call, s: State, e: Event)
    requires Invariant(c, s) && CeilingInvariant(c, s)
    ensures CeilingInvariant(c, Step(c, s, e)) && Extends(s.references, Step(c, s, e).references)
  {
    if Stopped(s.pc) || e.Crash? {
    } else if s.pc.Selecting? {
      SelectingKeepsCeiling(c, s, e);
    } else if s.pc.Deciding? {
      DecidingKeepsCeiling(c, s);
    } else {
      AttemptKeepsCeiling(c, s, e);
    }
  }

  lemma AttemptKeepsCeiling(c: Call, s: State, e: Event)
    requires Invariant(c, s) && CeilingInvariant(c, s)
    requires !Stopped(s.pc) && !e.Crash? && !s.pc.Selecting? && !s.pc.Deciding?
    ensures CeilingInvariant(c, Step(c, s, e)) && Extends(s.references, Step(c, s, e).references)
  {
    match s.pc {
      case ReservingCash => CashOwn(c, s, e);
      case WritingIntent => IntentOwn(c, s, e);
      case ReservingRisk => RiskOwn(c, s, e);
      case Unwinding(_) => UnwindingOwn(c, s, e);
      case _ => SubmissionOwn(c, s, e);
    }
    OwnStepKeeps(c, s, Step(c, s, e));
  }

  // ---------------------------------------------------------------- main result

  lemma {:induction false} RunKeepsCeiling(c: Call, w: World, events: seq<Event>)
    requires SafeStart(c, w) && HasCeilings(c.references)
    ensures CeilingInvariant(c, Run(c, w, events))
  {
    if events != [] {
      var n := |events| - 1;
      RunKeepsCeiling(c, w, events[..n]);
      RunKeeps(c, w, events[..n]);
      StepKeepsCeiling(c, Run(c, w, events[..n]), events[n]);
    }
  }

  /** Once frozen, the references of a contract stay as they are for the rest of the call. */
  lemma {:induction false} ReferencesStayFrozen(c: Call, w: World, events: seq<Event>, k: nat)
    requires SafeStart(c, w) && HasCeilings(c.references) && k <= |events|
    ensures Extends(Run(c, w, events[..k]).references, Run(c, w, events).references)
    decreases |events|
  {
    if k == |events| {
      assert events[..k] == events;
    } else {
      var n := |events| - 1;
      assert events[..n][..k] == events[..k];
      ReferencesStayFrozen(c, w, events[..n], k);
      RunKeepsCeiling(c, w, events[..n]);
      RunKeeps(c, w, events[..n]);
      StepKeepsCeiling(c, Run(c, w, events[..n]), events[n]);
    }
  }

  /**
   Over all attempts of a call, crashes included: whatever ceiling a contract was frozen at, no BUY of
   it before or after is ever submitted above that ceiling, and none before it is frozen.
   */
  lemma NoBuyAboveFirstCeiling(c: Call, w: World, events: seq<Event>, k: nat, id: TradeId, j: nat)
    requires SafeStart(c, w) && HasCeilings(c.references) && k <= |events| && id >= c.firstId
    requires j < |RowOf(Run(c, w, events).world, id).sent|
    ensures var sent := RowOf(Run(c, w, events).world, id).sent[j];
            var frozen := Run(c, w, events[..k]).references;
            && UnderCeiling(Run(c, w, events).references, sent.contract, sent.price)
            && (sent.contract in frozen ==> UnderCeiling(frozen, sent.contract, sent.price))
  {
    var s := Run(c, w, events);
    RunKeeps(c, w, events);
    RunKeepsCeiling(c, w, events);
    ReferencesStayFrozen(c, w, events, k);
    EverythingSentIsUnder(c, s, id);
  }

  lemma EverythingSentIsUnder(c: Call, s: State, id: TradeId)
    requires Invariant(c, s) && CeilingInvariant(c, s) && id >= c.firstId
    ensures SentUnder(s.references, RowOf(s.world, id))
  {
    CurrentIsUnder(c, s);
    assert id != CurrentId(c, s) ==> Elsewhere(c, s, id);
  }
}
