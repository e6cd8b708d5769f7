/**
 The code of an entry attempt and the steps of the protocol: pricing and sizing end in an event that
 the protocol accepts, and a placement is a run of submission steps with the same orders and outcome.
 */
module EntrySteps {
  import opened Wrappers
  import opened Rounding
  import opened OrderManagement
  import opened EntrySizing
  import opened EntryProtocol
  import EntryPricing

  // ---------------------------------------------------------------- pricing and sizing

  function BlockedQuote(reasons: seq<EntryPricing.Block>): BlockKind {
    if EntryPricing.CeilingUnusable in reasons then OtherBlock else ContractBlock
  }

  function BlockedSize(reason: SizingReason): BlockKind {
    if reason in {InsufficientBudget, InsufficientCash, LossHeadroomExceeded} then ContractBlock else OtherBlock
  }

  /**
   Another contract may cure a quote that was not priced and a size that its price made too dear; it
   cures neither a useless ceiling nor the refusal of a guard or a failing preflight.
   */
  lemma WhatAnotherContractCures(reasons: seq<EntryPricing.Block>, reason: SizingReason)
    ensures BlockedQuote(reasons) == ContractBlock <==> EntryPricing.CeilingUnusable !in reasons
    ensures BlockedSize(reason) == ContractBlock <==>
            reason == InsufficientBudget || reason == InsufficientCash || reason == LossHeadroomExceeded
    ensures BlockedQuote(reasons) in {ContractBlock, OtherBlock} && BlockedSize(reason) in {ContractBlock, OtherBlock}
  {
  }

  /** The quantity that the cap and the contract limit ask for, at the sizing price. */
  function RequestedQuantity(premiumCap: real, sizingPrice: real, maxContracts: Option<int>): int
    requires sizingPrice > 0.0
  {
    ContractCostPositive(sizingPrice);
    var byCap := TickUnits(premiumCap, ContractCost(sizingPrice));
    if maxContracts.Some? then Smaller(byCap, maxContracts.value) else byCap
  }

  /** The quantity asked for is the largest that the cap pays for in dollars and the contract limit allows. */
  lemma RequestedIsLargest(premiumCap: real, sizingPrice: real, maxContracts: Option<int>, quantity: int)
    requires sizingPrice > 0.0
    ensures quantity <= RequestedQuantity(premiumCap, sizingPrice, maxContracts) <==>
            && sizingPrice * 100.0 * quantity as real <= premiumCap
            && (maxContracts.Some? ==> quantity <= maxContracts.value)
  {
    AffordableIff(sizingPrice, premiumCap, quantity);
    PositionCostInDollars(sizingPrice, quantity);
  }

  /** Every such event is accepted: a sized entry goes on to its reservations, a blocked attempt unwinds. */
  lemma PricedIsAccepted(c: Call, s: State, newRank: nat, q: Quoting, entry: SizedEntry, kind: BlockKind)
    requires s.pc.Selecting? && s.rank <= newRank <= MAX_RANK
    ensures Sizes(c, s.references, q, entry) ==>
              var t := Step(c, s, AttemptSized(newRank, q, entry));
              t.pc == ReservingCash && t.rank == newRank && t.attempt == FreshAttempt(q.contract, entry)
    ensures var t := Step(c, s, AttemptBlocked(newRank, Some(q), kind));
            && t.pc == Unwinding([]) && t.rank == newRank && t.attempt == s.attempt
            && t.plan == Some(Plan(CurrentId(c, s), false, kind))
    ensures Step(c, s, AttemptRaised).pc == Raised
  {
  }

  /**
   One attempt from its quote to its sized entry. `held` is a guard or value check that ends it between
   pricing and sizing. What it ends in is an event that the protocol accepts: a sized entry is
   one that was sized for the selected limit at the ceiling, and it is blocked for a stated reason only.
   */
  method PriceAndSize(
    c: Call, s: State, newRank: nat, q: Quoting, held: Option<BlockKind>, maxContracts: Option<int>,
    stopLossPct: Option<real>, cash: CashPreview, risk: RiskPreview, rounds: seq<Round>)
    returns (e: Event, preflighted: seq<Request>, ghost refusal: SizingReason)
    requires s.pc.Selecting? && s.rank <= newRank <= MAX_RANK && |rounds| >= 3
    ensures e.AttemptRaised? || e.AttemptBlocked? || e.AttemptSized?
    ensures e.AttemptSized? ==>
              && held.None?
              && e.newRank == newRank && e.quoting == q && Sizes(c, s.references, q, e.entry)
              && preflighted != [] && preflighted[|preflighted| - 1] == Request(e.entry.limitPrice, e.entry.quantity)
    ensures var selected := EntryPricing.SelectEntryLimit(q.quote, ParamsFor(c, s.references, q.contract), c.policy);
            && (e.AttemptRaised? <==> selected.Failure?)
            && (e.AttemptBlocked? ==>
                  && e.newRank == newRank && e.priced == Some(q)
                  && (if selected.value.Blocked? then e.kind == BlockedQuote(selected.value.reasons)
                      else if held.Some? then e.kind == held.value
                      else if selected.value.ceiling * 100.0 > c.premiumCap
                              || (maxContracts.Some? && maxContracts.value <= 0) then e.kind == ContractBlock
                      else
                        var p := selected.value;
                        var upper := RequestedQuantity(c.premiumCap, p.ceiling, maxContracts);
                        var first := SizingInputs(p.ceiling, stopLossPct, c.premiumCap, 0.0, cash, risk);
                        && SizingFails(p.limitPrice, first, upper, rounds, preflighted, refusal)
                        && e.kind == BlockedSize(refusal)))
  {
    preflighted, refusal := [], InsufficientBudget;
    var selected := EntryPricing.SelectEntryLimit(q.quote, ParamsFor(c, s.references, q.contract), c.policy);
    if selected.Failure? {
      return AttemptRaised, preflighted, refusal;
    }
    if selected.value.Blocked? {
      return AttemptBlocked(newRank, Some(q), BlockedQuote(selected.value.reasons)), preflighted, refusal;
    }
    EntryPricing.LimitWithinCeilings(q.quote, ParamsFor(c, s.references, q.contract), c.policy);
    var entryPrice, sizingPrice := selected.value.limitPrice, selected.value.ceiling;
    if held.Some? {
      return AttemptBlocked(newRank, Some(q), held.value), preflighted, refusal;
    }
    var upper := RequestedQuantity(c.premiumCap, sizingPrice, maxContracts);
    RequestedIsLargest(c.premiumCap, sizingPrice, maxContracts, 1);
    if upper <= 0 {
      return AttemptBlocked(newRank, Some(q), ContractBlock), preflighted, refusal;
    }
    var sized;
    sized, preflighted :=
      SizeLiveEntry(entryPrice, sizingPrice, stopLossPct, c.premiumCap, upper, cash, risk, rounds);
    if sized.Failure? {
      refusal := sized.error;
      return AttemptBlocked(newRank, Some(q), BlockedSize(sized.error)), preflighted, refusal;
    }
    return AttemptSized(newRank, q, sized.value), preflighted, refusal;
  }

  // ---------------------------------------------------------------- placement

  function GuardBlock(blocked: bool, kind: BlockKind): Option<BlockKind> {
    if blocked then Some(kind) else None
  }

  /** What happened during a placement; an event that was not reached leaves the protocol alone. */
  function PlacementEvents(
    increment: Option<real>, guards: (bool, bool), kind: BlockKind, answers: (PlaceAnswer, PlaceAnswer),
    recheck: Result<PreflightCheck, OrderError>): seq<Event>
  {
    [PriceCorrected(increment, GuardBlock(guards.0, kind)),
     Answered(answers.0),
     Repreflighted(recheck.Success?, if recheck.Success? then recheck.value.currentIncrement else None,
                   GuardBlock(guards.1, kind)),
     Answered(answers.1)]
  }

  function StepAll(c: Call, s: State, events: seq<Event>): State
    decreases |events|
  {
    if events == [] then s else StepAll(c, Step(c, s, events[0]), events[1..])
  }

  /** The broker's submissions as the protocol records them. */
  predicate Records(contract: Contract, submissions: seq<Submission>, sent: seq<Sent>) {
    && |sent| == |submissions|
    && forall k :: 0 <= k < |sent| ==>
         sent[k] == Sent(contract, submissions[k].price, submissions[k].quantity, Some(submissions[k].answer))
  }

  /** The placement's result as the planner reads it: an order to hold, or everything to unwind. */
  predicate EndsAs(c: Call, s: State, result: Result<OrderResult, OrderError>) {
    && s.plan.Some? && s.plan.value.id == CurrentId(c, s)
    && (s.plan.value.ordered <==> result.Failure? || result.value.orderId.Some?)
    && s.pc == if s.plan.value.ordered then Deciding else Unwinding(CLEAR_ALL)
  }

  predicate Placed(c: Call, s: State, placement: Placement) {
    EndsAs(c, s, placement.result) && Records(s.attempt.contract, placement.submissions, CurrentRow(c, s).sent)
  }

  /** A decided attempt waits for nothing: the remaining placement events leave it alone. */
  lemma PlacedStays(c: Call, s: State, placement: Placement, e: Event)
    requires Placed(c, s, placement)
    requires e.Answered? || e.Repreflighted?
    ensures Step(c, s, e) == s
  {
  }

  predicate Ready(s: State, row: Row, limitPrice: real, quantity: int) {
    s.pc.CorrectingPrice? && row.sent == [] && s.attempt.limitPrice == limitPrice && s.attempt.quantity == quantity
  }

  lemma FirstSent(c: Call, s: State, limitPrice: real, quantity: int, increment: Option<real>, guard: Option<BlockKind>)
    requires Ready(s, CurrentRow(c, s), limitPrice, quantity)
    ensures var price := CorrectedPrice(RoundPrice(limitPrice), increment);
            var t := Step(c, s, PriceCorrected(increment, guard));
            && t.attempt == s.attempt && t.index == s.index
            && (price.Failure? ==> EndsAs(c, t, Failure(price.error)) && CurrentRow(c, t).sent == [])
            && (price.Success? && guard.Some? ==> EndsAs(c, t, Success(NotSubmitted())) && CurrentRow(c, t).sent == [])
            && (price.Success? && guard.None? ==>
                  && t.pc.AwaitingFirst?
                  && CurrentRow(c, t).sent == [Sent(s.attempt.contract, price.value, quantity, None)])
  {
  }

  /** The first answer: concluded, raised over its increment, or a price to preflight. */
  lemma FirstAnswered(c: Call, s: State, price: real, quantity: int, answer: PlaceAnswer, clientOrderId: string)
    requires s.pc.AwaitingFirst? && CurrentRow(c, s).sent == [Sent(s.attempt.contract, price, quantity, None)]
    ensures var t := Step(c, s, Answered(answer));
            && t.attempt == s.attempt && t.index == s.index
            && CurrentRow(c, t).sent == [Sent(s.attempt.contract, price, quantity, Some(answer))]
            && (!IncrementRejection(answer) ==> EndsAs(c, t, Success(BuyResult(clientOrderId, price, answer))))
            && (IncrementRejection(answer) ==>
                  match SnapPrice(price, answer.increment.value)
                  case Failure(error) => EndsAs(c, t, Failure(error))
                  case Success(corrected) => t.pc == Repreflighting(corrected))
  {
    assert CurrentRow(c, RecordAnswer(c, s, answer)).sent == [Sent(s.attempt.contract, price, quantity, Some(answer))];
  }

  lemma SecondSent(c: Call, s: State, recheck: Result<PreflightCheck, OrderError>, guard: Option<BlockKind>)
    requires s.pc.Repreflighting?
    requires recheck.Success? ==>
               SettledPrice(s.pc.corrected, recheck.value.currentIncrement) == Success(recheck.value.limitPrice)
    ensures var increment := if recheck.Success? then recheck.value.currentIncrement else None;
            var e := Repreflighted(recheck.Success?, increment, guard);
            var t := Step(c, s, e);
            && t.attempt == s.attempt && t.index == s.index
            && (recheck.Failure? || guard.Some? ==>
                  EndsAs(c, t, Success(NotSubmitted())) && CurrentRow(c, t).sent == CurrentRow(c, s).sent)
            && (recheck.Success? && guard.None? ==>
                  && t.pc.AwaitingSecond?
                  && CurrentRow(c, t).sent == CurrentRow(c, s).sent
                     + [Sent(s.attempt.contract, recheck.value.limitPrice, s.attempt.quantity, None)])
  {
  }

  lemma SecondAnswered(c: Call, s: State, first: Sent, second: Sent, answer: PlaceAnswer, clientOrderId: string)
    requires s.pc.AwaitingSecond? && CurrentRow(c, s).sent == [first] + [second]
    ensures var t := Step(c, s, Answered(answer));
            && t.attempt == s.attempt && t.index == s.index
            && CurrentRow(c, t).sent == [first, second.(answer := Some(answer))]
            && EndsAs(c, t, Success(BuyResult(clientOrderId, second.price, answer)))
  {
    assert CurrentRow(c, RecordAnswer(c, s, answer)).sent == [first, second.(answer := Some(answer))];
  }

  lemma FourSteps(c: Call, s: State, e0: Event, e1: Event, e2: Event, e3: Event)
    ensures StepAll(c, s, [e0, e1, e2, e3]) == Step(c, Step(c, Step(c, Step(c, s, e0), e1), e2), e3)
  {
    var all := [e0, e1, e2, e3];
    assert all[1..] == [e1, e2, e3] && [e1, e2, e3][1..] == [e2, e3] && [e2, e3][1..] == [e3] && [e3][1..] == [];
    var t := Step(c, Step(c, s, e0), e1);
    assert StepAll(c, t, [e2, e3]) == StepAll(c, Step(c, t, e2), [e3]);
    assert StepAll(c, Step(c, t, e2), [e3]) == StepAll(c, Step(c, Step(c, t, e2), e3), []);
  }

  /** The second half of a placement: the preflight of the corrected price, the guard and the second answer. */
  function RetryWith(
    first: Submission, guarded: bool, answer: PlaceAnswer, recheck: Result<PreflightCheck, OrderError>): Placement
  {
    if recheck.Failure? || guarded then Placement(Success(NotSubmitted()), [first])
    else
      var final := recheck.value.limitPrice;
      Placement(Success(BuyResult(first.orderId, final, answer)),
                [first, Submission(first.orderId, final, first.quantity, answer)])
  }

  lemma RetryIsSubmission(
    c: Call, s: State, first: Submission, guarded: bool, kind: BlockKind, answer: PlaceAnswer,
    recheck: Result<PreflightCheck, OrderError>)
    requires s.pc.Repreflighting? && s.attempt.quantity == first.quantity
    requires CurrentRow(c, s).sent == [Sent(s.attempt.contract, first.price, first.quantity, Some(first.answer))]
    requires recheck.Success? ==>
               SettledPrice(s.pc.corrected, recheck.value.currentIncrement) == Success(recheck.value.limitPrice)
    ensures var e := Repreflighted(recheck.Success?, if recheck.Success? then recheck.value.currentIncrement else None,
                                   GuardBlock(guarded, kind));
            Placed(c, Step(c, Step(c, s, e), Answered(answer)), RetryWith(first, guarded, answer, recheck))
  {
    var e := Repreflighted(recheck.Success?, if recheck.Success? then recheck.value.currentIncrement else None,
                           GuardBlock(guarded, kind));
    var t := Step(c, s, e);
    SecondSent(c, s, recheck, GuardBlock(guarded, kind));
    if recheck.Failure? || guarded {
      PlacedStays(c, t, RetryWith(first, guarded, answer, recheck), Answered(answer));
    } else {
      var second := Sent(s.attempt.contract, recheck.value.limitPrice, first.quantity, None);
      SecondAnswered(c, t, CurrentRow(c, s).sent[0], second, answer, first.orderId);
    }
  }

  /**
   A placement is a run of the protocol's submission steps: the same prices, quantities and answers go
   out, and it ends in the order to hold or the reservations to unwind that the result calls for.
   */
  lemma PlacementIsSubmission(
    c: Call, s: State, limitPrice: real, quantity: int, clientOrderId: string, increment: Option<real>,
    guards: (bool, bool), kind: BlockKind, answers: (PlaceAnswer, PlaceAnswer),
    recheck: Result<PreflightCheck, OrderError>)
    requires Ready(s, CurrentRow(c, s), limitPrice, quantity) && Rechecks(limitPrice, increment, answers.0, recheck)
    ensures Placed(c, StepAll(c, s, PlacementEvents(increment, guards, kind, answers, recheck)),
                   PlaceWith(limitPrice, quantity, clientOrderId, increment, guards, answers, recheck))
  {
    var e := PlacementEvents(increment, guards, kind, answers, recheck);
    var placement := PlaceWith(limitPrice, quantity, clientOrderId, increment, guards, answers, recheck);
    var t1 := Step(c, s, e[0]);
    var t2 := Step(c, t1, e[1]);
    FourSteps(c, s, e[0], e[1], e[2], e[3]);
    FirstSent(c, s, limitPrice, quantity, increment, GuardBlock(guards.0, kind));
    var price := CorrectedPrice(RoundPrice(limitPrice), increment);
    if price.Failure? || guards.0 {
      StaysPlaced(c, t1, placement, e);
    } else {
      FirstAnswered(c, t1, price.value, quantity, answers.0, clientOrderId);
      if IncrementRejection(answers.0) && SnapPrice(price.value, answers.0.increment.value).Success? {
        RetryIsSubmission(c, t2, Submission(clientOrderId, price.value, quantity, answers.0),
                          guards.1, kind, answers.1, recheck);
      } else {
        PlacedStays(c, t2, placement, e[2]);
        PlacedStays(c, t2, placement, e[3]);
      }
    }
  }

  lemma StaysPlaced(c: Call, s: State, placement: Placement, e: seq<Event>)
    requires Placed(c, s, placement) && |e| == 4 && e[1].Answered? && e[2].Repreflighted? && e[3].Answered?
    ensures Step(c, Step(c, Step(c, s, e[1]), e[2]), e[3]) == s
  {
    PlacedStays(c, s, placement, e[1]);
    PlacedStays(c, s, placement, e[2]);
    PlacedStays(c, s, placement, e[3]);
  }

  /** The submission of an armed attempt through the order manager. */
  method SubmitAttempt(
    c: Call, ghost s: State, manager: OrderManager,
    symbol: string, limitPrice: real, quantity: int, clientOrderId: string,
    disclosed: Option<real>, guards: (bool, bool), ghost kind: BlockKind,
    answers: (PlaceAnswer, PlaceAnswer), preflightAnswers: seq<PreflightAnswer>)
    returns (r: Result<OrderResult, OrderError>, submissions: seq<Submission>, ghost events: seq<Event>)
    requires Ready(s, CurrentRow(c, s), limitPrice, quantity)
    requires WholeCents(limitPrice) && |preflightAnswers| >= 3
    modifies manager
    ensures Placed(c, StepAll(c, s, events), Placement(r, submissions))
  {
    ghost var increment := manager.IncrementFor(symbol, disclosed);
    var recheck;
    r, submissions, recheck := manager.PlaceEntryOrder(
      symbol, limitPrice, quantity, clientOrderId, disclosed, guards, answers, preflightAnswers);
    events := PlacementEvents(increment, guards, kind, answers, recheck);
    PlacementIsSubmission(c, s, limitPrice, quantity, clientOrderId, increment, guards, kind, answers, recheck);
  }
}
