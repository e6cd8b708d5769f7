/**
 Safety of the live entry protocol in every reachable state, crash states included: an order the broker
 may hold always has its durable intent and its reservations, at most one attempt can leave one, and
 the recovery loop cannot run out of iterations.
 */
module EntrySafety {
  import opened Wrappers
  import opened Rounding
  import opened OrderManagement
  import opened EntrySizing
  import opened EntryProtocol

  // ---------------------------------------------------------------- what holds of one trade id

  /** A possibly live BUY has a pending intent under its own id and quantity. */
  predicate IntentCovers(c: Call, id: TradeId, row: Row) {
    c.hasIntentRepository && MayHold(row) ==>
      && row.intent.Some?
      && row.intent.value.entryOrderId == Some(id)
      && row.intent.value.status == PendingEntryReconcile
      && forall k :: 0 <= k < |row.sent| && !Refused(row.sent[k]) ==> row.sent[k].quantity == row.intent.value.quantity
  }

  /** At most two submissions, the second only after a definite increment rejection and no dearer. */
  predicate SubmissionsBounded(row: Row) {
    && |row.sent| <= 2
    && (|row.sent| == 2 ==>
          && row.sent[0].answer.Some?
          && DefiniteRejection(row.sent[0].answer.value)
          && IncrementRejection(row.sent[0].answer.value)
          && row.sent[1].price <= row.sent[0].price
          && row.sent[1].quantity == row.sent[0].quantity)
  }

  predicate Good(c: Call, id: TradeId, row: Row) {
    IntentCovers(c, id, row) && SubmissionsBounded(row)
  }

  /** Nothing is reserved for the trade and the broker holds nothing of it. */
  predicate Cleared(row: Row) {
    row.cash.None? && !row.risk && !MayHold(row)
  }

  /** A returned attempt without an order leaves no pending intent, unless writing it failed. */
  predicate IntentClosed(row: Row) {
    row.intent.None? || row.intent.value.status == Closed
  }

  predicate WithinCap(c: Call, row: Row) {
    forall k :: 0 <= k < |row.sent| ==> PositionCost(row.sent[k].price, row.sent[k].quantity) <= c.premiumCap
  }

  /** The reservations granted to the attempt are held and cover everything submitted. */
  predicate Backed(a: Attempt, row: Row) {
    && (a.cashGranted ==>
          && row.cash.Some?
          && forall k :: 0 <= k < |row.sent| ==>
               PositionCost(row.sent[k].price, row.sent[k].quantity) <= row.cash.value)
    && (a.riskGranted ==> row.risk)
  }

  /** Every submission is for the attempt's quantity, at a whole-cent price of at most its limit. */
  predicate Submits(a: Attempt, row: Row) {
    forall k :: 0 <= k < |row.sent| ==>
      && row.sent[k].quantity == a.quantity
      && WholeCents(row.sent[k].price)
      && row.sent[k].price <= a.limitPrice
  }

  // ---------------------------------------------------------------- spend

  /** The attempt's limit times its quantity is inside the cap and inside its cash reservation. */
  predicate Affordable(c: Call, a: Attempt) {
    && a.quantity >= 1 && WholeCents(a.limitPrice)
    && PositionCost(a.limitPrice, a.quantity) <= c.premiumCap
    && PositionCost(a.limitPrice, a.quantity) <= ReservedCash(a.requiredCash)
  }

  lemma PositionCostWholeCents(price: real, quantity: int)
    requires WholeCents(price)
    ensures WholeCents(PositionCost(price, quantity))
  {
    var cents := RoundHalfEven(price * 100.0);
    var each := ContractCost(price);
    assert each == cents as real;
    var total := PositionCost(price, quantity);
    assert total == quantity as real * cents as real;
    IntProduct(quantity, cents);
    IntProduct(quantity * cents, 100);
    WholeCentsOf(total, quantity * cents * 100);
  }

  /** The cash held is the requirement to the nearest cent, and never negative. */
  lemma ReservedCashInDollars(required: real)
    ensures var held := ReservedCash(required);
            var wanted := if required > 0.0 then required else 0.0;
            WholeCents(held) && held >= 0.0 && -0.005 <= held - wanted <= 0.005
  {
    NearestCent(NonNegative(required));
  }

  /** Rounding the reservation to cents cannot take it below a whole-cent spend it covered. */
  lemma ReservationCovers(spend: real, required: real)
    requires WholeCents(spend) && spend <= required
    ensures spend <= ReservedCash(required)
  {
    var cents := RoundHalfEven(spend * 100.0);
    assert spend * 100.0 == cents as real;
    RoundHalfEvenOfInteger(cents);
    RoundHalfEvenMonotone(spend * 100.0, NonNegative(required) * 100.0);
  }

  lemma SizedIsAffordable(c: Call, contract: Contract, entry: SizedEntry, entryPrice: real, sizingPrice: real)
    requires WithinSpend(entry, entryPrice, sizingPrice, c.premiumCap)
    ensures Affordable(c, FreshAttempt(contract, entry))
  {
    PositionCostWholeCents(entry.limitPrice, entry.quantity);
    ReservationCovers(PositionCost(entry.limitPrice, entry.quantity), entry.requiredCash);
  }

  lemma CheaperIsAffordable(c: Call, a: Attempt, price: real)
    requires Affordable(c, a) && price <= a.limitPrice
    ensures PositionCost(price, a.quantity) <= c.premiumCap
    ensures PositionCost(price, a.quantity) <= ReservedCash(a.requiredCash)
  {
    PositionCostInPrice(price, a.limitPrice, a.quantity);
  }

  // ---------------------------------------------------------------- the inductive invariant

  /** Attempts plus the repeats still possible never exceed the loop's bound. */
  predicate WithinBudget(s: State) {
    s.rank <= MAX_RANK && s.index + (MAX_RANK - s.rank) + (if s.rebuildUsed then 0 else 1) < MAX_ATTEMPTS
  }

  predicate Pending(todo: seq<Cleanup>, action: Cleanup) { action in todo }

  /** What the unwinding still owes: every reservation held and every open intent has its action queued. */
  predicate Owes(c: Call, a: Attempt, row: Row, todo: seq<Cleanup>) {
    && !MayHold(row)
    && (row.cash.Some? ==> ReleaseCash in todo)
    && (row.risk ==> ReleaseRisk in todo)
    && (IntentClosed(row) || (CloseIntent in todo && c.hasIntentRepository) || a.intentWriteFailed)
  }

  /** The attempt has its intent and its reservations, and nothing was definitely refused away. */
  predicate Armed(c: Call, id: TradeId, a: Attempt, row: Row) {
    && Affordable(c, a) && !a.intentWriteFailed
    && (c.hasIntentRepository ==> row.intent == Some(Intent(Some(id), a.quantity, PendingEntryReconcile)))
    && (!c.hasIntentRepository ==> row.intent.None?)
    && (row.cash.Some? <==> a.cashGranted)
    && (a.cashGranted ==> row.cash == Some(ReservedCash(a.requiredCash)))
    && (row.risk <==> a.riskGranted)
  }

  predicate OneRefused(row: Row) {
    |row.sent| == 1 && Refused(row.sent[0]) && IncrementRejection(row.sent[0].answer.value)
  }

  predicate PlanOf(s: State, id: TradeId) { s.plan.Some? && s.plan.value.id == id }

  /** A failed intent write ends the recovery loop. */
  predicate FailureEnds(s: State)
    requires s.plan.Some?
  {
    s.attempt.intentWriteFailed ==> s.plan.value.kind == OtherBlock
  }

  /** The last plan is the previous attempt's, and it has no order. */
  predicate UnorderedBefore(s: State, id: TradeId) {
    s.plan.Some? && s.plan.value.id + 1 == id && !s.plan.value.ordered
  }

  /** What each program point keeps of the current attempt's row. */
  predicate AtPc(c: Call, s: State, id: TradeId, row: Row) {
    var a := s.attempt;
    match s.pc
    case Selecting => row == EMPTY_ROW && a == NO_ATTEMPT && (s.index > 0 ==> UnorderedBefore(s, id))
    case ReservingCash =>
      row == EMPTY_ROW && Affordable(c, a) && !a.cashGranted && !a.riskGranted && !a.intentWriteFailed
    case WritingIntent =>
      row == EMPTY_ROW.(cash := if a.cashGranted then Some(ReservedCash(a.requiredCash)) else None)
      && Affordable(c, a) && !a.riskGranted && !a.intentWriteFailed
    case ReservingRisk => Armed(c, id, a, row) && row.sent == [] && !a.riskGranted && !a.intentWriteFailed
    case Guarding => Armed(c, id, a, row) && row.sent == []
    case CorrectingPrice => Armed(c, id, a, row) && row.sent == []
    case AwaitingFirst => Armed(c, id, a, row) && |row.sent| == 1 && row.sent[0].answer.None?
    case Repreflighting(corrected) =>
      Armed(c, id, a, row) && OneRefused(row) && WholeCents(corrected) && corrected <= row.sent[0].price
    case AwaitingSecond => Armed(c, id, a, row) && |row.sent| == 2 && row.sent[1].answer.None?
    case Unwinding(todo) => Owes(c, a, row, todo) && PlanOf(s, id) && !s.plan.value.ordered && FailureEnds(s)
    case Deciding => Settled(c, s, id, row)
    case Returned => Settled(c, s, id, row) || (row == EMPTY_ROW && s.index > 0 && UnorderedBefore(s, id))
    case ReturnedNothing => row == EMPTY_ROW && s.index == 0
    case Raised => !MayHold(row)
    case Crashed => true
    case LoopExhausted => false
  }

  /** An attempt that has ended: backed if it has an order, cleared if it has none. */
  predicate Settled(c: Call, s: State, id: TradeId, row: Row) {
    && PlanOf(s, id) && FailureEnds(s)
    && (s.plan.value.ordered ==>
          && Backed(s.attempt, row)
          && (c.hasIntentRepository ==>
             row.intent == Some(Intent(Some(id), s.attempt.quantity, PendingEntryReconcile))))
    && (!s.plan.value.ordered ==> Cleared(row) && (IntentClosed(row) || s.attempt.intentWriteFailed))
  }

  /** Kept of the current attempt's row in every state, whatever the program point. */
  predicate Always(c: Call, s: State, id: TradeId, row: Row) {
    && Good(c, id, row)
    && WithinCap(c, row)
    && (row.sent != [] ==> Submits(s.attempt, row))
    && (MayHold(row) ==> Backed(s.attempt, row))
  }

  /** Every other trade of the call: earlier ones are cleared with closed intents, later ones untouched. */
  predicate Elsewhere(c: Call, s: State, id: TradeId) {
    var row := RowOf(s.world, id);
    && Good(c, id, row)
    && (c.firstId <= id < CurrentId(c, s) ==> Cleared(row) && IntentClosed(row) && WithinCap(c, row))
    && (id > CurrentId(c, s) ==> row == EMPTY_ROW)
  }

  ghost predicate Invariant(c: Call, s: State) {
    && WithinBudget(s)
    && AtPc(c, s, CurrentId(c, s), CurrentRow(c, s))
    && Always(c, s, CurrentId(c, s), CurrentRow(c, s))
    && forall id: TradeId :: id != CurrentId(c, s) ==> Elsewhere(c, s, id)
  }

  /** Before the call its ids are unused and older trades already have their intents. */
  ghost predicate SafeStart(c: Call, w: World) {
    forall id: TradeId :: Good(c, id, RowOf(w, id)) && (id >= c.firstId ==> RowOf(w, id) == EMPTY_ROW)
  }

  // ---------------------------------------------------------------- preservation

  /** A step that writes only the current row and stays in the attempt keeps every other trade. */
  lemma OthersKept(c: Call, s: State, t: State, row: Row)
    requires Invariant(c, s) && t.index == s.index
    requires t.world == s.world || t.world == s.world[CurrentId(c, s) := row]
    ensures forall id: TradeId :: id != CurrentId(c, t) ==> Elsewhere(c, t, id)
  {
    forall id: TradeId | id != CurrentId(c, t) ensures Elsewhere(c, t, id) {
      assert Elsewhere(c, s, id);
      assert RowOf(t.world, id) == RowOf(s.world, id);
    }
  }

  /** An attempt that ended before its reservations: nothing of it is left. */
  lemma SelectingBlocks(c: Call, s: State, kind: BlockKind)
    requires Invariant(c, s) && s.pc.Selecting?
    ensures Invariant(c, Block(c, s, kind, []))
  {
    OthersKept(c, s, Block(c, s, kind, []), EMPTY_ROW);
  }

  lemma SelectingSizes(c: Call, s: State, rank: nat, references: References, contract: Contract, entry: SizedEntry)
    requires Invariant(c, s) && s.pc.Selecting? && s.rank <= rank <= MAX_RANK
    requires Affordable(c, FreshAttempt(contract, entry))
    ensures Invariant(c, s.(rank := rank, references := references, pc := ReservingCash,
                            attempt := FreshAttempt(contract, entry)))
  {
    OthersKept(c, s, s.(rank := rank, references := references, pc := ReservingCash,
                        attempt := FreshAttempt(contract, entry)), EMPTY_ROW);
  }

  lemma SelectingMoves(c: Call, s: State, rank: nat, references: References)
    requires Invariant(c, s) && s.pc.Selecting? && s.rank <= rank <= MAX_RANK
    ensures Invariant(c, s.(rank := rank, references := references))
  {
    OthersKept(c, s, s.(rank := rank, references := references), EMPTY_ROW);
  }

  lemma BlockedKeeps(c: Call, s: State, newRank: nat, priced: Option<Quoting>, kind: BlockKind)
    requires Invariant(c, s) && s.pc.Selecting?
    ensures Invariant(c, StepSelecting(c, s, AttemptBlocked(newRank, priced, kind)))
  {
    if s.rank <= newRank <= MAX_RANK {
      var t := StepSelecting(c, s, AttemptBlocked(newRank, priced, kind));
      BlockedAtRank(c, s, newRank, t.references, kind);
    }
  }

  lemma BlockedAtRank(c: Call, s: State, rank: nat, references: References, kind: BlockKind)
    requires Invariant(c, s) && s.pc.Selecting? && s.rank <= rank <= MAX_RANK
    ensures Invariant(c, Block(c, s.(rank := rank, references := references), kind, []))
  {
    SelectingMoves(c, s, rank, references);
    SelectingBlocks(c, s.(rank := rank, references := references), kind);
  }

  lemma SizedKeeps(c: Call, s: State, newRank: nat, quoting: Quoting, entry: SizedEntry)
    requires Invariant(c, s) && s.pc.Selecting?
    ensures Invariant(c, StepSelecting(c, s, AttemptSized(newRank, quoting, entry)))
  {
    if s.rank <= newRank <= MAX_RANK && Sizes(c, s.references, quoting, entry) {
      var pricing := ApprovedPricing(c, s.references, quoting).value;
      SizedIsAffordable(c, quoting.contract, entry, pricing.limitPrice, pricing.ceiling);
      SelectingSizes(c, s, newRank, FreezeFirst(c, s.references, quoting), quoting.contract, entry);
    }
  }

  lemma SelectionEnds(c: Call, s: State, e: Event)
    requires Invariant(c, s) && s.pc.Selecting? && !e.AttemptBlocked? && !e.AttemptSized?
    ensures Invariant(c, StepSelecting(c, s, e))
  {
    OthersKept(c, s, StepSelecting(c, s, e), EMPTY_ROW);
  }

  lemma SelectingKeeps(c: Call, s: State, e: Event)
    requires Invariant(c, s) && s.pc.Selecting?
    ensures Invariant(c, StepSelecting(c, s, e))
  {
    if e.AttemptBlocked? {
      BlockedKeeps(c, s, e.newRank, e.priced, e.kind);
    } else if e.AttemptSized? {
      SizedKeeps(c, s, e.newRank, e.quoting, e.entry);
    } else {
      SelectionEnds(c, s, e);
    }
  }

  lemma CashKeeps(c: Call, s: State, e: Event)
    requires Invariant(c, s) && s.pc.ReservingCash?
    ensures Invariant(c, StepCash(c, s, e))
  {
    var t := StepCash(c, s, e);
    assert CurrentRow(c, t).sent == [];
    OthersKept(c, s, t, CurrentRow(c, t));
  }

  lemma IntentKeeps(c: Call, s: State, e: Event)
    requires Invariant(c, s) && s.pc.WritingIntent?
    ensures Invariant(c, StepIntent(c, s, e))
  {
    var t := StepIntent(c, s, e);
    assert CurrentRow(c, t).sent == [];
    OthersKept(c, s, t, CurrentRow(c, t));
  }

  lemma RiskKeeps(c: Call, s: State, e: Event)
    requires Invariant(c, s) && s.pc.ReservingRisk?
    ensures Invariant(c, StepRisk(c, s, e))
  {
    var t := StepRisk(c, s, e);
    assert CurrentRow(c, t).sent == [];
    OthersKept(c, s, t, CurrentRow(c, t));
  }

  lemma CleanupPaysOne(c: Call, a: Attempt, row: Row, todo: seq<Cleanup>)
    requires Owes(c, a, row, todo) && todo != []
    ensures Owes(c, a, ApplyCleanup(c, row, todo[0]), todo[1..])
    ensures ApplyCleanup(c, row, todo[0]).sent == row.sent
  {
    assert todo == [todo[0]] + todo[1..];
    assert ApplyCleanup(c, row, todo[0]).sent == row.sent;
  }

  lemma CleanupKeeps(c: Call, s: State, pc: Pc)
    requires Invariant(c, s) && s.pc.Unwinding? && s.pc.todo != []
    requires pc == Unwinding(s.pc.todo[1..]) || pc == Raised
    ensures Invariant(c, WithRow(c, s, ApplyCleanup(c, CurrentRow(c, s), s.pc.todo[0])).(pc := pc))
  {
    var before := CurrentRow(c, s);
    var row := ApplyCleanup(c, before, s.pc.todo[0]);
    var t := WithRow(c, s, row).(pc := pc);
    CleanupPaysOne(c, s.attempt, before, s.pc.todo);
    assert MayHold(row) == MayHold(before);
    OthersKept(c, s, t, row);
  }

  lemma UnwindingKeeps(c: Call, s: State, e: Event)
    requires Invariant(c, s) && s.pc.Unwinding?
    ensures Invariant(c, StepUnwinding(c, s, e))
  {
    if s.pc.todo == [] {
      OthersKept(c, s, s.(pc := Deciding), EMPTY_ROW);
    } else if e.CleanupDone? {
      CleanupKeeps(c, s, Unwinding(s.pc.todo[1..]));
    } else if e.CleanupRaised? && e.applied {
      CleanupKeeps(c, s, Raised);
    } else {
      OthersKept(c, s, s.(pc := Raised), EMPTY_ROW);
    }
  }

  /** From the guard to the broker's last answer: armed, and whole whatever the program point. */
  ghost predicate Engaged(c: Call, s: State) {
    && WithinBudget(s)
    && Armed(c, CurrentId(c, s), s.attempt, CurrentRow(c, s))
    && Always(c, s, CurrentId(c, s), CurrentRow(c, s))
    && forall id: TradeId :: id != CurrentId(c, s) ==> Elsewhere(c, s, id)
  }

  lemma BackedWhenEngaged(c: Call, s: State)
    requires Engaged(c, s)
    ensures Backed(s.attempt, CurrentRow(c, s))
  {
    var row, a := CurrentRow(c, s), s.attempt;
    forall k | 0 <= k < |row.sent|
      ensures PositionCost(row.sent[k].price, row.sent[k].quantity) <= ReservedCash(a.requiredCash)
    {
      CheaperIsAffordable(c, a, row.sent[k].price);
    }
  }

  lemma HoldKeeps(c: Call, s: State)
    requires Engaged(c, s)
    ensures Invariant(c, Hold(c, s))
  {
    var t := Hold(c, s);
    BackedWhenEngaged(c, s);
    forall id: TradeId | id != CurrentId(c, t) ensures Elsewhere(c, t, id) {
      assert Elsewhere(c, s, id);
    }
  }

  lemma BlockKeeps(c: Call, s: State, kind: BlockKind, todo: seq<Cleanup>)
    requires Engaged(c, s) && !MayHold(CurrentRow(c, s))
    requires CloseIntent in todo && ReleaseCash in todo && ReleaseRisk in todo
    ensures Invariant(c, Block(c, s, kind, todo))
  {
    var t := Block(c, s, kind, todo);
    assert CurrentRow(c, t) == CurrentRow(c, s);
    forall id: TradeId | id != CurrentId(c, t) ensures Elsewhere(c, t, id) {
      assert Elsewhere(c, s, id);
    }
  }

  /** The submission that may be added to a row: the first, or one after a definite increment rejection. */
  predicate MaySend(row: Row, price: real, pc: Pc) {
    || (pc == AwaitingFirst && row.sent == [])
    || (pc == AwaitingSecond && OneRefused(row) && price <= row.sent[0].price)
  }

  function AddSent(a: Attempt, row: Row, price: real): Row {
    row.(sent := row.sent + [Sent(a.contract, price, a.quantity, None)])
  }

  lemma AddSentKeeps(c: Call, id: TradeId, a: Attempt, row: Row, price: real, pc: Pc)
    requires Armed(c, id, a, row) && MaySend(row, price, pc)
    requires WithinCap(c, row) && (row.sent != [] ==> Submits(a, row))
    requires WholeCents(price) && price <= a.limitPrice
    ensures Armed(c, id, a, AddSent(a, row, price)) && Good(c, id, AddSent(a, row, price))
    ensures WithinCap(c, AddSent(a, row, price)) && Submits(a, AddSent(a, row, price)) &&
              Backed(a, AddSent(a, row, price))
  {
    var after := AddSent(a, row, price);
    forall k | 0 <= k < |after.sent|
      ensures PositionCost(after.sent[k].price, after.sent[k].quantity) <= c.premiumCap
      ensures PositionCost(after.sent[k].price, after.sent[k].quantity) <= ReservedCash(a.requiredCash)
    {
      CheaperIsAffordable(c, a, after.sent[k].price);
    }
  }

  /** Handing the broker a payable price keeps the protocol. */
  lemma SendKeeps(c: Call, s: State, price: real, pc: Pc)
    requires Engaged(c, s) && WholeCents(price) && price <= s.attempt.limitPrice
    requires MaySend(CurrentRow(c, s), price, pc)
    ensures Invariant(c, SendBuy(c, s, price, pc))
  {
    var t := SendBuy(c, s, price, pc);
    assert CurrentRow(c, t) == AddSent(s.attempt, CurrentRow(c, s), price);
    AddSentKeeps(c, CurrentId(c, s), s.attempt, CurrentRow(c, s), price, pc);
    forall id: TradeId | id != CurrentId(c, t) ensures Elsewhere(c, t, id) {
      assert Elsewhere(c, s, id);
      assert RowOf(t.world, id) == RowOf(s.world, id);
    }
  }

  /** Recording an answer keeps the attempt engaged. */
  lemma RecordKeeps(c: Call, s: State, answer: PlaceAnswer)
    requires Invariant(c, s) && (s.pc.AwaitingFirst? || s.pc.AwaitingSecond?)
    ensures Engaged(c, RecordAnswer(c, s, answer))
    ensures var row := CurrentRow(c, RecordAnswer(c, s, answer));
            && |row.sent| == |CurrentRow(c, s).sent|
            && row.sent[|row.sent| - 1] == CurrentRow(c, s).sent[|row.sent| - 1].(answer := Some(answer))
            && (MayHold(row) <==> !DefiniteRejection(answer))
  {
    var t := RecordAnswer(c, s, answer);
    var before, row, a := CurrentRow(c, s), CurrentRow(c, t), s.attempt;
    var last := |before.sent| - 1;
    assert !Refused(before.sent[last]);
    assert MayHold(before);
    assert row == before.(sent := before.sent[last := before.sent[last].(answer := Some(answer))]);
    assert forall k :: 0 <= k < |row.sent| ==>
             row.sent[k].price == before.sent[k].price && row.sent[k].quantity == before.sent[k].quantity;
    if !DefiniteRejection(answer) {
      assert !Refused(row.sent[last]);
    }
    forall id: TradeId | id != CurrentId(c, t) ensures Elsewhere(c, t, id) {
      assert Elsewhere(c, s, id);
      assert RowOf(t.world, id) == RowOf(s.world, id);
    }
  }

  lemma GuardingKeeps(c: Call, s: State, e: Event)
    requires Invariant(c, s) && s.pc.Guarding?
    ensures Invariant(c, StepGuarding(c, s, e))
  {
    assert Engaged(c, s) && !MayHold(CurrentRow(c, s));
    match e
    case GuardPassed => OthersKept(c, s, s.(pc := CorrectingPrice), EMPTY_ROW);
    case GuardRaised => OthersKept(c, s, s.(pc := Raised), EMPTY_ROW);
    case GuardBlocked(kind) => BlockKeeps(c, s, kind, [ReleaseCash, ReleaseRisk, CloseIntent]);
    case _ =>
  }

  lemma CorrectingKeeps(c: Call, s: State, e: Event)
    requires Invariant(c, s) && s.pc.CorrectingPrice?
    ensures Invariant(c, StepCorrecting(c, s, e))
  {
    assert Engaged(c, s) && !MayHold(CurrentRow(c, s));
    match e
    case PlacementRaised => HoldKeeps(c, s);
    case PriceCorrected(disclosed, guardBlock) =>
      RoundPriceOfCents(s.attempt.limitPrice);
      var price := CorrectedPrice(RoundPrice(s.attempt.limitPrice), disclosed);
      if price.Failure? {
        HoldKeeps(c, s);
      } else if guardBlock.Some? {
        BlockKeeps(c, s, guardBlock.value, CLEAR_ALL);
      } else {
        if Known(disclosed) {
          SnapNeverRaises(s.attempt.limitPrice, disclosed.value);
        }
        SendKeeps(c, s, price.value, AwaitingFirst);
      }
    case _ =>
  }

  /** A first submission rejected for its increment waits for the preflight of a price no higher. */
  lemma CorrectionKeeps(c: Call, s: State, answer: PlaceAnswer, corrected: real)
    requires Invariant(c, s) && s.pc.AwaitingFirst? && IncrementRejection(answer)
    requires CurrentRow(c, s).sent != []
    requires var sent := CurrentRow(c, s).sent;
             SnapPrice(sent[|sent| - 1].price, answer.increment.value) == Success(corrected)
    ensures Invariant(c, RecordAnswer(c, s, answer).(pc := Repreflighting(corrected)))
  {
    var recorded := RecordAnswer(c, s, answer);
    RecordKeeps(c, s, answer);
    SnapNeverRaises(CurrentRow(c, s).sent[|CurrentRow(c, s).sent| - 1].price, answer.increment.value);
    var t := recorded.(pc := Repreflighting(corrected));
    forall id: TradeId | id != CurrentId(c, t) ensures Elsewhere(c, t, id) {
      assert Elsewhere(c, recorded, id);
    }
  }

  /** A rejected first submission whose increment gives a price to try again. */
  predicate Retries(c: Call, s: State, answer: PlaceAnswer) {
    && s.pc.AwaitingFirst? && CurrentRow(c, s).sent != [] && IncrementRejection(answer)
    && SnapPrice(CurrentRow(c, s).sent[|CurrentRow(c, s).sent| - 1].price, answer.increment.value).Success?
  }

  lemma AnsweredStep(c: Call, s: State, answer: PlaceAnswer)
    requires (s.pc.AwaitingFirst? || s.pc.AwaitingSecond?) && CurrentRow(c, s).sent != []
    ensures var t, recorded := StepAnswer(c, s, answer), RecordAnswer(c, s, answer);
            var price := CurrentRow(c, s).sent[|CurrentRow(c, s).sent| - 1].price;
            || (!Retries(c, s, answer) && t == Hold(c, recorded))
            || (!Retries(c, s, answer) && DefiniteRejection(answer) && t == Block(c, recorded, OtherBlock, CLEAR_ALL))
            || (Retries(c, s, answer)
                && t == recorded.(pc := Repreflighting(SnapPrice(price, answer.increment.value).value)))
  {
  }

  lemma AnsweredKeeps(c: Call, s: State, answer: PlaceAnswer)
    requires Invariant(c, s) && (s.pc.AwaitingFirst? || s.pc.AwaitingSecond?)
    ensures Invariant(c, StepAnswer(c, s, answer))
  {
    var recorded, t := RecordAnswer(c, s, answer), StepAnswer(c, s, answer);
    AnsweredStep(c, s, answer);
    RecordKeeps(c, s, answer);
    if Retries(c, s, answer) {
      var sent := CurrentRow(c, s).sent;
      CorrectionKeeps(c, s, answer, SnapPrice(sent[|sent| - 1].price, answer.increment.value).value);
    } else if t == Hold(c, recorded) {
      HoldKeeps(c, recorded);
    } else {
      BlockKeeps(c, recorded, OtherBlock, CLEAR_ALL);
    }
  }

  lemma RepreflightKeeps(c: Call, s: State, e: Event)
    requires Invariant(c, s) && s.pc.Repreflighting?
    ensures Invariant(c, StepRepreflight(c, s, e))
  {
    assert Engaged(c, s);
    assert !MayHold(CurrentRow(c, s));
    match e
    case PlacementRaised => HoldKeeps(c, s);
    case Repreflighted(succeeded, disclosed, guardBlock) =>
      var price := SettledPrice(s.pc.corrected, disclosed);
      if price.Failure? || !succeeded {
        BlockKeeps(c, s, OtherBlock, CLEAR_ALL);
      } else if guardBlock.Some? {
        BlockKeeps(c, s, guardBlock.value, CLEAR_ALL);
      } else {
        SettledPriceBound(s.pc.corrected, disclosed);
        SendKeeps(c, s, price.value, AwaitingSecond);
      }
    case _ =>
  }

  /** The next attempt finds its trade untouched, and leaves behind a cleared one. */
  lemma NextAttemptKeeps(c: Call, s: State, rank: nat, rebuildUsed: bool)
    requires Invariant(c, s) && s.pc.Deciding? && s.plan.Some? && !s.plan.value.ordered &&
               s.plan.value.kind != OtherBlock
    requires WithinBudget(NextAttempt(s.(rank := rank, rebuildUsed := rebuildUsed)))
    ensures Invariant(c, NextAttempt(s.(rank := rank, rebuildUsed := rebuildUsed)))
  {
    var t := NextAttempt(s.(rank := rank, rebuildUsed := rebuildUsed));
    assert Elsewhere(c, s, CurrentId(c, t));
    forall id: TradeId | id != CurrentId(c, t) ensures Elsewhere(c, t, id) {
      if id != CurrentId(c, s) {
        assert Elsewhere(c, s, id);
      }
    }
  }

  lemma DecidingKeeps(c: Call, s: State)
    requires Invariant(c, s) && s.pc.Deciding?
    ensures Invariant(c, StepDeciding(s))
  {
    var t := StepDeciding(s);
    if t.index == s.index {
      OthersKept(c, s, t, EMPTY_ROW);
    } else {
      NextAttemptKeeps(c, s, t.rank, t.rebuildUsed);
    }
  }

  lemma CrashKeeps(c: Call, s: State)
    requires Invariant(c, s)
    ensures Invariant(c, s.(pc := Crashed))
  {
    OthersKept(c, s, s.(pc := Crashed), EMPTY_ROW);
  }

  /** From the guard to the broker's last answer. */
  predicate Submitting(pc: Pc) {
    pc.Guarding? || pc.CorrectingPrice? || pc.AwaitingFirst? || pc.Repreflighting? || pc.AwaitingSecond?
  }

  lemma AwaitingKeeps(c: Call, s: State, e: Event)
    requires Invariant(c, s) && (s.pc.AwaitingFirst? || s.pc.AwaitingSecond?) && !e.Crash?
    ensures Invariant(c, Step(c, s, e))
  {
    if e.Answered? {
      AnsweredKeeps(c, s, e.answer);
    }
  }

  lemma SubmissionKeeps(c: Call, s: State, e: Event)
    requires Invariant(c, s) && Submitting(s.pc) && !e.Crash?
    ensures Invariant(c, Step(c, s, e))
  {
    if s.pc.Guarding? {
      GuardingKeeps(c, s, e);
    } else if s.pc.CorrectingPrice? {
      CorrectingKeeps(c, s, e);
    } else if s.pc.Repreflighting? {
      RepreflightKeeps(c, s, e);
    } else {
      AwaitingKeeps(c, s, e);
    }
  }

  lemma StepKeeps(c: Call, s: State, e: Event)
    requires Invariant(c, s)
    ensures Invariant(c, Step(c, s, e))
  {
    if Stopped(s.pc) {
    } else if e.Crash? {
      CrashKeeps(c, s);
    } else if s.pc.Selecting? {
      SelectingKeeps(c, s, e);
    } else if s.pc.Unwinding? {
      UnwindingKeeps(c, s, e);
    } else if s.pc.Deciding? {
      DecidingKeeps(c, s);
    } else if s.pc.ReservingCash? {
      CashKeeps(c, s, e);
    } else if s.pc.WritingIntent? {
      IntentKeeps(c, s, e);
    } else if s.pc.ReservingRisk? {
      RiskKeeps(c, s, e);
    } else {
      SubmissionKeeps(c, s, e);
    }
  }

  lemma {:induction false} RunKeeps(c: Call, w: World, events: seq<Event>)
    requires SafeStart(c, w)
    ensures Invariant(c, Run(c, w, events))
  {
    if events == [] {
      var s := Start(c, w);
      forall id: TradeId ensures Elsewhere(c, s, id) {
        assert Good(c, id, RowOf(w, id));
      }
    } else {
      var last := |events| - 1;
      RunKeeps(c, w, events[..last]);
      StepKeeps(c, Run(c, w, events[..last]), events[last]);
    }
  }

  // ---------------------------------------------------------------- main results

  /** A state some sequence of events leads to, from a call that begins in world `w`. */
  ghost predicate Reachable(c: Call, w: World, s: State) {
    exists events: seq<Event> :: Run(c, w, events) == s
  }

  lemma ReachableKeeps(c: Call, w: World, s: State)
    requires SafeStart(c, w) && Reachable(c, w, s)
    ensures Invariant(c, s)
  {
    var events :| Run(c, w, events) == s;
    RunKeeps(c, w, events);
  }

  /**
   Crash safety. In every reachable state, a crash between any two awaits included, every trade the
   broker may hold a BUY of has a durable pending intent under that trade's own order id and quantity;
   so an intent is closed only when every submission was definitely refused or none was sent.
   */
  lemma CrashSafety(c: Call, w: World, s: State, id: TradeId)
    requires SafeStart(c, w) && Reachable(c, w, s) && c.hasIntentRepository
    ensures var row := RowOf(s.world, id);
            && (MayHold(row) ==>
                  && row.intent.Some? && row.intent.value.status == PendingEntryReconcile
                  && row.intent.value.entryOrderId == Some(id)
                  && forall k :: 0 <= k < |row.sent| && !Refused(row.sent[k]) ==>
                       row.sent[k].quantity == row.intent.value.quantity)
            && (IntentClosed(row) ==> forall k :: 0 <= k < |row.sent| ==> Refused(row.sent[k]))
  {
    ReachableKeeps(c, w, s);
    if id != CurrentId(c, s) {
      assert Elsewhere(c, s, id);
    }
  }

  /**
   Reservation discipline. In every reachable state at most one trade of the call can be live or
   uncertain at the broker, and the reservations granted to it are still held; all other trades have
   nothing reserved. A returned plan with an order is that trade, and without an order has nothing
   reserved either. When the call has raised, no trade is live; what it still holds is in `EntryExceptions`.
   */
  lemma ReservationDiscipline(c: Call, w: World, s: State, id: TradeId)
    requires SafeStart(c, w) && Reachable(c, w, s) && id >= c.firstId
    ensures var row := RowOf(s.world, id);
            && (MayHold(row) ==> id == CurrentId(c, s) && Backed(s.attempt, row))
            && (id != CurrentId(c, s) ==> Cleared(row))
            && (s.pc.Raised? ==> !MayHold(row))
            && (s.pc.Returned? ==>
                  && s.plan.Some?
                  && (id != s.plan.value.id || !s.plan.value.ordered ==> Cleared(row))
                  && (id == s.plan.value.id && s.plan.value.ordered ==>
                     id == CurrentId(c, s) && Backed(s.attempt, row)))
  {
    ReachableKeeps(c, w, s);
    assert id != CurrentId(c, s) ==> Elsewhere(c, s, id);
  }

  /**
   A returned plan without an order leaves no pending intent, the previous attempt's plan included,
   unless the returned attempt's own write failed.
   */
  lemma UnorderedPlanClosesIntent(c: Call, w: World, s: State)
    requires SafeStart(c, w) && Reachable(c, w, s)
    requires s.pc.Returned? && s.plan.Some? && !s.plan.value.ordered
    ensures IntentClosed(RowOf(s.world, s.plan.value.id)) || s.attempt.intentWriteFailed
    ensures s.plan.value.id != CurrentId(c, s) ==> IntentClosed(RowOf(s.world, s.plan.value.id))
  {
    ReachableKeeps(c, w, s);
    assert s.plan.value.id != CurrentId(c, s) ==> Elsewhere(c, s, s.plan.value.id);
  }

  /**
   Every BUY of the call, in every reachable state, costs in dollars, at 100 shares a contract, at most
   the cap and at most its live reservation.
   */
  lemma SpendIsBounded(c: Call, w: World, s: State, id: TradeId, k: nat)
    requires SafeStart(c, w) && Reachable(c, w, s) && id >= c.firstId
    requires k < |RowOf(s.world, id).sent|
    ensures var row := RowOf(s.world, id);
            && row.sent[k].price * 100.0 * row.sent[k].quantity as real <= c.premiumCap
            && (MayHold(row) && s.attempt.cashGranted ==>
                  row.cash.Some? && row.sent[k].price * 100.0 * row.sent[k].quantity as real <= row.cash.value)
  {
    var sent := RowOf(s.world, id).sent[k];
    SpendWithinLimits(c, w, s, id, k);
    PositionCostInDollars(sent.price, sent.quantity);
  }

  lemma SpendWithinLimits(c: Call, w: World, s: State, id: TradeId, k: nat)
    requires SafeStart(c, w) && Reachable(c, w, s) && id >= c.firstId
    requires k < |RowOf(s.world, id).sent|
    ensures var row := RowOf(s.world, id);
            var cost := PositionCost(row.sent[k].price, row.sent[k].quantity);
            && cost <= c.premiumCap
            && (MayHold(row) && s.attempt.cashGranted ==> row.cash.Some? && cost <= row.cash.value)
  {
    ReachableKeeps(c, w, s);
    assert id != CurrentId(c, s) ==> Elsewhere(c, s, id);
  }

  /** Each trade is submitted at most twice, the second time no dearer and only after a definite increment rejection. */
  lemma SubmissionsAreBounded(c: Call, w: World, s: State, id: TradeId)
    requires SafeStart(c, w) && Reachable(c, w, s)
    ensures SubmissionsBounded(RowOf(s.world, id))
  {
    ReachableKeeps(c, w, s);
    assert id != CurrentId(c, s) ==> Elsewhere(c, s, id);
  }

  /** What is left of the loop's repeats: unused candidate ranks and the unused rebuild. */
  function RepeatsLeft(s: State): int {
    (MAX_RANK - s.rank) + (if s.rebuildUsed then 0 else 1)
  }

  /** A new attempt always uses one up, and nothing gives one back, rank jumps included. */
  lemma RepeatsRunDown(c: Call, s: State, e: Event)
    requires s.rank <= MAX_RANK
    ensures RepeatsLeft(Step(c, s, e)) <= RepeatsLeft(s)
    ensures Step(c, s, e).index != s.index ==>
              Step(c, s, e).index == s.index + 1 && 0 <= RepeatsLeft(Step(c, s, e)) < RepeatsLeft(s)
  {
    if !s.pc.Deciding? && !s.pc.Selecting? {
      StepKeepsCounters(c, s, e);
    }
  }

  lemma StepKeepsCounters(c: Call, s: State, e: Event)
    requires !s.pc.Deciding? && !s.pc.Selecting?
    ensures Step(c, s, e).index == s.index && Step(c, s, e).rank == s.rank
    ensures Step(c, s, e).rebuildUsed == s.rebuildUsed
  {
    if s.pc.Unwinding? {
      UnwindingFrame(c, s, e);
    } else {
      ReservationsFrame(c, s, e);
      SubmissionFrame(c, s, e);
    }
  }

  /** What the steps between choosing and deciding leave alone. */
  predicate SameAttempt(s: State, t: State) {
    && t.index == s.index && t.rank == s.rank && t.rebuildUsed == s.rebuildUsed && t.references == s.references
    && t.attempt.contract == s.attempt.contract && t.attempt.limitPrice == s.attempt.limitPrice
    && t.attempt.quantity == s.attempt.quantity
  }

  lemma ReservationsFrame(c: Call, s: State, e: Event)
    ensures SameAttempt(s, StepCash(c, s, e)) && SameAttempt(s, StepIntent(c, s, e)) &&
              SameAttempt(s, StepRisk(c, s, e))
  {
  }

  lemma UnwindingFrame(c: Call, s: State, e: Event)
    requires s.pc.Unwinding?
    ensures SameAttempt(s, StepUnwinding(c, s, e))
  {
  }

  lemma SubmissionFrame(c: Call, s: State, e: Event)
    ensures SameAttempt(s, StepGuarding(c, s, e)) && SameAttempt(s, StepCorrecting(c, s, e))
    ensures e.Answered? ==> SameAttempt(s, StepAnswer(c, s, e.answer))
    ensures s.pc.Repreflighting? ==> SameAttempt(s, StepRepreflight(c, s, e))
  {
  }

  /** The recovery loop ends by returning or raising, never by running out of its six iterations. */
  lemma LoopNeverExhausts(c: Call, w: World, s: State)
    requires SafeStart(c, w) && Reachable(c, w, s)
    ensures !s.pc.LoopExhausted?
    ensures s.index + RepeatsLeft(s) < MAX_ATTEMPTS
  {
    ReachableKeeps(c, w, s);
  }

  // ------------------------------------------------- exactly when crash safety holds

  /** Every trade of the call that the broker may hold a BUY of has a durable intent. */
  ghost predicate CrashSafeCall(c: Call) {
    forall w: World, s: State, id: TradeId ::
      SafeStart(c, w) && Reachable(c, w, s) && id >= c.firstId && MayHold(RowOf(s.world, id)) ==>
        RowOf(s.world, id).intent.Some?
  }

  lemma ReachableStep(c: Call, w: World, s: State, e: Event)
    requires Reachable(c, w, s)
    ensures Reachable(c, w, Step(c, s, e))
  {
    var events :| Run(c, w, events) == s;
    assert (events + [e])[..|events|] == events;
    assert Run(c, w, events + [e]) == Step(c, s, e);
  }

  /** An attempt in an empty world with nothing reserved and nothing written. */
  predicate Bare(c: Call, s: State, pc: Pc) {
    s.pc == pc && CurrentRow(c, s) == EMPTY_ROW && s.index == 0
  }

  /** With nothing configured a sized attempt gets past its cash check... */
  lemma UnguardedReservation(c: Call, s: State, q: Quoting, entry: SizedEntry)
    requires s == Start(c, map[]) && Sizes(c, c.references, q, entry)
    ensures var t := Step(c, s, AttemptSized(0, q, entry));
            Bare(c, t, ReservingCash) && Bare(c, Step(c, t, CashGranted(false)), WritingIntent)
  {
  }

  /** ...then, without a repository, past its intent with nothing written... */
  lemma UnguardedIntent(c: Call, s: State)
    requires !c.hasIntentRepository && Bare(c, s, WritingIntent)
    ensures Bare(c, Step(c, s, IntentWritten), ReservingRisk)
  {
  }

  /** ...and past its risk check and guard to the submission. */
  lemma UnguardedRisk(c: Call, s: State)
    requires Bare(c, s, ReservingRisk)
    ensures Bare(c, Step(c, s, RiskGranted(false)), Guarding)
  {
  }

  lemma UnguardedGuard(c: Call, s: State)
    requires Bare(c, s, Guarding)
    ensures Bare(c, Step(c, s, GuardPassed), CorrectingPrice)
  {
  }

  lemma UnguardedSend(c: Call, s: State)
    requires Bare(c, s, CorrectingPrice)
    ensures var row := RowOf(Step(c, s, PriceCorrected(None, None)).world, c.firstId);
            MayHold(row) && row.intent.None?
  {
    var t := Step(c, s, PriceCorrected(None, None));
    assert t == SendBuy(c, s, RoundPrice(s.attempt.limitPrice), AwaitingFirst);
    assert !Refused(RowOf(t.world, c.firstId).sent[0]);
  }

  /** Without a repository a submission goes out with no durable trace of it. */
  lemma NoRepositoryNoIntent(c: Call, q: Quoting, entry: SizedEntry)
    requires !c.hasIntentRepository && Sizes(c, c.references, q, entry)
    ensures !CrashSafeCall(c)
  {
    var s := UnguardedRun(c, q, entry);
    var t := Step(c, s, PriceCorrected(None, None));
    UnguardedSend(c, s);
    ReachableStep(c, map[], s, PriceCorrected(None, None));
    assert SafeStart(c, map[]);
    assert RowOf(t.world, c.firstId).intent.None?;
  }

  lemma UnguardedRun(c: Call, q: Quoting, entry: SizedEntry) returns (s: State)
    requires !c.hasIntentRepository && Sizes(c, c.references, q, entry)
    ensures Reachable(c, map[], s) && Bare(c, s, CorrectingPrice)
  {
    s := Start(c, map[]);
    assert Run(c, map[], []) == s;
    UnguardedReservation(c, s, q, entry);
    s := TwoSteps(c, s, AttemptSized(0, q, entry), CashGranted(false));
    UnguardedIntent(c, s);
    UnguardedRisk(c, Step(c, s, IntentWritten));
    s := TwoSteps(c, s, IntentWritten, RiskGranted(false));
    UnguardedGuard(c, s);
    ReachableStep(c, map[], s, GuardPassed);
    s := Step(c, s, GuardPassed);
  }

  lemma TwoSteps(c: Call, s: State, first: Event, second: Event) returns (t: State)
    requires Reachable(c, map[], s)
    ensures t == Step(c, Step(c, s, first), second) && Reachable(c, map[], t)
  {
    ReachableStep(c, map[], s, first);
    ReachableStep(c, map[], Step(c, s, first), second);
    t := Step(c, Step(c, s, first), second);
  }

  /** For a call that some quote can size, crash safety is exactly having the intent repository. */
  lemma CrashSafetyNeedsRepository(c: Call, q: Quoting, entry: SizedEntry)
    requires Sizes(c, c.references, q, entry)
    ensures CrashSafeCall(c) <==> c.hasIntentRepository
  {
    if c.hasIntentRepository {
      forall w: World, s: State, id: TradeId
        | SafeStart(c, w) && Reachable(c, w, s) && id >= c.firstId && MayHold(RowOf(s.world, id))
        ensures RowOf(s.world, id).intent.Some?
      {
        CrashSafety(c, w, s, id);
      }
    } else {
      NoRepositoryNoIntent(c, q, entry);
    }
  }
}
