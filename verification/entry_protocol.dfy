/**
 One live `plan_entry` call as a state machine: up to six attempts, each of which sizes, reserves cash,
 writes a durable intent, reserves risk, submits under a guard, and holds or unwinds.

 A step is one awaited operation together with the code up to the next one. Its event says how the
 operation ended, so the environment (broker, ledgers, clock, crash) is free in every step; an event
 that cannot happen in a state leaves the state alone. What survives a crash is the `World`.
 */
module EntryProtocol {
  import opened Wrappers
  import opened Rounding
  import opened OrderManagement
  import opened EntrySizing
  import opened EntryPricing

  type TradeId = nat

  type Contract = string

  type References = map<Contract, Params>

  // ---------------------------------------------------------------- durable state

  datatype IntentStatus = PendingEntryReconcile | Closed

  datatype Intent = Intent(entryOrderId: Option<TradeId>, quantity: int, status: IntentStatus)

  /** A BUY handed to the broker under the trade's own id, and the answer once there is one. */
  datatype Sent = Sent(contract: Contract, price: real, quantity: int, answer: Option<PlaceAnswer>)

  /** Everything outside the process that is keyed by one trade id. */
  datatype Row = Row(intent: Option<Intent>, cash: Option<real>, risk: bool, sent: seq<Sent>)

  const EMPTY_ROW := Row(None, None, false, [])

  type World = map<TradeId, Row>

  function RowOf(w: World, id: TradeId): Row {
    if id in w then w[id] else EMPTY_ROW
  }

  /** Only a definite rejection proves that the broker does not hold a submission. */
  predicate Refused(s: Sent) {
    s.answer.Some? && DefiniteRejection(s.answer.value)
  }

  predicate MayHold(row: Row) {
    exists k :: 0 <= k < |row.sent| && !Refused(row.sent[k])
  }

  // ---------------------------------------------------------------- the call

  /**
   What is configured for the call: the first unused trade id, the effective premium cap, the pricing
   inputs, and the pricing references that an earlier call of the same retry has frozen.
   */
  datatype Call = Call(
    hasIntentRepository: bool,
    firstId: TradeId,
    premiumCap: real,
    params: Params,
    policy: Policy,
    references: References)

  /** Why an attempt has no order, as the recovery loop sees it. */
  datatype BlockKind = NoReasons | FreshnessBlock | ContractBlock | OtherBlock

  datatype Cleanup = CloseIntent | ReleaseCash | ReleaseRisk

  datatype Pc =
    | Selecting
    | ReservingCash
    | WritingIntent
    | ReservingRisk
    | Guarding
    | CorrectingPrice
    | AwaitingFirst
    | Repreflighting(corrected: real)
    | AwaitingSecond
    | Unwinding(todo: seq<Cleanup>)
    | Deciding
    | Returned
    | ReturnedNothing
    | Raised
    | Crashed
    | LoopExhausted

  datatype Attempt = Attempt(
    contract: Contract,
    quantity: int,
    limitPrice: real,
    requiredCash: real,
    cashGranted: bool,
    riskGranted: bool,
    intentWriteFailed: bool)

  datatype Plan = Plan(id: TradeId, ordered: bool, kind: BlockKind)

  datatype State = State(
    world: World,
    index: nat,
    rank: nat,
    rebuildUsed: bool,
    references: References,
    pc: Pc,
    attempt: Attempt,
    plan: Option<Plan>)

  /** The contract an attempt settled on, and the last quote it priced. */
  datatype Quoting = Quoting(contract: Contract, quote: Quote)

  datatype Event =
    | NoSignal
    | SelectorEmpty
    | AttemptRaised
    | AttemptBlocked(newRank: nat, priced: Option<Quoting>, kind: BlockKind)
    | AttemptSized(newRank: nat, quoting: Quoting, entry: SizedEntry)
    | CashGranted(enforced: bool)
    | CashRefused(kind: BlockKind)
    | CashRaised(persisted: bool)
    | IntentWritten
    | IntentWriteFailed(persisted: bool)
    | RiskGranted(persisted: bool)
    | RiskRefused(kind: BlockKind)
    | RiskRaised(persisted: bool)
    | GuardPassed
    | GuardBlocked(kind: BlockKind)
    | GuardRaised
    | PriceCorrected(disclosed: Option<real>, guardBlock: Option<BlockKind>)
    | Answered(answer: PlaceAnswer)
    | Repreflighted(succeeded: bool, disclosed: Option<real>, guardBlock: Option<BlockKind>)
    | PlacementRaised
    | CleanupDone
    | CleanupRaised(applied: bool)
    | Decide
    | Crash

  const MAX_RANK: nat := 4
  const MAX_ATTEMPTS: nat := 6

  function CurrentId(c: Call, s: State): TradeId { c.firstId + s.index }

  function CurrentRow(c: Call, s: State): Row { RowOf(s.world, CurrentId(c, s)) }

  function WithRow(c: Call, s: State, row: Row): State {
    s.(world := s.world[CurrentId(c, s) := row])
  }

  /** The cash guard keeps its reservation in whole cents. */
  function ReservedCash(required: real): real {
    RoundHalfEven(NonNegative(required) * 100.0) as real / 100.0
  }

  function Block(c: Call, s: State, kind: BlockKind, todo: seq<Cleanup>): State {
    s.(pc := Unwinding(todo), plan := Some(Plan(CurrentId(c, s), false, kind)))
  }

  function Hold(c: Call, s: State): State {
    s.(pc := Deciding, plan := Some(Plan(CurrentId(c, s), true, NoReasons)))
  }

  const CLEAR_ALL := [CloseIntent, ReleaseCash, ReleaseRisk]

  function SendBuy(c: Call, s: State, price: real, pc: Pc): State {
    var row := CurrentRow(c, s);
    WithRow(c, s, row.(sent := row.sent + [Sent(s.attempt.contract, price, s.attempt.quantity, None)])).(pc := pc)
  }

  function RecordAnswer(c: Call, s: State, answer: PlaceAnswer): State
    requires CurrentRow(c, s).sent != []
  {
    var row := CurrentRow(c, s);
    var last := |row.sent| - 1;
    WithRow(c, s, row.(sent := row.sent[last := row.sent[last].(answer := Some(answer))]))
  }

  /** The order manager's result for an answer that gets no retry. */
  function Conclude(c: Call, s: State, answer: PlaceAnswer): State {
    if DefiniteRejection(answer) then Block(c, s, OtherBlock, CLEAR_ALL) else Hold(c, s)
  }

  /** The pricing inputs of a contract: frozen since its first approved quote, the configured ones before. */
  function ParamsFor(c: Call, references: References, contract: Contract): Params {
    if contract in references then references[contract] else c.params
  }

  function ApprovedPricing(c: Call, references: References, q: Quoting): (pricing: Option<Pricing>)
    ensures pricing.Some? ==> pricing.value.Priced?
  {
    var selected := SelectEntryLimit(q.quote, ParamsFor(c, references, q.contract), c.policy);
    if selected.Success? && selected.value.Priced? then Some(selected.value) else None
  }

  /** The first approved pricing of a contract freezes its references; a rejected quote never does. */
  function FreezeFirst(c: Call, references: References, q: Quoting): References {
    var pricing := ApprovedPricing(c, references, q);
    if pricing.None? || q.contract in references then references
    else references[q.contract := Freeze(c.params, pricing.value)]
  }

  function StepSelecting(c: Call, s: State, e: Event): State {
    match e
    case NoSignal => if s.index == 0 then s.(pc := ReturnedNothing) else s
    case SelectorEmpty => s.(pc := if s.index == 0 then Raised else Returned)
    case AttemptRaised => s.(pc := Raised)
    case AttemptBlocked(newRank, priced, kind) =>
      if s.rank <= newRank <= MAX_RANK
      then
        var references := if priced.Some? then FreezeFirst(c, s.references, priced.value) else s.references;
        Block(c, s.(rank := newRank, references := references), kind, [])
      else s
    case AttemptSized(newRank, quoting, entry) =>
      if s.rank <= newRank <= MAX_RANK && Sizes(c, s.references, quoting, entry)
      then s.(rank := newRank, pc := ReservingCash, references := FreezeFirst(c, s.references, quoting),
              attempt := FreshAttempt(quoting.contract, entry))
      else s
    case _ => s
  }

  function FreshAttempt(contract: Contract, entry: SizedEntry): Attempt {
    Attempt(contract, entry.quantity, entry.limitPrice, entry.requiredCash, false, false, false)
  }

  /** The entry is sized for the selected limit, at the ceiling as its sizing price. */
  predicate Sizes(c: Call, references: References, q: Quoting, entry: SizedEntry) {
    var pricing := ApprovedPricing(c, references, q);
    && pricing.Some?
    && WithinSpend(entry, pricing.value.limitPrice, pricing.value.ceiling, c.premiumCap)
  }

  function StepCash(c: Call, s: State, e: Event): State {
    var row, a := CurrentRow(c, s), s.attempt;
    match e
    case CashGranted(enforced) =>
      WithRow(c, s, if enforced then row.(cash := Some(ReservedCash(a.requiredCash))) else row)
        .(pc := WritingIntent, attempt := a.(cashGranted := enforced))
    case CashRefused(kind) => Block(c, s, kind, [])
    case CashRaised(persisted) =>
      WithRow(c, s, if persisted then row.(cash := Some(ReservedCash(a.requiredCash))) else row).(pc := Raised)
    case _ => s
  }

  function StepIntent(c: Call, s: State, e: Event): State {
    var row, a := CurrentRow(c, s), s.attempt;
    var written := row.(intent := Some(Intent(Some(CurrentId(c, s)), a.quantity, PendingEntryReconcile)));
    match e
    case IntentWritten => WithRow(c, s, if c.hasIntentRepository then written else row).(pc := ReservingRisk)
    case IntentWriteFailed(persisted) =>
      if !c.hasIntentRepository then s
      else Block(c, WithRow(c, s, if persisted then written else row).(attempt := a.(intentWriteFailed := true)),
                 OtherBlock, [ReleaseCash, ReleaseRisk])
    case _ => s
  }

  function StepRisk(c: Call, s: State, e: Event): State {
    var row, a := CurrentRow(c, s), s.attempt;
    match e
    case RiskGranted(persisted) =>
      WithRow(c, s, row.(risk := persisted)).(pc := Guarding, attempt := a.(riskGranted := persisted))
    case RiskRefused(kind) => Block(c, s, kind, [ReleaseCash, CloseIntent])
    case RiskRaised(persisted) =>
      Block(c, WithRow(c, s, row.(risk := persisted)), OtherBlock, [ReleaseCash, ReleaseRisk, CloseIntent])
    case _ => s
  }

  function StepGuarding(c: Call, s: State, e: Event): State {
    match e
    case GuardPassed => s.(pc := CorrectingPrice)
    case GuardBlocked(kind) => Block(c, s, kind, [ReleaseCash, ReleaseRisk, CloseIntent])
    case GuardRaised => s.(pc := Raised)
    case _ => s
  }

  function StepCorrecting(c: Call, s: State, e: Event): State {
    match e
    case PlacementRaised => Hold(c, s)
    case PriceCorrected(disclosed, guardBlock) =>
      (match CorrectedPrice(RoundPrice(s.attempt.limitPrice), disclosed)
       case Failure(_) => Hold(c, s)
       case Success(price) =>
         if guardBlock.Some? then Block(c, s, guardBlock.value, CLEAR_ALL)
         else SendBuy(c, s, price, AwaitingFirst))
    case _ => s
  }

  /** The broker's answer to the submission it was last handed. */
  function StepAnswer(c: Call, s: State, answer: PlaceAnswer): State {
    var sent := CurrentRow(c, s).sent;
    if sent == [] then s
    else
      var recorded := RecordAnswer(c, s, answer);
      if !s.pc.AwaitingFirst? || !IncrementRejection(answer) then Conclude(c, recorded, answer)
      else
        match SnapPrice(sent[|sent| - 1].price, answer.increment.value)
        case Failure(_) => Hold(c, recorded)
        case Success(corrected) => recorded.(pc := Repreflighting(corrected))
  }

  function StepRepreflight(c: Call, s: State, e: Event): State
    requires s.pc.Repreflighting?
  {
    match e
    case PlacementRaised => Hold(c, s)
    case Repreflighted(succeeded, disclosed, guardBlock) =>
      (match SettledPrice(s.pc.corrected, disclosed)
       case Failure(_) => Block(c, s, OtherBlock, CLEAR_ALL)
       case Success(price) =>
         if !succeeded then Block(c, s, OtherBlock, CLEAR_ALL)
         else if guardBlock.Some? then Block(c, s, guardBlock.value, CLEAR_ALL)
         else SendBuy(c, s, price, AwaitingSecond))
    case _ => s
  }

  /** Releases are idempotent; a missing repository has nothing to close. */
  function ApplyCleanup(c: Call, row: Row, action: Cleanup): Row {
    match action
    case CloseIntent => if c.hasIntentRepository then row.(intent := Some(Intent(None, 0, Closed))) else row
    case ReleaseCash => row.(cash := None)
    case ReleaseRisk => row.(risk := false)
  }

  function StepUnwinding(c: Call, s: State, e: Event): State
    requires s.pc.Unwinding?
  {
    var todo := s.pc.todo;
    if todo == [] then (if e.CleanupDone? then s.(pc := Deciding) else s)
    else
      match e
      case CleanupDone =>
        WithRow(c, s, ApplyCleanup(c, CurrentRow(c, s), todo[0])).(pc := Unwinding(todo[1..]))
      case CleanupRaised(applied) =>
        (if applied then WithRow(c, s, ApplyCleanup(c, CurrentRow(c, s), todo[0])) else s).(pc := Raised)
      case _ => s
  }

  /** The next attempt of the bounded recovery loop, or the loop's end. */
  function NextAttempt(s: State): State {
    s.(index := s.index + 1, attempt := NO_ATTEMPT,
      pc := if s.index + 1 < MAX_ATTEMPTS then Selecting else LoopExhausted)
  }

  function StepDeciding(s: State): State {
    if s.plan.None? then s
    else
      var plan := s.plan.value;
      if plan.ordered || plan.kind == NoReasons then s.(pc := Returned)
      else if !s.rebuildUsed && plan.kind == FreshnessBlock then NextAttempt(s.(rebuildUsed := true))
      else if plan.kind == OtherBlock || s.rank >= MAX_RANK then s.(pc := Returned)
      else NextAttempt(s.(rank := s.rank + 1))
  }

  predicate Stopped(pc: Pc) {
    pc.Returned? || pc.ReturnedNothing? || pc.Raised? || pc.Crashed? || pc.LoopExhausted?
  }

  function Step(c: Call, s: State, e: Event): State {
    if Stopped(s.pc) then s
    else if e.Crash? then s.(pc := Crashed)
    else
      match s.pc
      case Selecting => StepSelecting(c, s, e)
      case Unwinding(_) => StepUnwinding(c, s, e)
      case Deciding => if e.Decide? then StepDeciding(s) else s
      case ReservingCash => StepCash(c, s, e)
      case WritingIntent => StepIntent(c, s, e)
      case ReservingRisk => StepRisk(c, s, e)
      case Guarding => StepGuarding(c, s, e)
      case CorrectingPrice => StepCorrecting(c, s, e)
      case AwaitingFirst => if e.Answered? then StepAnswer(c, s, e.answer) else s
      case Repreflighting(_) => StepRepreflight(c, s, e)
      case AwaitingSecond => if e.Answered? then StepAnswer(c, s, e.answer) else s
      case _ => s
  }

  const NO_ATTEMPT := Attempt("", 0, 0.0, 0.0, false, false, false)

  function Start(c: Call, w: World): State {
    State(w, 0, 0, false, c.references, Selecting, NO_ATTEMPT, None)
  }

  /** The state after any sequence of events. */
  function Run(c: Call, w: World, events: seq<Event>): State {
    if events == [] then Start(c, w)
    else Step(c, Run(c, w, events[..|events| - 1]), events[|events| - 1])
  }
}
