/**
 Every BUY of a `plan_entry` call passed every gate of its own attempt first, in order: cash, the
 durable intent, risk, and the guard.
 */
module EntryGates {
  import opened Wrappers
  import opened OrderManagement
  import opened EntryProtocol
  import opened EntrySafety

  /** The event lets an attempt through at that program point. */
  predicate Opens(pc: Pc, e: Event) {
    match e
    case CashGranted(_) => pc.ReservingCash?
    case IntentWritten => pc.WritingIntent?
    case RiskGranted(_) => pc.ReservingRisk?
    case GuardPassed => pc.Guarding?
    case _ => false
  }

  /** The states that the events lead through, from the start on. */
  predicate IsTrace(c: Call, w: World, events: seq<Event>, trace: seq<State>) {
    && |trace| == |events| + 1 && trace[0] == Start(c, w)
    && forall k :: 0 <= k < |events| ==> trace[k + 1] == Step(c, trace[k], events[k])
  }

  lemma {:induction false} TraceIsRun(c: Call, w: World, events: seq<Event>, trace: seq<State>)
    requires IsTrace(c, w, events, trace)
    ensures trace[|events|] == Run(c, w, events)
  {
    if events != [] {
      var n := |events| - 1;
      TraceIsRun(c, w, events[..n], trace[..n + 1]);
    }
  }

  /** The k-th event let the attempt through the gate. */
  predicate LetThrough(events: seq<Event>, trace: seq<State>, index: nat, gate: Event, k: nat)
    requires k < |events| < |trace|
  {
    events[k] == gate && trace[k].index == index && Opens(trace[k].pc, gate)
  }

  /** The first `n` events let the attempt through these gates, in this order. */
  predicate Passed(events: seq<Event>, trace: seq<State>, n: nat, index: nat, gates: seq<Event>)
    requires n <= |events| < |trace|
    decreases |gates|
  {
    gates != [] ==>
      var before, gate := gates[..|gates| - 1], gates[|gates| - 1];
      exists k: nat :: k < n && LetThrough(events, trace, index, gate, k) && Passed(events, trace, k, index, before)
  }

  /** The gates of an attempt; the flags say whether the guards are enforced, so that something is held. */
  function Gates(cash: bool, risk: bool): seq<Event> {
    [CashGranted(cash), IntentWritten, RiskGranted(risk), GuardPassed]
  }

  function GatesOf(a: Attempt): seq<Event> { Gates(a.cashGranted, a.riskGranted) }

  /** How many gates lie behind a program point of an attempt. */
  function GatesBehind(pc: Pc): nat {
    match pc
    case WritingIntent => 1
    case ReservingRisk => 2
    case Guarding => 3
    case CorrectingPrice => 4
    case AwaitingFirst => 4
    case Repreflighting(_) => 4
    case AwaitingSecond => 4
    case _ => 0
  }

  lemma PassedLater(events: seq<Event>, trace: seq<State>, n: nat, index: nat, gates: seq<Event>)
    requires n < |events| < |trace| && Passed(events, trace, n, index, gates)
    ensures Passed(events, trace, n + 1, index, gates)
  {
  }

  lemma PassedOneMore(events: seq<Event>, trace: seq<State>, n: nat, index: nat, gates: seq<Event>)
    requires n < |events| < |trace| && Passed(events, trace, n, index, gates)
    requires trace[n].index == index && Opens(trace[n].pc, events[n])
    ensures Passed(events, trace, n + 1, index, gates + [events[n]])
  {
    var more := gates + [events[n]];
    assert more[..|gates|] == gates;
    assert LetThrough(events, trace, index, more[|gates|], n);
  }

  // ---------------------------------------------------------------- one step

  predicate SameFlags(a: Attempt, b: Attempt) {
    a.cashGranted == b.cashGranted && a.riskGranted == b.riskGranted
  }

  /** A step of an attempt stays where it is among the gates, or passes the next one. */
  predicate MovesThrough(s: State, e: Event, t: State) {
    || GatesBehind(t.pc) == 0
    || (GatesBehind(t.pc) == GatesBehind(s.pc) && SameFlags(t.attempt, s.attempt))
    || (GatesBehind(t.pc) == GatesBehind(s.pc) + 1
        && Opens(s.pc, e) && e == GatesOf(t.attempt)[GatesBehind(s.pc)]
        && GatesOf(t.attempt)[..GatesBehind(s.pc)] == GatesOf(s.attempt)[..GatesBehind(s.pc)])
  }

  /** A BUY is there after the step: from before, or sent behind all the gates. */
  predicate SendsBehind(c: Call, s: State, t: State) {
    CurrentRow(c, t).sent != [] ==>
      SameFlags(t.attempt, s.attempt) && (CurrentRow(c, s).sent != [] || GatesBehind(s.pc) == 4)
  }

  lemma SelectingStep(c: Call, s: State, e: Event)
    requires AtPc(c, s, CurrentId(c, s), CurrentRow(c, s)) && s.pc.Selecting?
    ensures var t := Step(c, s, e); t.index == s.index && GatesBehind(t.pc) == 0 && t.world == s.world
    ensures CurrentRow(c, s).sent == []
  {
  }

  lemma CashStep(c: Call, s: State, e: Event)
    requires AtPc(c, s, CurrentId(c, s), CurrentRow(c, s)) && s.pc.ReservingCash? && !e.Crash?
    ensures var t := Step(c, s, e);
            t.index == s.index && MovesThrough(s, e, t) && CurrentRow(c, t).sent == [] == CurrentRow(c, s).sent
  {
  }

  lemma IntentStep(c: Call, s: State, e: Event)
    requires AtPc(c, s, CurrentId(c, s), CurrentRow(c, s)) && s.pc.WritingIntent? && !e.Crash?
    ensures var t := Step(c, s, e);
            t.index == s.index && MovesThrough(s, e, t) && CurrentRow(c, t).sent == [] == CurrentRow(c, s).sent
  {
  }

  lemma RiskStep(c: Call, s: State, e: Event)
    requires AtPc(c, s, CurrentId(c, s), CurrentRow(c, s)) && s.pc.ReservingRisk? && !e.Crash?
    ensures var t := Step(c, s, e);
            t.index == s.index && MovesThrough(s, e, t) && CurrentRow(c, t).sent == [] == CurrentRow(c, s).sent
  {
  }

  lemma GuardStep(c: Call, s: State, e: Event)
    requires AtPc(c, s, CurrentId(c, s), CurrentRow(c, s)) && s.pc.Guarding? && !e.Crash?
    ensures var t := Step(c, s, e);
            t.index == s.index && MovesThrough(s, e, t) && CurrentRow(c, t).sent == [] == CurrentRow(c, s).sent
  {
  }

  lemma EarlyStep(c: Call, s: State, e: Event)
    requires Invariant(c, s) && !e.Crash?
    requires s.pc.Selecting? || s.pc.ReservingCash? || s.pc.WritingIntent? || s.pc.ReservingRisk? || s.pc.Guarding?
    ensures var t := Step(c, s, e);
            t.index == s.index && MovesThrough(s, e, t) && CurrentRow(c, t).sent == []
  {
    match s.pc {
      case Selecting => SelectingStep(c, s, e);
      case ReservingCash => CashStep(c, s, e);
      case WritingIntent => IntentStep(c, s, e);
      case ReservingRisk => RiskStep(c, s, e);
      case Guarding => GuardStep(c, s, e);
    }
  }

  lemma LateStep(c: Call, s: State, e: Event)
    requires GatesBehind(s.pc) == 4 && !e.Crash?
    ensures var t := Step(c, s, e);
            t.index == s.index && MovesThrough(s, e, t) && SameFlags(t.attempt, s.attempt)
  {
    SubmissionFrame(c, s, e);
    GatesStayBehind(c, s, e);
  }

  lemma GatesStayBehind(c: Call, s: State, e: Event)
    requires GatesBehind(s.pc) == 4
    ensures GatesBehind(Step(c, s, e).pc) in {0, 4}
  {
    match s.pc {
      case CorrectingPrice =>
      case AwaitingFirst =>
      case Repreflighting(_) =>
      case AwaitingSecond =>
      case _ =>
    }
  }

  lemma EndingStep(c: Call, s: State, e: Event)
    requires s.pc.Unwinding? || Stopped(s.pc) || e.Crash?
    ensures var t := Step(c, s, e);
            && t.index == s.index && t.attempt == s.attempt && GatesBehind(t.pc) in {0, GatesBehind(s.pc)}
            && CurrentRow(c, t).sent == CurrentRow(c, s).sent
  {
  }

  lemma GateStep(c: Call, s: State, e: Event)
    requires Invariant(c, s) && !s.pc.Deciding?
    ensures var t := Step(c, s, e);
            t.index == s.index && MovesThrough(s, e, t) && SendsBehind(c, s, t)
  {
    if s.pc.Unwinding? || Stopped(s.pc) || e.Crash? {
      EndingStep(c, s, e);
    } else if GatesBehind(s.pc) == 4 {
      LateStep(c, s, e);
    } else {
      EarlyStep(c, s, e);
    }
  }

  /** Only the attempt's own row is written, and an intent that is there stays there, pending or closed. */
  predicate OthersAlike(c: Call, s: State, t: State) {
    || t.world == s.world
    || (t.index == s.index && t.world == s.world[CurrentId(c, s) := CurrentRow(c, t)]
        && (CurrentRow(c, s).intent.Some? ==> CurrentRow(c, t).intent.Some?))
  }

  lemma AnswerWritesOwn(c: Call, s: State, e: Event)
    requires s.pc.AwaitingFirst? || s.pc.AwaitingSecond?
    ensures OthersAlike(c, s, Step(c, s, e))
  {
  }

  lemma CorrectingWritesOwn(c: Call, s: State, e: Event)
    requires s.pc.CorrectingPrice?
    ensures OthersAlike(c, s, Step(c, s, e))
  {
  }

  lemma RepreflightWritesOwn(c: Call, s: State, e: Event)
    requires s.pc.Repreflighting?
    ensures OthersAlike(c, s, Step(c, s, e))
  {
  }

  lemma ReservingWritesOwn(c: Call, s: State, e: Event)
    requires s.pc.ReservingCash? || s.pc.WritingIntent? || s.pc.ReservingRisk?
    ensures OthersAlike(c, s, Step(c, s, e))
  {
  }

  lemma UnwindingWritesOwn(c: Call, s: State, e: Event)
    requires s.pc.Unwinding?
    ensures OthersAlike(c, s, Step(c, s, e))
  {
  }

  /** A step writes no row but the attempt's own. */
  lemma OtherRowsStay(c: Call, s: State, e: Event)
    requires !s.pc.Deciding?
    ensures OthersAlike(c, s, Step(c, s, e))
  {
    if !Stopped(s.pc) && !e.Crash? {
      match s.pc {
        case AwaitingFirst => AnswerWritesOwn(c, s, e);
        case AwaitingSecond => AnswerWritesOwn(c, s, e);
        case CorrectingPrice => CorrectingWritesOwn(c, s, e);
        case Repreflighting(_) => RepreflightWritesOwn(c, s, e);
        case ReservingCash => ReservingWritesOwn(c, s, e);
        case WritingIntent => ReservingWritesOwn(c, s, e);
        case ReservingRisk => ReservingWritesOwn(c, s, e);
        case Unwinding(_) => UnwindingWritesOwn(c, s, e);
        case _ =>
      }
    }
  }

  /** A durable intent is closed, but never forgotten. */
  lemma IntentIsNeverForgotten(c: Call, s: State, e: Event, id: TradeId)
    ensures RowOf(s.world, id).intent.Some? ==> RowOf(Step(c, s, e).world, id).intent.Some?
  {
    if !s.pc.Deciding? {
      OtherRowsStay(c, s, e);
    }
  }

  // ---------------------------------------------------------------- every run

  predicate PassedAll(events: seq<Event>, trace: seq<State>, n: nat, index: nat, cash: bool, risk: bool)
    requires n <= |events| < |trace|
  {
    Passed(events, trace, n, index, Gates(cash, risk))
  }

  /** What the first `n` events have shown of an attempt: if it was sent, all its gates were passed before. */
  predicate SentBehindGates(c: Call, events: seq<Event>, trace: seq<State>, n: nat, index: nat)
    requires n <= |events| < |trace|
  {
    var s := trace[n];
    RowOf(s.world, c.firstId + index).sent != [] ==>
      if index == s.index then PassedAll(events, trace, n, index, s.attempt.cashGranted, s.attempt.riskGranted)
      else exists cash, risk :: PassedAll(events, trace, n, index, cash, risk)
  }

  predicate GatesBehindPassed(events: seq<Event>, trace: seq<State>, n: nat)
    requires n <= |events| < |trace|
  {
    Passed(events, trace, n, trace[n].index, GatesOf(trace[n].attempt)[..GatesBehind(trace[n].pc)])
  }

  ghost predicate BehindItsGates(c: Call, events: seq<Event>, trace: seq<State>, n: nat)
    requires n <= |events| < |trace|
  {
    && GatesBehindPassed(events, trace, n)
    && forall index: nat :: SentBehindGates(c, events, trace, n, index)
  }

  lemma MoveStaysBehind(events: seq<Event>, trace: seq<State>, n: nat)
    requires n < |events| < |trace| && GatesBehindPassed(events, trace, n)
    requires trace[n + 1].index == trace[n].index && MovesThrough(trace[n], events[n], trace[n + 1])
    ensures GatesBehindPassed(events, trace, n + 1)
  {
    var s, t := trace[n], trace[n + 1];
    var behind := GatesOf(s.attempt)[..GatesBehind(s.pc)];
    PassedLater(events, trace, n, s.index, behind);
    if GatesBehind(t.pc) == GatesBehind(s.pc) + 1 {
      PassedOneMore(events, trace, n, s.index, behind);
      assert GatesOf(t.attempt)[..GatesBehind(t.pc)] == behind + [events[n]];
    }
  }

  lemma SentStaysBehind(c: Call, events: seq<Event>, trace: seq<State>, n: nat)
    requires n < |events| < |trace| && GatesBehindPassed(events, trace, n)
    requires SentBehindGates(c, events, trace, n, trace[n].index)
    requires trace[n + 1].index == trace[n].index && SendsBehind(c, trace[n], trace[n + 1])
    ensures SentBehindGates(c, events, trace, n + 1, trace[n].index)
  {
    var s := trace[n];
    if CurrentRow(c, trace[n + 1]).sent != [] {
      assert GatesOf(s.attempt)[..4] == GatesOf(s.attempt);
      PassedLater(events, trace, n, s.index, GatesOf(s.attempt));
    }
  }

  /** The rows of other trades do not change, and what was shown of them stays. */
  lemma OtherStaysBehind(c: Call, events: seq<Event>, trace: seq<State>, n: nat, index: nat)
    requires n < |events| < |trace| && SentBehindGates(c, events, trace, n, index)
    requires index != trace[n + 1].index
    requires RowOf(trace[n + 1].world, c.firstId + index) == RowOf(trace[n].world, c.firstId + index)
    ensures SentBehindGates(c, events, trace, n + 1, index)
  {
    var s := trace[n];
    if RowOf(s.world, c.firstId + index).sent != [] {
      var cash, risk := s.attempt.cashGranted, s.attempt.riskGranted;
      if index != s.index {
        cash, risk :| PassedAll(events, trace, n, index, cash, risk);
      }
      PassedLater(events, trace, n, index, Gates(cash, risk));
      assert PassedAll(events, trace, n + 1, index, cash, risk);
    }
  }

  lemma StepStaysBehind(c: Call, events: seq<Event>, trace: seq<State>, n: nat)
    requires n < |events| < |trace| && BehindItsGates(c, events, trace, n)
    requires var s, t := trace[n], trace[n + 1];
             t.index == s.index && MovesThrough(s, events[n], t) && SendsBehind(c, s, t) && OthersAlike(c, s, t)
    ensures BehindItsGates(c, events, trace, n + 1)
  {
    MoveStaysBehind(events, trace, n);
    SentStaysBehind(c, events, trace, n);
    var next := n + 1;
    forall index: nat | index != trace[n].index ensures SentBehindGates(c, events, trace, next, index) {
      OtherStaysBehind(c, events, trace, n, index);
    }
  }

  /** The next attempt has passed nothing and sent nothing. */
  lemma NextStaysBehind(c: Call, events: seq<Event>, trace: seq<State>, n: nat)
    requires n < |events| < |trace| && BehindItsGates(c, events, trace, n)
    requires var s, t := trace[n], trace[n + 1];
             t.world == s.world && GatesBehind(t.pc) == 0 && CurrentRow(c, t).sent == []
    ensures BehindItsGates(c, events, trace, n + 1)
  {
    var next := n + 1;
    forall index: nat | index != trace[next].index ensures SentBehindGates(c, events, trace, next, index) {
      OtherStaysBehind(c, events, trace, n, index);
    }
  }

  lemma DecidingStep(c: Call, s: State, e: Event)
    requires Invariant(c, s) && s.pc.Deciding?
    ensures var t := Step(c, s, e);
            && t.world == s.world && GatesBehind(t.pc) == 0
            && (t.index == s.index ==> t.attempt == s.attempt)
            && (t.index != s.index ==> CurrentRow(c, t).sent == [])
  {
    assert Elsewhere(c, s, CurrentId(c, s) + 1);
  }

  lemma NextIsBehind(c: Call, events: seq<Event>, trace: seq<State>, n: nat)
    requires n < |events| < |trace| && BehindItsGates(c, events, trace, n) && Invariant(c, trace[n])
    requires trace[n + 1] == Step(c, trace[n], events[n])
    ensures BehindItsGates(c, events, trace, n + 1)
  {
    var s, t := trace[n], trace[n + 1];
    if s.pc.Deciding? {
      DecidingStep(c, s, events[n]);
      if t.index == s.index {
        StepStaysBehind(c, events, trace, n);
      } else {
        NextStaysBehind(c, events, trace, n);
      }
    } else {
      OtherRowsStay(c, s, events[n]);
      GateStep(c, s, events[n]);
      StepStaysBehind(c, events, trace, n);
    }
  }

  lemma {:induction false} TraceStaysBehind(c: Call, w: World, events: seq<Event>, trace: seq<State>, n: nat)
    requires SafeStart(c, w) && IsTrace(c, w, events, trace) && n <= |events|
    ensures BehindItsGates(c, events, trace, n) && Invariant(c, trace[n])
  {
    TraceIsRun(c, w, events[..n], trace[..n + 1]);
    RunKeeps(c, w, events[..n]);
    if n > 0 {
      TraceStaysBehind(c, w, events, trace, n - 1);
      NextIsBehind(c, events, trace, n - 1);
    }
  }

  /** What the guards granted in earnest is held while the broker may hold the order. */
  lemma GrantedIsHeld(c: Call, s: State, index: nat)
    requires Invariant(c, s)
    ensures var row := RowOf(s.world, c.firstId + index);
            MayHold(row) ==> index == s.index && (s.attempt.cashGranted ==> row.cash.Some?)
                             && (s.attempt.riskGranted ==> row.risk)
  {
    assert Always(c, s, CurrentId(c, s), CurrentRow(c, s));
    assert index != s.index ==> Elsewhere(c, s, c.firstId + index);
  }

  /**
   Over every run: an attempt whose trade was ever submitted had its cash granted, then its intent
   written, then its risk granted, then its guard passed. While the broker may hold the order, what the
   guards granted in earnest is held.
   */
  lemma EveryBuyPassedItsGates(c: Call, w: World, events: seq<Event>, trace: seq<State>, index: nat)
    returns (cash: bool, risk: bool)
    requires SafeStart(c, w) && IsTrace(c, w, events, trace)
    requires RowOf(trace[|events|].world, c.firstId + index).sent != []
    ensures Passed(events, trace, |events|, index, [CashGranted(cash), IntentWritten, RiskGranted(risk), GuardPassed])
    ensures var row := RowOf(trace[|events|].world, c.firstId + index);
            MayHold(row) ==> (cash ==> row.cash.Some?) && (risk ==> row.risk)
  {
    var s := trace[|events|];
    TraceStaysBehind(c, w, events, trace, |events|);
    GrantedIsHeld(c, s, index);
    assert SentBehindGates(c, events, trace, |events|, index);
    cash, risk := s.attempt.cashGranted, s.attempt.riskGranted;
    if index != s.index {
      cash, risk :| PassedAll(events, trace, |events|, index, cash, risk);
    }
  }
}
