/**
 The replay of a deployment over a history of bars: one pass that carries at most one open trade,
 against the history read off as first signal, first qualifying exit, and so on.
 */
module ReplayScan {
  import opened Wrappers

  datatype Category = Open | TimeExit | ThesisExit | StrategyExit

  datatype Trade = Trade(entry: nat, exit: Option<nat>, category: Category)

  /**
   What the strategy sees at each bar. An exit rule may look at the trade, which is given by the bar
   of its entry.
   */
  datatype Tape = Tape(
    height: nat,
    entrySignal: nat -> bool,
    hardFlat: nat -> bool,
    thesisExit: (nat, nat) -> bool,
    algorithmic: bool,
    strategyExit: (nat, nat) -> bool)
  {
    /** Hard flat comes before the thesis, the thesis before the strategy. */
    function ExitAt(entry: nat, bar: nat): Category {
      if hardFlat(bar) then TimeExit
      else if thesisExit(entry, bar) then ThesisExit
      else if algorithmic && strategyExit(entry, bar) then StrategyExit
      else Open
    }

    function FirstEntry(from: nat): (first: Option<nat>)
      ensures first.Some? ==> from <= first.value < height && entrySignal(first.value)
      ensures forall i :: from <= i < (if first.Some? then first.value else height) ==> !entrySignal(i)
      decreases height - from
    {
      if from >= height then None
      else if entrySignal(from) then Some(from)
      else FirstEntry(from + 1)
    }

    function FirstExit(entry: nat, from: nat): (first: Option<nat>)
      ensures first.Some? ==> from <= first.value < height && ExitAt(entry, first.value) != Open
      ensures forall i :: from <= i < (if first.Some? then first.value else height) ==> ExitAt(entry, i) == Open
      decreases height - from
    {
      if from >= height then None
      else if ExitAt(entry, from) != Open then Some(from)
      else FirstExit(entry, from + 1)
    }

    /** The history from a bar on with no trade open. */
    function History(from: nat): seq<Trade>
      decreases height - from, 1
    {
      match FirstEntry(from)
      case None => []
      case Some(entry) => HistoryOpen(entry, entry + 1)
    }

    /** The history from a bar on with a trade open. */
    function HistoryOpen(entry: nat, from: nat): seq<Trade>
      decreases height - from, 0
    {
      match FirstExit(entry, from)
      case None => [Trade(entry, None, Open)]
      case Some(bar) => [Trade(entry, Some(bar), ExitAt(entry, bar))] + History(bar + 1)
    }
  }

  // ---------------------------------------------------------------- the scan

  /** The trades still to come from a bar on, with or without a trade open. */
  function Ahead(t: Tape, active: Option<nat>, bar: nat): seq<Trade> {
    if active.Some? then t.HistoryOpen(active.value, bar) else t.History(bar)
  }

  lemma AheadIdle(t: Tape, bar: nat)
    requires bar < t.height
    ensures Ahead(t, None, bar) == Ahead(t, if t.entrySignal(bar) then Some(bar) else None, bar + 1)
  {
  }

  lemma AheadOpen(t: Tape, entry: nat, bar: nat)
    requires bar < t.height
    ensures t.ExitAt(entry, bar) == Open ==> Ahead(t, Some(entry), bar) == Ahead(t, Some(entry), bar + 1)
    ensures t.ExitAt(entry, bar) != Open ==>
              Ahead(t, Some(entry), bar) == [Trade(entry, Some(bar), t.ExitAt(entry, bar))] + Ahead(t, None, bar + 1)
  {
  }

  /** One bar of the scan: the trade open after it, and the trade closed by it. */
  method ScanBar(t: Tape, active: Option<nat>, bar: nat) returns (next: Option<nat>, closed: seq<Trade>)
    requires bar < t.height
    ensures Ahead(t, active, bar) == closed + Ahead(t, next, bar + 1)
  {
    closed := [];
    next := active;
    if active.None? {
      AheadIdle(t, bar);
      if t.entrySignal(bar) {
        next := Some(bar);
      }
      return;
    }
    AheadOpen(t, active.value, bar);
    if t.hardFlat(bar) {
      next, closed := None, [Trade(active.value, Some(bar), TimeExit)];
    } else if t.thesisExit(active.value, bar) {
      next, closed := None, [Trade(active.value, Some(bar), ThesisExit)];
    } else if t.algorithmic && t.strategyExit(active.value, bar) {
      next, closed := None, [Trade(active.value, Some(bar), StrategyExit)];
    }
  }

  lemma AheadAtEnd(t: Tape, active: Option<nat>, bar: nat)
    requires bar >= t.height
    ensures Ahead(t, active, bar) == if active.Some? then [Trade(active.value, None, Open)] else []
  {
  }

  /** `scan_trade_history_on_enriched`: the whole history from the first bar asked for. */
  method ScanTradeHistory(t: Tape, startAt: int) returns (trades: seq<Trade>)
    ensures trades == t.History(if startAt < 0 then 0 else startAt)
  {
    var start: nat := if startAt < 0 then 0 else startAt;
    var active: Option<nat> := None;
    trades := [];
    ghost var whole := t.History(start);
    assert whole == Ahead(t, active, start);
    var bar := start;
    while bar < t.height
      invariant whole == trades + Ahead(t, active, bar)
    {
      var closed;
      active, closed := ScanBar(t, active, bar);
      trades := trades + closed;
      bar := bar + 1;
    }
    AheadAtEnd(t, active, bar);
    if active.Some? {
      trades := trades + [Trade(active.value, None, Open)];
    }
  }

  // ---------------------------------------------------------------- the history, stated bar by bar

  /** The first bar at which the k-th trade may begin; after an open trade there is none. */
  function Boundary(t: Tape, trades: seq<Trade>, start: nat, k: nat): nat
    requires k <= |trades|
  {
    if k == 0 then start
    else match trades[k - 1].exit case None => t.height case Some(bar) => bar + 1
  }

  /** The first signal after the previous exit. */
  predicate EntersFirst(t: Tape, trade: Trade, boundary: nat) {
    && boundary <= trade.entry < t.height && t.entrySignal(trade.entry)
    && forall i :: boundary <= i < trade.entry ==> !t.entrySignal(i)
  }

  /** What a category says of the bar: the strategy is asked only for algorithmic exits, and after the other rules. */
  predicate ClosesAs(t: Tape, entry: nat, bar: nat, category: Category) {
    var strategy := t.algorithmic && t.strategyExit(entry, bar);
    match category
    case TimeExit => t.hardFlat(bar)
    case ThesisExit => !t.hardFlat(bar) && t.thesisExit(entry, bar)
    case StrategyExit => !t.hardFlat(bar) && !t.thesisExit(entry, bar) && strategy
    case Open => !t.hardFlat(bar) && !t.thesisExit(entry, bar) && !strategy
  }

  lemma ExitIsByPriority(t: Tape, entry: nat, bar: nat, category: Category)
    ensures ClosesAs(t, entry, bar, category) <==> t.ExitAt(entry, bar) == category
  {
  }

  /** The first later bar at which any exit holds, and the exit of highest priority there. */
  predicate ExitsFirst(t: Tape, trade: Trade) {
    match trade.exit
    case None => trade.category == Open && forall i :: trade.entry < i < t.height ==> ClosesAs(t, trade.entry, i, Open)
    case Some(bar) =>
      && trade.entry < bar < t.height && trade.category != Open && ClosesAs(t, trade.entry, bar, trade.category)
      && forall i :: trade.entry < i < bar ==> ClosesAs(t, trade.entry, i, Open)
  }

  predicate FitsAt(t: Tape, start: nat, trades: seq<Trade>, k: nat)
    requires k < |trades|
  {
    EntersFirst(t, trades[k], Boundary(t, trades, start, k)) && ExitsFirst(t, trades[k])
  }

  predicate TradesFit(t: Tape, start: nat, trades: seq<Trade>) {
    forall k :: 0 <= k < |trades| ==> FitsAt(t, start, trades, k)
  }

  predicate NoSignalFrom(t: Tape, bar: nat) {
    forall i :: bar <= i < t.height ==> !t.entrySignal(i)
  }

  /** A chain of first entries and first exits that leaves no signal over. */
  predicate IsHistory(t: Tape, start: nat, trades: seq<Trade>) {
    TradesFit(t, start, trades) && NoSignalFrom(t, Boundary(t, trades, start, |trades|))
  }

  /** Trades are ordered and disjoint, and only the last of them may be open. */
  lemma HistoryIsOrdered(t: Tape, start: nat, trades: seq<Trade>, k: nat)
    requires IsHistory(t, start, trades) && k + 1 < |trades|
    ensures trades[k].exit.Some? && trades[k].entry < trades[k].exit.value < trades[k + 1].entry
  {
    assert FitsAt(t, start, trades, k) && FitsAt(t, start, trades, k + 1);
  }

  lemma ShiftedBoundary(t: Tape, start: nat, first: Trade, rest: seq<Trade>, k: nat)
    requires k <= |rest|
    ensures Boundary(t, rest, After(t, first), k) == Boundary(t, [first] + rest, start, k + 1)
  {
    assert ([first] + rest)[k] == if k == 0 then first else rest[k - 1];
  }

  lemma ShiftedFit(t: Tape, start: nat, first: Trade, rest: seq<Trade>, k: nat)
    requires k < |rest|
    ensures FitsAt(t, After(t, first), rest, k) <==> FitsAt(t, start, [first] + rest, k + 1)
  {
    ShiftedBoundary(t, start, first, rest, k);
    assert ([first] + rest)[k + 1] == rest[k];
  }

  lemma OneMoreTrade(t: Tape, start: nat, first: Trade, rest: seq<Trade>)
    ensures var next := After(t, first);
            IsHistory(t, start, [first] + rest) <==>
            EntersFirst(t, first, start) && ExitsFirst(t, first) && IsHistory(t, next, rest)
  {
    ShiftedBoundary(t, start, first, rest, |rest|);
    if TradesFit(t, start, [first] + rest) {
      FitTail(t, start, first, rest);
    }
    if EntersFirst(t, first, start) && ExitsFirst(t, first) && TradesFit(t, After(t, first), rest) {
      FitOneMore(t, start, first, rest);
    }
  }

  lemma FitTail(t: Tape, start: nat, first: Trade, rest: seq<Trade>)
    requires TradesFit(t, start, [first] + rest)
    ensures EntersFirst(t, first, start) && ExitsFirst(t, first) && TradesFit(t, After(t, first), rest)
  {
    assert FitsAt(t, start, [first] + rest, 0);
    forall k | 0 <= k < |rest| ensures FitsAt(t, After(t, first), rest, k) {
      ShiftedFit(t, start, first, rest, k);
    }
  }

  lemma FitOneMore(t: Tape, start: nat, first: Trade, rest: seq<Trade>)
    requires EntersFirst(t, first, start) && ExitsFirst(t, first) && TradesFit(t, After(t, first), rest)
    ensures TradesFit(t, start, [first] + rest)
  {
    forall k | 0 <= k < 1 + |rest| ensures FitsAt(t, start, [first] + rest, k) {
      if k > 0 {
        ShiftedFit(t, start, first, rest, k - 1);
      }
    }
  }

  /** The first trade from a bar on. */
  function FirstTrade(t: Tape, start: nat): Option<Trade> {
    match t.FirstEntry(start)
    case None => None
    case Some(entry) =>
      match t.FirstExit(entry, entry + 1)
      case None => Some(Trade(entry, None, Open))
      case Some(bar) => Some(Trade(entry, Some(bar), t.ExitAt(entry, bar)))
  }

  lemma FirstTradeExactly(t: Tape, trade: Trade, start: nat)
    ensures EntersFirst(t, trade, start) && ExitsFirst(t, trade) <==> FirstTrade(t, start) == Some(trade)
    ensures NoSignalFrom(t, start) <==> FirstTrade(t, start).None?
  {
    var entry := t.FirstEntry(start);
    forall bar ensures ClosesAs(t, trade.entry, bar, Open) <==> t.ExitAt(trade.entry, bar) == Open {
      ExitIsByPriority(t, trade.entry, bar, Open);
    }
    if trade.exit.Some? {
      ExitIsByPriority(t, trade.entry, trade.exit.value, trade.category);
    }
    if EntersFirst(t, trade, start) {
      assert entry == Some(trade.entry);
      var exit := t.FirstExit(trade.entry, trade.entry + 1);
    }
  }

  lemma HistoryStarts(t: Tape, start: nat)
    ensures t.History(start) ==
            match FirstTrade(t, start)
            case None => []
            case Some(trade) => [trade] + (if trade.exit.Some? then t.History(trade.exit.value + 1) else [])
  {
  }

  function After(t: Tape, trade: Trade): nat {
    match trade.exit case None => t.height case Some(bar) => bar + 1
  }

  /** Both descriptions split alike into the first trade and the history after it. */
  lemma BothSplit(t: Tape, start: nat, first: Trade, rest: seq<Trade>)
    ensures IsHistory(t, start, [first] + rest) <==>
              FirstTrade(t, start) == Some(first) && IsHistory(t, After(t, first), rest)
    ensures [first] + rest == t.History(start) <==>
              FirstTrade(t, start) == Some(first) && rest == t.History(After(t, first))
  {
    OneMoreTrade(t, start, first, rest);
    FirstTradeExactly(t, first, start);
    HeadAndTail(t, start, first, rest);
  }

  /** The scan's history is the one and only sequence of trades that fits the description. */
  lemma {:induction false} HistoryExactly(t: Tape, start: nat, trades: seq<Trade>)
    ensures IsHistory(t, start, trades) <==> trades == t.History(start)
    decreases |trades|
  {
    if trades == [] {
      FirstTradeExactly(t, Trade(0, None, Open), start);
      HistoryStarts(t, start);
    } else {
      var first, rest := trades[0], trades[1..];
      assert trades == [first] + rest;
      BothSplit(t, start, first, rest);
      HistoryExactly(t, After(t, first), rest);
    }
  }

  lemma HeadAndTail(t: Tape, start: nat, first: Trade, rest: seq<Trade>)
    ensures [first] + rest == t.History(start) <==>
            FirstTrade(t, start) == Some(first)
            && rest == if first.exit.Some? then t.History(first.exit.value + 1) else []
  {
    HistoryStarts(t, start);
    var all := [first] + rest;
    assert all[0] == first && all[1..] == rest;
    match FirstTrade(t, start) {
      case None =>
      case Some(trade) =>
        var after := if trade.exit.Some? then t.History(trade.exit.value + 1) else [];
        assert ([trade] + after)[0] == trade && ([trade] + after)[1..] == after;
    }
  }
}
