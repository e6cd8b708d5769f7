/**
 Merging a broker snapshot into a tracker that moved while the snapshot was in flight.
 */
module Reconciliation {
  import opened Wrappers

  datatype ExitMode = Emergency | HardFlatExit | Thesis | Profile

  /** The order state that a reconciliation may take over from the tracker. Instants are integers. */
  datatype WorkingOrders = WorkingOrders(
    stopOrderId: Option<string>,
    stopPrice: Option<real>,
    targetOrderId: Option<string>,
    targetPrice: Option<real>,
    targetActivationPrice: Option<real>,
    targetActivationHighPrice: Option<real>,
    targetActivatedAt: Option<int>,
    exitOrderId: Option<string>,
    exitLimitPrice: Option<real>,
    exitSubmittedAt: Option<int>,
    exitMode: Option<ExitMode>,
    exitRepriceCount: int)

  datatype Source = Shadow | DryRun | LiveSource(name: string)

  datatype Identity = Identity(tradeId: Option<string>, deploymentId: string, optionSymbol: Option<string>)

  /** A tracked position; `holding` stands for quantity, prices and the other fields the merge never mixes. */
  datatype Position = Position(identity: Identity, source: Source, holding: int, orders: WorkingOrders)

  predicate IsPaper(p: Position) { !p.source.LiveSource? }

  predicate Complete(id: Identity) { id.tradeId.Some? && id.optionSymbol.Some? }

  predicate HasPendingExit(p: Position) {
    || (p.orders.exitOrderId.Some? && p.orders.exitOrderId.value != "")
    || p.orders.exitSubmittedAt.Some?
    || p.orders.exitMode.Some?
  }

  predicate AtLeastAsNew(snapshot: Position, current: Position) {
    && HasPendingExit(snapshot)
    && (current.orders.exitSubmittedAt.Some? ==>
          && snapshot.orders.exitSubmittedAt.Some?
          && snapshot.orders.exitSubmittedAt.value >= current.orders.exitSubmittedAt.value)
  }

  // ---------------------------------------------------------------- the merge

  /** The tracker's positions by complete identity, the last one winning. */
  function ByIdentity(positions: seq<Position>): map<Identity, Position> {
    if positions == [] then map[]
    else
      var last := positions[|positions| - 1];
      var before := ByIdentity(positions[..|positions| - 1]);
      if Complete(last.identity) then before[last.identity := last] else before
  }

  function Lookup(byId: map<Identity, Position>, id: Identity): Option<Position> {
    if id in byId then Some(byId[id]) else None
  }

  /** What one snapshot position becomes. */
  function MergeOne(p: Position, current: Option<Position>): seq<Position> {
    if IsPaper(p) then (if current.Some? then [current.value] else [])
    else if current.None? || !HasPendingExit(current.value) then [p]
    else if AtLeastAsNew(p, current.value) then [p]
    else [p.(orders := current.value.orders)]
  }

  function MergeEach(snapshot: seq<Position>, byId: map<Identity, Position>): seq<Position> {
    if snapshot == [] then []
    else
      var last := snapshot[|snapshot| - 1];
      MergeEach(snapshot[..|snapshot| - 1], byId) + MergeOne(last, Lookup(byId, last.identity))
  }

  function Identities(positions: seq<Position>): set<Identity> {
    set p | p in positions :: p.identity
  }

  /** The tracker's paper positions that the snapshot does not mention. */
  function PaperOutside(current: seq<Position>, known: set<Identity>): seq<Position> {
    if current == [] then []
    else
      var last := current[|current| - 1];
      PaperOutside(current[..|current| - 1], known)
      + (if IsPaper(last) && last.identity !in known then [last] else [])
  }

  function Merge(snapshot: seq<Position>, current: seq<Position>): seq<Position> {
    MergeEach(snapshot, ByIdentity(current)) + PaperOutside(current, Identities(snapshot))
  }

  method IndexByIdentity(current: seq<Position>) returns (byId: map<Identity, Position>)
    ensures byId == ByIdentity(current)
  {
    byId := map[];
    for i := 0 to |current|
      invariant byId == ByIdentity(current[..i])
    {
      assert current[..i + 1][..i] == current[..i];
      if Complete(current[i].identity) {
        byId := byId[current[i].identity := current[i]];
      }
    }
    assert current[..|current|] == current;
  }

  method MergeSnapshot(snapshot: seq<Position>, byId: map<Identity, Position>) returns (merged: seq<Position>)
    ensures merged == MergeEach(snapshot, byId)
  {
    merged := [];
    for i := 0 to |snapshot|
      invariant merged == MergeEach(snapshot[..i], byId)
    {
      assert snapshot[..i + 1][..i] == snapshot[..i];
      var p := snapshot[i];
      var current := Lookup(byId, p.identity);
      assert MergeEach(snapshot[..i + 1], byId) == merged + MergeOne(p, current);
      if IsPaper(p) {
        if current.Some? {
          merged := merged + [current.value];
        }
      } else if current.None? || !HasPendingExit(current.value) {
        merged := merged + [p];
      } else if AtLeastAsNew(p, current.value) {
        merged := merged + [p];
      } else {
        merged := merged + [p.(orders := current.value.orders)];
      }
    }
    assert snapshot[..|snapshot|] == snapshot;
  }

  method PreserveNewerPendingExitState(snapshot: seq<Position>, current: seq<Position>) returns (merged: seq<Position>)
    ensures merged == Merge(snapshot, current)
  {
    var byId := IndexByIdentity(current);
    merged := MergeSnapshot(snapshot, byId);
    ghost var each := merged;
    var known := Identities(snapshot);
    for i := 0 to |current|
      invariant merged == each + PaperOutside(current[..i], known)
    {
      assert current[..i + 1][..i] == current[..i];
      if IsPaper(current[i]) && current[i].identity !in known {
        merged := merged + [current[i]];
      }
    }
    assert current[..|current|] == current;
  }

  // ---------------------------------------------------------------- supporting facts

  /** No two tracker positions share a complete identity. */
  predicate DistinctIdentities(positions: seq<Position>) {
    forall i, j :: 0 <= i < j < |positions| && Complete(positions[i].identity) ==>
      positions[i].identity != positions[j].identity
  }

  lemma {:induction false} ByIdentityFinds(current: seq<Position>)
    ensures forall id :: id in ByIdentity(current) ==>
              Complete(id) && ByIdentity(current)[id] in current && ByIdentity(current)[id].identity == id
    ensures forall p :: p in current && Complete(p.identity) ==> p.identity in ByIdentity(current)
    ensures DistinctIdentities(current) ==>
              forall p :: p in current && Complete(p.identity) ==> ByIdentity(current)[p.identity] == p
  {
    if current != [] {
      var n := |current| - 1;
      ByIdentityFinds(current[..n]);
      assert current == current[..n] + [current[n]];
      if DistinctIdentities(current) {
        forall p | p in current && Complete(p.identity) ensures ByIdentity(current)[p.identity] == p {
          if p in current[..n] {
            var i :| 0 <= i < n && current[i] == p;
            assert p.identity != current[n].identity;
          }
        }
      }
    }
  }

  lemma {:induction false} MergeEachMembers(snapshot: seq<Position>, byId: map<Identity, Position>, r: Position)
    ensures r in MergeEach(snapshot, byId) <==>
            exists p :: p in snapshot && r in MergeOne(p, Lookup(byId, p.identity))
  {
    if snapshot != [] {
      var n := |snapshot| - 1;
      MergeEachMembers(snapshot[..n], byId, r);
      assert snapshot == snapshot[..n] + [snapshot[n]];
    }
  }

  lemma {:induction false} PaperOutsideMembers(current: seq<Position>, known: set<Identity>, r: Position)
    ensures r in PaperOutside(current, known) <==> r in current && IsPaper(r) && r.identity !in known
  {
    if current != [] {
      var n := |current| - 1;
      PaperOutsideMembers(current[..n], known, r);
      assert current == current[..n] + [current[n]];
    }
  }

  // ---------------------------------------------------------------- no exit is lost

  /**
   A live snapshot position whose tracker twin has a pending exit keeps a pending exit no older than
   the tracker's, in its own slot and with its own holding: the twin's orders or its own newer ones.
   */
  lemma NoExitIsLost(snapshot: seq<Position>, current: seq<Position>, p: Position, twin: Position)
    requires DistinctIdentities(current)
    requires p in snapshot && !IsPaper(p)
    requires twin in current && twin.identity == p.identity && Complete(p.identity) && HasPendingExit(twin)
    ensures exists r :: r in Merge(snapshot, current) && AtLeastAsNew(r, twin)
              && r in {p, p.(orders := twin.orders)}
              && (r == p || !AtLeastAsNew(p, twin))
  {
    ByIdentityFinds(current);
    var byId := ByIdentity(current);
    assert Lookup(byId, p.identity) == Some(twin);
    var r := MergeOne(p, Some(twin))[0];
    assert r in MergeOne(p, Some(twin));
    MergeEachMembers(snapshot, byId, r);
    assert r in Merge(snapshot, current);
  }

  /**
   The same in times. A tracker exit with a time never gives way to an older one or to one without a
   time: the snapshot's own exit stays exactly when it was submitted no earlier, and otherwise the exit's
   order id, time and mode are the tracker's. Against a tracker exit without a time, the snapshot's own
   exit stays exactly when it has one: an order id, a time or a mode.
   */
  lemma NewerExitWins(snapshot: seq<Position>, current: seq<Position>, p: Position, twin: Position)
    requires DistinctIdentities(current)
    requires p in snapshot && !IsPaper(p)
    requires twin in current && twin.identity == p.identity
    requires p.identity.tradeId.Some? && p.identity.optionSymbol.Some?
    requires (twin.orders.exitOrderId.Some? && twin.orders.exitOrderId.value != "")
             || twin.orders.exitSubmittedAt.Some? || twin.orders.exitMode.Some?
    ensures var own, theirs := p.orders, twin.orders;
            exists r ::
              && r in Merge(snapshot, current)
              && r.identity == p.identity && r.source == p.source && r.holding == p.holding
              && (theirs.exitSubmittedAt.Some? ==>
                    && r.orders.exitSubmittedAt.Some?
                    && theirs.exitSubmittedAt.value <= r.orders.exitSubmittedAt.value)
              && (if theirs.exitSubmittedAt.Some?
                  then
                    if own.exitSubmittedAt.Some? && theirs.exitSubmittedAt.value <= own.exitSubmittedAt.value
                    then r == p
                    else
                      && r.orders.exitOrderId == theirs.exitOrderId
                      && r.orders.exitSubmittedAt == theirs.exitSubmittedAt
                      && r.orders.exitMode == theirs.exitMode
                      && r.orders == theirs
                  else
                    if (own.exitOrderId.Some? && own.exitOrderId.value != "")
                       || own.exitSubmittedAt.Some? || own.exitMode.Some?
                    then r == p
                    else r.orders == theirs)
  {
    ByIdentityFinds(current);
    var byId := ByIdentity(current);
    assert Lookup(byId, p.identity) == Some(twin);
    var r := MergeOne(p, Some(twin))[0];
    assert r in MergeOne(p, Some(twin));
    MergeEachMembers(snapshot, byId, r);
    assert r in Merge(snapshot, current);
  }

  /**
   A live position stays as it is when its trade id or its option symbol is unknown, or when no tracker
   twin has an order id, a time or a mode of an exit.
   */
  lemma UnansweredStays(snapshot: seq<Position>, current: seq<Position>, p: Position)
    requires p in snapshot && !IsPaper(p)
    requires p.identity.tradeId.Some? && p.identity.optionSymbol.Some? ==>
               forall twin :: twin in current && twin.identity == p.identity ==>
               && (twin.orders.exitOrderId.None? || twin.orders.exitOrderId.value == "")
               && twin.orders.exitSubmittedAt.None? && twin.orders.exitMode.None?
    ensures p in Merge(snapshot, current)
  {
    LiveHoldingsStay(snapshot, current, p);
  }

  /** Every live snapshot position stays, with its own orders or those of a twin whose exit is newer. */
  lemma LiveHoldingsStay(snapshot: seq<Position>, current: seq<Position>, p: Position)
    requires p in snapshot && !IsPaper(p)
    ensures p in Merge(snapshot, current)
            || exists twin :: twin in current && twin.identity == p.identity && Complete(p.identity)
                 && HasPendingExit(twin) && !AtLeastAsNew(p, twin)
                 && p.(orders := twin.orders) in Merge(snapshot, current)
  {
    var byId := ByIdentity(current);
    ByIdentityFinds(current);
    var r := MergeOne(p, Lookup(byId, p.identity))[0];
    assert r in MergeOne(p, Lookup(byId, p.identity));
    MergeEachMembers(snapshot, byId, r);
    assert r in Merge(snapshot, current);
    if r != p {
      var twin := byId[p.identity];
      assert twin in current;
    }
  }

  /** A live result position holds what the snapshot says, or is the tracker's twin of a snapshot paper position. */
  lemma LiveHoldingsAreTheSnapshots(snapshot: seq<Position>, current: seq<Position>, r: Position)
    requires r in Merge(snapshot, current) && !IsPaper(r)
    ensures exists p :: p in snapshot && p.identity == r.identity
              && ((!IsPaper(p) && p.holding == r.holding && p.source == r.source) || (IsPaper(p) && r in current))
  {
    ByIdentityFinds(current);
    MergeEachMembers(snapshot, ByIdentity(current), r);
    PaperOutsideMembers(current, Identities(snapshot), r);
    var p :| p in snapshot && r in MergeOne(p, Lookup(ByIdentity(current), p.identity));
    assert p.identity == r.identity;
  }

  // ---------------------------------------------------------------- paper is the tracker's

  /** The snapshot mentions the identity without a paper entry that the tracker could answer. */
  predicate Masked(snapshot: seq<Position>, p: Position) {
    p.identity in Identities(snapshot) &&
    !(Complete(p.identity) && exists b :: b in snapshot && IsPaper(b) && b.identity == p.identity)
  }

  lemma PaperMember(snapshot: seq<Position>, current: seq<Position>, r: Position)
    requires DistinctIdentities(current) && IsPaper(r)
    ensures r in Merge(snapshot, current) <==> r in current && !Masked(snapshot, r)
  {
    var byId := ByIdentity(current);
    ByIdentityFinds(current);
    MergeEachMembers(snapshot, byId, r);
    PaperOutsideMembers(current, Identities(snapshot), r);
    if r in MergeEach(snapshot, byId) {
      var p :| p in snapshot && r in MergeOne(p, Lookup(byId, p.identity));
      assert IsPaper(p) && r == byId[p.identity];
    }
    if r in current && Complete(r.identity) && exists b :: b in snapshot && IsPaper(b) && b.identity == r.identity {
      var b :| b in snapshot && IsPaper(b) && b.identity == r.identity;
      assert r in MergeOne(b, Lookup(byId, b.identity));
    }
  }

  /** The snapshot's paper entries for the identity. */
  function PaperEntries(snapshot: seq<Position>, id: Identity): nat {
    if snapshot == [] then 0
    else
      var last := snapshot[|snapshot| - 1];
      PaperEntries(snapshot[..|snapshot| - 1], id) + (if IsPaper(last) && last.identity == id then 1 else 0)
  }

  lemma {:induction false} MergeEachCount(snapshot: seq<Position>, byId: map<Identity, Position>, r: Position)
    requires IsPaper(r) && forall id :: id in byId ==> byId[id].identity == id
    ensures multiset(MergeEach(snapshot, byId))[r] ==
            if Lookup(byId, r.identity) == Some(r) then PaperEntries(snapshot, r.identity) else 0
  {
    if snapshot != [] {
      var n := |snapshot| - 1;
      MergeEachCount(snapshot[..n], byId, r);
      var one := MergeOne(snapshot[n], Lookup(byId, snapshot[n].identity));
      assert multiset(one)[r] ==
             if IsPaper(snapshot[n]) && Lookup(byId, r.identity) == Some(r) && snapshot[n].identity == r.identity
             then 1 else 0;
    }
  }

  lemma {:induction false} PaperOutsideCount(current: seq<Position>, known: set<Identity>, r: Position)
    requires IsPaper(r)
    ensures multiset(PaperOutside(current, known))[r] == if r.identity in known then 0 else multiset(current)[r]
  {
    if current != [] {
      var n := |current| - 1;
      PaperOutsideCount(current[..n], known, r);
      assert current == current[..n] + [current[n]];
    }
  }

  /** How often a paper position appears in the result. */
  lemma PaperCount(snapshot: seq<Position>, current: seq<Position>, r: Position)
    requires DistinctIdentities(current) && IsPaper(r)
    ensures multiset(Merge(snapshot, current))[r] ==
            if r.identity !in Identities(snapshot) then multiset(current)[r]
            else if r in current && Complete(r.identity) then PaperEntries(snapshot, r.identity)
            else 0
  {
    var byId := ByIdentity(current);
    ByIdentityFinds(current);
    MergeEachCount(snapshot, byId, r);
    PaperOutsideCount(current, Identities(snapshot), r);
    if r.identity !in Identities(snapshot) {
      UnmentionedHasNoEntries(snapshot, r.identity);
    }
  }

  lemma {:induction false} UnmentionedHasNoEntries(snapshot: seq<Position>, id: Identity)
    requires id !in Identities(snapshot)
    ensures PaperEntries(snapshot, id) == 0
  {
    if snapshot != [] {
      var n := |snapshot| - 1;
      assert snapshot == snapshot[..n] + [snapshot[n]];
      assert snapshot[n] in snapshot;
      UnmentionedHasNoEntries(snapshot[..n], id);
    }
  }

  lemma {:induction false} CompleteOnce(current: seq<Position>, p: Position)
    requires DistinctIdentities(current) && p in current && Complete(p.identity)
    ensures multiset(current)[p] == 1
  {
    var n := |current| - 1;
    assert current == current[..n] + [current[n]];
    if p == current[n] {
      assert p !in current[..n];
    } else {
      CompleteOnce(current[..n], p);
    }
  }

  /** The result's paper positions are exactly the tracker's, each as often. */
  ghost predicate PaperIsTrackers(snapshot: seq<Position>, current: seq<Position>) {
    forall r :: IsPaper(r) ==> multiset(Merge(snapshot, current))[r] == multiset(current)[r]
  }

  /** The snapshot leaves the identity alone, or has exactly one paper entry that the tracker can answer. */
  predicate Answered(snapshot: seq<Position>, p: Position) {
    p.identity in Identities(snapshot) ==> Complete(p.identity) && PaperEntries(snapshot, p.identity) == 1
  }

  /** Paper is the tracker's exactly when each of the tracker's paper positions is left alone or answered once. */
  lemma PaperIsTrackersExactly(snapshot: seq<Position>, current: seq<Position>)
    requires DistinctIdentities(current)
    ensures PaperIsTrackers(snapshot, current)
       <==> forall p :: p in current && IsPaper(p) ==> Answered(snapshot, p)
  {
    forall r | IsPaper(r)
      ensures multiset(Merge(snapshot, current))[r] == multiset(current)[r] <==> r !in current || Answered(snapshot, r)
    {
      PaperCount(snapshot, current, r);
      if r in current && Complete(r.identity) {
        CompleteOnce(current, r);
      }
    }
  }

  lemma {:induction false} OneEntry(snapshot: seq<Position>, id: Identity)
    requires DistinctIdentities(snapshot) && Complete(id) && id in Identities(snapshot)
    requires forall b :: b in snapshot && b.identity == id ==> IsPaper(b)
    ensures PaperEntries(snapshot, id) == 1
  {
    var n := |snapshot| - 1;
    assert snapshot == snapshot[..n] + [snapshot[n]];
    if snapshot[n].identity == id {
      assert id !in Identities(snapshot[..n]);
      UnmentionedHasNoEntries(snapshot[..n], id);
      assert snapshot[n] in snapshot;
    } else {
      assert id in Identities(snapshot[..n]);
      OneEntry(snapshot[..n], id);
    }
  }

  /** Complete identities, no duplicates and no live snapshot twin of a paper position are enough. */
  lemma PaperIsTrackersWhenComplete(snapshot: seq<Position>, current: seq<Position>)
    requires DistinctIdentities(current) && DistinctIdentities(snapshot)
    requires forall p :: p in current && IsPaper(p) ==> Complete(p.identity)
    requires forall p, b :: p in current && IsPaper(p) && b in snapshot && b.identity == p.identity ==> IsPaper(b)
    ensures PaperIsTrackers(snapshot, current)
  {
    forall p | p in current && IsPaper(p) ensures Answered(snapshot, p) {
      if p.identity in Identities(snapshot) {
        OneEntry(snapshot, p.identity);
      }
    }
    PaperIsTrackersExactly(snapshot, current);
  }

  // ---------------------------------------------------------------- the snapshot as the runtime builds it

  /** No two positions share an identity, null parts or not. */
  predicate OnePerIdentity(positions: seq<Position>) {
    forall i, j :: 0 <= i < j < |positions| ==> positions[i].identity != positions[j].identity
  }

  /** A dictionary entry by identity: replaced where it stands, or added at the end. */
  function Put(merged: seq<Position>, p: Position): seq<Position> {
    if merged == [] then [p]
    else if merged[0].identity == p.identity then [p] + merged[1..]
    else [merged[0]] + Put(merged[1..], p)
  }

  /** The broker's positions and the paper positions in one snapshot, the last of an identity winning. */
  function MergeTracked(positions: seq<Position>): seq<Position> {
    if positions == [] then []
    else Put(MergeTracked(positions[..|positions| - 1]), positions[|positions| - 1])
  }

  method MergeTrackedPositions(broker: seq<Position>, paper: seq<Position>) returns (merged: seq<Position>)
    ensures merged == MergeTracked(broker + paper)
  {
    var positions := broker + paper;
    merged := [];
    for k := 0 to |positions|
      invariant merged == MergeTracked(positions[..k])
    {
      assert positions[..k + 1][..k] == positions[..k];
      merged := Put(merged, positions[k]);
    }
    assert positions[..|positions|] == positions;
  }

  lemma {:induction false} PutFacts(merged: seq<Position>, p: Position)
    requires OnePerIdentity(merged)
    ensures OnePerIdentity(Put(merged, p))
    ensures forall q :: q in Put(merged, p) <==> q == p || (q in merged && q.identity != p.identity)
  {
    if merged != [] {
      var rest := merged[1..];
      PutFacts(rest, p);
      assert merged == [merged[0]] + rest;
      assert forall k :: 0 <= k < |Put(rest, p)| ==> Put(rest, p)[k] in Put(rest, p);
    }
  }

  predicate LastAt(positions: seq<Position>, q: Position, i: nat) {
    i < |positions| && positions[i] == q && forall j :: i < j < |positions| ==> positions[j].identity != q.identity
  }

  /** The position is the last of its identity. */
  ghost predicate IsLast(positions: seq<Position>, q: Position) { exists i: nat :: LastAt(positions, q, i) }

  lemma LastOfMore(positions: seq<Position>, q: Position)
    requires positions != []
    ensures var n := |positions| - 1;
            IsLast(positions, q) <==>
            q == positions[n] || (q.identity != positions[n].identity && IsLast(positions[..n], q))
  {
    var n := |positions| - 1;
    if q == positions[n] {
      assert LastAt(positions, q, n);
    }
    if q.identity != positions[n].identity && IsLast(positions[..n], q) {
      var i: nat :| LastAt(positions[..n], q, i);
      assert LastAt(positions, q, i);
    }
    if q != positions[n] && IsLast(positions, q) {
      var i: nat :| LastAt(positions, q, i);
      assert LastAt(positions[..n], q, i);
    }
  }

  /** Each identity has one position in the snapshot, the last one given. */
  lemma {:induction false} MergeTrackedKeepsLast(positions: seq<Position>)
    ensures OnePerIdentity(MergeTracked(positions))
    ensures forall q :: q in MergeTracked(positions) <==> IsLast(positions, q)
  {
    if positions != [] {
      var n := |positions| - 1;
      MergeTrackedKeepsLast(positions[..n]);
      PutFacts(MergeTracked(positions[..n]), positions[n]);
      forall q ensures q in MergeTracked(positions) <==> IsLast(positions, q) {
        LastOfMore(positions, q);
      }
    }
  }

  /** In such a snapshot no paper entry is doubled, so being answered is not being masked. */
  lemma PaperFromRuntimeSnapshot(positions: seq<Position>, current: seq<Position>)
    requires DistinctIdentities(current)
    ensures var snapshot := MergeTracked(positions);
            PaperIsTrackers(snapshot, current) <==> forall p :: p in current && IsPaper(p) ==> !Masked(snapshot, p)
  {
    var snapshot := MergeTracked(positions);
    MergeTrackedKeepsLast(positions);
    PaperIsTrackersExactly(snapshot, current);
    forall p | p in current && IsPaper(p) ensures Answered(snapshot, p) <==> !Masked(snapshot, p) {
      if p.identity in Identities(snapshot) && Complete(p.identity) {
        EntriesOfOne(snapshot, p.identity);
      }
    }
  }

  lemma {:induction false} EntriesOfOne(snapshot: seq<Position>, id: Identity)
    requires OnePerIdentity(snapshot)
    ensures PaperEntries(snapshot, id) ==
            if exists b :: b in snapshot && IsPaper(b) && b.identity == id then 1 else 0
  {
    if snapshot != [] {
      var n := |snapshot| - 1;
      EntriesOfOne(snapshot[..n], id);
      assert snapshot == snapshot[..n] + [snapshot[n]];
      if snapshot[n].identity == id {
        assert forall b :: b in snapshot[..n] ==> b.identity != id;
      }
    }
  }

  /** A paper position without a trade id or an option symbol, in the snapshot as in the tracker, is lost. */
  lemma NullIdentityIsDropped(p: Position)
    requires IsPaper(p) && !Complete(p.identity)
    ensures MergeTracked([p]) == [p] && Merge([p], [p]) == [] && !PaperIsTrackers([p], [p])
  {
    assert [p][..0] == [];
    assert MergeTracked([p][..0]) == [] && ByIdentity([p][..0]) == map[];
    assert p in [p] && p.identity in Identities([p]);
    assert MergeEach([p][..0], map[]) == [] && PaperOutside([p][..0], Identities([p])) == [];
    assert multiset([p])[p] == 1;
  }

  // ---------------------------------------------------------------- merging again

  /** A second pass over one already merged position leaves it as it is. */
  predicate Settles(r: Position, byId: map<Identity, Position>) {
    MergeOne(r, Lookup(byId, r.identity)) == [r]
  }

  lemma {:induction false} MergeEachFixed(merged: seq<Position>, byId: map<Identity, Position>)
    requires forall r :: r in merged ==> Settles(r, byId)
    ensures MergeEach(merged, byId) == merged
  {
    if merged != [] {
      var n := |merged| - 1;
      assert merged == merged[..n] + [merged[n]];
      assert Settles(merged[n], byId);
      MergeEachFixed(merged[..n], byId);
    }
  }

  lemma {:induction false} PaperOutsideEmpty(current: seq<Position>, known: set<Identity>)
    requires forall p :: p in current && IsPaper(p) ==> p.identity in known
    ensures PaperOutside(current, known) == []
  {
    if current != [] {
      var n := |current| - 1;
      assert current == current[..n] + [current[n]];
      PaperOutsideEmpty(current[..n], known);
    }
  }

  /** A tracker paper position with an incomplete identity that no live snapshot position shares. */
  predicate Adrift(snapshot: seq<Position>, p: Position) {
    IsPaper(p) && !Complete(p.identity) && forall b :: b in snapshot && b.identity == p.identity ==> IsPaper(b)
  }

  lemma MergedSettles(snapshot: seq<Position>, current: seq<Position>, r: Position)
    requires r in Merge(snapshot, current) && (IsPaper(r) ==> Complete(r.identity)) && DistinctIdentities(current)
    ensures Settles(r, ByIdentity(current))
  {
    var byId := ByIdentity(current);
    ByIdentityFinds(current);
    MergeEachMembers(snapshot, byId, r);
    PaperOutsideMembers(current, Identities(snapshot), r);
    if r in MergeEach(snapshot, byId) {
      var p :| p in snapshot && r in MergeOne(p, Lookup(byId, p.identity));
      assert p.identity == r.identity;
    }
  }

  /** Every tracker paper position is mentioned by the result, unless it is adrift. */
  lemma PaperMentioned(snapshot: seq<Position>, current: seq<Position>, p: Position)
    requires DistinctIdentities(current) && p in current && IsPaper(p) && !Adrift(snapshot, p)
    ensures p.identity in Identities(Merge(snapshot, current))
  {
    PaperMember(snapshot, current, p);
    if Masked(snapshot, p) {
      var byId := ByIdentity(current);
      ByIdentityFinds(current);
      assert exists b :: b in snapshot && b.identity == p.identity && !IsPaper(b);
      var b :| b in snapshot && b.identity == p.identity && !IsPaper(b);
      var r := MergeOne(b, Lookup(byId, b.identity))[0];
      assert r in MergeOne(b, Lookup(byId, b.identity));
      MergeEachMembers(snapshot, byId, r);
      assert r in Merge(snapshot, current) && r.identity == p.identity;
    }
  }

  /** Merging the result with the same tracker again changes nothing. */
  lemma MergeIsIdempotent(snapshot: seq<Position>, current: seq<Position>)
    requires DistinctIdentities(current)
    requires forall p :: p in current ==> !Adrift(snapshot, p)
    ensures Merge(Merge(snapshot, current), current) == Merge(snapshot, current)
  {
    var merged := Merge(snapshot, current);
    forall r | r in merged ensures Settles(r, ByIdentity(current)) {
      if IsPaper(r) {
        PaperMember(snapshot, current, r);
        assert Complete(r.identity) by {
          assert !Adrift(snapshot, r);
        }
      }
      MergedSettles(snapshot, current, r);
    }
    MergeEachFixed(merged, ByIdentity(current));
    forall p | p in current && IsPaper(p) ensures p.identity in Identities(merged) {
      PaperMentioned(snapshot, current, p);
    }
    PaperOutsideEmpty(current, Identities(merged));
  }

  /** An adrift paper position flips between present and absent on every pass. */
  lemma AdriftFlips(snapshot: seq<Position>, current: seq<Position>, p: Position)
    requires DistinctIdentities(current) && p in current && Adrift(snapshot, p)
    ensures p in Merge(snapshot, current) <==> p !in Merge(Merge(snapshot, current), current)
  {
    var merged := Merge(snapshot, current);
    PaperMember(snapshot, current, p);
    PaperMember(merged, current, p);
    if p !in merged {
      var byId := ByIdentity(current);
      ByIdentityFinds(current);
      forall r | r in merged ensures r.identity != p.identity {
        MergeEachMembers(snapshot, byId, r);
        PaperOutsideMembers(current, Identities(snapshot), r);
        if r in MergeEach(snapshot, byId) {
          var b :| b in snapshot && r in MergeOne(b, Lookup(byId, b.identity));
          assert r.identity == b.identity;
        }
      }
    }
  }

  /** The merge is idempotent exactly when no tracker position is adrift. */
  lemma MergeIsIdempotentExactly(snapshot: seq<Position>, current: seq<Position>)
    requires DistinctIdentities(current)
    ensures Merge(Merge(snapshot, current), current) == Merge(snapshot, current)
       <==> forall p :: p in current ==> !Adrift(snapshot, p)
  {
    if forall p :: p in current ==> !Adrift(snapshot, p) {
      MergeIsIdempotent(snapshot, current);
    } else {
      var p :| p in current && Adrift(snapshot, p);
      AdriftFlips(snapshot, current, p);
    }
  }
}
