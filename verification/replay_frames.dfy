/**
 The enrichment of one frame for many deployments, grouped by what the deployments need, against the
 enrichment of the frame for each deployment by itself.
 */
module ReplayFrames {
  import opened Wrappers

  type Feature = string

  /** A frame of bars, with the value of its symbol column when it has one. */
  datatype Frame = Frame(symbol: Option<string>, bars: seq<int>)

  datatype Enriched = Enriched(symbol: string, rows: seq<int>)

  datatype Deployment = Deployment(id: string, symbol: string, strategyKey: string, required: set<Feature>)

  datatype Group = Group(strategyKey: string, required: set<Feature>)

  type Enrichment = (Frame, set<Feature>) -> Enriched

  /** A frame without a symbol column gets the deployment's. */
  function Normalize(frame: Frame, symbol: string): Frame {
    if frame.symbol.Some? then frame else frame.(symbol := Some(symbol))
  }

  function GroupOf(d: Deployment): Group { Group(d.strategyKey, d.required) }

  /** What the deployment gets when it is prepared alone. */
  function Direct(frame: Frame, d: Deployment, enrich: Enrichment): Enriched {
    enrich(Normalize(frame, d.symbol), d.required)
  }

  /** Features are added to the frame's own symbol. */
  ghost predicate KeepsSymbol(enrich: Enrichment) {
    forall frame: Frame, required: set<Feature> ::
      frame.symbol.Some? ==> enrich(frame, required).symbol == frame.symbol.value
  }

  /** Every deployment, and no other, has a frame, enriched for its needs under the first one's symbol. */
  predicate Prepares(prepared: map<string, Enriched>, frame: Frame, deployments: seq<Deployment>, enrich: Enrichment) {
    && prepared.Keys == (set d | d in deployments :: d.id)
    && forall id :: id in prepared ==>
         exists d :: d in deployments && d.id == id
                     && prepared[id] == enrich(Normalize(frame, deployments[0].symbol), d.required)
  }

  /** The groups, in the order of their first deployment, and the deployments of each. */
  ghost predicate GroupsUpTo(order: seq<Group>, members: map<Group, seq<Deployment>>, deployments: seq<Deployment>) {
    && (forall g :: g in order <==> g in members)
    && (forall g, d :: g in members && d in members[g] ==> d in deployments && GroupOf(d) == g)
    && (forall d :: d in deployments ==> GroupOf(d) in members && d in members[GroupOf(d)])
  }

  method GroupDeployments(deployments: seq<Deployment>)
    returns (order: seq<Group>, members: map<Group, seq<Deployment>>)
    ensures GroupsUpTo(order, members, deployments)
  {
    order, members := [], map[];
    for k := 0 to |deployments|
      invariant GroupsUpTo(order, members, deployments[..k])
    {
      var d := deployments[k];
      var g := GroupOf(d);
      assert deployments[..k + 1] == deployments[..k] + [d];
      if g !in members {
        order := order + [g];
        members := members[g := [d]];
      } else {
        members := members[g := members[g] + [d]];
      }
    }
    assert deployments[..|deployments|] == deployments;
  }

  /** The prepared frames so far all come from some deployment's own needs. */
  predicate Backed(prepared: map<string, Enriched>, normalized: Frame, deployments: seq<Deployment>,
                   enrich: Enrichment) {
    forall id :: id in prepared ==>
      exists d :: d in deployments && d.id == id && prepared[id] == enrich(normalized, d.required)
  }

  method PrepareGroup(prepared: map<string, Enriched>, normalized: Frame, group: Group, members: seq<Deployment>,
                      ghost deployments: seq<Deployment>, enrich: Enrichment) returns (more: map<string, Enriched>)
    requires Backed(prepared, normalized, deployments, enrich)
    requires forall d :: d in members ==> d in deployments && GroupOf(d) == group
    ensures Backed(more, normalized, deployments, enrich)
    ensures more.Keys == prepared.Keys + (set d | d in members :: d.id)
  {
    var enriched := enrich(normalized, group.required);
    more := prepared;
    for k := 0 to |members|
      invariant Backed(more, normalized, deployments, enrich)
      invariant more.Keys == prepared.Keys + (set d | d in members[..k] :: d.id)
    {
      var d := members[k];
      assert members[..k + 1] == members[..k] + [d];
      assert d in deployments && GroupOf(d).required == group.required;
      more := more[d.id := enriched];
    }
    assert members[..|members|] == members;
  }

  /** `prepare_enriched_frames`. */
  method PrepareEnrichedFrames(frame: Frame, deployments: seq<Deployment>, enrich: Enrichment)
    returns (prepared: map<string, Enriched>)
    ensures Prepares(prepared, frame, deployments, enrich)
  {
    prepared := map[];
    if deployments == [] {
      return;
    }
    var normalized := Normalize(frame, deployments[0].symbol);
    var order, members := GroupDeployments(deployments);
    for k := 0 to |order|
      invariant Backed(prepared, normalized, deployments, enrich)
      invariant forall d :: d in deployments && GroupOf(d) in order[..k] ==> d.id in prepared
    {
      assert order[k] in order;
      prepared := PrepareGroup(prepared, normalized, order[k], members[order[k]], deployments, enrich);
      assert order[..k + 1] == order[..k] + [order[k]];
    }
    assert order[..|order|] == order;
    assert forall d :: d in deployments ==> d.id in prepared;
  }

  /**
   Preparing together is preparing each alone exactly when the frame brings its own symbol or all
   deployments trade the first one's.
   */
  lemma GroupingIsDirectExactly(prepared: map<string, Enriched>, frame: Frame, deployments: seq<Deployment>,
                                enrich: Enrichment)
    requires Prepares(prepared, frame, deployments, enrich) && KeepsSymbol(enrich)
    requires forall d, e :: d in deployments && e in deployments && d.id == e.id ==> d == e
    ensures (forall d :: d in deployments ==> d.id in prepared && prepared[d.id] == Direct(frame, d, enrich)) <==>
            frame.symbol.Some? || forall d :: d in deployments ==> d.symbol == deployments[0].symbol
  {
    forall d | d in deployments
      ensures d.id in prepared && prepared[d.id] == enrich(Normalize(frame, deployments[0].symbol), d.required)
    {
      assert d.id in prepared.Keys;
      var e :| e in deployments && e.id == d.id
               && prepared[d.id] == enrich(Normalize(frame, deployments[0].symbol), e.required);
      assert e == d;
    }
    if frame.symbol.None? {
      forall d | d in deployments ensures prepared[d.id].symbol == deployments[0].symbol {
      }
      forall d | d in deployments ensures Direct(frame, d, enrich).symbol == d.symbol {
      }
    }
  }
  /** On a frame without a symbol, a later deployment of another symbol is prepared under the first one's. */
  lemma ForeignSymbol(prepared: map<string, Enriched>, bars: seq<int>, first: Deployment, other: Deployment,
                      enrich: Enrichment)
    requires first.id != other.id && first.symbol != other.symbol && KeepsSymbol(enrich)
    requires Prepares(prepared, Frame(None, bars), [first, other], enrich)
    ensures other.id in prepared && prepared[other.id].symbol == first.symbol
    ensures Direct(Frame(None, bars), other, enrich).symbol == other.symbol
  {
    assert other in [first, other];
    assert other.id in prepared.Keys;
    var d :| d in [first, other] && d.id == other.id
             && prepared[other.id] == enrich(Normalize(Frame(None, bars), first.symbol), d.required);
  }
}
