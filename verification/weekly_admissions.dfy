/**
 The registry of weekly plans over any number of imports: an admitted plan is frozen, a revision of its
 source blocks it for good, and what may still be traded of a pack comes from one publication.
 */
module WeeklyAdmissions {
  import opened Wrappers

  /** What a publication offers: the trade's terms stand for everything an import does not look at. */
  datatype Offer = Offer(id: string, terms: string, validThrough: int)

  datatype Publication = Publication(pack: string, hash: string, offers: seq<Offer>)

  datatype Plan = Plan(
    pack: string,
    hash: string,
    terms: string,
    validThrough: int,
    admittedAt: int,
    blocked: bool,
    earlyAt: Option<int>)

  type Registry = map<string, Plan>

  /** One import: the publication, the instant, and whether shadow policy pairs an early arm. */
  datatype Import = Import(publication: Publication, now: int, paired: bool)

  function Fresh(i: Import, o: Offer): Plan {
    Plan(i.publication.pack, i.publication.hash, o.terms, o.validThrough, i.now, false, None)
  }

  /** A known plan stays as it was admitted, blocked when it comes from another publication. */
  function Admitted(r: Registry, i: Import, o: Offer): Plan {
    if o.id !in r then Fresh(i, o)
    else if r[o.id].hash == i.publication.hash then r[o.id]
    else r[o.id].(blocked := true)
  }

  function AdmitAll(r: Registry, i: Import, offers: seq<Offer>): Registry {
    if offers == [] then r
    else
      var n := |offers| - 1;
      var before := AdmitAll(r, i, offers[..n]);
      before[offers[n].id := Admitted(before, i, offers[n])]
  }

  function Superseded(p: Plan, i: Import): Plan {
    if p.pack == i.publication.pack && p.hash != i.publication.hash then p.(blocked := true) else p
  }

  function Armed(p: Plan, i: Import): Plan {
    if i.paired && !p.blocked && p.validThrough > i.now && p.earlyAt.None? then p.(earlyAt := Some(i.now)) else p
  }

  function After(r: Registry, i: Import): Registry {
    var admitted := AdmitAll(r, i, i.publication.offers);
    map id | id in admitted :: Armed(Superseded(admitted[id], i), i)
  }

  function AfterAll(r: Registry, imports: seq<Import>): Registry {
    if imports == [] then r else After(AfterAll(r, imports[..|imports| - 1]), imports[|imports| - 1])
  }

  // ---------------------------------------------------------------- an import as it runs

  method AdmitOffers(prior: Registry, i: Import) returns (plans: Registry)
    ensures plans == AdmitAll(prior, i, i.publication.offers)
  {
    plans := prior;
    var offers := i.publication.offers;
    for k := 0 to |offers|
      invariant plans == AdmitAll(prior, i, offers[..k])
    {
      assert offers[..k + 1][..k] == offers[..k];
      var plan := Fresh(i, offers[k]);
      if offers[k].id in plans {
        var previous := plans[offers[k].id];
        plan := if previous.hash == plan.hash then previous else previous.(blocked := true);
      }
      plans := plans[offers[k].id := plan];
    }
    assert offers[..|offers|] == offers;
  }

  method BlockSuperseded(admitted: Registry, i: Import) returns (plans: Registry)
    ensures plans == map id | id in admitted :: Superseded(admitted[id], i)
  {
    plans := admitted;
    var rest := plans.Keys;
    while rest != {}
      invariant rest <= plans.Keys == admitted.Keys
      invariant forall id :: id in admitted ==>
                plans[id] == if id in rest then admitted[id] else Superseded(admitted[id], i)
      decreases |rest|
    {
      var id :| id in rest;
      if plans[id].pack == i.publication.pack && plans[id].hash != i.publication.hash {
        plans := plans[id := plans[id].(blocked := true)];
      }
      rest := rest - {id};
    }
  }

  method ArmEarly(admitted: Registry, i: Import) returns (plans: Registry)
    requires i.paired
    ensures plans == map id | id in admitted :: Armed(admitted[id], i)
  {
    plans := admitted;
    var rest := plans.Keys;
    while rest != {}
      invariant rest <= plans.Keys == admitted.Keys
      invariant forall id :: id in admitted ==> plans[id] == if id in rest then admitted[id] else Armed(admitted[id], i)
      decreases |rest|
    {
      var id :| id in rest;
      if !plans[id].blocked && plans[id].validThrough > i.now && plans[id].earlyAt.None? {
        plans := plans[id := plans[id].(earlyAt := Some(i.now))];
      }
      rest := rest - {id};
    }
  }

  /** `import_publication`, pass by pass over the registry. */
  method ImportPublication(prior: Registry, i: Import) returns (plans: Registry)
    ensures plans == After(prior, i)
  {
    plans := AdmitOffers(prior, i);
    plans := BlockSuperseded(plans, i);
    if i.paired {
      plans := ArmEarly(plans, i);
    }
  }

  // ---------------------------------------------------------------- one import, plan by plan

  predicate Offered(offers: seq<Offer>, id: string) {
    exists o :: o in offers && o.id == id
  }

  /** The first offer of an id that is not yet known. */
  predicate FirstOffered(offers: seq<Offer>, k: nat) {
    k < |offers| && forall j :: 0 <= j < k ==> offers[j].id != offers[k].id
  }

  lemma {:induction false} AdmittedExactly(r: Registry, i: Import, offers: seq<Offer>, id: string)
    ensures var admitted := AdmitAll(r, i, offers);
            && (id in admitted <==> id in r || Offered(offers, id))
            && (id in r ==>
                  admitted[id] ==
                  if Offered(offers, id) && r[id].hash != i.publication.hash then r[id].(blocked := true) else r[id])
            && (forall k: nat :: id !in r && FirstOffered(offers, k) && offers[k].id == id ==>
                  admitted[id] == Plan(i.publication.pack, i.publication.hash, offers[k].terms, offers[k].validThrough,
                                       i.now, false, None))
  {
    if offers != [] {
      var n := |offers| - 1;
      AdmittedExactly(r, i, offers[..n], id);
      OfferedSnoc(offers[..n], offers[n], id);
      assert offers == offers[..n] + [offers[n]];
      forall k: nat | id !in r && FirstOffered(offers, k) && offers[k].id == id
        ensures AdmitAll(r, i, offers)[id] ==
                Plan(i.publication.pack, i.publication.hash, offers[k].terms, offers[k].validThrough, i.now, false,
                     None)
      {
        if k < n {
          assert FirstOffered(offers[..n], k) && offers[..n][k] == offers[k];
        }
      }
    }
  }

  lemma OfferedSnoc(offers: seq<Offer>, o: Offer, id: string)
    ensures Offered(offers + [o], id) <==> Offered(offers, id) || o.id == id
  {
    var all := offers + [o];
    assert forall p :: p in all <==> p in offers || p == o;
  }

  /**
   What an import makes of a plan it knows. It is blocked, now or from before, exactly when it is offered
   by another publication or belongs to this one's pack under another hash. Nothing else of it changes
   but the early arm, which is given at this instant exactly when shadow policy pairs one and the plan
   is neither blocked, nor run out, nor armed already.
   */
  lemma KnownPlanExactly(r: Registry, i: Import, id: string)
    requires id in r
    ensures id in After(r, i)
    ensures var was, now := r[id], After(r, i)[id];
            && now.pack == was.pack && now.hash == was.hash && now.terms == was.terms
            && now.validThrough == was.validThrough && now.admittedAt == was.admittedAt
            && (now.blocked <==>
                  || was.blocked
                  || (was.hash != i.publication.hash
                      && (Offered(i.publication.offers, id) || was.pack == i.publication.pack)))
            && now.earlyAt == (if i.paired && !now.blocked && was.validThrough > i.now && was.earlyAt.None?
                               then Some(i.now) else was.earlyAt)
  {
    AdmittedExactly(r, i, i.publication.offers, id);
  }

  /**
   What an import makes of a plan it does not know: every id that is offered is admitted, on the terms of
   its first offer, unblocked, and armed early at once when shadow policy pairs that and it has not run out.
   */
  lemma NewPlanExactly(r: Registry, i: Import, id: string)
    requires id !in r
    ensures id in After(r, i) <==> Offered(i.publication.offers, id)
    ensures forall k: nat :: FirstOffered(i.publication.offers, k) && i.publication.offers[k].id == id ==>
              var o := i.publication.offers[k];
              && id in After(r, i)
              && After(r, i)[id] == Plan(i.publication.pack, i.publication.hash, o.terms, o.validThrough, i.now, false,
                                         if i.paired && o.validThrough > i.now then Some(i.now) else None)
  {
    AdmittedExactly(r, i, i.publication.offers, id);
  }

  // ---------------------------------------------------------------- over any number of imports

  /** The later plan is the earlier one, at most blocked or, unless blocked before, given its early arm once. */
  predicate Frozen(was: Plan, now: Plan) {
    && now.(blocked := was.blocked, earlyAt := was.earlyAt) == was
    && (was.blocked ==> now == was)
    && (was.earlyAt.Some? ==> now.earlyAt == was.earlyAt)
  }

  predicate Grows(earlier: Registry, later: Registry) {
    forall id :: id in earlier ==> id in later && Frozen(earlier[id], later[id])
  }

  lemma {:induction false} AdmittingFreezes(r: Registry, i: Import, offers: seq<Offer>)
    ensures Grows(r, AdmitAll(r, i, offers))
  {
    if offers != [] {
      AdmittingFreezes(r, i, offers[..|offers| - 1]);
    }
  }

  lemma ImportFreezes(r: Registry, i: Import)
    ensures Grows(r, After(r, i))
  {
    AdmittingFreezes(r, i, i.publication.offers);
  }

  /** From any import on, an admitted plan keeps its terms and its admission; a block is never lifted. */
  lemma {:induction false} AdmissionsAreFrozen(r: Registry, imports: seq<Import>, k: nat)
    requires k <= |imports|
    ensures Grows(AfterAll(r, imports[..k]), AfterAll(r, imports))
    decreases |imports|
  {
    if k == |imports| {
      assert imports[..k] == imports;
    } else {
      var n := |imports| - 1;
      assert imports[..n][..k] == imports[..k];
      AdmissionsAreFrozen(r, imports[..n], k);
      ImportFreezes(AfterAll(r, imports[..n]), imports[n]);
    }
  }

  /** What may still be traded of a pack comes from one publication. */
  predicate OneSourcePerPack(r: Registry) {
    forall a, b :: a in r && b in r && !r[a].blocked && !r[b].blocked && r[a].pack == r[b].pack ==>
      r[a].hash == r[b].hash
  }

  lemma {:induction false} AdmittingAddsOnlyThisSource(r: Registry, i: Import, offers: seq<Offer>)
    ensures var admitted := AdmitAll(r, i, offers);
            forall id :: id in admitted && !admitted[id].blocked ==>
              (id in r && !r[id].blocked && admitted[id].pack == r[id].pack && admitted[id].hash == r[id].hash)
              || (admitted[id].pack == i.publication.pack && admitted[id].hash == i.publication.hash)
  {
    if offers != [] {
      AdmittingAddsOnlyThisSource(r, i, offers[..|offers| - 1]);
    }
  }

  lemma ImportKeepsOneSource(r: Registry, i: Import)
    requires OneSourcePerPack(r)
    ensures OneSourcePerPack(After(r, i))
    ensures forall id :: id in After(r, i) && !After(r, i)[id].blocked && After(r, i)[id].pack == i.publication.pack ==>
              After(r, i)[id].hash == i.publication.hash
  {
    AdmittingAddsOnlyThisSource(r, i, i.publication.offers);
  }

  lemma {:induction false} OneSourceAlways(imports: seq<Import>)
    ensures OneSourcePerPack(AfterAll(map[], imports))
  {
    if imports != [] {
      OneSourceAlways(imports[..|imports| - 1]);
      ImportKeepsOneSource(AfterAll(map[], imports[..|imports| - 1]), imports[|imports| - 1]);
    }
  }

  // ---------------------------------------------------------------- importing again

  /** The plan of every offer is there, and blocked unless it comes from this publication. */
  predicate Taken(r: Registry, i: Import, offers: seq<Offer>) {
    forall o :: o in offers ==> o.id in r && (r[o.id].hash == i.publication.hash || r[o.id].blocked)
  }

  lemma {:induction false} AdmittingTakes(r: Registry, i: Import, offers: seq<Offer>)
    ensures Taken(AdmitAll(r, i, offers), i, offers)
  {
    if offers != [] {
      var n := |offers| - 1;
      AdmittingTakes(r, i, offers[..n]);
      assert offers == offers[..n] + [offers[n]];
    }
  }

  lemma {:induction false} TakenIsLeftAlone(r: Registry, i: Import, offers: seq<Offer>)
    requires Taken(r, i, offers)
    ensures AdmitAll(r, i, offers) == r
  {
    if offers != [] {
      var n := |offers| - 1;
      assert offers == offers[..n] + [offers[n]];
      TakenIsLeftAlone(r, i, offers[..n]);
      assert offers[n] in offers;
    }
  }

  /**
   Importing the same publication again, at once or later, changes no plan, even when the branches that
   have expired meanwhile are no longer offered.
   */
  lemma ImportIsIdempotent(r: Registry, i: Import, later: int, offers: seq<Offer>)
    requires later >= i.now && forall o :: o in offers ==> o in i.publication.offers
    ensures After(After(r, i), i.(now := later, publication := i.publication.(offers := offers))) == After(r, i)
  {
    var once, again := After(r, i), i.(now := later, publication := i.publication.(offers := offers));
    AdmittingTakes(r, i, i.publication.offers);
    assert Taken(once, again, offers);
    TakenIsLeftAlone(once, again, offers);
  }
}
