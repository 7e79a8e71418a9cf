/** Steps 1-6 of a purge: repair or remove every derived contribution of the purged chunks, and
    flush, leaving the chunks and the recovery anchors in place.
 */
module PurgeDerived {
  import opened Stores
  import opened KnowledgeGraph
  import opened InvariantSteps
  import opened Classification
  import opened DerivedPass
  import opened Convergence
  import opened ConvergenceSteps
  import opened StorageEngine

  /** No object present in either view has evidence from `gone`. */
  ghost predicate Clean(w: World, gone: set<SourceId>) {
    forall o, c :: c in gone ==> !Evidence(w, {}, o, c)
  }

  ghost predicate CandidatesCover(w: World, candidates: set<Obj>, gone: set<SourceId>) {
    forall o, c :: c in gone && Evidence(w, {}, o, c) ==> o in candidates
  }

  /** The duty is about this pass; only the ordinary policy may skip rebuilds. */
  ghost predicate GoalFits(k: Duty, candidates: set<Obj>, gone: set<SourceId>, policy: Policy) {
    && k.watch == {} && k.frame == None
    && k.gone == (if policy == BestEffort then gone else {})
    && (k.goal.Some? ==> k.goal.value.gone == gone && k.goal.value.candidates == candidates)
  }

  lemma ShrinkingKeepsInv(w: World, x: World, watch: set<Obj>)
    requires Inv(w, watch)
    requires x == w.(graph := x.graph, tracking := x.tracking)
    requires forall o, c :: Evidence(x, watch, o, c) ==> Evidence(w, watch, o, c)
    ensures Inv(x, watch)
  {
    DerivedWriteKeepsInv(w, x, watch);
  }

  /** The plan records exactly the verdicts of the objects seen so far. */
  ghost predicate Records(plan: Plan, w: World, seen: set<Obj>, gone: set<SourceId>, policy: Policy) {
    && (forall o :: o in plan.drop <==> o in seen && Drops(w, o, gone, policy))
    && (forall o :: o in plan.rebuild <==> o in seen && Rebuilds(w, o, gone, policy))
    && (forall o :: o in plan.rebuild ==> plan.rebuild[o] == VerdictOn(w, o, gone, policy).remaining)
  }

  lemma RecordedIsPlan(plan: Plan, w: World, seen: set<Obj>, gone: set<SourceId>, policy: Policy)
    requires Records(plan, w, seen, gone, policy)
    ensures plan == PlanOf(w, seen, gone, policy)
  {
    assert plan.rebuild.Keys == PlanOf(w, seen, gone, policy).rebuild.Keys;
  }

  /** The analysis: the verdict of every present candidate, entities first.  An absent candidate is
      an idempotent no-op. */
  method Analyze(e: Engine, candidates: set<Obj>, gone: set<SourceId>, policy: Policy) returns (plan: Plan)
    ensures plan == PlanOf(e.State(), candidates, gone, policy)
  {
    var nodes := set o | o in candidates && o.Node?;
    plan := AnalyzeBatch(e, nodes, gone, policy, {}, Plan({}, map[]));
    plan := AnalyzeBatch(e, candidates - nodes, gone, policy, nodes, plan);
    assert nodes + (candidates - nodes) == candidates;
    RecordedIsPlan(plan, e.State(), candidates, gone, policy);
  }

  function Recorded(w: World, plan: Plan, o: Obj, gone: set<SourceId>, policy: Policy): Plan {
    if o !in w.graph.mem then plan
    else
      match VerdictOn(w, o, gone, policy)
      case Drop => plan.(drop := plan.drop + {o})
      case Rebuild(remaining) => plan.(rebuild := plan.rebuild[o := remaining])
      case Keep => plan
  }

  lemma RecordsOneMore(plan: Plan, w: World, seen: set<Obj>, o: Obj, gone: set<SourceId>, policy: Policy)
    requires Records(plan, w, seen, gone, policy) && o !in seen
    ensures Records(Recorded(w, plan, o, gone, policy), w, seen + {o}, gone, policy)
  {
    hide Classify;
  }

  method AnalyzeBatch(e: Engine, batch: set<Obj>, gone: set<SourceId>, policy: Policy, ghost before: set<Obj>,
      plan0: Plan) returns (plan: Plan)
    requires batch !! before && Records(plan0, e.State(), before, gone, policy)
    ensures Records(plan, e.State(), before + batch, gone, policy)
  {
    hide Records, VerdictOn;
    var todo := batch;
    ghost var seen := before;
    plan := plan0;
    while todo != {}
      invariant todo !! seen && todo + seen == before + batch
      invariant Records(plan, e.State(), seen, gone, policy)
      decreases todo
    {
      var o :| o in todo;
      RecordsOneMore(plan, e.State(), seen, o, gone, policy);
      if o in e.graph.mem {
        var verdict := VerdictOn(e.State(), o, gone, policy);
        match verdict
        case Drop => plan := plan.(drop := plan.drop + {o});
        case Rebuild(remaining) => plan := plan.(rebuild := plan.rebuild[o := remaining]);
        case Keep =>
      }
      todo := todo - {o};
      seen := seen + {o};
    }
    assert seen == before + batch;
  }

  /** What the plan means for the purge's goal; it does not depend on the current stores. */
  ghost predicate PlanFits(k: Duty, plan: Plan) {
    && k.frame == None
    && (forall o, c :: o in plan.rebuild && c in plan.rebuild[o] ==> c !in k.gone)
    && (k.goal.Some? ==>
          var g := k.goal.value;
          && (forall o :: o in plan.drop ==> Doomed(g, o))
          && (forall o :: o in plan.rebuild ==>
                o in g.candidates && o in g.graph0 && Survivors(g, o) != [] && Evidential(o, plan.rebuild[o]) == Survivors(g, o)))
  }

  /** A write that gives an object nothing but what it already mentions, and its graph list nothing
      purged, keeps skipping harmless. */
  lemma ShrinkingKeepsSpared(w: World, x: World, gone: set<SourceId>)
    requires Spared(w, gone) && x.given == w.given
    requires forall o, c :: Mentioned(x, o, c) ==> Mentioned(w, o, c)
    requires forall o, c :: Lists(x.graph.mem, o, c) || Lists(x.graph.disk, o, c) ==>
      c !in gone || Lists(w.graph.mem, o, c) || Lists(w.graph.disk, o, c)
    ensures Spared(x, gone)
  {
    forall o | o in x.given.fragile
      ensures Skippable(x, gone, o)
    {
      assert Skippable(w, gone, o);
    }
  }

  lemma PlanFitsGoal(w: World, k: Duty, plan: Plan, candidates: set<Obj>, gone: set<SourceId>, policy: Policy)
    requires Kept(w, k) && GoalFits(k, candidates, gone, policy) && plan == PlanOf(w, candidates, gone, policy)
    ensures PlanFits(k, plan)
  {
    forall o, c | o in plan.rebuild && c in plan.rebuild[o]
      ensures c !in k.gone
    {
      ClassifyIsExact(TrackedIn(w.tracking.mem, o), w.graph.mem[o], gone, policy);
    }
    if k.goal.Some? {
      var g := k.goal.value;
      forall o | o in plan.drop || o in plan.rebuild
        ensures o in plan.drop ==> Doomed(g, o)
        ensures o in plan.rebuild ==>
          o in g.candidates && o in g.graph0 && Survivors(g, o) != [] && Evidential(o, plan.rebuild[o]) == Survivors(g, o)
      {
        PlanMatchesGoal(g, w, policy, o);
        assert ObjOk(g, w, o);
      }
    }
  }

  lemma TrackingKept(w: World, k: Duty, plan: Plan, candidates: set<Obj>, gone: set<SourceId>, policy: Policy)
    requires Kept(w, k) && GoalFits(k, candidates, gone, policy) && plan == PlanOf(w, candidates, gone, policy)
    requires !k.converged
    ensures Kept(RemainingTracked(w, plan), k)
  {
    var x := RemainingTracked(w, plan);
    forall o, c
      ensures Evidence(x, {}, o, c) ==> Evidence(w, {}, o, c)
      ensures Mentioned(x, o, c) ==> Mentioned(w, o, c)
    {
      if o in plan.rebuild {
        ClassifyIsExact(TrackedIn(w.tracking.mem, o), w.graph.mem[o], gone, policy);
        assert c in Evidential(o, plan.rebuild[o]) ==> c in Owners(TrackedIn(w.tracking.mem, o), w.graph.mem[o]);
      }
    }
    ShrinkingKeepsInv(w, x, {});
    ShrinkingKeepsSpared(w, x, k.gone);
    PlanFitsGoal(w, k, plan, candidates, gone, policy);
    if k.goal.Some? {
      TrackingWriteKeepsCourse(k.goal.value, w, x, TrackingUpdates(plan));
    }
  }

  lemma RemovalKept(w: World, x: World, k: Duty, plan: Plan, objects: set<Obj>, gonerows: set<Obj>)
    requires Kept(w, k) && PlanFits(k, plan) && !k.converged
    requires x == w.(graph := w.graph.Delete(objects), tracking := w.tracking.Delete(gonerows))
    requires forall o :: o in objects + gonerows ==> o in plan.drop || Incident(DroppedEntities(plan), o)
    ensures Kept(x, k)
  {
    forall o, c
      ensures Evidence(x, k.watch, o, c) ==> Evidence(w, k.watch, o, c)
      ensures Mentioned(x, o, c) ==> Mentioned(w, o, c)
    {
    }
    ShrinkingKeepsInv(w, x, k.watch);
    ShrinkingKeepsSpared(w, x, k.gone);
    if k.goal.Some? {
      RemovalKeepsCourse(k.goal.value, w, x, objects, gonerows);
    }
  }

  lemma RebuildKept(w: World, k: Duty, plan: Plan, limits: Limits, o: Obj)
    requires Kept(w, k) && PlanFits(k, plan) && !k.converged && k.watch == {}
    requires o in plan.rebuild
    requires o in w.graph.mem ==>
      TrackedIn(w.tracking.mem, o) == TrackedIn(w.tracking.disk, o) == Evidential(o, plan.rebuild[o])
    ensures Kept(RebuildObject(w, plan, limits, o), k)
  {
    var x := RebuildObject(w, plan, limits, o);
    if o in w.graph.mem {
      forall p, c
        ensures Evidence(x, {}, p, c) ==> Evidence(w, {}, p, c)
        ensures Mentioned(x, p, c) ==> Mentioned(w, p, c)
      {
        if p == o {
          assert Lists(x.graph.mem, o, c) ==> c in Evidential(o, plan.rebuild[o]);
        }
      }
      ShrinkingKeepsInv(w, x, {});
      ShrinkingKeepsSpared(w, x, k.gone);
      if k.goal.Some? {
        RebuildKeepsCourse(k.goal.value, w, x, o, limits.Cut(o, Evidential(o, plan.rebuild[o])));
      }
    }
  }

  /** Everything but the graph and the tracking rows is as it was in memory. */
  predicate OnlyDerived(w: World, x: World) {
    && x.chunks.mem == w.chunks.mem && x.entities.mem == w.entities.mem
    && x.relations.mem == w.relations.mem && x.rows.mem == w.rows.mem
  }

  /** Step 3: relations with no remaining sources. */
  method RemoveRelations(e: Engine, plan: Plan, ghost k: Duty) returns (ok: bool)
    requires Kept(e.State(), k) && PlanFits(k, plan) && !k.converged
    requires e.up
    modifies e
    ensures Kept(e.State(), k) && OnlyDerived(old(e.State()), e.State())
    ensures ok ==> e.graph.mem == old(e.graph.mem) - DroppedRelations(plan)
    ensures ok ==> e.tracking.mem == old(e.tracking.mem) - DroppedRelations(plan)
    ensures Spent(old(e.schedule), e.schedule, e.up, ok)
  {
    var w := RelationsRemoved(e.State(), plan);
    RemovalKept(e.State(), w, k, plan, DroppedRelations(plan), {});
    ok := e.Write(w, k);
    if ok {
      w := RelationRowsRemoved(e.State(), plan);
      RemovalKept(e.State(), w, k, plan, {}, DroppedRelations(plan));
      ok := e.Write(w, k);
    }
  }

  /** Step 4: entities with no remaining sources, after their residual relations' rows. */
  method RemoveEntities(e: Engine, plan: Plan, ghost k: Duty) returns (ok: bool)
    requires Kept(e.State(), k) && PlanFits(k, plan) && !k.converged
    requires e.up
    modifies e
    ensures Kept(e.State(), k) && OnlyDerived(old(e.State()), e.State())
    ensures
      var nodes := DroppedEntities(plan);
      var incident := IncidentRelations(old(e.graph.mem), nodes);
      ok ==> e.graph.mem == old(e.graph.mem) - (nodes + incident) &&
             e.tracking.mem == old(e.tracking.mem) - incident - nodes
    ensures Spent(old(e.schedule), e.schedule, e.up, ok)
  {
    var w := IncidentRowsRemoved(e.State(), plan);
    RemovalKept(e.State(), w, k, plan, {}, IncidentRelations(e.graph.mem, DroppedEntities(plan)));
    ok := e.Write(w, k);
    if ok {
      ok := RemoveNodes(e, plan, k);
    }
  }

  method RemoveNodes(e: Engine, plan: Plan, ghost k: Duty) returns (ok: bool)
    requires Kept(e.State(), k) && PlanFits(k, plan) && !k.converged
    requires e.up
    modifies e
    ensures Kept(e.State(), k) && OnlyDerived(old(e.State()), e.State())
    ensures
      var nodes := DroppedEntities(plan);
      ok ==> e.graph.mem == old(e.graph.mem) - (nodes + IncidentRelations(old(e.graph.mem), nodes)) &&
             e.tracking.mem == old(e.tracking.mem) - nodes
    ensures Spent(old(e.schedule), e.schedule, e.up, ok)
  {
    var nodes := DroppedEntities(plan);
    var w := EntitiesRemoved(e.State(), plan);
    RemovalKept(e.State(), w, k, plan, nodes + IncidentRelations(e.graph.mem, nodes), {});
    ok := e.Write(w, k);
    if ok {
      w := EntityRowsRemoved(e.State(), plan);
      RemovalKept(e.State(), w, k, plan, {}, nodes);
      ok := e.Write(w, k);
    }
  }

  /** Steps 2-5: tracking updates, deletes, first barrier. */
  method Prune(e: Engine, plan: Plan, candidates: set<Obj>, gone: set<SourceId>, policy: Policy, ghost k: Duty)
      returns (ok: bool)
    requires Kept(e.State(), k) && GoalFits(k, candidates, gone, policy) && !k.converged
    requires plan == PlanOf(e.State(), candidates, gone, policy)
    requires e.up
    modifies e
    ensures Kept(e.State(), k) && OnlyDerived(old(e.State()), e.State()) && PlanFits(k, plan)
    ensures ok ==> e.State() == FlushedAll(e.State())
    ensures ok ==> e.graph.mem == Pruned(old(e.State()), plan).graph.mem
    ensures ok ==> e.tracking.mem == Pruned(old(e.State()), plan).tracking.mem
    ensures Spent(old(e.schedule), e.schedule, e.up, ok)
  {
    PlanFitsGoal(e.State(), k, plan, candidates, gone, policy);
    TrackingKept(e.State(), k, plan, candidates, gone, policy);
    ok := e.Write(RemainingTracked(e.State(), plan), k);
    if ok {
      ok := RemoveRelations(e, plan, k);
    }
    if ok {
      ok := RemoveEntities(e, plan, k);
    }
    if ok {
      ok := e.FlushAll(k);
    }
  }

  /** The graph once the objects of `done` are rebuilt; one that is gone is not created. */
  function Rebuilt(g: map<Obj, seq<SourceId>>, plan: Plan, done: set<Obj>, limits: Limits): map<Obj, seq<SourceId>> {
    map o | o in g ::
      if o in done && o in plan.rebuild then limits.Cut(o, Evidential(o, plan.rebuild[o])) else g[o]
  }

  /** The tracking row of every present object of the plan is durable and holds what remains. */
  ghost predicate RowsReady(w: World, plan: Plan) {
    && w.tracking.mem == w.tracking.disk
    && forall o :: o in plan.rebuild && o in w.graph.mem ==>
         o in w.tracking.mem && w.tracking.mem[o] == Evidential(o, plan.rebuild[o])
  }

  lemma RebuildRowIsStable(w: World, plan: Plan, o: Obj)
    requires RowsReady(w, plan) && o in plan.rebuild
    ensures RebuildRow(w, plan, o) == w
  {
    if o in w.graph.mem {
      assert w.tracking.mem + map[o := Evidential(o, plan.rebuild[o])] == w.tracking.mem;
    }
  }

  lemma RebuildObjectIsRebuilt(w: World, plan: Plan, o: Obj, limits: Limits)
    requires o in plan.rebuild
    ensures RebuildObject(w, plan, limits, o).graph.mem == Rebuilt(w.graph.mem, plan, {o}, limits)
  {
  }

  method RebuildOne(e: Engine, plan: Plan, o: Obj, ghost k: Duty) returns (ok: bool)
    requires Kept(e.State(), k) && PlanFits(k, plan) && !k.converged && k.watch == {}
    requires RowsReady(e.State(), plan) && o in plan.rebuild
    requires e.up
    modifies e
    ensures Kept(e.State(), k) && OnlyDerived(old(e.State()), e.State())
    ensures e.tracking == old(e.tracking)
    ensures ok ==> e.graph.mem == Rebuilt(old(e.graph.mem), plan, {o}, e.limits)
    ensures Spent(old(e.schedule), e.schedule, e.up, ok)
  {
    RebuildRowIsStable(e.State(), plan, o);
    ok := e.Write(RebuildRow(e.State(), plan, o), k);
    if ok {
      var w := RebuildObject(e.State(), plan, e.limits, o);
      RebuildKept(e.State(), k, plan, e.limits, o);
      RebuildObjectIsRebuilt(e.State(), plan, o, e.limits);
      ok := e.Write(w, k);
    }
  }

  lemma RebuiltMore(g: map<Obj, seq<SourceId>>, plan: Plan, done: set<Obj>, o: Obj, limits: Limits)
    ensures Rebuilt(Rebuilt(g, plan, done, limits), plan, {o}, limits) == Rebuilt(g, plan, done + {o}, limits)
  {
  }

  ghost predicate MaySkip(policy: Policy, given: Given, skipped: set<Obj>) {
    if policy == BestEffort then skipped <= given.fragile else skipped == {}
  }

  /** Step 6: rebuild the remaining objects from exactly the lists they were given.  Under the ordinary
      policy an object without a usable cached extraction may be left as it is, and the call still
      returns normally. */
  method RebuildKnowledge(e: Engine, plan: Plan, policy: Policy, ghost k: Duty)
      returns (ok: bool, ghost skipped: set<Obj>)
    requires Kept(e.State(), k) && PlanFits(k, plan) && !k.converged && k.watch == {}
    requires RowsReady(e.State(), plan)
    requires e.up
    modifies e
    ensures Kept(e.State(), k) && OnlyDerived(old(e.State()), e.State())
    ensures e.tracking == old(e.tracking)
    ensures MaySkip(policy, e.given, skipped)
    ensures ok ==> e.graph.mem == Rebuilt(old(e.graph.mem), plan, plan.rebuild.Keys - skipped, e.limits)
    ensures Spent(old(e.schedule), e.schedule, e.up, ok)
  {
    var todo := plan.rebuild.Keys;
    ok := true;
    skipped := {};
    ghost var done := {};
    assert e.graph.mem == Rebuilt(old(e.graph.mem), plan, done, e.limits);
    while todo != {} && ok
      invariant todo !! done && todo !! skipped && done !! skipped && todo + done + skipped == plan.rebuild.Keys
      invariant Kept(e.State(), k) && OnlyDerived(old(e.State()), e.State())
      invariant e.tracking == old(e.tracking) && MaySkip(policy, e.given, skipped)
      invariant ok ==> e.graph.mem == Rebuilt(old(e.graph.mem), plan, done, e.limits)
      invariant Spent(old(e.schedule), e.schedule, e.up, ok)
      decreases todo
    {
      var o :| o in todo;
      var unusable: bool := *;
      if unusable && policy == BestEffort && o in e.given.fragile {
        skipped := skipped + {o};
      } else {
        RebuiltMore(old(e.graph.mem), plan, done, o, e.limits);
        ok := RebuildOne(e, plan, o, k);
        done := done + {o};
      }
      todo := todo - {o};
    }
    if ok {
      assert done == plan.rebuild.Keys - skipped;
    }
  }

  /** The two barriers passed: what the buffered graph and tracking rows hold, all of it durable. */
  ghost predicate PassDone(w0: World, w: World, plan: Plan, limits: Limits, skipped: set<Obj>) {
    && w.given == w0.given
    && w.graph.mem == w.graph.disk == Rebuilt(Pruned(w0, plan).graph.mem, plan, plan.rebuild.Keys - skipped, limits)
    && w.tracking.mem == w.tracking.disk == Pruned(w0, plan).tracking.mem
  }

  lemma PrunedGraph(w: World, plan: Plan, o: Obj)
    ensures
      Get(Pruned(w, plan).graph.mem, o) ==
        if o in plan.drop || Incident(DroppedEntities(plan), o) then None else Get(w.graph.mem, o)
  {
    var after := w.graph.mem - DroppedRelations(plan);
    var nodes := DroppedEntities(plan);
    assert Pruned(w, plan).graph.mem == after - (nodes + IncidentRelations(after, nodes));
  }

  lemma PrunedRows(w: World, plan: Plan, o: Obj)
    requires o in Pruned(w, plan).graph.mem
    ensures
      Get(Pruned(w, plan).tracking.mem, o) ==
        if o in plan.rebuild then Some(Evidential(o, plan.rebuild[o])) else Get(w.tracking.mem, o)
  {
    PrunedGraph(w, plan, o);
    var after := w.graph.mem - DroppedRelations(plan);
    var nodes := DroppedEntities(plan);
    var rows := w.tracking.mem + TrackingUpdates(plan) - DroppedRelations(plan);
    assert Pruned(w, plan).tracking.mem == rows - IncidentRelations(after, nodes) - nodes;
    assert Get(rows, o) == if o in plan.rebuild then Some(Evidential(o, plan.rebuild[o])) else Get(w.tracking.mem, o);
  }

  /** The rows of what is dropped go with it; those of absent objects are left alone. */
  lemma PrunedAway(w: World, plan: Plan, o: Obj)
    requires o !in Pruned(w, plan).graph.mem && (o in plan.rebuild || o in plan.drop ==> o in w.graph.mem)
    ensures Get(Pruned(w, plan).tracking.mem, o) == if o in w.graph.mem then None else Get(w.tracking.mem, o)
  {
    PrunedGraph(w, plan, o);
    var after := w.graph.mem - DroppedRelations(plan);
    var nodes := DroppedEntities(plan);
    var rows := w.tracking.mem + TrackingUpdates(plan) - DroppedRelations(plan);
    assert Pruned(w, plan).tracking.mem == rows - IncidentRelations(after, nodes) - nodes;
  }

  /** The plan's verdicts in terms of the owners. */
  lemma PlanMeans(w: World, candidates: set<Obj>, gone: set<SourceId>, policy: Policy, o: Obj)
    ensures
      var plan := PlanOf(w, candidates, gone, policy);
      && (o in plan.drop <==> Vanishes(w, candidates, gone, o))
      && (o in plan.rebuild <==> !Vanishes(w, candidates, gone, o) && Touched(w, candidates, gone, policy, o))
      && (Incident(DroppedEntities(plan), o) <==> TakenAlong(w, candidates, gone, o))
  {
    if o in candidates && o in w.graph.mem {
      ClassifyIsExact(TrackedIn(w.tracking.mem, o), w.graph.mem[o], gone, policy);
      OwnersAre(w, o);
    }
    if o.Edge? {
      VanishingIsDropped(w, candidates, gone, policy, Node(o.src));
      VanishingIsDropped(w, candidates, gone, policy, Node(o.tgt));
    }
  }

  lemma VanishingIsDropped(w: World, candidates: set<Obj>, gone: set<SourceId>, policy: Policy, o: Obj)
    ensures o in PlanOf(w, candidates, gone, policy).drop <==> Vanishes(w, candidates, gone, o)
  {
    if o in candidates && o in w.graph.mem {
      ClassifyIsExact(TrackedIn(w.tracking.mem, o), w.graph.mem[o], gone, policy);
      OwnersAre(w, o);
    }
  }

  /** A pass with this result in memory has left every object as it should be. */
  lemma PassLeaves(w0: World, w: World, candidates: set<Obj>, gone: set<SourceId>, policy: Policy, limits: Limits,
      skipped: set<Obj>, o: Obj)
    requires
      var plan := PlanOf(w0, candidates, gone, policy);
      && w.graph.mem == Rebuilt(Pruned(w0, plan).graph.mem, plan, plan.rebuild.Keys - skipped, limits)
      && w.tracking.mem == Pruned(w0, plan).tracking.mem
    ensures LeftAs(w0, w, candidates, gone, policy, limits, skipped, o)
  {
    var plan := PlanOf(w0, candidates, gone, policy);
    PlanMeans(w0, candidates, gone, policy, o);
    PrunedGraph(w0, plan, o);
    if o in Pruned(w0, plan).graph.mem {
      PrunedRows(w0, plan, o);
      if o in plan.rebuild {
        ClassifyIsExact(TrackedIn(w0.tracking.mem, o), w0.graph.mem[o], gone, policy);
        RemainingFilters(o, Owners(TrackedIn(w0.tracking.mem, o), w0.graph.mem[o]), gone);
      }
    } else {
      PrunedAway(w0, plan, o);
    }
  }

  lemma PassObject(w0: World, w: World, plan: Plan, limits: Limits, skipped: set<Obj>, o: Obj)
    requires PassDone(w0, w, plan, limits, skipped)
    ensures
      Get(w.graph.mem, o) ==
        if o !in w0.graph.mem || o in plan.drop || Incident(DroppedEntities(plan), o) then None
        else if o in plan.rebuild && o !in skipped then Some(limits.Cut(o, Evidential(o, plan.rebuild[o])))
        else Some(w0.graph.mem[o])
    ensures o in w.graph.mem ==>
      Get(w.tracking.mem, o) ==
        if o in plan.rebuild then Some(Evidential(o, plan.rebuild[o])) else Get(w0.tracking.mem, o)
  {
    PrunedGraph(w0, plan, o);
    if o in w.graph.mem {
      PrunedRows(w0, plan, o);
    }
  }

  /** The objects the pass left with a purged chunk on their graph list. */
  ghost predicate SkippedHarmlessly(w0: World, plan: Plan, gone: set<SourceId>, skipped: set<Obj>) {
    forall o :: o in skipped && o in plan.rebuild && !Incident(DroppedEntities(plan), o) && o in w0.graph.mem ==>
      !Touches(w0.graph.mem[o], gone)
  }

  lemma PassObjectIsClean(w0: World, w: World, plan: Plan, limits: Limits, skipped: set<Obj>, candidates: set<Obj>,
      gone: set<SourceId>, policy: Policy, o: Obj, c: SourceId)
    requires CandidatesCover(w0, candidates, gone)
    requires plan == PlanOf(w0, candidates, gone, policy) && PassDone(w0, w, plan, limits, skipped)
    requires SkippedHarmlessly(w0, plan, gone, skipped) && c in gone
    ensures !Evidence(w, {}, o, c)
  {
    PassObject(w0, w, plan, limits, skipped, o);
    if o in w.graph.mem {
      if o in candidates {
        ClassifyIsExact(TrackedIn(w0.tracking.mem, o), w0.graph.mem[o], gone, policy);
      } else {
        assert !Evidence(w0, {}, o, c);
      }
    }
  }

  /** A completed pass leaves no evidence of the purged chunks, on any object in any view, exactly when
      none of the objects it had to rebuild and skipped listed one when it started. */
  lemma PassIsCleanIff(w0: World, w: World, plan: Plan, limits: Limits, skipped: set<Obj>, candidates: set<Obj>,
      gone: set<SourceId>, policy: Policy)
    requires CandidatesCover(w0, candidates, gone)
    requires plan == PlanOf(w0, candidates, gone, policy) && PassDone(w0, w, plan, limits, skipped)
    ensures Clean(w, gone) <==> SkippedHarmlessly(w0, plan, gone, skipped)
  {
    if SkippedHarmlessly(w0, plan, gone, skipped) {
      forall o, c | c in gone
        ensures !Evidence(w, {}, o, c)
      {
        PassObjectIsClean(w0, w, plan, limits, skipped, candidates, gone, policy, o, c);
      }
    } else {
      var o :| o in skipped && o in plan.rebuild && !Incident(DroppedEntities(plan), o) && o in w0.graph.mem &&
               Touches(w0.graph.mem[o], gone);
      var c :| c in w0.graph.mem[o] && c in gone;
      PassObject(w0, w, plan, limits, skipped, o);
      assert Evidence(w, {}, o, c);
    }
  }

  /** What a pass may skip is harmless where skipping has been checked to be. */
  lemma SparedIsHarmless(w0: World, plan: Plan, candidates: set<Obj>, gone: set<SourceId>, policy: Policy,
      skipped: set<Obj>)
    requires Spared(w0, gone) && plan == PlanOf(w0, candidates, gone, policy) && MaySkip(policy, w0.given, skipped)
    ensures SkippedHarmlessly(w0, plan, gone, skipped)
  {
    forall o | o in skipped && o in plan.rebuild && o in w0.graph.mem
      ensures !Touches(w0.graph.mem[o], gone)
    {
      assert Skippable(w0, gone, o);
      ClassifyIsExact(TrackedIn(w0.tracking.mem, o), w0.graph.mem[o], gone, policy);
      assert forall c :: c in Owners(TrackedIn(w0.tracking.mem, o), w0.graph.mem[o]) ==> Mentioned(w0, o, c);
    }
  }

  /** Under the rollback policy every surviving candidate is rebuilt, so its graph list is a view of
      its tracking row. */
  lemma RollbackAlignsTracking(w0: World, w: World, plan: Plan, limits: Limits, candidates: set<Obj>,
      gone: set<SourceId>, o: Obj)
    requires plan == PlanOf(w0, candidates, gone, RollbackPolicy) && PassDone(w0, w, plan, limits, {})
    requires o in candidates && o in w.graph.mem
    ensures forall c :: c in w.graph.mem[o] ==> c in TrackedIn(w.tracking.mem, o)
  {
    PassObject(w0, w, plan, limits, {}, o);
    ClassifyIsExact(TrackedIn(w0.tracking.mem, o), w0.graph.mem[o], gone, RollbackPolicy);
  }

  lemma PassConverges(w0: World, w: World, plan: Plan, limits: Limits, skipped: set<Obj>, k: Duty, policy: Policy)
    requires k.goal.Some? && OnCourse(k.goal.value, w0) && OnCourse(k.goal.value, w)
    requires plan == PlanOf(w0, k.goal.value.candidates, k.goal.value.gone, policy)
    requires PassDone(w0, w, plan, limits, skipped) && SkippedHarmlessly(w0, plan, k.goal.value.gone, skipped)
    ensures Converged(k.goal.value, w)
  {
    var g := k.goal.value;
    forall o | o in g.candidates && o in w.graph.mem
      ensures Survivors(g, o) != [] && forall c :: c in w.graph.mem[o] ==> c !in g.gone
    {
      PassObject(w0, w, plan, limits, skipped, o);
      PlanMatchesGoal(g, w0, policy, o);
      ClassifyIsExact(TrackedIn(w0.tracking.mem, o), w0.graph.mem[o], g.gone, policy);
      assert ObjOk(g, w0, o);
    }
  }

  /** Steps 1-6. */
  method PurgeDerivedContributions(e: Engine, candidates: set<Obj>, gone: set<SourceId>, policy: Policy,
      ghost k: Duty) returns (ok: bool, ghost plan: Plan, ghost skipped: set<Obj>)
    requires Kept(e.State(), k) && GoalFits(k, candidates, gone, policy) && !k.converged
    requires e.up
    modifies e
    ensures Kept(e.State(), k) && OnlyDerived(old(e.State()), e.State())
    ensures plan == PlanOf(old(e.State()), candidates, gone, policy) && MaySkip(policy, e.given, skipped)
    ensures ok ==> PassDone(old(e.State()), e.State(), plan, e.limits, skipped)
    ensures ok ==> forall o :: LeftAs(old(e.State()), e.State(), candidates, gone, policy, e.limits, skipped, o)
    ensures ok && CandidatesCover(old(e.State()), candidates, gone) ==> Clean(e.State(), gone)
    ensures ok && k.goal.Some? ==> Converged(k.goal.value, e.State())
    ensures Spent(old(e.schedule), e.schedule, e.up, ok)
  {
    hide Kept, Pruned, Rebuilt, Clean, CandidatesCover, PlanFits, GoalFits, LeftAs;
    ghost var w0 := e.State();
    var p := Analyze(e, candidates, gone, policy);
    plan, skipped := p, {};
    ok := Prune(e, p, candidates, gone, policy, k);
    if !ok { return; }
    PrunedIsReady(w0, e.State(), p);
    if p.rebuild != map[] {
      FitsUnwatched(k, candidates, gone, policy);
      ok, skipped := RebuildKnowledge(e, p, policy, k);
      if !ok { return; }
      ok := e.FlushAll(k);
      if !ok { return; }
    } else {
      NothingToRebuild(e.graph.mem, p, e.limits);
    }
    PassMeans(w0, e.State(), p, e.limits, skipped, candidates, gone, policy, k);
  }

  lemma PrunedIsReady(w0: World, w: World, plan: Plan)
    requires w == FlushedAll(w) && w.graph.mem == Pruned(w0, plan).graph.mem && w.tracking.mem == Pruned(w0, plan).tracking.mem
    ensures RowsReady(w, plan) && w.graph.mem == w.graph.disk
  {
    assert w.graph == w.graph.Flush() && w.tracking == w.tracking.Flush();
    hide Pruned;
    forall o | o in plan.rebuild && o in w.graph.mem
      ensures o in w.tracking.mem && w.tracking.mem[o] == Evidential(o, plan.rebuild[o])
    {
      PrunedRows(w0, plan, o);
    }
  }

  lemma FitsUnwatched(k: Duty, candidates: set<Obj>, gone: set<SourceId>, policy: Policy)
    requires GoalFits(k, candidates, gone, policy)
    ensures k.watch == {}
  {
  }

  lemma NothingToRebuild(g: map<Obj, seq<SourceId>>, plan: Plan, limits: Limits)
    requires plan.rebuild == map[]
    ensures Rebuilt(g, plan, plan.rebuild.Keys - {}, limits) == g
  {
  }

  /** What a completed pass guarantees where skipping is harmless. */
  lemma PassMeans(w0: World, w: World, plan: Plan, limits: Limits, skipped: set<Obj>, candidates: set<Obj>,
      gone: set<SourceId>, policy: Policy, k: Duty)
    requires Kept(w0, k) && Kept(w, k) && GoalFits(k, candidates, gone, policy)
    requires plan == PlanOf(w0, candidates, gone, policy) && MaySkip(policy, w0.given, skipped)
    requires PassDone(w0, w, plan, limits, skipped)
    ensures CandidatesCover(w0, candidates, gone) ==> Clean(w, gone)
    ensures k.goal.Some? ==> Converged(k.goal.value, w)
    ensures forall o :: LeftAs(w0, w, candidates, gone, policy, limits, skipped, o)
  {
    forall o
      ensures LeftAs(w0, w, candidates, gone, policy, limits, skipped, o)
    {
      PassLeaves(w0, w, candidates, gone, policy, limits, skipped, o);
    }
    if policy == BestEffort {
      SparedIsHarmless(w0, plan, candidates, gone, policy, skipped);
    }
    if CandidatesCover(w0, candidates, gone) {
      PassIsCleanIff(w0, w, plan, limits, skipped, candidates, gone, policy);
    }
    if k.goal.Some? {
      PassConverges(w0, w, plan, limits, skipped, k, policy);
    }
  }
}
