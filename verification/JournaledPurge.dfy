/** The journaled whole-document purge: prove, derive, delete the chunks, delete the anchors. */
module JournaledPurge {
  import opened Stores
  import opened KnowledgeGraph
  import opened Classification
  import opened DerivedPass
  import opened Convergence
  import opened RecoveryProof
  import opened StorageEngine
  import opened PurgeDerived
  import opened PurgeSteps

  datatype Outcome = Done | Interrupted | PurgeRefused(reason: Reason) | PurgeConflict

  /** How far the journal speaks for the document's present chunk set. */
  function Progress(row: Row): nat {
    if row.purge.Some? && row.purge.value.chunks == Scope(row) then row.purge.value.phase.Rank() + 1 else 0
  }

  /** The purge's duty at a row: once the derived pass is journaled, it has converged. */
  ghost function PurgeDuty(d: DocId, goal: Option<Goal>, row: Row): Duty {
    Duty({}, false, Some(d), Scope(row), goal, Live(row), None)
  }

  /** The document's row is durable and its journal is true. */
  ghost predicate Sound(w: World, d: DocId, goal: Option<Goal>) {
    d in w.rows.mem && Kept(w, PurgeDuty(d, goal, w.rows.mem[d]))
  }

  ghost predicate At(w: World, d: DocId, goal: Option<Goal>, phase: Phase) {
    Sound(w, d, goal) && w.rows.mem[d].purge == Some(PurgeJournal(Scope(w.rows.mem[d]), phase))
  }

  /** Only the purge journal of `d` moved in the rows, and it did not move back. */
  predicate Advanced(w: World, x: World, d: DocId) {
    && d in w.rows.mem && d in x.rows.mem
    && x.rows.mem == w.rows.mem[d := w.rows.mem[d].(purge := x.rows.mem[d].purge)]
    && Progress(w.rows.mem[d]) <= Progress(x.rows.mem[d])
  }

  predicate InPhase(w: World, d: DocId, phase: Phase)
    requires d in w.rows.mem
  {
    w.rows.mem[d].purge == Some(PurgeJournal(Scope(w.rows.mem[d]), phase))
  }

  predicate OnlyRow(w: World, x: World, d: DocId) {
    && x.graph.mem == w.graph.mem && (w.graph.mem == w.graph.disk ==> x.graph == w.graph)
    && x.tracking.mem == w.tracking.mem && (w.tracking.mem == w.tracking.disk ==> x.tracking == w.tracking)
    && x.chunks.mem == w.chunks.mem
    && x.entities.mem == w.entities.mem && x.relations.mem == w.relations.mem
    && Advanced(w, x, d)
  }

  lemma PhaseWrittenOnlyRow(w: World, x: World, d: DocId, phase: Phase)
    requires d in w.rows.mem && Leaked(PhaseWritten(w, d, phase), x)
    requires Progress(w.rows.mem[d]) <= phase.Rank() + 1
    ensures OnlyRow(w, x, d) && InPhase(x, d, phase) && Scope(x.rows.mem[d]) == Scope(w.rows.mem[d])
  {
    assert Scope(Journaling(w.rows.mem[d], phase)) == Scope(w.rows.mem[d]);
  }

  method WritePhase(e: Engine, d: DocId, phase: Phase, ghost goal: Option<Goal>, ghost k: Duty) returns (ok: bool)
    requires d in e.rows.mem && MayRecord(e.State(), d, e.rows.mem[d], phase)
    requires Progress(e.rows.mem[d]) <= phase.Rank() + 1
    requires k == Duty({}, false, Some(d), Scope(e.rows.mem[d]), goal, phase != Prepared, None) && Kept(e.State(), k)
    requires e.up
    modifies e
    ensures At(e.State(), d, goal, phase)
    ensures OnlyRow(old(e.State()), e.State(), d) && e.rows.mem[d] == Journaling(old(e.rows.mem[d]), phase)
    ensures Scope(e.rows.mem[d]) == Scope(old(e.rows.mem[d]))
    ensures Spent(old(e.schedule), e.schedule, e.up, ok)
  {
    PhaseWriteKept(e.State(), k, d, phase);
    ok := e.Write(PhaseWritten(e.State(), d, phase), k);
    PhaseWrittenOnlyRow(old(e.State()), e.State(), d, phase);
  }

  predicate OnlyChunks(w: World, x: World) {
    && x.graph.mem == w.graph.mem && x.tracking.mem == w.tracking.mem
    && x.entities.mem == w.entities.mem && x.relations.mem == w.relations.mem && x.rows.mem == w.rows.mem
  }

  /** Step 7: the chunks, once no graph object refers to them. */
  method DeleteChunks(e: Engine, d: DocId, ghost goal: Option<Goal>) returns (ok: bool)
    requires At(e.State(), d, goal, DerivedCommitted)
    requires e.up
    modifies e
    ensures At(e.State(), d, goal, DerivedCommitted)
    ensures e.chunks.mem == old(e.chunks.mem) - Scope(old(e.rows.mem[d]))
    ensures ok ==> forall c :: c in Scope(old(e.rows.mem[d])) ==> c !in e.chunks.mem && c !in e.chunks.disk
    ensures OnlyChunks(old(e.State()), e.State())
    ensures Spent(old(e.schedule), e.schedule, e.up, ok)
  {
    ghost var k := PurgeDuty(d, goal, e.rows.mem[d]);
    ChunkDeleteKept(e.State(), k, d);
    if Scope(e.rows.mem[d]) == {} {
      return true;
    }
    ok := e.Write(e.State().(chunks := e.chunks.Delete(Scope(e.rows.mem[d]))), k);
    if ok {
      ok := e.FlushStores(Barrier(true, false, false), k);
    }
  }

  predicate OnlyAnchors(w: World, x: World, d: DocId) {
    && x.graph.mem == w.graph.mem && x.tracking.mem == w.tracking.mem && x.chunks.mem == w.chunks.mem
    && x.entities.mem - {d} == w.entities.mem - {d} && x.relations.mem - {d} == w.relations.mem - {d}
    && x.rows.mem == w.rows.mem
  }

  method DeleteEntityAnchors(e: Engine, d: DocId, ghost goal: Option<Goal>) returns (ok: bool)
    requires At(e.State(), d, goal, AnchorsPending)
    requires e.up
    modifies e
    ensures At(e.State(), d, goal, AnchorsPending)
    ensures d !in e.entities.mem && e.relations.mem == old(e.relations.mem)
    ensures OnlyAnchors(old(e.State()), e.State(), d)
    ensures Spent(old(e.schedule), e.schedule, e.up, ok)
  {
    ghost var k := PurgeDuty(d, goal, e.rows.mem[d]);
    AnchorDeleteKept(e.State(), EntityAnchorsGone(e.State(), d), k, d);
    ok := e.Write(EntityAnchorsGone(e.State(), d), k);
  }

  method DeleteRelationAnchors(e: Engine, d: DocId, ghost goal: Option<Goal>) returns (ok: bool)
    requires At(e.State(), d, goal, AnchorsPending)
    requires e.up
    modifies e
    ensures At(e.State(), d, goal, AnchorsPending)
    ensures d !in e.relations.mem && e.entities.mem == old(e.entities.mem)
    ensures OnlyAnchors(old(e.State()), e.State(), d)
    ensures Spent(old(e.schedule), e.schedule, e.up, ok)
  {
    ghost var k := PurgeDuty(d, goal, e.rows.mem[d]);
    AnchorDeleteKept(e.State(), RelationAnchorsGone(e.State(), d), k, d);
    ok := e.Write(RelationAnchorsGone(e.State(), d), k);
  }

  /** Step 8: the anchors, once the chunks are durably gone. */
  method DeleteAnchors(e: Engine, d: DocId, ghost goal: Option<Goal>) returns (ok: bool)
    requires At(e.State(), d, goal, AnchorsPending)
    requires e.up
    modifies e
    ensures At(e.State(), d, goal, AnchorsPending)
    ensures ok ==> d !in e.entities.mem && d !in e.entities.disk && d !in e.relations.mem && d !in e.relations.disk
    ensures OnlyAnchors(old(e.State()), e.State(), d)
    ensures Spent(old(e.schedule), e.schedule, e.up, ok)
  {
    ok := DeleteEntityAnchors(e, d, goal);
    if ok {
      ok := DeleteRelationAnchors(e, d, goal);
    }
    if ok {
      ok := e.FlushStores(Barrier(false, true, false), PurgeDuty(d, goal, e.rows.mem[d]));
    }
  }

  /** The goal, if one is tracked, is about this purge. */
  ghost predicate GoalMatches(w: World, d: DocId, goal: Option<Goal>)
    requires d in w.rows.mem
  {
    goal.Some? && !Live(w.rows.mem[d]) ==>
      && goal.value.gone == Scope(w.rows.mem[d])
      && (ResolveAt(w, d).Proven? ==> goal.value.candidates == CandidatesAt(w, d, ResolveAt(w, d).kind))
  }

  /** Steps 1-6 under a durable `prepared` journal. */
  method CleanDerived(e: Engine, d: DocId, candidates: set<Obj>, ghost goal: Option<Goal>)
      returns (ok: bool, ghost plan: Plan, ghost skipped: set<Obj>)
    requires At(e.State(), d, goal, Prepared) && GoalMatches(e.State(), d, goal) && ResolveAt(e.State(), d).Proven?
    requires candidates == CandidatesAt(e.State(), d, ResolveAt(e.State(), d).kind)
    requires e.up
    modifies e
    ensures Sound(e.State(), d, goal) && OnlyDerived(old(e.State()), e.State())
    ensures plan == PlanOf(old(e.State()), candidates, Scope(old(e.rows.mem[d])), BestEffort)
    ensures skipped <= e.given.fragile
    ensures ok ==> Clean(e.State(), Scope(old(e.rows.mem[d]))) && PassDone(old(e.State()), e.State(), plan, e.limits, skipped)
    ensures ok && goal.Some? ==> Converged(goal.value, e.State())
    ensures Spent(old(e.schedule), e.schedule, e.up, ok)
  {
    CandidatesCoverScope(e.State(), d);
    ok, plan, skipped := PurgeDerivedContributions(e, candidates, Scope(e.rows.mem[d]), BestEffort, PurgeDuty(d, goal, e.rows.mem[d]));
  }

  lemma PlanReadsMemory(w: World, x: World, candidates: set<Obj>, gone: set<SourceId>, policy: Policy)
    requires x.graph.mem == w.graph.mem && x.tracking.mem == w.tracking.mem
    ensures PlanOf(x, candidates, gone, policy) == PlanOf(w, candidates, gone, policy)
    ensures Pruned(x, PlanOf(x, candidates, gone, policy)).graph.mem == Pruned(w, PlanOf(w, candidates, gone, policy)).graph.mem
    ensures Pruned(x, PlanOf(x, candidates, gone, policy)).tracking.mem == Pruned(w, PlanOf(w, candidates, gone, policy)).tracking.mem
  {
    forall o
      ensures Drops(x, o, gone, policy) == Drops(w, o, gone, policy)
      ensures Rebuilds(x, o, gone, policy) == Rebuilds(w, o, gone, policy)
      ensures Rebuilds(x, o, gone, policy) ==> VerdictOn(x, o, gone, policy) == VerdictOn(w, o, gone, policy)
    {
    }
    assert Records(PlanOf(x, candidates, gone, policy), w, candidates, gone, policy);
    RecordedIsPlan(PlanOf(x, candidates, gone, policy), w, candidates, gone, policy);
  }

  /** What the derived pass of a purge of `d` plans, whether or not it is journaled yet. */
  ghost function PurgePlan(w: World, d: DocId): Plan
    requires d in w.rows.mem && ResolveAt(w, d).Proven?
  {
    PlanOf(w, CandidatesAt(w, d, ResolveAt(w, d).kind), Scope(w.rows.mem[d]), BestEffort)
  }

  /** The journal entry that precedes the first destructive write. */
  method Prepare(e: Engine, d: DocId, ghost goal: Option<Goal>) returns (ok: bool)
    requires Sound(e.State(), d, goal) && GoalMatches(e.State(), d, goal)
    requires ResolveAt(e.State(), d).Proven? && ResolveAt(e.State(), d).phase == None
    requires e.up
    modifies e
    ensures At(e.State(), d, goal, Prepared) && OnlyRow(old(e.State()), e.State(), d)
    ensures ResolveAt(e.State(), d) == ResolveAt(old(e.State()), d).(phase := Some(Prepared))
    ensures forall kind :: CandidatesAt(e.State(), d, kind) == CandidatesAt(old(e.State()), d, kind)
    ensures Scope(e.rows.mem[d]) == Scope(old(e.rows.mem[d]))
    ensures Spent(old(e.schedule), e.schedule, e.up, ok)
  {
    AnchorsAreSettled(e.State(), PurgeDuty(d, goal, e.rows.mem[d]), d);
    ProvenMayRecord(e.State(), d);
    ok := WritePhase(e, d, Prepared, goal, PurgeDuty(d, goal, e.rows.mem[d]));
    PreparedResolves(old(e.State()), e.State(), d);
  }

  method CommitDerived(e: Engine, d: DocId, ghost goal: Option<Goal>) returns (ok: bool, ghost skipped: set<Obj>)
    requires At(e.State(), d, goal, Prepared) && GoalMatches(e.State(), d, goal) && ResolveAt(e.State(), d).Proven?
    requires e.up
    modifies e
    ensures Sound(e.State(), d, goal) && Advanced(old(e.State()), e.State(), d)
    ensures OnlyDerived(old(e.State()).(rows := e.rows), e.State())
    ensures ok ==> At(e.State(), d, goal, DerivedCommitted)
    ensures skipped <= e.given.fragile
    ensures ok ==> PassDone(old(e.State()), e.State(), PurgePlan(old(e.State()), d), e.limits, skipped)
    ensures Spent(old(e.schedule), e.schedule, e.up, ok)
  {
    var candidates := CandidatesAt(e.State(), d, ResolveAt(e.State(), d).kind);
    ghost var plan;
    ok, plan, skipped := CleanDerived(e, d, candidates, goal);
    if ok {
      ok := WritePhase(e, d, DerivedCommitted, goal, Duty({}, false, Some(d), Scope(e.rows.mem[d]), goal, true, None));
    }
  }

  method CommitChunks(e: Engine, d: DocId, ghost goal: Option<Goal>) returns (ok: bool)
    requires At(e.State(), d, goal, DerivedCommitted)
    requires e.up
    modifies e
    ensures Sound(e.State(), d, goal) && Advanced(old(e.State()), e.State(), d)
    ensures OnlyChunks(old(e.State()).(rows := e.rows), e.State())
    ensures e.chunks.mem == old(e.chunks.mem) - Scope(old(e.rows.mem[d]))
    ensures ok ==> At(e.State(), d, goal, AnchorsPending)
    ensures Spent(old(e.schedule), e.schedule, e.up, ok)
  {
    ok := DeleteChunks(e, d, goal);
    if ok {
      PhaseIsLowerBound(e.State(), {}, d, Mem);
      ok := WritePhase(e, d, AnchorsPending, goal, PurgeDuty(d, goal, e.rows.mem[d]));
    }
  }

  method CommitAnchors(e: Engine, d: DocId, ghost goal: Option<Goal>) returns (ok: bool)
    requires At(e.State(), d, goal, AnchorsPending)
    requires e.up
    modifies e
    ensures Sound(e.State(), d, goal) && Advanced(old(e.State()), e.State(), d)
    ensures OnlyAnchors(old(e.State()).(rows := e.rows), e.State(), d)
    ensures ok ==> At(e.State(), d, goal, Completed)
    ensures Spent(old(e.schedule), e.schedule, e.up, ok)
  {
    ok := DeleteAnchors(e, d, goal);
    if ok {
      PhaseIsLowerBound(e.State(), {}, d, Mem);
      ok := WritePhase(e, d, Completed, goal, PurgeDuty(d, goal, e.rows.mem[d]));
    }
  }

  /** Other documents' anchors and chunks outside the scope are as they were in memory. */
  predicate Elsewhere(w: World, x: World, d: DocId, gone: set<SourceId>) {
    && x.chunks.mem - gone == w.chunks.mem - gone
    && x.entities.mem - {d} == w.entities.mem - {d} && x.relations.mem - {d} == w.relations.mem - {d}
    && Advanced(w, x, d)
  }

  /** The graph and the tracking rows in memory are what the plan leaves of `w`. */
  ghost predicate DerivedAs(w: World, x: World, plan: Plan, limits: Limits, skipped: set<Obj>) {
    && skipped <= w.given.fragile
    && x.graph.mem == Rebuilt(Pruned(w, plan).graph.mem, plan, plan.rebuild.Keys - skipped, limits)
    && x.tracking.mem == Pruned(w, plan).tracking.mem
  }

  /** What the derived pass of a purge of `d` is for, object by object. */
  ghost predicate PurgeLeaves(w: World, x: World, d: DocId, limits: Limits, skipped: set<Obj>)
    requires d in w.rows.mem && ResolveAt(w, d).Proven?
  {
    forall o ::
      LeftAs(w, x, CandidatesAt(w, d, ResolveAt(w, d).kind), Scope(w.rows.mem[d]), BestEffort, limits, skipped, o)
  }

  lemma Skippables(w: World, x: World, plan: Plan, limits: Limits, skipped: set<Obj>)
    requires DerivedAs(w, x, plan, limits, skipped)
    ensures skipped <= w.given.fragile
  {
  }

  lemma DerivedLeaves(w: World, x: World, d: DocId, limits: Limits, skipped: set<Obj>)
    requires d in w.rows.mem && ResolveAt(w, d).Proven? && DerivedAs(w, x, PurgePlan(w, d), limits, skipped)
    ensures PurgeLeaves(w, x, d, limits, skipped)
  {
    forall o
      ensures LeftAs(w, x, CandidatesAt(w, d, ResolveAt(w, d).kind), Scope(w.rows.mem[d]), BestEffort, limits, skipped, o)
    {
      PassLeaves(w, x, CandidatesAt(w, d, ResolveAt(w, d).kind), Scope(w.rows.mem[d]), BestEffort, limits, skipped, o);
    }
  }

  /** From no journal, or a `prepared` one, to `derived_committed`. */
  method ReachDerived(e: Engine, d: DocId, ghost goal: Option<Goal>) returns (ok: bool, ghost skipped: set<Obj>)
    requires Sound(e.State(), d, goal) && GoalMatches(e.State(), d, goal)
    requires ResolveAt(e.State(), d).Proven?
    requires ResolveAt(e.State(), d).phase == None || ResolveAt(e.State(), d).phase == Some(Prepared)
    requires e.up
    modifies e
    ensures Sound(e.State(), d, goal) && Advanced(old(e.State()), e.State(), d) && Progress(e.rows.mem[d]) >= 1
    ensures OnlyDerived(old(e.State()).(rows := e.rows), e.State())
    ensures ok ==> At(e.State(), d, goal, DerivedCommitted)
    ensures ok ==> DerivedAs(old(e.State()), e.State(), PurgePlan(old(e.State()), d), e.limits, skipped)
    ensures Spent(old(e.schedule), e.schedule, e.up, ok)
  {
    hide Kept, Pruned, Rebuilt, Records;
    ghost var w := e.State();
    ok, skipped := true, {};
    if ResolveAt(e.State(), d).phase == None {
      ok := Prepare(e, d, goal);
      PlanReadsMemory(w, e.State(), CandidatesAt(w, d, ResolveAt(w, d).kind), Scope(w.rows.mem[d]), BestEffort);
    }
    if ok {
      ok, skipped := CommitDerived(e, d, goal);
    }
  }

  /** From `derived_committed` or `anchors_pending` to `completed`. */
  method FinishPurge(e: Engine, d: DocId, ghost goal: Option<Goal>) returns (ok: bool)
    requires At(e.State(), d, goal, DerivedCommitted) || At(e.State(), d, goal, AnchorsPending)
    requires e.up
    modifies e
    ensures Sound(e.State(), d, goal) && Elsewhere(old(e.State()), e.State(), d, Scope(old(e.rows.mem[d])))
    ensures e.graph.mem == old(e.graph.mem) && e.tracking.mem == old(e.tracking.mem)
    ensures ok ==> At(e.State(), d, goal, Completed)
    ensures Spent(old(e.schedule), e.schedule, e.up, ok)
  {
    hide Kept;
    ok := true;
    if InPhase(e.State(), d, DerivedCommitted) {
      ok := CommitChunks(e, d, goal);
    }
    if ok {
      ok := CommitAnchors(e, d, goal);
    }
  }

  lemma CompletedWork(w: World, d: DocId, goal: Option<Goal>)
    requires At(w, d, goal, Completed)
    ensures WorkDone(w, d, Scope(w.rows.mem[d]), Completed)
  {
    PhaseIsLowerBound(w, {}, d, Mem);
  }

  /** From wherever the journal stands to `completed`. */
  method ResumePurge(e: Engine, d: DocId, ghost goal: Option<Goal>) returns (ok: bool, ghost skipped: set<Obj>)
    requires Sound(e.State(), d, goal) && GoalMatches(e.State(), d, goal)
    requires ResolveAt(e.State(), d).Proven? && ResolveAt(e.State(), d).phase != Some(Completed)
    requires e.up
    modifies e
    ensures Sound(e.State(), d, goal) && Elsewhere(old(e.State()), e.State(), d, Scope(old(e.rows.mem[d])))
    ensures ok ==> At(e.State(), d, goal, Completed)
    ensures ok && old(Progress(e.rows.mem[d])) < 2 ==>
      DerivedAs(old(e.State()), e.State(), PurgePlan(old(e.State()), d), e.limits, skipped)
    ensures Progress(e.rows.mem[d]) >= 1
    ensures Progress(e.rows.mem[d]) < 2 ==> OnlyDerived(old(e.State()).(rows := e.rows), e.State())
    ensures Spent(old(e.schedule), e.schedule, e.up, ok)
  {
    hide Kept, PurgePlan, WorkDone, Clean, Pruned, Rebuilt;
    ok, skipped := true, {};
    var phase := ResolveAt(e.State(), d).phase;
    if phase == None || phase == Some(Prepared) {
      ok, skipped := ReachDerived(e, d, goal);
    }
    if ok {
      ok := FinishPurge(e, d, goal);
    }
  }

  /** One attempt at a whole-document purge.

    It is refused, or conflicts, before any store is written and only for the reasons of `Resolve`.
    Otherwise it resumes where the journal stands (leaving alone what the rebuild could not rebuild, which
    the document's duty has made harmless); if it runs to `completed`, nothing in the graph
    refers to the document's chunks, and the chunks and the anchors are durably gone.  However it
    ends, the invariant holds, the journal has not moved back, and nothing else was touched. */
  method PurgeDocument(e: Engine, d: DocId, ghost goal: Option<Goal>) returns (out: Outcome, ghost skipped: set<Obj>)
    requires Sound(e.State(), d, goal) && GoalMatches(e.State(), d, goal)
    requires e.up
    modifies e
    ensures Sound(e.State(), d, goal) && Elsewhere(old(e.State()), e.State(), d, Scope(old(e.rows.mem[d])))
    ensures out.PurgeConflict? <==> ResolveAt(old(e.State()), d).Conflict?
    ensures out.PurgeRefused? <==> ResolveAt(old(e.State()), d).Refused?
    ensures out.PurgeRefused? ==> out.reason == ResolveAt(old(e.State()), d).reason
    ensures out.PurgeConflict? || out.PurgeRefused? ==> e.State() == old(e.State())
    ensures out.Done? ==>
      && At(e.State(), d, goal, Completed)
      && WorkDone(e.State(), d, Scope(old(e.rows.mem[d])), Completed)
    ensures out.Done? && old(Progress(e.rows.mem[d])) < 2 ==>
      DerivedAs(old(e.State()), e.State(), PurgePlan(old(e.State()), d), e.limits, skipped)
    ensures out.Done? && old(Progress(e.rows.mem[d])) < 2 ==>
      skipped <= e.given.fragile && PurgeLeaves(old(e.State()), e.State(), d, e.limits, skipped)
    ensures ResolveAt(old(e.State()), d).Proven? ==> Progress(e.rows.mem[d]) >= 1
    ensures Progress(e.rows.mem[d]) < 2 ==> OnlyDerived(old(e.State()).(rows := e.rows), e.State())
    ensures Spent(old(e.schedule), e.schedule, e.up, !out.Interrupted?)
  {
    hide Kept, PurgePlan, DerivedAs, PurgeLeaves;
    skipped := {};
    match ResolveAt(e.State(), d)
    case Conflict => return PurgeConflict, {};
    case Refused(reason) => return PurgeRefused(reason), {};
    case Proven(kind, phase) =>
      if phase == Some(Completed) {
        CompletedWork(e.State(), d, goal);
        return Done, {};
      }
      var ok;
      ok, skipped := ResumePurge(e, d, goal);
      if !ok {
        return Interrupted, skipped;
      }
      CompletedWork(e.State(), d, goal);
      if Progress(old(e.rows.mem[d])) < 2 {
        Skippables(old(e.State()), e.State(), PurgePlan(old(e.State()), d), e.limits, skipped);
        DerivedLeaves(old(e.State()), e.State(), d, e.limits, skipped);
      }
      return Done, skipped;
  }
}
