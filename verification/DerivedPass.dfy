/** The buffered writes of one derived pass, as functions of the stores. */
module DerivedPass {
  import opened Sequences
  import opened Stores
  import opened KnowledgeGraph
  import opened Classification

  /** What the analysis decides: objects without a surviving owner go, the others that a purged
      chunk touches are rebuilt from what remains. */
  datatype Plan = Plan(drop: set<Obj>, rebuild: map<Obj, seq<SourceId>>)

  function TrackedIn(m: map<Obj, seq<SourceId>>, o: Obj): seq<SourceId> {
    if o in m then m[o] else []
  }

  function VerdictOn(w: World, o: Obj, gone: set<SourceId>, policy: Policy): Verdict
    requires o in w.graph.mem
  {
    Classify(TrackedIn(w.tracking.mem, o), w.graph.mem[o], gone, policy)
  }

  predicate Drops(w: World, o: Obj, gone: set<SourceId>, policy: Policy) {
    o in w.graph.mem && VerdictOn(w, o, gone, policy).Drop?
  }

  predicate Rebuilds(w: World, o: Obj, gone: set<SourceId>, policy: Policy) {
    o in w.graph.mem && VerdictOn(w, o, gone, policy).Rebuild?
  }

  function PlanOf(w: World, candidates: set<Obj>, gone: set<SourceId>, policy: Policy): Plan {
    Plan(
      set o | o in candidates && Drops(w, o, gone, policy),
      map o | o in candidates && Rebuilds(w, o, gone, policy) :: VerdictOn(w, o, gone, policy).remaining)
  }

  function TrackingUpdates(plan: Plan): map<Obj, seq<SourceId>> {
    map o | o in plan.rebuild :: Evidential(o, plan.rebuild[o])
  }

  function DroppedRelations(plan: Plan): set<Obj> {
    set o | o in plan.drop && o.Edge?
  }

  function DroppedEntities(plan: Plan): set<Obj> {
    set o | o in plan.drop && o.Node?
  }

  predicate Incident(nodes: set<Obj>, o: Obj) {
    o.Edge? && (Node(o.src) in nodes || Node(o.tgt) in nodes)
  }

  /** The relations a node removal takes with it. */
  function IncidentRelations(graph: map<Obj, seq<SourceId>>, nodes: set<Obj>): set<Obj> {
    set o | o in graph && Incident(nodes, o)
  }

  datatype Limits = Limits(entity: nat, relation: nat, keepNewest: bool) {
    function Cut(o: Obj, ids: seq<SourceId>): (r: seq<SourceId>)
      ensures LimitedTo(r, ids, if o.Node? then entity else relation, keepNewest)
      ensures forall c :: c in r ==> c in ids
    {
      Limit(ids, if o.Node? then entity else relation, keepNewest)
    }
  }

  // ----- What a completed pass is for, object by object -----

  /** The chunks that own an object: its tracking row, or the graph's list when that row is absent or
      empty. */
  ghost predicate IsOwner(w: World, o: Obj, c: SourceId) {
    if o in w.tracking.mem && w.tracking.mem[o] != [] then c in w.tracking.mem[o] else Lists(w.graph.mem, o, c)
  }

  /** A candidate without a surviving owner. */
  ghost predicate Vanishes(w: World, candidates: set<Obj>, gone: set<SourceId>, o: Obj) {
    o in candidates && o in w.graph.mem && forall c :: IsOwner(w, o, c) ==> c in gone
  }

  /** A relation that a vanishing endpoint takes along. */
  ghost predicate TakenAlong(w: World, candidates: set<Obj>, gone: set<SourceId>, o: Obj) {
    o.Edge? && (Vanishes(w, candidates, gone, Node(o.src)) || Vanishes(w, candidates, gone, Node(o.tgt)))
  }

  /** A candidate that a purged chunk touches, or any under the rollback policy. */
  ghost predicate Touched(w: World, candidates: set<Obj>, gone: set<SourceId>, policy: Policy, o: Obj) {
    && o in candidates && o in w.graph.mem
    && (policy == RollbackPolicy || exists c :: c in gone && (IsOwner(w, o, c) || Lists(w.graph.mem, o, c)))
  }

  /** What a completed pass leaves of `o`: nothing, if no owner survives or an endpoint goes; if a purged
      chunk touched it, a tracking row with exactly the surviving owners in their order, and a graph list
      with as many of them as the limit allows (the old one, if the rebuild was skipped); else what was
      there. */
  ghost predicate LeftAs(w0: World, w: World, candidates: set<Obj>, gone: set<SourceId>, policy: Policy,
      limits: Limits, skipped: set<Obj>, o: Obj) {
    if o !in w0.graph.mem then
      o !in w.graph.mem && Get(w.tracking.mem, o) == Get(w0.tracking.mem, o)
    else if Vanishes(w0, candidates, gone, o) || TakenAlong(w0, candidates, gone, o) then
      o !in w.graph.mem && o !in w.tracking.mem
    else if Touched(w0, candidates, gone, policy, o) then
      && o in w.graph.mem && o in w.tracking.mem
      && Without(w.tracking.mem[o],
           if o in w0.tracking.mem && w0.tracking.mem[o] != [] then w0.tracking.mem[o] else w0.graph.mem[o],
           gone + NoEvidence(o))
      && (if o in skipped then w.graph.mem[o] == w0.graph.mem[o]
          else LimitedTo(w.graph.mem[o], w.tracking.mem[o], if o.Node? then limits.entity else limits.relation,
                 limits.keepNewest))
    else
      Get(w.graph.mem, o) == Get(w0.graph.mem, o) && Get(w.tracking.mem, o) == Get(w0.tracking.mem, o)
  }

  lemma OwnersAre(w: World, o: Obj)
    requires o in w.graph.mem
    ensures forall c :: IsOwner(w, o, c) <==> c in Owners(TrackedIn(w.tracking.mem, o), w.graph.mem[o])
  {
  }

  // ----- The writes, one await at a time -----

  function RemainingTracked(w: World, plan: Plan): World {
    w.(tracking := w.tracking.Upsert(TrackingUpdates(plan)))
  }

  function RelationsRemoved(w: World, plan: Plan): World {
    w.(graph := w.graph.Delete(DroppedRelations(plan)))
  }

  function RelationRowsRemoved(w: World, plan: Plan): World {
    w.(tracking := w.tracking.Delete(DroppedRelations(plan)))
  }

  function IncidentRowsRemoved(w: World, plan: Plan): World {
    w.(tracking := w.tracking.Delete(IncidentRelations(w.graph.mem, DroppedEntities(plan))))
  }

  function EntitiesRemoved(w: World, plan: Plan): World {
    w.(graph := w.graph.Delete(DroppedEntities(plan) + IncidentRelations(w.graph.mem, DroppedEntities(plan))))
  }

  function EntityRowsRemoved(w: World, plan: Plan): World {
    w.(tracking := w.tracking.Delete(DroppedEntities(plan)))
  }

  /** Everything before the first barrier. */
  function Pruned(w: World, plan: Plan): World {
    var a := RelationRowsRemoved(RelationsRemoved(RemainingTracked(w, plan), plan), plan);
    EntityRowsRemoved(EntitiesRemoved(IncidentRowsRemoved(a, plan), plan), plan)
  }

  /** Rebuilding one object; an object that is gone is not created. */
  function RebuildRow(w: World, plan: Plan, o: Obj): World
    requires o in plan.rebuild
  {
    if o in w.graph.mem then w.(tracking := w.tracking.Put(o, Evidential(o, plan.rebuild[o]))) else w
  }

  function RebuildObject(w: World, plan: Plan, limits: Limits, o: Obj): World
    requires o in plan.rebuild
  {
    if o in w.graph.mem then
      w.(graph := w.graph.Put(o, limits.Cut(o, Evidential(o, plan.rebuild[o]))))
    else w
  }
}
