/** One small state per failure: what the code is promised holds, what its documentation promises does not.
    Unless said otherwise nothing is pending: both views agree. */
module Witnesses {
  import opened Stores
  import opened KnowledgeGraph
  import opened Classification
  import opened DerivedPass
  import opened RecoveryProof
  import opened PurgeDerived
  import opened PurgeSteps
  import opened CustomChunkPlan
  import opened CustomChunkRow
  import opened CustomChunkSteps
  import opened Hazards

  const OURS: SourceId := Chunk("ours", Serial(0))
  const THEIRS: SourceId := Chunk("theirs", Serial(0))
  const STAGED: SourceId := Chunk("ours", Text("text"))
  const ENTITY: Obj := Node("entity")
  const LIMITS: Limits := Limits(100, 100, false)

  function Fixed<K, V>(m: map<K, V>): Store<K, V> {
    Store(m, m)
  }

  function Processed1(chunk: SourceId): Row {
    Row(Processed, [chunk], 1, "", None, GraphMutationStarted, None, None, false)
  }

  /** Two processed documents with one chunk each, both anchored to the entity. */
  function Shared(given: Given, sources: seq<SourceId>, tracked: seq<SourceId>): World {
    World(given, Fixed(map[ENTITY := sources]), Fixed(map[ENTITY := tracked]), Fixed(map[OURS := "a", THEIRS := "b"]),
          Fixed(map["ours" := {"entity"}, "theirs" := {"entity"}]), Fixed(map["ours" := {}, "theirs" := {}]),
          Fixed(map["ours" := Processed1(OURS), "theirs" := Processed1(THEIRS)]))
  }

  lemma SharedIsSound(given: Given, sources: seq<SourceId>, tracked: seq<SourceId>)
    requires given.legacy == {}
    requires forall c :: c in sources || c in tracked ==> c == OURS || c == THEIRS
    ensures
      var w := Shared(given, sources, tracked);
      && Inv(w, {}) && ResolveAt(w, "ours") == Proven(Anchors, None)
      && CandidatesAt(w, "ours", Anchors) == {ENTITY} && Scope(w.rows.mem["ours"]) == {OURS}
  {
    var w := Shared(given, sources, tracked);
    SharedRowsOk(given, sources, tracked);
    ProcessedScope(OURS);
    hide RowOk;
    forall o, c | Evidence(w, {}, o, c)
      ensures Backed(w, o, c)
    {
      assert o == ENTITY && (c == OURS || c == THEIRS);
    }
  }

  lemma ProcessedScope(c: SourceId)
    ensures Scope(Processed1(c)) == {c}
  {
    assert InScope(Processed1(c), c);
  }

  lemma SharedRowsOk(given: Given, sources: seq<SourceId>, tracked: seq<SourceId>)
    requires given.legacy == {}
    ensures RowsOk(Shared(given, sources, tracked))
  {
    var w := Shared(given, sources, tracked);
    assert RowOk(w, "ours", Processed1(OURS));
    assert RowOk(w, "theirs", Processed1(THEIRS));
  }

  /** Ownership: the tracking row has lost the other document's chunk, the graph list still has it.
      Deleting our document deletes the entity, and their evidence with it. */
  lemma OwnershipLosesEvidence()
    ensures
      var w := Shared(Given({}, {}), [OURS, THEIRS], [OURS]);
      var plan := PlanOf(w, {ENTITY}, {OURS}, BestEffort);
      && Inv(w, {}) && ResolveAt(w, "ours").Proven?
      && Lists(w.graph.mem, ENTITY, THEIRS) && ENTITY !in Pruned(w, plan).graph.mem
  {
    var w := Shared(Given({}, {}), [OURS, THEIRS], [OURS]);
    SharedIsSound(Given({}, {}), [OURS, THEIRS], [OURS]);
    DropLosesEvidenceIff([OURS], [OURS, THEIRS], {OURS}, BestEffort);
    assert THEIRS in [OURS, THEIRS] && THEIRS !in {OURS};
    PrunedGraph(w, PlanOf(w, {ENTITY}, {OURS}, BestEffort), ENTITY);
  }

  /** The entity is shared, and must be rebuilt from the other document's chunk. */
  lemma SharedIsRebuilt()
    ensures
      var w := Shared(Given({}, {ENTITY}), [OURS, THEIRS], [OURS, THEIRS]);
      var plan := PlanOf(w, {ENTITY}, {OURS}, BestEffort);
      plan == Plan({}, map[ENTITY := [THEIRS]])
  {
    var ids := [OURS, THEIRS];
    ClassifyIsExact(ids, ids, {OURS}, BestEffort);
    assert ids[1..] == [THEIRS] && [THEIRS][1..] == [];
    assert Subtract([THEIRS], {OURS}) == [THEIRS];
    assert Subtract(ids, {OURS}) == [THEIRS];
    assert OURS in ids && THEIRS in ids && THEIRS !in {OURS};
  }

  lemma PrunedOfNothing(w: World, plan: Plan)
    requires plan.drop == {}
    ensures Pruned(w, plan).graph.mem == w.graph.mem
    ensures Pruned(w, plan).tracking.mem == w.tracking.mem + TrackingUpdates(plan)
  {
    assert DroppedRelations(plan) == {} && DroppedEntities(plan) == {};
    assert forall m: map<Obj, seq<SourceId>> :: m - {} == m;
    assert IncidentRelations(w.graph.mem, {}) == {};
  }

  lemma SharedIsPruned()
    ensures
      var w := Pruned(Shared(Given({}, {ENTITY}), [OURS, THEIRS], [OURS, THEIRS]), Plan({}, map[ENTITY := [THEIRS]]));
      w.graph.mem == map[ENTITY := [OURS, THEIRS]] && w.tracking.mem == map[ENTITY := [THEIRS]]
  {
    var w := Shared(Given({}, {ENTITY}), [OURS, THEIRS], [OURS, THEIRS]);
    var plan := Plan({}, map[ENTITY := [THEIRS]]);
    PrunedOfNothing(w, plan);
    hide Pruned;
    assert Evidential(ENTITY, [THEIRS]) == [THEIRS];
    assert TrackingUpdates(plan) == map[ENTITY := [THEIRS]];
    assert w.tracking.mem + map[ENTITY := [THEIRS]] == map[ENTITY := [THEIRS]];
  }

  /** The state a pass leaves that skipped it. */
  lemma SkippingPass()
    ensures
      var w := Shared(Given({}, {ENTITY}), [OURS, THEIRS], [OURS, THEIRS]);
      PassDone(w, Shared(Given({}, {ENTITY}), [OURS, THEIRS], [THEIRS]), PlanOf(w, {ENTITY}, {OURS}, BestEffort), LIMITS, {ENTITY})
  {
    SharedIsRebuilt();
    SharedIsPruned();
    hide PlanOf, Pruned;
    assert map[ENTITY := [THEIRS]].Keys - {ENTITY} == {};
  }

  /** A skipped rebuild: no extraction of the other document is cached.  The purge is proven, its pass runs
      to the end without rebuilding the entity, and the entity still lists the purged chunk; the phase that
      is journaled next breaks the invariant. */
  lemma SkippedRebuildBreaksTheJournal()
    ensures
      var w := Shared(Given({}, {ENTITY}), [OURS, THEIRS], [OURS, THEIRS]);
      var x := Shared(Given({}, {ENTITY}), [OURS, THEIRS], [THEIRS]);
      && Inv(w, {}) && ResolveAt(w, "ours").Proven? && MaySkip(BestEffort, w.given, {ENTITY})
      && PassDone(w, x, PlanOf(w, {ENTITY}, {OURS}, BestEffort), LIMITS, {ENTITY})
      && !Clean(x, {OURS}) && Inv(x, {}) && !Inv(PhaseWritten(x, "ours", DerivedCommitted), {})
  {
    var given := Given({}, {ENTITY});
    var w := Shared(given, [OURS, THEIRS], [OURS, THEIRS]);
    var x := Shared(given, [OURS, THEIRS], [THEIRS]);
    SharedIsSound(given, [OURS, THEIRS], [OURS, THEIRS]);
    SharedIsSound(given, [OURS, THEIRS], [THEIRS]);
    SkippingPass();
    hide Inv, PassDone, PlanOf, ResolveAt;
    assert OURS in [OURS, THEIRS];
    assert Evidence(x, {}, ENTITY, OURS);
    CommittingIsSafeIffClean(x, "ours");
  }

  // ----- Inserts -----

  function Journal(names: set<Obj>): CustomJournal {
    CustomJournal(Create, [STAGED], [STAGED], names, None, None)
  }

  /** A created document whose one chunk is staged and stored. */
  function Creating(purge: Option<PurgeJournal>, tracking: map<Obj, seq<SourceId>>): World {
    var row := Row(Processing, [], 0, "", None, Unknown, Some(Journal({ENTITY})), purge, false);
    World(Given({}, {}), Fixed(map[]), Fixed(tracking), Fixed(map[STAGED := "text"]), Fixed(map[]), Fixed(map[]),
          Fixed(map["ours" := row]))
  }

  lemma CreatingIsSound(purge: Option<PurgeJournal>, tracking: map<Obj, seq<SourceId>>)
    requires purge.Some? ==> purge.value == PurgeJournal({STAGED}, DerivedCommitted)
    ensures Inv(Creating(purge, tracking), {})
  {
    var w := Creating(purge, tracking);
    var row := w.rows.mem["ours"];
    assert STAGED in row.custom.value.staged;
    assert Scope(row) == {STAGED};
    forall o, c
      ensures !Evidence(w, {}, o, c)
    {
    }
  }

  /** Resuming an insert over the journal of a crashed purge: the merge brings back what the journal says
      is gone. */
  lemma MergeOverPurgeBreaks()
    ensures
      var w := Creating(Some(PurgeJournal({STAGED}, DerivedCommitted)), map[]);
      && Inv(w, {ENTITY}) && Admit(Get(w.rows.mem, "ours"), w.chunks.mem, [STAGED], true).Admitted?
      && !Inv(w.(graph := w.graph.Put(ENTITY, [STAGED])), {ENTITY})
  {
    var w := Creating(Some(PurgeJournal({STAGED}, DerivedCommitted)), map[]);
    CreatingIsSound(Some(PurgeJournal({STAGED}, DerivedCommitted)), map[]);
    forall o, c | Evidence(w, {ENTITY}, o, c)
      ensures Evidence(w, {}, o, c)
    {
    }
    MergeIsSafeIffUnretired(w, "ours", Journal({ENTITY}), ENTITY, STAGED);
  }

  /** A stale tracking row: a deleted document's chunk is still on the row of an entity that is gone from
      the graph.  Merging the entity again gives it that chunk. */
  lemma StaleRowIsRevived()
    ensures
      var w := Creating(None, map[ENTITY := [THEIRS]]);
      var x := GraphMerged(TrackingMerged(w, ENTITY, [STAGED]), LIMITS, ENTITY, [THEIRS, STAGED]);
      && Inv(w, {}) && !Inv(w, {ENTITY})
      && MergedSources(w.tracking.mem, w.graph.mem, ENTITY, [STAGED]) == [THEIRS, STAGED]
      && Lists(x.graph.mem, ENTITY, THEIRS) && !Inv(x, {})
  {
    var w := Creating(None, map[ENTITY := [THEIRS]]);
    var x := GraphMerged(TrackingMerged(w, ENTITY, [STAGED]), LIMITS, ENTITY, [THEIRS, STAGED]);
    CreatingIsSound(None, map[ENTITY := [THEIRS]]);
    assert Evidence(w, {ENTITY}, ENTITY, THEIRS) && !Backed(w, ENTITY, THEIRS);
    assert Evidential(ENTITY, [THEIRS]) == [THEIRS];
    assert [STAGED][..0] == [] && Union([THEIRS], []) == [THEIRS];
    assert Union([THEIRS], [STAGED]) == [THEIRS, STAGED];
    assert THEIRS in x.graph.mem[ENTITY];
    assert Evidence(x, {}, ENTITY, THEIRS) && !Backed(x, ENTITY, THEIRS);
  }

  // ----- Documents without anchors -----

  /** A document processed before anchors existed. */
  function Legacy(entities: map<DocId, set<string>>, relations: map<DocId, set<(string, string)>>): World {
    World(Given({"ours"}, {}), Fixed(map[ENTITY := [OURS]]), Fixed(map[ENTITY := [OURS]]), Fixed(map[OURS := "a"]),
          Fixed(entities), Fixed(relations), Fixed(map["ours" := Processed1(OURS)]))
  }

  lemma LegacyIsSound(entities: map<DocId, set<string>>, relations: map<DocId, set<(string, string)>>)
    requires "ours" in entities ==> "entity" in entities["ours"]
    ensures Inv(Legacy(entities, relations), {}) && Scope(Processed1(OURS)) == {OURS}
  {
    var w := Legacy(entities, relations);
    assert InScope(w.rows.mem["ours"], OURS);
    assert w.rows.mem["ours"] == Processed1(OURS);
    forall o, c | Evidence(w, {}, o, c)
      ensures Backed(w, o, c)
    {
      assert o == ENTITY && c == OURS;
    }
  }

  /** The first patch of such a document writes anchors that do not name the entity.  They pass for a
      proof: the deletion that was refused before is granted, and does not look at the entity. */
  lemma FirstAnchorsHideTheEntity()
    ensures
      var w := Legacy(map[], map[]);
      var x := RelationAnchorsSet(EntityAnchorsSet(w, "ours", {"other"}), "ours", {});
      && Inv(w, {}) && ResolveAt(w, "ours").Refused?
      && !Inv(EntityAnchorsSet(w, "ours", {"other"}), {})
      && ResolveAt(x, "ours") == Proven(Anchors, None)
      && Evidence(x, {}, ENTITY, OURS) && ENTITY !in CandidatesAt(x, "ours", Anchors)
  {
    var w := Legacy(map[], map[]);
    LegacyIsSound(map[], map[]);
    assert InScope(w.rows.mem["ours"], OURS);
    FirstAnchorsAreSafeIffComplete(w, {}, "ours", {"other"});
    assert Evidence(w, {}, Node("entity"), OURS) && "entity" !in {"other"};
  }

  /** The migration writes no relation row for a document that contributed no relation: with everything it
      contributed named, its deletion is still refused. */
  lemma MigratedEntityOnlyIsRefused()
    ensures
      var w := Legacy(map["ours" := {"entity"}], map[]);
      Inv(w, {}) && ResolveAt(w, "ours") == Refused(MissingAnchorRows)
  {
    LegacyIsSound(map["ours" := {"entity"}], map[]);
  }

  // ----- Rollback and the second pass -----

  /** A deletion crashed after journaling `prepared`; the sweep runs; the retry conflicts. */
  lemma SweepThenRetryConflicts()
    ensures
      var j := CustomJournal(Patch, [STAGED], [STAGED], {ENTITY}, None, None);
      var row := Row(Failed, [OURS], 1, "", None, GraphMutationStarted, Some(j), Some(PurgeJournal({OURS, STAGED}, Prepared)), false);
      var next := RolledBack(row);
      && Resolve(row, Some({"entity"}), Some({}), Scope(row)) == Proven(Anchors, Some(Prepared))
      && Resolve(next, Some({"entity"}), Some({}), Scope(next)) == Conflict
  {
    var j := CustomJournal(Patch, [STAGED], [STAGED], {ENTITY}, None, None);
    var row := Row(Failed, [OURS], 1, "", None, GraphMutationStarted, Some(j), Some(PurgeJournal({OURS, STAGED}, Prepared)), false);
    var next := RolledBack(row);
    assert InScope(row, STAGED) && InScope(row, OURS) && !InScope(next, STAGED);
    forall c
      ensures c in Scope(row) <==> c in {OURS, STAGED}
    {
      assert InScope(row, c) <==> c == OURS || c == STAGED;
    }
    assert Scope(row) == {OURS, STAGED} && STAGED in Scope(row) && STAGED !in Scope(next);
  }

  /** A relation owned by the purged chunk and a placeholder is rebuilt with an empty row, and dropped by
      a second pass: one pass was not enough. */
  lemma PlaceholderNeedsASecondPass()
    ensures
      var o := Edge("a", "b");
      var verdict := Classify([OURS, Placeholder("UNKNOWN")], [OURS], {OURS}, BestEffort);
      && verdict == Rebuild([Placeholder("UNKNOWN")]) && Evidential(o, verdict.remaining) == []
      && Classify([], LIMITS.Cut(o, []), {OURS}, BestEffort) == Drop
  {
    var ids := [OURS, Placeholder("UNKNOWN")];
    assert ids[1..] == [Placeholder("UNKNOWN")] && ids[1..][1..] == [];
    assert Subtract(ids[1..], {OURS}) == [Placeholder("UNKNOWN")];
    assert Evidential(Edge("a", "b"), [Placeholder("UNKNOWN")]) == [];
  }

  /** A relation's older source is handed to an endpoint that the source's document never named. */
  lemma InheritedSourceIsUnnamed()
    ensures
      var row := Processed1(OURS);
      var w := World(
        Given({}, {}), Fixed(map[Edge("a", "b") := [OURS]]), Fixed(map[]), Fixed(map[OURS := "a"]),
        Fixed(map["ours" := {}]), Fixed(map["ours" := {("a", "b")}]), Fixed(map["ours" := row]));
      && Inv(w, {Node("a")}) && Evidence(w, {Node("a")}, Edge("a", "b"), OURS)
      && !Inv(w.(tracking := w.tracking.Put(Node("a"), [OURS])), {Node("a")})
  {
    var row := Processed1(OURS);
    var w := World(
      Given({}, {}), Fixed(map[Edge("a", "b") := [OURS]]), Fixed(map[]), Fixed(map[OURS := "a"]),
      Fixed(map["ours" := {}]), Fixed(map["ours" := {("a", "b")}]), Fixed(map["ours" := row]));
    assert InScope(row, OURS);
    forall o, c | Evidence(w, {Node("a")}, o, c)
      ensures Backed(w, o, c)
    {
      assert o == Edge("a", "b") && c == OURS;
    }
    InheritingIsSafeIffNamed(w, {Node("a")}, Edge("a", "b"), Node("a"), [OURS]);
    assert OURS in [OURS] && !NamedAlike(w, Node("a"), OURS);
  }
}
