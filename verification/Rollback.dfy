/** Rolling one failed custom-chunk operation back to the committed document. */
module Rollback {
  import opened Stores
  import opened KnowledgeGraph
  import opened InvariantSteps
  import opened Classification
  import opened CustomChunkRow
  import opened CustomChunkSteps
  import opened CustomChunks
  import opened DerivedPass
  import opened Convergence
  import opened StorageEngine
  import opened PurgeDerived

  const DUTY: Duty := Duty({}, false, None, {}, None, false, None)

  function StagedSet(j: CustomJournal): (r: set<SourceId>)
    ensures forall c :: c in r <==> c in j.staged
  {
    set c | c in j.staged
  }

  lemma SteadyIsKept(w: World)
    ensures Steady(w) <==> Kept(w, DUTY)
  {
  }

  /** A rollback on its way to a goal, if it has one. */
  ghost function RollbackDuty(goal: Option<Goal>): Duty {
    Duty({}, false, None, {}, goal, false, None)
  }

  /** The goal of rolling this operation back: its journaled objects, without its staged chunks. */
  ghost predicate GoalFor(goal: Option<Goal>, j: CustomJournal) {
    goal.Some? ==> goal.value.gone == StagedSet(j) && goal.value.candidates == j.names
  }

  ghost predicate Reached(goal: Option<Goal>, w: World) {
    goal.Some? ==> Converged(goal.value, w)
  }

  lemma OnTheWay(w: World, goal: Option<Goal>)
    ensures Kept(w, RollbackDuty(goal)) <==> Kept(w, DUTY) && (goal.Some? ==> OnCourse(goal.value, w))
    ensures Kept(w, RollbackDuty(goal)) && Reached(goal, w) <==>
      Kept(w, RollbackDuty(goal).(converged := true))
  {
    hide Inv, OnCourse, Finished, Spared;
    if goal.Some? && Converged(goal.value, w) {
    }
  }

  /** What leaves the graph and the tracking rows alone leads no goal astray. */
  lemma StaysOnTheWay(w: World, x: World, goal: Option<Goal>)
    requires SameDerived(w, x)
    ensures Kept(w, RollbackDuty(goal)) && Kept(x, DUTY) ==> Kept(x, RollbackDuty(goal))
    ensures Reached(goal, w) ==> Reached(goal, x)
  {
    OnTheWay(w, goal);
    OnTheWay(x, goal);
    hide Kept;
    if goal.Some? {
      OnCourseOfDerived(goal.value, w, x);
    }
  }

  /** The journal names every object with evidence from a staged chunk. */
  lemma JournalCovers(w: World, d: DocId, j: CustomJournal)
    requires Kept(w, DUTY) && Journals(w, d, j)
    ensures CandidatesCover(w, j.names, StagedSet(j))
  {
    assert RowOk(w, d, w.rows.mem[d]);
    forall o, c | c in StagedSet(j) && Evidence(w, {}, o, c)
      ensures o in j.names
    {
      assert c in j.operation && c.Chunk? && c.doc == d;
      assert Backed(w, o, c) && BackedBy(w, w.rows.mem[d], o, c);
    }
  }

  /** After the rollback's derived pass: the graph and the tracking rows are durable, nothing refers to
      a staged chunk, and every candidate's evidence is in its tracking row. */
  ghost predicate Repaired(w: World, j: CustomJournal) {
    && w.graph.mem == w.graph.disk && w.tracking.mem == w.tracking.disk
    && Clean(w, StagedSet(j))
    && forall o, c :: o in j.names && Evidence(w, {}, o, c) ==> c in TrackedIn(w.tracking.mem, o)
  }

  predicate SameDerived(w: World, x: World) {
    x.graph == w.graph && x.tracking == w.tracking
  }

  lemma RepairedStays(w: World, x: World, j: CustomJournal)
    requires Repaired(w, j) && SameDerived(w, x)
    ensures Repaired(x, j)
  {
    forall o, c
      ensures Evidence(x, {}, o, c) == Evidence(w, {}, o, c)
    {
    }
  }

  lemma PassRepairs(w0: World, w: World, plan: Plan, limits: Limits, j: CustomJournal)
    requires plan == PlanOf(w0, j.names, StagedSet(j), RollbackPolicy) && PassDone(w0, w, plan, limits, {})
    requires Clean(w, StagedSet(j))
    ensures Repaired(w, j)
  {
    forall o, c | o in j.names && Evidence(w, {}, o, c)
      ensures c in TrackedIn(w.tracking.mem, o)
    {
      RollbackAlignsTracking(w0, w, plan, limits, j.names, StagedSet(j), o);
    }
  }

  function RollbackPlan(w: World, j: CustomJournal): Plan {
    PlanOf(w, j.names, StagedSet(j), RollbackPolicy)
  }

  /** Explicit-candidate mode: no proof, no journal phases. */
  method RepairDerived(e: Engine, d: DocId, j: CustomJournal, ghost goal: Option<Goal>) returns (ok: bool)
    requires Kept(e.State(), RollbackDuty(goal)) && Journals(e.State(), d, j)
    requires GoalFor(goal, j)
    requires e.up
    modifies e
    ensures Kept(e.State(), RollbackDuty(goal)) && OnlyDerived(old(e.State()), e.State())
    ensures ok ==> Repaired(e.State(), j) && PassDone(old(e.State()), e.State(), RollbackPlan(old(e.State()), j), e.limits, {})
    ensures ok ==> Reached(goal, e.State())
    ensures Spent(old(e.schedule), e.schedule, e.up, ok)
  {
    hide Kept;
    OnTheWay(e.State(), goal);
    JournalCovers(e.State(), d, j);
    ghost var plan, skipped;
    ok, plan, skipped := PurgeDerivedContributions(e, j.names, StagedSet(j), RollbackPolicy, RollbackDuty(goal));
    if ok {
      PassRepairs(old(e.State()), e.State(), plan, e.limits, j);
    }
  }

  // ----- The staged chunks -----

  lemma DropChunksKept(w: World, d: DocId, j: CustomJournal)
    requires Kept(w, DUTY) && Journals(w, d, j) && Repaired(w, j)
    ensures Kept(w.(chunks := w.chunks.Delete(StagedSet(j))), DUTY)
  {
    RowIsDurable(w, DUTY, d);
    forall e, c | e in w.rows.mem && !Live(w.rows.mem[e]) && c in w.rows.mem[e].chunksList
      ensures c !in StagedSet(j)
    {
      assert RowOk(w, e, w.rows.mem[e]) && RowOk(w, d, w.rows.mem[d]);
    }
    forall e, c | e in w.rows.disk && !Live(w.rows.disk[e]) && c in w.rows.disk[e].chunksList
      ensures c !in StagedSet(j)
    {
      assert RowOk(w, e, w.rows.disk[e]) && RowOk(w, d, w.rows.mem[d]);
    }
    ChunkDeleteKeepsInv(w, w.(chunks := w.chunks.Delete(StagedSet(j))), {}, StagedSet(j));
  }

  lemma AfterChunkWrite(w: World, x: World, chunks: Store<SourceId, string>)
    requires Leaked(w.(chunks := chunks), x) && w.graph.mem == w.graph.disk && w.tracking.mem == w.tracking.disk
    ensures SameDerived(w, x) && ChunksOnly(w, x) && x.chunks.mem == chunks.mem
  {
  }

  method DropChunks(e: Engine, d: DocId, j: CustomJournal, ghost goal: Option<Goal>) returns (ok: bool)
    requires Kept(e.State(), RollbackDuty(goal)) && Journals(e.State(), d, j) && Repaired(e.State(), j)
    requires e.up
    modifies e
    ensures Kept(e.State(), RollbackDuty(goal)) && Repaired(e.State(), j) && ChunksOnly(old(e.State()), e.State())
    ensures SameDerived(old(e.State()), e.State())
    ensures e.chunks.mem == old(e.chunks.mem) - StagedSet(j)
    ensures ok ==> e.chunks.disk == e.chunks.mem
    ensures Spent(old(e.schedule), e.schedule, e.up, ok)
  {
    hide Kept, Leaked;
    ghost var w := e.State();
    OnTheWay(w, goal);
    DropChunksKept(w, d, j);
    StaysOnTheWay(w, w.(chunks := w.chunks.Delete(StagedSet(j))), goal);
    ok := e.Write(e.State().(chunks := e.chunks.Delete(StagedSet(j))), RollbackDuty(goal));
    AfterChunkWrite(w, e.State(), w.chunks.Delete(StagedSet(j)));
    if ok {
      ghost var x := e.State();
      ok := e.FlushStores(Barrier(true, false, false), RollbackDuty(goal));
      AfterChunkFlush(x, e.State(), ok);
    }
    RepairedStays(w, e.State(), j);
  }

  lemma AfterChunkFlush(w: World, x: World, ok: bool)
    requires Leaked(w, x) && w.graph.mem == w.graph.disk && w.tracking.mem == w.tracking.disk
    requires ok ==> x == FlushedSome(x, Barrier(true, false, false))
    ensures SameDerived(w, x) && ChunksOnly(w, x) && x.chunks.mem == w.chunks.mem
    ensures ok ==> x.chunks.disk == x.chunks.mem
  {
    if ok {
      assert x.chunks == x.chunks.Flush();
    }
  }

  // ----- Create mode: the document did not exist before -----

  function AnchorDropped(w: World, d: DocId, entities: bool): World {
    if entities then w.(entities := w.entities.Delete({d})) else w.(relations := w.relations.Delete({d}))
  }

  lemma AnchorDropWrites(w: World, d: DocId, entities: bool)
    ensures
      var x := AnchorDropped(w, d, entities);
      && AnchorWrite(w, x, d)
      && (KeysDurable(w.entities) && KeysDurable(w.relations) ==> KeysDurable(x.entities) && KeysDurable(x.relations))
  {
  }

  lemma AnchorDropKept(w: World, d: DocId, j: CustomJournal, entities: bool)
    requires Kept(w, DUTY) && Journals(w, d, j) && Repaired(w, j) && w.rows.mem[d].chunksList == []
    ensures Kept(AnchorDropped(w, d, entities), DUTY)
  {
    var x := AnchorDropped(w, d, entities);
    RowIsDurable(w, DUTY, d);
    NoneLeft(w, d, j);
    JournaledRow(w, d, j);
    AnchorDropKeepsRow(w, x, d, w.rows.mem[d]);
    AnchorDropWrites(w, d, entities);
    hide RowOk, Inv, AnchorDropped, AnchorWrite, Repaired, Backed, KeysDurable;
    AnchorWriteKeepsInv(w, x, {}, d);
    NothingGoneIsSpared(x);
  }

  lemma AnchorDropKeepsRow(w: World, x: World, d: DocId, row: Row)
    requires RowOk(w, d, row) && x == w.(entities := x.entities, relations := x.relations)
    requires Scope(row) != {} && row.purge == None
    ensures RowOk(x, d, row)
  {
  }

  lemma NoneLeft(w: World, d: DocId, j: CustomJournal)
    requires Kept(w, DUTY) && Journals(w, d, j) && Repaired(w, j) && w.rows.mem[d].chunksList == []
    ensures forall o: Obj, c: SourceId :: c.Chunk? && c.doc == d ==> !Evidence(w, {}, o, c)
  {
    forall o: Obj, c: SourceId | c.Chunk? && c.doc == d
      ensures !Evidence(w, {}, o, c)
    {
      if Evidence(w, {}, o, c) {
        EvidenceInScope(w, d, o, c);
        assert false;
      }
    }
  }

  lemma EvidenceInScope(w: World, d: DocId, o: Obj, c: SourceId)
    requires Kept(w, DUTY) && d in w.rows.mem && Evidence(w, {}, o, c) && c.Chunk? && c.doc == d
    ensures InScope(w.rows.mem[d], c) && BackedBy(w, w.rows.mem[d], o, c)
  {
    assert Backed(w, o, c);
  }

  lemma AfterAnchorDrop(w: World, x: World, d: DocId, entities: bool)
    requires Leaked(AnchorDropped(w, d, entities), x) && w.graph.mem == w.graph.disk && w.tracking.mem == w.tracking.disk
    ensures SameDerived(w, x) && x.rows.mem == w.rows.mem && x.chunks.mem == w.chunks.mem
    ensures x.entities.mem == AnchorDropped(w, d, entities).entities.mem
    ensures x.relations.mem == AnchorDropped(w, d, entities).relations.mem
  {
  }

  method DropAnchor(e: Engine, d: DocId, j: CustomJournal, entities: bool, ghost goal: Option<Goal>) returns (ok: bool)
    requires Kept(e.State(), RollbackDuty(goal)) && Journals(e.State(), d, j) && Repaired(e.State(), j) && e.rows.mem[d].chunksList == []
    requires e.up
    modifies e
    ensures Kept(e.State(), RollbackDuty(goal)) && Repaired(e.State(), j) && SameDerived(old(e.State()), e.State())
    ensures e.rows.mem == old(e.rows.mem) && e.chunks.mem == old(e.chunks.mem)
    ensures e.entities.mem == if entities then old(e.entities.mem) - {d} else old(e.entities.mem)
    ensures e.relations.mem == if entities then old(e.relations.mem) else old(e.relations.mem) - {d}
    ensures Spent(old(e.schedule), e.schedule, e.up, ok)
  {
    hide Kept, Leaked;
    ghost var w := e.State();
    OnTheWay(w, goal);
    AnchorDropKept(w, d, j, entities);
    StaysOnTheWay(w, AnchorDropped(w, d, entities), goal);
    ok := e.Write(AnchorDropped(e.State(), d, entities), RollbackDuty(goal));
    AfterAnchorDrop(w, e.State(), d, entities);
    RepairedStays(w, e.State(), j);
  }

  lemma RowDropKept(w: World, d: DocId, j: CustomJournal)
    requires Kept(w, DUTY) && Journals(w, d, j) && Repaired(w, j) && w.rows.mem[d].chunksList == []
    ensures Kept(w.(rows := w.rows.Delete({d})), DUTY)
  {
    NoneLeft(w, d, j);
    RowDeleteKeepsInv(w, w.(rows := w.rows.Delete({d})), {}, d);
  }

  method DropRow(e: Engine, d: DocId, j: CustomJournal, ghost goal: Option<Goal>) returns (ok: bool)
    requires Kept(e.State(), RollbackDuty(goal)) && Journals(e.State(), d, j) && Repaired(e.State(), j) && e.rows.mem[d].chunksList == []
    requires e.up
    modifies e
    ensures Kept(e.State(), RollbackDuty(goal))
    ensures e.rows.mem == old(e.rows.mem) - {d} && e.chunks.mem == old(e.chunks.mem)
    ensures e.entities.mem == old(e.entities.mem) && e.relations.mem == old(e.relations.mem)
    ensures Repaired(e.State(), j) && SameDerived(old(e.State()), e.State())
    ensures ok ==> d !in e.rows.disk
    ensures StillIn(e.rows.disk, d, old(e.rows.mem[d]))
    ensures Spent(old(e.schedule), e.schedule, e.up, ok)
  {
    hide Kept;
    ghost var w := e.State();
    OnTheWay(w, goal);
    RowDropKept(w, d, j);
    StaysOnTheWay(w, w.(rows := w.rows.Delete({d})), goal);
    RowIsDurable(w, RollbackDuty(goal), d);
    e.Become(e.State().(rows := e.rows.Delete({d})));
    ghost var y := e.State();
    ok := e.Interleave(RollbackDuty(goal));
    RemixAt(y.rows, e.rows, d);
    if ok {
      // unlike an upsert, this delete is only buffered: success must wait for the flush
      ok := FlushRows(e, d, w.rows.mem[d], goal);
    }
    RepairedStays(w, e.State(), j);
  }

  /** If the row is there at all, it is the one given. */
  predicate StillIn(rows: map<DocId, Row>, d: DocId, row: Row) {
    d in rows ==> rows[d] == row
  }

  method FlushRows(e: Engine, ghost d: DocId, ghost row: Row, ghost goal: Option<Goal>) returns (ok: bool)
    requires Kept(e.State(), RollbackDuty(goal)) && d !in e.rows.mem && StillIn(e.rows.disk, d, row)
    requires e.up
    modifies e
    ensures Kept(e.State(), RollbackDuty(goal)) && Leaked(old(e.State()), e.State()) && StillIn(e.rows.disk, d, row)
    ensures ok ==> e.rows.disk == e.rows.mem
    ensures Spent(old(e.schedule), e.schedule, e.up, ok)
  {
    hide Kept;
    ghost var w := e.State();
    ok := e.Interleave(RollbackDuty(goal));
    RemixAt(w.rows, e.rows, d);
    if ok {
      FlushIsRemix(e.State(), Barrier(false, false, true));
      BufferingKeeps(e.State(), FlushedSome(e.State(), Barrier(false, false, true)), RollbackDuty(goal));
      e.Become(FlushedSome(e.State(), Barrier(false, false, true)));
    }
  }

  /** No other document's anchors moved. */
  ghost predicate OtherAnchors(w: World, x: World, d: DocId) {
    && (forall other :: other != d ==> Get(x.entities.mem, other) == Get(w.entities.mem, other))
    && (forall other :: other != d ==> Get(x.relations.mem, other) == Get(w.relations.mem, other))
  }

  /** Removes what is left of a document that the operation created. */
  method UndoCreate(e: Engine, d: DocId, j: CustomJournal, ghost goal: Option<Goal>) returns (ok: bool)
    requires Kept(e.State(), RollbackDuty(goal)) && Journals(e.State(), d, j) && Repaired(e.State(), j) && e.rows.mem[d].chunksList == []
    requires e.up
    modifies e
    ensures Kept(e.State(), RollbackDuty(goal)) && e.rows.mem - {d} == old(e.rows.mem) - {d} && e.chunks.mem == old(e.chunks.mem)
    ensures StillIn(e.rows.mem, d, old(e.rows.mem[d])) && (d !in e.rows.mem ==> StillIn(e.rows.disk, d, old(e.rows.mem[d])))
    ensures SameDerived(old(e.State()), e.State())
    ensures ok ==> d !in e.rows.mem && d !in e.rows.disk && Clean(e.State(), StagedSet(j))
    ensures ok ==> d !in e.entities.mem && d !in e.relations.mem
    ensures OtherAnchors(old(e.State()), e.State(), d)
    ensures Spent(old(e.schedule), e.schedule, e.up, ok)
  {
    hide Kept, Repaired, OtherAnchors;
    ghost var w0 := e.State();
    ok := DropAnchor(e, d, j, true, goal);
    DroppedOthers(w0, e.State(), d);
    if ok {
      ok := DropAnchor(e, d, j, false, goal);
      DroppedOthers(w0, e.State(), d);
    }
    if ok {
      ghost var w := e.State();
      ok := e.FlushStores(Barrier(false, true, false), RollbackDuty(goal));
      RepairedIsClean(w, j);
      AfterAnchorFlush(w, e.State(), ok);
      RepairedStays(w, e.State(), j);
    }
    if ok {
      ok := DropRow(e, d, j, goal);
      RepairedIsClean(e.State(), j);
    }
    DroppedOthers(w0, e.State(), d);
  }

  lemma DroppedOthers(w: World, x: World, d: DocId)
    requires x.entities.mem == w.entities.mem || x.entities.mem == w.entities.mem - {d}
    requires x.relations.mem == w.relations.mem || x.relations.mem == w.relations.mem - {d}
    ensures OtherAnchors(w, x, d)
  {
  }

  lemma RepairedIsClean(w: World, j: CustomJournal)
    requires Repaired(w, j)
    ensures Clean(w, StagedSet(j)) && w.graph.mem == w.graph.disk && w.tracking.mem == w.tracking.disk
  {
  }

  lemma AfterAnchorFlush(w: World, x: World, ok: bool)
    requires Leaked(w, x) && w.graph.mem == w.graph.disk && w.tracking.mem == w.tracking.disk
    requires ok ==> x == FlushedSome(x, Barrier(false, true, false))
    ensures SameDerived(w, x) && x.rows.mem == w.rows.mem && x.chunks.mem == w.chunks.mem
    ensures x.entities.mem == w.entities.mem && x.relations.mem == w.relations.mem
    ensures ok ==> x.entities.disk == x.entities.mem && x.relations.disk == x.relations.mem
  {
    if ok {
      assert x.entities == x.entities.Flush() && x.relations == x.relations.Flush();
    }
  }

  // ----- Patch mode: the base document stays -----

  /** The document still owns a contribution to `o`. */
  predicate StillOwned(tracking: map<Obj, seq<SourceId>>, o: Obj, base: seq<SourceId>) {
    exists c :: c in TrackedIn(tracking, o) && c in base
  }

  function KeptNames(w: World, d: DocId, candidates: set<Obj>, base: seq<SourceId>): (r: set<string>)
    ensures forall n :: n in r <==>
      n in EntityRow(w, d) && (Node(n) in candidates ==> StillOwned(w.tracking.mem, Node(n), base))
  {
    set n | n in EntityRow(w, d) && (Node(n) in candidates ==> StillOwned(w.tracking.mem, Node(n), base))
  }

  function KeptPairs(w: World, d: DocId, candidates: set<Obj>, base: seq<SourceId>): (r: set<(string, string)>)
    ensures forall p :: p in r <==>
      p in RelationRow(w, d) && (Edge(p.0, p.1) in candidates ==> StillOwned(w.tracking.mem, Edge(p.0, p.1), base))
  {
    set p | p in RelationRow(w, d) && (Edge(p.0, p.1) in candidates ==> StillOwned(w.tracking.mem, Edge(p.0, p.1), base))
  }

  /** The base chunks: what the row lists, less what the operation staged. */
  function BaseList(row: Row, j: CustomJournal): seq<SourceId> {
    Remove(row.chunksList, j.staged)
  }

  function NamesPruned(w: World, d: DocId, j: CustomJournal, base: seq<SourceId>): (x: World)
    ensures x.given == w.given
  {
    if d in w.entities.mem then w.(entities := w.entities.Put(d, KeptNames(w, d, j.names, base))) else w
  }

  function PairsPruned(w: World, d: DocId, j: CustomJournal, base: seq<SourceId>): (x: World)
    ensures x.given == w.given
  {
    if d in w.relations.mem then w.(relations := w.relations.Put(d, KeptPairs(w, d, j.names, base))) else w
  }

  lemma JournaledRow(w: World, d: DocId, j: CustomJournal)
    requires Kept(w, DUTY) && Journals(w, d, j)
    ensures RowOk(w, d, w.rows.mem[d]) && Scope(w.rows.mem[d]) != {}
    ensures BaseList(w.rows.mem[d], j) == w.rows.mem[d].chunksList
  {
    assert RowOk(w, d, w.rows.mem[d]);
    assert InScope(w.rows.mem[d], j.staged[0]);
  }

  lemma PruneNames(w: World, x: World, d: DocId, j: CustomJournal, base: seq<SourceId>, o: Obj)
    requires x == NamesPruned(w, d, j, base) || x == PairsPruned(w, d, j, base)
    requires AnchoredAt(w, Mem, d, o) && (o in j.names ==> StillOwned(w.tracking.mem, o, base))
    ensures AnchoredAt(x, Mem, d, o)
  {
  }

  lemma PruneWrites(w: World, x: World, d: DocId, j: CustomJournal, base: seq<SourceId>)
    requires x == NamesPruned(w, d, j, base) || x == PairsPruned(w, d, j, base)
    ensures AnchorWrite(w, x, d) && AnchorRowsAt(x, Mem, d) == AnchorRowsAt(w, Mem, d)
    ensures KeysDurable(w.entities) && KeysDurable(w.relations) ==> KeysDurable(x.entities) && KeysDurable(x.relations)
  {
  }

  /** Pruning drops only what the base document no longer contributes to. */
  lemma PruneKept(w: World, x: World, d: DocId, j: CustomJournal, base: seq<SourceId>)
    requires Kept(w, DUTY) && Journals(w, d, j) && Repaired(w, j) && base == w.rows.mem[d].chunksList
    requires x == NamesPruned(w, d, j, base) || x == PairsPruned(w, d, j, base)
    ensures Kept(x, DUTY)
  {
    var row := w.rows.mem[d];
    JournaledRow(w, d, j);
    PruneWrites(w, x, d, j, base);
    hide NamesPruned, PairsPruned, RowOk, Inv, AnchorWrite;
    forall o, c | Evidence(w, {}, o, c) && c in row.chunksList
      ensures AnchoredAt(x, Mem, d, o) && (d !in w.given.legacy ==> AnchorRowsAt(x, Mem, d))
    {
      ListedIsOwn(w, d, c);
      EvidenceInScope(w, d, o, c);
      assert AnchoredAt(w, Mem, d, o);
      if o in j.names {
        assert StillOwned(w.tracking.mem, o, base);
      }
      PruneNames(w, x, d, j, base, o);
    }
    AnchorUpsertKept(w, x, DUTY, d);
  }

  lemma ListedIsOwn(w: World, d: DocId, c: SourceId)
    requires Kept(w, DUTY) && d in w.rows.mem && c in w.rows.mem[d].chunksList
    ensures c.Chunk? && c.doc == d
  {
    assert RowOk(w, d, w.rows.mem[d]);
  }

  lemma PruneLeavesDerived(w: World, x: World, d: DocId, j: CustomJournal, base: seq<SourceId>)
    requires x == NamesPruned(w, d, j, base) || x == PairsPruned(w, d, j, base)
    ensures SameDerived(w, x)
  {
  }

  /** Nothing but the anchor rows of `d` moved. */
  ghost predicate PruneFrame(w: World, x: World, d: DocId) {
    SameDerived(w, x) && x.rows.mem == w.rows.mem && x.chunks.mem == w.chunks.mem && OtherAnchors(w, x, d)
  }

  lemma AfterPrune(w: World, y: World, x: World, d: DocId, j: CustomJournal, base: seq<SourceId>)
    requires y == NamesPruned(w, d, j, base) || y == PairsPruned(w, d, j, base)
    requires Leaked(y, x) && w.graph.mem == w.graph.disk && w.tracking.mem == w.tracking.disk
    ensures PruneFrame(w, x, d) && x.entities.mem == y.entities.mem && x.relations.mem == y.relations.mem
  {
  }

  method PruneOne(e: Engine, d: DocId, j: CustomJournal, base: seq<SourceId>, names: bool, ghost goal: Option<Goal>) returns (ok: bool)
    requires Kept(e.State(), RollbackDuty(goal)) && Journals(e.State(), d, j) && Repaired(e.State(), j) && base == e.rows.mem[d].chunksList
    requires e.up
    modifies e
    ensures Kept(e.State(), RollbackDuty(goal)) && Repaired(e.State(), j) && PruneFrame(old(e.State()), e.State(), d)
    ensures
      var y := if names then NamesPruned(old(e.State()), d, j, base) else PairsPruned(old(e.State()), d, j, base);
      e.entities.mem == y.entities.mem && e.relations.mem == y.relations.mem
    ensures Spent(old(e.schedule), e.schedule, e.up, ok)
  {
    hide Kept, Leaked, NamesPruned, PairsPruned;
    ghost var w := e.State();
    var y := if names then NamesPruned(e.State(), d, j, base) else PairsPruned(e.State(), d, j, base);
    OnTheWay(w, goal);
    PruneKept(w, y, d, j, base);
    PruneLeavesDerived(w, y, d, j, base);
    StaysOnTheWay(w, y, goal);
    ok := e.Write(y, RollbackDuty(goal));
    AfterPrune(w, y, e.State(), d, j, base);
    RepairedStays(w, e.State(), j);
  }

  /** Both prunes and the narrow barrier. */
  method PruneAnchors(e: Engine, d: DocId, j: CustomJournal, base: seq<SourceId>, ghost goal: Option<Goal>) returns (ok: bool)
    requires Kept(e.State(), RollbackDuty(goal)) && Journals(e.State(), d, j) && Repaired(e.State(), j) && base == e.rows.mem[d].chunksList
    requires e.up
    modifies e
    ensures Kept(e.State(), RollbackDuty(goal)) && Repaired(e.State(), j) && PruneFrame(old(e.State()), e.State(), d)
    ensures ok ==> AnchorsFixed(e.State(), d) && Pruned(old(e.State()), e.State(), d, j, base)
    ensures Spent(old(e.schedule), e.schedule, e.up, ok)
  {
    hide Kept, NamesPruned, PairsPruned, Pruned;
    ghost var w0 := e.State();
    ok := PruneOne(e, d, j, base, true, goal);
    ghost var w1 := e.State();
    if ok {
      ok := PruneOne(e, d, j, base, false, goal);
    }
    if ok {
      ghost var w := e.State();
      ok := e.FlushStores(Barrier(false, true, false), RollbackDuty(goal));
      AfterAnchorFlush(w, e.State(), ok);
      RepairedStays(w, e.State(), j);
      PrunesMean(w0, w1, w, e.State(), d, j, base);
    }
  }

  /** A candidate stays in the anchors exactly when the base document still contributes to it. */
  ghost predicate Pruned(w: World, x: World, d: DocId, j: CustomJournal, base: seq<SourceId>) {
    && (forall n :: n in EntityRow(x, d) <==>
          n in EntityRow(w, d) && (Node(n) in j.names ==> StillOwned(x.tracking.mem, Node(n), base)))
    && (forall a, b :: (a, b) in RelationRow(x, d) <==>
          (a, b) in RelationRow(w, d) && (Edge(a, b) in j.names ==> StillOwned(x.tracking.mem, Edge(a, b), base)))
  }

  lemma PrunesMean(w: World, w1: World, w2: World, x: World, d: DocId, j: CustomJournal, base: seq<SourceId>)
    requires w1.entities.mem == NamesPruned(w, d, j, base).entities.mem && w1.relations.mem == NamesPruned(w, d, j, base).relations.mem
    requires w2.entities.mem == PairsPruned(w1, d, j, base).entities.mem && w2.relations.mem == PairsPruned(w1, d, j, base).relations.mem
    requires SameDerived(w, w1) && SameDerived(w1, x) && x.entities.mem == w2.entities.mem && x.relations.mem == w2.relations.mem
    ensures Pruned(w, x, d, j, base)
  {
    assert EntityRow(w1, d) == EntityRow(x, d) && RelationRow(w1, d) == RelationRow(w, d);
  }

  lemma RestoredRowOk(w: World, d: DocId, j: CustomJournal)
    requires Kept(w, DUTY) && Journals(w, d, j) && AnchorsFixed(w, d)
    ensures RowOk(w, d, RolledBack(w.rows.mem[d])) && RolledBack(w.rows.mem[d]).chunksList == w.rows.mem[d].chunksList
  {
    JournaledRow(w, d, j);
  }

  /** The restored row answers for what is left: only the base document's evidence. */
  lemma RestoreClaims(w: World, d: DocId, j: CustomJournal)
    requires Kept(w, DUTY) && Journals(w, d, j) && Repaired(w, j) && AnchorsFixed(w, d)
    ensures Claims(w, {}, d, RolledBack(w.rows.mem[d]))
  {
    RestoredRowOk(w, d, j);
    hide RowOk, Inv;
    forall o, c | Evidence(w, {}, o, c) && c.Chunk? && c.doc == d
      ensures BackedBy(w, RolledBack(w.rows.mem[d]), o, c)
    {
      EvidenceInScope(w, d, o, c);
      assert c !in StagedSet(j);
    }
  }

  method UndoPatch(e: Engine, d: DocId, j: CustomJournal, ghost goal: Option<Goal>) returns (ok: bool)
    requires Kept(e.State(), RollbackDuty(goal)) && Journals(e.State(), d, j) && Repaired(e.State(), j)
    requires e.up
    modifies e
    ensures Kept(e.State(), RollbackDuty(goal)) && e.chunks.mem == old(e.chunks.mem)
    ensures e.rows.mem == old(e.rows.mem) || e.rows.mem == old(e.rows.mem)[d := RolledBack(old(e.rows.mem[d]))]
    ensures ok ==> e.rows.mem == old(e.rows.mem)[d := RolledBack(old(e.rows.mem[d]))] && Clean(e.State(), StagedSet(j))
    ensures SameDerived(old(e.State()), e.State())
    ensures ok ==> Pruned(old(e.State()), e.State(), d, j, old(e.rows.mem[d].chunksList))
    ensures OtherAnchors(old(e.State()), e.State(), d)
    ensures Spent(old(e.schedule), e.schedule, e.up, ok)
  {
    hide Kept, Claims, Pruned, OtherAnchors, RowOk, Clean;
    ghost var w0 := e.State();
    OnTheWay(e.State(), goal);
    JournaledRow(e.State(), d, j);
    ok := PruneAnchors(e, d, j, BaseList(e.rows.mem[d], j), goal);
    if ok {
      ghost var w := e.State();
      OnTheWay(w, goal);
      RestoreClaims(w, d, j);
      ok := WriteRow(e, d, RolledBack(e.rows.mem[d]), RollbackDuty(goal));
      RepairedAfterRow(w, e.State(), d, j);
      PrunedAfterRow(w0, w, e.State(), d, j, w0.rows.mem[d].chunksList);
    }
  }

  lemma PrunedAfterRow(w0: World, w: World, x: World, d: DocId, j: CustomJournal, base: seq<SourceId>)
    requires Pruned(w0, w, d, j, base) && OtherAnchors(w0, w, d)
    requires x.tracking.mem == w.tracking.mem && x.entities.mem == w.entities.mem && x.relations.mem == w.relations.mem
    ensures Pruned(w0, x, d, j, base) && OtherAnchors(w0, x, d)
  {
  }

  lemma RepairedAfterRow(w: World, x: World, d: DocId, j: CustomJournal)
    requires Repaired(w, j) && x.graph.mem == w.graph.mem && x.tracking.mem == w.tracking.mem
    requires x.graph.disk == w.graph.disk && x.tracking.disk == w.tracking.disk
    ensures Clean(x, StagedSet(j))
  {
    RepairedStays(w, x, j);
  }

  /** What a rollback that did not complete leaves of the document's row: it is as it was, or already
      restored, or gone if the operation had created it. */
  predicate Retained(row: Row, rows: map<DocId, Row>, d: DocId)
    requires row.custom.Some?
  {
    if d in rows then rows[d] == row || (row.custom.value.mode == Patch && rows[d] == RolledBack(row))
    else row.custom.value.mode == Create
  }

  /** The row is not what the rollback started from: it is restored, or gone. */
  predicate Changed(row: Row, rows: map<DocId, Row>, d: DocId) {
    d !in rows || rows[d] != row
  }

  /** Once the row has changed, all there was to do in the graph is done. */
  ghost predicate Settling(w: World, x: World, d: DocId, goal: Option<Goal>)
    requires d in w.rows.mem && w.rows.mem[d].custom.Some?
  {
    Changed(w.rows.mem[d], x.rows.mem, d) ==> Reached(goal, x) && Clean(x, StagedSet(w.rows.mem[d].custom.value))
  }

  lemma SettlingAfterRepair(w: World, w1: World, x: World, d: DocId, goal: Option<Goal>, j: CustomJournal)
    requires d in w.rows.mem && w.rows.mem[d].custom == Some(j)
    requires Repaired(w1, j) && Reached(goal, w1) && SameDerived(w1, x)
    ensures Settling(w, x, d, goal)
  {
    RepairedStays(w1, x, j);
    StaysOnTheWay(w1, x, goal);
    hide Reached;
  }

  lemma NotSettlingYet(w: World, x: World, d: DocId, goal: Option<Goal>)
    requires d in w.rows.mem && w.rows.mem[d].custom.Some? && x.rows.mem == w.rows.mem
    ensures Settling(w, x, d, goal)
  {
  }

  /** The steps of a rollback, up to the first that fails. */
  method UndoOperation(e: Engine, d: DocId, ghost goal: Option<Goal>) returns (ok: bool)
    requires Kept(e.State(), RollbackDuty(goal)) && d in e.rows.mem
    requires e.rows.mem[d].custom.Some? && e.rows.mem[d].purge == None && GoalFor(goal, e.rows.mem[d].custom.value)
    requires e.up
    modifies e
    ensures Kept(e.State(), RollbackDuty(goal))
    ensures e.rows.mem - {d} == old(e.rows.mem) - {d}
    ensures ok ==> Undone(old(e.State()), e.State(), d, e.limits)
    ensures OtherAnchors(old(e.State()), e.State(), d)
    ensures Settling(old(e.State()), e.State(), d, goal)
    ensures !ok ==> Retained(old(e.rows.mem[d]), e.rows.mem, d)
    ensures d !in e.rows.mem ==> StillIn(e.rows.disk, d, old(e.rows.mem[d]))
    ensures Spent(old(e.schedule), e.schedule, e.up, ok)
  {
    hide Kept, Pruned, Repaired, Reached, GoalFor, Settling, OtherAnchors;
    ghost var w0 := e.State();
    var j := e.rows.mem[d].custom.value;
    OnTheWay(w0, goal);
    ModeFacts(w0, d, j);
    ok := RepairDerived(e, d, j, goal);
    if !ok {
      NotSettlingYet(w0, e.State(), d, goal);
      SameAnchors(w0, e.State(), e.State(), d);
      return;
    }
    ghost var w1 := e.State();
    ok := DropChunks(e, d, j, goal);
    ghost var w2 := e.State();
    if ok {
      if j.mode == Create {
        ok := UndoCreate(e, d, j, goal);
      } else {
        ghost var w := e.State();
        ok := UndoPatch(e, d, j, goal);
        if ok {
          PrunedReads(w0, w, e.State(), d, j, w.rows.mem[d].chunksList);
        }
      }
    }
    SettlingAfterRepair(w0, w1, e.State(), d, goal, j);
    SameAnchors(w0, w2, e.State(), d);
  }

  lemma SameAnchors(w: World, w1: World, x: World, d: DocId)
    requires w1.entities.mem == w.entities.mem && w1.relations.mem == w.relations.mem
    ensures x == w1 || OtherAnchors(w1, x, d) ==> OtherAnchors(w, x, d)
  {
  }

  /** One journaled operation rolled back, or retained for the next sweep; a crash at any await included.
      If it has a goal it stays on the way there, and by the time the row has changed it has reached it. */
  method RollbackOne(e: Engine, d: DocId, ghost goal: Option<Goal>) returns (ok: bool)
    requires Steady(e.State()) && d in e.rows.mem && (goal.Some? ==> OnCourse(goal.value, e.State()))
    requires e.rows.mem[d].custom.Some? && e.rows.mem[d].purge == None && GoalFor(goal, e.rows.mem[d].custom.value)
    requires e.up
    modifies e
    ensures Steady(e.State()) && (goal.Some? ==> OnCourse(goal.value, e.State())) && e.up
    ensures Settling(old(e.State()), e.State(), d, goal)
    ensures forall x :: x in old(e.rows.mem) && x != d ==> x in e.rows.mem && e.rows.mem[x] == old(e.rows.mem[x])
    ensures ok ==> Undone(old(e.State()), e.State(), d, e.limits) && e.rows.mem - {d} == old(e.rows.mem) - {d}
    ensures ok ==> BaseRestored(old(e.State()), e.State(), d, e.limits) && OtherAnchors(old(e.State()), e.State(), d)
    ensures !ok ==> Retained(old(e.rows.mem[d]), e.rows.mem, d)
    ensures Spent(old(e.schedule), e.schedule, e.up, ok)
  {
    hide Kept, Steady, Undone, BaseRestored, OnCourse, Settling, OtherAnchors, GoalFor;
    ghost var w := e.State();
    SteadyIsKept(w);
    OnTheWay(w, goal);
    ok := UndoOperation(e, d, goal);
    if ok {
      UndoneRestores(w, e.State(), d, e.limits);
    }
    OtherRows(old(e.rows.mem), e.rows.mem, d);
    OnTheWay(e.State(), goal);
    if !e.up {
      RowsAfterCrash(old(e.rows.mem), e.State(), d);
      ghost var x := e.State();
      e.Crash(RollbackDuty(goal));
      SettlingAfterCrash(w, x, d, goal);
    }
    OnTheWay(e.State(), goal);
    SteadyIsKept(e.State());
  }

  /** A crash takes back neither the goal nor, the rows being durable, the row. */
  lemma SettlingAfterCrash(w: World, x: World, d: DocId, goal: Option<Goal>)
    requires Kept(x, RollbackDuty(goal)) && d in w.rows.mem && w.rows.mem[d].custom.Some?
    requires Settling(w, x, d, goal) && (d !in x.rows.mem ==> StillIn(x.rows.disk, d, w.rows.mem[d]))
    ensures Settling(w, Reverted(x), d, goal)
  {
    OnTheWay(x, goal);
    var row := w.rows.mem[d];
    if d in x.rows.mem {
      RowIsDurable(x, RollbackDuty(goal), d);
    }
    LeakIsRemix(x, Fault({}, {}, {}, {}, {}, {}, Answers));
    hide Kept, RemixWorld, Reached;
    if Changed(row, x.rows.mem, d) {
      BufferingKeeps(x, Reverted(x), RollbackDuty(goal).(converged := true));
      OnTheWay(Reverted(x), goal);
      CleanAfterRemix(x, Reverted(x), StagedSet(row.custom.value));
    }
  }

  lemma CleanAfterRemix(w: World, x: World, gone: set<SourceId>)
    requires Clean(w, gone) && RemixWorld(w, x)
    ensures Clean(x, gone)
  {
    forall o, c | c in gone
      ensures !Evidence(x, {}, o, c)
    {
      if Evidence(x, {}, o, c) {
        RemixEvidence(w, x, {}, o, c);
      }
    }
  }

  lemma OtherRows(rows: map<DocId, Row>, later: map<DocId, Row>, d: DocId)
    requires later - {d} == rows - {d}
    ensures forall x :: x in rows && x != d ==> x in later && later[x] == rows[x]
  {
    forall x | x in rows && x != d
      ensures x in later && later[x] == rows[x]
    {
      assert x in rows - {d} && (rows - {d})[x] == rows[x];
    }
  }

  /** Rows are durable as soon as they are written, so a crash takes none back. */
  lemma RowsAfterCrash(rows: map<DocId, Row>, w: World, d: DocId)
    requires Kept(w, DUTY) && d in rows && rows[d].custom.Some? && Retained(rows[d], w.rows.mem, d)
    requires forall x :: x in rows && x != d ==> x in w.rows.mem && w.rows.mem[x] == rows[x]
    requires d !in w.rows.mem ==> StillIn(w.rows.disk, d, rows[d])
    ensures Retained(rows[d], Reverted(w).rows.mem, d)
    ensures forall x :: x in rows && x != d ==> x in Reverted(w).rows.mem && Reverted(w).rows.mem[x] == rows[x]
  {
  }

  lemma PrunedReads(w: World, w1: World, x: World, d: DocId, j: CustomJournal, base: seq<SourceId>)
    requires Pruned(w1, x, d, j, base) && w1.entities.mem == w.entities.mem && w1.relations.mem == w.relations.mem
    ensures Pruned(w, x, d, j, base)
  {
  }

  lemma ModeFacts(w: World, d: DocId, j: CustomJournal)
    requires Kept(w, DUTY) && Journals(w, d, j)
    ensures j.mode == Create ==> w.rows.mem[d].chunksList == []
  {
    assert RowOk(w, d, w.rows.mem[d]);
  }

  /** A completed rollback: the graph and the tracking rows are what the derived pass leaves, nothing
      refers to a staged chunk, the chunks are gone, a created document is gone with its anchors, a
      patched one has its base row and its own anchors back. */
  ghost predicate Undone(w: World, x: World, d: DocId, limits: Limits)
    requires d in w.rows.mem && w.rows.mem[d].custom.Some?
  {
    var j := w.rows.mem[d].custom.value;
    && PassDone(w, x, RollbackPlan(w, j), limits, {}) && Clean(x, StagedSet(j))
    && x.chunks.mem == w.chunks.mem - StagedSet(j)
    && match j.mode
       case Create => d !in x.rows.mem && d !in x.rows.disk && d !in x.entities.mem && d !in x.relations.mem
       case Patch => d in x.rows.mem && x.rows.mem[d] == RolledBack(w.rows.mem[d]) && Pruned(w, x, d, j, w.rows.mem[d].chunksList)
  }

  /** The same, in terms of the row the rollback found: every object is left with exactly its surviving
      owners, and the row of a patched document is the one it had before the operation. */
  ghost predicate BaseRestored(w: World, x: World, d: DocId, limits: Limits)
    requires d in w.rows.mem && w.rows.mem[d].custom.Some?
  {
    var j := w.rows.mem[d].custom.value;
    var staged := set c | c in j.staged;
    && (forall o :: LeftAs(w, x, j.names, staged, RollbackPolicy, limits, {}, o))
    && (forall c :: Get(x.chunks.mem, c) == if c in j.staged then None else Get(w.chunks.mem, c))
    && (j.mode == Create ==> d !in x.rows.mem)
    && (j.mode == Patch ==>
          && d in x.rows.mem
          && x.rows.mem[d] == w.rows.mem[d].(
               status := Processed, chunksCount := |w.rows.mem[d].chunksList|, truncation := j.prior, custom := None))
  }

  lemma UndoneObjects(w: World, x: World, d: DocId, limits: Limits)
    requires d in w.rows.mem && w.rows.mem[d].custom.Some? && Undone(w, x, d, limits)
    ensures
      var j := w.rows.mem[d].custom.value;
      forall o :: LeftAs(w, x, j.names, StagedSet(j), RollbackPolicy, limits, {}, o)
  {
    hide LeftAs;
    var j := w.rows.mem[d].custom.value;
    forall o
      ensures LeftAs(w, x, j.names, StagedSet(j), RollbackPolicy, limits, {}, o)
    {
      PassLeaves(w, x, j.names, StagedSet(j), RollbackPolicy, limits, {}, o);
    }
  }

  lemma UndoneRestores(w: World, x: World, d: DocId, limits: Limits)
    requires Kept(w, DUTY) && d in w.rows.mem && w.rows.mem[d].custom.Some? && w.rows.mem[d].purge == None
    requires Undone(w, x, d, limits)
    ensures BaseRestored(w, x, d, limits)
  {
    hide Kept, LeftAs, PassDone, Pruned, Clean;
    var j := w.rows.mem[d].custom.value;
    JournaledRow(w, d, j);
    UndoneObjects(w, x, d, limits);
    assert StagedSet(j) == set c | c in j.staged;
  }
}
