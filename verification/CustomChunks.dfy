/** The journaled custom-chunk insert: journal, stage, journal the candidates, merge, commit. */
module CustomChunks {
  import opened Sequences
  import opened Stores
  import opened Truncation
  import opened KnowledgeGraph
  import opened InvariantSteps
  import opened Classification
  import opened CustomChunkRow
  import opened CustomChunkPlan
  import opened CustomChunkSteps
  import opened DerivedPass
  import opened RecoveryProof
  import opened StorageEngine

  /** `NotBegun` is a first journal write that took effect and raised; one without effect leaves all as it was. */
  datatype InsertResult =
    NotAdmitted | NothingToDo | Committed | CommittedUnflushed | NotBegun | InsertFailed | InsertCrashed

  /** Nothing but the row of `d` differs in memory. */
  predicate RowOnly(w: World, x: World, d: DocId, row: Row) {
    && x.rows.mem == w.rows.mem[d := row]
    && x.graph.mem == w.graph.mem && x.tracking.mem == w.tracking.mem
    && x.chunks.mem == w.chunks.mem && (w.chunks.mem == w.chunks.disk ==> x.chunks == w.chunks)
    && x.entities.mem == w.entities.mem && x.relations.mem == w.relations.mem
  }

  method WriteRow(e: Engine, d: DocId, row: Row, ghost k: Duty) returns (ok: bool)
    requires Kept(e.State(), k) && k.Free(d) && Claims(e.State(), k.watch, d, row)
    requires e.up
    modifies e
    ensures Kept(e.State(), k) && RowOnly(old(e.State()), e.State(), d, row)
    ensures old(e.graph.mem == e.graph.disk && e.tracking.mem == e.tracking.disk) ==>
      e.graph == old(e.graph) && e.tracking == old(e.tracking)
    ensures Spent(old(e.schedule), e.schedule, e.up, ok)
  {
    RowWriteKept(e.State(), k, d, row);
    ok := e.Write(RowWritten(e.State(), d, row), k);
  }

  /** Nothing but the chunks differs in memory. */
  predicate ChunksOnly(w: World, x: World) {
    && x.graph.mem == w.graph.mem && x.tracking.mem == w.tracking.mem && x.rows.mem == w.rows.mem
    && x.entities.mem == w.entities.mem && x.relations.mem == w.relations.mem
  }

  lemma StageKept(w: World, k: Duty, d: DocId, j: CustomJournal)
    requires Kept(w, k) && k.Free(d) && k.open && Journals(w, d, j) && StagesIn(k, j.staged)
    ensures forall c :: c in j.staged ==> c.Chunk? && c.doc == d && c.key.Text?
    ensures Kept(w.(chunks := w.chunks.Upsert(Contents(j.staged))), k)
  {
    assert RowOk(w, d, w.rows.mem[d]) && CustomOk(d, w.rows.mem[d], j);
    ChunkUpsertKeepsInv(w, w.(chunks := w.chunks.Upsert(Contents(j.staged))), k.watch, d, Contents(j.staged));
    if k.frame.Some? {
      var f := k.frame.value;
      WithinAfterUpsert(f.start.chunks, w.chunks, Contents(j.staged), f.chunks);
    }
  }

  /** Stage 1 and the barrier before the merge. */
  method Stage(e: Engine, d: DocId, j: CustomJournal, ghost k: Duty) returns (ok: bool)
    requires Kept(e.State(), k) && k.Free(d) && k.open && Journals(e.State(), d, j) && StagesIn(k, j.staged)
    requires forall c :: c in j.staged ==> c.Chunk? && c.key.Text?
    requires e.up
    modifies e
    ensures Kept(e.State(), k) && ChunksOnly(old(e.State()), e.State())
    ensures e.chunks.mem == old(e.chunks.mem) + Contents(j.staged)
    ensures ok ==> e.chunks.disk == e.chunks.mem
    ensures Spent(old(e.schedule), e.schedule, e.up, ok)
  {
    StageKept(e.State(), k, d, j);
    ok := e.Write(e.State().(chunks := e.chunks.Upsert(Contents(j.staged))), k);
    if ok {
      ok := e.FlushStores(Barrier(true, false, false), k);
    }
  }

  // ----- The merge -----

  /** Nothing but the graph and the tracking rows differs in memory, and settled stores stay settled. */
  predicate MergeFrame(w: World, x: World) {
    && x.chunks.mem == w.chunks.mem && (w.chunks.mem == w.chunks.disk ==> x.chunks == w.chunks)
    && x.entities.mem == w.entities.mem && (w.entities.mem == w.entities.disk ==> x.entities == w.entities)
    && x.relations.mem == w.relations.mem && (w.relations.mem == w.relations.disk ==> x.relations == w.relations)
    && x.rows.mem == w.rows.mem
  }

  /** The objects of `done` have been merged; the others are as they were. */
  ghost predicate MergedSoFar(w: World, x: World, sample: Sample, staged: seq<SourceId>, done: set<Obj>,
      limits: Limits) {
    forall o ::
      var full := MergedSources(w.tracking.mem, w.graph.mem, o, Mentions(sample, staged, o));
      && Get(x.tracking.mem, o) == (if o in done then Some(full) else Get(w.tracking.mem, o))
      && Get(x.graph.mem, o) == (if o in done then Some(limits.Cut(o, full)) else Get(w.graph.mem, o))
  }

  /** The list a merge of the sample must make of `o`, however it is computed: exactly the staged chunks that
      mention it and its own evidential earlier sources, these first. */
  ghost predicate MergedList(w: World, o: Obj, sample: Sample, staged: seq<SourceId>, r: seq<SourceId>) {
    && (exists c :: c in staged && c in sample && Reports(sample[c], o))
    && (forall c :: c in r <==>
          (c in staged && c in sample && Reports(sample[c], o)) ||
          (EarlierSource(w.tracking.mem, w.graph.mem, o, c) && c !in NoEvidence(o)))
    && MergedInOrder(r,
         if o in w.tracking.mem then w.tracking.mem[o] else if o in w.graph.mem then w.graph.mem[o] else [],
         o, sample, staged)
  }

  lemma MergedSourcesAreList(w: World, o: Obj, sample: Sample, staged: seq<SourceId>)
    requires o in MergeCandidates(sample, staged)
    ensures MergedList(w, o, sample, staged, MergedSources(w.tracking.mem, w.graph.mem, o, Mentions(sample, staged, o)))
  {
    MergedSourcesInOrder(w.tracking.mem, w.graph.mem, o, sample, staged);
    hide MergedInOrder, MergedSources;
  }

  /** What merging a sample must make of each object: its tracking row is the merged list, and its graph list as
      much of that as the limit allows; an object that no staged chunk mentions is not written. */
  ghost predicate MergedObject(w: World, x: World, sample: Sample, staged: seq<SourceId>, limits: Limits, o: Obj) {
    if exists c :: c in staged && c in sample && Reports(sample[c], o) then
      && o in x.tracking.mem && o in x.graph.mem
      && MergedList(w, o, sample, staged, x.tracking.mem[o])
      && LimitedTo(x.graph.mem[o], x.tracking.mem[o], if o.Node? then limits.entity else limits.relation,
           limits.keepNewest)
    else
      Get(x.tracking.mem, o) == Get(w.tracking.mem, o) && Get(x.graph.mem, o) == Get(w.graph.mem, o)
  }

  lemma MergeMeans(w: World, x: World, sample: Sample, staged: seq<SourceId>, limits: Limits, o: Obj)
    requires MergedSoFar(w, x, sample, staged, MergeCandidates(sample, staged), limits)
    ensures MergedObject(w, x, sample, staged, limits, o)
  {
    hide MergedList, MergedSources;
    assert Get(x.tracking.mem, o) == Get(x.tracking.mem, o) && Get(x.graph.mem, o) == Get(x.graph.mem, o);
    if o in MergeCandidates(sample, staged) {
      MergedSourcesAreList(w, o, sample, staged);
    }
  }

  lemma AfterMergeWrite(w: World, y: World, x: World)
    requires y == w.(graph := y.graph, tracking := y.tracking) && Leaked(y, x)
    ensures MergeFrame(w, x) && x.graph.mem == y.graph.mem && x.tracking.mem == y.tracking.mem
  {
  }

  lemma TrackingMergedMeans(w: World, o: Obj, more: seq<SourceId>)
    requires more != []
    ensures
      var y := TrackingMerged(w, o, more);
      && y == w.(tracking := y.tracking)
      && y.tracking.mem == w.tracking.mem[o := MergedSources(w.tracking.mem, w.graph.mem, o, more)]
  {
    assert more[0] in MergedSources(w.tracking.mem, w.graph.mem, o, more);
  }

  method MergeTracking(e: Engine, d: DocId, j: CustomJournal, o: Obj, more: seq<SourceId>, ghost k: Duty)
      returns (ok: bool)
    requires Kept(e.State(), k) && k.Free(d) && k.open && o in k.watch && o in j.names && Journals(e.State(), d, j)
    requires more != [] && forall c :: c in more ==> c in j.staged && Stored(e.State(), c)
    requires TracksIn(k, o, MergedSources(e.tracking.mem, e.graph.mem, o, more))
    requires e.up
    modifies e
    ensures Kept(e.State(), k) && MergeFrame(old(e.State()), e.State())
    ensures e.graph.mem == old(e.graph.mem)
    ensures e.tracking.mem == old(e.tracking.mem)[o := MergedSources(old(e.tracking.mem), old(e.graph.mem), o, more)]
    ensures Spent(old(e.schedule), e.schedule, e.up, ok)
  {
    hide Kept, Leaked, MergeFrame, TrackingMerged, MergedSources;
    ghost var w := e.State();
    TrackingMergedMeans(w, o, more);
    TrackingMergeKept(w, k, d, j, o, more);
    ok := e.Write(TrackingMerged(e.State(), o, more), k);
    AfterMergeWrite(w, TrackingMerged(w, o, more), e.State());
  }

  method MergeGraph(e: Engine, d: DocId, o: Obj, ghost k: Duty) returns (ok: bool)
    requires Kept(e.State(), k) && k.Free(d) && k.open && o in k.watch && o in e.tracking.mem
    requires ListsIn(k, o, e.limits.Cut(o, e.tracking.mem[o]))
    requires e.up
    modifies e
    ensures Kept(e.State(), k) && MergeFrame(old(e.State()), e.State())
    ensures e.graph.mem == old(e.graph.mem)[o := e.limits.Cut(o, old(e.tracking.mem)[o])]
    ensures e.tracking.mem == old(e.tracking.mem)
    ensures Spent(old(e.schedule), e.schedule, e.up, ok)
  {
    hide Kept, Leaked, MergeFrame;
    ghost var w := e.State();
    GraphMergeKept(w, k, d, e.limits, o);
    ok := e.Write(GraphMerged(e.State(), e.limits, o, e.tracking.mem[o]), k);
    AfterMergeWrite(w, GraphMerged(w, e.limits, o, w.tracking.mem[o]), e.State());
  }

  method MergeObject(e: Engine, d: DocId, j: CustomJournal, o: Obj, more: seq<SourceId>, ghost k: Duty)
      returns (ok: bool)
    requires Kept(e.State(), k) && k.Free(d) && k.open && o in k.watch && o in j.names && Journals(e.State(), d, j)
    requires more != [] && forall c :: c in more ==> c in j.staged && Stored(e.State(), c)
    requires
      var full := MergedSources(e.tracking.mem, e.graph.mem, o, more);
      TracksIn(k, o, full) && ListsIn(k, o, e.limits.Cut(o, full))
    requires e.up
    modifies e
    ensures Kept(e.State(), k) && MergeFrame(old(e.State()), e.State())
    ensures
      var full := MergedSources(old(e.tracking.mem), old(e.graph.mem), o, more);
      ok ==> e.tracking.mem == old(e.tracking.mem)[o := full] && e.graph.mem == old(e.graph.mem)[o := e.limits.Cut(o, full)]
    ensures Spent(old(e.schedule), e.schedule, e.up, ok)
  {
    hide Kept;
    ok := MergeTracking(e, d, j, o, more, k);
    if ok {
      ok := MergeGraph(e, d, o, k);
    }
  }

  lemma MergeIsIn(w: World, x: World, k: Duty, sample: Sample, staged: seq<SourceId>, done: set<Obj>, o: Obj, limits: Limits)
    requires MergesIn(k, w, sample, staged, limits) && MergedSoFar(w, x, sample, staged, done, limits)
    requires o in MergeCandidates(sample, staged) && o !in done
    ensures
      var full := MergedSources(x.tracking.mem, x.graph.mem, o, Mentions(sample, staged, o));
      TracksIn(k, o, full) && ListsIn(k, o, limits.Cut(o, full))
  {
    hide MergeCandidates, Mentions;
    assert Get(x.tracking.mem, o) == Get(w.tracking.mem, o) && Get(x.graph.mem, o) == Get(w.graph.mem, o);
    assert MergedSources(x.tracking.mem, x.graph.mem, o, Mentions(sample, staged, o)) ==
           MergedSources(w.tracking.mem, w.graph.mem, o, Mentions(sample, staged, o));
  }

  lemma MergedMore(w: World, x: World, y: World, sample: Sample, staged: seq<SourceId>, done: set<Obj>, o: Obj,
      limits: Limits)
    requires MergedSoFar(w, x, sample, staged, done, limits) && o !in done
    requires
      var full := MergedSources(x.tracking.mem, x.graph.mem, o, Mentions(sample, staged, o));
      y.tracking.mem == x.tracking.mem[o := full] && y.graph.mem == x.graph.mem[o := limits.Cut(o, full)]
    ensures MergedSoFar(w, y, sample, staged, done + {o}, limits)
  {
    assert Get(x.tracking.mem, o) == Get(w.tracking.mem, o) && Get(x.graph.mem, o) == Get(w.graph.mem, o);
    assert MergedSources(x.tracking.mem, x.graph.mem, o, Mentions(sample, staged, o)) ==
           MergedSources(w.tracking.mem, w.graph.mem, o, Mentions(sample, staged, o));
  }

  ghost predicate StagedStored(w: World, j: CustomJournal) {
    forall c :: c in j.staged ==> Stored(w, c)
  }

  /** What holds at every step of the merge. */
  ghost predicate Merging(w: World, x: World, d: DocId, j: CustomJournal, k: Duty) {
    && Kept(x, k) && k.Free(d) && k.open && MergeFrame(w, x)
    && Journals(x, d, j) && StagedStored(x, j)
  }

  lemma MergingGoesOn(w: World, x: World, y: World, d: DocId, j: CustomJournal, k: Duty)
    requires Merging(w, x, d, j, k) && Kept(y, k) && MergeFrame(x, y)
    requires w.chunks.mem == w.chunks.disk
    ensures Merging(w, y, d, j, k)
  {
    hide Kept;
    forall c | c in j.staged
      ensures Stored(y, c)
    {
      assert Stored(x, c);
    }
  }

  method MergeBatch(e: Engine, d: DocId, j: CustomJournal, sample: Sample, batch: set<Obj>,
      ghost before: set<Obj>, ghost w: World, ghost k: Duty) returns (ok: bool)
    requires Merging(w, e.State(), d, j, k) && w.chunks.mem == w.chunks.disk && MergesIn(k, w, sample, j.staged, e.limits)
    requires batch !! before && batch <= MergeCandidates(sample, j.staged) <= k.watch * j.names
    requires MergedSoFar(w, e.State(), sample, j.staged, before, e.limits)
    requires e.up
    modifies e
    ensures Merging(w, e.State(), d, j, k)
    ensures ok ==> MergedSoFar(w, e.State(), sample, j.staged, before + batch, e.limits)
    ensures Spent(old(e.schedule), e.schedule, e.up, ok)
  {
    hide Kept, MergedSoFar, MergeFrame, MergedSources, MergeCandidates, Mentions;
    var todo := batch;
    ghost var done := before;
    ok := true;
    while todo != {} && ok
      invariant todo <= batch && todo !! done && todo + done == before + batch
      invariant Merging(w, e.State(), d, j, k)
      invariant ok ==> MergedSoFar(w, e.State(), sample, j.staged, done, e.limits)
      invariant Spent(old(e.schedule), e.schedule, e.up, ok)
      decreases todo
    {
      var o :| o in todo;
      ghost var x := e.State();
      CandidatesAreMentioned(sample, j.staged, o);
      MergeIsIn(w, x, k, sample, j.staged, done, o, e.limits);
      ok := MergeObject(e, d, j, o, Mentions(sample, j.staged, o), k);
      MergingGoesOn(w, x, e.State(), d, j, k);
      if ok {
        MergedMore(w, x, e.State(), sample, j.staged, done, o, e.limits);
      }
      todo := todo - {o};
      done := done + {o};
    }
    if ok {
      assert done == before + batch;
    }
  }

  /** Stage 3: entities, then relations; only candidates are written. */
  method MergeAll(e: Engine, d: DocId, j: CustomJournal, sample: Sample, ghost k: Duty) returns (ok: bool)
    requires Merging(e.State(), e.State(), d, j, k) && e.chunks.mem == e.chunks.disk
    requires MergesIn(k, e.State(), sample, j.staged, e.limits)
    requires MergeCandidates(sample, j.staged) <= k.watch * j.names
    requires e.up
    modifies e
    ensures Merging(old(e.State()), e.State(), d, j, k)
    ensures ok ==> MergedSoFar(old(e.State()), e.State(), sample, j.staged, MergeCandidates(sample, j.staged), e.limits)
    ensures ok ==> forall o :: MergedObject(old(e.State()), e.State(), sample, j.staged, e.limits, o)
    ensures Spent(old(e.schedule), e.schedule, e.up, ok)
  {
    hide Kept, MergeFrame, MergedSources, MergedObject;
    ghost var w := e.State();
    var candidates := MergeCandidates(sample, j.staged);
    var nodes := set o | o in candidates && o.Node?;
    assert MergedSoFar(w, e.State(), sample, j.staged, {}, e.limits);
    ok := MergeBatch(e, d, j, sample, nodes, {}, w, k);
    if ok {
      assert {} + nodes == nodes;
      ok := MergeBatch(e, d, j, sample, candidates - nodes, nodes, w, k);
      assert nodes + (candidates - nodes) == candidates;
      if ok {
        forall o
          ensures MergedObject(w, e.State(), sample, j.staged, e.limits, o)
        {
          MergeMeans(w, e.State(), sample, j.staged, e.limits, o);
        }
      }
    }
  }

  // ----- The anchors -----

  /** Nothing but the anchor rows of `d` differs in memory. */
  ghost predicate AnchorsOnly(w: World, x: World, d: DocId) {
    && x.graph.mem == w.graph.mem && (w.graph.mem == w.graph.disk ==> x.graph == w.graph)
    && x.tracking.mem == w.tracking.mem && (w.tracking.mem == w.tracking.disk ==> x.tracking == w.tracking)
    && x.rows.mem == w.rows.mem && (w.rows.mem == w.rows.disk ==> x.rows == w.rows)
    && x.chunks.mem == w.chunks.mem && (w.chunks.mem == w.chunks.disk ==> x.chunks == w.chunks)
    && (forall other :: other != d ==> Get(x.entities.mem, other) == Get(w.entities.mem, other))
    && (forall other :: other != d ==> Get(x.relations.mem, other) == Get(w.relations.mem, other))
  }

  lemma AfterEntityAnchors(w: World, x: World, d: DocId, names: set<string>)
    requires Leaked(EntityAnchorsSet(w, d, names), x)
    ensures AnchorsOnly(w, x, d) && x.entities.mem == w.entities.mem[d := names] && x.relations.mem == w.relations.mem
  {
  }

  lemma AfterRelationAnchors(w: World, x: World, d: DocId, pairs: set<(string, string)>)
    requires Leaked(RelationAnchorsSet(w, d, pairs), x)
    ensures AnchorsOnly(w, x, d) && x.relations.mem == w.relations.mem[d := pairs] && x.entities.mem == w.entities.mem
  {
  }

  lemma MayAnchorStays(w: World, x: World, d: DocId, names: set<string>, pairs: set<(string, string)>)
    requires MayAnchor(w, d, names, pairs) && x.given == w.given && x.rows.mem == w.rows.mem
    requires x.entities.mem == w.entities.mem[d := names] && x.relations.mem == w.relations.mem
    ensures MayAnchor(x, d, names, pairs)
  {
  }

  method SetEntityAnchors(e: Engine, d: DocId, names: set<string>, pairs: set<(string, string)>, ghost k: Duty)
      returns (ok: bool)
    requires Kept(e.State(), k) && k.Free(d) && k.open && MayAnchor(e.State(), d, names, pairs)
    requires e.up
    modifies e
    ensures Kept(e.State(), k) && AnchorsOnly(old(e.State()), e.State(), d) && MayAnchor(e.State(), d, names, pairs)
    ensures e.entities.mem == old(e.entities.mem)[d := names] && e.relations.mem == old(e.relations.mem)
    ensures Spent(old(e.schedule), e.schedule, e.up, ok)
  {
    hide Kept, Leaked, MayAnchor, AnchorsOnly, EntityAnchorsSet, RelationAnchorsSet;
    ghost var w := e.State();
    AnchorsSetKept(w, EntityAnchorsSet(w, d, names), k, d, names, pairs);
    ok := e.Write(EntityAnchorsSet(e.State(), d, names), k);
    AfterEntityAnchors(w, e.State(), d, names);
    MayAnchorStays(w, e.State(), d, names, pairs);
  }

  method SetRelationAnchors(e: Engine, d: DocId, names: set<string>, pairs: set<(string, string)>, ghost k: Duty)
      returns (ok: bool)
    requires Kept(e.State(), k) && k.Free(d) && k.open && MayAnchor(e.State(), d, names, pairs)
    requires e.up
    modifies e
    ensures Kept(e.State(), k) && AnchorsOnly(old(e.State()), e.State(), d)
    ensures e.entities.mem == old(e.entities.mem) && e.relations.mem == old(e.relations.mem)[d := pairs]
    ensures Spent(old(e.schedule), e.schedule, e.up, ok)
  {
    hide Kept, Leaked, MayAnchor, AnchorsOnly, EntityAnchorsSet, RelationAnchorsSet;
    ghost var w := e.State();
    AnchorsSetKept(w, RelationAnchorsSet(w, d, pairs), k, d, names, pairs);
    ok := e.Write(RelationAnchorsSet(e.State(), d, pairs), k);
    AfterRelationAnchors(w, e.State(), d, pairs);
  }

  /** Both anchor rows, then the narrow barrier over them. */
  method SetAnchors(e: Engine, d: DocId, names: set<string>, pairs: set<(string, string)>, ghost k: Duty)
      returns (ok: bool)
    requires Kept(e.State(), k) && k.Free(d) && k.open && MayAnchor(e.State(), d, names, pairs)
    requires e.up
    modifies e
    ensures Kept(e.State(), k) && AnchorsOnly(old(e.State()), e.State(), d)
    ensures ok ==> e.entities.mem == e.entities.disk == old(e.entities.mem)[d := names]
    ensures ok ==> e.relations.mem == e.relations.disk == old(e.relations.mem)[d := pairs]
    ensures Spent(old(e.schedule), e.schedule, e.up, ok)
  {
    hide Kept, MayAnchor;
    ok := SetEntityAnchors(e, d, names, pairs, k);
    if ok {
      ok := SetRelationAnchors(e, d, names, pairs, k);
    }
    if ok {
      ok := e.FlushStores(Barrier(false, true, false), k);
    }
  }

  // ----- The operation, from the first journal write on -----

  /** The journal with this attempt's candidates unioned in and its truncation record folded in. */
  function Applying(j: CustomJournal, names: set<Obj>, attempt: Option<Payload>): CustomJournal {
    j.(names := j.names + names, record := Merge(j.record, attempt))
  }

  function AppliedRow(row: Row, j: CustomJournal): Row {
    Transition(Some(row), "", Processing, Some(j), None, Carry)
  }

  function FailedRow(row: Row, j: CustomJournal, record: Option<Payload>): Row {
    Transition(Some(row), "", Failed, Some(j), None, Stamped(record))
  }

  /** The operation's state between two writes: its journal is on the row, and names what may be merged. */
  ghost predicate Working(w: World, d: DocId, j: CustomJournal, k: Duty) {
    && Kept(w, k) && k.Free(d) && k.open && Journals(w, d, j)
    && w.rows.mem[d].chunksCount == |w.rows.mem[d].chunksList|
    && Scope(w.rows.mem[d]) != {} && AnchorsUsable(w, d, w.rows.mem[d])
  }

  /** Staging, the barrier, and the candidates' write-ahead. */
  method StageAndApply(e: Engine, d: DocId, j: CustomJournal, sample: Sample, attempt: Option<Payload>,
      ghost k: Duty) returns (ok: bool)
    requires Working(e.State(), d, j, k) && StagesIn(k, j.staged)
    requires forall c :: c in j.staged ==> c.Chunk? && c.key.Text?
    requires e.up
    modifies e
    ensures
      var j1 := Applying(j, MergeCandidates(sample, j.staged), attempt);
      && (Working(e.State(), d, j, k) || Working(e.State(), d, j1, k))
      && (ok ==> Working(e.State(), d, j1, k) && StagedStored(e.State(), j1) && e.chunks.mem == e.chunks.disk)
      && (ok ==> RowOnly(old(e.State()).(chunks := e.chunks), e.State(), d, AppliedRow(old(e.rows.mem[d]), j1)))
      && (ok ==> e.chunks.mem == old(e.chunks.mem) + Contents(j.staged))
    ensures d in e.rows.mem
    ensures Unfinished(old(e.rows.mem[d]), e.rows.mem[d], j, MergeCandidates(sample, j.staged), attempt)
    ensures Spent(old(e.schedule), e.schedule, e.up, ok)
  {
    hide Kept, Claims, RowOk, MergeCandidates, Merge, Scope;
    ok := Stage(e, d, j, k);
    if ok {
      StagedIsStored(e.State(), j);
      var j1 := Applying(j, MergeCandidates(sample, j.staged), attempt);
      SameScopeApplied(e.rows.mem[d], j1);
      KeptOwnRow(e.State(), k, d);
      SameClaimsHold(e.State(), k.watch, d, e.rows.mem[d], AppliedRow(e.rows.mem[d], j1));
      ok := WriteRow(e, d, AppliedRow(e.rows.mem[d], j1), k);
    }
  }

  lemma StagedIsStored(w: World, j: CustomJournal)
    requires w.chunks.mem == w.chunks.disk && forall c :: c in j.staged ==> c in w.chunks.mem
    ensures StagedStored(w, j)
  {
  }

  lemma SameScopeApplied(row: Row, j: CustomJournal)
    requires row.custom.Some? && row.custom.value.staged == j.staged
    ensures Scope(AppliedRow(row, j)) == Scope(row)
  {
  }

  /** What every journaled transition leaves alone: everything but the status, the record stamped on the row,
      and what the journal accumulates. */
  predicate SameBase(row: Row, next: Row) {
    && next.custom.Some? && row.custom.Some?
    && row.custom.value.names <= next.custom.value.names
    && next == row.(
         status := next.status, truncation := next.truncation,
         custom := Some(row.custom.value.(names := next.custom.value.names, record := next.custom.value.record)))
  }

  lemma KeptOwnRow(w: World, k: Duty, d: DocId)
    requires Kept(w, k) && d in w.rows.mem
    ensures Claims(w, k.watch, d, w.rows.mem[d]) && RowOk(w, d, w.rows.mem[d])
  {
    OwnRowClaims(w, k.watch, d);
  }

  /** Ready to merge: candidates journaled, staged chunks durable. */
  ghost predicate Ready(w: World, d: DocId, j: CustomJournal, k: Duty) {
    && Working(w, d, j, k) && StagedStored(w, j) && w.chunks.mem == w.chunks.disk
    && (j.mode == Create ==> w.rows.mem[d].chunksList == [])
  }

  lemma ReadyAfterAnchors(w: World, x: World, d: DocId, j: CustomJournal, k: Duty)
    requires Ready(w, d, j, k) && AnchorsOnly(w, x, d) && Kept(x, k) && x.given == w.given
    requires AnchorRowsAt(x, Mem, d) || j.mode == Create
    ensures Ready(x, d, j, k)
  {
    hide Kept;
    forall c | c in j.staged
      ensures Stored(x, c)
    {
      assert Stored(w, c);
    }
  }

  lemma ReadyAfterMerge(w: World, x: World, d: DocId, j: CustomJournal, k: Duty)
    requires Ready(w, d, j, k) && Merging(w, x, d, j, k) && x.given == w.given
    ensures Ready(x, d, j, k)
  {
    hide Kept;
  }

  lemma ReadyAfterFlush(w: World, d: DocId, j: CustomJournal, k: Duty)
    requires Ready(w, d, j, k) && Kept(FlushedAll(w), k)
    ensures Ready(FlushedAll(w), d, j, k)
  {
    hide Kept;
    forall c | c in j.staged
      ensures Stored(FlushedAll(w), c)
    {
      assert Stored(w, c);
    }
  }

  /** The anchors the merge of a create writes ahead: this attempt's candidates only. */
  method WriteAhead(e: Engine, d: DocId, j: CustomJournal, candidates: set<Obj>, ghost k: Duty) returns (ok: bool)
    requires Ready(e.State(), d, j, k) && j.mode == Create
    requires e.up
    modifies e
    ensures Kept(e.State(), k) && AnchorsOnly(old(e.State()), e.State(), d)
    ensures ok ==> Ready(e.State(), d, j, k)
    ensures ok ==> e.entities.mem == e.entities.disk == old(e.entities.mem)[d := NamesOf(candidates)]
    ensures ok ==> e.relations.mem == e.relations.disk == old(e.relations.mem)[d := PairsOf(candidates)]
    ensures Spent(old(e.schedule), e.schedule, e.up, ok)
  {
    hide Kept;
    ok := SetAnchors(e, d, NamesOf(candidates), PairsOf(candidates), k);
    ReadyAfterAnchors(old(e.State()), e.State(), d, j, k);
  }

  /** The union at commit: the anchors keep what they had and name every journaled object. */
  method UnionAnchors(e: Engine, d: DocId, j: CustomJournal, ghost k: Duty) returns (ok: bool)
    requires Ready(e.State(), d, j, k)
    requires e.up
    modifies e
    ensures Kept(e.State(), k) && AnchorsOnly(old(e.State()), e.State(), d)
    ensures ok ==> Ready(e.State(), d, j, k) && AnchorsCover(e.State(), d, j.names)
    ensures ok ==> e.entities.mem == e.entities.disk && e.relations.mem == e.relations.disk
    ensures ok ==> e.entities.mem == old(e.entities.mem)[d := EntityRow(old(e.State()), d) + NamesOf(j.names)]
    ensures ok ==> e.relations.mem == old(e.relations.mem)[d := RelationRow(old(e.State()), d) + PairsOf(j.names)]
    ensures Spent(old(e.schedule), e.schedule, e.up, ok)
  {
    hide Kept;
    var names := EntityRow(e.State(), d) + NamesOf(j.names);
    var pairs := RelationRow(e.State(), d) + PairsOf(j.names);
    ok := SetAnchors(e, d, names, pairs, k);
    if ok {
      ReadyAfterAnchors(old(e.State()), e.State(), d, j, k);
    }
  }

  lemma MergedReadsMemory(w: World, w1: World, x: World, x1: World, sample: Sample, staged: seq<SourceId>,
      done: set<Obj>, limits: Limits)
    requires MergedSoFar(w, x, sample, staged, done, limits)
    requires w1.graph.mem == w.graph.mem && w1.tracking.mem == w.tracking.mem
    requires x1.graph.mem == x.graph.mem && x1.tracking.mem == x.tracking.mem
    ensures MergedSoFar(w1, x1, sample, staged, done, limits)
  {
    forall o
      ensures
        var full := MergedSources(w1.tracking.mem, w1.graph.mem, o, Mentions(sample, staged, o));
        && Get(x1.tracking.mem, o) == (if o in done then Some(full) else Get(w1.tracking.mem, o))
        && Get(x1.graph.mem, o) == (if o in done then Some(limits.Cut(o, full)) else Get(w1.graph.mem, o))
    {
      assert Get(x.tracking.mem, o) == Get(x.tracking.mem, o);
    }
  }

  /** Nothing in memory but the graph and the tracking rows differs. */
  predicate MergedOnly(w: World, x: World) {
    && x.chunks.mem == w.chunks.mem && x.rows.mem == w.rows.mem
    && x.entities.mem == w.entities.mem && x.relations.mem == w.relations.mem
  }

  /** The merge, and the all-storage barrier after it. */
  method MergeAndFlush(e: Engine, d: DocId, j: CustomJournal, sample: Sample, ghost k: Duty) returns (ok: bool)
    requires Ready(e.State(), d, j, k) && MergeCandidates(sample, j.staged) <= k.watch * j.names
    requires MergesIn(k, e.State(), sample, j.staged, e.limits)
    requires e.up
    modifies e
    ensures Kept(e.State(), k) && MergedOnly(old(e.State()), e.State())
    ensures ok ==> Ready(e.State(), d, j, k) && e.State() == FlushedAll(e.State())
    ensures ok ==> MergedSoFar(old(e.State()), e.State(), sample, j.staged, MergeCandidates(sample, j.staged), e.limits)
    ensures Spent(old(e.schedule), e.schedule, e.up, ok)
  {
    hide Kept, MergedSoFar;
    ghost var w := e.State();
    ok := MergeAll(e, d, j, sample, k);
    if ok {
      ghost var x := e.State();
      ReadyAfterMerge(w, x, d, j, k);
      ok := e.FlushAll(k);
      if ok {
        ReadyAfterFlush(x, d, j, k);
        MergedReadsMemory(w, w, x, e.State(), sample, j.staged, MergeCandidates(sample, j.staged), e.limits);
      }
    }
  }

  lemma SettledAfterUnion(w: World, x: World, d: DocId)
    requires Settled(w) && AnchorsOnly(w, x, d) && x.given == w.given
    requires x.entities.mem == x.entities.disk && x.relations.mem == x.relations.disk
    ensures Settled(x)
  {
    SettledStores(w);
  }

  /** The anchors of `d` after a committed merge: in memory exactly what a patch had and the names, in both
      views at least the names. */
  ghost predicate AnchorsGrown(w: World, x: World, d: DocId, mode: Mode, names: set<Obj>) {
    && EntityRow(x, d) == (if mode == Patch then EntityRow(w, d) else {}) + NamesOf(names)
    && RelationRow(x, d) == (if mode == Patch then RelationRow(w, d) else {}) + PairsOf(names)
    && (forall other :: other != d ==> Get(x.entities.mem, other) == Get(w.entities.mem, other))
    && (forall other :: other != d ==> Get(x.relations.mem, other) == Get(w.relations.mem, other))
    && AnchorsCover(x, d, names)
  }

  /** Write-ahead of a create, merge, barrier, and the union that patches and resumes need. */
  method RunMerge(e: Engine, d: DocId, j: CustomJournal, resume: bool, sample: Sample, ghost k: Duty) returns (ok: bool)
    requires Ready(e.State(), d, j, k) && MergeCandidates(sample, j.staged) <= k.watch * j.names
    requires MergesIn(k, e.State(), sample, j.staged, e.limits)
    requires j.mode == Create && !resume ==> j.names == MergeCandidates(sample, j.staged)
    requires e.up
    modifies e
    ensures Kept(e.State(), k) && e.rows.mem == old(e.rows.mem) && e.chunks.mem == old(e.chunks.mem)
    ensures ok ==> Ready(e.State(), d, j, k) && AnchorsGrown(old(e.State()), e.State(), d, j.mode, j.names)
    ensures ok ==> Settled(e.State())
    ensures ok ==> MergedSoFar(old(e.State()), e.State(), sample, j.staged, MergeCandidates(sample, j.staged), e.limits)
    ensures Spent(old(e.schedule), e.schedule, e.up, ok)
  {
    hide Kept, MergedSoFar, Ready, AnchorsCover, AnchorsGrown, MergeCandidates, EntityRow, RelationRow;
    ghost var w := e.State();
    ok := true;
    if j.mode == Create {
      ReadyMode(w, d, j, k);
      ok := WriteAhead(e, d, j, MergeCandidates(sample, j.staged), k);
    }
    if ok {
      ghost var w1 := e.State();
      MergesInMemory(k, w, w1, sample, j.staged, e.limits);
      ok := MergeAndFlush(e, d, j, sample, k);
      if ok {
        ghost var x := e.State();
        if j.mode == Patch || resume {
          ok := UnionAnchors(e, d, j, k);
        }
        if ok {
          if j.mode == Patch || resume {
            SettledAfterUnion(x, e.State(), d);
          }
          AnchorsAfter(w, w1, x, e.State(), d, j, resume, MergeCandidates(sample, j.staged));
          MergedReadsMemory(w1, w, x, e.State(), sample, j.staged, MergeCandidates(sample, j.staged), e.limits);
        }
      }
    }
  }

  /** What the write-ahead and the union make of the anchors. */
  lemma AnchorsAfter(w: World, w1: World, x: World, y: World, d: DocId, j: CustomJournal, resume: bool,
      candidates: set<Obj>)
    requires candidates <= j.names && (j.mode == Create && !resume ==> j.names == candidates)
    requires if j.mode == Create then
        && AnchorsOnly(w, w1, d)
        && w1.entities.mem == w.entities.mem[d := NamesOf(candidates)] && w1.relations.mem == w.relations.mem[d := PairsOf(candidates)]
      else
        w1 == w
    requires MergedOnly(w1, x) && x == FlushedAll(x)
    requires if j.mode == Patch || resume then
        && AnchorsOnly(x, y, d) && AnchorsCover(y, d, j.names)
        && y.entities.mem == x.entities.mem[d := EntityRow(x, d) + NamesOf(j.names)]
        && y.relations.mem == x.relations.mem[d := RelationRow(x, d) + PairsOf(j.names)]
      else
        y == x
    ensures AnchorsGrown(w, y, d, j.mode, j.names)
  {
    if j.mode == Create {
      MoreNames(candidates, j.names);
      if !resume {
        WrittenAheadCovers(x, d, j.names);
      }
    }
    hide AnchorsCover;
  }

  lemma MoreNames(fewer: set<Obj>, names: set<Obj>)
    requires fewer <= names
    ensures NamesOf(fewer) + NamesOf(names) == NamesOf(names) && PairsOf(fewer) + PairsOf(names) == PairsOf(names)
    ensures {} + NamesOf(names) == NamesOf(names) && {} + PairsOf(names) == PairsOf(names)
  {
  }

  /** What a first create wrote ahead, once every store is flushed, names all it merged. */
  lemma WrittenAheadCovers(w: World, d: DocId, names: set<Obj>)
    requires w == FlushedAll(w) && d in w.entities.mem && d in w.relations.mem
    requires w.entities.mem[d] == NamesOf(names) && w.relations.mem[d] == PairsOf(names)
    ensures AnchorsCover(w, d, names)
  {
    assert w.entities == w.entities.Flush() && w.relations == w.relations.Flush();
  }

  lemma ReadyMode(w: World, d: DocId, j: CustomJournal, k: Duty)
    requires Ready(w, d, j, k)
    ensures d in w.rows.mem
  {
  }

  // ----- Commit and failure -----

  /** The commit record.  If the call raises, the failure path will overwrite the record with the
      journaled row it started from, so that row must still answer for everything. */
  method CommitRow(e: Engine, d: DocId, j: CustomJournal, record: Option<Payload>, ghost k: Duty) returns (ok: bool)
    requires Ready(e.State(), d, j, k) && AnchorsCover(e.State(), d, j.names)
    requires e.up
    modifies e
    ensures Kept(e.State(), k) && Claims(e.State(), k.watch, d, old(e.rows.mem[d]))
    ensures RowOnly(old(e.State()), e.State(), d, CommittedRow(old(e.rows.mem[d]), record))
    ensures AnchorsCover(e.State(), d, j.names)
    ensures Settled(old(e.State())) ==> Settled(e.State())
    ensures Spent(old(e.schedule), e.schedule, e.up, ok)
  {
    hide Kept, Leaked, RemixWorld, Claims, AnchorsCover;
    ghost var w := e.State();
    var row := e.rows.mem[d];
    ghost var x := RowWritten(w, d, CommittedRow(row, record));
    KeptOwnRow(w, k, d);
    CommitIsClaimed(w, k, d, j, record);
    RowWriteKept(w, k, d, CommittedRow(row, record));
    ClaimsIgnoreRows(w, x, k.watch, d, row);
    e.Become(RowWritten(e.State(), d, CommittedRow(row, record)));
    ok := e.Interleave(k);
    ClaimsSurvive(x, e.State(), k.watch, d, row);
    RowOnlyAfterWrite(w, e.State(), d, CommittedRow(row, record));
    SettledAfterWrite(w, e.State(), d, CommittedRow(row, record));
    CoverSurvives(w, x, e.State(), d, j.names);
  }

  lemma CoverSurvives(w: World, x: World, y: World, d: DocId, names: set<Obj>)
    requires AnchorsCover(w, d, names) && x == w.(rows := x.rows) && RemixWorld(x, y)
    ensures AnchorsCover(y, d, names)
  {
    assert AnchorRowsAt(w, Mem, d) && AnchorRowsAt(w, Disk, d);
    assert NamesOf(names) <= w.entities.At(Mem)[d] && NamesOf(names) <= w.entities.At(Disk)[d];
    assert PairsOf(names) <= w.relations.At(Mem)[d] && PairsOf(names) <= w.relations.At(Disk)[d];
    RemixAt(x.entities, y.entities, d);
    RemixAt(x.relations, y.relations, d);
    forall v: View
      ensures AnchorRowsAt(y, v, d) && NamesOf(names) <= y.entities.At(v)[d] && PairsOf(names) <= y.relations.At(v)[d]
    {
    }
  }

  lemma CommitIsClaimed(w: World, k: Duty, d: DocId, j: CustomJournal, record: Option<Payload>)
    requires Ready(w, d, j, k) && AnchorsCover(w, d, j.names)
    ensures Claims(w, k.watch, d, CommittedRow(w.rows.mem[d], record))
  {
    CommitClaims(w, k.watch, d, j, record);
  }

  lemma SettledAfterWrite(w: World, x: World, d: DocId, row: Row)
    requires Leaked(RowWritten(w, d, row), x) && x.given == w.given
    ensures Settled(w) ==> Settled(x)
  {
    if Settled(w) {
      SettledStores(w);
      SettledStores(x);
    }
  }

  lemma RowOnlyAfterWrite(w: World, x: World, d: DocId, row: Row)
    requires Leaked(RowWritten(w, d, row), x)
    ensures RowOnly(w, x, d, row)
  {
  }

  /** Between commands: the invariant with nothing watched, and every anchor row in memory durable. */
  ghost predicate Steady(w: World) {
    Inv(w, {}) && KeysDurable(w.entities) && KeysDurable(w.relations)
  }

  lemma SettledIsSteady(w: World, k: Duty)
    requires Kept(w, k) && Settled(w)
    ensures Steady(w)
  {
    forall o, c | Evidence(w, {}, o, c)
      ensures Backed(w, o, c)
    {
      assert Evidence(w, k.watch, o, c);
    }
    SettledStores(w);
  }

  lemma RevertedIsSettled(w: World)
    ensures Settled(Reverted(w)) && (Settled(w) ==> Reverted(w) == w)
  {
    SettledStores(w);
    SettledStores(Reverted(w));
  }

  /** The row of `d` in memory is what a crash leaves. */
  lemma RevertedRow(w: World, k: Duty, d: DocId)
    requires Kept(w, k) && d in w.rows.mem
    ensures d in Reverted(w).rows.mem && Reverted(w).rows.mem[d] == w.rows.mem[d]
  {
  }

  lemma LeakedSettled(w: World, x: World)
    requires Settled(w) && Leaked(w, x) && x.given == w.given
    ensures x == w
  {
    SettledStores(w);
  }

  /** The failure exit: record it, keep the journal, drop every pending write.  After a crash nothing is
      recorded; and the record may itself fail, with or without having had an effect. */
  method FailInsert(e: Engine, d: DocId, base: Row, j: CustomJournal, record: Option<Payload>, ghost k: Duty)
      returns (crashed: bool)
    requires Kept(e.State(), k) && k.Free(d) && Claims(e.State(), k.watch, d, base) && d in e.rows.mem
    requires SameClaims(base, FailedRow(base, j, record))
    modifies e
    ensures Steady(e.State()) && Kept(e.State(), k) && Settled(e.State()) && e.up
    ensures d in e.rows.mem
    ensures e.rows.mem[d] == FailedRow(base, j, record) || (
      e.rows.mem[d] == old(e.rows.mem[d]) && (Settled(old(e.State())) ==> e.State() == old(e.State())))
    ensures !crashed ==> e.rows.mem[d] == FailedRow(base, j, record) || Faults(e.schedule) < Faults(old(e.schedule))
    ensures crashed ==> !old(e.up) || Faults(e.schedule) < Faults(old(e.schedule))
    ensures Faults(e.schedule) <= Faults(old(e.schedule))
  {
    hide Claims, Kept, Leaked, RemixWorld, Settled;
    if e.up {
      ghost var w := e.State();
      var ok := e.Interleave(k);
      if Settled(w) {
        LeakedSettled(w, e.State());
      }
      LeakedRows(w, e.State());
      if ok {
        ClaimsSurvive(w, e.State(), k.watch, d, base);
        SameClaimsHold(e.State(), k.watch, d, base, FailedRow(base, j, record));
        ok := WriteRow(e, d, FailedRow(base, j, record), k);
      }
    }
    crashed := !e.up;
    ghost var x := e.State();
    RevertedRow(x, k, d);
    RevertedIsSettled(x);
    e.Crash(k);
    SettledIsSteady(e.State(), k);
  }

  lemma LeakedRows(w: World, x: World)
    requires Leaked(w, x)
    ensures x.rows.mem == w.rows.mem
  {
  }

  /** The success exit: flush; if the barrier fails, drop what is pending. */
  method CloseInsert(e: Engine, d: DocId, ghost k: Duty) returns (ok: bool)
    requires Kept(e.State(), k) && d in e.rows.mem
    modifies e
    ensures Steady(e.State()) && Kept(e.State(), k) && Settled(e.State()) && e.up
    ensures d in e.rows.mem && e.rows.mem[d] == old(e.rows.mem[d])
    ensures Settled(old(e.State())) ==> e.State() == old(e.State())
    ensures old(e.up) ==> Spent(old(e.schedule), e.schedule, e.up, ok)
    ensures Faults(e.schedule) <= Faults(old(e.schedule))
  {
    hide Kept, Leaked;
    ok := false;
    ghost var w := e.State();
    if e.up {
      ok := e.FlushAll(k);
      if Settled(w) {
        LeakedSettled(w, e.State());
      }
      LeakedRows(w, e.State());
    }
    if ok {
      FlushedIsSettled(w);
    } else {
      ghost var x := e.State();
      RevertedRow(x, k, d);
      RevertedIsSettled(x);
      e.Crash(k);
    }
    SettledIsSteady(e.State(), k);
  }

  lemma FlushedIsSettled(w: World)
    ensures Settled(FlushedAll(w))
  {
  }

  /** What an operation has done, in memory, once its row is `row`: the chunks staged, exactly its sample
      merged, every object any attempt may have written anchored. */
  ghost predicate MergedAs(w: World, x: World, d: DocId, j: CustomJournal, sample: Sample,
      attempt: Option<Payload>, limits: Limits, row: Row)
    requires forall c :: c in j.staged ==> c.Chunk? && c.key.Text?
  {
    var candidates := MergeCandidates(sample, j.staged);
    && x.rows.mem == w.rows.mem[d := row]
    && x.chunks.mem == w.chunks.mem + Contents(j.staged)
    && MergedSoFar(w, x, sample, j.staged, candidates, limits)
    && AnchorsGrown(w, x, d, j.mode, Applying(j, candidates, attempt).names)
  }

  function AppliedAt(w: World, d: DocId, j: CustomJournal, sample: Sample, attempt: Option<Payload>): Row
    requires d in w.rows.mem
  {
    AppliedRow(w.rows.mem[d], Applying(j, MergeCandidates(sample, j.staged), attempt))
  }

  /** What an operation that committed has done, in memory. */
  ghost predicate DoneAs(w: World, x: World, d: DocId, j: CustomJournal, sample: Sample,
      attempt: Option<Payload>, limits: Limits)
    requires d in w.rows.mem
    requires forall c :: c in j.staged ==> c.Chunk? && c.key.Text?
  {
    MergedAs(w, x, d, j, sample, attempt, limits, CommittedRow(AppliedAt(w, d, j, sample, attempt), TerminalRecord(j, attempt)))
  }

  lemma AssembleMerged(w: World, w1: World, x: World, d: DocId, j: CustomJournal, sample: Sample,
      attempt: Option<Payload>, limits: Limits)
    requires forall c :: c in j.staged ==> c.Chunk? && c.key.Text?
    requires
      && d in w.rows.mem
      && RowOnly(w.(chunks := w1.chunks), w1, d, AppliedAt(w, d, j, sample, attempt))
      && w1.chunks.mem == w.chunks.mem + Contents(j.staged)
      && x.rows.mem == w1.rows.mem && x.chunks.mem == w1.chunks.mem
      && MergedSoFar(w1, x, sample, j.staged, MergeCandidates(sample, j.staged), limits)
      && AnchorsGrown(w1, x, d, j.mode, Applying(j, MergeCandidates(sample, j.staged), attempt).names)
    ensures MergedAs(w, x, d, j, sample, attempt, limits, AppliedAt(w, d, j, sample, attempt))
  {
    MergedReadsMemory(w1, w, x, x, sample, j.staged, MergeCandidates(sample, j.staged), limits);
  }

  lemma AssembleDone(w: World, w1: World, x: World, d: DocId, j: CustomJournal, sample: Sample,
      attempt: Option<Payload>, limits: Limits)
    requires d in w.rows.mem && forall c :: c in j.staged ==> c.Chunk? && c.key.Text?
    requires
      var row := AppliedAt(w, d, j, sample, attempt);
      && MergedAs(w, w1, d, j, sample, attempt, limits, row)
      && RowOnly(w1, x, d, CommittedRow(row, TerminalRecord(j, attempt)))
      && AnchorsCover(x, d, Applying(j, MergeCandidates(sample, j.staged), attempt).names)
    ensures DoneAs(w, x, d, j, sample, attempt, limits)
  {
    MergedReadsMemory(w, w, w1, x, sample, j.staged, MergeCandidates(sample, j.staged), limits);
    assert x.rows.mem == w.rows.mem[d := x.rows.mem[d]];
  }

  lemma MergedCovers(w: World, x: World, d: DocId, j: CustomJournal, sample: Sample, attempt: Option<Payload>,
      limits: Limits, row: Row)
    requires forall c :: c in j.staged ==> c.Chunk? && c.key.Text?
    requires MergedAs(w, x, d, j, sample, attempt, limits, row)
    ensures d in x.rows.mem && x.rows.mem[d] == row
    ensures AnchorsCover(x, d, Applying(j, MergeCandidates(sample, j.staged), attempt).names)
  {
  }

  /** The failure is on record: status, journal and stamped record say so, the journal names at most what it
      named and this attempt's candidates, and everything else is as it was. */
  predicate FailureRecorded(row: Row, next: Row, candidates: set<Obj>, attempt: Option<Payload>) {
    && SameBase(row, next) && next.status == Failed
    && (next.custom.value.names == row.custom.value.names || next.custom.value.names == row.custom.value.names + candidates)
    && next.custom.value.record == Merge(row.custom.value.record, attempt)
    && next.truncation == Merge(row.custom.value.prior, Merge(row.custom.value.record, attempt))
  }

  /** The row before the commit: as begun, or with this attempt's candidates and events in the journal. */
  predicate Unfinished(row: Row, next: Row, j: CustomJournal, candidates: set<Obj>, attempt: Option<Payload>) {
    && row.custom == Some(j)
    && (next == row ||
        next == row.(status := Processing,
          custom := Some(j.(names := j.names + candidates, record := Merge(j.record, attempt)))))
  }

  /** How an operation that was begun may fail.  Unless recording the failure failed too, or the process went
      down, the failure is on record; otherwise it may also be unfinished still, or the commit
      record took effect before its call failed. */
  ghost predicate FailedAs(w: World, x: World, d: DocId, j: CustomJournal, sample: Sample,
      attempt: Option<Payload>, limits: Limits, crashed: bool, failures: int)
    requires d in w.rows.mem && forall c :: c in j.staged ==> c.Chunk? && c.key.Text?
  {
    && d in x.rows.mem
    && (FailureRecorded(w.rows.mem[d], x.rows.mem[d], MergeCandidates(sample, j.staged), attempt) ||
        ((crashed || failures > 1) &&
         (Unfinished(w.rows.mem[d], x.rows.mem[d], j, MergeCandidates(sample, j.staged), attempt) ||
          DoneAs(w, x, d, j, sample, attempt, limits))))
  }

  /** From the first journal write to the commit record. */
  method MergeOperation(e: Engine, d: DocId, j: CustomJournal, resume: bool, sample: Sample,
      attempt: Option<Payload>, ghost k: Duty) returns (ok: bool)
    requires Working(e.State(), d, j, k) && MergeCandidates(sample, j.staged) <= k.watch
    requires StagesIn(k, j.staged) && MergesIn(k, e.State(), sample, j.staged, e.limits)
    requires forall c :: c in j.staged ==> c.Chunk? && c.key.Text?
    requires j.mode == Create ==> e.rows.mem[d].chunksList == []
    requires j.mode == Create && !resume ==> j.names == {}
    requires e.up
    modifies e
    ensures Kept(e.State(), k) && d in e.rows.mem
    ensures Unfinished(old(e.rows.mem[d]), e.rows.mem[d], j, MergeCandidates(sample, j.staged), attempt)
    ensures e.rows.mem[d].custom.Some? && e.rows.mem[d].purge == None
    ensures e.rows.mem[d].chunksCount == |e.rows.mem[d].chunksList|
    ensures ok ==>
      && Settled(e.State()) && Ready(e.State(), d, Applying(j, MergeCandidates(sample, j.staged), attempt), k)
      && MergedAs(old(e.State()), e.State(), d, j, sample, attempt, e.limits, AppliedAt(old(e.State()), d, j, sample, attempt))
    ensures Spent(old(e.schedule), e.schedule, e.up, ok)
  {
    hide Kept, MergedAs, AnchorsGrown, AnchorsCover, MergedSoFar, Settled;
    ghost var w := e.State();
    ok := StageAndApply(e, d, j, sample, attempt, k);
    ghost var w1 := e.State();
    if ok {
      MergesInMemory(k, w, w1, sample, j.staged, e.limits);
      ok := RunMerge(e, d, Applying(j, MergeCandidates(sample, j.staged), attempt), resume, sample, k);
      if ok {
        AssembleMerged(w, w1, e.State(), d, j, sample, attempt, e.limits);
      }
    }
  }

  /** From the first journal write to the commit record, or to the failure exit. */
  method RunOperation(e: Engine, d: DocId, j: CustomJournal, resume: bool, sample: Sample,
      attempt: Option<Payload>, ghost k: Duty) returns (ok: bool, crashed: bool)
    requires Working(e.State(), d, j, k) && MergeCandidates(sample, j.staged) <= k.watch
    requires StagesIn(k, j.staged) && MergesIn(k, e.State(), sample, j.staged, e.limits)
    requires forall c :: c in j.staged ==> c.Chunk? && c.key.Text?
    requires j.mode == Create ==> e.rows.mem[d].chunksList == []
    requires j.mode == Create && !resume ==> j.names == {}
    requires e.up
    modifies e
    ensures Kept(e.State(), k) && Settled(e.State())
    ensures ok ==> DoneAs(old(e.State()), e.State(), d, j, sample, attempt, e.limits)
    ensures !ok ==>
      && Steady(e.State())
      && FailedAs(old(e.State()), e.State(), d, j, sample, attempt, e.limits, crashed, Faults(old(e.schedule)) - Faults(e.schedule))
    ensures Spent(old(e.schedule), e.schedule, e.up, ok) && e.up
  {
    hide Kept, Claims, MergedAs, DoneAs, AnchorsCover, Steady, Settled, Working, Ready, MergeCandidates, Merge;
    hide Unfinished, FailureRecorded, FailedRow, TerminalRecord, SameClaims, AppliedAt, CommittedRow;
    ghost var w := e.State();
    WorkingRow(w, d, j, k);
    var record := TerminalRecord(j, attempt);
    crashed := false;
    ok := MergeOperation(e, d, j, resume, sample, attempt, k);
    var base := e.rows.mem[d];
    KeptOwnRow(e.State(), k, d);
    if ok {
      ghost var w1 := e.State();
      MergedCovers(w, w1, d, j, sample, attempt, e.limits, AppliedAt(w, d, j, sample, attempt));
      ok := CommitRow(e, d, Applying(j, MergeCandidates(sample, j.staged), attempt), record, k);
      AssembleDone(w, w1, e.State(), d, j, sample, attempt, e.limits);
      if ok {
        return;
      }
    }
    FailedRowMeans(w.rows.mem[d], base, j, MergeCandidates(sample, j.staged), attempt);
    crashed := FailInsert(e, d, base, base.custom.value.(record := Merge(j.record, attempt)), record, k);
  }

  lemma FailedRowMeans(row: Row, base: Row, j: CustomJournal, candidates: set<Obj>, attempt: Option<Payload>)
    requires Unfinished(row, base, j, candidates, attempt) && base.purge == None && base.chunksCount == |base.chunksList|
    ensures
      var next := FailedRow(base, base.custom.value.(record := Merge(j.record, attempt)), TerminalRecord(j, attempt));
      FailureRecorded(row, next, candidates, attempt) && SameClaims(base, next)
  {
  }

  lemma WorkingRow(w: World, d: DocId, j: CustomJournal, k: Duty)
    requires Working(w, d, j, k)
    ensures d in w.rows.mem && k.Free(d)
  {
  }

  // ----- The call -----

  /** A chunk on the tracking row of a watched object that is missing from the graph is one the object
      may be given again: an interrupted attempt leaves such rows, a crashed deletion leaves others. */
  ghost predicate StaleBacked(w: World, watch: set<Obj>) {
    forall o, c :: o in watch && o !in w.graph.mem && o !in w.graph.disk && Mentioned(w, o, c) ==> Backed(w, o, c)
  }

  /** Watching a set of objects is exactly asking that of them. */
  lemma WatchableIff(w: World, watch: set<Obj>)
    requires Inv(w, {})
    ensures Inv(w, watch) <==> StaleBacked(w, watch)
  {
    if Inv(w, watch) {
      forall o, c | o in watch && o !in w.graph.mem && o !in w.graph.disk && Mentioned(w, o, c)
        ensures Backed(w, o, c)
      {
        assert Evidence(w, watch, o, c);
      }
    }
    if StaleBacked(w, watch) {
      forall o, c | Evidence(w, watch, o, c)
        ensures Backed(w, o, c)
      {
        if o in w.graph.mem || o in w.graph.disk {
          assert Evidence(w, {}, o, c);
        } else {
          assert Mentioned(w, o, c);
        }
      }
    }
  }

  lemma FewerWatched(w: World, watch: set<Obj>, fewer: set<Obj>)
    requires Inv(w, watch) && fewer <= watch
    ensures Inv(w, fewer)
  {
    forall o, c | Evidence(w, fewer, o, c)
      ensures Backed(w, o, c)
    {
      assert Evidence(w, watch, o, c);
    }
  }

  /** What the safety of an admitted insert rests on: no purge of the document is journaled, a legacy
      document has anchor rows to extend, and what the merge may pick up from stale tracking rows is
      backed. */
  ghost predicate InsertReady(w: World, d: DocId, staged: seq<SourceId>, sample: Sample, watch: set<Obj>) {
    var base := Get(w.rows.mem, d);
    && Unpurged(base)
    && (base.Some? ==> AnchorsUsable(w, d, base.value))
    && MergeCandidates(sample, staged) <= watch && Inv(w, watch)
  }

  lemma ReadyToWatch(w: World, d: DocId, watch: set<Obj>, sample: Sample, staged: seq<SourceId>, limits: Limits)
    requires Steady(w) && Inv(w, watch) && forall c :: c in staged ==> c.Chunk? && c.key.Text?
    ensures Kept(w, InsertDuty(w, d, watch, sample, staged, limits))
  {
    NothingGoneIsSpared(w);
    FramedAtStart(InsertFrame(w, d, sample, staged, limits));
    hide Framed;
  }

  function AdmissionAt(w: World, d: DocId, operation: seq<SourceId>, bodyStored: bool): (a: Admission)
    requires ValidOperation(d, operation)
    ensures a.Admitted? ==> forall c :: c in a.staged ==> c in operation && c.Chunk? && c.key.Text?
  {
    Admit(Get(w.rows.mem, d), w.chunks.mem, operation, bodyStored)
  }

  lemma BeginFacts(w: World, d: DocId, content: string, operation: seq<SourceId>, bodyStored: bool, k: Duty)
    requires Kept(w, k) && k.Free(d) && ValidOperation(d, operation) && Unpurged(Get(w.rows.mem, d))
    requires AdmissionAt(w, d, operation, bodyStored).Admitted?
    ensures
      var a := AdmissionAt(w, d, operation, bodyStored);
      var base := Get(w.rows.mem, d);
      var row := Begun(base, content, a.mode, operation, a.staged);
      && Claims(w, k.watch, d, row) && Scope(row) != {} && row.purge == None
      && row.chunksCount == |row.chunksList|
      && (a.mode == Create ==> row.chunksList == [])
      && (a.mode == Create && !a.resume ==> row.custom.value.names == {})
      && (forall c :: c in a.staged ==> c.Chunk? && c.key.Text?)
      && (base.Some? ==> BaseOf(row) == BaseOf(base.value) && Journaled(base.value) == row.custom.value.names)
      && (base.Some? && base.value.custom.Some? ==> forall c :: c in a.staged <==> c in base.value.custom.value.staged)
  {
    var a := AdmissionAt(w, d, operation, bodyStored);
    var base := Get(w.rows.mem, d);
    assert base.Some? ==> RowOk(w, d, base.value);
    BegunClaims(w, k.watch, d, base, content, operation, bodyStored);
    StagedFacts(w, d, base, operation, bodyStored);
    assert InScope(Begun(base, content, a.mode, operation, a.staged), a.staged[0]);
  }

  method Begin(e: Engine, d: DocId, content: string, operation: seq<SourceId>, bodyStored: bool, ghost k: Duty)
      returns (ok: bool)
    requires Kept(e.State(), k) && k.Free(d) && k.open && ValidOperation(d, operation)
    requires AdmissionAt(e.State(), d, operation, bodyStored).Admitted? && Unpurged(Get(e.rows.mem, d))
    requires d in e.rows.mem ==> AnchorsUsable(e.State(), d, e.rows.mem[d])
    requires e.up
    modifies e
    ensures
      var a := AdmissionAt(old(e.State()), d, operation, bodyStored);
      var base := Get(old(e.rows.mem), d);
      && RowOnly(old(e.State()), e.State(), d, Begun(base, content, a.mode, operation, a.staged))
      && Working(e.State(), d, Opened(base, a.mode, operation, a.staged), k)
    ensures Spent(old(e.schedule), e.schedule, e.up, ok)
  {
    hide Kept, Claims;
    BeginFacts(e.State(), d, content, operation, bodyStored, k);
    var base := Get(e.rows.mem, d);
    var a := AdmissionAt(e.State(), d, operation, bodyStored);
    ok := WriteRow(e, d, Begun(base, content, a.mode, operation, a.staged), k);
  }

  /** The row the first journal write leaves. */
  function BegunAt(w: World, d: DocId, content: string, operation: seq<SourceId>, bodyStored: bool): Row
    requires ValidOperation(d, operation) && AdmissionAt(w, d, operation, bodyStored).Admitted?
  {
    var a := AdmissionAt(w, d, operation, bodyStored);
    Begun(Get(w.rows.mem, d), content, a.mode, operation, a.staged)
  }

  /** How an operation ends, from the state its first journal write left.  A commit whose final flush
      failed had nothing left to flush. */
  ghost predicate Ended(w: World, x: World, d: DocId, j: CustomJournal, sample: Sample,
      attempt: Option<Payload>, limits: Limits, r: InsertResult, failures: int) {
    && d in w.rows.mem && d in x.rows.mem && Settled(x)
    && (forall c :: c in j.staged ==> c.Chunk? && c.key.Text?)
    && match r
       case Committed => DoneAs(w, x, d, j, sample, attempt, limits)
       case CommittedUnflushed => DoneAs(w, x, d, j, sample, attempt, limits)
       case NotBegun => x.rows.mem[d] == w.rows.mem[d]
       case InsertFailed => FailedAs(w, x, d, j, sample, attempt, limits, false, failures)
       case InsertCrashed => FailedAs(w, x, d, j, sample, attempt, limits, true, failures)
       case _ => false
  }

  /** How an admitted call ends. */
  ghost predicate InsertOutcome(w: World, x: World, d: DocId, content: string, operation: seq<SourceId>,
      bodyStored: bool, sample: Sample, attempt: Option<Payload>, limits: Limits, r: InsertResult, failures: int)
    requires ValidOperation(d, operation) && AdmissionAt(w, d, operation, bodyStored).Admitted?
  {
    var row := BegunAt(w, d, content, operation, bodyStored);
    Ended(w.(rows := w.rows.Put(d, row)), x, d, row.custom.value, sample, attempt, limits, r, failures)
  }

  lemma EndedReadsMemory(w: World, w1: World, x: World, d: DocId, j: CustomJournal, sample: Sample,
      attempt: Option<Payload>, limits: Limits, r: InsertResult, failures: int, total: int)
    requires Ended(w1, x, d, j, sample, attempt, limits, r, failures) && FlushedAll(w) == FlushedAll(w1) && failures <= total
    ensures Ended(w, x, d, j, sample, attempt, limits, r, total)
  {
    hide DoneAs, FailureRecorded, SameBase, MergeCandidates;
    assert w.rows.Flush() == w1.rows.Flush();
    if DoneAs(w1, x, d, j, sample, attempt, limits) {
      DoneReadsMemory(w1, w, x, d, j, sample, attempt, limits);
    }
  }

  lemma DoneReadsMemory(w: World, w1: World, x: World, d: DocId, j: CustomJournal, sample: Sample,
      attempt: Option<Payload>, limits: Limits)
    requires d in w.rows.mem && forall c :: c in j.staged ==> c.Chunk? && c.key.Text?
    requires DoneAs(w, x, d, j, sample, attempt, limits) && FlushedAll(w) == FlushedAll(w1)
    ensures DoneAs(w1, x, d, j, sample, attempt, limits)
  {
    assert w.graph.Flush() == w1.graph.Flush() && w.tracking.Flush() == w1.tracking.Flush();
    assert w.rows.Flush() == w1.rows.Flush() && w.chunks.Flush() == w1.chunks.Flush();
    assert w.entities.Flush() == w1.entities.Flush() && w.relations.Flush() == w1.relations.Flush();
    MergedReadsMemory(w, w1, x, x, sample, j.staged, MergeCandidates(sample, j.staged), limits);
  }

  lemma RowOnlyMemory(w: World, x: World, d: DocId, row: Row)
    requires RowOnly(w, x, d, row) && x.given == w.given
    ensures d in x.rows.mem && x.rows.mem[d] == row
    ensures FlushedAll(x) == FlushedAll(w.(rows := w.rows.Put(d, row)))
  {
  }

  method Finish(e: Engine, d: DocId, j: CustomJournal, resume: bool, sample: Sample, attempt: Option<Payload>,
      ghost k: Duty) returns (r: InsertResult)
    requires Working(e.State(), d, j, k) && MergeCandidates(sample, j.staged) <= k.watch
    requires StagesIn(k, j.staged) && MergesIn(k, e.State(), sample, j.staged, e.limits)
    requires forall c :: c in j.staged ==> c.Chunk? && c.key.Text?
    requires j.mode == Create ==> e.rows.mem[d].chunksList == []
    requires j.mode == Create && !resume ==> j.names == {}
    requires e.up
    modifies e
    ensures Steady(e.State()) && Kept(e.State(), k) && e.up
    ensures Ended(old(e.State()), e.State(), d, j, sample, attempt, e.limits, r, Faults(old(e.schedule)) - Faults(e.schedule))
    ensures Spent(old(e.schedule), e.schedule, e.up, r == Committed)
  {
    hide Kept, Claims, DoneAs, FailedAs, Steady, Working, Settled;
    ghost var w := e.State();
    WorkingRow(w, d, j, k);
    var ok, crashed := RunOperation(e, d, j, resume, sample, attempt, k);
    if !ok {
      FailedLeavesRow(w, e.State(), d, j, sample, attempt, e.limits, crashed, Faults(old(e.schedule)) - Faults(e.schedule));
      return if crashed then InsertCrashed else InsertFailed;
    }
    DoneRow(w, e.State(), d, j, sample, attempt, e.limits);
    ok := CloseInsert(e, d, k);
    return if ok then Committed else CommittedUnflushed;
  }

  lemma FailedLeavesRow(w: World, x: World, d: DocId, j: CustomJournal, sample: Sample, attempt: Option<Payload>,
      limits: Limits, crashed: bool, failures: int)
    requires d in w.rows.mem && forall c :: c in j.staged ==> c.Chunk? && c.key.Text?
    requires FailedAs(w, x, d, j, sample, attempt, limits, crashed, failures)
    ensures d in x.rows.mem
  {
  }

  lemma DoneRow(w: World, x: World, d: DocId, j: CustomJournal, sample: Sample, attempt: Option<Payload>,
      limits: Limits)
    requires d in w.rows.mem && forall c :: c in j.staged ==> c.Chunk? && c.key.Text?
    requires DoneAs(w, x, d, j, sample, attempt, limits)
    ensures d in x.rows.mem && x.rows.mem[d].custom == None && x.rows.mem[d].purge == w.rows.mem[d].purge
  {
  }

  /** The exit when the first journal write raised: nothing is recorded. */
  method Abandon(e: Engine, d: DocId, j: CustomJournal, sample: Sample, attempt: Option<Payload>, ghost k: Duty)
      returns (r: InsertResult)
    requires Kept(e.State(), k) && Journals(e.State(), d, j)
    requires forall c :: c in j.staged ==> c.Chunk? && c.key.Text?
    modifies e
    ensures Steady(e.State()) && Kept(e.State(), k) && e.up
    ensures Ended(old(e.State()), e.State(), d, j, sample, attempt, e.limits, r, Faults(old(e.schedule)) - Faults(e.schedule))
    ensures r == NotBegun || r == InsertCrashed
    ensures Faults(e.schedule) <= Faults(old(e.schedule))
  {
    hide Kept, DoneAs, FailureRecorded, Steady, SameBase, Settled;
    SameBaseAsItself(e.rows.mem[d]);
    r := if e.up then NotBegun else InsertCrashed;
    var _ := CloseInsert(e, d, k);
  }

  /** From the first journal write on, whether it returned or raised. */
  method Continue(e: Engine, d: DocId, j: CustomJournal, resume: bool, begun: bool, sample: Sample,
      attempt: Option<Payload>, ghost k: Duty) returns (r: InsertResult)
    requires Working(e.State(), d, j, k) && MergeCandidates(sample, j.staged) <= k.watch
    requires StagesIn(k, j.staged) && MergesIn(k, e.State(), sample, j.staged, e.limits)
    requires forall c :: c in j.staged ==> c.Chunk? && c.key.Text?
    requires j.mode == Create ==> e.rows.mem[d].chunksList == []
    requires j.mode == Create && !resume ==> j.names == {}
    requires begun ==> e.up
    modifies e
    ensures Steady(e.State()) && Kept(e.State(), k) && e.up
    ensures Ended(old(e.State()), e.State(), d, j, sample, attempt, e.limits, r, Faults(old(e.schedule)) - Faults(e.schedule))
    ensures if begun then Spent(old(e.schedule), e.schedule, e.up, r == Committed)
            else r != Committed && Faults(e.schedule) <= Faults(old(e.schedule))
  {
    hide Kept, Ended, Steady;
    if begun {
      r := Finish(e, d, j, resume, sample, attempt, k);
    } else {
      r := Abandon(e, d, j, sample, attempt, k);
    }
  }

  method RunAdmitted(e: Engine, d: DocId, content: string, operation: seq<SourceId>, bodyStored: bool,
      sample: Sample, attempt: Option<Payload>, ghost watch: set<Obj>) returns (r: InsertResult)
    requires Steady(e.State()) && ValidOperation(d, operation)
    requires AdmissionAt(e.State(), d, operation, bodyStored).Admitted?
    requires InsertReady(e.State(), d, AdmissionAt(e.State(), d, operation, bodyStored).staged, sample, watch)
    requires e.up
    modifies e
    ensures Steady(e.State()) && e.up
    ensures
      var staged := AdmissionAt(old(e.State()), d, operation, bodyStored).staged;
      Kept(e.State(), InsertDuty(old(e.State()), d, watch, sample, staged, e.limits))
    ensures InsertOutcome(old(e.State()), e.State(), d, content, operation, bodyStored, sample, attempt, e.limits, r,
      Faults(old(e.schedule)) - Faults(e.schedule))
    ensures Spent(old(e.schedule), e.schedule, e.up, r == Committed)
  {
    hide Kept, Claims, Ended, Steady, RowOnly, Admit, AnchorsUsable, Inv, Begun, MergeCandidates;
    hide StagesIn, MergesIn, InsertDuty, ValidOperation;
    ghost var w := e.State();
    var a := AdmissionAt(e.State(), d, operation, bodyStored);
    ghost var k := InsertDuty(w, d, watch, sample, a.staged, e.limits);
    ReadyToWatch(w, d, watch, sample, a.staged, e.limits);
    DutyFits(w, d, watch, sample, a.staged, e.limits);
    BeginFacts(w, d, content, operation, bodyStored, k);
    var ok := Begin(e, d, content, operation, bodyStored, k);
    var j := e.rows.mem[d].custom.value;
    ghost var w1 := e.State();
    ghost var left := Faults(e.schedule);
    RowOnlyMemory(w, w1, d, BegunAt(w, d, content, operation, bodyStored));
    MergesInMemory(k, w, w1, sample, j.staged, e.limits);
    r := Continue(e, d, j, a.resume, ok, sample, attempt, k);
    EndedReadsMemory(w.(rows := w.rows.Put(d, BegunAt(w, d, content, operation, bodyStored))), w1, e.State(), d, j,
      sample, attempt, e.limits, r, left - Faults(e.schedule), Faults(old(e.schedule)) - Faults(e.schedule));
  }

  lemma SameBaseAsItself(row: Row)
    requires row.custom.Some?
    ensures SameBase(row, row)
  {
  }

  // ----- What a call means, in terms of the row it found -----

  /** The mode table, as the caller sees it.  A document with an unfinished operation accepts that operation
      only; without one, a processed document accepts any and any other none; an unknown document has
      nothing to do when its body is already stored, and a processed one when it owns every content. */
  ghost predicate Decided(base: Option<Row>, chunks: map<SourceId, string>, operation: seq<SourceId>, bodyStored: bool,
      r: InsertResult)
    requires forall c :: c in operation ==> c.Chunk? && c.key.Text?
  {
    && (r.NotAdmitted? <==>
          && base.Some?
          && if base.value.custom.Some? then base.value.custom.value.operation != operation else base.value.status != Processed)
    && (r.NothingToDo? <==>
          if base.None? then bodyStored
          else
            && base.value.custom == None && base.value.status == Processed
            && forall c :: c in operation ==> Owns(chunks, base.value.chunksList, c))
  }

  /** The call patches committed content; otherwise it creates, or resumes creating. */
  predicate Patches(base: Option<Row>) {
    base.Some? && (base.value.custom.Some? ==> base.value.custom.value.mode == Patch)
  }

  /** A patch stages what the document does not own yet; a create all it was given. */
  ghost predicate StagedFor(base: Option<Row>, chunks: map<SourceId, string>, operation: seq<SourceId>,
      staged: seq<SourceId>)
    requires forall c :: c in operation ==> c.Chunk? && c.key.Text?
  {
    if Patches(base) then
      Without(staged, operation, set c | c in operation && Owns(chunks, base.value.chunksList, c))
    else
      staged == operation
  }

  lemma AdmittedAsDecided(w: World, d: DocId, operation: seq<SourceId>, bodyStored: bool, r: InsertResult)
    requires ValidOperation(d, operation)
    requires
      var a := AdmissionAt(w, d, operation, bodyStored);
      (r.NotAdmitted? <==> a.Rejected?) && (r.NothingToDo? <==> a.AlreadyDone?)
    ensures Decided(Get(w.rows.mem, d), w.chunks.mem, operation, bodyStored, r)
    ensures
      var a := AdmissionAt(w, d, operation, bodyStored);
      a.Admitted? ==> StagedFor(Get(w.rows.mem, d), w.chunks.mem, operation, a.staged)
  {
    var base := Get(w.rows.mem, d);
    hide Without, Admit, Owns, Unowned;
    if base.Some? {
      AdmitTable(base, w.chunks.mem, operation, bodyStored,
        set c | c in operation && Owns(w.chunks.mem, base.value.chunksList, c));
    } else {
      AdmitTable(base, w.chunks.mem, operation, bodyStored, {});
    }
  }

  /** What no transition touches: a new row starts empty, an old one keeps it. */
  predicate CarriedOver(base: Option<Row>, next: Row, content: string) {
    match base
    case None => next.carried == content && next.writeState == Unknown && next.purge == None && !next.deletionFailed
    case Some(row) =>
      && next.carried == row.carried && next.writeState == row.writeState
      && next.purge == row.purge && next.deletionFailed == row.deletionFailed
  }

  /** The truncation record before the operation, and what its earlier attempts recorded. */
  function RecordBefore(base: Option<Row>): Option<Payload> {
    match base
    case None => None
    case Some(row) => if row.custom.Some? then row.custom.value.prior else row.truncation
  }

  function RecordSoFar(base: Option<Row>): Option<Payload> {
    if base.Some? && base.value.custom.Some? then base.value.custom.value.record else None
  }

  function JournaledIn(base: Option<Row>): set<Obj> {
    if base.Some? then Journaled(base.value) else {}
  }

  function ListBefore(base: Option<Row>): seq<SourceId> {
    if base.Some? then base.value.chunksList else []
  }

  /** The row a committed call leaves: processed, no longer journaled, listing the base chunks first and then
      the staged ones, with the snapshot and every attempt's events on record. */
  ghost predicate CommittedFrom(base: Option<Row>, next: Row, content: string, staged: seq<SourceId>,
      attempt: Option<Payload>) {
    && next.status == Processed && next.custom == None
    && next.chunksCount == |next.chunksList|
    && (if Patches(base) then FirstSeen(next.chunksList, ListBefore(base) + staged) else next.chunksList == staged)
    && next.truncation == Merge(RecordBefore(base), Merge(RecordSoFar(base), attempt))
    && CarriedOver(base, next, content)
  }

  /** The row a failed call leaves: failed, listing the base chunks alone, still journaling the operation,
      with this attempt's events added both to the journal and to what is on record. */
  ghost predicate FailedFrom(base: Option<Row>, next: Row, content: string, operation: seq<SourceId>,
      staged: seq<SourceId>, reported: set<Obj>, attempt: Option<Payload>) {
    && next.status == Failed && next.chunksList == ListBefore(base) && next.chunksCount == |next.chunksList|
    && next.truncation == Merge(RecordBefore(base), Merge(RecordSoFar(base), attempt))
    && CarriedOver(base, next, content)
    && next.custom.Some?
    && var j := next.custom.value;
       && j.mode == (if Patches(base) then Patch else Create) && j.operation == operation && j.staged == staged
       && j.prior == RecordBefore(base) && j.record == Merge(RecordSoFar(base), attempt)
       && (j.names == JournaledIn(base) || j.names == JournaledIn(base) + reported)
  }

  /** The row of a call that was interrupted: processing, listing the base chunks alone, the record on it as it
      was, journaling the operation with these candidates and events. */
  predicate UnfinishedFrom(base: Option<Row>, next: Row, content: string, operation: seq<SourceId>,
      staged: seq<SourceId>, names: set<Obj>, record: Option<Payload>) {
    && next.status == Processing && next.chunksList == ListBefore(base) && next.chunksCount == |next.chunksList|
    && next.truncation == (if base.Some? then base.value.truncation else None)
    && CarriedOver(base, next, content)
    && next.custom == Some(CustomJournal(if Patches(base) then Patch else Create, operation, staged, names,
         RecordBefore(base), record))
  }

  /** The anchors a committed call leaves: a patch keeps what the document had, and the objects that this or
      an earlier attempt reported are named; no other document's anchors move. */
  ghost predicate AnchoredAs(w: World, x: World, d: DocId, reported: set<Obj>) {
    var patch := Patches(Get(w.rows.mem, d));
    && (forall n :: n in EntityRow(x, d) <==> (patch && n in EntityRow(w, d)) || Node(n) in reported)
    && (forall a, b :: (a, b) in RelationRow(x, d) <==> (patch && (a, b) in RelationRow(w, d)) || Edge(a, b) in reported)
    && (forall other :: other != d ==> Get(x.entities.mem, other) == Get(w.entities.mem, other))
    && (forall other :: other != d ==> Get(x.relations.mem, other) == Get(w.relations.mem, other))
  }

  /** What a committed call has made of the stores, in memory. */
  ghost predicate CommitMeans(w: World, x: World, d: DocId, content: string, staged: seq<SourceId>, sample: Sample,
      attempt: Option<Payload>, limits: Limits)
    requires forall c :: c in staged ==> c.Chunk? && c.key.Text?
  {
    var base := Get(w.rows.mem, d);
    && (forall o :: MergedObject(w, x, sample, staged, limits, o))
    && (forall c :: Get(x.chunks.mem, c) == if c in staged then Some(c.key.text) else Get(w.chunks.mem, c))
    && (forall other :: other != d ==> Get(x.rows.mem, other) == Get(w.rows.mem, other))
    && d in x.rows.mem && CommittedFrom(base, x.rows.mem[d], content, staged, attempt)
    && AnchoredAs(w, x, d, MergeCandidates(sample, staged) + JournaledIn(base))
  }

  /** The row of a begun operation, from the row it was begun on. */
  lemma BegunMeans(w: World, d: DocId, content: string, operation: seq<SourceId>, bodyStored: bool)
    requires Inv(w, {}) && ValidOperation(d, operation) && Unpurged(Get(w.rows.mem, d))
    requires AdmissionAt(w, d, operation, bodyStored).Admitted?
    ensures
      var base := Get(w.rows.mem, d);
      var begun := BegunAt(w, d, content, operation, bodyStored);
      var j := begun.custom.value;
      && j.mode == (if Patches(base) then Patch else Create) && j.operation == operation
      && j.staged == AdmissionAt(w, d, operation, bodyStored).staged
      && j.prior == RecordBefore(base) && j.record == RecordSoFar(base)
      && j.names == JournaledIn(base)
      && UnfinishedFrom(base, begun, content, operation, j.staged, JournaledIn(base), RecordSoFar(base))
      && (!Patches(base) ==> ListBefore(base) == [])
      && forall c :: c in j.staged ==> c.Chunk? && c.key.Text?
  {
    var base := Get(w.rows.mem, d);
    assert base.Some? ==> RowOk(w, d, base.value);
    StagedFacts(w, d, base, operation, bodyStored);
  }

  /** The committed list of a patch: everything once, base chunks first. */
  lemma PatchedListInOrder(base: seq<SourceId>, staged: seq<SourceId>)
    ensures FirstSeen(FinalList(Patch, base, staged), base + staged)
  {
    NothingDropped(base + staged);
    UnionAppends([], base + staged, {}, base + staged);
    assert Union([], base + staged)[0..] == Union([], base + staged);
  }

  lemma CommittedRowMeans(base: Option<Row>, begun: Row, applied: Row, content: string, attempt: Option<Payload>)
    requires begun.custom.Some? && SameBase(begun, applied) && CarriedOver(base, begun, content)
    requires begun.chunksList == ListBefore(base) && (!Patches(base) ==> ListBefore(base) == [])
    requires
      var j := begun.custom.value;
      && j.mode == (if Patches(base) then Patch else Create)
      && j.prior == RecordBefore(base) && j.record == RecordSoFar(base)
    ensures
      var j := begun.custom.value;
      CommittedFrom(base, CommittedRow(applied, TerminalRecord(j, attempt)), content, j.staged, attempt)
  {
    PatchedListInOrder(begun.chunksList, begun.custom.value.staged);
    hide FirstSeen, Merge;
  }

  lemma AnchorsMean(w: World, x: World, d: DocId, names: set<Obj>)
    requires
      var mode := if Patches(Get(w.rows.mem, d)) then Patch else Create;
      AnchorsGrown(w, x, d, mode, names)
    ensures AnchoredAs(w, x, d, names)
  {
    hide AnchorsCover, EntityRow, RelationRow;
  }

  /** The row as begun, in terms of the row it was begun on. */
  ghost predicate BegunFrom(base: Option<Row>, begun: Row, content: string) {
    && begun.custom.Some? && CarriedOver(base, begun, content)
    && begun.chunksList == ListBefore(base) && begun.chunksCount == |begun.chunksList|
    && (!Patches(base) ==> ListBefore(base) == [])
    && var j := begun.custom.value;
       && j.mode == (if Patches(base) then Patch else Create)
       && j.prior == RecordBefore(base) && j.record == RecordSoFar(base) && j.names == JournaledIn(base)
  }

  lemma AppliedSameBase(w: World, d: DocId, j: CustomJournal, sample: Sample, attempt: Option<Payload>)
    requires d in w.rows.mem && w.rows.mem[d].custom == Some(j) && w.rows.mem[d].chunksCount == |w.rows.mem[d].chunksList|
    ensures SameBase(w.rows.mem[d], AppliedAt(w, d, j, sample, attempt))
  {
  }

  lemma DoneObjects(w: World, y: World, x: World, d: DocId, j: CustomJournal, sample: Sample, attempt: Option<Payload>,
      limits: Limits)
    requires d in y.rows.mem && (forall c :: c in j.staged ==> c.Chunk? && c.key.Text?)
    requires DoneAs(y, x, d, j, sample, attempt, limits) && y == w.(rows := y.rows)
    ensures forall o :: MergedObject(w, x, sample, j.staged, limits, o)
  {
    MergedReadsMemory(y, w, x, x, sample, j.staged, MergeCandidates(sample, j.staged), limits);
    hide DoneAs, MergedSoFar, MergedObject, MergeCandidates;
    forall o
      ensures MergedObject(w, x, sample, j.staged, limits, o)
    {
      MergeMeans(w, x, sample, j.staged, limits, o);
    }
  }

  lemma DoneStores(w: World, y: World, x: World, d: DocId, j: CustomJournal, sample: Sample, attempt: Option<Payload>,
      limits: Limits)
    requires d in y.rows.mem && (forall c :: c in j.staged ==> c.Chunk? && c.key.Text?)
    requires DoneAs(y, x, d, j, sample, attempt, limits) && y == w.(rows := w.rows.Put(d, y.rows.mem[d]))
    ensures d in x.rows.mem && x.rows.mem[d] == CommittedRow(AppliedAt(y, d, j, sample, attempt), TerminalRecord(j, attempt))
    ensures forall c :: Get(x.chunks.mem, c) == if c in j.staged then Some(c.key.text) else Get(w.chunks.mem, c)
    ensures forall other :: other != d ==> Get(x.rows.mem, other) == Get(w.rows.mem, other)
    ensures AnchorsGrown(w, x, d, j.mode, j.names + MergeCandidates(sample, j.staged))
  {
    hide MergedSoFar, MergeCandidates, Merge, CommittedRow;
    GrownFrom(y, w, x, d, j.mode, j.names + MergeCandidates(sample, j.staged));
  }

  lemma DoneMeans(w: World, x: World, d: DocId, begun: Row, content: string, sample: Sample, attempt: Option<Payload>,
      limits: Limits)
    requires BegunFrom(Get(w.rows.mem, d), begun, content)
    requires
      var staged := begun.custom.value.staged;
      && (forall c :: c in staged ==> c.Chunk? && c.key.Text?)
      && DoneAs(w.(rows := w.rows.Put(d, begun)), x, d, begun.custom.value, sample, attempt, limits)
    ensures CommitMeans(w, x, d, content, begun.custom.value.staged, sample, attempt, limits)
  {
    hide DoneAs, CommittedFrom, CarriedOver, MergedObject, AnchorsGrown, AnchoredAs, MergeCandidates, CommittedRow;
    hide SameBase, AppliedAt;
    var base := Get(w.rows.mem, d);
    var y := w.(rows := w.rows.Put(d, begun));
    var j := begun.custom.value;
    var names := MergeCandidates(sample, j.staged) + j.names;
    assert j.names + MergeCandidates(sample, j.staged) == names;
    DoneObjects(w, y, x, d, j, sample, attempt, limits);
    DoneStores(w, y, x, d, j, sample, attempt, limits);
    AppliedSameBase(y, d, j, sample, attempt);
    CommittedRowMeans(base, begun, AppliedAt(y, d, j, sample, attempt), content, attempt);
    AnchorsMean(w, x, d, names);
  }

  lemma GrownFrom(y: World, w: World, x: World, d: DocId, mode: Mode, names: set<Obj>)
    requires AnchorsGrown(y, x, d, mode, names) && y.entities.mem == w.entities.mem && y.relations.mem == w.relations.mem
    ensures AnchorsGrown(w, x, d, mode, names)
  {
  }

  lemma FailedMeans(base: Option<Row>, begun: Row, next: Row, content: string, operation: seq<SourceId>,
      staged: seq<SourceId>, reported: set<Obj>, attempt: Option<Payload>)
    requires UnfinishedFrom(base, begun, content, operation, staged, JournaledIn(base), RecordSoFar(base))
    ensures FailureRecorded(begun, next, reported, attempt) ==>
      FailedFrom(base, next, content, operation, staged, reported, attempt)
    ensures Unfinished(begun, next, begun.custom.value, reported, attempt) ==>
      || UnfinishedFrom(base, next, content, operation, staged, JournaledIn(base), RecordSoFar(base))
      || UnfinishedFrom(base, next, content, operation, staged, JournaledIn(base) + reported, Merge(RecordSoFar(base), attempt))
  {
    hide Merge;
  }

  /** How a call that admitted its operation ended, in those terms. */
  ghost predicate OutcomeMeans(w: World, x: World, d: DocId, content: string, operation: seq<SourceId>,
      staged: seq<SourceId>, sample: Sample, attempt: Option<Payload>, limits: Limits, r: InsertResult, failures: int)
    requires forall c :: c in staged ==> c.Chunk? && c.key.Text?
  {
    var base, reported := Get(w.rows.mem, d), MergeCandidates(sample, staged);
    && d in x.rows.mem
    && (r == Committed || r == CommittedUnflushed ==> CommitMeans(w, x, d, content, staged, sample, attempt, limits))
    && (r == NotBegun ==>
          UnfinishedFrom(base, x.rows.mem[d], content, operation, staged, JournaledIn(base), RecordSoFar(base)))
    && (r == InsertFailed && failures <= 1 ==> FailedFrom(base, x.rows.mem[d], content, operation, staged, reported, attempt))
    && (r == InsertFailed || r == InsertCrashed ==>
          || FailedFrom(base, x.rows.mem[d], content, operation, staged, reported, attempt)
          || UnfinishedFrom(base, x.rows.mem[d], content, operation, staged, JournaledIn(base), RecordSoFar(base))
          || UnfinishedFrom(base, x.rows.mem[d], content, operation, staged, JournaledIn(base) + reported,
               Merge(RecordSoFar(base), attempt))
          || CommitMeans(w, x, d, content, staged, sample, attempt, limits))
  }

  lemma EndingIsMeant(w: World, x: World, d: DocId, begun: Row, content: string, operation: seq<SourceId>,
      sample: Sample, attempt: Option<Payload>, limits: Limits, r: InsertResult, failures: int)
    requires BegunFrom(Get(w.rows.mem, d), begun, content)
    requires forall c :: c in begun.custom.value.staged ==> c.Chunk? && c.key.Text?
    requires
      var base := Get(w.rows.mem, d);
      UnfinishedFrom(base, begun, content, operation, begun.custom.value.staged, JournaledIn(base), RecordSoFar(base))
    requires Ended(w.(rows := w.rows.Put(d, begun)), x, d, begun.custom.value, sample, attempt, limits, r, failures)
    ensures OutcomeMeans(w, x, d, content, operation, begun.custom.value.staged, sample, attempt, limits, r, failures)
  {
    hide Inv, DoneAs, CommitMeans, FailedFrom, CarriedOver, MergeCandidates, FailureRecorded, SameBase, Unfinished;
    hide UnfinishedFrom, Settled, Merge;
    var y := w.(rows := w.rows.Put(d, begun));
    var j := begun.custom.value;
    FailedMeans(Get(w.rows.mem, d), begun, x.rows.mem[d], content, operation, j.staged, MergeCandidates(sample, j.staged), attempt);
    if DoneAs(y, x, d, j, sample, attempt, limits) {
      DoneMeans(w, x, d, begun, content, sample, attempt, limits);
    }
  }

  lemma OutcomeIsMeant(w: World, x: World, d: DocId, content: string, operation: seq<SourceId>, bodyStored: bool,
      sample: Sample, attempt: Option<Payload>, limits: Limits, r: InsertResult, failures: int)
    requires Inv(w, {}) && ValidOperation(d, operation) && Unpurged(Get(w.rows.mem, d))
    requires AdmissionAt(w, d, operation, bodyStored).Admitted?
    requires InsertOutcome(w, x, d, content, operation, bodyStored, sample, attempt, limits, r, failures)
    ensures
      var staged := AdmissionAt(w, d, operation, bodyStored).staged;
      && (forall c :: c in staged ==> c.Chunk? && c.key.Text?)
      && OutcomeMeans(w, x, d, content, operation, staged, sample, attempt, limits, r, failures)
  {
    BegunMeans(w, d, content, operation, bodyStored);
    hide Inv, BegunAt, Ended, OutcomeMeans, Admit;
    EndingIsMeant(w, x, d, BegunAt(w, d, content, operation, bodyStored), content, operation, sample, attempt, limits, r, failures);
  }

  /** Whatever happened, each view shows of everything what one of the views showed before, but for what the
      call is for: its chunks, the merged lists of the objects its sample mentions, its document's own rows. */
  ghost predicate NothingElse(w: World, x: World, d: DocId, sample: Sample, staged: seq<SourceId>, limits: Limits)
    requires forall c :: c in staged ==> c.Chunk? && c.key.Text?
  {
    && (forall v, c :: Seen(w.chunks, x.chunks.At(v), c) || (c in staged && Get(x.chunks.At(v), c) == Some(c.key.text)))
    && (forall v, o :: Seen(w.tracking, x.tracking.At(v), o) ||
          (o in x.tracking.At(v) && MergedList(w, o, sample, staged, x.tracking.At(v)[o])))
    && (forall v, o :: Seen(w.graph, x.graph.At(v), o) ||
          (o in x.graph.At(v) && LimitedPart(w, o, sample, staged, limits, x.graph.At(v)[o])))
    && (forall v, other :: other != d ==>
          Seen(w.rows, x.rows.At(v), other) && Seen(w.entities, x.entities.At(v), other) &&
          Seen(w.relations, x.relations.At(v), other))
  }

  ghost predicate LimitedPart(w: World, o: Obj, sample: Sample, staged: seq<SourceId>, limits: Limits, r: seq<SourceId>) {
    exists full :: MergedList(w, o, sample, staged, full) &&
      LimitedTo(r, full, if o.Node? then limits.entity else limits.relation, limits.keepNewest)
  }

  lemma FrameGives(w: World, d: DocId, sample: Sample, staged: seq<SourceId>, limits: Limits, o: Obj)
    requires forall c :: c in staged ==> c.Chunk? && c.key.Text?
    ensures
      var f := InsertFrame(w, d, sample, staged, limits);
      && f.start == w
      && (o in f.tracking ==> MergedList(w, o, sample, staged, f.tracking[o]))
      && (o in f.graph ==> LimitedPart(w, o, sample, staged, limits, f.graph[o]))
  {
    if o in MergeCandidates(sample, staged) {
      MergedSourcesAreList(w, o, sample, staged);
    }
    hide MergedList, MergedSources, Mentions, MergeCandidates;
  }

  lemma FramedLists(w: World, x: World, d: DocId, sample: Sample, staged: seq<SourceId>, limits: Limits, v: View, o: Obj)
    requires forall c :: c in staged ==> c.Chunk? && c.key.Text?
    requires Framed(x, InsertFrame(w, d, sample, staged, limits))
    ensures Seen(w.tracking, x.tracking.At(v), o) ||
      (o in x.tracking.At(v) && MergedList(w, o, sample, staged, x.tracking.At(v)[o]))
    ensures Seen(w.graph, x.graph.At(v), o) ||
      (o in x.graph.At(v) && LimitedPart(w, o, sample, staged, limits, x.graph.At(v)[o]))
  {
    hide MergedList, LimitedPart, InsertFrame, WithinBut;
    var f := InsertFrame(w, d, sample, staged, limits);
    FrameGives(w, d, sample, staged, limits, o);
    assert Seen(w.tracking, x.tracking.At(v), o) || (o in f.tracking && Get(x.tracking.At(v), o) == Some(f.tracking[o]));
    assert Seen(w.graph, x.graph.At(v), o) || (o in f.graph && Get(x.graph.At(v), o) == Some(f.graph[o]));
  }

  lemma FramedMeans(w: World, x: World, d: DocId, sample: Sample, staged: seq<SourceId>, limits: Limits)
    requires forall c :: c in staged ==> c.Chunk? && c.key.Text?
    requires Framed(x, InsertFrame(w, d, sample, staged, limits))
    ensures NothingElse(w, x, d, sample, staged, limits)
  {
    var f := InsertFrame(w, d, sample, staged, limits);
    forall v, c
      ensures Seen(w.chunks, x.chunks.At(v), c) || (c in staged && Get(x.chunks.At(v), c) == Some(c.key.text))
    {
      assert Seen(w.chunks, x.chunks.At(v), c) || (c in f.chunks && Get(x.chunks.At(v), c) == Some(f.chunks[c]));
    }
    hide InsertFrame, MergedList, LimitedPart;
    forall v, o
      ensures Seen(w.tracking, x.tracking.At(v), o) ||
        (o in x.tracking.At(v) && MergedList(w, o, sample, staged, x.tracking.At(v)[o]))
      ensures Seen(w.graph, x.graph.At(v), o) ||
        (o in x.graph.At(v) && LimitedPart(w, o, sample, staged, limits, x.graph.At(v)[o]))
    {
      FramedLists(w, x, d, sample, staged, limits, v, o);
    }
  }

  /** What an insert keeps besides the invariant: tracking rows its attempts left of watched objects are
      backed, so that the same or another sample may be merged over them, and anchor rows stay. */
  ghost predicate Resumable(w: World, x: World, d: DocId, watch: set<Obj>) {
    && Inv(x, watch)
    && (AnchorRowsAt(w, Mem, d) ==> AnchorRowsAt(x, Mem, d))
  }

  lemma KeptIsResumable(w: World, x: World, d: DocId, watch: set<Obj>, sample: Sample, staged: seq<SourceId>,
      limits: Limits)
    requires forall c :: c in staged ==> c.Chunk? && c.key.Text?
    requires Steady(w) && Kept(x, InsertDuty(w, d, watch, sample, staged, limits))
    ensures Resumable(w, x, d, watch) && NothingElse(w, x, d, sample, staged, limits)
  {
    FramedMeans(w, x, d, sample, staged, limits);
  }

  lemma SteadyInv(w: World)
    requires Steady(w)
    ensures Inv(w, {})
  {
  }

  lemma InsertEnds(w: World, x: World, d: DocId, content: string, operation: seq<SourceId>, bodyStored: bool,
      sample: Sample, attempt: Option<Payload>, limits: Limits, r: InsertResult, failures: int)
    requires ValidOperation(d, operation) && AdmissionAt(w, d, operation, bodyStored).Admitted?
    requires InsertOutcome(w, x, d, content, operation, bodyStored, sample, attempt, limits, r, failures)
    ensures r != NotAdmitted && r != NothingToDo
  {
  }

  /** One call.

    A refused call, and one with nothing to do, writes nothing.  A call that fails or crashes after the
    journal is durable keeps the journal for a retry or a rollback and gives the base nothing to lose,
    and whatever tracking rows it leaves behind, the retry may merge over them.  A committed one has
    merged exactly its sample and anchored every object any attempt may have written.  Whatever
    happens, the invariant holds at every await. */
  method Insert(e: Engine, d: DocId, content: string, operation: seq<SourceId>, bodyStored: bool,
      sample: Sample, attempt: Option<Payload>, ghost watch: set<Obj>) returns (r: InsertResult)
    requires Steady(e.State()) && ValidOperation(d, operation)
    requires
      var a := AdmissionAt(e.State(), d, operation, bodyStored);
      a.Admitted? ==> InsertReady(e.State(), d, a.staged, sample, watch)
    requires e.up
    modifies e
    ensures Steady(e.State()) && e.up
    ensures Inv(old(e.State()), watch) ==> Resumable(old(e.State()), e.State(), d, watch)
    ensures r.NotAdmitted? <==> AdmissionAt(old(e.State()), d, operation, bodyStored).Rejected?
    ensures r.NothingToDo? <==> AdmissionAt(old(e.State()), d, operation, bodyStored).AlreadyDone?
    ensures r.NotAdmitted? || r.NothingToDo? ==> e.State() == old(e.State())
    ensures AdmissionAt(old(e.State()), d, operation, bodyStored).Admitted? ==>
      InsertOutcome(old(e.State()), e.State(), d, content, operation, bodyStored, sample, attempt, e.limits, r,
        Faults(old(e.schedule)) - Faults(e.schedule))
    ensures Decided(Get(old(e.rows.mem), d), old(e.chunks.mem), operation, bodyStored, r)
    ensures r != NotAdmitted && r != NothingToDo ==> exists staged: seq<SourceId> ::
      && (forall c :: c in staged ==> c.Chunk? && c.key.Text?)
      && StagedFor(Get(old(e.rows.mem), d), old(e.chunks.mem), operation, staged)
      && OutcomeMeans(old(e.State()), e.State(), d, content, operation, staged, sample, attempt, e.limits, r,
           Faults(old(e.schedule)) - Faults(e.schedule))
      && NothingElse(old(e.State()), e.State(), d, sample, staged, e.limits)
    ensures Spent(old(e.schedule), e.schedule, e.up, r == NotAdmitted || r == NothingToDo || r == Committed)
  {
    hide Kept, Inv, Admit, InsertOutcome, OutcomeMeans, Decided, StagedFor, NothingElse;
    ghost var w := e.State();
    var a := AdmissionAt(e.State(), d, operation, bodyStored);
    match a {
      case Rejected =>
        r := NotAdmitted;
      case AlreadyDone =>
        r := NothingToDo;
      case Admitted(mode, staged, resume) =>
        r := RunAdmitted(e, d, content, operation, bodyStored, sample, attempt, watch);
        InsertEnds(w, e.State(), d, content, operation, bodyStored, sample, attempt, e.limits, r,
          Faults(old(e.schedule)) - Faults(e.schedule));
        KeptIsResumable(w, e.State(), d, watch, sample, staged, e.limits);
        SteadyInv(w);
        OutcomeIsMeant(w, e.State(), d, content, operation, bodyStored, sample, attempt, e.limits, r,
          Faults(old(e.schedule)) - Faults(e.schedule));
    }
    AdmittedAsDecided(w, d, operation, bodyStored, r);
  }

  /** The call on texts: empty and repeated ones are dropped, and nothing is written for none. */
  method InsertTexts(e: Engine, d: DocId, content: string, texts: seq<string>, bodyStored: bool,
      sample: Sample, attempt: Option<Payload>, ghost watch: set<Obj>)
    returns (r: InsertResult)
    requires Steady(e.State())
    requires
      var operation := ChunkIds(d, texts);
      operation != [] ==>
        var a := AdmissionAt(e.State(), d, operation, bodyStored);
        a.Admitted? ==> InsertReady(e.State(), d, a.staged, sample, watch)
    requires e.up
    modifies e
    ensures Steady(e.State()) && e.up
    ensures Inv(old(e.State()), watch) ==> Resumable(old(e.State()), e.State(), d, watch)
    ensures ChunkIds(d, texts) == [] ==> r == NothingToDo && e.State() == old(e.State())
    ensures ChunkIds(d, texts) != [] ==>
      Decided(Get(old(e.rows.mem), d), old(e.chunks.mem), ChunkIds(d, texts), bodyStored, r)
    ensures ChunkIds(d, texts) != [] ==>
      var operation := ChunkIds(d, texts);
      var a := AdmissionAt(old(e.State()), d, operation, bodyStored);
      match a
      case Rejected => r == NotAdmitted && e.State() == old(e.State())
      case AlreadyDone => r == NothingToDo && e.State() == old(e.State())
      case Admitted(_, _, _) => 
        InsertOutcome(old(e.State()), e.State(), d, content, operation, bodyStored, sample, attempt, e.limits, r,
          Faults(old(e.schedule)) - Faults(e.schedule))
  {
    hide Steady, InsertOutcome, InsertReady, Inv, Decided, OutcomeMeans, StagedFor, NothingElse;
    var operation := ChunkIds(d, texts);
    if operation == [] {
      return NothingToDo;
    }
    r := Insert(e, d, content, operation, bodyStored, sample, attempt, watch);
  }
}
