/** Why each write of a journaled purge is safe where the journal says it happens. */
module PurgeSteps {
  import opened Stores
  import opened KnowledgeGraph
  import opened InvariantSteps
  import opened RecoveryProof
  import Convergence
  import opened StorageEngine
  import opened PurgeDerived

  function Journaling(row: Row, phase: Phase): Row {
    row.(purge := Some(PurgeJournal(Scope(row), phase)))
  }

  /** The durable work a phase claims for a chunk set. */
  ghost predicate WorkDone(w: World, d: DocId, gone: set<SourceId>, phase: Phase) {
    && (phase != Prepared ==> Clean(w, gone))
    && (phase == AnchorsPending || phase == Completed ==> forall c :: c in gone ==> c !in w.chunks.mem && c !in w.chunks.disk)
    && (phase == Completed ==>
          && d !in w.entities.mem && d !in w.entities.disk
          && d !in w.relations.mem && d !in w.relations.disk)
  }

  lemma CleanOfWatch(w: World, watch: set<Obj>, gone: set<SourceId>)
    requires forall o, c :: c in gone ==> !Evidence(w, watch, o, c)
    ensures Clean(w, gone)
  {
    forall o, c | Evidence(w, {}, o, c)
      ensures Evidence(w, watch, o, c)
    {
    }
  }

  /** The durable phase is a lower bound on the durable work: in every state that satisfies the
      invariant, and in both views, whatever a journal claims has been done. */
  lemma PhaseIsLowerBound(w: World, watch: set<Obj>, d: DocId, v: View)
    requires Inv(w, watch) && d in w.rows.At(v) && w.rows.At(v)[d].purge.Some?
    ensures
      var j := w.rows.At(v)[d].purge.value;
      WorkDone(w, d, j.chunks, j.phase)
  {
    var row := w.rows.At(v)[d];
    var j := row.purge.value;
    assert RowOk(w, d, row);
    if j.phase != Prepared {
      forall o, c | c in j.chunks
        ensures !Evidence(w, watch, o, c)
      {
        if Evidence(w, watch, o, c) {
          assert Backed(w, o, c) && BackedBy(w, row, o, c) && Retired(row, c);
          assert false;
        }
      }
      CleanOfWatch(w, watch, j.chunks);
    }
  }

  /** Anchor rows that are in memory are durable; when there is nothing to purge they are settled. */
  predicate AnchorsSettled(w: World, d: DocId) {
    && (d in w.entities.mem ==> d in w.entities.disk)
    && (d in w.relations.mem ==> d in w.relations.disk)
    && (d in w.rows.mem && !Live(w.rows.mem[d]) && Scope(w.rows.mem[d]) == {} ==> AnchorsFixed(w, d))
  }

  lemma AnchorsAreSettled(w: World, k: Duty, d: DocId)
    requires Kept(w, k) && !k.open
    ensures AnchorsSettled(w, d)
  {
    if d in w.rows.mem {
      assert RowOk(w, d, w.rows.mem[d]);
    }
  }

  /** A proof read from memory still holds for whatever mixture of views a crash leaves. */
  lemma ProofIsDurable(w: World, d: DocId, u: View, v: View)
    requires d in w.rows.mem && AnchorsSettled(w, d) && !Live(w.rows.mem[d])
    requires
      var row := w.rows.mem[d];
      Provable(row, Get(w.entities.mem, d), Get(w.relations.mem, d), Scope(row))
    ensures
      var row := w.rows.mem[d];
      Provable(row, Get(w.entities.At(u), d), Get(w.relations.At(v), d), Scope(row))
  {
  }

  ghost predicate MayRecord(w: World, d: DocId, row: Row, phase: Phase) {
    if phase == Prepared then
      && !Live(row)
      && (forall u: View, v: View :: Provable(row, Get(w.entities.At(u), d), Get(w.relations.At(v), d), Scope(row)))
    else
      WorkDone(w, d, Scope(row), phase)
  }

  function PhaseWritten(w: World, d: DocId, phase: Phase): World
    requires d in w.rows.mem
  {
    w.(rows := w.rows.UpsertDurable(d, Journaling(w.rows.mem[d], phase)))
  }

  lemma ScopeOf(w: World, watch: set<Obj>, d: DocId, o: Obj, c: SourceId)
    requires Inv(w, watch) && d in w.rows.mem && Evidence(w, watch, o, c) && c.Chunk? && c.doc == d
    ensures c in Scope(w.rows.mem[d]) && BackedBy(w, w.rows.mem[d], o, c)
  {
    assert Backed(w, o, c);
  }

  lemma JournalingKeepsRow(w: World, watch: set<Obj>, d: DocId, phase: Phase)
    requires Inv(w, watch) && d in w.rows.mem && MayRecord(w, d, w.rows.mem[d], phase)
    ensures RowOk(w, d, Journaling(w.rows.mem[d], phase))
  {
    var row := w.rows.mem[d];
    var next := Journaling(row, phase);
    assert RowOk(w, d, row);
    assert Scope(next) == Scope(row);
    assert phase != Prepared ==> Live(next);
    JournalingPurgeOk(w, d, row, phase);
    hide PurgeOk;
  }

  lemma JournalingPurgeOk(w: World, d: DocId, row: Row, phase: Phase)
    requires RowOk(w, d, row) && MayRecord(w, d, row, phase)
    ensures PurgeOk(w, d, Journaling(row, phase), PurgeJournal(Scope(row), phase))
  {
    var next := Journaling(row, phase);
    assert Scope(next) == Scope(row);
    if phase == Prepared {
      forall u: View, v: View
        ensures Provable(next, Get(w.entities.At(u), d), Get(w.relations.At(v), d), Scope(row))
      {
        assert Provable(row, Get(w.entities.At(u), d), Get(w.relations.At(v), d), Scope(row));
      }
    }
  }

  /** Recording a phase whose work is done keeps the invariant. */
  lemma PhaseWriteKept(w: World, k: Duty, d: DocId, phase: Phase)
    requires Kept(w, k) && k.watch == {} && k.frame == None && !k.open && d in w.rows.mem && MayRecord(w, d, w.rows.mem[d], phase)
    requires k.doc == Some(d)
    ensures Kept(PhaseWritten(w, d, phase), k)
  {
    var x := PhaseWritten(w, d, phase);
    var row := w.rows.mem[d];
    var next := Journaling(row, phase);
    forall o, c | Evidence(w, {}, o, c) && c.Chunk? && c.doc == d
      ensures BackedBy(w, next, o, c)
    {
      ScopeOf(w, {}, d, o, c);
    }
    JournalingKeepsRow(w, {}, d, phase);
    RowWriteKeepsInv(w, x, {}, d, next);
    CourseIgnoresRows(w, x, k);
  }

  lemma CourseIgnoresRows(w: World, x: World, k: Duty)
    requires Kept(w, k) && k.frame == None && x.given == w.given && x.graph == w.graph && x.tracking == w.tracking
    requires Inv(x, k.watch)
    requires k.converged || (x.entities == w.entities && x.relations == w.relations)
    requires !k.open && KeysDurable(x.entities) && KeysDurable(x.relations)
    ensures Kept(x, k)
  {
    ShrinkingKeepsSpared(w, x, k.gone);
    if k.goal.Some? {
      Convergence.OnCourseOfDerived(k.goal.value, w, x);
    }
  }

  // ----- Step 7 -----

  /** Chunks go only when no graph object, tracking row or unretired document row refers to them. */
  lemma ChunkDeleteKept(w: World, k: Duty, d: DocId)
    requires Kept(w, k) && k.watch == {} && k.frame == None && !k.open && k.doc == Some(d) && d in w.rows.mem && Live(w.rows.mem[d])
    requires w.rows.mem[d].purge.value.chunks == Scope(w.rows.mem[d])
    ensures Kept(w.(chunks := w.chunks.Delete(Scope(w.rows.mem[d]))), k)
  {
    var gone := Scope(w.rows.mem[d]);
    var x := w.(chunks := w.chunks.Delete(gone));
    PhaseIsLowerBound(w, {}, d, Mem);
    RowIsDurable(w, k, d);
    assert RowOk(w, d, w.rows.mem[d]);
    forall e, c | e in w.rows.mem && !Live(w.rows.mem[e]) && c in w.rows.mem[e].chunksList
      ensures c !in gone
    {
      assert RowOk(w, e, w.rows.mem[e]);
    }
    forall e, c | e in w.rows.disk && !Live(w.rows.disk[e]) && c in w.rows.disk[e].chunksList
      ensures c !in gone
    {
      assert RowOk(w, e, w.rows.disk[e]);
    }
    ChunkDeleteKeepsInv(w, x, {}, gone);
    CourseIgnoresRows(w, x, k);
  }

  // ----- Step 8 -----

  function EntityAnchorsGone(w: World, d: DocId): World {
    w.(entities := w.entities.Delete({d}))
  }

  function RelationAnchorsGone(w: World, d: DocId): World {
    w.(relations := w.relations.Delete({d}))
  }

  /** The anchors go last: with the chunks gone the journal alone proves the retry. */
  lemma AnchorDeleteKept(w: World, x: World, k: Duty, d: DocId)
    requires Kept(w, k) && k.watch == {} && k.frame == None && !k.open && k.doc == Some(d) && d in w.rows.mem && Live(w.rows.mem[d])
    requires w.rows.mem[d].purge.value.chunks == Scope(w.rows.mem[d]) && k.converged
    requires x == EntityAnchorsGone(w, d) || x == RelationAnchorsGone(w, d)
    ensures Kept(x, k)
  {
    PhaseIsLowerBound(w, {}, d, Mem);
    forall o: Obj, c: SourceId | c.Chunk? && c.doc == d
      ensures !Evidence(w, {}, o, c)
    {
      if Evidence(w, {}, o, c) {
        ScopeOf(w, {}, d, o, c);
        assert false;
      }
    }
    AnchorWriteKeepsInv(w, x, {}, d);
    CourseIgnoresRows(w, x, k);
  }

  // ----- The proof and the candidates -----

  function ResolveAt(w: World, d: DocId): Resolution
    requires d in w.rows.mem
  {
    var row := w.rows.mem[d];
    Resolve(row, Get(w.entities.mem, d), Get(w.relations.mem, d), Scope(row))
  }

  function CandidatesAt(w: World, d: DocId, kind: ProofKind): set<Obj>
    requires d in w.rows.mem
  {
    Candidates(w.rows.mem[d], Get(w.entities.mem, d), Get(w.relations.mem, d), kind)
  }

  /** A proof may be journaled: it is not one a crash could take back. */
  lemma ProvenMayRecord(w: World, d: DocId)
    requires d in w.rows.mem && AnchorsSettled(w, d)
    requires ResolveAt(w, d).Proven? && ResolveAt(w, d).phase == None
    ensures MayRecord(w, d, w.rows.mem[d], Prepared)
  {
    var row := w.rows.mem[d];
    ResolveIsExact(row, Get(w.entities.mem, d), Get(w.relations.mem, d), Scope(row));
    forall u: View, v: View
      ensures Provable(row, Get(w.entities.At(u), d), Get(w.relations.At(v), d), Scope(row))
    {
      ProofIsDurable(w, d, u, v);
    }
  }

  /** Journaling the proof changes neither the proof nor the candidates. */
  lemma PreparedResolves(w: World, x: World, d: DocId)
    requires d in w.rows.mem && ResolveAt(w, d).Proven? && ResolveAt(w, d).phase == None
    requires d in x.rows.mem && x.rows.mem[d] == Journaling(w.rows.mem[d], Prepared)
    requires x.entities.mem == w.entities.mem && x.relations.mem == w.relations.mem
    ensures ResolveAt(x, d) == ResolveAt(w, d).(phase := Some(Prepared))
    ensures forall kind :: CandidatesAt(x, d, kind) == CandidatesAt(w, d, kind)
  {
    assert Scope(x.rows.mem[d]) == Scope(w.rows.mem[d]);
  }

  lemma CandidatesCoverScope(w: World, d: DocId)
    requires Inv(w, {}) && d in w.rows.mem && ResolveAt(w, d).Proven?
    ensures CandidatesCover(w, CandidatesAt(w, d, ResolveAt(w, d).kind), Scope(w.rows.mem[d]))
  {
    forall o, c | c in Scope(w.rows.mem[d]) && Evidence(w, {}, o, c)
      ensures o in CandidatesAt(w, d, ResolveAt(w, d).kind)
    {
      ProofCoversEvidence(w, {}, d, o, c);
    }
  }
}
