/** Whether a whole-document purge may delete anything, and what it must look at. */
module RecoveryProof {
  import opened Stores
  import opened KnowledgeGraph

  datatype Reason = ChunklessContributions | MissingAnchorRows

  datatype Resolution =
    | Proven(kind: ProofKind, phase: Option<Phase>)
    | Refused(reason: Reason)
    | Conflict

  predicate Populated<T(==)>(row: Option<set<T>>) {
    row.Some? && row.value != {}
  }

  function Resolve(row: Row, entities: Option<set<string>>, relations: Option<set<(string, string)>>,
      scope: set<SourceId>): Resolution {
    var mismatched := row.purge.Some? && row.purge.value.chunks != scope;
    if mismatched && row.purge.value.phase != Completed then Conflict
    else
      // a stale completed journal describes a finished purge and is ignored
      var phase := if row.purge.Some? && !mismatched then Some(row.purge.value.phase) else None;
      if phase.Some? && phase.value != Prepared then Proven(JournalProof, phase)
      else if entities.Some? && relations.Some? then
        if scope == {} && (Populated(entities) || Populated(relations)) then Refused(ChunklessContributions)
        else Proven(Anchors, phase)
      else if row.writeState == PreGraph then Proven(PreGraphProof, phase)
      else if scope == {} && !Populated(entities) && !Populated(relations) then Proven(EmptyScope, phase)
      else Refused(MissingAnchorRows)
  }

  /** The journal records, for exactly this chunk set, that the derived contributions are gone. */
  predicate Resumed(row: Row, scope: set<SourceId>) {
    PastDerived(row) && row.purge.value.chunks == scope
  }

  /** It conflicts exactly when an unfinished journal names another chunk set.  Otherwise a journal past
      `prepared` is the proof exactly when it names this chunk set; failing that, the anchors are exactly
      when both rows are there and are not names without chunks; `pre_graph` exactly when a row is missing
      and the document never touched the graph; the empty scope exactly when a row is missing, the marker
      is not `pre_graph` and there is nothing to purge and no name on the other row.  It is refused exactly
      when none of them applies. */
  lemma ResolveIsExact(row: Row, entities: Option<set<string>>, relations: Option<set<(string, string)>>,
      scope: set<SourceId>)
    ensures
      var r := Resolve(row, entities, relations, scope);
      && (r.Conflict? <==> row.purge.Some? && row.purge.value.chunks != scope && row.purge.value.phase != Completed)
      && (r.Proven? && r.kind == JournalProof <==> Resumed(row, scope))
      && (r.Proven? && r.kind == Anchors <==>
            !r.Conflict? && !Resumed(row, scope) && entities.Some? && relations.Some? &&
            (scope == {} ==> entities.value == {} && relations.value == {}))
      && (r.Proven? && r.kind == PreGraphProof <==>
            !r.Conflict? && !Resumed(row, scope) && (entities.None? || relations.None?) && row.writeState == PreGraph)
      && (r.Proven? && r.kind == EmptyScope <==>
            !r.Conflict? && !Resumed(row, scope) && (entities.None? || relations.None?) && row.writeState != PreGraph &&
            scope == {} && !Populated(entities) && !Populated(relations))
      && (r.Proven? ==> r.phase == if row.purge.Some? && row.purge.value.chunks == scope then Some(row.purge.value.phase) else None)
      && (r.Refused? <==> !r.Conflict? && !Resumed(row, scope) && !Provable(row, entities, relations, scope))
      && (r.Proven? && r.kind != JournalProof ==> Provable(row, entities, relations, scope))
  {
  }

  /** Once `prepared` is durable for a chunk set, every retry with that set gets a proof, whichever
      view of the anchor rows it reads. */
  lemma RetryIsProven(w: World, d: DocId, row: Row, u: View, v: View)
    requires RowOk(w, d, row)
    requires row.purge.Some? && row.purge.value.chunks == Scope(row)
    ensures
      var r := Resolve(row, Get(w.entities.At(u), d), Get(w.relations.At(v), d), Scope(row));
      r.Proven? && r.phase == Some(row.purge.value.phase)
  {
    if row.purge.value.phase == Prepared {
      assert Provable(row, Get(w.entities.At(u), d), Get(w.relations.At(v), d), row.purge.value.chunks);
    }
  }

  function EntityObjects(names: set<string>): (r: set<Obj>)
    ensures forall n: string :: Node(n) in r <==> n in names
    ensures forall o :: o in r ==> o.Node?
  {
    set n | n in names :: Node(n)
  }

  function RelationObjects(pairs: set<(string, string)>): (r: set<Obj>)
    ensures forall a: string, b: string :: Edge(a, b) in r <==> (a, b) in pairs
    ensures forall o :: o in r ==> o.Edge?
  {
    set p | p in pairs :: Edge(p.0, p.1)
  }

  function NamesOf(objects: set<Obj>): (r: set<string>)
    ensures forall n: string :: n in r <==> Node(n) in objects
  {
    set o | o in objects && o.Node? :: o.name
  }

  function PairsOf(objects: set<Obj>): (r: set<(string, string)>)
    ensures forall a: string, b: string :: (a, b) in r <==> Edge(a, b) in objects
  {
    set o | o in objects && o.Edge? :: (o.src, o.tgt)
  }

  /** The candidates of a proven purge: the anchor rows unless the proof says there are none to read,
      and always those of an unfinished custom-chunk journal. */
  function Candidates(row: Row, entities: Option<set<string>>, relations: Option<set<(string, string)>>,
      kind: ProofKind): set<Obj> {
    var anchored :=
      if kind == PreGraphProof || kind == EmptyScope then {}
      else
        (if entities.Some? then EntityObjects(entities.value) else {}) +
        (if relations.Some? then RelationObjects(relations.value) else {});
    anchored + Journaled(row)
  }

  /** An object is a candidate exactly when the custom-chunk journal names it, or an anchor row that is there
      does and the proof rests on anchors, its own or those a journaled purge began with. */
  lemma CandidatesAre(row: Row, entities: Option<set<string>>, relations: Option<set<(string, string)>>,
      kind: ProofKind, o: Obj)
    ensures o in Candidates(row, entities, relations, kind) <==>
      || (row.custom.Some? && o in row.custom.value.names)
      || ((kind == Anchors || kind == JournalProof) &&
          match o
          case Node(n) => entities.Some? && n in entities.value
          case Edge(a, b) => relations.Some? && (a, b) in relations.value)
  {
    if entities.Some? && o.Edge? {
      assert o !in EntityObjects(entities.value);
    }
    if relations.Some? && o.Node? {
      assert o !in RelationObjects(relations.value);
    }
  }

  /** Soundness of the proofs: each names every object with evidence from the purged chunks. */
  lemma ProofCoversEvidence(w: World, watch: set<Obj>, d: DocId, o: Obj, c: SourceId)
    requires Inv(w, watch) && d in w.rows.mem
    requires Evidence(w, watch, o, c) && c in Scope(w.rows.mem[d])
    ensures
      var row := w.rows.mem[d];
      var entities, relations := Get(w.entities.mem, d), Get(w.relations.mem, d);
      var r := Resolve(row, entities, relations, Scope(row));
      r.Proven? ==> r.kind != JournalProof && o in Candidates(row, entities, relations, r.kind)
  {
    var row := w.rows.mem[d];
    assert RowOk(w, d, row);
    assert c.Chunk? && c.doc == d;
    assert Backed(w, o, c);
    assert BackedBy(w, row, o, c);
    if c in row.chunksList {
      assert AnchoredAt(w, Mem, d, o);
    }
  }
}
