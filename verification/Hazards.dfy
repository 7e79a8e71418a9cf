/** Where the code relies on something it does not check: for each place, exactly when it is safe. */
module Hazards {
  import opened Stores
  import opened KnowledgeGraph
  import opened InvariantSteps
  import opened Classification
  import opened DerivedPass
  import opened RecoveryProof
  import opened PurgeDerived
  import opened PurgeSteps
  import opened CustomChunkRow
  import opened CustomChunkSteps

  /** An insert carries the purge journal along.  Resumed over a journal past `prepared`, its merge
      brings back evidence the journal reports as removed: it is safe exactly when the chunk is not
      among the retired ones. */
  lemma MergeIsSafeIffUnretired(w: World, d: DocId, j: CustomJournal, o: Obj, c: SourceId)
    requires Inv(w, {o}) && d in w.rows.mem && w.rows.mem[d].custom == Some(j)
    requires c in j.staged && Stored(w, c) && o in j.names
    ensures Inv(w.(graph := w.graph.Put(o, [c])), {o}) <==> !Retired(w.rows.mem[d], c)
  {
    var x := w.(graph := w.graph.Put(o, [c]));
    assert RowOk(w, d, w.rows.mem[d]);
    DerivedWriteKeepsInv(w, x, {o});
    assert Evidence(x, {o}, o, c) by {
      assert x.graph.mem[o] == [c];
    }
    if !Retired(w.rows.mem[d], c) {
      forall p, b | Evidence(x, {o}, p, b)
        ensures Backed(w, p, b)
      {
        if p != o || b != c {
          assert Evidence(w, {o}, p, b);
        }
      }
    }
  }

  /** What the chunk store, the document's row in memory and its anchors say of a chunk that `o` names:
      it is stored and unretired, and either staged with the object in the journal, or listed with the
      object in the anchors. */
  predicate Accounted(w: World, o: Obj, c: SourceId)
    requires c.Chunk?
  {
    && Stored(w, c) && c.doc in w.rows.mem && !Retired(w.rows.mem[c.doc], c)
    && var row := w.rows.mem[c.doc];
    if c in Staged(row) then o in Journaled(row)
    else
      && c in row.chunksList
      && AnchoredAt(w, Mem, c.doc, o) && AnchoredAt(w, Disk, c.doc, o)
      && (c.doc in w.given.legacy || (AnchorRowsAt(w, Mem, c.doc) && AnchorRowsAt(w, Disk, c.doc)))
  }

  lemma AccountedIsBacked(w: World, watch: set<Obj>, o: Obj, c: SourceId)
    requires Inv(w, watch) && c.Chunk?
    ensures Accounted(w, o, c) <==> Backed(w, o, c)
  {
    if c.doc in w.rows.mem {
      assert RowOk(w, c.doc, w.rows.mem[c.doc]);
    }
  }

  /** A crash in the middle of a barrier can leave the tracking row of an object that is gone from the
      graph.  Creating the object again revives that row: safe exactly when every chunk on it is stored,
      unretired, and still listed or staged by a document that names the object. */
  lemma RevivalIsSafeIffAccounted(w: World, o: Obj, ids: seq<SourceId>)
    requires Inv(w, {}) && o !in w.graph.mem && o !in w.graph.disk
    requires forall c :: c in ids ==> Lists(w.tracking.mem, o, c)
    ensures
      Inv(w.(graph := w.graph.Put(o, ids)), {}) <==>
      (forall c :: (Lists(w.tracking.mem, o, c) || Lists(w.tracking.disk, o, c)) && c.Chunk? ==> Accounted(w, o, c))
  {
    var x := w.(graph := w.graph.Put(o, ids));
    DerivedWriteKeepsInv(w, x, {});
    forall c
      ensures Evidence(x, {}, o, c) <==> Lists(w.tracking.mem, o, c) || Lists(w.tracking.disk, o, c)
      ensures c.Chunk? ==> (Accounted(w, o, c) <==> Backed(w, o, c))
    {
      assert o in x.graph.mem;
      if c.Chunk? {
        AccountedIsBacked(w, {}, o, c);
      }
    }
    forall p, c | p != o
      ensures Evidence(x, {}, p, c) == Evidence(w, {}, p, c)
    {
    }
  }

  /** A patch of a document that has no entity anchor row writes one holding the patch's names only.
      From then on the row passes for a proof: safe exactly when the names already cover every entity
      the document's listed chunks contribute to. */
  lemma FirstAnchorsAreSafeIffComplete(w: World, watch: set<Obj>, d: DocId, names: set<string>)
    requires Inv(w, watch) && d in w.rows.mem && w.rows.mem[d].purge == None && Scope(w.rows.mem[d]) != {}
    requires d !in w.entities.mem
    ensures
      Inv(EntityAnchorsSet(w, d, names), watch) <==>
      (forall n, c :: Evidence(w, watch, Node(n), c) && c in w.rows.mem[d].chunksList ==> n in names)
  {
    var x := EntityAnchorsSet(w, d, names);
    var row := w.rows.mem[d];
    assert RowOk(w, d, row);
    forall o, c
      ensures Evidence(x, watch, o, c) == Evidence(w, watch, o, c)
    {
    }
    if Inv(x, watch) {
      forall n, c | Evidence(w, watch, Node(n), c) && c in row.chunksList
        ensures n in names
      {
        assert Evidence(x, watch, Node(n), c);
        assert Backed(x, Node(n), c) && BackedBy(x, row, Node(n), c);
        assert AnchoredAt(x, Mem, d, Node(n));
      }
    }
    if forall n, c :: Evidence(w, watch, Node(n), c) && c in row.chunksList ==> n in names {
      forall o, c | Evidence(w, watch, o, c) && c.Chunk? && c.doc == d
        ensures Backed(x, o, c)
      {
        FirstAnchorsBack(w, watch, d, names, o, c);
      }
      AnchorWriteKeepsInv(w, x, watch, d);
    }
  }

  lemma FirstAnchorsBack(w: World, watch: set<Obj>, d: DocId, names: set<string>, o: Obj, c: SourceId)
    requires Inv(w, watch) && d in w.rows.mem && d !in w.entities.mem
    requires Evidence(w, watch, o, c) && c.Chunk? && c.doc == d
    requires o.Node? && c in w.rows.mem[d].chunksList ==> o.name in names
    ensures Backed(EntityAnchorsSet(w, d, names), o, c)
  {
    var x := EntityAnchorsSet(w, d, names);
    var row := w.rows.mem[d];
    assert Backed(w, o, c) && BackedBy(w, row, o, c);
    assert AnchoredAt(w, Disk, d, o) ==> AnchoredAt(x, Disk, d, o);
    assert AnchoredAt(w, Mem, d, o) ==> o.Edge? ==> AnchoredAt(x, Mem, d, o);
    assert AnchorRowsAt(w, Mem, d) ==> AnchorRowsAt(x, Mem, d);
    assert AnchorRowsAt(w, Disk, d) ==> AnchorRowsAt(x, Disk, d);
    assert BackedBy(x, row, o, c);
  }

  /** The ordinary rebuild policy logs an object it cannot rebuild and goes on, and the purge goes on to
      journal `derived_committed` whatever was skipped.  `PurgeDerived.PassIsCleanIff` says from the start
      of the pass when that leaves a purged chunk in the graph; the journal entry is safe exactly when it
      does not. */
  lemma CommittingIsSafeIffClean(w: World, d: DocId)
    requires Inv(w, {}) && d in w.rows.mem
    ensures Inv(PhaseWritten(w, d, DerivedCommitted), {}) <==> Clean(w, Scope(w.rows.mem[d]))
  {
    var row := w.rows.mem[d];
    var next := Journaling(row, DerivedCommitted);
    var x := PhaseWritten(w, d, DerivedCommitted);
    if Clean(w, Scope(row)) {
      JournalingKeepsRow(w, {}, d, DerivedCommitted);
      forall o: Obj, c: SourceId | c.Chunk? && c.doc == d
        ensures !Evidence(w, {}, o, c)
      {
        if Evidence(w, {}, o, c) {
          ScopeOf(w, {}, d, o, c);
          assert false;
        }
      }
      RowWriteKeepsInv(w, x, {}, d, next);
    } else {
      var o, c :| c in Scope(row) && Evidence(w, {}, o, c);
      assert RowOk(w, d, row);
      assert Evidence(x, {}, o, c);
      assert Retired(next, c);
      assert !Backed(x, o, c);
    }
  }

  /** The rollback sweep looks at the custom-chunk journal only.  Run between a crashed deletion and its
      retry, it changes the chunk set the purge journal speaks for.  The retry then conflicts, exactly
      when the purge had not completed... */
  lemma SweepBetweenRetriesConflictsIff(w: World, d: DocId, row: Row, phase: Phase, entities: Option<set<string>>,
      relations: Option<set<(string, string)>>)
    requires RowOk(w, d, row) && row.custom.Some? && row.purge == Some(PurgeJournal(Scope(row), phase))
    ensures
      var next := RolledBack(row);
      && Scope(next) < Scope(row)
      && (Resolve(next, entities, relations, Scope(next)).Conflict? <==> phase != Completed)
  {
    var j := row.custom.value;
    var next := RolledBack(row);
    assert j.staged[0] in j.staged && InScope(row, j.staged[0]) && !InScope(next, j.staged[0]);
    forall c | c in Scope(next)
      ensures c in Scope(row)
    {
    }
    assert j.staged[0] in Scope(row) && j.staged[0] !in Scope(next);
  }

  /** ...and if it had, the sweep brings the document back as processed, with a list of deleted chunks:
      well formed exactly when the base had none. */
  lemma SweepAfterPurgeRevivesIff(w: World, d: DocId, row: Row)
    requires RowOk(w, d, row) && row.custom.Some? && row.purge == Some(PurgeJournal(Scope(row), Completed))
    ensures
      var next := RolledBack(row);
      && next.status == Processed && next.chunksList == row.chunksList
      && (forall c :: c in next.chunksList ==> c !in w.chunks.mem && c !in w.chunks.disk)
      && (RowOk(w, d, next) <==> row.chunksList == [])
  {
    var next := RolledBack(row);
    SweepBetweenRetriesConflictsIff(w, d, row, Completed, None, None);
    if row.chunksList != [] {
      assert row.chunksList[0] in Scope(next);
      assert !RowOk(w, d, next);
    }
  }

  /** A relation that keeps nothing but no-evidence placeholders outlives the pass that emptied it and
      goes only with the next one: this is the one way two passes differ from one. */
  lemma PlaceholdersSurviveOnePass(o: Obj, tracked: seq<SourceId>, sources: seq<SourceId>, gone: set<SourceId>,
      policy: Policy, limits: Limits)
    requires Classify(tracked, sources, gone, policy).Rebuild?
    ensures
      var remaining := Classify(tracked, sources, gone, policy).remaining;
      var row := Evidential(o, remaining);
      && (row == [] <==> o.Edge? && forall c :: c in remaining ==> c.Placeholder? && c.tag in NO_EVIDENCE_TAGS)
      && (Classify(row, limits.Cut(o, row), gone, policy).Drop? <==> row == [])
  {
    ClassifyIsExact(tracked, sources, gone, policy);
    var remaining := Classify(tracked, sources, gone, policy).remaining;
    var row := Evidential(o, remaining);
    ClassifyIsExact(row, limits.Cut(o, row), gone, policy);
    assert remaining[0] in remaining;
    if row != [] {
      assert row[0] in row && row[0] in remaining && row[0] !in gone;
    } else {
      forall c | c in remaining
        ensures o.Edge? && c.Placeholder? && c.tag in NO_EVIDENCE_TAGS
      {
        assert c !in row;
      }
    }
  }

  /** What the document of a chunk says of `e`, it says of `n`: the journal names it if the chunk is staged,
      the anchors do if it is listed. */
  predicate NamedAlike(w: World, n: Obj, c: SourceId)
    requires c.Chunk?
  {
    c.doc in w.rows.mem ==>
      var row := w.rows.mem[c.doc];
      && (c in Staged(row) ==> n in Journaled(row))
      && (c in row.chunksList ==> AnchoredAt(w, Mem, c.doc, n) && AnchoredAt(w, Disk, c.doc, n))
  }

  /** Merging a relation also hands its older sources on to its endpoints.  That is safe exactly when the
      document of each such source names the endpoint where it names the relation. */
  lemma InheritingIsSafeIffNamed(w: World, watch: set<Obj>, e: Obj, n: Obj, ids: seq<SourceId>)
    requires Inv(w, watch) && n in watch
    requires forall c :: c in ids ==> Evidence(w, watch, e, c)
    ensures
      Inv(w.(tracking := w.tracking.Put(n, ids)), watch) <==>
      (forall c :: c in ids && c.Chunk? ==> NamedAlike(w, n, c))
  {
    var x := w.(tracking := w.tracking.Put(n, ids));
    DerivedWriteKeepsInv(w, x, watch);
    forall c | c in ids
      ensures Evidence(x, watch, n, c)
      ensures c.Chunk? ==> (Backed(w, n, c) <==> NamedAlike(w, n, c))
    {
      assert x.tracking.mem[n] == ids;
      assert Backed(w, e, c);
    }
    forall p, c | Evidence(x, watch, p, c) && !(p == n && c in ids)
      ensures Evidence(w, watch, p, c)
    {
    }
  }
}
