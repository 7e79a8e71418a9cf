/** What each kind of write does to the invariant. */
module InvariantSteps {
  import opened Stores
  import opened KnowledgeGraph

  lemma RemixEvidence(w: World, x: World, watch: set<Obj>, o: Obj, c: SourceId)
    requires RemixWorld(w, x) && Evidence(x, watch, o, c)
    ensures Evidence(w, watch, o, c)
  {
    RemixAt(w.graph, x.graph, o);
    RemixAt(w.tracking, x.tracking, o);
  }

  lemma RemixAnchored(w: World, x: World, d: DocId, o: Obj)
    requires RemixWorld(w, x)
    requires AnchoredAt(w, Mem, d, o) && AnchoredAt(w, Disk, d, o)
    ensures AnchoredAt(x, Mem, d, o) && AnchoredAt(x, Disk, d, o)
  {
    RemixAt(w.entities, x.entities, d);
    RemixAt(w.relations, x.relations, d);
  }

  lemma RemixAnchorRows(w: World, x: World, d: DocId)
    requires RemixWorld(w, x)
    requires AnchorRowsAt(w, Mem, d) && AnchorRowsAt(w, Disk, d)
    ensures AnchorRowsAt(x, Mem, d) && AnchorRowsAt(x, Disk, d)
  {
    RemixAt(w.entities, x.entities, d);
    RemixAt(w.relations, x.relations, d);
  }

  lemma RemixBackedBy(w: World, x: World, row: Row, o: Obj, c: SourceId)
    requires RemixWorld(w, x) && c.Chunk? && BackedBy(w, row, o, c)
    ensures BackedBy(x, row, o, c)
  {
    if c in row.chunksList {
      RemixAnchored(w, x, c.doc, o);
      if c.doc !in w.given.legacy {
        RemixAnchorRows(w, x, c.doc);
      }
    }
  }

  lemma RemixBacked(w: World, x: World, o: Obj, c: SourceId)
    requires RemixWorld(w, x) && Backed(w, o, c)
    ensures Backed(x, o, c)
  {
    if c.Chunk? {
      RemixAt(w.chunks, x.chunks, c);
      RemixAt(w.rows, x.rows, c.doc);
      RemixBackedBy(w, x, w.rows.mem[c.doc], o, c);
      RemixBackedBy(w, x, w.rows.disk[c.doc], o, c);
    }
  }

  lemma RemixStored(w: World, x: World, row: Row)
    requires RemixWorld(w, x)
    requires forall b :: b in row.chunksList ==> Stored(w, b)
    ensures forall b :: b in row.chunksList ==> Stored(w, b) && Stored(x, b) && x.chunks.mem[b] == w.chunks.mem[b]
  {
    forall b | b in row.chunksList
      ensures Stored(w, b) && Stored(x, b) && x.chunks.mem[b] == w.chunks.mem[b]
    {
      RemixAt(w.chunks, x.chunks, b);
    }
  }

  lemma RemixPurge(w: World, x: World, d: DocId, row: Row, j: PurgeJournal)
    requires RemixWorld(w, x) && PurgeOk(w, d, row, j)
    ensures PurgeOk(x, d, row, j)
  {
    RemixAt(w.entities, x.entities, d);
    RemixAt(w.relations, x.relations, d);
    forall c | c in j.chunks && j.phase.Rank() >= AnchorsPending.Rank()
      ensures c !in x.chunks.mem && c !in x.chunks.disk
    {
      RemixAt(w.chunks, x.chunks, c);
    }
    if j.phase == Prepared && j.chunks == Scope(row) {
      forall u: View, v: View
        ensures Provable(row, Get(x.entities.At(u), d), Get(x.relations.At(v), d), j.chunks)
      {
        var u' := if Get(x.entities.At(u), d) == Get(w.entities.mem, d) then Mem else Disk;
        var v' := if Get(x.relations.At(v), d) == Get(w.relations.mem, d) then Mem else Disk;
        assert Provable(row, Get(w.entities.At(u'), d), Get(w.relations.At(v'), d), j.chunks);
      }
    }
  }

  lemma RemixRow(w: World, x: World, d: DocId, row: Row)
    requires RemixWorld(w, x) && RowOk(w, d, row)
    ensures RowOk(x, d, row)
  {
    if !Live(row) {
      RemixStored(w, x, row);
      RemixAt(w.entities, x.entities, d);
      RemixAt(w.relations, x.relations, d);
    }
    if row.purge.Some? {
      RemixPurge(w, x, d, row, row.purge.value);
    }
  }

  lemma RemixContent(w: World, x: World)
    requires Remix(w.chunks, x.chunks) && ContentOk(w.chunks.mem) && ContentOk(w.chunks.disk)
    ensures ContentOk(x.chunks.mem) && ContentOk(x.chunks.disk)
  {
    forall c | c in x.chunks.mem || c in x.chunks.disk
      ensures c.Chunk?
      ensures c in x.chunks.mem && c.key.Text? ==> x.chunks.mem[c] == c.key.text
      ensures c in x.chunks.disk && c.key.Text? ==> x.chunks.disk[c] == c.key.text
    {
      RemixAt(w.chunks, x.chunks, c);
    }
  }

  /** Leaks, flush barriers (whole or partial), discards and crashes all keep the invariant. */
  lemma BufferingKeepsInv(w: World, x: World, watch: set<Obj>)
    requires Inv(w, watch) && RemixWorld(w, x)
    ensures Inv(x, watch)
  {
    forall o, c | Evidence(x, watch, o, c)
      ensures Backed(x, o, c)
    {
      RemixEvidence(w, x, watch, o, c);
      RemixBacked(w, x, o, c);
    }
    forall d | d in x.rows.mem
      ensures RowOk(x, d, x.rows.mem[d])
    {
      RemixAt(w.rows, x.rows, d);
      RemixRow(w, x, d, x.rows.mem[d]);
    }
    forall d | d in x.rows.disk
      ensures RowOk(x, d, x.rows.disk[d])
    {
      RemixAt(w.rows, x.rows, d);
      RemixRow(w, x, d, x.rows.disk[d]);
    }
    RemixContent(w, x);
  }

  // ----- Writes to the graph and the tracking rows -----

  lemma DerivedWriteBacked(w: World, x: World, o: Obj, c: SourceId)
    requires x == w.(graph := x.graph, tracking := x.tracking)
    ensures Backed(x, o, c) == Backed(w, o, c)
  {
    if c.Chunk? && c.doc in w.rows.mem && c.doc in w.rows.disk {
      forall v: View
        ensures AnchoredAt(x, v, c.doc, o) == AnchoredAt(w, v, c.doc, o)
        ensures AnchorRowsAt(x, v, c.doc) == AnchorRowsAt(w, v, c.doc)
      {
        assert x.entities.At(v) == w.entities.At(v) && x.relations.At(v) == w.relations.At(v);
      }
      assert BackedBy(x, w.rows.mem[c.doc], o, c) == BackedBy(w, w.rows.mem[c.doc], o, c);
      assert BackedBy(x, w.rows.disk[c.doc], o, c) == BackedBy(w, w.rows.disk[c.doc], o, c);
    }
  }

  lemma DerivedWriteRow(w: World, x: World, d: DocId, row: Row)
    requires x == w.(graph := x.graph, tracking := x.tracking)
    requires RowOk(w, d, row)
    ensures RowOk(x, d, row)
  {
  }

  /** A write to the graph or the tracking rows is safe exactly when the evidence it leaves was
      already backed. */
  lemma DerivedWriteKeepsInv(w: World, x: World, watch: set<Obj>)
    requires Inv(w, watch)
    requires x == w.(graph := x.graph, tracking := x.tracking)
    ensures Inv(x, watch) <==> (forall o, c :: Evidence(x, watch, o, c) ==> Backed(w, o, c))
  {
    forall o, c
      ensures Backed(x, o, c) == Backed(w, o, c)
    {
      DerivedWriteBacked(w, x, o, c);
    }
    forall d | d in x.rows.mem
      ensures RowOk(x, d, x.rows.mem[d])
    {
      DerivedWriteRow(w, x, d, x.rows.mem[d]);
    }
    forall d | d in x.rows.disk
      ensures RowOk(x, d, x.rows.disk[d])
    {
      DerivedWriteRow(w, x, d, x.rows.disk[d]);
    }
  }

  // ----- Writes to the chunk store -----

  lemma ChunkUpsertKeepsInv(w: World, x: World, watch: set<Obj>, d: DocId, entries: map<SourceId, string>)
    requires Inv(w, watch)
    requires x == w.(chunks := w.chunks.Upsert(entries))
    requires forall c :: c in entries ==> c.Chunk? && c.doc == d && c.key.Text? && entries[c] == c.key.text
    requires d in w.rows.mem ==> !PastDerived(w.rows.mem[d])
    requires d in w.rows.disk ==> !PastDerived(w.rows.disk[d])
    ensures Inv(x, watch)
  {
    forall c | Stored(w, c)
      ensures Stored(x, c) && x.chunks.mem[c] == w.chunks.mem[c]
    {
    }
    forall o, c | Evidence(x, watch, o, c)
      ensures Backed(x, o, c)
    {
      assert Evidence(w, watch, o, c);
      assert Backed(w, o, c);
    }
    forall e, row | (e in w.rows.mem && row == w.rows.mem[e]) || (e in w.rows.disk && row == w.rows.disk[e])
      ensures RowOk(x, e, row)
    {
      ChunkUpsertKeepsRow(w, x, d, entries, e, row);
    }
  }

  lemma ChunkUpsertKeepsRow(w: World, x: World, d: DocId, entries: map<SourceId, string>, e: DocId, row: Row)
    requires RowOk(w, e, row) && ContentOk(w.chunks.mem) && ContentOk(w.chunks.disk)
    requires x == w.(chunks := w.chunks.Upsert(entries))
    requires forall c :: c in entries ==> c.Chunk? && c.doc == d && c.key.Text? && entries[c] == c.key.text
    requires e == d ==> !PastDerived(row)
    ensures RowOk(x, e, row)
  {
    if !Live(row) {
      forall b | b in row.chunksList
        ensures Stored(x, b) && Stored(w, b) && x.chunks.mem[b] == w.chunks.mem[b] && x.chunks.disk[b] == w.chunks.disk[b]
      {
        assert Stored(w, b);
      }
    }
    if row.purge.Some? {
      ChunkUpsertKeepsPurge(w, x, d, entries, e, row, row.purge.value);
    }
    hide PurgeOk;
  }

  lemma ChunkUpsertKeepsPurge(w: World, x: World, d: DocId, entries: map<SourceId, string>, e: DocId, row: Row,
      j: PurgeJournal)
    requires PurgeOk(w, e, row, j) && x == w.(chunks := w.chunks.Upsert(entries))
    requires forall c :: c in entries ==> c.Chunk? && c.doc == d
    requires e == d ==> j.phase == Prepared
    ensures PurgeOk(x, e, row, j)
  {
  }

  lemma ChunkDeleteKeepsRow(w: World, x: World, gone: set<SourceId>, d: DocId, row: Row)
    requires RowOk(w, d, row) && x == w.(chunks := w.chunks.Delete(gone))
    requires !Live(row) ==> forall c :: c in row.chunksList ==> c !in gone
    ensures RowOk(x, d, row)
  {
  }

  lemma ChunkDeleteKeepsInv(w: World, x: World, watch: set<Obj>, gone: set<SourceId>)
    requires Inv(w, watch)
    requires x == w.(chunks := w.chunks.Delete(gone))
    requires forall o, c :: c in gone && c.Chunk? ==> !Evidence(w, watch, o, c)
    requires forall d, c :: d in w.rows.mem && !Live(w.rows.mem[d]) && c in w.rows.mem[d].chunksList ==> c !in gone
    requires forall d, c :: d in w.rows.disk && !Live(w.rows.disk[d]) && c in w.rows.disk[d].chunksList ==> c !in gone
    ensures Inv(x, watch)
  {
    forall d | d in x.rows.mem
      ensures RowOk(x, d, x.rows.mem[d])
    {
      ChunkDeleteKeepsRow(w, x, gone, d, w.rows.mem[d]);
    }
    forall d | d in x.rows.disk
      ensures RowOk(x, d, x.rows.disk[d])
    {
      ChunkDeleteKeepsRow(w, x, gone, d, w.rows.disk[d]);
    }
    hide RowOk;
    forall o, c | Evidence(x, watch, o, c)
      ensures Backed(x, o, c)
    {
      assert Evidence(w, watch, o, c);
      assert Backed(w, o, c);
    }
  }

  // ----- Writes to the anchor rows -----

  /** Only the anchor rows of `d` differ. */
  ghost predicate AnchorWrite(w: World, x: World, d: DocId) {
    && x == w.(entities := x.entities, relations := x.relations)
    && x.entities.disk == w.entities.disk && x.relations.disk == w.relations.disk
    && (forall e :: e != d ==> Get(x.entities.mem, e) == Get(w.entities.mem, e))
    && (forall e :: e != d ==> Get(x.relations.mem, e) == Get(w.relations.mem, e))
  }

  lemma AnchorWriteOther(w: World, x: World, d: DocId, o: Obj, c: SourceId)
    requires AnchorWrite(w, x, d) && Backed(w, o, c) && (c.Chunk? ==> c.doc != d)
    ensures Backed(x, o, c)
  {
    if c.Chunk? {
      assert Get(x.entities.mem, c.doc) == Get(w.entities.mem, c.doc);
      assert Get(x.relations.mem, c.doc) == Get(w.relations.mem, c.doc);
      BackedByAnchors(w, x, w.rows.mem[c.doc], o, c);
      BackedByAnchors(w, x, w.rows.disk[c.doc], o, c);
    }
  }

  lemma BackedByAnchors(w: World, x: World, row: Row, o: Obj, c: SourceId)
    requires c.Chunk? && BackedBy(w, row, o, c) && x.given == w.given
    requires forall v: View :: Get(x.entities.At(v), c.doc) == Get(w.entities.At(v), c.doc)
    requires forall v: View :: Get(x.relations.At(v), c.doc) == Get(w.relations.At(v), c.doc)
    ensures BackedBy(x, row, o, c)
  {
    assert forall v: View :: AnchoredAt(w, v, c.doc, o) ==> AnchoredAt(x, v, c.doc, o) by {
      forall v: View | AnchoredAt(w, v, c.doc, o)
        ensures AnchoredAt(x, v, c.doc, o)
      {
        assert Get(x.entities.At(v), c.doc) == Get(w.entities.At(v), c.doc);
        assert Get(x.relations.At(v), c.doc) == Get(w.relations.At(v), c.doc);
      }
    }
    assert forall v: View :: AnchorRowsAt(w, v, c.doc) ==> AnchorRowsAt(x, v, c.doc) by {
      forall v: View | AnchorRowsAt(w, v, c.doc)
        ensures AnchorRowsAt(x, v, c.doc)
      {
        assert Get(x.entities.At(v), c.doc) == Get(w.entities.At(v), c.doc);
        assert Get(x.relations.At(v), c.doc) == Get(w.relations.At(v), c.doc);
      }
    }
  }

  lemma AnchorWriteRowOther(w: World, x: World, d: DocId, e: DocId, row: Row)
    requires AnchorWrite(w, x, d) && RowOk(w, e, row) && e != d
    ensures RowOk(x, e, row)
  {
    assert Get(x.entities.mem, e) == Get(w.entities.mem, e);
    assert Get(x.relations.mem, e) == Get(w.relations.mem, e);
    if row.purge.Some? {
      forall u: View, v: View
        ensures Get(x.entities.At(u), e) == Get(w.entities.At(u), e)
        ensures Get(x.relations.At(v), e) == Get(w.relations.At(v), e)
      {
      }
      var j := row.purge.value;
      if j.phase == Prepared && j.chunks == Scope(row) {
        forall u: View, v: View
          ensures Provable(row, Get(x.entities.At(u), e), Get(x.relations.At(v), e), j.chunks)
        {
          assert Provable(row, Get(w.entities.At(u), e), Get(w.relations.At(v), e), j.chunks);
        }
      }
    }
  }

  /** Rewriting a document's anchor rows is safe when its committed evidence stays named and its own
      row stays well formed. */
  lemma AnchorWriteKeepsInv(w: World, x: World, watch: set<Obj>, d: DocId)
    requires Inv(w, watch) && AnchorWrite(w, x, d)
    requires forall o, c :: Evidence(w, watch, o, c) && c.Chunk? && c.doc == d ==> Backed(x, o, c)
    requires d in w.rows.mem ==> RowOk(x, d, w.rows.mem[d])
    requires d in w.rows.disk ==> RowOk(x, d, w.rows.disk[d])
    ensures Inv(x, watch)
  {
    forall o, c | Evidence(x, watch, o, c)
      ensures Backed(x, o, c)
    {
      assert Evidence(w, watch, o, c);
      if !(c.Chunk? && c.doc == d) {
        AnchorWriteOther(w, x, d, o, c);
      }
    }
    forall e | e in x.rows.mem
      ensures RowOk(x, e, x.rows.mem[e])
    {
      if e != d {
        AnchorWriteRowOther(w, x, d, e, w.rows.mem[e]);
      }
    }
    forall e | e in x.rows.disk
      ensures RowOk(x, e, x.rows.disk[e])
    {
      if e != d {
        AnchorWriteRowOther(w, x, d, e, w.rows.disk[e]);
      }
    }
  }

  // ----- Writes to the document rows -----

  /** A durable row write is safe when the new row backs the document's evidence. */
  lemma RowWriteKeepsInv(w: World, x: World, watch: set<Obj>, d: DocId, row: Row)
    requires Inv(w, watch)
    requires x == w.(rows := w.rows.UpsertDurable(d, row))
    requires forall o, c :: Evidence(w, watch, o, c) && c.Chunk? && c.doc == d ==> BackedBy(w, row, o, c)
    requires RowOk(w, d, row)
    ensures Inv(x, watch)
  {
    forall o, c | Evidence(x, watch, o, c)
      ensures Backed(x, o, c)
    {
      assert Evidence(w, watch, o, c);
      assert Backed(w, o, c);
      if c.Chunk? {
        assert BackedBy(w, if c.doc == d then row else w.rows.mem[c.doc], o, c);
        assert BackedBy(w, if c.doc == d then row else w.rows.disk[c.doc], o, c);
      }
    }
    forall e | e in x.rows.mem
      ensures RowOk(x, e, x.rows.mem[e])
    {
      assert RowOk(w, e, x.rows.mem[e]);
    }
    forall e | e in x.rows.disk
      ensures RowOk(x, e, x.rows.disk[e])
    {
      assert RowOk(w, e, x.rows.disk[e]);
    }
  }

  lemma RowDeleteKeepsInv(w: World, x: World, watch: set<Obj>, d: DocId)
    requires Inv(w, watch)
    requires x == w.(rows := w.rows.Delete({d}))
    requires forall o, c :: Evidence(w, watch, o, c) && c.Chunk? ==> c.doc != d
    ensures Inv(x, watch)
  {
    forall o, c | Evidence(x, watch, o, c)
      ensures Backed(x, o, c)
    {
      assert Evidence(w, watch, o, c);
      assert Backed(w, o, c);
    }
    forall e | e in x.rows.mem
      ensures RowOk(x, e, x.rows.mem[e])
    {
      assert RowOk(w, e, w.rows.mem[e]);
    }
    forall e | e in x.rows.disk
      ensures RowOk(x, e, x.rows.disk[e])
    {
      assert RowOk(w, e, w.rows.disk[e]);
    }
  }
}
