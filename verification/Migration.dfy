/** The migrations that give an old store the anchors and the tracking rows a purge relies on. */
module Migration {
  import opened Stores
  import opened KnowledgeGraph
  import opened RecoveryProof

  /** A processed document and the chunks it lists. */
  datatype Listed = Listed(doc: DocId, chunks: seq<SourceId>)

  /** A graph object and its own source list. */
  datatype Sourced = Sourced(obj: Obj, sources: seq<SourceId>)

  /** Each chunk is listed by one document. */
  ghost predicate Exclusive(processed: seq<Listed>) {
    forall i, j, c :: 0 <= i < |processed| && 0 <= j < |processed| && c in processed[i].chunks && c in processed[j].chunks ==>
      processed[i].doc == processed[j].doc
  }

  ghost predicate ListedBy(processed: seq<Listed>, d: DocId, c: SourceId) {
    exists i :: 0 <= i < |processed| && processed[i].doc == d && c in processed[i].chunks
  }

  method ChunkOwners(processed: seq<Listed>) returns (owner: map<SourceId, DocId>)
    ensures forall c :: c in owner ==> ListedBy(processed, owner[c], c)
    ensures forall i, c :: 0 <= i < |processed| && c in processed[i].chunks ==> c in owner
    ensures Exclusive(processed) ==> forall c, d :: ListedBy(processed, d, c) <==> c in owner && owner[c] == d
  {
    owner := map[];
    for i := 0 to |processed|
      invariant forall c :: c in owner ==> ListedBy(processed, owner[c], c)
      invariant forall k, c :: 0 <= k < i && c in processed[k].chunks ==> c in owner
    {
      for j := 0 to |processed[i].chunks|
        invariant forall c :: c in owner ==> ListedBy(processed, owner[c], c)
        invariant forall k, c :: 0 <= k < i && c in processed[k].chunks ==> c in owner
        invariant forall c :: c in processed[i].chunks[..j] ==> c in owner
      {
        owner := owner[processed[i].chunks[j] := processed[i].doc];
      }
      assert processed[i].chunks[..|processed[i].chunks|] == processed[i].chunks;
    }
  }

  /** Some source is a chunk of the document. */
  ghost predicate Touches(sources: seq<SourceId>, owner: map<SourceId, DocId>, d: DocId) {
    exists c :: c in sources && c in owner && owner[c] == d
  }

  ghost predicate Contributes(records: seq<Sourced>, owner: map<SourceId, DocId>, d: DocId, o: Obj) {
    exists i :: 0 <= i < |records| && records[i].obj == o && Touches(records[i].sources, owner, d)
  }

  predicate Has(found: map<DocId, set<Obj>>, d: DocId, o: Obj) {
    d in found && o in found[d]
  }

  /** One pass over the nodes, or over the edges. */
  method Collect(records: seq<Sourced>, owner: map<SourceId, DocId>) returns (found: map<DocId, set<Obj>>)
    ensures forall d, o :: Has(found, d, o) <==> Contributes(records, owner, d, o)
    ensures forall d :: d in found ==> found[d] != {}
  {
    found := map[];
    for i := 0 to |records|
      invariant forall d, o :: Has(found, d, o) <==> Contributes(records[..i], owner, d, o)
      invariant forall d :: d in found ==> found[d] != {}
    {
      var o := records[i].obj;
      ghost var before := found;
      found := CollectOne(records[i], owner, found);
      forall d, p
        ensures Has(found, d, p) <==> Contributes(records[..i + 1], owner, d, p)
      {
        ContributesOneMore(records, owner, i, d, p);
      }
    }
    assert records[..|records|] == records;
  }

  method CollectOne(record: Sourced, owner: map<SourceId, DocId>, before: map<DocId, set<Obj>>)
      returns (found: map<DocId, set<Obj>>)
    requires forall d :: d in before ==> before[d] != {}
    ensures forall d, o :: Has(found, d, o) <==>
      Has(before, d, o) || (o == record.obj && Touches(record.sources, owner, d))
    ensures forall d :: d in found ==> found[d] != {}
  {
    found := before;
    var sources := record.sources;
    assert forall d :: !Touches(sources[..0], owner, d);
    for j := 0 to |sources|
      invariant forall d, o :: Has(found, d, o) <==>
        Has(before, d, o) || (o == record.obj && Touches(sources[..j], owner, d))
      invariant forall d :: d in found ==> found[d] != {}
    {
      var c := sources[j];
      ghost var last := found;
      forall d
        ensures Touches(sources[..j + 1], owner, d) <==> Touches(sources[..j], owner, d) || (c in owner && owner[c] == d)
      {
        assert sources[..j + 1] == sources[..j] + [c];
      }
      if c in owner {
        var d := owner[c];
        found := found[d := (if d in found then found[d] else {}) + {record.obj}];
        assert forall e, o :: Has(found, e, o) <==> Has(last, e, o) || (e == d && o == record.obj);
      }
    }
    assert sources[..|sources|] == sources;
  }

  lemma ContributesOneMore(records: seq<Sourced>, owner: map<SourceId, DocId>, i: nat, d: DocId, o: Obj)
    requires i < |records|
    ensures Contributes(records[..i + 1], owner, d, o) <==>
      Contributes(records[..i], owner, d, o) || (o == records[i].obj && Touches(records[i].sources, owner, d))
  {
    if Contributes(records[..i], owner, d, o) {
      var k :| 0 <= k < i && records[..i][k].obj == o && Touches(records[..i][k].sources, owner, d);
      assert records[..i + 1][k] == records[..i][k];
    }
    if o == records[i].obj && Touches(records[i].sources, owner, d) {
      assert records[..i + 1][i] == records[i];
    }
    if Contributes(records[..i + 1], owner, d, o) {
      var k :| 0 <= k < i + 1 && records[..i + 1][k].obj == o && Touches(records[..i + 1][k].sources, owner, d);
      if k < i {
        assert records[..i][k] == records[..i + 1][k];
      }
    }
  }

  /** Some record of the object has a source that the document lists. */
  ghost predicate HasChunkOf(records: seq<Sourced>, processed: seq<Listed>, d: DocId, o: Obj) {
    exists i, c :: 0 <= i < |records| && records[i].obj == o && c in records[i].sources && ListedBy(processed, d, c)
  }

  /** The anchor rows: with exclusive chunks, an object is in a processed document's anchors exactly when
      one of its sources is a chunk of that document, and a row exists exactly when it names something. */
  method MigrateAnchors(processed: seq<Listed>, nodes: seq<Sourced>, edges: seq<Sourced>)
    returns (entities: map<DocId, set<Obj>>, relations: map<DocId, set<Obj>>)
    requires Exclusive(processed)
    ensures forall d, o :: Has(entities, d, o) <==> HasChunkOf(nodes, processed, d, o)
    ensures forall d, o :: Has(relations, d, o) <==> HasChunkOf(edges, processed, d, o)
    ensures forall d :: d in entities ==> entities[d] != {}
    ensures forall d :: d in relations ==> relations[d] != {}
  {
    var owner := ChunkOwners(processed);
    entities := Collect(nodes, owner);
    relations := Collect(edges, owner);
    forall d, o
      ensures Contributes(nodes, owner, d, o) == HasChunkOf(nodes, processed, d, o)
      ensures Contributes(edges, owner, d, o) == HasChunkOf(edges, processed, d, o)
    {
      OwnersAreListers(processed, owner, nodes, d, o);
      OwnersAreListers(processed, owner, edges, d, o);
    }
  }

  lemma OwnersAreListers(processed: seq<Listed>, owner: map<SourceId, DocId>, records: seq<Sourced>, d: DocId, o: Obj)
    requires forall c, d :: ListedBy(processed, d, c) <==> c in owner && owner[c] == d
    ensures Contributes(records, owner, d, o) == HasChunkOf(records, processed, d, o)
  {
    if Contributes(records, owner, d, o) {
      var i :| 0 <= i < |records| && records[i].obj == o && Touches(records[i].sources, owner, d);
      var c :| c in records[i].sources && c in owner && owner[c] == d;
      assert ListedBy(processed, d, c);
    }
    if HasChunkOf(records, processed, d, o) {
      var i, c :| 0 <= i < |records| && records[i].obj == o && c in records[i].sources && ListedBy(processed, d, c);
      assert Touches(records[i].sources, owner, d);
    }
  }

  /** A migrated document is provable from its anchors only if it contributed both an entity and a
      relation: a row that would be empty is not written, and an absent row is no proof. */
  lemma MigratedIsProvableIff(row: Row, entities: map<DocId, set<string>>, relations: map<DocId, set<(string,
      string)>>, d: DocId)
    requires row.writeState == Unknown && Scope(row) != {}
    requires forall e :: e in entities ==> entities[e] != {}
    requires forall e :: e in relations ==> relations[e] != {}
    ensures
      Provable(row, Get(entities, d), Get(relations, d), Scope(row)) <==>
      Populated(Get(entities, d)) && Populated(Get(relations, d))
  {
  }

  /** The purge's hypothesis: after both migrations, whatever has evidence from a processed document's
      chunk is named in that document's anchors. */
  lemma MigrationAnchorsEvidence(w: World, processed: seq<Listed>, nodes: seq<Sourced>, edges: seq<Sourced>,
      d: DocId, o: Obj, c: SourceId)
    requires w.graph.disk == w.graph.mem
    requires forall p :: p in w.graph.mem ==> Sourced(p, w.graph.mem[p]) in (if p.Node? then nodes else edges)
    requires forall p, b :: Lists(w.tracking.mem, p, b) || Lists(w.tracking.disk, p, b) ==> Lists(w.graph.mem, p, b)
    requires Evidence(w, {}, o, c) && ListedBy(processed, d, c)
    ensures HasChunkOf(if o.Node? then nodes else edges, processed, d, o)
  {
    assert Lists(w.graph.mem, o, c);
    var records := if o.Node? then nodes else edges;
    var i :| 0 <= i < |records| && records[i] == Sourced(o, w.graph.mem[o]);
    assert records[i].obj == o && c in records[i].sources;
  }

  // ----- Chunk tracking -----

  /** The tracking rows of all records at once; records without sources get none, later ones win. */
  function Seeded(records: seq<Sourced>): map<Obj, seq<SourceId>> {
    if records == [] then map[]
    else
      var last := records[|records| - 1];
      var front := Seeded(records[..|records| - 1]);
      if last.sources == [] then front else front[last.obj := last.sources]
  }

  method SeedBatch(batch: seq<Sourced>) returns (payload: map<Obj, seq<SourceId>>)
    ensures payload == Seeded(batch)
  {
    payload := map[];
    for i := 0 to |batch|
      invariant payload == Seeded(batch[..i])
    {
      assert batch[..i + 1][..i] == batch[..i];
      if batch[i].sources != [] {
        payload := payload[batch[i].obj := batch[i].sources];
      }
    }
    assert batch[..|batch|] == batch;
  }

  lemma {:induction false} SeededConcat(a: seq<Sourced>, b: seq<Sourced>)
    ensures Seeded(a + b) == Seeded(a) + Seeded(b)
  {
    if b == [] {
      assert a + b == a;
    } else {
      var front := b[..|b| - 1];
      assert (a + b)[..|a + b| - 1] == a + front && (a + b)[|a + b| - 1] == b[|b| - 1];
      SeededConcat(a, front);
    }
  }

  /** Batching changes nothing, whatever the batch size. */
  method SeedTracking(records: seq<Sourced>, size: nat) returns (rows: map<Obj, seq<SourceId>>)
    requires size > 0
    ensures rows == Seeded(records)
    ensures forall o :: SeededRow(records, rows, o)
  {
    hide SeededRow;
    rows := map[];
    var start := 0;
    while start < |records|
      invariant 0 <= start <= |records| && rows == Seeded(records[..start])
    {
      var end := if start + size < |records| then start + size else |records|;
      var payload := SeedBatch(records[start..end]);
      SeededConcat(records[..start], records[start..end]);
      assert records[..start] + records[start..end] == records[..end];
      rows := rows + payload;
      start := end;
    }
    assert records[..|records|] == records;
    forall o
      ensures SeededRow(records, rows, o)
    {
      SeededIs(records, o);
    }
  }

  /** The last record of the object that has sources. */
  ghost predicate LastSourced(records: seq<Sourced>, o: Obj, i: int) {
    && 0 <= i < |records| && records[i].obj == o && records[i].sources != []
    && forall k :: i < k < |records| && records[k].obj == o ==> records[k].sources == []
  }

  ghost predicate NeverSourced(records: seq<Sourced>, o: Obj) {
    forall i :: 0 <= i < |records| && records[i].obj == o ==> records[i].sources == []
  }

  /** The row of an object: the sources of its last record that has any; none, if no record does. */
  ghost predicate SeededRow(records: seq<Sourced>, rows: map<Obj, seq<SourceId>>, o: Obj) {
    if o in rows then exists i :: LastSourced(records, o, i) && records[i].sources == rows[o]
    else NeverSourced(records, o)
  }

  lemma SourcedNext(front: seq<Sourced>, last: Sourced, o: Obj, i: int)
    ensures last.obj == o && last.sources != [] ==> LastSourced(front + [last], o, |front|)
    ensures !(last.obj == o && last.sources != []) ==>
      && (LastSourced(front, o, i) ==> LastSourced(front + [last], o, i) && (front + [last])[i] == front[i])
      && (NeverSourced(front, o) ==> NeverSourced(front + [last], o))
  {
  }

  lemma {:induction false} SeededIs(records: seq<Sourced>, o: Obj)
    ensures SeededRow(records, Seeded(records), o)
  {
    if records != [] {
      var n := |records| - 1;
      var front, last := records[..n], records[n];
      SeededIs(front, o);
      hide LastSourced, NeverSourced;
      assert front + [last] == records;
      if last.obj == o && last.sources != [] {
        SourcedNext(front, last, o, 0);
      } else if o in Seeded(front) {
        var i :| LastSourced(front, o, i) && front[i].sources == Seeded(front)[o];
        SourcedNext(front, last, o, i);
      } else {
        SourcedNext(front, last, o, 0);
      }
    }
  }
}
