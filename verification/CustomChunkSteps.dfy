/** Why each write of a custom-chunk insert is safe where it happens. */
module CustomChunkSteps {
  import opened Stores
  import opened Truncation
  import opened KnowledgeGraph
  import opened InvariantSteps
  import opened CustomChunkRow
  import opened CustomChunkPlan
  import opened DerivedPass
  import opened Convergence
  import opened RecoveryProof
  import opened StorageEngine

  /** The contents of the staged chunks. */
  function Contents(staged: seq<SourceId>): (m: map<SourceId, string>)
    requires forall c :: c in staged ==> c.Chunk? && c.key.Text?
    ensures forall c :: c in m <==> c in staged
    ensures forall c :: c in m ==> m[c] == c.key.text
  {
    map c | c in staged :: c.key.text
  }

  /** What an insert may change: it stores its chunks, gives the objects its sample mentions their merged
      lists, and writes its document's rows. */
  function InsertFrame(w: World, d: DocId, sample: Sample, staged: seq<SourceId>, limits: Limits): Frame
    requires forall c :: c in staged ==> c.Chunk? && c.key.Text?
  {
    var merged := map o | o in MergeCandidates(sample, staged) ::
      MergedSources(w.tracking.mem, w.graph.mem, o, Mentions(sample, staged, o));
    Frame(w, d, Contents(staged), merged, map o | o in merged :: limits.Cut(o, merged[o]))
  }

  /** An insert on a document: the objects that may be merged are watched, the anchor rows the document
      already has are not lost, and nothing else is changed. */
  ghost function InsertDuty(w: World, d: DocId, watch: set<Obj>, sample: Sample, staged: seq<SourceId>,
      limits: Limits): Duty
    requires forall c :: c in staged ==> c.Chunk? && c.key.Text?
  {
    var anchored := AnchorRowsAt(w, Mem, d) && AnchorRowsAt(w, Disk, d);
    Duty(watch, true, if anchored then Some(d) else None, {}, None, false, Some(InsertFrame(w, d, sample, staged, limits)))
  }

  /** The frame allows these chunks, this tracking row, this graph list, this merge. */
  ghost predicate StagesIn(k: Duty, staged: seq<SourceId>) {
    k.frame.Some? ==> forall c :: c in staged ==>
      c.Chunk? && c.key.Text? && c in k.frame.value.chunks && k.frame.value.chunks[c] == c.key.text
  }

  ghost predicate TracksIn(k: Duty, o: Obj, full: seq<SourceId>) {
    k.frame.Some? ==> o in k.frame.value.tracking && k.frame.value.tracking[o] == full
  }

  ghost predicate ListsIn(k: Duty, o: Obj, list: seq<SourceId>) {
    k.frame.Some? ==> o in k.frame.value.graph && k.frame.value.graph[o] == list
  }

  ghost predicate MergesIn(k: Duty, w: World, sample: Sample, staged: seq<SourceId>, limits: Limits) {
    forall o :: o in MergeCandidates(sample, staged) ==>
      var full := MergedSources(w.tracking.mem, w.graph.mem, o, Mentions(sample, staged, o));
      TracksIn(k, o, full) && ListsIn(k, o, limits.Cut(o, full))
  }

  lemma MergesInMemory(k: Duty, w: World, x: World, sample: Sample, staged: seq<SourceId>, limits: Limits)
    requires MergesIn(k, w, sample, staged, limits)
    requires x.graph.mem == w.graph.mem && x.tracking.mem == w.tracking.mem
    ensures MergesIn(k, x, sample, staged, limits)
  {
    hide MergeCandidates, Mentions, MergedSources;
  }

  lemma DutyFits(w: World, d: DocId, watch: set<Obj>, sample: Sample, staged: seq<SourceId>, limits: Limits)
    requires forall c :: c in staged ==> c.Chunk? && c.key.Text?
    ensures
      var k := InsertDuty(w, d, watch, sample, staged, limits);
      k.Free(d) && k.open && k.watch == watch && StagesIn(k, staged) && MergesIn(k, w, sample, staged, limits)
  {
    hide MergeCandidates, Mentions, MergedSources;
  }

  /** A row that would answer for all of the document's evidence. */
  ghost predicate Claims(w: World, watch: set<Obj>, d: DocId, row: Row) {
    && (forall o, c :: Evidence(w, watch, o, c) && c.Chunk? && c.doc == d ==> BackedBy(w, row, o, c))
    && RowOk(w, d, row)
  }

  lemma OwnRowClaims(w: World, watch: set<Obj>, d: DocId)
    requires Inv(w, watch) && d in w.rows.mem
    ensures Claims(w, watch, d, w.rows.mem[d])
  {
    forall o, c | Evidence(w, watch, o, c) && c.Chunk? && c.doc == d
      ensures BackedBy(w, w.rows.mem[d], o, c)
    {
      assert Backed(w, o, c);
    }
  }

  lemma ClaimsSurvive(w: World, x: World, watch: set<Obj>, d: DocId, row: Row)
    requires Claims(w, watch, d, row) && RemixWorld(w, x)
    ensures Claims(x, watch, d, row)
  {
    forall o, c | Evidence(x, watch, o, c) && c.Chunk? && c.doc == d
      ensures BackedBy(x, row, o, c)
    {
      RemixEvidence(w, x, watch, o, c);
      RemixBackedBy(w, x, row, o, c);
    }
    RemixRow(w, x, d, row);
  }

  function RowWritten(w: World, d: DocId, row: Row): World {
    w.(rows := w.rows.UpsertDurable(d, row))
  }

  lemma ClaimsIgnoreRows(w: World, x: World, watch: set<Obj>, d: DocId, row: Row)
    requires Claims(w, watch, d, row) && x == w.(rows := x.rows)
    ensures Claims(x, watch, d, row)
  {
    forall o, c | Evidence(x, watch, o, c) && c.Chunk? && c.doc == d
      ensures BackedBy(x, row, o, c)
    {
      assert Evidence(w, watch, o, c);
      assert BackedBy(w, row, o, c);
    }
  }

  lemma RowWriteKept(w: World, k: Duty, d: DocId, row: Row)
    requires Kept(w, k) && k.Free(d) && Claims(w, k.watch, d, row)
    ensures Kept(RowWritten(w, d, row), k)
  {
    RowWriteKeepsInv(w, RowWritten(w, d, row), k.watch, d, row);
    if k.goal.Some? {
      OnCourseOfDerived(k.goal.value, w, RowWritten(w, d, row));
    }
    if k.frame.Some? {
      WithinAfterWrite(k.frame.value.start.rows, w.rows, RowWritten(w, d, row).rows, d);
    }
  }

  /** A row that changes neither what is listed nor what is staged, and journals no less. */
  predicate SameClaims(row: Row, next: Row) {
    && next.chunksList == row.chunksList && next.chunksCount == row.chunksCount
    && next.writeState == row.writeState && next.purge == row.purge == None
    && row.custom.Some? && next.custom.Some?
    && next.custom.value.mode == row.custom.value.mode
    && next.custom.value.operation == row.custom.value.operation
    && next.custom.value.staged == row.custom.value.staged
    && row.custom.value.names <= next.custom.value.names
  }

  lemma SameClaimsHold(w: World, watch: set<Obj>, d: DocId, row: Row, next: Row)
    requires Claims(w, watch, d, row) && SameClaims(row, next)
    ensures Claims(w, watch, d, next)
  {
    forall o, c | Evidence(w, watch, o, c) && c.Chunk? && c.doc == d
      ensures BackedBy(w, next, o, c)
    {
      assert BackedBy(w, row, o, c);
    }
    assert Scope(next) == Scope(row);
  }

  // ----- The first write -----

  function PriorOf(base: Option<Row>, mode: Mode): Option<Payload> {
    if base.None? then None
    else if base.value.custom.Some? then base.value.custom.value.prior
    else if mode == Patch then base.value.truncation
    else None
  }

  function Opened(base: Option<Row>, mode: Mode, operation: seq<SourceId>, staged: seq<SourceId>): CustomJournal {
    CustomJournal(
      mode, operation, staged,
      if base.Some? then Journaled(base.value) else {},
      PriorOf(base, mode),
      if base.Some? && base.value.custom.Some? then base.value.custom.value.record else None)
  }

  function Begun(base: Option<Row>, content: string, mode: Mode, operation: seq<SourceId>, staged: seq<SourceId>): Row {
    Transition(base, content, Processing, Some(Opened(base, mode, operation, staged)), None, Carry)
  }

  predicate ValidOperation(d: DocId, operation: seq<SourceId>) {
    operation != [] && forall c :: c in operation ==> c.Chunk? && c.doc == d && c.key.Text? && c.key.text != ""
  }

  /** Dedup against what the document lists is stable: a resume stages what the first attempt staged. */
  lemma DedupIsStable(w: World, d: DocId, row: Row)
    requires RowOk(w, d, row) && !Live(row) && row.custom.Some?
    ensures
      var j := row.custom.value;
      forall c :: c in j.staged <==> c in Unowned(w.chunks.mem, row.chunksList, j.operation)
  {
    var j := row.custom.value;
    assert w.chunks.At(Mem) == w.chunks.mem;
    forall c | c in j.operation
      ensures c in j.staged <==> !Owns(w.chunks.mem, row.chunksList, c)
    {
      assert c.Chunk? && c.key.Text?;
    }
  }

  /** No staged chunk is a committed one: its content would have been found among the committed. */
  lemma StagedIsDisjoint(w: World, d: DocId, row: Row, operation: seq<SourceId>)
    requires RowOk(w, d, row) && !Live(row) && ContentOk(w.chunks.mem) && ValidOperation(d, operation)
    ensures forall c :: c in Unowned(w.chunks.mem, row.chunksList, operation) ==> c !in row.chunksList
  {
    forall c | c in operation && c in row.chunksList
      ensures Owns(w.chunks.mem, row.chunksList, c)
    {
      assert Stored(w, c) && w.chunks.mem[c] == c.key.text;
    }
  }

  /** The committed contents read the same in both views. */
  lemma OwnsIsSettled(w: World, row: Row, c: SourceId)
    requires c.Chunk? && c.key.Text? && forall b :: b in row.chunksList ==> Stored(w, b)
    ensures Owns(w.chunks.mem, row.chunksList, c) == Owns(w.chunks.disk, row.chunksList, c)
  {
    if Owns(w.chunks.mem, row.chunksList, c) {
      var b :| b in row.chunksList && b in w.chunks.mem && w.chunks.mem[b] == c.key.text;
      assert Stored(w, b);
    }
    if Owns(w.chunks.disk, row.chunksList, c) {
      var b :| b in row.chunksList && b in w.chunks.disk && w.chunks.disk[b] == c.key.text;
      assert Stored(w, b);
    }
  }

  /** Where a custom-chunk call may start: no purge of the document is under way. */
  predicate Unpurged(base: Option<Row>) {
    base.Some? ==> base.value.purge == None
  }

  lemma StagedFacts(w: World, d: DocId, base: Option<Row>, operation: seq<SourceId>, stored: bool)
    requires base == Get(w.rows.mem, d) && (base.Some? ==> RowOk(w, d, base.value)) && ContentOk(w.chunks.mem)
    requires ValidOperation(d, operation) && Unpurged(base)
    requires Admit(base, w.chunks.mem, operation, stored).Admitted?
    ensures
      var a := Admit(base, w.chunks.mem, operation, stored);
      var list := if base.Some? then base.value.chunksList else [];
      && a.staged != []
      && (forall c :: c in a.staged <==> c in operation && !Owns(w.chunks.mem, list, c))
      && (forall c :: c in a.staged ==> c !in list)
      && (a.mode == Create ==> list == [])
      && (a.resume ==>
            && base.Some? && base.value.custom.Some?
            && base.value.custom.value.operation == operation && base.value.custom.value.mode == a.mode
            && forall c :: c in a.staged <==> c in base.value.custom.value.staged)
      && (!a.resume ==> base.Some? ==> base.value.custom == None && a.mode == Patch)
  {
    if base.Some? {
      StagedIsDisjoint(w, d, base.value, operation);
      if base.value.custom.Some? {
        DedupIsStable(w, d, base.value);
        var j := base.value.custom.value;
        assert j.staged[0] in j.staged;
      }
    }
  }

  lemma BegunRowOk(w: World, d: DocId, base: Option<Row>, content: string, operation: seq<SourceId>, stored: bool)
    requires base == Get(w.rows.mem, d) && (base.Some? ==> RowOk(w, d, base.value)) && ContentOk(w.chunks.mem)
    requires ValidOperation(d, operation) && Unpurged(base)
    requires Admit(base, w.chunks.mem, operation, stored).Admitted?
    ensures
      var a := Admit(base, w.chunks.mem, operation, stored);
      RowOk(w, d, Begun(base, content, a.mode, operation, a.staged))
  {
    StagedFacts(w, d, base, operation, stored);
    var a := Admit(base, w.chunks.mem, operation, stored);
    var next := Begun(base, content, a.mode, operation, a.staged);
    var j := next.custom.value;
    assert InScope(next, a.staged[0]);
    assert Scope(next) != {};
    forall v: View
      ensures StagedByDedup(w, v, next, j)
    {
      forall c | c in operation
        ensures Owns(w.chunks.At(v), next.chunksList, c) == Owns(w.chunks.mem, next.chunksList, c)
      {
        OwnsIsSettled(w, next, c);
      }
      DedupMeans(w, v, next, j);
    }
  }

  lemma DedupMeans(w: World, v: View, row: Row, j: CustomJournal)
    requires forall c :: c in j.operation ==> c.Chunk? && c.key.Text?
    requires forall c :: c in j.operation ==> (c in j.staged <==> !Owns(w.chunks.At(v), row.chunksList, c))
    ensures StagedByDedup(w, v, row, j)
  {
  }

  /** The first journal write answers for everything the old row answered for. */
  lemma BegunClaims(w: World, watch: set<Obj>, d: DocId, base: Option<Row>, content: string,
      operation: seq<SourceId>, stored: bool)
    requires Inv(w, watch) && base == Get(w.rows.mem, d) && ValidOperation(d, operation) && Unpurged(base)
    requires Admit(base, w.chunks.mem, operation, stored).Admitted?
    ensures
      var a := Admit(base, w.chunks.mem, operation, stored);
      Claims(w, watch, d, Begun(base, content, a.mode, operation, a.staged))
  {
    var a := Admit(base, w.chunks.mem, operation, stored);
    var next := Begun(base, content, a.mode, operation, a.staged);
    StagedFacts(w, d, base, operation, stored);
    BegunRowOk(w, d, base, content, operation, stored);
    forall o, c | Evidence(w, watch, o, c) && c.Chunk? && c.doc == d
      ensures BackedBy(w, next, o, c)
    {
      assert Backed(w, o, c);
      assert BackedBy(w, base.value, o, c);
    }
  }

  // ----- The merge -----

  /** The operation's journal is on the row and no purge is. */
  predicate Journals(w: World, d: DocId, j: CustomJournal) {
    d in w.rows.mem && w.rows.mem[d].custom == Some(j) && w.rows.mem[d].purge == None
  }

  /** A staged, stored chunk backs whatever the journal names. */
  lemma StagedIsBacked(w: World, watch: set<Obj>, d: DocId, j: CustomJournal, o: Obj, c: SourceId)
    requires Inv(w, watch) && Journals(w, d, j)
    requires c in j.staged && Stored(w, c) && o in j.names
    ensures Backed(w, o, c)
  {
    assert RowOk(w, d, w.rows.mem[d]);
  }

  function TrackingMerged(w: World, o: Obj, more: seq<SourceId>): World {
    var full := MergedSources(w.tracking.mem, w.graph.mem, o, more);
    if full == [] then w else w.(tracking := w.tracking.Put(o, full))
  }

  function GraphMerged(w: World, limits: Limits, o: Obj, full: seq<SourceId>): World {
    w.(graph := w.graph.Put(o, limits.Cut(o, full)))
  }

  /** Merging reads a tracking row even of an object that is not in the graph; that object must
      therefore be watched. */
  lemma TrackingMergeKept(w: World, k: Duty, d: DocId, j: CustomJournal, o: Obj, more: seq<SourceId>)
    requires Kept(w, k) && k.Free(d) && k.open && o in k.watch && o in j.names && Journals(w, d, j)
    requires forall c :: c in more ==> c in j.staged && Stored(w, c)
    requires TracksIn(k, o, MergedSources(w.tracking.mem, w.graph.mem, o, more))
    ensures Kept(TrackingMerged(w, o, more), k)
  {
    var x := TrackingMerged(w, o, more);
    forall p, c | Evidence(x, k.watch, p, c)
      ensures Backed(w, p, c)
    {
      if c in more && p == o {
        StagedIsBacked(w, k.watch, d, j, o, c);
      } else {
        assert Evidence(w, k.watch, p, c);
      }
    }
    DerivedWriteKeepsInv(w, x, k.watch);
    if k.frame.Some? && x != w {
      var f := k.frame.value;
      WithinAfterPut(f.start.tracking, w.tracking, o, MergedSources(w.tracking.mem, w.graph.mem, o, more), f.tracking);
    }
  }

  lemma GraphMergeKept(w: World, k: Duty, d: DocId, limits: Limits, o: Obj)
    requires Kept(w, k) && k.Free(d) && k.open && o in k.watch && o in w.tracking.mem
    requires ListsIn(k, o, limits.Cut(o, w.tracking.mem[o]))
    ensures Kept(GraphMerged(w, limits, o, w.tracking.mem[o]), k)
  {
    var x := GraphMerged(w, limits, o, w.tracking.mem[o]);
    forall p, c | Evidence(x, k.watch, p, c)
      ensures Backed(w, p, c)
    {
      if p == o && Lists(x.graph.mem, o, c) {
        assert Lists(w.tracking.mem, o, c);
      }
      assert Evidence(w, k.watch, p, c);
    }
    DerivedWriteKeepsInv(w, x, k.watch);
    if k.frame.Some? {
      var f := k.frame.value;
      WithinAfterPut(f.start.graph, w.graph, o, limits.Cut(o, w.tracking.mem[o]), f.graph);
    }
  }

  // ----- The anchors -----

  /** Committed evidence of the document that the anchor rows in memory must name. */
  ghost predicate AnchorsServe(w: World, x: World, watch: set<Obj>, d: DocId, row: Row) {
    forall o, c :: Evidence(w, watch, o, c) && c in row.chunksList ==>
      AnchoredAt(x, Mem, d, o) && (d !in w.given.legacy ==> AnchorRowsAt(x, Mem, d))
  }

  lemma AnchorUpsertKept(w: World, x: World, k: Duty, d: DocId)
    requires Kept(w, k) && k.Free(d) && k.goal == None && AnchorWrite(w, x, d)
    requires k.open || (KeysDurable(x.entities) && KeysDurable(x.relations))
    requires k.doc == Some(d) && AnchorRowsAt(w, Mem, d) ==> AnchorRowsAt(x, Mem, d)
    requires d in w.rows.mem && w.rows.mem[d].purge == None && Scope(w.rows.mem[d]) != {}
    requires AnchorsServe(w, x, k.watch, d, w.rows.mem[d])
    ensures Kept(x, k)
  {
    var row := w.rows.mem[d];
    assert RowOk(w, d, row);
    forall o, c | Evidence(w, k.watch, o, c) && c.Chunk? && c.doc == d
      ensures Backed(x, o, c)
    {
      assert Backed(w, o, c) && BackedBy(w, row, o, c);
      assert AnchoredAt(w, Disk, d, o) ==> AnchoredAt(x, Disk, d, o);
      assert AnchorRowsAt(w, Disk, d) ==> AnchorRowsAt(x, Disk, d);
      assert BackedBy(x, row, o, c);
    }
    AnchorWriteKeepsInv(w, x, k.watch, d);
    if k.open && k.doc.Some? && k.doc.value != d {
      assert Get(x.entities.mem, k.doc.value) == Get(w.entities.mem, k.doc.value);
      assert Get(x.relations.mem, k.doc.value) == Get(w.relations.mem, k.doc.value);
    }
    if k.frame.Some? {
      WithinAfterWrite(k.frame.value.start.entities, w.entities, x.entities, d);
      WithinAfterWrite(k.frame.value.start.relations, w.relations, x.relations, d);
    }
  }

  function EntityRow(w: World, d: DocId): set<string> {
    if d in w.entities.mem then w.entities.mem[d] else {}
  }

  function RelationRow(w: World, d: DocId): set<(string, string)> {
    if d in w.relations.mem then w.relations.mem[d] else {}
  }

  function EntityAnchorsSet(w: World, d: DocId, names: set<string>): (x: World)
    ensures x.given == w.given
  {
    w.(entities := w.entities.Put(d, names))
  }

  function RelationAnchorsSet(w: World, d: DocId, pairs: set<(string, string)>): (x: World)
    ensures x.given == w.given
  {
    w.(relations := w.relations.Put(d, pairs))
  }

  /** A legacy document that lists chunks has anchor rows to extend. */
  predicate AnchorsUsable(w: World, d: DocId, row: Row) {
    d in w.given.legacy && row.chunksList != [] ==> AnchorRowsAt(w, Mem, d)
  }

  /** The row may take these anchors: it lists nothing, or they extend what is there. */
  predicate MayAnchor(w: World, d: DocId, names: set<string>, pairs: set<(string, string)>) {
    && d in w.rows.mem && w.rows.mem[d].purge == None && Scope(w.rows.mem[d]) != {}
    && AnchorsUsable(w, d, w.rows.mem[d])
    && (w.rows.mem[d].chunksList == [] || (EntityRow(w, d) <= names && RelationRow(w, d) <= pairs))
  }

  /** Replacing the anchors of a document that lists nothing, or extending usable ones, is safe. */
  lemma AnchorsSetKept(w: World, x: World, k: Duty, d: DocId, names: set<string>, pairs: set<(string, string)>)
    requires Kept(w, k) && k.Free(d) && k.open && MayAnchor(w, d, names, pairs)
    requires x == EntityAnchorsSet(w, d, names) || x == RelationAnchorsSet(w, d, pairs)
    ensures Kept(x, k)
  {
    var row := w.rows.mem[d];
    assert RowOk(w, d, row);
    forall o, c | Evidence(w, k.watch, o, c) && c in row.chunksList
      ensures AnchoredAt(x, Mem, d, o) && (d !in w.given.legacy ==> AnchorRowsAt(x, Mem, d))
    {
      assert Backed(w, o, c) && BackedBy(w, row, o, c);
      assert AnchoredAt(w, Mem, d, o);
    }
    AnchorUpsertKept(w, x, k, d);
  }

  // ----- The commit -----

  /** Both anchor rows, in both views, name every journaled object. */
  ghost predicate AnchorsCover(w: World, d: DocId, names: set<Obj>) {
    forall v: View ::
      && AnchorRowsAt(w, v, d)
      && NamesOf(names) <= w.entities.At(v)[d]
      && PairsOf(names) <= w.relations.At(v)[d]
  }

  function FinalList(mode: Mode, base: seq<SourceId>, staged: seq<SourceId>): (r: seq<SourceId>)
    ensures mode == Patch || base == [] ==> forall c :: c in r <==> c in base || c in staged
  {
    if mode == Patch then Union([], base + staged) else staged
  }

  function CommittedRow(row: Row, record: Option<Payload>): Row
    requires row.custom.Some?
  {
    var j := row.custom.value;
    Transition(Some(row), "", Processed, None, Some(FinalList(j.mode, row.chunksList, j.staged)), Stamped(record))
  }

  lemma CommittedRowOk(w: World, d: DocId, j: CustomJournal, record: Option<Payload>)
    requires Journals(w, d, j) && RowOk(w, d, w.rows.mem[d])
    requires forall c :: c in j.staged ==> Stored(w, c)
    ensures RowOk(w, d, CommittedRow(w.rows.mem[d], record))
  {
    assert InScope(CommittedRow(w.rows.mem[d], record), j.staged[0]);
  }

  lemma AnchoredEverywhere(w: World, d: DocId, j: CustomJournal, row: Row, o: Obj, c: SourceId)
    requires c.Chunk? && c.doc == d && BackedBy(w, row, o, c) && row.custom == Some(j) && AnchorsCover(w, d, j.names)
    ensures forall v: View :: AnchoredAt(w, v, d, o) && AnchorRowsAt(w, v, d)
  {
    forall v: View
      ensures AnchoredAt(w, v, d, o) && AnchorRowsAt(w, v, d)
    {
      if c !in j.staged {
        assert AnchoredAt(w, Mem, d, o) && AnchoredAt(w, Disk, d, o);
      }
    }
  }

  /** The commit record answers for everything: what was staged is now listed and anchored. */
  lemma CommitClaims(w: World, watch: set<Obj>, d: DocId, j: CustomJournal, record: Option<Payload>)
    requires Inv(w, watch) && Journals(w, d, j) && AnchorsCover(w, d, j.names)
    requires RowOk(w, d, w.rows.mem[d])
    requires forall c :: c in j.staged ==> Stored(w, c)
    ensures Claims(w, watch, d, CommittedRow(w.rows.mem[d], record))
  {
    var row := w.rows.mem[d];
    CommittedRowOk(w, d, j, record);
    hide RowOk;
    forall o, c | Evidence(w, watch, o, c) && c.Chunk? && c.doc == d
      ensures BackedBy(w, CommittedRow(row, record), o, c)
    {
      assert Backed(w, o, c) && BackedBy(w, row, o, c);
      AnchoredEverywhere(w, d, j, row, o, c);
      assert AnchoredAt(w, Mem, d, o) && AnchoredAt(w, Disk, d, o);
      assert AnchorRowsAt(w, Mem, d) && AnchorRowsAt(w, Disk, d);
    }
  }
}
