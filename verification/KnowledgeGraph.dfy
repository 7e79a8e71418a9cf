/** The stores the recovery protocols share, and the invariant that ties them together.

  A graph object may carry *evidence*: the chunk ids in its `source_id`, and those in its
  chunk-tracking row.  The invariant says that every piece of evidence is *backed*: the chunk is
  stored, the owning document still claims the chunk, and the document can find the object again
  from its recovery anchors or its custom-chunk journal.
 */
module KnowledgeGraph {
  import opened Stores
  import opened Truncation

  type DocId = string

  /** A chunk is keyed by its text (custom chunks) or by a pipeline serial number. */
  datatype Key = Text(text: string) | Serial(number: nat)

  /** An entry of a source list: a document's chunk, or a historical no-evidence placeholder. */
  datatype SourceId = Chunk(doc: DocId, key: Key) | Placeholder(tag: string)

  /** An entity by name, or a relation by its sorted endpoint pair. */
  datatype Obj = Node(name: string) | Edge(src: string, tgt: string)

  datatype Status = Pending | Processing | Processed | Failed

  datatype WriteState = Unknown | PreGraph | GraphMutationStarted

  datatype Phase = Prepared | DerivedCommitted | AnchorsPending | Completed {
    function Rank(): nat {
      match this
      case Prepared => 0
      case DerivedCommitted => 1
      case AnchorsPending => 2
      case Completed => 3
    }
  }

  /** The whole-document purge journal; the operation id stands for the chunk-id set it encodes. */
  datatype PurgeJournal = PurgeJournal(chunks: set<SourceId>, phase: Phase)

  datatype Mode = Create | Patch

  /** The custom-chunk journal; `operation` is the ordered chunk-id list the operation id encodes. */
  datatype CustomJournal = CustomJournal(
    mode: Mode,
    operation: seq<SourceId>,
    staged: seq<SourceId>,
    names: set<Obj>,
    prior: Option<Payload>,
    record: Option<Payload>)

  /** One `doc_status` row.  `carried` stands for the metadata and fields every upsert copies. */
  datatype Row = Row(
    status: Status,
    chunksList: seq<SourceId>,
    chunksCount: nat,
    carried: string,
    truncation: Option<Payload>,
    writeState: WriteState,
    custom: Option<CustomJournal>,
    purge: Option<PurgeJournal>,
    deletionFailed: bool)

  function Staged(row: Row): seq<SourceId> {
    if row.custom.Some? then row.custom.value.staged else []
  }

  function Journaled(row: Row): set<Obj> {
    if row.custom.Some? then row.custom.value.names else {}
  }

  /** Every chunk a whole-document deletion would remove. */
  predicate InScope(row: Row, c: SourceId) {
    c in row.chunksList || c in Staged(row)
  }

  /** Chunks whose derived contributions a purge journal reports as already removed. */
  predicate PastDerived(row: Row) {
    row.purge.Some? && row.purge.value.phase != Prepared
  }

  /** A completed journal for another chunk set: a finished purge whose retirement was skipped. */
  predicate Stale(row: Row) {
    row.purge.Some? && row.purge.value.phase == Completed && row.purge.value.chunks != Scope(row)
  }

  /** The journal may already have deleted chunks the row still lists. */
  predicate Live(row: Row) {
    PastDerived(row) && !Stale(row)
  }

  predicate Retired(row: Row, c: SourceId) {
    PastDerived(row) && c in row.purge.value.chunks
  }

  /** What no command changes: the documents processed before recovery anchors were written, and the
      objects whose rebuild may be skipped because no usable extraction of theirs is cached. */
  datatype Given = Given(legacy: set<DocId>, fragile: set<Obj>)

  datatype World = World(
    given: Given,
    graph: Store<Obj, seq<SourceId>>,
    tracking: Store<Obj, seq<SourceId>>,
    chunks: Store<SourceId, string>,
    entities: Store<DocId, set<string>>,
    relations: Store<DocId, set<(string, string)>>,
    rows: Store<DocId, Row>)

  predicate Lists(m: map<Obj, seq<SourceId>>, o: Obj, c: SourceId) {
    o in m && c in m[o]
  }

  /** Evidence for `o` from `c` in some view.  A tracking row counts while its object is present, or
      while the object is on the watch list of a merge that is about to create it. */
  predicate Evidence(w: World, watch: set<Obj>, o: Obj, c: SourceId) {
    || Lists(w.graph.mem, o, c)
    || Lists(w.graph.disk, o, c)
    || ((o in watch || o in w.graph.mem || o in w.graph.disk) &&
        (Lists(w.tracking.mem, o, c) || Lists(w.tracking.disk, o, c)))
  }

  /** The anchor row that must name `o`, where it is present, names it.  Only a legacy document may have
      listed evidence and no anchor rows. */
  predicate AnchoredAt(w: World, v: View, d: DocId, o: Obj) {
    match o
    case Node(n) => d in w.entities.At(v) ==> n in w.entities.At(v)[d]
    case Edge(a, b) => d in w.relations.At(v) ==> (a, b) in w.relations.At(v)[d]
  }

  predicate AnchorRowsAt(w: World, v: View, d: DocId) {
    d in w.entities.At(v) && d in w.relations.At(v)
  }

  predicate Stored(w: World, c: SourceId) {
    c in w.chunks.mem && c in w.chunks.disk && w.chunks.mem[c] == w.chunks.disk[c]
  }

  /** What the row of a chunk's document must say about a piece of evidence. */
  predicate BackedBy(w: World, row: Row, o: Obj, c: SourceId)
    requires c.Chunk?
  {
    && InScope(row, c)
    && !Retired(row, c)
    && (c in Staged(row) ==> o in Journaled(row))
    && (c in row.chunksList ==>
          && AnchoredAt(w, Mem, c.doc, o) && AnchoredAt(w, Disk, c.doc, o)
          && (c.doc !in w.given.legacy ==> AnchorRowsAt(w, Mem, c.doc) && AnchorRowsAt(w, Disk, c.doc)))
  }

  predicate Backed(w: World, o: Obj, c: SourceId) {
    c.Chunk? ==>
      && Stored(w, c)
      && c.doc in w.rows.mem && BackedBy(w, w.rows.mem[c.doc], o, c)
      && c.doc in w.rows.disk && BackedBy(w, w.rows.disk[c.doc], o, c)
  }

  /** The staged set is what content-hash dedup leaves of the operation's chunks. */
  predicate StagedByDedup(w: World, v: View, row: Row, j: CustomJournal) {
    forall c :: c in j.operation ==>
      (c in j.staged <==>
        (c.Chunk? && c.key.Text? &&
         forall b :: b in row.chunksList && b in w.chunks.At(v) ==> w.chunks.At(v)[b] != c.key.text))
  }

  /** The custom-chunk journal of a row is well formed and its staged ids are disjoint from the base. */
  predicate CustomOk(d: DocId, row: Row, j: CustomJournal) {
    && j.staged != []
    && (forall c :: c in j.staged ==> c in j.operation && c !in row.chunksList)
    && (forall c :: c in j.operation ==> c.Chunk? && c.doc == d && c.key.Text? && c.key.text != "")
    && (j.mode == Create ==> row.chunksList == [])
  }

  datatype ProofKind = Anchors | PreGraphProof | JournalProof | EmptyScope

  /** Some recovery proof other than the journal applies to this row and these anchor rows. */
  predicate Provable(row: Row, entities: Option<set<string>>, relations: Option<set<(string, string)>>,
      scope: set<SourceId>) {
    if entities.Some? && relations.Some? then
      scope != {} || (entities.value == {} && relations.value == {})
    else
      || row.writeState == PreGraph
      || (scope == {} && (entities.Some? ==> entities.value == {}) && (relations.Some? ==> relations.value == {}))
  }

  function Scope(row: Row): (s: set<SourceId>)
    ensures forall c :: c in s <==> InScope(row, c)
  {
    (set c | c in row.chunksList) + (set c | c in Staged(row))
  }

  /** The journaled phase never overstates what is durably done. */
  predicate PurgeOk(w: World, d: DocId, row: Row, j: PurgeJournal) {
    && (forall c :: c in j.chunks ==> c.Chunk? && c.doc == d)
    && (j.phase == Completed && j.chunks != Scope(row) ==> j.chunks !! Scope(row))
    && (j.phase.Rank() >= AnchorsPending.Rank() ==>
          forall c :: c in j.chunks ==> c !in w.chunks.mem && c !in w.chunks.disk)
    && (j.phase == Completed ==>
          && d !in w.entities.mem && d !in w.entities.disk
          && d !in w.relations.mem && d !in w.relations.disk)
    && (j.phase == Prepared && j.chunks == Scope(row) ==>
          forall u: View, v: View :: Provable(row, Get(w.entities.At(u), d), Get(w.relations.At(v), d), j.chunks))
  }

  /** The anchor rows of `d` are settled. */
  predicate AnchorsFixed(w: World, d: DocId) {
    && Get(w.entities.mem, d) == Get(w.entities.disk, d)
    && Get(w.relations.mem, d) == Get(w.relations.disk, d)
  }

  predicate RowOk(w: World, d: DocId, row: Row) {
    && (forall c :: c in row.chunksList ==> c.Chunk? && c.doc == d)
    && row.chunksCount == |row.chunksList|
    && (d in w.given.legacy ==> row.writeState != PreGraph)
    && (!Live(row) ==> forall c :: c in row.chunksList ==> Stored(w, c))
    && (!Live(row) && Scope(row) == {} ==> AnchorsFixed(w, d))
    && (row.custom.Some? ==> CustomOk(d, row, row.custom.value))
    && (row.custom.Some? && !Live(row) ==>
          StagedByDedup(w, Mem, row, row.custom.value) && StagedByDedup(w, Disk, row, row.custom.value))
    && (row.purge.Some? ==> PurgeOk(w, d, row, row.purge.value))
  }

  /** Custom chunks store the text their id was made from. */
  predicate ContentOk(m: map<SourceId, string>) {
    forall c :: c in m ==> c.Chunk? && (c.key.Text? ==> m[c] == c.key.text)
  }

  ghost predicate EvidenceBacked(w: World, watch: set<Obj>) {
    forall o, c :: Evidence(w, watch, o, c) ==> Backed(w, o, c)
  }

  predicate RowsOk(w: World) {
    && (forall d :: d in w.rows.mem ==> RowOk(w, d, w.rows.mem[d]))
    && (forall d :: d in w.rows.disk ==> RowOk(w, d, w.rows.disk[d]))
  }

  ghost predicate Inv(w: World, watch: set<Obj>) {
    && EvidenceBacked(w, watch)
    && RowsOk(w)
    && ContentOk(w.chunks.mem)
    && ContentOk(w.chunks.disk)
    && EntriesDurable(w.rows)
  }

  ghost predicate RemixWorld(w: World, x: World) {
    && x.given == w.given
    && Remix(w.graph, x.graph)
    && Remix(w.tracking, x.tracking)
    && Remix(w.chunks, x.chunks)
    && Remix(w.entities, x.entities)
    && Remix(w.relations, x.relations)
    && Remix(w.rows, x.rows)
  }
}
