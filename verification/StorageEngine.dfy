/** The storage engine the recovery protocols run on, and the derived pass of a purge.

  Every await of the original is a `Pause`: other code cannot run there (the pipeline slot is held),
  but the backends may commit any keys of any store, and the awaited call may answer, raise, or be the
  last thing the process does.  Which, and which keys, is the fault schedule.  Contracts hold for every
  schedule.  `Pause` demands the invariant, so every state that a crash could make durable satisfies it.

  After a crash the engine is not `up`, and nothing that needs it up can run: no handler, no further
  write.  Only `Crash` can follow, which drops what was pending and starts the process again.
 */
module StorageEngine {
  import opened Stores
  import opened KnowledgeGraph
  import opened InvariantSteps
  import opened DerivedPass
  import opened Convergence
  import opened ConvergenceSteps

  datatype Reply = Answers | Raises | Crashes

  datatype Fault = Fault(
    graph: set<Obj>, tracking: set<Obj>, chunks: set<SourceId>,
    entities: set<DocId>, relations: set<DocId>, rows: set<DocId>,
    reply: Reply)

  /** What an insert of `doc` may change: it may store these chunks, give these objects these lists, and write
      the document's own rows. */
  datatype Frame = Frame(start: World, doc: DocId, chunks: map<SourceId, string>,
      tracking: map<Obj, seq<SourceId>>, graph: map<Obj, seq<SourceId>>)

  /** Everything is as some view showed it at the start, or as the insert may make it. */
  ghost predicate Framed(w: World, f: Frame) {
    && Within(f.start.graph, w.graph, f.graph) && Within(f.start.tracking, w.tracking, f.tracking)
    && Within(f.start.chunks, w.chunks, f.chunks)
    && WithinBut(f.start.entities, w.entities, f.doc) && WithinBut(f.start.relations, w.relations, f.doc)
    && WithinBut(f.start.rows, w.rows, f.doc)
  }

  lemma FramedAtStart(f: Frame)
    ensures Framed(f.start, f)
  {
    WithinItself(f.start.graph, f.graph, Node(""));
    WithinItself(f.start.tracking, f.tracking, Node(""));
    WithinItself(f.start.chunks, f.chunks, Placeholder(""));
    WithinItself(f.start.entities, map[], f.doc);
    WithinItself(f.start.relations, map[], f.doc);
    WithinItself(f.start.rows, map[], f.doc);
  }

  lemma BufferingKeepsFrame(w: World, x: World, f: Frame)
    requires Framed(w, f) && RemixWorld(w, x)
    ensures Framed(x, f)
  {
    hide Within, WithinBut, Remix;
    WithinAfterRemix(f.start.graph, w.graph, x.graph, f.graph);
    WithinAfterRemix(f.start.tracking, w.tracking, x.tracking, f.tracking);
    WithinAfterRemix(f.start.chunks, w.chunks, x.chunks, f.chunks);
    WithinButAfterRemix(f.start.entities, w.entities, x.entities, f.doc);
    WithinButAfterRemix(f.start.relations, w.relations, x.relations, f.doc);
    WithinButAfterRemix(f.start.rows, w.rows, x.rows, f.doc);
  }

  /** What a step is expected to keep: the invariant, the durability of the anchor rows outside the
      window in which an insert rewrites them (within it, those of `doc`), the course of a purge of
      `gone` (which reads its candidates from the settled anchors of `doc`), its result, and the frame of
      an insert. */
  datatype Duty = Duty(watch: set<Obj>, open: bool, doc: Option<DocId>, gone: set<SourceId>, goal: Option<Goal>,
      converged: bool, frame: Option<Frame>) {
    /** No document is being purged; an insert is one of this document; a rollback may have a goal. */
    predicate Free(d: DocId) {
      gone == {} && (goal.Some? ==> !open && doc == None) && (frame.Some? ==> frame.value.doc == d)
    }
  }

  /** Some list of `o`, in the graph or on its tracking row, holds `c`. */
  predicate Mentioned(w: World, o: Obj, c: SourceId) {
    || Lists(w.graph.mem, o, c) || Lists(w.graph.disk, o, c)
    || Lists(w.tracking.mem, o, c) || Lists(w.tracking.disk, o, c)
  }

  /** A pass that does not rebuild `o` leaves no purged chunk on it: the object lists none, or has no
      other source and will be dropped. */
  ghost predicate Skippable(w: World, gone: set<SourceId>, o: Obj) {
    || (forall c :: c in gone ==> !Lists(w.graph.mem, o, c) && !Lists(w.graph.disk, o, c))
    || (forall c :: Mentioned(w, o, c) ==> c in gone)
  }

  /** No object whose rebuild may be skipped needs the rebuild. */
  ghost predicate Spared(w: World, gone: set<SourceId>) {
    forall o :: o in w.given.fragile ==> Skippable(w, gone, o)
  }

  lemma NothingGoneIsSpared(w: World)
    ensures Spared(w, {})
  {
  }

  lemma BufferingKeepsSpared(w: World, x: World, gone: set<SourceId>)
    requires Spared(w, gone) && RemixWorld(w, x)
    ensures Spared(x, gone)
  {
    forall o | o in x.given.fragile
      ensures Skippable(x, gone, o)
    {
      assert Skippable(w, gone, o);
      RemixAt(w.graph, x.graph, o);
      RemixAt(w.tracking, x.tracking, o);
    }
  }

  ghost predicate Kept(w: World, k: Duty) {
    && Inv(w, k.watch)
    && Spared(w, k.gone)
    && (!k.open ==> KeysDurable(w.entities) && KeysDurable(w.relations))
    && (k.open && k.doc.Some? ==> AnchorRowsAt(w, Mem, k.doc.value) && AnchorRowsAt(w, Disk, k.doc.value))
    && (k.goal.Some? && k.doc.Some? && !k.converged ==> AnchorsFixed(w, k.doc.value))
    && (k.goal.Some? ==> OnCourse(k.goal.value, w))
    && (k.goal.Some? && k.converged ==> Converged(k.goal.value, w))
    && (k.frame.Some? ==> Framed(w, k.frame.value))
  }

  lemma RowIsDurable(w: World, k: Duty, d: DocId)
    requires Kept(w, k) && d in w.rows.mem
    ensures d in w.rows.disk && w.rows.disk[d] == w.rows.mem[d]
  {
  }

  lemma BufferingKeeps(w: World, x: World, k: Duty)
    requires Kept(w, k) && RemixWorld(w, x)
    ensures Kept(x, k)
  {
    BufferingKeepsInv(w, x, k.watch);
    BufferingKeepsSpared(w, x, k.gone);
    if k.doc.Some? {
      RemixAt(w.entities, x.entities, k.doc.value);
      RemixAt(w.relations, x.relations, k.doc.value);
    }
    if k.goal.Some? {
      BufferingKeepsCourse(k.goal.value, w, x);
    }
    if k.frame.Some? {
      BufferingKeepsFrame(w, x, k.frame.value);
    }
  }

  function Leak(w: World, f: Fault): World {
    World(w.given, w.graph.Persist(f.graph), w.tracking.Persist(f.tracking), w.chunks.Persist(f.chunks),
          w.entities.Persist(f.entities), w.relations.Persist(f.relations), w.rows.Persist(f.rows))
  }

  function Reverted(w: World): World {
    World(w.given, w.graph.Revert(), w.tracking.Revert(), w.chunks.Revert(),
          w.entities.Revert(), w.relations.Revert(), w.rows.Revert())
  }

  function FlushedAll(w: World): World {
    World(w.given, w.graph.Flush(), w.tracking.Flush(), w.chunks.Flush(),
          w.entities.Flush(), w.relations.Flush(), w.rows.Flush())
  }

  /** How many calls the schedule makes fail. */
  function Faults(schedule: seq<Fault>): (n: nat)
    ensures n == 0 <==> forall f :: f in schedule ==> f.reply == Answers
  {
    if schedule == [] then 0
    else
      assert schedule == [schedule[0]] + schedule[1..];
      (if schedule[0].reply == Answers then 0 else 1) + Faults(schedule[1..])
  }

  /** A call that failed used up a fault of the schedule; one that returned left the engine up. */
  predicate Spent(before: seq<Fault>, after: seq<Fault>, up: bool, ok: bool) {
    Faults(after) <= Faults(before) && (if ok then up else Faults(after) < Faults(before))
  }

  /** Only durable state moved, and only where something was pending. */
  predicate Leaked(w: World, x: World) {
    && x.graph.mem == w.graph.mem && (w.graph.mem == w.graph.disk ==> x.graph == w.graph)
    && x.tracking.mem == w.tracking.mem && (w.tracking.mem == w.tracking.disk ==> x.tracking == w.tracking)
    && x.chunks.mem == w.chunks.mem && (w.chunks.mem == w.chunks.disk ==> x.chunks == w.chunks)
    && x.entities.mem == w.entities.mem && (w.entities.mem == w.entities.disk ==> x.entities == w.entities)
    && x.relations.mem == w.relations.mem && (w.relations.mem == w.relations.disk ==> x.relations == w.relations)
    && x.rows.mem == w.rows.mem && (w.rows.mem == w.rows.disk ==> x.rows == w.rows)
  }

  lemma LeakIsRemix(w: World, f: Fault)
    ensures RemixWorld(w, Leak(w, f)) && Leaked(w, Leak(w, f)) && Leak(w, f).given == w.given
    ensures RemixWorld(w, Reverted(w)) && Reverted(w).given == w.given
    ensures RemixWorld(w, FlushedAll(w)) && FlushedAll(w).given == w.given
  {
    BufferingIsRemix(w.graph, f.graph);
    BufferingIsRemix(w.tracking, f.tracking);
    BufferingIsRemix(w.chunks, f.chunks);
    BufferingIsRemix(w.entities, f.entities);
    BufferingIsRemix(w.relations, f.relations);
    BufferingIsRemix(w.rows, f.rows);
  }

  lemma RemixOfItself<K(!new), V(!new)>(s: Store<K, V>)
    ensures Remix(s, s)
  {
  }

  lemma NothingLeaks(w: World)
    ensures RemixWorld(w, w) && Leaked(w, w)
  {
    RemixOfItself(w.graph);
    RemixOfItself(w.tracking);
    RemixOfItself(w.chunks);
    RemixOfItself(w.entities);
    RemixOfItself(w.relations);
    RemixOfItself(w.rows);
    hide Remix;
  }

  datatype Barrier = Barrier(chunks: bool, anchors: bool, rows: bool)

  /** A narrow barrier over the named stores. */
  function FlushedSome(w: World, b: Barrier): World {
    w.(chunks := if b.chunks then w.chunks.Flush() else w.chunks,
       entities := if b.anchors then w.entities.Flush() else w.entities,
       relations := if b.anchors then w.relations.Flush() else w.relations,
       rows := if b.rows then w.rows.Flush() else w.rows)
  }

  lemma FlushIsRemix(w: World, b: Barrier)
    ensures RemixWorld(w, FlushedSome(w, b)) && FlushedSome(w, b).given == w.given
    ensures FlushedSome(FlushedSome(w, b), b) == FlushedSome(w, b)
  {
    BufferingIsRemix(w.graph, {});
    BufferingIsRemix(w.tracking, {});
    BufferingIsRemix(w.chunks, {});
    BufferingIsRemix(w.entities, {});
    BufferingIsRemix(w.relations, {});
    BufferingIsRemix(w.rows, {});
  }

  /** A barrier writes out what is in memory, whatever leaked before. */
  lemma FlushAfterLeak(w: World, x: World, b: Barrier)
    requires Leaked(w, x) && x.given == w.given
    ensures FlushedAll(x) == FlushedAll(w) && Leaked(w, FlushedAll(x)) && Leaked(w, FlushedSome(x, b))
  {
  }

  /** Nothing is pending. */
  predicate Settled(w: World) {
    FlushedAll(w) == w
  }

  lemma SettledStores(w: World)
    ensures Settled(w) <==>
      && w.graph.mem == w.graph.disk && w.tracking.mem == w.tracking.disk && w.chunks.mem == w.chunks.disk
      && w.entities.mem == w.entities.disk && w.relations.mem == w.relations.disk && w.rows.mem == w.rows.disk
  {
    if Settled(w) {
      assert w.graph == w.graph.Flush() && w.tracking == w.tracking.Flush() && w.chunks == w.chunks.Flush();
      assert w.entities == w.entities.Flush() && w.relations == w.relations.Flush() && w.rows == w.rows.Flush();
    }
  }

  class Engine {
    var graph: Store<Obj, seq<SourceId>>
    var tracking: Store<Obj, seq<SourceId>>
    var chunks: Store<SourceId, string>
    var entities: Store<DocId, set<string>>
    var relations: Store<DocId, set<(string, string)>>
    var rows: Store<DocId, Row>
    var schedule: seq<Fault>
    var up: bool
    const given: Given
    const limits: Limits

    function State(): World
      reads this
    {
      World(given, graph, tracking, chunks, entities, relations, rows)
    }

    constructor (w: World, limits: Limits)
      ensures State() == w && schedule == [] && up && this.limits == limits
    {
      given := w.given;
      graph, tracking, chunks := w.graph, w.tracking, w.chunks;
      entities, relations, rows := w.entities, w.relations, w.rows;
      schedule, up := [], true;
      this.limits := limits;
    }

    method Become(w: World)
      requires w.given == given
      modifies this
      ensures State() == w && schedule == old(schedule) && up == old(up)
    {
      graph, tracking, chunks := w.graph, w.tracking, w.chunks;
      entities, relations, rows := w.entities, w.relations, w.rows;
    }

    /** An await point. */
    method Interleave(ghost k: Duty) returns (ok: bool)
      requires Kept(State(), k) && up
      modifies this
      ensures Kept(State(), k)
      ensures RemixWorld(old(State()), State()) && Leaked(old(State()), State())
      ensures Spent(old(schedule), schedule, up, ok)
      ensures old(schedule) == [] ==> State() == old(State())
    {
      hide Kept, RemixWorld, Leaked, Leak;
      var f := if schedule == [] then Fault({}, {}, {}, {}, {}, {}, Answers) else schedule[0];
      LeakIsRemix(State(), f);
      if schedule == [] {
        NothingLeaks(State());
        return true;
      }
      schedule := schedule[1..];
      BufferingKeeps(State(), Leak(State(), f), k);
      Become(Leak(State(), f));
      up := f.reply != Crashes;
      return f.reply == Answers;
    }

    /** The same, for callers that need only the frame. */
    method Pause(ghost k: Duty) returns (ok: bool)
      requires Kept(State(), k) && up
      modifies this
      ensures Kept(State(), k)
      ensures Leaked(old(State()), State())
      ensures Spent(old(schedule), schedule, up, ok)
      ensures old(schedule) == [] ==> State() == old(State())
    {
      hide Kept, RemixWorld, Leaked;
      ok := Interleave(k);
    }

    /** One buffered write, awaited. */
    method Write(w: World, ghost k: Duty) returns (ok: bool)
      requires Kept(w, k) && up && w.given == given
      modifies this
      ensures Kept(State(), k)
      ensures Leaked(w, State())
      ensures Spent(old(schedule), schedule, up, ok)
      ensures old(schedule) == [] ==> State() == w
    {
      hide Kept, Leaked;
      Become(w);
      ok := Pause(k);
    }

    /** The all-storage flush barrier; a failing one may have committed any part. */
    method FlushAll(ghost k: Duty) returns (ok: bool)
      requires Kept(State(), k) && up
      modifies this
      ensures Kept(State(), k)
      ensures ok ==> State() == FlushedAll(old(State()))
      ensures Leaked(old(State()), State())
      ensures Spent(old(schedule), schedule, up, ok)
    {
      hide Kept, RemixWorld, Leaked, FlushedAll;
      ghost var w := State();
      ok := Pause(k);
      if ok {
        LeakIsRemix(State(), Fault({}, {}, {}, {}, {}, {}, Answers));
        FlushAfterLeak(w, State(), Barrier(false, false, false));
        BufferingKeeps(State(), FlushedAll(State()), k);
        Become(FlushedAll(State()));
      }
    }

    /** A narrow barrier; a failing one may have committed any part. */
    method FlushStores(b: Barrier, ghost k: Duty) returns (ok: bool)
      requires Kept(State(), k) && up
      modifies this
      ensures Kept(State(), k)
      ensures Leaked(old(State()), State())
      ensures ok ==> State() == FlushedSome(State(), b)
      ensures Spent(old(schedule), schedule, up, ok)
      ensures old(schedule) == [] ==> State() == FlushedSome(old(State()), b)
    {
      hide Kept, RemixWorld, Leaked, FlushedSome;
      ghost var w := State();
      ok := Pause(k);
      if ok {
        FlushIsRemix(State(), b);
        FlushAfterLeak(w, State(), b);
        BufferingKeeps(State(), FlushedSome(State(), b), k);
        Become(FlushedSome(State(), b));
      }
    }

    /** A process crash and the restart after it, or a discard: everything pending is lost. */
    method Crash(ghost k: Duty)
      requires Kept(State(), k)
      modifies this
      ensures Kept(State(), k) && up
      ensures State() == Reverted(old(State())) && schedule == old(schedule)
    {
      hide Kept, RemixWorld, Leaked, Reverted;
      var w := State();
      LeakIsRemix(w, Fault({}, {}, {}, {}, {}, {}, Answers));
      BufferingKeeps(w, Reverted(w), k);
      up := true;
      Become(Reverted(w));
    }
  }
}
