/** Whole runs: any commands in any order on any documents, with faults and crashes at any await. */
module Recovery {
  import opened Stores
  import opened Truncation
  import opened KnowledgeGraph
  import opened InvariantSteps
  import opened CustomChunkRow
  import opened CustomChunkPlan
  import opened CustomChunkSteps
  import opened CustomChunks
  import opened Rollback
  import opened DerivedPass
  import opened Convergence
  import opened PurgeDerived
  import opened StorageEngine
  import opened PurgeSteps
  import opened JournaledPurge
  import opened Deletion

  datatype Command =
    | InsertCommand(d: DocId, content: string, texts: seq<string>, bodyStored: bool, sample: Sample, attempt: Option<Payload>)
    | DeleteCommand(d: DocId, cacheIds: bool)
    | ResetCommand(d: DocId)
    | RollbackCommand(d: DocId)
    | CrashCommand

  /** `StaleBacked`, as a check of the state before the call. */
  predicate StaleRowsFit(w: World, watch: set<Obj>) {
    forall o :: o in watch && o !in w.graph.mem && o !in w.graph.disk ==>
      && (forall c :: c in TrackedIn(w.tracking.mem, o) ==> Backed(w, o, c))
      && (forall c :: c in TrackedIn(w.tracking.disk, o) ==> Backed(w, o, c))
  }

  lemma FittingIsWatchable(w: World, watch: set<Obj>)
    requires Steady(w)
    ensures StaleRowsFit(w, watch) <==> Inv(w, watch)
  {
    WatchableIff(w, watch);
    if StaleRowsFit(w, watch) {
      forall o, c | o in watch && o !in w.graph.mem && o !in w.graph.disk && Mentioned(w, o, c)
        ensures Backed(w, o, c)
      {
        assert c in TrackedIn(w.tracking.mem, o) || c in TrackedIn(w.tracking.disk, o);
      }
    }
    if StaleBacked(w, watch) {
      forall o, c | o in watch && o !in w.graph.mem && o !in w.graph.disk &&
                    (c in TrackedIn(w.tracking.mem, o) || c in TrackedIn(w.tracking.disk, o))
        ensures Backed(w, o, c)
      {
        assert Mentioned(w, o, c);
      }
    }
  }

  /** `Spared`, as a check of the state before the call. */
  predicate SkipsFit(w: World, gone: set<SourceId>) {
    forall o :: o in w.given.fragile ==>
      || (forall c :: c in gone ==> !Lists(w.graph.mem, o, c) && !Lists(w.graph.disk, o, c))
      || ((forall c :: c in TrackedIn(w.graph.mem, o) ==> c in gone) && (forall c :: c in TrackedIn(w.graph.disk, o) ==> c in gone) &&
          (forall c :: c in TrackedIn(w.tracking.mem, o) ==> c in gone) && (forall c :: c in TrackedIn(w.tracking.disk, o) ==> c in gone))
  }

  lemma FittingIsSpared(w: World, gone: set<SourceId>)
    requires SkipsFit(w, gone)
    ensures Spared(w, gone)
  {
  }

  /** When a command may be issued.  Crashes always may. */
  predicate Issuable(w: World, c: Command) {
    match c
    case InsertCommand(d, _, texts, bodyStored, sample, _) =>
      var operation := ChunkIds(d, texts);
      operation != [] && AdmissionAt(w, d, operation, bodyStored).Admitted? ==>
        && Unpurged(Get(w.rows.mem, d))
        && (d in w.rows.mem ==> AnchorsUsable(w, d, w.rows.mem[d]))
        && StaleRowsFit(w, MergeCandidates(sample, AdmissionAt(w, d, operation, bodyStored).staged))
    case DeleteCommand(d, _) => d in w.rows.mem ==> SkipsFit(w, Scope(w.rows.mem[d]))
    case ResetCommand(d) => d in w.rows.mem && w.rows.mem[d].custom == None && SkipsFit(w, Scope(w.rows.mem[d]))
    case RollbackCommand(d) => d in w.rows.mem && w.rows.mem[d].custom.Some? && w.rows.mem[d].purge == None
    case CrashCommand => true
  }

  lemma SteadyIsSound(w: World, d: DocId)
    requires Steady(w) && d in w.rows.mem && SkipsFit(w, Scope(w.rows.mem[d]))
    ensures Sound(w, d, None)
  {
    FittingIsSpared(w, Scope(w.rows.mem[d]));
  }

  lemma DeletionIsSteady(w: World, x: World, d: DocId, limits: Limits, result: DeletionResult)
    requires d in w.rows.mem
    requires if result.DeletionCrashed? then Restarted(w, x, d, None) else Outcomes(w, x, d, None, limits, result)
    ensures Steady(x)
  {
  }

  method Run(e: Engine, c: Command)
    requires Steady(e.State()) && Issuable(e.State(), c)
    requires e.up
    modifies e
    ensures Steady(e.State()) && e.up
  {
    hide Kept, Steady, Outcomes, Restarted, StaleRowsFit, SkipsFit;
    match c
    case InsertCommand(d, content, texts, bodyStored, sample, attempt) =>
      ghost var operation := ChunkIds(d, texts);
      ghost var watch := {};
      if operation != [] && AdmissionAt(e.State(), d, operation, bodyStored).Admitted? {
        watch := MergeCandidates(sample, AdmissionAt(e.State(), d, operation, bodyStored).staged);
        FittingIsWatchable(e.State(), watch);
      }
      var r := InsertTexts(e, d, content, texts, bodyStored, sample, attempt, watch);
    case DeleteCommand(d, cacheIds) =>
      if d in e.rows.mem {
        SteadyIsSound(e.State(), d);
      } else {
        SteadyIsKept(e.State());
        NothingPurged(e.State());
      }
      var result := Delete(e, d, cacheIds, None);
      if d in old(e.rows.mem) {
        DeletionIsSteady(old(e.State()), e.State(), d, e.limits, result);
      }
    case ResetCommand(d) =>
      SteadyIsSound(e.State(), d);
      var out := PurgeAndReset(e, d, None);
      SteadyIsKept(e.State());
    case RollbackCommand(d) =>
      var ok := RollbackOne(e, d, None);
    case CrashCommand =>
      SteadyIsKept(e.State());
      e.Crash(DUTY);
      SteadyIsKept(e.State());
  }

  lemma NothingPurged(w: World)
    requires Kept(w, DUTY)
    ensures Kept(w, Afterwards(None))
  {
  }

  /** Safety over every run: from any steady state, whatever is issued and wherever it crashes, the
      invariant holds between the commands (and, by the contract of every await, within them), and every
      object that names a chunk can be found again from the chunk's document. */
  method Drive(e: Engine, commands: seq<Command>) returns (issued: nat)
    requires Steady(e.State())
    requires e.up
    modifies e
    ensures Steady(e.State()) && e.up
    ensures issued <= |commands|
    ensures forall v, u, o, c :: Lists(e.graph.At(v), o, c) && c.Chunk? ==> Found(e.State(), u, o, c)
  {
    hide Steady;
    issued := 0;
    for i := 0 to |commands|
      invariant Steady(e.State()) && e.up && issued <= i
    {
      if Issuable(e.State(), commands[i]) {
        Run(e, commands[i]);
        issued := issued + 1;
      }
    }
    SteadyInv(e.State());
    forall v, u, o, c | Lists(e.graph.At(v), o, c) && c.Chunk?
      ensures Found(e.State(), u, o, c)
    {
      NothingDangles(e.State(), {}, v, u, o, c);
    }
  }

  /** The empty store is steady. */
  lemma EmptyIsSteady(given: Given)
    ensures
      var none := World(given, Store(map[], map[]), Store(map[], map[]), Store(map[], map[]), Store(map[], map[]),
        Store(map[], map[]), Store(map[], map[]));
      Steady(none)
  {
  }

  /** The anchor row is there and names `o`. */
  predicate NamedAt(w: World, v: View, d: DocId, o: Obj) {
    match o
    case Node(n) => d in w.entities.At(v) && n in w.entities.At(v)[d]
    case Edge(a, b) => d in w.relations.At(v) && (a, b) in w.relations.At(v)[d]
  }

  /** From the document of `c`, in view `u`, the chunk and the object are found: the chunk is stored, the
      document's row lists it or stages it, and both anchor rows are there and name the object if it is
      listed (for a legacy document, the row that is there names it), or the journal does if staged. */
  predicate Found(w: World, u: View, o: Obj, c: SourceId)
    requires c.Chunk?
  {
    && c in w.chunks.At(u) && c.doc in w.rows.At(u)
    && var row := w.rows.At(u)[c.doc];
    && (c in row.chunksList || c in Staged(row))
    && (c in row.chunksList ==>
          if c.doc in w.given.legacy then AnchoredAt(w, u, c.doc, o) else AnchorRowsAt(w, u, c.doc) && NamedAt(w, u, c.doc, o))
    && (c in Staged(row) ==> o in Journaled(row))
  }

  /** What the invariant says about a graph object that names a chunk, in any view of the graph and any
      view of the other stores. */
  lemma NothingDangles(w: World, watch: set<Obj>, v: View, u: View, o: Obj, c: SourceId)
    requires Inv(w, watch) && Lists(w.graph.At(v), o, c) && c.Chunk?
    ensures Found(w, u, o, c)
  {
    assert Evidence(w, watch, o, c);
    assert Backed(w, o, c);
    assert BackedBy(w, w.rows.mem[c.doc], o, c) && BackedBy(w, w.rows.disk[c.doc], o, c);
  }

  /** A document whose listed chunks contribute anything is never refused deletion, unless it is a legacy
      document; what it may meet is the journal of an unfinished purge of another chunk set. */
  lemma NeverRefused(w: World, d: DocId, o: Obj, c: SourceId)
    requires Steady(w) && d in w.rows.mem && d !in w.given.legacy
    requires Evidence(w, {}, o, c) && c in w.rows.mem[d].chunksList
    ensures ResolveAt(w, d).Proven? || ResolveAt(w, d).Conflict?
    ensures ResolveAt(w, d).Conflict? <==>
      && w.rows.mem[d].purge.Some? && w.rows.mem[d].purge.value.phase != Completed
      && w.rows.mem[d].purge.value.chunks != Scope(w.rows.mem[d])
  {
    assert RowOk(w, d, w.rows.mem[d]);
    assert Backed(w, o, c) && BackedBy(w, w.rows.mem[d], o, c);
  }

  // ----- The retry of an insert -----

  lemma NoJournalOnceDone(w: World, x: World, d: DocId, j: CustomJournal, sample: Sample, attempt: Option<Payload>,
      limits: Limits)
    requires d in w.rows.mem && forall c :: c in j.staged ==> c.Chunk? && c.key.Text?
    ensures DoneAs(w, x, d, j, sample, attempt, limits) ==> d in x.rows.mem && x.rows.mem[d].custom == None
  {
    if DoneAs(w, x, d, j, sample, attempt, limits) {
      DoneRow(w, x, d, j, sample, attempt, limits);
    }
  }

  /** The row a failed or crashed attempt left, seen from the state it started in. */
  lemma FailedJournal(w: World, x: World, d: DocId, content: string, operation: seq<SourceId>, bodyStored: bool,
      sample: Sample, attempt: Option<Payload>, limits: Limits, r: InsertResult, failures: int)
    requires Steady(w) && Unpurged(Get(w.rows.mem, d)) && ValidOperation(d, operation)
    requires AdmissionAt(w, d, operation, bodyStored).Admitted?
    requires InsertOutcome(w, x, d, content, operation, bodyStored, sample, attempt, limits, r, failures)
    requires d in x.rows.mem && x.rows.mem[d].custom.Some?
    ensures
      var j := x.rows.mem[d].custom.value;
      var a := AdmissionAt(w, d, operation, bodyStored);
      && (r == NotBegun || r == InsertFailed || r == InsertCrashed) && x.rows.mem[d].purge == None
      && j.operation == operation && j.mode == a.mode && j.staged == a.staged
      && x.rows.mem[d].chunksList == (if d in w.rows.mem then w.rows.mem[d].chunksList else [])
  {
    SteadyIsKept(w);
    BeginFacts(w, d, content, operation, bodyStored, DUTY);
    var begun := BegunAt(w, d, content, operation, bodyStored);
    hide Inv, DoneAs, FailedAs, Admit, MergeCandidates, Steady;
    EndedSameBase(w.(rows := w.rows.Put(d, begun)), x, d, begun.custom.value, sample, attempt, limits, r, failures);
  }

  /** Whatever a failed or crashed attempt left behind, the same call may be issued again. */
  lemma RetryIsIssuable(w: World, x: World, command: Command, limits: Limits, r: InsertResult, failures: int)
    requires Steady(w) && Steady(x) && x.given == w.given
    requires command.InsertCommand? && Issuable(w, command)
    requires
      var InsertCommand(d, content, texts, bodyStored, sample, attempt) := command;
      var operation := ChunkIds(d, texts);
      && operation != [] && AdmissionAt(w, d, operation, bodyStored).Admitted?
      && InsertOutcome(w, x, d, content, operation, bodyStored, sample, attempt, limits, r, failures)
      && Resumable(w, x, d, MergeCandidates(sample, AdmissionAt(w, d, operation, bodyStored).staged))
      && d in x.rows.mem && x.rows.mem[d].custom.Some?
    ensures Issuable(x, command)
    ensures
      var InsertCommand(d, content, texts, bodyStored, sample, attempt) := command;
      var a := AdmissionAt(x, d, ChunkIds(d, texts), bodyStored);
      a.Admitted? && a.resume
  {
    var InsertCommand(d, content, texts, bodyStored, sample, attempt) := command;
    var operation := ChunkIds(d, texts);
    var staged := AdmissionAt(w, d, operation, bodyStored).staged;
    FailedJournal(w, x, d, content, operation, bodyStored, sample, attempt, limits, r, failures);
    RowIsWellFormed(x, d);
    SteadyInv(x);
    StagedFacts(x, d, Get(x.rows.mem, d), operation, bodyStored);
    var again := AdmissionAt(x, d, operation, bodyStored).staged;
    FewerCandidates(sample, again, staged);
    FewerWatched(x, MergeCandidates(sample, staged), MergeCandidates(sample, again));
    FittingIsWatchable(x, MergeCandidates(sample, again));
  }

  // ----- Attempts, then a rollback -----

  /** The patch is untouched, or journaled over an unchanged base. */
  predicate PatchPending(row0: Row, row: Row, operation: seq<SourceId>) {
    && BaseOf(row) == BaseOf(row0)
    && (row == row0 || (
          && row.custom.Some? && row.custom.value.operation == operation && row.custom.value.mode == Patch
          && row.custom.value.prior == row0.truncation
          && row == row0.(status := row.status, chunksCount := |row0.chunksList|, truncation := row.truncation, custom := row.custom)))
  }

  /** An attempt that leaves a journal leaves the patch pending. */
  lemma FailedStaysPending(w: World, x: World, d: DocId, row0: Row, content: string, operation: seq<SourceId>,
      bodyStored: bool, sample: Sample, attempt: Option<Payload>, limits: Limits, r: InsertResult, failures: int)
    requires Steady(w) && d in w.rows.mem && PatchPending(row0, w.rows.mem[d], operation) && row0.custom == None && row0.purge == None
    requires ValidOperation(d, operation) && AdmissionAt(w, d, operation, bodyStored).Admitted?
    requires InsertOutcome(w, x, d, content, operation, bodyStored, sample, attempt, limits, r, failures)
    ensures d in x.rows.mem
    ensures x.rows.mem[d].custom.Some? ==> PatchPending(row0, x.rows.mem[d], operation)
  {
    SteadyIsKept(w);
    BeginFacts(w, d, content, operation, bodyStored, DUTY);
    var begun := BegunAt(w, d, content, operation, bodyStored);
    var y := w.(rows := w.rows.Put(d, begun));
    assert PatchPending(row0, begun, operation);
    hide PatchPending, Inv, DoneAs, SameBase, MergeCandidates, Admit, BaseOf;
    EndedSameBase(y, x, d, begun.custom.value, sample, attempt, limits, r, failures);
    if x.rows.mem[d].custom.Some? {
      SameBasePending(row0, begun, x.rows.mem[d], operation);
    }
  }

  /** Unless an operation was committed, it ends with the base as it was. */
  lemma EndedSameBase(w: World, x: World, d: DocId, j: CustomJournal, sample: Sample, attempt: Option<Payload>,
      limits: Limits, r: InsertResult, failures: int)
    requires Ended(w, x, d, j, sample, attempt, limits, r, failures) && w.rows.mem[d].custom == Some(j)
    ensures d in x.rows.mem
    ensures x.rows.mem[d].custom.Some? ==>
      SameBase(w.rows.mem[d], x.rows.mem[d]) && (r == NotBegun || r == InsertFailed || r == InsertCrashed)
  {
    NoJournalOnceDone(w, x, d, j, sample, attempt, limits);
    SameBaseAsItself(w.rows.mem[d]);
    hide DoneAs, Settled, MergeCandidates, Merge;
  }

  lemma SameBasePending(row0: Row, begun: Row, next: Row, operation: seq<SourceId>)
    requires PatchPending(row0, begun, operation) && row0.custom == None && begun.custom.Some? && SameBase(begun, next)
    ensures PatchPending(row0, next, operation)
  {
  }

  lemma {:induction false} FewerCandidates(sample: Sample, staged: seq<SourceId>, operation: seq<SourceId>)
    requires forall c :: c in staged ==> c in operation
    ensures MergeCandidates(sample, staged) <= MergeCandidates(sample, operation)
  {
    forall o | o in MergeCandidates(sample, staged)
      ensures o in MergeCandidates(sample, operation)
    {
      var c :| c in staged && c in sample && Reports(sample[c], o);
      assert c in operation;
    }
  }

  /** Every attempt of a pending patch may be made, whatever the attempts before it left behind. */
  lemma AttemptIsReady(w: World, d: DocId, row0: Row, operation: seq<SourceId>, bodyStored: bool,
      sample: Sample, watch: set<Obj>)
    requires Steady(w) && Inv(w, watch) && d in w.rows.mem && AnchorsUsable(w, d, w.rows.mem[d])
    requires PatchPending(row0, w.rows.mem[d], operation) && row0.purge == None
    requires ValidOperation(d, operation) && AdmissionAt(w, d, operation, bodyStored).Admitted?
    requires MergeCandidates(sample, operation) <= watch
    ensures InsertReady(w, d, AdmissionAt(w, d, operation, bodyStored).staged, sample, watch)
  {
    var staged := AdmissionAt(w, d, operation, bodyStored).staged;
    forall c | c in staged
      ensures c in operation
    {
    }
    FewerCandidates(sample, staged, operation);
  }

  /** Between the attempts. */
  ghost predicate Trying(w: World, d: DocId, row0: Row, operation: seq<SourceId>, watch: set<Obj>) {
    && Inv(w, watch) && d in w.rows.mem && AnchorsUsable(w, d, w.rows.mem[d])
    && PatchPending(row0, w.rows.mem[d], operation)
  }

  lemma StillTrying(w: World, x: World, d: DocId, row0: Row, operation: seq<SourceId>, watch: set<Obj>)
    requires Trying(w, d, row0, operation, watch) && Resumable(w, x, d, watch) && x.given == w.given
    requires d in x.rows.mem && PatchPending(row0, x.rows.mem[d], operation)
    ensures Trying(x, d, row0, operation, watch)
  {
    hide Inv;
    assert BaseOf(x.rows.mem[d]) == BaseOf(w.rows.mem[d]);
  }

  lemma CrashKeepsTrying(w: World, d: DocId, row0: Row, operation: seq<SourceId>, watch: set<Obj>)
    requires Steady(w) && Trying(w, d, row0, operation, watch)
    ensures Trying(Reverted(w), d, row0, operation, watch)
  {
    LeakIsRemix(w, Fault({}, {}, {}, {}, {}, {}, Answers));
    BufferingKeepsInv(w, Reverted(w), watch);
    SteadyIsKept(w);
    RevertedRow(w, DUTY, d);
    assert d in w.entities.mem ==> d in w.entities.disk;
    assert d in w.relations.mem ==> d in w.relations.disk;
  }

  /** One attempt of the patch.  It either leaves the patch pending, or the row without a journal. */
  method TryPatch(e: Engine, d: DocId, operation: seq<SourceId>, sample: Sample, attempt: Option<Payload>, row0: Row,
      ghost watch: set<Obj>) returns (committed: bool)
    requires Steady(e.State()) && Trying(e.State(), d, row0, operation, watch) && ValidOperation(d, operation)
    requires row0.custom == None && row0.purge == None && MergeCandidates(sample, operation) <= watch
    requires e.up
    modifies e
    ensures Steady(e.State()) && e.up
    ensures !committed ==> Trying(e.State(), d, row0, operation, watch)
    ensures committed ==> d in e.rows.mem && e.rows.mem[d].custom == None
    ensures Faults(e.schedule) <= Faults(old(e.schedule))
  {
    hide Steady, InsertOutcome, InsertReady, Inv, Admit;
    ghost var w := e.State();
    if AdmissionAt(w, d, operation, true).Admitted? {
      AttemptIsReady(w, d, row0, operation, true, sample, watch);
    }
    var r := Insert(e, d, "", operation, true, sample, attempt, watch);
    if r == NotAdmitted || r == NothingToDo {
      return false;
    }
    FailedStaysPending(w, e.State(), d, row0, "", operation, true, sample, attempt, e.limits, r,
      Faults(old(e.schedule)) - Faults(e.schedule));
    committed := e.rows.mem[d].custom == None;
    if !committed {
      StillTrying(w, e.State(), d, row0, operation, watch);
    }
  }

  /** Any number of attempts at one patch, each with its own extraction sample, faults and crashes within
      or between them; unless one commits, a rollback that completes gives the base back exactly.  All the
      start must provide is that no earlier deletion left an unbacked tracking row of an object the
      samples mention. */
  method PatchThenRollback(e: Engine, d: DocId, operation: seq<SourceId>, samples: seq<Sample>,
      attempts: seq<Option<Payload>>, crashes: set<nat>, ghost watch: set<Obj>)
    returns (committed: bool, undone: bool)
    requires Steady(e.State()) && d in e.rows.mem && ValidOperation(d, operation) && |attempts| == |samples|
    requires e.rows.mem[d].custom == None && e.rows.mem[d].purge == None
    requires AnchorsUsable(e.State(), d, e.rows.mem[d]) && StaleBacked(e.State(), watch)
    requires forall i :: 0 <= i < |samples| ==> MergeCandidates(samples[i], operation) <= watch
    requires e.up
    modifies e
    ensures Steady(e.State()) && e.up
    ensures undone && !committed ==>
      && d in e.rows.mem && e.rows.mem[d].custom == None
      && (e.rows.mem[d] == old(e.rows.mem[d]) ||
          e.rows.mem[d] == old(e.rows.mem[d]).(status := Processed, chunksCount := |old(e.rows.mem[d]).chunksList|))
    ensures Faults(old(e.schedule)) == 0 ==> committed || undone
  {
    hide Steady, Inv;
    var row0 := e.rows.mem[d];
    SteadyInv(e.State());
    WatchableIff(e.State(), watch);
    committed := false;
    undone := false;
    for i := 0 to |samples|
      invariant Steady(e.State()) && e.up
      invariant !committed ==> Trying(e.State(), d, row0, operation, watch)
      invariant Faults(e.schedule) <= Faults(old(e.schedule))
    {
      if !committed {
        committed := TryPatch(e, d, operation, samples[i], attempts[i], row0, watch);
      }
      if i in crashes {
        if !committed {
          CrashKeepsTrying(e.State(), d, row0, operation, watch);
        }
        SteadyIsKept(e.State());
        e.Crash(DUTY);
        SteadyIsKept(e.State());
      }
    }
    if !committed {
      RowIsWellFormed(e.State(), d);
      if e.rows.mem[d].custom.Some? {
        undone := RollbackOne(e, d, None);
      } else {
        undone := true;
      }
    }
  }

  lemma RowIsWellFormed(w: World, d: DocId)
    requires Steady(w) && d in w.rows.mem
    ensures RowOk(w, d, w.rows.mem[d])
  {
  }

  // ----- Rolling back for as long as it takes -----

  /** The row a rollback gives back, or none if the operation had created the document. */
  predicate GivenBack(row: Row, rows: map<DocId, Row>, d: DocId)
    requires row.custom.Some?
  {
    if row.custom.value.mode == Create then d !in rows
    else
      && d in rows
      && rows[d] == row.(status := Processed, chunksCount := |row.chunksList|, truncation := row.custom.value.prior, custom := None)
  }

  lemma ChangedIsGivenBack(w: World, rows: map<DocId, Row>, d: DocId)
    requires Steady(w) && d in w.rows.mem && w.rows.mem[d].custom.Some? && w.rows.mem[d].purge == None
    requires Retained(w.rows.mem[d], rows, d)
    ensures Changed(w.rows.mem[d], rows, d) ==> GivenBack(w.rows.mem[d], rows, d)
  {
    hide Steady, Kept, RowOk;
    SteadyIsKept(w);
    JournaledRow(w, d, w.rows.mem[d].custom.value);
  }

  /** One attempt: it leaves the row as it was, or has given it back. */
  method TryRollback(e: Engine, d: DocId, ghost goal: Option<Goal>) returns (done: bool)
    requires Steady(e.State()) && d in e.rows.mem && (goal.Some? ==> OnCourse(goal.value, e.State()))
    requires e.rows.mem[d].custom.Some? && e.rows.mem[d].purge == None && GoalFor(goal, e.rows.mem[d].custom.value)
    requires e.up
    modifies e
    ensures Steady(e.State()) && (goal.Some? ==> OnCourse(goal.value, e.State())) && e.up
    ensures if done then GivenBack(old(e.rows.mem[d]), e.rows.mem, d) else d in e.rows.mem && e.rows.mem[d] == old(e.rows.mem[d])
    ensures done ==> Reached(goal, e.State()) && Clean(e.State(), StagedSet(old(e.rows.mem[d]).custom.value))
    ensures forall x :: x in old(e.rows.mem) && x != d ==> x in e.rows.mem && e.rows.mem[x] == old(e.rows.mem[x])
    ensures Spent(old(e.schedule), e.schedule, e.up, done)
  {
    hide Steady, OnCourse, Reached, Clean, Undone, GoalFor;
    ghost var w := e.State();
    var row := e.rows.mem[d];
    var ok := RollbackOne(e, d, goal);
    done := d !in e.rows.mem || e.rows.mem[d].custom.None?;
    if !ok {
      ChangedIsGivenBack(w, e.rows.mem, d);
    }
  }

  /** Retried for as long as it takes, with faults and crashes at any await, a rollback ends: no more attempts
      than faults plus one, the base row given back or the created document gone, no reference left to a
      staged chunk, and the graph where it was to go. */
  method RollbackUntilDone(e: Engine, d: DocId, ghost goal: Option<Goal>) returns (attempts: nat)
    requires Steady(e.State()) && d in e.rows.mem && (goal.Some? ==> OnCourse(goal.value, e.State()))
    requires e.rows.mem[d].custom.Some? && e.rows.mem[d].purge == None && GoalFor(goal, e.rows.mem[d].custom.value)
    requires e.up
    modifies e
    ensures Steady(e.State()) && e.up
    ensures GivenBack(old(e.rows.mem[d]), e.rows.mem, d)
    ensures goal.Some? ==> Converged(goal.value, e.State())
    ensures Clean(e.State(), StagedSet(old(e.rows.mem[d]).custom.value))
    ensures forall x :: x in old(e.rows.mem) && x != d ==> x in e.rows.mem && e.rows.mem[x] == old(e.rows.mem[x])
    ensures attempts + Faults(e.schedule) <= Faults(old(e.schedule)) + 1
  {
    hide Steady, OnCourse, Clean, GoalFor, Converged;
    var row := e.rows.mem[d];
    attempts := 0;
    var done := false;
    while !done
      invariant Steady(e.State()) && (goal.Some? ==> OnCourse(goal.value, e.State())) && e.up
      invariant if done then GivenBack(row, e.rows.mem, d) else d in e.rows.mem && e.rows.mem[d] == row
      invariant done ==> Reached(goal, e.State()) && Clean(e.State(), StagedSet(row.custom.value))
      invariant forall x :: x in old(e.rows.mem) && x != d ==> x in e.rows.mem && e.rows.mem[x] == old(e.rows.mem[x])
      invariant attempts + Faults(e.schedule) <= Faults(old(e.schedule)) + if done then 1 else 0
      decreases if done then 0 else 1, Faults(e.schedule)
    {
      done := TryRollback(e, d, goal);
      attempts := attempts + 1;
    }
  }

  /** Where such a series can start: with nothing pending, on the graph as it is. */
  lemma SettledIsOnCourse(w: World, d: DocId)
    requires Settled(w) && d in w.rows.mem && w.rows.mem[d].custom.Some?
    requires
      var j := w.rows.mem[d].custom.value;
      GoalOk(Goal(StagedSet(j), j.names, w.graph.mem, w.tracking.mem))
    ensures
      var j := w.rows.mem[d].custom.value;
      var goal := Some(Goal(StagedSet(j), j.names, w.graph.mem, w.tracking.mem));
      GoalFor(goal, j) && OnCourse(goal.value, w)
  {
    var j := w.rows.mem[d].custom.value;
    SettledStores(w);
    StartIsOnCourse(Goal(StagedSet(j), j.names, w.graph.mem, w.tracking.mem), w);
  }
}
