/** Deleting a document: the purge, the retry bookkeeping, the final row delete, and retries. */
module Deletion {
  import opened Stores
  import opened KnowledgeGraph
  import opened InvariantSteps
  import opened Classification
  import opened DerivedPass
  import opened Convergence
  import opened RecoveryProof
  import opened StorageEngine
  import opened PurgeDerived
  import opened PurgeSteps
  import opened JournaledPurge

  datatype DeletionResult = Deleted | NotFound | NotProven(outcome: Outcome) | DeleteFailed | DeletionCrashed

  // ----- Retry bookkeeping: a targeted update that leaves the journal alone -----

  function Marked(w: World, d: DocId, failed: bool): World
    requires d in w.rows.mem
  {
    w.(rows := w.rows.UpsertDurable(d, w.rows.mem[d].(deletionFailed := failed)))
  }

  lemma MarkedRowOk(w: World, d: DocId, failed: bool)
    requires d in w.rows.mem && RowOk(w, d, w.rows.mem[d])
    ensures RowOk(w, d, w.rows.mem[d].(deletionFailed := failed))
  {
    var row := w.rows.mem[d];
    var next := row.(deletionFailed := failed);
    assert Scope(next) == Scope(row);
    if row.purge.Some? && row.purge.value.phase == Prepared && row.purge.value.chunks == Scope(row) {
      forall u: View, v: View
        ensures Provable(next, Get(w.entities.At(u), d), Get(w.relations.At(v), d), Scope(row))
      {
        assert Provable(row, Get(w.entities.At(u), d), Get(w.relations.At(v), d), Scope(row));
      }
    }
  }

  lemma MarkKept(w: World, d: DocId, goal: Option<Goal>, failed: bool)
    requires Sound(w, d, goal)
    ensures Sound(Marked(w, d, failed), d, goal)
    ensures Kept(Marked(w, d, failed), PurgeDuty(d, goal, w.rows.mem[d]))
  {
    var row := w.rows.mem[d];
    var next := row.(deletionFailed := failed);
    var x := Marked(w, d, failed);
    assert RowOk(w, d, row);
    MarkedRowOk(w, d, failed);
    hide RowOk;
    assert Scope(next) == Scope(row);
    forall o, c | Evidence(w, {}, o, c) && c.Chunk? && c.doc == d
      ensures BackedBy(w, next, o, c)
    {
      ScopeOf(w, {}, d, o, c);
    }
    RowWriteKeepsInv(w, x, {}, d, next);
    hide Inv;
    CourseIgnoresRows(w, x, PurgeDuty(d, goal, row));
    assert PurgeDuty(d, goal, next) == PurgeDuty(d, goal, row);
  }

  /** Only the bookkeeping and the journal of `d` moved. */
  predicate SameDocument(row: Row, next: Row) {
    next == row.(purge := next.purge, deletionFailed := next.deletionFailed)
  }

  lemma SameDocumentSame(row: Row, next: Row)
    requires SameDocument(row, next)
    ensures Scope(next) == Scope(row)
  {
  }

  lemma SameDuty(d: DocId, goal: Option<Goal>, row: Row, next: Row)
    requires next == row.(deletionFailed := next.deletionFailed)
    ensures PurgeDuty(d, goal, next) == PurgeDuty(d, goal, row)
  {
    SameDocumentSame(row, next);
  }

  lemma LeakedMemory(w: World, x: World)
    requires Leaked(w, x)
    ensures x.graph.mem == w.graph.mem && x.tracking.mem == w.tracking.mem && x.chunks.mem == w.chunks.mem
    ensures x.entities.mem == w.entities.mem && x.relations.mem == w.relations.mem && x.rows.mem == w.rows.mem
  {
  }

  predicate MarkedOnly(w: World, x: World, d: DocId) {
    && x.graph.mem == w.graph.mem && x.tracking.mem == w.tracking.mem && x.chunks.mem == w.chunks.mem
    && x.entities.mem == w.entities.mem && x.relations.mem == w.relations.mem
    && d in w.rows.mem && d in x.rows.mem && x.rows.mem == w.rows.mem[d := x.rows.mem[d]]
    && x.rows.mem[d] == w.rows.mem[d].(deletionFailed := x.rows.mem[d].deletionFailed)
    && Scope(x.rows.mem[d]) == Scope(w.rows.mem[d])
  }

  /** It may fail with or without having had an effect. */
  method Mark(e: Engine, d: DocId, failed: bool, ghost goal: Option<Goal>) returns (ok: bool)
    requires Sound(e.State(), d, goal)
    requires e.up
    modifies e
    ensures Sound(e.State(), d, goal) && MarkedOnly(old(e.State()), e.State(), d)
    ensures e.rows.mem[d].deletionFailed == failed || (!ok && e.rows.mem[d] == old(e.rows.mem[d]))
    ensures Spent(old(e.schedule), e.schedule, e.up, ok)
  {
    hide Kept, Leaked, Scope;
    ghost var w := e.State();
    ok := e.Pause(PurgeDuty(d, goal, e.rows.mem[d]));
    LeakedMemory(w, e.State());
    if ok {
      ghost var y := e.State();
      MarkKept(y, d, goal, failed);
      ok := e.Write(Marked(e.State(), d, failed), PurgeDuty(d, goal, e.rows.mem[d]));
      LeakedMemory(Marked(y, d, failed), e.State());
    }
    SameDocumentSame(w.rows.mem[d], e.rows.mem[d]);
    SameDuty(d, goal, w.rows.mem[d], e.rows.mem[d]);
  }

  /** A fault was used up if the process went down, or the call failed. */
  predicate Charged(before: seq<Fault>, after: seq<Fault>, up: bool, ok: bool) {
    Faults(after) <= Faults(before) && ((ok && up) || Faults(after) < Faults(before))
  }

  /** The flush on the way out of a failed deletion. */
  method ExitFlush(e: Engine, d: DocId, ghost goal: Option<Goal>)
    requires Sound(e.State(), d, goal)
    requires e.up
    modifies e
    ensures Sound(e.State(), d, goal)
    ensures FlushedAll(e.State()) == FlushedAll(old(e.State()))
    ensures Settled(e.State()) || Faults(e.schedule) < Faults(old(e.schedule))
    ensures Charged(old(e.schedule), e.schedule, e.up, true)
  {
    var ok := e.FlushAll(PurgeDuty(d, goal, e.rows.mem[d]));
  }

  // ----- The final delete -----

  /** Nothing in either view refers to the document's chunks; the chunks and the anchors are durably
      gone; a row that a crash could bring back says so. */
  ghost predicate Erased(w: World, d: DocId, gone: set<SourceId>) {
    && d !in w.rows.mem
    && (forall o: Obj, c: SourceId :: c.Chunk? && c.doc == d ==> !Evidence(w, {}, o, c))
    && WorkDone(w, d, gone, Completed)
    && (d in w.rows.disk ==> Scope(w.rows.disk[d]) == gone && InPhaseRow(w.rows.disk[d], Completed))
  }

  predicate InPhaseRow(row: Row, phase: Phase) {
    row.purge == Some(PurgeJournal(Scope(row), phase))
  }

  ghost function Afterwards(goal: Option<Goal>): Duty {
    Duty({}, false, None, {}, goal, true, None)
  }

  function RowRemoved(w: World, d: DocId): World {
    w.(rows := w.rows.Delete({d}))
  }

  lemma RowRemovedKept(w: World, d: DocId, goal: Option<Goal>)
    requires At(w, d, goal, Completed)
    ensures Kept(RowRemoved(w, d), Afterwards(goal))
    ensures Erased(RowRemoved(w, d), d, Scope(w.rows.mem[d]))
  {
    var x := RowRemoved(w, d);
    CompletedWork(w, d, goal);
    forall o: Obj, c: SourceId | c.Chunk? && c.doc == d
      ensures !Evidence(w, {}, o, c)
    {
      if Evidence(w, {}, o, c) {
        ScopeOf(w, {}, d, o, c);
        assert false;
      }
    }
    RowDeleteKeepsInv(w, x, {}, d);
    CourseIgnoresRows(w, x, Afterwards(goal));
    forall o, c | Evidence(x, {}, o, c)
      ensures Evidence(w, {}, o, c)
    {
    }
  }

  lemma WorkStays(w: World, x: World, d: DocId, gone: set<SourceId>)
    requires WorkDone(w, d, gone, Completed) && RemixWorld(w, x)
    ensures WorkDone(x, d, gone, Completed)
  {
    forall o, c | c in gone
      ensures !Evidence(x, {}, o, c)
    {
      if Evidence(x, {}, o, c) {
        RemixEvidence(w, x, {}, o, c);
      }
    }
    RemixAt(w.entities, x.entities, d);
    RemixAt(w.relations, x.relations, d);
    forall c | c in gone
      ensures c !in x.chunks.mem && c !in x.chunks.disk
    {
      RemixAt(w.chunks, x.chunks, c);
    }
  }

  lemma ErasedStays(w: World, x: World, d: DocId, gone: set<SourceId>)
    requires Erased(w, d, gone) && RemixWorld(w, x) && d !in x.rows.mem
    ensures Erased(x, d, gone)
  {
    WorkStays(w, x, d, gone);
    forall o: Obj, c: SourceId | Evidence(x, {}, o, c)
      ensures Evidence(w, {}, o, c)
    {
      RemixEvidence(w, x, {}, o, c);
    }
    RemixAt(w.rows, x.rows, d);
  }

  method RemoveRow(e: Engine, d: DocId, ghost goal: Option<Goal>) returns (ok: bool)
    requires At(e.State(), d, goal, Completed)
    requires e.up
    modifies e
    ensures Kept(e.State(), Afterwards(goal)) && Erased(e.State(), d, Scope(old(e.rows.mem[d])))
    ensures FlushedAll(e.State()) == FlushedAll(RowRemoved(old(e.State()), d))
    ensures Spent(old(e.schedule), e.schedule, e.up, ok)
  {
    ghost var w := RowRemoved(e.State(), d);
    RowRemovedKept(e.State(), d, goal);
    e.Become(RowRemoved(e.State(), d));
    ok := e.Interleave(Afterwards(goal));
    ErasedStays(w, e.State(), d, Scope(old(e.rows.mem[d])));
  }

  /** The flush on the way out.  It reports nothing: a deletion that got this far has succeeded. */
  method FinalFlush(e: Engine, d: DocId, ghost gone: set<SourceId>, ghost goal: Option<Goal>)
    requires Kept(e.State(), Afterwards(goal)) && Erased(e.State(), d, gone)
    requires e.up
    modifies e
    ensures Kept(e.State(), Afterwards(goal)) && Erased(e.State(), d, gone)
    ensures FlushedAll(e.State()) == FlushedAll(old(e.State()))
    ensures Settled(e.State()) || Faults(e.schedule) < Faults(old(e.schedule))
    ensures Charged(old(e.schedule), e.schedule, e.up, true)
  {
    hide Kept;
    var ok := e.Interleave(Afterwards(goal));
    ErasedStays(old(e.State()), e.State(), d, gone);
    if ok {
      ghost var w := e.State();
      LeakIsRemix(w, Fault({}, {}, {}, {}, {}, {}, Answers));
      BufferingKeeps(w, FlushedAll(w), Afterwards(goal));
      ErasedStays(w, FlushedAll(w), d, gone);
      e.Become(FlushedAll(e.State()));
    }
  }

  // ----- One attempt -----

  /** A further attempt may be made and will not be refused. */
  ghost predicate Retryable(w: World, d: DocId, goal: Option<Goal>, gone: set<SourceId>) {
    if d in w.rows.mem then
      && Sound(w, d, goal) && GoalMatches(w, d, goal)
      && Scope(w.rows.mem[d]) == gone && ResolveAt(w, d).Proven?
    else
      Kept(w, Afterwards(goal)) && Erased(w, d, gone)
  }

  /** While the journal is not past `prepared`, the resolution and the candidates are the first ones. */
  lemma InterruptedResolves(w: World, x: World, d: DocId)
    requires Advanced(w, x, d) && Progress(x.rows.mem[d]) == 1
    requires ResolveAt(w, d).Proven? && x.entities.mem == w.entities.mem && x.relations.mem == w.relations.mem
    ensures !Live(w.rows.mem[d]) && Scope(x.rows.mem[d]) == Scope(w.rows.mem[d])
    ensures ResolveAt(x, d).Proven? && CandidatesAt(x, d, ResolveAt(x, d).kind) == CandidatesAt(w, d, ResolveAt(w, d).kind)
  {
    SameScope(w.rows.mem[d], x.rows.mem[d]);
  }

  lemma SameScope(row: Row, next: Row)
    requires next == row.(purge := next.purge)
    ensures Scope(next) == Scope(row)
  {
  }

  lemma FurtherIsLive(row: Row)
    requires Progress(row) >= 2
    ensures Live(row)
  {
  }

  lemma JournalIsProof(w: World, d: DocId, goal: Option<Goal>)
    requires Sound(w, d, goal) && Progress(w.rows.mem[d]) >= 1
    ensures ResolveAt(w, d).Proven?
  {
    assert RowOk(w, d, w.rows.mem[d]);
    RetryIsProven(w, d, w.rows.mem[d], Mem, Mem);
  }

  /** An interrupted attempt is retried against the same candidates. */
  lemma InterruptedIsRetryable(w: World, x: World, d: DocId, goal: Option<Goal>)
    requires d in w.rows.mem && Retryable(w, d, goal, Scope(w.rows.mem[d]))
    requires Sound(x, d, goal) && Advanced(w, x, d) && Progress(x.rows.mem[d]) >= 1
    requires Progress(x.rows.mem[d]) < 2 ==> x.entities.mem == w.entities.mem && x.relations.mem == w.relations.mem
    ensures Retryable(x, d, goal, Scope(w.rows.mem[d]))
  {
    hide Kept, ResolveAt, CandidatesAt, Scope;
    SameScope(w.rows.mem[d], x.rows.mem[d]);
    JournalIsProof(x, d, goal);
    if Progress(x.rows.mem[d]) == 1 {
      InterruptedResolves(w, x, d);
    } else {
      FurtherIsLive(x.rows.mem[d]);
    }
  }

  lemma MarkedIsRetryable(w: World, x: World, d: DocId, goal: Option<Goal>)
    requires d in w.rows.mem && Retryable(w, d, goal, Scope(w.rows.mem[d]))
    requires Sound(x, d, goal) && MarkedOnly(w, x, d)
    ensures Retryable(x, d, goal, Scope(w.rows.mem[d]))
  {
    hide Kept;
  }

  /** Nothing of any other document was touched. */
  predicate OthersKept(w: World, x: World, d: DocId, gone: set<SourceId>) {
    && x.chunks.mem - gone == w.chunks.mem - gone
    && x.entities.mem - {d} == w.entities.mem - {d} && x.relations.mem - {d} == w.relations.mem - {d}
    && x.rows.mem - {d} == w.rows.mem - {d}
  }

  /** The failure is on the row and nothing is left pending, unless more calls failed than led here. */
  predicate Recorded(w: World, d: DocId, failures: int) {
    failures > 0 || (d in w.rows.mem && w.rows.mem[d].deletionFailed && Settled(w))
  }

  /** The failure exit: record it, flush what was pending.  After a crash there is no such exit. */
  method Fail(e: Engine, d: DocId, ghost goal: Option<Goal>)
    requires Sound(e.State(), d, goal)
    modifies e
    ensures Sound(e.State(), d, goal) && MarkedOnly(old(e.State()), e.State(), d)
    ensures Faults(e.schedule) <= Faults(old(e.schedule))
    ensures old(e.up) ==> Charged(old(e.schedule), e.schedule, e.up, true)
    ensures !old(e.up) ==> !e.up && e.State() == old(e.State())
    ensures e.up ==> Recorded(e.State(), d, Faults(old(e.schedule)) - Faults(e.schedule))
  {
    hide Kept, Settled;
    SameDocumentSame(e.rows.mem[d], e.rows.mem[d]);
    if e.up {
      var ok := Mark(e, d, true, goal);
    }
    if e.up {
      ExitFlush(e, d, goal);
    }
  }

  /** The success exit. */
  method FinishDelete(e: Engine, d: DocId, ghost goal: Option<Goal>) returns (ok: bool)
    requires At(e.State(), d, goal, Completed)
    requires e.up
    modifies e
    ensures Kept(e.State(), Afterwards(goal)) && Erased(e.State(), d, Scope(old(e.rows.mem[d])))
    ensures FlushedAll(e.State()) == FlushedAll(RowRemoved(old(e.State()), d))
    ensures ok ==> Settled(e.State()) || Faults(e.schedule) < Faults(old(e.schedule))
    ensures Charged(old(e.schedule), e.schedule, e.up, ok)
  {
    hide Kept, Erased, Settled;
    ghost var gone := Scope(e.rows.mem[d]);
    ok := RemoveRow(e, d, goal);
    if e.up {
      FinalFlush(e, d, gone, goal);
    }
  }

  /** What a deletion of a present document guarantees, proven or not. */
  ghost predicate Outcomes(w: World, x: World, d: DocId, goal: Option<Goal>, limits: Limits, result: DeletionResult)
    requires d in w.rows.mem
  {
    match ResolveAt(w, d)
    case Proven(_, _) =>
      && (result.Deleted? || result.DeleteFailed?)
      && (result.Deleted? ==> d !in x.rows.mem)
      && (result.Deleted? && Progress(w.rows.mem[d]) < 2 ==> RepairedBy(w, x, d, limits))
      && Retryable(x, d, goal, Scope(w.rows.mem[d])) && OthersKept(w, x, d, Scope(w.rows.mem[d]))
    case Refused(reason) =>
      && (result == NotProven(PurgeRefused(reason)) || result.DeleteFailed?)
      && Sound(x, d, goal) && MarkedOnly(w, x, d)
    case Conflict =>
      && (result == NotProven(PurgeConflict) || result.DeleteFailed?)
      && Sound(x, d, goal) && MarkedOnly(w, x, d)
  }

  /** The graph and the tracking rows are what a purge of `d` leaves of them. */
  ghost predicate RepairedBy(w: World, x: World, d: DocId, limits: Limits)
    requires d in w.rows.mem && ResolveAt(w, d).Proven?
  {
    exists skipped :: skipped <= w.given.fragile && PurgeLeaves(w, x, d, limits, skipped)
  }

  lemma RepairReadsMemory(w: World, w1: World, x: World, x1: World, d: DocId, limits: Limits, skipped: set<Obj>)
    requires d in w.rows.mem && ResolveAt(w, d).Proven? && PurgeLeaves(w, x, d, limits, skipped)
    requires skipped <= w.given.fragile && w1.given == w.given && d in w1.rows.mem && ResolveAt(w1, d) == ResolveAt(w, d)
    requires w1.graph.mem == w.graph.mem && w1.tracking.mem == w.tracking.mem
    requires x1.graph.mem == x.graph.mem && x1.tracking.mem == x.tracking.mem
    requires Scope(w1.rows.mem[d]) == Scope(w.rows.mem[d])
    requires CandidatesAt(w1, d, ResolveAt(w, d).kind) == CandidatesAt(w, d, ResolveAt(w, d).kind)
    ensures RepairedBy(w1, x1, d, limits)
  {
    forall o
      ensures LeftAs(w1, x1, CandidatesAt(w1, d, ResolveAt(w1, d).kind), Scope(w1.rows.mem[d]), BestEffort, limits, skipped, o)
    {
      LeavesReadsMemory(w, w1, x, x1, CandidatesAt(w, d, ResolveAt(w, d).kind), Scope(w.rows.mem[d]), BestEffort, limits, skipped, o);
    }
    assert PurgeLeaves(w1, x1, d, limits, skipped);
  }

  lemma LeavesReadsMemory(w: World, w1: World, x: World, x1: World, candidates: set<Obj>, gone: set<SourceId>,
      policy: Policy, limits: Limits, skipped: set<Obj>, o: Obj)
    requires LeftAs(w, x, candidates, gone, policy, limits, skipped, o)
    requires w1.graph.mem == w.graph.mem && w1.tracking.mem == w.tracking.mem
    requires x1.graph.mem == x.graph.mem && x1.tracking.mem == x.tracking.mem
    ensures LeftAs(w1, x1, candidates, gone, policy, limits, skipped, o)
  {
    forall p, c
      ensures IsOwner(w1, p, c) == IsOwner(w, p, c)
    {
    }
    forall p
      ensures Vanishes(w1, candidates, gone, p) == Vanishes(w, candidates, gone, p)
    {
    }
  }

  /** How the call's result shows: a failure is recorded, a deletion is flushed, unless a further call
      failed. */
  predicate Noted(w: World, d: DocId, result: DeletionResult, failures: int) {
    match result
    case NotProven(_) => Recorded(w, d, failures)
    case DeleteFailed => d in w.rows.mem ==> Recorded(w, d, failures - 1)
    case Deleted => failures > 0 || Settled(w)
    case _ => true
  }

  /** After a completed purge: the row goes, and the deletion is reported. */
  method RemovePurged(e: Engine, d: DocId, ghost goal: Option<Goal>, ghost w: World, ghost skipped: set<Obj>)
      returns (result: DeletionResult)
    requires d in w.rows.mem && ResolveAt(w, d).Proven? && w.given == e.given
    requires At(e.State(), d, goal, Completed) && Elsewhere(w, e.State(), d, Scope(w.rows.mem[d]))
    requires Progress(w.rows.mem[d]) < 2 ==> skipped <= e.given.fragile && PurgeLeaves(w, e.State(), d, e.limits, skipped)
    requires e.up
    modifies e
    ensures Outcomes(w, e.State(), d, goal, e.limits, result)
    ensures e.up ==> Noted(e.State(), d, result, Faults(old(e.schedule)) - Faults(e.schedule))
    ensures Charged(old(e.schedule), e.schedule, e.up, !result.DeleteFailed?)
  {
    hide Kept, Erased, ResolveAt, PurgePlan, DerivedAs, PurgeLeaves, RepairedBy, Settled;
    ghost var x := e.State();
    SameScope(w.rows.mem[d], x.rows.mem[d]);
    var ok := FinishDelete(e, d, goal);
    SameDerivedMemory(x, e.State(), d);
    if Progress(w.rows.mem[d]) < 2 {
      RepairReadsMemory(w, w, x, e.State(), d, e.limits, skipped);
    }
    OthersAfterRemoval(w, x, e.State(), d, Scope(w.rows.mem[d]));
    return if ok then Deleted else DeleteFailed;
  }

  lemma OthersAfterRemoval(w: World, x: World, y: World, d: DocId, gone: set<SourceId>)
    requires Elsewhere(w, x, d, gone) && FlushedAll(y) == FlushedAll(RowRemoved(x, d))
    ensures OthersKept(w, y, d, gone)
  {
    assert y.chunks.Flush() == x.chunks.Flush() && y.entities.Flush() == x.entities.Flush();
    assert y.relations.Flush() == x.relations.Flush() && y.rows.Flush() == RowRemoved(x, d).rows.Flush();
  }

  /** After a purge that did not complete. */
  method ReportFailure(e: Engine, d: DocId, out: Outcome, ghost goal: Option<Goal>, ghost w: World)
      returns (result: DeletionResult)
    requires d in w.rows.mem && Sound(e.State(), d, goal) && out != Done
    requires if out == Interrupted then
        && ResolveAt(w, d).Proven? && Retryable(e.State(), d, goal, Scope(w.rows.mem[d]))
        && Scope(e.rows.mem[d]) == Scope(w.rows.mem[d]) && Elsewhere(w, e.State(), d, Scope(w.rows.mem[d]))
      else
        e.State() == w && ResolveAt(w, d) == if out.PurgeRefused? then Refused(out.reason) else Conflict
    modifies e
    ensures Outcomes(w, e.State(), d, goal, e.limits, result)
    ensures result == if out == Interrupted then DeleteFailed else NotProven(out)
    ensures e.up ==> Recorded(e.State(), d, Faults(old(e.schedule)) - Faults(e.schedule))
    ensures Faults(e.schedule) <= Faults(old(e.schedule))
    ensures old(e.up) ==> Charged(old(e.schedule), e.schedule, e.up, true)
    ensures !old(e.up) ==> !e.up
  {
    hide Kept, Erased, ResolveAt, GoalMatches, RepairedBy, Settled, Recorded;
    ghost var x := e.State();
    Fail(e, d, goal);
    if out == Interrupted {
      MarkedIsRetryable(x, e.State(), d, goal);
      return DeleteFailed;
    }
    return NotProven(out);
  }

  method PurgeAndRemove(e: Engine, d: DocId, ghost goal: Option<Goal>) returns (result: DeletionResult)
    requires d in e.rows.mem && Sound(e.State(), d, goal) && GoalMatches(e.State(), d, goal)
    requires e.up
    modifies e
    ensures Outcomes(old(e.State()), e.State(), d, goal, e.limits, result)
    ensures e.up ==> Noted(e.State(), d, result, Faults(old(e.schedule)) - Faults(e.schedule))
    ensures Charged(old(e.schedule), e.schedule, e.up, !result.DeleteFailed?)
  {
    hide Kept, Erased, ResolveAt, GoalMatches, PurgePlan, DerivedAs, PurgeLeaves, RepairedBy, Settled;
    var out;
    ghost var skipped;
    out, skipped := PurgeDocument(e, d, goal);
    if out == Done {
      result := RemovePurged(e, d, goal, old(e.State()), skipped);
      return;
    }
    if out == Interrupted {
      InterruptedIsRetryable(old(e.State()), e.State(), d, goal);
    }
    result := ReportFailure(e, d, out, goal, old(e.State()));
  }

  lemma SameDerivedMemory(w: World, x: World, d: DocId)
    requires FlushedAll(x) == FlushedAll(RowRemoved(w, d))
    ensures x.graph.mem == w.graph.mem && x.tracking.mem == w.tracking.mem
  {
    assert x.graph.Flush() == w.graph.Flush() && x.tracking.Flush() == w.tracking.Flush();
  }

  method GiveUp(e: Engine, d: DocId, ghost goal: Option<Goal>) returns (result: DeletionResult)
    requires d in e.rows.mem && Sound(e.State(), d, goal) && GoalMatches(e.State(), d, goal)
    modifies e
    ensures Outcomes(old(e.State()), e.State(), d, goal, e.limits, result) && result == DeleteFailed
    ensures e.up ==> Recorded(e.State(), d, Faults(old(e.schedule)) - Faults(e.schedule))
    ensures Faults(e.schedule) <= Faults(old(e.schedule))
  {
    hide Kept, Erased;
    Fail(e, d, goal);
    if ResolveAt(old(e.State()), d).Proven? {
      MarkedIsRetryable(old(e.State()), e.State(), d, goal);
    }
    return DeleteFailed;
  }

  lemma MarkedThen(w: World, x: World, d: DocId, goal: Option<Goal>)
    requires d in w.rows.mem && MarkedOnly(w, x, d) && Sound(x, d, goal)
    requires GoalMatches(w, d, goal)
    ensures GoalMatches(x, d, goal)
    ensures ResolveAt(x, d) == ResolveAt(w, d)
    ensures Scope(x.rows.mem[d]) == Scope(w.rows.mem[d])
  {
    hide Kept;
  }

  lemma MarkedOutcomes(w: World, x: World, y: World, d: DocId, goal: Option<Goal>, limits: Limits,
      result: DeletionResult)
    requires d in w.rows.mem && MarkedOnly(w, x, d) && Outcomes(x, y, d, goal, limits, result) && x.given == w.given
    requires ResolveAt(x, d) == ResolveAt(w, d)
    ensures Outcomes(w, y, d, goal, limits, result)
  {
    if ResolveAt(w, d).Proven? && result.Deleted? && Progress(w.rows.mem[d]) < 2 {
      MarkedRepair(w, x, y, d, limits);
    }
    hide Retryable, Sound, ResolveAt, RepairedBy;
  }

  lemma MarkedRepair(w: World, x: World, y: World, d: DocId, limits: Limits)
    requires d in w.rows.mem && MarkedOnly(w, x, d) && x.given == w.given
    requires ResolveAt(x, d).Proven? && ResolveAt(x, d) == ResolveAt(w, d) && RepairedBy(x, y, d, limits)
    ensures RepairedBy(w, y, d, limits)
  {
    var skipped :| skipped <= x.given.fragile && PurgeLeaves(x, y, d, limits, skipped);
    hide PurgeLeaves, ResolveAt;
    RepairReadsMemory(x, w, y, y, d, limits, skipped);
  }

  /** A call that ran to its end, on a document that is present. */
  method Attempt(e: Engine, d: DocId, cacheIds: bool, ghost goal: Option<Goal>) returns (result: DeletionResult)
    requires d in e.rows.mem && Sound(e.State(), d, goal) && GoalMatches(e.State(), d, goal)
    requires e.up
    modifies e
    ensures Outcomes(old(e.State()), e.State(), d, goal, e.limits, result)
    ensures e.up ==> Noted(e.State(), d, result, Faults(old(e.schedule)) - Faults(e.schedule))
    ensures Charged(old(e.schedule), e.schedule, e.up, !result.DeleteFailed?)
  {
    hide Kept, Sound, Outcomes, GoalMatches, ResolveAt, Settled;
    if cacheIds && Scope(e.rows.mem[d]) != {} {
      // the cache keys are recorded before anything is deleted
      var ok := Mark(e, d, false, goal);
      MarkedThen(old(e.State()), e.State(), d, goal);
      label marked:
      if ok {
        result := PurgeAndRemove(e, d, goal);
      } else {
        result := GiveUp(e, d, goal);
      }
      MarkedOutcomes(old(e.State()), old@marked(e.State()), e.State(), d, goal, e.limits, result);
    } else {
      result := PurgeAndRemove(e, d, goal);
    }
  }

  /** What the restart after a crash finds. */
  ghost predicate Restarted(w: World, x: World, d: DocId, goal: Option<Goal>)
    requires d in w.rows.mem
  {
    if ResolveAt(w, d).Proven? then Retryable(x, d, goal, Scope(w.rows.mem[d])) else Sound(x, d, goal)
  }

  lemma CrashRestarts(w: World, x: World, d: DocId, goal: Option<Goal>, limits: Limits, result: DeletionResult)
    requires d in w.rows.mem && Outcomes(w, x, d, goal, limits, result)
    ensures Restarted(w, Reverted(x), d, goal)
    ensures Kept(x, CrashDuty(x, d, goal))
  {
    if ResolveAt(w, d).Proven? {
      hide Kept, Erased, Sound, GoalMatches;
      CrashIsRetryable(x, d, goal, Scope(w.rows.mem[d]));
      RetryableIsKept(x, d, goal, Scope(w.rows.mem[d]));
    } else {
      SoundAfterCrash(x, d, goal);
    }
  }

  ghost function CrashDuty(w: World, d: DocId, goal: Option<Goal>): Duty {
    if d in w.rows.mem then PurgeDuty(d, goal, w.rows.mem[d]) else Afterwards(goal)
  }

  lemma RetryableIsKept(w: World, d: DocId, goal: Option<Goal>, gone: set<SourceId>)
    requires Retryable(w, d, goal, gone)
    ensures Kept(w, CrashDuty(w, d, goal))
  {
    hide Kept;
  }

  lemma SoundAfterCrash(w: World, d: DocId, goal: Option<Goal>)
    requires Sound(w, d, goal)
    ensures d in Reverted(w).rows.mem && Reverted(w).rows.mem[d] == w.rows.mem[d]
    ensures Sound(Reverted(w), d, goal)
  {
    RowIsDurable(w, PurgeDuty(d, goal, w.rows.mem[d]), d);
    hide Kept;
    LeakIsRemix(w, Fault({}, {}, {}, {}, {}, {}, Answers));
    BufferingKeeps(w, Reverted(w), PurgeDuty(d, goal, w.rows.mem[d]));
  }

  /** One call of the delete endpoint.

    An unproven deletion writes nothing but the failure mark.  A proven one either removes the
    document, with the graph repaired, or leaves a state from which it can be called again and will not be
    refused.  If the process crashes anywhere in it, so does what the restart finds.  Either way a failure
    is on record unless recording it failed too. */
  method Delete(e: Engine, d: DocId, cacheIds: bool, ghost goal: Option<Goal>) returns (result: DeletionResult)
    requires d in e.rows.mem ==> Sound(e.State(), d, goal) && GoalMatches(e.State(), d, goal)
    requires d !in e.rows.mem ==> Kept(e.State(), Afterwards(goal))
    requires e.up
    modifies e
    ensures result.NotFound? <==> d !in old(e.rows.mem)
    ensures result.NotFound? ==> e.State() == old(e.State())
    ensures d in old(e.rows.mem) && !result.DeletionCrashed? ==>
      Outcomes(old(e.State()), e.State(), d, goal, e.limits, result)
    ensures Noted(e.State(), d, result, Faults(old(e.schedule)) - Faults(e.schedule))
    ensures d in old(e.rows.mem) && result.DeletionCrashed? ==> Restarted(old(e.State()), e.State(), d, goal)
    ensures Spent(old(e.schedule), e.schedule, e.up, !result.DeleteFailed? && !result.DeletionCrashed?) && e.up
  {
    hide Kept, Sound, Outcomes, Restarted, GoalMatches, ResolveAt, Settled, Recorded;
    if d !in e.rows.mem {
      return NotFound;
    }
    result := Attempt(e, d, cacheIds, goal);
    OutcomeIsFound(old(e.State()), e.State(), d, goal, e.limits, result);
    if !e.up {
      CrashRestarts(old(e.State()), e.State(), d, goal, e.limits, result);
      e.Crash(CrashDuty(e.State(), d, goal));
      result := DeletionCrashed;
    }
  }

  lemma OutcomeIsFound(w: World, x: World, d: DocId, goal: Option<Goal>, limits: Limits, result: DeletionResult)
    requires d in w.rows.mem && Outcomes(w, x, d, goal, limits, result)
    ensures !result.NotFound? && !result.DeletionCrashed?
  {
    hide Kept, Sound, ResolveAt, Retryable;
  }

  // ----- Retries and crashes -----

  lemma CrashIsRetryable(w: World, d: DocId, goal: Option<Goal>, gone: set<SourceId>)
    requires Retryable(w, d, goal, gone)
    ensures Retryable(Reverted(w), d, goal, gone)
  {
    if d in w.rows.mem {
      hide Kept, Erased, GoalMatches, ResolveAt;
      SoundAfterCrash(w, d, goal);
      RowAfterCrash(w, d, goal);
    } else {
      ErasedAfterCrash(w, d, goal, gone);
    }
  }

  /** The row delete was still buffered: the row comes back with its completed journal. */
  lemma ErasedAfterCrash(w: World, d: DocId, goal: Option<Goal>, gone: set<SourceId>)
    requires d !in w.rows.mem && Kept(w, Afterwards(goal)) && Erased(w, d, gone)
    ensures Retryable(Reverted(w), d, goal, gone)
  {
    var x := Reverted(w);
    LeakIsRemix(w, Fault({}, {}, {}, {}, {}, {}, Answers));
    BufferingKeeps(w, x, Afterwards(goal));
    if d !in x.rows.mem {
      hide Kept, Erased;
      ErasedStays(w, x, d, gone);
    } else {
      hide Kept, RemixWorld;
      WorkStays(w, x, d, gone);
      hide WorkDone;
      BackWithItsJournal(x, d, goal);
    }
  }

  lemma BackWithItsJournal(w: World, d: DocId, goal: Option<Goal>)
    requires Kept(w, Afterwards(goal)) && d in w.rows.mem && InPhaseRow(w.rows.mem[d], Completed)
    requires WorkDone(w, d, Scope(w.rows.mem[d]), Completed)
    ensures Sound(w, d, goal) && GoalMatches(w, d, goal) && ResolveAt(w, d).Proven?
  {
    assert Live(w.rows.mem[d]);
    CleanIsSpared(w, Scope(w.rows.mem[d]));
  }

  lemma CleanIsSpared(w: World, gone: set<SourceId>)
    requires Clean(w, gone)
    ensures Spared(w, gone)
  {
    forall o | o in w.given.fragile
      ensures Skippable(w, gone, o)
    {
      forall c | c in gone
        ensures !Lists(w.graph.mem, o, c) && !Lists(w.graph.disk, o, c)
      {
        assert !Evidence(w, {}, o, c);
      }
    }
  }

  lemma RowAfterCrash(w: World, d: DocId, goal: Option<Goal>)
    requires d in w.rows.mem && Retryable(w, d, goal, Scope(w.rows.mem[d]))
    requires d in Reverted(w).rows.mem && Reverted(w).rows.mem[d] == w.rows.mem[d] && Sound(Reverted(w), d, goal)
    ensures Retryable(Reverted(w), d, goal, Scope(w.rows.mem[d]))
  {
    var x := Reverted(w);
    var row := w.rows.mem[d];
    if Progress(row) == 0 {
      hide Kept;
      ProvenAfterCrash(w, d, goal);
    } else {
      JournalIsProof(x, d, goal);
    }
    AnchorsAfterCrash(w, d, goal);
  }

  /** A proof that is not journaled yet reads the same from the durable anchors. */
  lemma ProvenAfterCrash(w: World, d: DocId, goal: Option<Goal>)
    requires Sound(w, d, goal) && ResolveAt(w, d).Proven? && Progress(w.rows.mem[d]) == 0
    requires d in Reverted(w).rows.mem && Reverted(w).rows.mem[d] == w.rows.mem[d]
    ensures ResolveAt(Reverted(w), d).Proven?
  {
    var x := Reverted(w);
    var row := w.rows.mem[d];
    AnchorsAreSettled(w, PurgeDuty(d, goal, row), d);
    ResolveIsExact(row, Get(w.entities.mem, d), Get(w.relations.mem, d), Scope(row));
    ResolveIsExact(row, Get(x.entities.mem, d), Get(x.relations.mem, d), Scope(row));
    ProofIsDurable(w, d, Disk, Disk);
  }

  lemma AnchorsAfterCrash(w: World, d: DocId, goal: Option<Goal>)
    requires Sound(w, d, goal) && GoalMatches(w, d, goal)
    requires ResolveAt(w, d).Proven?
    requires d in Reverted(w).rows.mem && Reverted(w).rows.mem[d] == w.rows.mem[d]
    ensures GoalMatches(Reverted(w), d, goal)
  {
    if goal.Some? && !Live(w.rows.mem[d]) {
      assert AnchorsFixed(w, d);
    }
  }

  /** What the deletion of a settled document aims at. */
  function GoalOf(w: World, d: DocId): Goal
    requires d in w.rows.mem && ResolveAt(w, d).Proven?
  {
    Goal(Scope(w.rows.mem[d]), CandidatesAt(w, d, ResolveAt(w, d).kind), w.graph.mem, w.tracking.mem)
  }

  lemma SettledIsRetryable(w: World, d: DocId)
    requires Inv(w, {}) && FlushedAll(w) == w && d in w.rows.mem && !Live(w.rows.mem[d])
    requires ResolveAt(w, d).Proven? && GoalOk(GoalOf(w, d)) && Spared(w, Scope(w.rows.mem[d]))
    ensures Retryable(w, d, Some(GoalOf(w, d)), Scope(w.rows.mem[d]))
  {
    StartIsOnCourse(GoalOf(w, d), w);
    assert w.rows == w.rows.Flush() && w.entities == w.entities.Flush() && w.relations == w.relations.Flush();
  }

  method Retry(e: Engine, d: DocId, cacheIds: bool, ghost goal: Option<Goal>, ghost gone: set<SourceId>)
      returns (done: bool)
    requires Retryable(e.State(), d, goal, gone)
    requires e.up
    modifies e
    ensures Retryable(e.State(), d, goal, gone)
    ensures done ==> d !in e.rows.mem
    ensures Spent(old(e.schedule), e.schedule, e.up, done) && e.up
  {
    hide Kept, Erased;
    var result := Delete(e, d, cacheIds, goal);
    done := !result.DeleteFailed? && !result.DeletionCrashed?;
  }

  /** Retried for as long as it takes, with crashes at any await, a deletion ends: no more attempts than
      faults plus one, nothing left of the document, and the goal converged. */
  method DeleteUntilGone(e: Engine, d: DocId, cacheIds: bool, ghost goal: Option<Goal>) returns (attempts: nat)
    requires d in e.rows.mem && Retryable(e.State(), d, goal, Scope(e.rows.mem[d]))
    requires e.up
    modifies e
    ensures Erased(e.State(), d, Scope(old(e.rows.mem[d]))) && Inv(e.State(), {})
    ensures goal.Some? ==> Converged(goal.value, e.State())
    ensures attempts + Faults(e.schedule) <= Faults(old(e.schedule)) + 1
  {
    ghost var gone := Scope(e.rows.mem[d]);
    attempts := 0;
    var done := false;
    while !done
      invariant Retryable(e.State(), d, goal, gone) && e.up
      invariant done ==> d !in e.rows.mem
      invariant attempts + Faults(e.schedule) <= Faults(old(e.schedule)) + if done then 1 else 0
      decreases if done then 0 else 1, Faults(e.schedule)
    {
      done := Retry(e, d, cacheIds, goal, gone);
      attempts := attempts + 1;
    }
  }

  // ----- A caller that keeps the row -----

  /** The reset of a document about to be extracted again: the journal and the chunk list go together,
      the graph-write marker stays. */
  function ResetRow(row: Row): Row {
    row.(purge := None, chunksList := [], chunksCount := 0)
  }

  function RowReset(w: World, d: DocId): World
    requires d in w.rows.mem
  {
    w.(rows := w.rows.UpsertDurable(d, ResetRow(w.rows.mem[d])))
  }

  lemma ResetKept(w: World, d: DocId, goal: Option<Goal>)
    requires At(w, d, goal, Completed) && w.rows.mem[d].custom == None
    ensures Kept(RowReset(w, d), Afterwards(goal))
  {
    var x := RowReset(w, d);
    CompletedWork(w, d, goal);
    forall o, c | Evidence(w, {}, o, c) && c.Chunk?
      ensures c.doc != d
    {
      if c.doc == d {
        ScopeOf(w, {}, d, o, c);
        assert false;
      }
    }
    RowWriteKeepsInv(w, x, {}, d, ResetRow(w.rows.mem[d]));
    CourseIgnoresRows(w, x, Afterwards(goal));
  }

  lemma StillSafe(w: World, k: Duty)
    requires Kept(w, k) && k.watch == {} && !k.open
    ensures Kept(w, Duty({}, false, None, {}, None, false, None))
  {
    NothingGoneIsSpared(w);
  }

  /** Purge, then reset: what re-processing a document under other options does first.  A crash between
      the two leaves a completed journal, which the next purge ignores or resumes. */
  method PurgeAndReset(e: Engine, d: DocId, ghost goal: Option<Goal>) returns (out: Outcome)
    requires d in e.rows.mem && Sound(e.State(), d, goal) && GoalMatches(e.State(), d, goal) && e.rows.mem[d].custom == None
    requires e.up
    modifies e
    ensures Kept(e.State(), Duty({}, false, None, {}, None, false, None)) && e.up
    ensures out == Done ==>
      && d in e.rows.mem && Kept(e.State(), Afterwards(goal))
      && e.rows.mem[d] == old(e.rows.mem[d]).(purge := None, chunksList := [], chunksCount := 0)
    ensures out.PurgeRefused? || out.PurgeConflict? ==> e.State() == old(e.State())
    ensures Spent(old(e.schedule), e.schedule, e.up, !out.Interrupted?)
  {
    ghost var skipped;
    out, skipped := PurgeDocument(e, d, goal);
    ghost var k := PurgeDuty(d, goal, e.rows.mem[d]);
    if out == Done {
      ResetKept(e.State(), d, goal);
      k := Afterwards(goal);
      var ok := e.Write(RowReset(e.State(), d), k);
      if !ok {
        out := Interrupted;
      }
    }
    StillSafe(e.State(), k);
    if !e.up {
      e.Crash(Duty({}, false, None, {}, None, false, None));
    }
  }
}
