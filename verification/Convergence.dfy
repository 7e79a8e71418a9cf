/** Interrupted derived passes converge.

  A goal fixes the graph and tracking rows a purge started from.  `OnCourse` holds after any number
  of interrupted passes, whatever subset of the buffered writes became durable; `Converged` holds
  once a pass has run to its end.
 */
module Convergence {
  import opened Stores
  import opened KnowledgeGraph
  import opened Classification
  import opened DerivedPass

  datatype Goal = Goal(
    gone: set<SourceId>,
    candidates: set<Obj>,
    graph0: map<Obj, seq<SourceId>>,
    tracking0: map<Obj, seq<SourceId>>)

  function Owned(g: Goal, o: Obj): seq<SourceId> {
    if o in g.graph0 then Owners(TrackedIn(g.tracking0, o), g.graph0[o]) else []
  }

  function Survivors(g: Goal, o: Obj): seq<SourceId> {
    Evidential(o, Subtract(Owned(g, o), g.gone))
  }

  predicate Doomed(g: Goal, o: Obj) {
    o in g.candidates && o in g.graph0 && Survivors(g, o) == []
  }

  /** A relation that a doomed endpoint takes with it. */
  predicate Collateral(g: Goal, o: Obj) {
    o.Edge? && (Doomed(g, Node(o.src)) || Doomed(g, Node(o.tgt)))
  }

  /** What the purge assumes about where it started. */
  ghost predicate GoalOk(g: Goal) {
    // a non-empty tracking row covers the graph's truncated view
    && (forall o, c :: o in g.candidates && Lists(g.graph0, o, c) && TrackedIn(g.tracking0, o) != [] ==>
          c in TrackedIn(g.tracking0, o))
    // no candidate survives on no-evidence placeholders alone
    && (forall o :: o in g.candidates && Survivors(g, o) == [] ==> Subtract(Owned(g, o), g.gone) == [])
    // no relation outlives a doomed endpoint
    && (forall o :: o in g.candidates && Collateral(g, o) ==> Survivors(g, o) == [])
  }

  /** A relation's owners are owners of each endpoint. */
  ghost predicate Covered(g: Goal, e: Obj) {
    e.Edge? ==> forall c :: c in Owned(g, e) ==> c in Owned(g, Node(e.src)) && c in Owned(g, Node(e.tgt))
  }

  /** Endpoint coverage gives the last assumption, and a relation removed with a doomed endpoint
      loses no surviving evidence, candidate or not. */
  lemma CoverageSparesEvidence(g: Goal, e: Obj)
    requires Covered(g, e) && Collateral(g, e)
    requires forall o :: o in g.candidates && Survivors(g, o) == [] ==> Subtract(Owned(g, o), g.gone) == []
    ensures forall c :: c in Owned(g, e) ==> c in g.gone
    ensures Survivors(g, e) == []
  {
    var n := if Doomed(g, Node(e.src)) then Node(e.src) else Node(e.tgt);
    assert Subtract(Owned(g, n), g.gone) == [];
    forall c | c in Owned(g, e)
      ensures c in g.gone
    {
      assert c in Owned(g, n);
      assert c !in Subtract(Owned(g, n), g.gone);
    }
    assert forall c :: c in Survivors(g, e) ==> c in Subtract(Owned(g, e), g.gone);
    assert |Survivors(g, e)| > 0 ==> Survivors(g, e)[0] in Survivors(g, e);
  }

  /** A doomed candidate only ever lists purged chunks. */
  predicate DoomedOk(g: Goal, ids: seq<SourceId>) {
    forall c :: c in ids ==> c in g.gone
  }

  /** A surviving candidate's tracking row is untouched, or already holds what survives. */
  predicate SurvivorRow(g: Goal, w: World, o: Obj, tracked: seq<SourceId>)
    requires o in g.graph0 && o in w.graph.mem && o in w.graph.disk
  {
    if tracked == [] then
      TrackedIn(g.tracking0, o) == [] && w.graph.mem[o] == g.graph0[o] && w.graph.disk[o] == g.graph0[o]
    else
      Evidential(o, Subtract(tracked, g.gone)) == Survivors(g, o)
  }

  predicate CandidateOk(g: Goal, w: World, o: Obj) {
    if o !in g.graph0 then
      o !in w.graph.mem && o !in w.graph.disk
    else if Survivors(g, o) == [] then
      && DoomedOk(g, TrackedIn(w.graph.mem, o)) && DoomedOk(g, TrackedIn(w.graph.disk, o))
      && DoomedOk(g, TrackedIn(w.tracking.mem, o)) && DoomedOk(g, TrackedIn(w.tracking.disk, o))
    else
      && o in w.graph.mem && o in w.graph.disk
      && (forall c :: c in w.graph.mem[o] ==> c in Owned(g, o))
      && (forall c :: c in w.graph.disk[o] ==> c in Owned(g, o))
      && SurvivorRow(g, w, o, TrackedIn(w.tracking.mem, o))
      && SurvivorRow(g, w, o, TrackedIn(w.tracking.disk, o))
  }

  predicate BystanderOk(g: Goal, w: World, o: Obj) {
    && Get(w.graph.mem, o) == Get(g.graph0, o) && Get(w.graph.disk, o) == Get(g.graph0, o)
    && Get(w.tracking.mem, o) == Get(g.tracking0, o) && Get(w.tracking.disk, o) == Get(g.tracking0, o)
  }

  predicate ObjOk(g: Goal, w: World, o: Obj) {
    && (o in g.candidates ==> CandidateOk(g, w, o))
    && (o !in g.candidates && !Collateral(g, o) ==> BystanderOk(g, w, o))
  }

  ghost predicate OnCourse(g: Goal, w: World) {
    GoalOk(g) && forall o :: ObjOk(g, w, o)
  }

  ghost predicate Finished(g: Goal, m: map<Obj, seq<SourceId>>) {
    forall o :: o in g.candidates && o in m ==>
      Survivors(g, o) != [] && forall c :: c in m[o] ==> c !in g.gone
  }

  ghost predicate Converged(g: Goal, w: World) {
    OnCourse(g, w) && Finished(g, w.graph.mem) && Finished(g, w.graph.disk)
  }

  /** The course depends on the graph and the tracking rows only. */
  lemma OnCourseOfDerived(g: Goal, w: World, x: World)
    requires x.graph == w.graph && x.tracking == w.tracking
    ensures OnCourse(g, w) ==> OnCourse(g, x)
    ensures Converged(g, w) ==> Converged(g, x)
  {
    if OnCourse(g, w) {
      forall o
        ensures ObjOk(g, x, o)
      {
        assert ObjOk(g, w, o);
      }
    }
  }

  /** The starting point is on course, whatever its candidates. */
  lemma StartIsOnCourse(g: Goal, w: World)
    requires GoalOk(g)
    requires w.graph.mem == w.graph.disk == g.graph0
    requires w.tracking.mem == w.tracking.disk == g.tracking0
    ensures OnCourse(g, w)
  {
    forall o
      ensures ObjOk(g, w, o)
    {
      if o in g.candidates && o in g.graph0 {
        if Survivors(g, o) == [] {
          forall c | c in Owned(g, o)
            ensures c in g.gone
          {
            assert c !in Subtract(Owned(g, o), g.gone);
          }
          forall c | c in g.graph0[o]
            ensures c in g.gone
          {
            assert Lists(g.graph0, o, c);
            assert c in Owned(g, o);
          }
        } else {
          forall c | c in g.graph0[o]
            ensures c in Owned(g, o)
          {
            assert Lists(g.graph0, o, c);
          }
        }
      }
    }
  }

  /** A candidate's graph list holds surviving owners only, and its owners are exactly the survivors. */
  ghost predicate ListsSurvivors(g: Goal, o: Obj, sources: seq<SourceId>, tracked: seq<SourceId>) {
    && (forall c :: c in sources ==> c in Owned(g, o) && c !in g.gone)
    && Evidential(o, Subtract(Owners(tracked, sources), g.gone)) == Survivors(g, o)
  }

  /** A candidate has a survivor exactly when some owner is not purged. */
  lemma SurvivesIff(g: Goal, o: Obj)
    requires GoalOk(g) && o in g.candidates
    ensures Survivors(g, o) != [] <==> exists c :: c in Owned(g, o) && c !in g.gone
  {
    var rest := Subtract(Owned(g, o), g.gone);
    if Survivors(g, o) == [] {
      assert rest == [];
      forall c | c in Owned(g, o)
        ensures c in g.gone
      {
        assert c !in rest;
      }
    } else {
      assert Survivors(g, o)[0] in Survivors(g, o);
      assert Survivors(g, o)[0] in rest;
    }
  }

  /** In one view. */
  lemma SurvivorLists(g: Goal, w: World, o: Obj, sources: seq<SourceId>, tracked: seq<SourceId>)
    requires o in g.graph0 && o in w.graph.mem && o in w.graph.disk && SurvivorRow(g, w, o, tracked)
    requires sources == w.graph.mem[o] || sources == w.graph.disk[o]
    requires forall c :: c in sources ==> c in Owned(g, o) && c !in g.gone
    ensures ListsSurvivors(g, o, sources, tracked)
  {
  }

  /** Once converged, a candidate exists exactly when an owner survives, lists no purged chunk, and
      is owned by exactly the surviving owners, in order; everything else is as it was. */
  lemma ConvergedMeans(g: Goal, w: World, o: Obj)
    requires Converged(g, w)
    ensures o in g.candidates ==>
      && (o in w.graph.mem <==> exists c :: c in Owned(g, o) && c !in g.gone)
      && (o in w.graph.disk <==> exists c :: c in Owned(g, o) && c !in g.gone)
      && (o in w.graph.mem ==> ListsSurvivors(g, o, w.graph.mem[o], TrackedIn(w.tracking.mem, o)))
      && (o in w.graph.disk ==> ListsSurvivors(g, o, w.graph.disk[o], TrackedIn(w.tracking.disk, o)))
    ensures o !in g.candidates && !Collateral(g, o) ==>
      && Get(w.graph.mem, o) == Get(w.graph.disk, o) == Get(g.graph0, o)
      && Get(w.tracking.mem, o) == Get(w.tracking.disk, o) == Get(g.tracking0, o)
  {
    assert ObjOk(g, w, o);
    if o in g.candidates {
      SurvivesIff(g, o);
      hide Survivors, Owned;
      if o in w.graph.mem {
        SurvivorLists(g, w, o, w.graph.mem[o], TrackedIn(w.tracking.mem, o));
      }
      if o in w.graph.disk {
        SurvivorLists(g, w, o, w.graph.disk[o], TrackedIn(w.tracking.disk, o));
      }
    }
  }
}
