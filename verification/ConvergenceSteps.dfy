/** Every write of a derived pass, and every buffering event, keeps the purge on course. */
module ConvergenceSteps {
  import opened Stores
  import opened KnowledgeGraph
  import opened Classification
  import opened DerivedPass
  import opened Convergence

  /** Each view of `x` shows for `o` what some view of `w` showed. */
  predicate Mixed(w: World, x: World, o: Obj) {
    && (Get(x.graph.mem, o) == Get(w.graph.mem, o) || Get(x.graph.mem, o) == Get(w.graph.disk, o))
    && (Get(x.graph.disk, o) == Get(w.graph.mem, o) || Get(x.graph.disk, o) == Get(w.graph.disk, o))
    && (Get(x.tracking.mem, o) == Get(w.tracking.mem, o) || Get(x.tracking.mem, o) == Get(w.tracking.disk, o))
    && (Get(x.tracking.disk, o) == Get(w.tracking.mem, o) || Get(x.tracking.disk, o) == Get(w.tracking.disk, o))
  }

  lemma MixedKeepsCandidate(g: Goal, w: World, x: World, o: Obj)
    requires Mixed(w, x, o) && CandidateOk(g, w, o)
    ensures CandidateOk(g, x, o)
  {
    hide Survivors, Owned, Subtract, Evidential;
  }

  lemma BufferingKeepsObject(g: Goal, w: World, x: World, o: Obj)
    requires ObjOk(g, w, o) && RemixWorld(w, x)
    ensures ObjOk(g, x, o)
  {
    RemixAt(w.graph, x.graph, o);
    RemixAt(w.tracking, x.tracking, o);
    hide CandidateOk, RemixWorld;
    if o in g.candidates {
      MixedKeepsCandidate(g, w, x, o);
    }
  }

  lemma BufferingKeepsCourse(g: Goal, w: World, x: World)
    requires OnCourse(g, w) && RemixWorld(w, x)
    ensures OnCourse(g, x)
    ensures Converged(g, w) ==> Converged(g, x)
  {
    forall o
      ensures ObjOk(g, x, o)
    {
      BufferingKeepsObject(g, w, x, o);
    }
    if Converged(g, w) {
      forall o | o in g.candidates && (o in x.graph.mem || o in x.graph.disk)
        ensures Survivors(g, o) != []
        ensures o in x.graph.mem ==> forall c :: c in x.graph.mem[o] ==> c !in g.gone
        ensures o in x.graph.disk ==> forall c :: c in x.graph.disk[o] ==> c !in g.gone
      {
        RemixAt(w.graph, x.graph, o);
      }
    }
  }

  /** However far earlier passes got, the next analysis reaches the original verdicts. */
  lemma PlanMatchesGoal(g: Goal, w: World, policy: Policy, o: Obj)
    requires OnCourse(g, w) && o in g.candidates && o in w.graph.mem
    ensures VerdictOn(w, o, g.gone, policy).Drop? <==> Doomed(g, o)
    ensures VerdictOn(w, o, g.gone, policy).Rebuild? ==>
      Evidential(o, VerdictOn(w, o, g.gone, policy).remaining) == Survivors(g, o)
    ensures VerdictOn(w, o, g.gone, policy).Keep? ==>
      forall c :: c in w.graph.mem[o] ==> c !in g.gone
  {
    assert ObjOk(g, w, o);
    var tracked, sources := TrackedIn(w.tracking.mem, o), w.graph.mem[o];
    ClassifyIsExact(tracked, sources, g.gone, policy);
    if !Doomed(g, o) {
      assert Evidential(o, Subtract(Owners(tracked, sources), g.gone)) == Survivors(g, o);
      var kept := Survivors(g, o)[0];
      assert kept in Survivors(g, o);
      assert kept in Owners(tracked, sources) && kept !in g.gone;
    }
  }

  lemma SurvivorsAreStable(g: Goal, o: Obj)
    ensures Evidential(o, Subtract(Survivors(g, o), g.gone)) == Survivors(g, o)
  {
    var rest := Subtract(Owned(g, o), g.gone);
    SubtractEvidential(o, rest, g.gone);
    EvidentialIdempotent(o, rest);
  }

  /** Writing what survives into the tracking rows of surviving candidates. */
  lemma TrackingWriteKeepsCourse(g: Goal, w: World, x: World, updates: map<Obj, seq<SourceId>>)
    requires OnCourse(g, w)
    requires x == w.(tracking := w.tracking.Upsert(updates))
    requires forall o :: o in updates ==>
      o in g.candidates && o in g.graph0 && Survivors(g, o) != [] && updates[o] == Survivors(g, o)
    ensures OnCourse(g, x)
  {
    forall o
      ensures ObjOk(g, x, o)
    {
      assert ObjOk(g, w, o);
      if o in updates {
        SurvivorsAreStable(g, o);
        SurvivorRewritten(g, w, x, o);
      } else {
        assert Get(x.tracking.mem, o) == Get(w.tracking.mem, o);
      }
    }
  }

  lemma SurvivorRewritten(g: Goal, w: World, x: World, o: Obj)
    requires ObjOk(g, w, o) && o in g.candidates && o in g.graph0 && Survivors(g, o) != []
    requires x.graph == w.graph && x.tracking.disk == w.tracking.disk
    requires o in x.tracking.mem && x.tracking.mem[o] == Survivors(g, o)
    requires Evidential(o, Subtract(Survivors(g, o), g.gone)) == Survivors(g, o)
    ensures ObjOk(g, x, o)
  {
  }

  /** Removing doomed candidates and the relations that go with them. */
  lemma RemovalKeepsCourse(g: Goal, w: World, x: World, objects: set<Obj>, rows: set<Obj>)
    requires OnCourse(g, w)
    requires x == w.(graph := w.graph.Delete(objects), tracking := w.tracking.Delete(rows))
    requires forall o :: o in objects + rows ==> Doomed(g, o) || Collateral(g, o)
    ensures OnCourse(g, x)
  {
    forall o
      ensures ObjOk(g, x, o)
    {
      assert ObjOk(g, w, o);
    }
  }

  /** Rebuilding a surviving candidate once its tracking row is durable. */
  lemma RebuildKeepsCourse(g: Goal, w: World, x: World, o: Obj, sources: seq<SourceId>)
    requires OnCourse(g, w)
    requires x == w.(graph := w.graph.Put(o, sources))
    requires o in g.candidates && o in g.graph0 && Survivors(g, o) != []
    requires forall c :: c in sources ==> c in Survivors(g, o)
    requires TrackedIn(w.tracking.mem, o) != [] && TrackedIn(w.tracking.disk, o) != []
    ensures OnCourse(g, x)
  {
    forall p
      ensures ObjOk(g, x, p)
    {
      assert ObjOk(g, w, p);
    }
  }
}
