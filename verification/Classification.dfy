/** How a purge classifies one candidate from its tracking row and its graph `source_id`. */
module Classification {
  import opened Sequences
  import opened KnowledgeGraph

  datatype Policy = BestEffort | RollbackPolicy

  datatype Verdict = Drop | Rebuild(remaining: seq<SourceId>) | Keep

  const NO_EVIDENCE_TAGS: set<string> := {"manual_creation", "UNKNOWN"}

  /** Order-preserving removal. */
  function Subtract(ids: seq<SourceId>, gone: set<SourceId>): (r: seq<SourceId>)
    ensures forall c :: c in r <==> c in ids && c !in gone
    ensures r == ids <==> forall c :: c in ids ==> c !in gone
    ensures |r| <= |ids|
  {
    if ids == [] then []
    else
      var rest := Subtract(ids[1..], gone);
      assert ids == [ids[0]] + ids[1..];
      if ids[0] in gone then rest else [ids[0]] + rest
  }

  /** The sources a tracking row keeps: relations drop the no-evidence placeholders. */
  function Evidential(o: Obj, ids: seq<SourceId>): (r: seq<SourceId>)
    ensures forall c :: c in r <==> c in ids && (o.Edge? && c.Placeholder? ==> c.tag !in NO_EVIDENCE_TAGS)
    ensures |r| <= |ids|
  {
    if ids == [] then []
    else
      var rest := Evidential(o, ids[1..]);
      assert ids == [ids[0]] + ids[1..];
      if o.Edge? && ids[0].Placeholder? && ids[0].tag in NO_EVIDENCE_TAGS then rest else [ids[0]] + rest
  }

  /** The placeholders that are no evidence for a relation. */
  function NoEvidence(o: Obj): set<SourceId> {
    if o.Edge? then {Placeholder("manual_creation"), Placeholder("UNKNOWN")} else {}
  }

  lemma {:induction false} SubtractFilters(ids: seq<SourceId>, gone: set<SourceId>)
    ensures Without(Subtract(ids, gone), ids, gone)
  {
    hide Without;
    if ids == [] {
      WithoutNone(gone);
    } else {
      SubtractFilters(ids[1..], gone);
      WithoutOne(ids[0], gone);
      var first := if ids[0] in gone then [] else [ids[0]];
      WithoutConcat(first, [ids[0]], Subtract(ids[1..], gone), ids[1..], gone);
      assert [ids[0]] + ids[1..] == ids && Subtract(ids, gone) == first + Subtract(ids[1..], gone);
    }
  }

  lemma {:induction false} EvidentialFilters(o: Obj, ids: seq<SourceId>)
    ensures Without(Evidential(o, ids), ids, NoEvidence(o))
  {
    hide Without, NoEvidence;
    if ids == [] {
      WithoutNone(NoEvidence(o));
    } else {
      EvidentialFilters(o, ids[1..]);
      WithoutOne(ids[0], NoEvidence(o));
      var first := if ids[0] in NoEvidence(o) then [] else [ids[0]];
      WithoutConcat(first, [ids[0]], Evidential(o, ids[1..]), ids[1..], NoEvidence(o));
      EvidentialStep(o, ids);
      assert [ids[0]] + ids[1..] == ids;
    }
  }

  lemma EvidentialStep(o: Obj, ids: seq<SourceId>)
    requires ids != []
    ensures Evidential(o, ids) == (if ids[0] in NoEvidence(o) then [] else [ids[0]]) + Evidential(o, ids[1..])
  {
  }

  /** What a rebuild keeps of an object's owners: those not purged that are evidence, in order. */
  lemma RemainingFilters(o: Obj, ids: seq<SourceId>, gone: set<SourceId>)
    ensures Without(Evidential(o, Subtract(ids, gone)), ids, gone + NoEvidence(o))
  {
    SubtractFilters(ids, gone);
    EvidentialFilters(o, Subtract(ids, gone));
    WithoutTwice(Evidential(o, Subtract(ids, gone)), Subtract(ids, gone), ids, gone, NoEvidence(o));
  }

  lemma {:induction false} EvidentialIdempotent(o: Obj, ids: seq<SourceId>)
    ensures Evidential(o, Evidential(o, ids)) == Evidential(o, ids)
  {
    if ids != [] {
      EvidentialIdempotent(o, ids[1..]);
    }
  }

  lemma {:induction false} SubtractEvidential(o: Obj, ids: seq<SourceId>, gone: set<SourceId>)
    ensures Subtract(Evidential(o, ids), gone) == Evidential(o, Subtract(ids, gone))
  {
    if ids != [] {
      SubtractEvidential(o, ids[1..], gone);
    }
  }

  /** Ownership: the tracking row, or the graph's own list when the row is absent or empty. */
  function Owners(tracked: seq<SourceId>, sources: seq<SourceId>): seq<SourceId> {
    if tracked != [] then tracked else sources
  }

  predicate Touches(ids: seq<SourceId>, gone: set<SourceId>) {
    exists c :: c in ids && c in gone
  }

  function Classify(tracked: seq<SourceId>, sources: seq<SourceId>, gone: set<SourceId>, policy: Policy): Verdict {
    var existing := Owners(tracked, sources);
    if existing == [] then Drop
    else
      var remaining := Subtract(existing, gone);
      if remaining == [] then Drop
      else if remaining != existing || Touches(sources, gone) || policy == RollbackPolicy then Rebuild(remaining)
      else Keep
  }

  /** `r` is as much of `ids` as the limit allows, from the configured end. */
  predicate LimitedTo(r: seq<SourceId>, ids: seq<SourceId>, max: nat, keepNewest: bool) {
    && |r| == (if |ids| < max then |ids| else max)
    && (if keepNewest then r == ids[|ids| - |r|..] else r <= ids)
  }

  /** The graph's own list is a truncated view of the tracking row. */
  function Limit(ids: seq<SourceId>, max: nat, keepNewest: bool): (r: seq<SourceId>)
    ensures LimitedTo(r, ids, max, keepNewest)
    ensures |ids| <= max ==> r == ids
    ensures forall c :: c in r ==> c in ids
  {
    if max == 0 then []
    else if |ids| <= max then ids
    else if keepNewest then ids[|ids| - max..]
    else ids[..max]
  }

  /** A candidate goes exactly when no owner survives; it is left alone exactly when, under the
      ordinary policy, neither its owners nor its graph list mention a purged chunk. */
  lemma ClassifyIsExact(tracked: seq<SourceId>, sources: seq<SourceId>, gone: set<SourceId>, policy: Policy)
    ensures
      var owners := Owners(tracked, sources);
      var verdict := Classify(tracked, sources, gone, policy);
      && (verdict.Drop? <==> forall c :: c in owners ==> c in gone)
      && (verdict.Keep? <==> policy == BestEffort && owners != [] && !Touches(owners, gone) && !Touches(sources, gone))
      && (verdict.Rebuild? ==> verdict.remaining != [] && verdict.remaining == Subtract(owners, gone))
  {
    var owners := Owners(tracked, sources);
    var remaining := Subtract(owners, gone);
    if owners != [] && remaining == [] {
      forall c | c in owners
        ensures c in gone
      {
        assert c !in remaining;
      }
    }
    if remaining != [] {
      assert remaining[0] in owners && remaining[0] !in gone;
    }
    if owners != [] {
      assert owners[0] in owners;
    }
  }

  /** Ownership is not the union of the two lists.  Evidence that only the graph names is lost with
      the object exactly when the tracking row is non-empty, wholly purged, and the graph list is not. */
  lemma DropLosesEvidenceIff(tracked: seq<SourceId>, sources: seq<SourceId>, gone: set<SourceId>, policy: Policy)
    ensures
      (Classify(tracked, sources, gone, policy).Drop? && exists c :: (c in tracked || c in sources) && c !in gone) <==>
      (tracked != [] && (forall c :: c in tracked ==> c in gone) && exists c :: c in sources && c !in gone)
  {
    ClassifyIsExact(tracked, sources, gone, policy);
  }
}
