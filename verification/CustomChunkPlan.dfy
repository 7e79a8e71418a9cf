/** What a custom-chunk call decides before it writes anything: its chunk ids, its mode, which chunks
    it stages, and which objects its merge may touch. */
module CustomChunkPlan {
  import opened Sequences
  import opened Stores
  import opened KnowledgeGraph
  import opened Classification

  /** Document-scoped ids of the non-empty texts, each once, in order. */
  function ChunkIds(d: DocId, texts: seq<string>): (r: seq<SourceId>)
    ensures forall c :: c in r <==> c.Chunk? && c.doc == d && c.key.Text? && c.key.text != "" && c.key.text in texts
    ensures forall i, j :: 0 <= i < j < |r| ==> r[i] != r[j]
  {
    if texts == [] then []
    else
      var front := ChunkIds(d, texts[..|texts| - 1]);
      var text := texts[|texts| - 1];
      assert texts == texts[..|texts| - 1] + [text];
      if text == "" || Chunk(d, Text(text)) in front then front else front + [Chunk(d, Text(text))]
  }

  /** The ids of texts, in order. */
  function IdsOf(d: DocId, texts: seq<string>): (r: seq<SourceId>)
    ensures |r| == |texts| && forall i :: 0 <= i < |r| ==> r[i] == Chunk(d, Text(texts[i]))
  {
    seq(|texts|, i requires 0 <= i < |texts| => Chunk(d, Text(texts[i])))
  }

  /** The ids keep the order in which the non-empty texts first occur. */
  lemma {:induction false} ChunkIdsInOrder(d: DocId, texts: seq<string>, filled: seq<string>)
    requires Without(filled, texts, {""})
    ensures FirstSeen(ChunkIds(d, texts), IdsOf(d, filled))
    decreases |texts|
  {
    if texts == [] {
      WithoutNothing(filled, {""});
      WithoutNone<SourceId>({});
      assert IdsOf(d, filled) == [];
    } else {
      var n := |texts| - 1;
      WithoutLast(filled, texts, {""});
      hide Without, FirstSeen;
      var front := Front(filled, Stays(texts[n], {""}));
      ChunkIdsInOrder(d, texts[..n], front);
      FirstSeenHolds(ChunkIds(d, texts[..n]), IdsOf(d, front));
      if texts[n] != "" {
        FirstSeenNext(ChunkIds(d, texts[..n]), IdsOf(d, front), Chunk(d, Text(texts[n])));
        assert IdsOf(d, filled) == IdsOf(d, front) + [Chunk(d, Text(texts[n]))];
      }
    }
  }

  /** The committed document already owns this content. */
  predicate Owns(chunks: map<SourceId, string>, base: seq<SourceId>, c: SourceId)
    requires c.Chunk? && c.key.Text?
  {
    exists b :: b in base && b in chunks && chunks[b] == c.key.text
  }

  /** Content-hash dedup against the committed chunks. */
  function Unowned(chunks: map<SourceId, string>, base: seq<SourceId>, operation: seq<SourceId>): (r: seq<SourceId>)
    requires forall c :: c in operation ==> c.Chunk? && c.key.Text?
    ensures forall c :: c in r <==> c in operation && !Owns(chunks, base, c)
    ensures base == [] ==> r == operation
  {
    if operation == [] then []
    else
      var front := Unowned(chunks, base, operation[..|operation| - 1]);
      var last := operation[|operation| - 1];
      assert operation == operation[..|operation| - 1] + [last];
      if Owns(chunks, base, last) then front else front + [last]
  }

  /** Dedup keeps the order of the operation. */
  lemma {:induction false} UnownedFilters(chunks: map<SourceId, string>, base: seq<SourceId>, operation: seq<SourceId>,
      owned: set<SourceId>)
    requires forall c :: c in operation ==> c.Chunk? && c.key.Text?
    requires forall c :: c in operation ==> (c in owned <==> Owns(chunks, base, c))
    ensures Without(Unowned(chunks, base, operation), operation, owned)
    decreases |operation|
  {
    if operation == [] {
      WithoutNone(owned);
    } else {
      var n := |operation| - 1;
      UnownedFilters(chunks, base, operation[..n], owned);
      WithoutNext(Unowned(chunks, base, operation[..n]), operation[..n], owned, operation[n]);
      assert operation[..n] + [operation[n]] == operation;
    }
  }

  datatype Admission = Rejected | AlreadyDone | Admitted(mode: Mode, staged: seq<SourceId>, resume: bool)

  /** Mode resolution: a document's unfinished operation must be retried as it was; a processed
      document is patched with what it does not own yet; an unknown one is created. */
  function Admit(row: Option<Row>, chunks: map<SourceId, string>, operation: seq<SourceId>, bodyStored: bool): Admission
    requires forall c :: c in operation ==> c.Chunk? && c.key.Text?
  {
    if row.None? then
      if bodyStored then AlreadyDone else Admitted(Create, operation, false)
    else
      var r := row.value;
      if r.custom.Some? then
        if r.custom.value.operation != operation then Rejected
        else if r.custom.value.mode == Patch then Admitted(Patch, Unowned(chunks, r.chunksList, operation), true)
        else Admitted(Create, operation, true)
      else if r.status != Processed then Rejected
      else
        var staged := Unowned(chunks, r.chunksList, operation);
        if staged == [] then AlreadyDone else Admitted(Patch, staged, false)
  }

  /** The mode table.  A document with an unfinished operation accepts that operation only, in its own
      mode; without one, a processed document is patched and any other is refused; an unknown document is
      created unless its body is already there.  A patch whose content is all committed has nothing to do,
      unless it resumes. */
  lemma AdmitTable(row: Option<Row>, chunks: map<SourceId, string>, operation: seq<SourceId>, bodyStored: bool,
      owned: set<SourceId>)
    requires forall c :: c in operation ==> c.Chunk? && c.key.Text?
    requires forall c :: c in operation ==> (c in owned <==> row.Some? && Owns(chunks, row.value.chunksList, c))
    ensures
      var a := Admit(row, chunks, operation, bodyStored);
      && (a.Rejected? <==>
            if row.None? then false
            else if row.value.custom.Some? then row.value.custom.value.operation != operation
            else row.value.status != Processed)
      && (a.AlreadyDone? <==>
            if row.None? then bodyStored
            else row.value.custom == None && row.value.status == Processed && forall c :: c in operation ==> c in owned)
      && (a.Admitted? ==>
            && (a.resume <==> row.Some? && row.value.custom.Some?)
            && a.mode == (if row.None? then Create else if row.value.custom.Some? then row.value.custom.value.mode else Patch)
            && (a.mode == Create ==> a.staged == operation)
            && (a.mode == Patch ==> Without(a.staged, operation, owned)))
  {
    if row.Some? {
      UnownedFilters(chunks, row.value.chunksList, operation, owned);
      NoneUnowned(chunks, row.value.chunksList, operation, owned);
    }
    hide Unowned, Owns, Without;
  }

  lemma NoneUnowned(chunks: map<SourceId, string>, base: seq<SourceId>, operation: seq<SourceId>, owned: set<SourceId>)
    requires forall c :: c in operation ==> c.Chunk? && c.key.Text?
    requires forall c :: c in operation ==> (c in owned <==> Owns(chunks, base, c))
    ensures Unowned(chunks, base, operation) == [] <==> forall c :: c in operation ==> c in owned
  {
    var staged := Unowned(chunks, base, operation);
    assert staged != [] ==> staged[0] in staged;
  }

  // ----- Extraction and merge candidates -----

  /** What extraction reports for each chunk; a resumed operation may get a different sample. */
  type Sample = map<SourceId, set<Obj>>

  predicate Reports(found: set<Obj>, o: Obj) {
    || o in found
    || (o.Node? && exists e :: e in found && e.Edge? && (e.src == o.name || e.tgt == o.name))
  }

  /** The chunks that mention `o`, an extracted relation counting for its endpoints. */
  function Mentions(sample: Sample, staged: seq<SourceId>, o: Obj): (r: seq<SourceId>)
    ensures forall c :: c in r <==> c in staged && c in sample && Reports(sample[c], o)
  {
    if staged == [] then []
    else
      var front := Mentions(sample, staged[..|staged| - 1], o);
      var last := staged[|staged| - 1];
      assert staged == staged[..|staged| - 1] + [last];
      if last in sample && Reports(sample[last], o) then front + [last] else front
  }

  function Endpoints(found: set<Obj>): (r: set<Obj>)
    ensures forall o :: o in r <==> o.Node? && exists e :: e in found && e.Edge? && (e.src == o.name || e.tgt == o.name)
  {
    var sources := set e | e in found && e.Edge? :: Node(e.src);
    var targets := set e | e in found && e.Edge? :: Node(e.tgt);
    assert forall e :: e in found && e.Edge? ==> Node(e.src) in sources && Node(e.tgt) in targets;
    sources + targets
  }

  /** Every object the merge may write. */
  function MergeCandidates(sample: Sample, staged: seq<SourceId>): (r: set<Obj>)
    ensures forall o :: o in r <==> exists c :: c in staged && c in sample && Reports(sample[c], o)
  {
    if staged == [] then {}
    else
      var front := MergeCandidates(sample, staged[..|staged| - 1]);
      var last := staged[|staged| - 1];
      assert staged == staged[..|staged| - 1] + [last];
      if last in sample then front + sample[last] + Endpoints(sample[last]) else front
  }

  /** The candidates are exactly the objects some staged chunk contributes to. */
  lemma CandidatesAreMentioned(sample: Sample, staged: seq<SourceId>, o: Obj)
    ensures o in MergeCandidates(sample, staged) <==> Mentions(sample, staged, o) != []
  {
    if o in MergeCandidates(sample, staged) {
      var c :| c in staged && c in sample && Reports(sample[c], o);
      assert c in Mentions(sample, staged, o);
    }
    if Mentions(sample, staged, o) != [] {
      assert Mentions(sample, staged, o)[0] in Mentions(sample, staged, o);
    }
  }

  /** Order-preserving union. */
  function Union(ids: seq<SourceId>, more: seq<SourceId>): (r: seq<SourceId>)
    ensures forall c :: c in r <==> c in ids || c in more
    ensures ids <= r
  {
    if more == [] then ids
    else
      var front := Union(ids, more[..|more| - 1]);
      var last := more[|more| - 1];
      assert more == more[..|more| - 1] + [last];
      if last in front then front else front + [last]
  }

  /** What is appended are the new members, each once, in order. */
  lemma {:induction false} UnionAppends(ids: seq<SourceId>, more: seq<SourceId>, known: set<SourceId>,
      novel: seq<SourceId>)
    requires (forall c :: c in known <==> c in ids) && Without(novel, more, known)
    ensures FirstSeen(Union(ids, more)[|ids|..], novel)
    decreases |more|
  {
    if more == [] {
      WithoutNothing(novel, known);
      WithoutNone<SourceId>({});
      assert ids[|ids|..] == [];
    } else {
      var n := |more| - 1;
      WithoutLast(novel, more, known);
      WithoutHolds(Front(novel, Stays(more[n], known)), more[..n], known);
      hide Without, FirstSeen;
      var front := Front(novel, Stays(more[n], known));
      UnionAppends(ids, more[..n], known, front);
      UnionAppendsOne(ids, more, known, front);
      if more[n] !in known {
        FirstSeenNext(Union(ids, more[..n])[|ids|..], front, more[n]);
        assert novel == front + [more[n]];
      }
    }
  }

  lemma UnionAppendsOne(ids: seq<SourceId>, more: seq<SourceId>, known: set<SourceId>, front: seq<SourceId>)
    requires more != [] && forall c :: c in known <==> c in ids
    requires forall c :: c in front <==> c in more[..|more| - 1] && c !in known
    ensures
      var n := |more| - 1;
      var added := Union(ids, more[..n])[|ids|..];
      Union(ids, more)[|ids|..] == if more[n] in known || more[n] in front then added else added + [more[n]]
  {
    var n := |more| - 1;
    UnionStep(ids, more);
    var before := Union(ids, more[..n]);
    assert ids <= before;
    hide Union;
    var x := more[n];
    assert x in ids || x in more[..n] <==> x in known || x in front;
    SliceAfter(ids, before, x);
  }

  lemma SliceAfter(ids: seq<SourceId>, before: seq<SourceId>, x: SourceId)
    requires ids <= before
    ensures (before + [x])[|ids|..] == before[|ids|..] + [x]
  {
  }

  lemma UnionStep(ids: seq<SourceId>, more: seq<SourceId>)
    requires more != []
    ensures
      var n := |more| - 1;
      var before := Union(ids, more[..n]);
      Union(ids, more) == if more[n] in ids || more[n] in more[..n] then before else before + [more[n]]
  {
  }

  lemma {:induction false} MentionsFilter(sample: Sample, staged: seq<SourceId>, o: Obj, silent: set<SourceId>)
    requires forall c :: c in staged ==> (c in silent <==> !(c in sample && Reports(sample[c], o)))
    ensures Without(Mentions(sample, staged, o), staged, silent)
    decreases |staged|
  {
    if staged == [] {
      WithoutNone(silent);
    } else {
      var n := |staged| - 1;
      MentionsFilter(sample, staged[..n], o, silent);
      WithoutNext(Mentions(sample, staged[..n], o), staged[..n], silent, staged[n]);
      assert staged[..n] + [staged[n]] == staged;
    }
  }

  /** The chunk is on the object's tracking row, or, where there is no row at all, on its graph list. */
  predicate EarlierSource(tracking: map<Obj, seq<SourceId>>, graph: map<Obj, seq<SourceId>>, o: Obj, c: SourceId) {
    if o in tracking then c in tracking[o] else Lists(graph, o, c)
  }

  /** The full source list a merge writes: the tracking row where there is one, even an empty one,
      else the graph's own list; then the new chunks. */
  function MergedSources(tracking: map<Obj, seq<SourceId>>, graph: map<Obj, seq<SourceId>>, o: Obj,
      more: seq<SourceId>): (r: seq<SourceId>)
    ensures forall c :: c in r <==> c in more || (EarlierSource(tracking, graph, o, c) && c !in NoEvidence(o))
  {
    var existing := if o in tracking then tracking[o] else if o in graph then graph[o] else [];
    Union(Evidential(o, existing), more)
  }

  /** What the merge of a sample must make of `o`: its evidential earlier sources first, in their order, then
      the staged chunks that mention it and are not among them, each once, in the order of staging. */
  ghost predicate MergedInOrder(r: seq<SourceId>, earlier: seq<SourceId>, o: Obj, sample: Sample,
      staged: seq<SourceId>) {
    exists kept: seq<SourceId>, novel: seq<SourceId> ::
      && kept <= r && Without(kept, earlier, NoEvidence(o)) && FirstSeen(r[|kept|..], novel)
      && Without(novel, staged, set c | c in staged && (c in kept || !(c in sample && Reports(sample[c], o))))
  }

  lemma MergedSourcesInOrder(tracking: map<Obj, seq<SourceId>>, graph: map<Obj, seq<SourceId>>, o: Obj, sample: Sample,
      staged: seq<SourceId>)
    ensures
      var earlier := if o in tracking then tracking[o] else if o in graph then graph[o] else [];
      MergedInOrder(MergedSources(tracking, graph, o, Mentions(sample, staged, o)), earlier, o, sample, staged)
  {
    var earlier := if o in tracking then tracking[o] else if o in graph then graph[o] else [];
    var kept := Evidential(o, earlier);
    var more := Mentions(sample, staged, o);
    var silent := set c | c in staged && !(c in sample && Reports(sample[c], o));
    var known := set c | c in kept;
    EvidentialFilters(o, earlier);
    MentionsFilter(sample, staged, o, silent);
    var novel := Filter(more, known);
    WithoutTwice(novel, more, staged, silent, known);
    UnionAppends(kept, more, known, novel);
    SameFilter(novel, staged, silent + known, set c | c in staged && (c in kept || !(c in sample && Reports(sample[c], o))));
  }

  lemma SameFilter(r: seq<SourceId>, ids: seq<SourceId>, a: set<SourceId>, b: set<SourceId>)
    requires Without(r, ids, a) && forall c :: c in ids ==> (c in a <==> c in b)
    ensures Without(r, ids, b)
  {
  }

  ghost function Filter(ids: seq<SourceId>, dropped: set<SourceId>): (r: seq<SourceId>)
    ensures Without(r, ids, dropped)
  {
    SubtractFilters(ids, dropped);
    Subtract(ids, dropped)
  }
}
