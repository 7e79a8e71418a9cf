/** Token-limit truncation records: the tally an attempt keeps, the bounded payload persisted in
    the document row, and the merge of two payloads.
 */
module Truncation {
  import opened Sequences
  import opened Stores

  /** One truncated response: the stage that saw it and the chunk id or entity name it hit. */
  datatype Event = Event(stage: string, subject: string)

  const SAMPLE_LIMIT: nat := 10

  /** `stages` counts events per stage; `omitted` is zero when the key is absent. */
  datatype Payload = Payload(events: nat, affected: int, stages: multiset<string>, samples: seq<string>, omitted: nat)

  /** First-seen order, each value once. */
  function Dedup(xs: seq<string>): (r: seq<string>)
    ensures forall x :: x in r <==> x in xs
    ensures forall i, j :: 0 <= i < j < |r| ==> r[i] != r[j]
    ensures |r| <= |xs|
  {
    if xs == [] then []
    else
      var last := xs[|xs| - 1];
      var front := Dedup(xs[..|xs| - 1]);
      assert xs == xs[..|xs| - 1] + [last];
      if last in front then front else front + [last]
  }

  function Capped(xs: seq<string>): seq<string> {
    if |xs| <= SAMPLE_LIMIT then xs else xs[..SAMPLE_LIMIT]
  }

  function Subjects(events: seq<Event>): seq<string> {
    if events == [] then []
    else
      var rest := Subjects(events[..|events| - 1]);
      var last := events[|events| - 1];
      if last.subject == "" then rest else rest + [last.subject]
  }

  function Stages(events: seq<Event>): multiset<string> {
    if events == [] then multiset{}
    else Stages(events[..|events| - 1]) + multiset{events[|events| - 1].stage}
  }

  /** The tally's persisted summary; nothing is persisted for a clean run. */
  function AsMetadata(events: seq<Event>): Option<Payload> {
    if events == [] then None
    else
      var subjects := Dedup(Subjects(events));
      var omitted := if |subjects| > SAMPLE_LIMIT then |subjects| - SAMPLE_LIMIT else 0;
      Some(Payload(|events|, |subjects|, Stages(events), Capped(subjects), omitted))
  }

  function Overlap(xs: seq<string>, ys: seq<string>): nat {
    |(set x | x in xs) * (set y | y in ys)|
  }

  function Merge(base: Option<Payload>, extra: Option<Payload>): Option<Payload> {
    if base.None? then extra
    else if extra.None? then base
    else
      var b, e := base.value, extra.value;
      var union := Dedup(b.samples + e.samples);
      var affected: int :=
        if b.omitted == 0 && e.omitted == 0 then |union|
        else b.affected + e.affected - Overlap(b.samples, e.samples);
      var samples := Capped(union);
      var omitted := if affected > |samples| then affected - |samples| else 0;
      Some(Payload(b.events + e.events, affected, b.stages + e.stages, samples, omitted))
  }

  function SubjectSet(events: seq<Event>): (r: set<string>)
    ensures forall x :: x in r <==> x in Subjects(events)
  {
    set x | x in Subjects(events)
  }

  predicate Distinct(xs: seq<string>) {
    forall i, j :: 0 <= i < j < |xs| ==> xs[i] != xs[j]
  }

  /** The subjects a record of these events shows: the first ten. */
  ghost function Shown(events: seq<Event>): seq<string> {
    Capped(Dedup(Subjects(events)))
  }

  /** What a persisted record says of the events behind it: exact event and stage counts, the first ten
      affected subjects, and an affected count that is exact while there are no more, and `excess` too high
      at most once there are. */
  ghost predicate Represents(p: Option<Payload>, events: seq<Event>, excess: nat) {
    if events == [] then p == None && excess == 0
    else
      && p.Some?
      && p.value.events == |events|
      && p.value.stages == Stages(events)
      && p.value.samples == Shown(events)
      && p.value.affected == |SubjectSet(events)| + excess
      && p.value.omitted == p.value.affected - |p.value.samples|
      && (|SubjectSet(events)| <= SAMPLE_LIMIT ==> excess == 0)
  }

  /** The subjects of both that one of the two records does not show. */
  ghost function HiddenSet(x: seq<Event>, y: seq<Event>): (r: set<string>)
    ensures forall s :: s in r <==> s in SubjectSet(x) && s in SubjectSet(y) && !(s in Shown(x) && s in Shown(y))
  {
    set s | s in SubjectSet(x) && s in SubjectSet(y) && !(s in Shown(x) && s in Shown(y))
  }

  /** How far merging overcounts. */
  ghost function Hidden(x: seq<Event>, y: seq<Event>): nat {
    |HiddenSet(x, y)|
  }

  // ----- What the tally's parts mean -----

  /** Each subject once, in first-seen order. */
  lemma {:induction false} DedupInOrder(xs: seq<string>)
    ensures FirstSeen(Dedup(xs), xs)
  {
    if xs == [] {
      WithoutNone<string>({});
    } else {
      hide FirstSeen;
      DedupInOrder(xs[..|xs| - 1]);
      FirstSeenNext(Dedup(xs[..|xs| - 1]), xs[..|xs| - 1], xs[|xs| - 1]);
      assert xs[..|xs| - 1] + [xs[|xs| - 1]] == xs;
    }
  }

  function SubjectsOf(events: seq<Event>): (r: seq<string>)
    ensures |r| == |events| && forall i :: 0 <= i < |r| ==> r[i] == events[i].subject
  {
    seq(|events|, i requires 0 <= i < |events| => events[i].subject)
  }

  function StagesOf(events: seq<Event>): (r: seq<string>)
    ensures |r| == |events| && forall i :: 0 <= i < |r| ==> r[i] == events[i].stage
  {
    seq(|events|, i requires 0 <= i < |events| => events[i].stage)
  }

  /** The subjects are those of the events that have one, in order. */
  lemma {:induction false} SubjectsFilter(events: seq<Event>)
    ensures Without(Subjects(events), SubjectsOf(events), {""})
  {
    if events == [] {
      WithoutNone({""});
      assert SubjectsOf(events) == [];
    } else {
      SubjectsFilter(events[..|events| - 1]);
      SubjectsFilterNext(events);
    }
  }

  lemma SubjectsFilterNext(events: seq<Event>)
    requires events != []
    requires Without(Subjects(events[..|events| - 1]), SubjectsOf(events[..|events| - 1]), {""})
    ensures Without(Subjects(events), SubjectsOf(events), {""})
  {
    hide Without, Subjects, SubjectsOf;
    var n := |events| - 1;
    SubjectsStep(events);
    SubjectsOfStep(events);
    WithoutNext(Subjects(events[..n]), SubjectsOf(events[..n]), {""}, events[n].subject);
  }

  lemma SubjectsOfStep(events: seq<Event>)
    requires events != []
    ensures SubjectsOf(events) == SubjectsOf(events[..|events| - 1]) + [events[|events| - 1].subject]
  {
    hide SubjectsOf;
  }

  lemma SubjectsStep(events: seq<Event>)
    requires events != []
    ensures
      var n := |events| - 1;
      var front := Subjects(events[..n]);
      Subjects(events) == if events[n].subject in {""} then front else front + [events[n].subject]
  {
  }

  lemma {:induction false} StagesCount(events: seq<Event>)
    ensures Stages(events) == multiset(StagesOf(events))
  {
    if events == [] {
      assert StagesOf(events) == [];
    } else {
      var n := |events| - 1;
      StagesCount(events[..n]);
      assert StagesOf(events) == StagesOf(events[..n]) + [events[n].stage];
    }
  }

  /** What a record shows are the first ten of the distinct subjects, in first-seen order. */
  lemma ShownInOrder(events: seq<Event>, subjects: seq<string>, distinct: seq<string>)
    requires Without(subjects, SubjectsOf(events), {""}) && FirstSeen(distinct, subjects)
    ensures Shown(events) == if |distinct| <= 10 then distinct else distinct[..10]
  {
    SubjectsFilter(events);
    WithoutIsUnique(subjects, Subjects(events), SubjectsOf(events), {""});
    DedupInOrder(subjects);
    FirstSeenIsUnique(distinct, Dedup(subjects), subjects);
  }

  lemma {:induction false} DistinctCount(xs: seq<string>)
    requires Distinct(xs)
    ensures |set x | x in xs| == |xs|
  {
    if xs == [] {
    } else {
      var last := |xs| - 1;
      DistinctCount(xs[..last]);
      assert xs == xs[..last] + [xs[last]];
      assert (set x | x in xs) == (set x | x in xs[..last]) + {xs[last]};
    }
  }

  lemma DedupCount(xs: seq<string>)
    ensures |Dedup(xs)| == |set x | x in xs|
  {
    DistinctCount(Dedup(xs));
    assert (set x | x in Dedup(xs)) == (set x | x in xs);
  }

  lemma {:induction false} DedupFixed(xs: seq<string>)
    requires Distinct(xs)
    ensures Dedup(xs) == xs
  {
    if xs != [] {
      DedupFixed(xs[..|xs| - 1]);
      assert xs == xs[..|xs| - 1] + [xs[|xs| - 1]];
    }
  }

  /** Deduplicating piecewise is deduplicating the whole. */
  lemma {:induction false} DedupConcat(xs: seq<string>, ys: seq<string>)
    ensures Dedup(Dedup(xs) + Dedup(ys)) == Dedup(xs + ys)
  {
    if ys == [] {
      assert Dedup(xs) + Dedup(ys) == Dedup(xs) && xs + ys == xs;
      DedupFixed(Dedup(xs));
    } else {
      var front, last := ys[..|ys| - 1], ys[|ys| - 1];
      DedupConcat(xs, front);
      LastOfConcat(xs, ys);
      if last in Dedup(front) {
        assert last in Dedup(xs + front);
      } else {
        assert Dedup(ys) == Dedup(front) + [last];
        LastOfConcat(Dedup(xs), Dedup(ys));
      }
    }
  }

  lemma LastOfConcat<T>(a: seq<T>, b: seq<T>)
    requires b != []
    ensures (a + b)[|a + b| - 1] == b[|b| - 1] && (a + b)[..|a + b| - 1] == a + b[..|b| - 1]
  {
  }

  lemma {:induction false} SubjectsConcat(a: seq<Event>, b: seq<Event>)
    ensures Subjects(a + b) == Subjects(a) + Subjects(b)
  {
    if b == [] {
      assert a + b == a;
    } else {
      LastOfConcat(a, b);
      SubjectsConcat(a, b[..|b| - 1]);
      assert Subjects(b) == Subjects(b[..|b| - 1]) + (if b[|b| - 1].subject == "" then [] else [b[|b| - 1].subject]);
    }
  }

  lemma {:induction false} StagesConcat(a: seq<Event>, b: seq<Event>)
    ensures Stages(a + b) == Stages(a) + Stages(b)
  {
    if b == [] {
      assert a + b == a;
    } else {
      LastOfConcat(a, b);
      StagesConcat(a, b[..|b| - 1]);
    }
  }

  /** A tally's summary is exact. */
  lemma TallyRepresents(events: seq<Event>)
    ensures Represents(AsMetadata(events), events, 0)
  {
    DedupCount(Subjects(events));
    assert (set x | x in Subjects(events)) == SubjectSet(events);
  }

  lemma SubsetCount(xs: set<string>, ys: set<string>)
    requires xs <= ys
    ensures |xs| <= |ys| && |ys - xs| == |ys| - |xs|
  {
    assert ys == xs + (ys - xs);
  }

  // ----- The first ten of a union -----

  /** What comes first stays first. */
  lemma {:induction false} DedupPrefix(xs: seq<string>, ys: seq<string>)
    ensures Dedup(xs) <= Dedup(xs + ys)
  {
    if ys == [] {
      assert xs + ys == xs;
    } else {
      LastOfConcat(xs, ys);
      DedupPrefix(xs, ys[..|ys| - 1]);
    }
  }

  lemma {:induction false} DedupHasBoth(xs: seq<string>, ys: seq<string>)
    requires Distinct(ys)
    ensures |Dedup(xs + ys)| >= |ys|
  {
    DedupCount(xs + ys);
    DistinctCount(ys);
    SubsetCount(set s | s in ys, set s | s in xs + ys);
  }

  lemma SamePrefix<T>(xs: seq<T>, ys: seq<T>, n: nat)
    requires xs <= ys && n <= |xs|
    ensures xs[..n] == ys[..n]
  {
  }

  lemma DistinctPrefix(xs: seq<string>, n: nat)
    requires Distinct(xs) && n <= |xs|
    ensures Distinct(xs[..n])
  {
  }

  lemma CappedLong(xs: seq<string>, ys: seq<string>, more: seq<string>)
    requires Distinct(xs) && |xs| > SAMPLE_LIMIT
    ensures Capped(Dedup(Capped(xs) + more)) == Capped(xs) == Capped(Dedup(xs + ys))
  {
    var few := xs[..SAMPLE_LIMIT];
    DistinctPrefix(xs, SAMPLE_LIMIT);
    DedupFixed(few);
    DedupFixed(xs);
    DedupPrefix(few, more);
    DedupPrefix(xs, ys);
    hide Dedup, Distinct;
    SamePrefix(few, Dedup(few + more), SAMPLE_LIMIT);
    SamePrefix(xs, Dedup(xs + ys), SAMPLE_LIMIT);
  }

  lemma CappedTail(xs: seq<string>, ys: seq<string>)
    requires Distinct(ys) && |ys| > SAMPLE_LIMIT
    ensures Capped(Dedup(xs + Capped(ys))) == Capped(Dedup(xs + ys))
  {
    var few := ys[..SAMPLE_LIMIT];
    DistinctPrefix(ys, SAMPLE_LIMIT);
    DedupHasBoth(xs, few);
    DedupPrefix(xs + few, ys[SAMPLE_LIMIT..]);
    assert xs + few + ys[SAMPLE_LIMIT..] == xs + ys;
    hide Dedup, Distinct;
    SamePrefix(Dedup(xs + few), Dedup(xs + ys), SAMPLE_LIMIT);
  }

  /** Ten of each side are enough to find the first ten of both. */
  lemma CappedUnion(xs: seq<string>, ys: seq<string>)
    requires Distinct(xs) && Distinct(ys)
    ensures Capped(Dedup(Capped(xs) + Capped(ys))) == Capped(Dedup(xs + ys))
  {
    if |xs| > SAMPLE_LIMIT {
      CappedLong(xs, ys, Capped(ys));
    } else if |ys| > SAMPLE_LIMIT {
      CappedTail(xs, ys);
    }
  }

  /** A record shows ten subjects, or all of them. */
  lemma ShownCount(events: seq<Event>)
    ensures var n := |SubjectSet(events)|; |Shown(events)| == if n <= SAMPLE_LIMIT then n else SAMPLE_LIMIT
    ensures |SubjectSet(events)| <= SAMPLE_LIMIT ==> Shown(events) == Dedup(Subjects(events))
    ensures forall s :: s in Shown(events) ==> s in SubjectSet(events)
    ensures |SubjectSet(events)| <= SAMPLE_LIMIT ==> forall s :: s in SubjectSet(events) ==> s in Shown(events)
    ensures Distinct(Shown(events))
  {
    DedupCount(Subjects(events));
    assert (set x | x in Subjects(events)) == SubjectSet(events);
  }

  lemma MergedShown(x: seq<Event>, y: seq<Event>)
    ensures Capped(Dedup(Shown(x) + Shown(y))) == Shown(x + y)
  {
    SubjectsConcat(x, y);
    DedupConcat(Subjects(x), Subjects(y));
    CappedUnion(Dedup(Subjects(x)), Dedup(Subjects(y)));
  }

  lemma MergedComplete(x: seq<Event>, y: seq<Event>)
    requires |SubjectSet(x)| <= SAMPLE_LIMIT && |SubjectSet(y)| <= SAMPLE_LIMIT
    ensures |Dedup(Shown(x) + Shown(y))| == |SubjectSet(x + y)| && Hidden(x, y) == 0
  {
    ShownCount(x);
    ShownCount(y);
    SubjectsConcat(x, y);
    DedupConcat(Subjects(x), Subjects(y));
    DedupCount(Subjects(x + y));
    assert (set s | s in Subjects(x + y)) == SubjectSet(x + y);
    assert HiddenSet(x, y) == {};
  }

  lemma UnionCount(xs: set<string>, ys: set<string>, shown: set<string>)
    requires shown <= xs * ys
    ensures |xs| + |ys| - |shown| == |xs + ys| + |xs * ys - shown|
    ensures |xs| <= |xs + ys| && |ys| <= |xs + ys|
  {
    SubsetCount(shown, xs * ys);
    SubsetCount(xs, xs + ys);
    SubsetCount(ys, xs + ys);
    assert |xs + ys| + |xs * ys| == |xs| + |ys|;
  }

  lemma SubjectsUnion(x: seq<Event>, y: seq<Event>)
    ensures SubjectSet(x + y) == SubjectSet(x) + SubjectSet(y)
  {
    SubjectsConcat(x, y);
  }

  lemma MergedCount(x: seq<Event>, y: seq<Event>)
    ensures |SubjectSet(x)| + |SubjectSet(y)| - Overlap(Shown(x), Shown(y)) == |SubjectSet(x + y)| + Hidden(x, y)
    ensures |SubjectSet(x)| <= |SubjectSet(x + y)| && |SubjectSet(y)| <= |SubjectSet(x + y)|
  {
    hide Shown, SubjectSet, Subjects;
    var shown := (set s | s in Shown(x)) * (set s | s in Shown(y));
    ShownCount(x);
    ShownCount(y);
    SubjectsUnion(x, y);
    assert HiddenSet(x, y) == SubjectSet(x) * SubjectSet(y) - shown;
    UnionCount(SubjectSet(x), SubjectSet(y), shown);
  }

  lemma NothingHidden(x: seq<Event>)
    ensures Hidden(x, []) == 0 && Hidden([], x) == 0
  {
    assert HiddenSet(x, []) == {} && HiddenSet([], x) == {};
  }

  /** Merging two records represents the two event sequences one after the other.  Events, stages and the
      first ten subjects are exact however lossy the records; the affected count is off by what either
      record was, and by the common subjects that one of them does not show. */
  lemma MergeRepresents(p: Option<Payload>, q: Option<Payload>, x: seq<Event>, y: seq<Event>, dx: nat, dy: nat)
    requires Represents(p, x, dx) && Represents(q, y, dy)
    ensures Represents(Merge(p, q), x + y, dx + dy + Hidden(x, y))
  {
    hide Shown, Hidden, Dedup, Overlap, Stages, SubjectSet;
    NothingHidden(x);
    NothingHidden(y);
    if x == [] {
      assert x + y == y;
    } else if y == [] {
      assert x + y == x;
    } else {
      MergedCount(x, y);
      MergedRepresents(p.value, q.value, x, y, dx, dy);
    }
  }

  lemma MergedRepresents(b: Payload, e: Payload, x: seq<Event>, y: seq<Event>, dx: nat, dy: nat)
    requires x != [] && y != [] && Represents(Some(b), x, dx) && Represents(Some(e), y, dy)
    requires |SubjectSet(x)| + |SubjectSet(y)| - Overlap(Shown(x), Shown(y)) == |SubjectSet(x + y)| + Hidden(x, y)
    requires |SubjectSet(x)| <= |SubjectSet(x + y)| && |SubjectSet(y)| <= |SubjectSet(x + y)|
    ensures Represents(Merge(Some(b), Some(e)), x + y, dx + dy + Hidden(x, y))
  {
    hide Shown, Hidden, Dedup, Overlap, Stages, SubjectSet;
    ShownCount(x);
    ShownCount(y);
    ShownCount(x + y);
    MergedShown(x, y);
    StagesConcat(x, y);
    if b.omitted == 0 && e.omitted == 0 {
      MergedComplete(x, y);
    }
  }

  /** The merged count is exact exactly when the records it merges are and every common subject is shown by
      both. */
  lemma MergeIsExactIff(p: Option<Payload>, q: Option<Payload>, x: seq<Event>, y: seq<Event>, dx: nat, dy: nat)
    requires x != [] && y != [] && Represents(p, x, dx) && Represents(q, y, dy)
    ensures
      Merge(p, q).value.affected == |SubjectSet(x + y)| <==>
        dx == 0 && dy == 0 && forall s :: s in SubjectSet(x) && s in SubjectSet(y) ==> s in Shown(x) && s in Shown(y)
  {
    MergeRepresents(p, q, x, y, dx, dy);
    hide Represents, Shown;
    if HiddenSet(x, y) == {} {
      forall s | s in SubjectSet(x) && s in SubjectSet(y)
        ensures s in Shown(x) && s in Shown(y)
      {
        assert s !in HiddenSet(x, y);
      }
    }
  }

  /** Truncating the same subjects again counts those beyond the tenth twice. */
  lemma RepeatCountsTwice(x: seq<Event>, y: seq<Event>)
    requires x != [] && y != [] && SubjectSet(x) == SubjectSet(y) && Shown(x) == Shown(y)
    ensures
      var n := |SubjectSet(x)|;
      Merge(AsMetadata(x), AsMetadata(y)).value.affected == if n <= 10 then n else n + (n - 10)
  {
    hide Shown, Merge, AsMetadata, Hidden, Subjects, SubjectSet, Stages;
    TallyRepresents(x);
    TallyRepresents(y);
    MergeRepresents(AsMetadata(x), AsMetadata(y), x, y, 0, 0);
    RepeatHides(x, y);
    SubjectsUnion(x, y);
    assert SubjectSet(x) + SubjectSet(y) == SubjectSet(x);
  }

  lemma RepeatHides(x: seq<Event>, y: seq<Event>)
    requires SubjectSet(x) == SubjectSet(y) && Shown(x) == Shown(y)
    ensures var n := |SubjectSet(x)|; Hidden(x, y) == if n <= 10 then 0 else n - 10
  {
    ShownCount(x);
    DistinctCount(Shown(x));
    hide Shown, Distinct;
    var shown := set s | s in Shown(x);
    assert HiddenSet(x, y) == SubjectSet(x) - shown;
    SubsetCount(shown, SubjectSet(x));
  }

  /** A record without excess is the summary of one tally. */
  lemma ExactIsTally(p: Option<Payload>, events: seq<Event>)
    requires Represents(p, events, 0)
    ensures p == AsMetadata(events)
  {
    TallyRepresents(events);
  }

  /** As long as at most ten subjects are affected, records merge as if their tallies had been one. */
  lemma SmallMergeIsExact(x: seq<Event>, y: seq<Event>)
    requires |SubjectSet(x + y)| <= SAMPLE_LIMIT
    ensures Merge(AsMetadata(x), AsMetadata(y)) == AsMetadata(x + y)
  {
    TallyRepresents(x);
    TallyRepresents(y);
    MergedCount(x, y);
    MergedComplete(x, y);
    MergeRepresents(AsMetadata(x), AsMetadata(y), x, y, 0, 0);
    ExactIsTally(Merge(AsMetadata(x), AsMetadata(y)), x + y);
  }
}
