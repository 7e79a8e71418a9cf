/** The truncation record of one custom-chunk operation, over any number of attempts.

  Every event is counted once: extraction events are journaled before the merge starts, summary events
  by a hook awaited before the object that carries the truncated summary is written, and the failure
  and commit writes recompute the record from what earlier attempts left, never from a copy that
  already folded this attempt in. */
module TruncationLedger {
  import opened Stores
  import opened Truncation

  /** Each of `events` is among `all`, counting repetitions. */
  predicate Counted(events: seq<Event>, all: seq<Event>) {
    multiset(events) <= multiset(all)
  }

  class Ledger {
    /** The pre-operation snapshot, journaled once. */
    const prior: Option<Payload>
    ghost const base: seq<Event>
    /** How far each record's affected count is too high. */
    ghost const snapshotExcess: nat
    ghost var excess: nat
    ghost var carriedExcess: nat
    /** Durable: the operation record in the journal, and the record on the row. */
    var journaled: Option<Payload>
    var row: Option<Payload>
    /** In memory: what earlier attempts left, this attempt's tally, the merge's own tally. */
    var carried: Option<Payload>
    var tally: seq<Event>
    var pending: seq<Event>
    /** Every event of earlier attempts that was recorded; every event recorded; every event whose
        truncated text is in the graph. */
    ghost var earlier: seq<Event>
    ghost var recorded: seq<Event>
    ghost var landed: seq<Event>

    ghost predicate Valid()
      reads this
    {
      && Represents(prior, base, snapshotExcess)
      && Represents(journaled, recorded, excess)
      && Counted(landed, recorded)
    }

    /** An attempt is running: what it carried is what earlier attempts recorded. */
    ghost predicate Running()
      reads this
    {
      && Valid() && Represents(carried, earlier, carriedExcess)
      && earlier <= recorded && recorded <= earlier + (tally + pending)
    }

    constructor (prior: Option<Payload>, ghost base: seq<Event>, ghost excess: nat)
      requires Represents(prior, base, excess)
      ensures Valid() && recorded == [] && landed == [] && row == prior
      ensures this.prior == prior && this.base == base && snapshotExcess == excess
    {
      this.prior, this.base, row := prior, base, prior;
      snapshotExcess, this.excess, carriedExcess := excess, 0, 0;
      journaled, carried, tally, pending := None, None, [], [];
      earlier, recorded, landed := [], [], [];
    }

    /** The first attempt, a resume, and a retry after a crash all start from the journal as loaded. */
    method Start()
      requires Valid()
      modifies this
      ensures Running() && earlier == recorded == old(recorded) && landed == old(landed)
      ensures tally == [] && pending == [] && journaled == old(journaled) && row == old(row)
      ensures carriedExcess == excess == old(excess)
    {
      hide Represents, Merge, AsMetadata, Counted;
      carried, tally, pending := journaled, [], [];
      earlier, carriedExcess := recorded, excess;
    }

    /** Extraction truncated these responses. */
    method Extract(events: seq<Event>)
      requires Running() && pending == []
      modifies this
      ensures Running() && tally == old(tally) + events && pending == []
      ensures earlier == old(earlier) && recorded == old(recorded) && landed == old(landed) && row == old(row)
      ensures carriedExcess == old(carriedExcess) && excess == old(excess)
    {
      hide Represents, Merge, AsMetadata, Counted;
      assert earlier + (tally + pending) <= earlier + ((tally + events) + pending);
      tally := tally + events;
    }

    /** The write before the merge: extraction events are durable before any graph mutation. */
    method Apply()
      requires Running() && pending == []
      modifies this
      ensures Running() && recorded == earlier + tally && pending == []
      ensures earlier == old(earlier) && tally == old(tally) && landed == old(landed) && row == old(row)
      ensures carriedExcess == old(carriedExcess) && excess == carriedExcess + Hidden(earlier, tally)
    {
      hide Represents, Merge, AsMetadata, Counted, Hidden;
      TallyRepresents(tally);
      MergeRepresents(carried, AsMetadata(tally), earlier, tally, carriedExcess, 0);
      assert tally + [] == tally;
      CountedGrows(landed, recorded, earlier, tally);
      journaled := Merge(carried, AsMetadata(tally));
      recorded := earlier + tally;
      excess := carriedExcess + Hidden(earlier, tally);
    }

    /** A summary was truncated: record it, then the write-ahead hook. */
    method Summarize(event: Event)
      requires Running()
      modifies this
      ensures Running() && recorded == earlier + (tally + pending) && pending == old(pending) + [event]
      ensures earlier == old(earlier) && tally == old(tally) && landed == old(landed) && row == old(row)
      ensures carriedExcess == old(carriedExcess) && excess == carriedExcess + HiddenTwice(earlier, tally, pending)
    {
      hide Represents, Merge, AsMetadata, Counted, HiddenTwice;
      GrowsBy(earlier, tally, pending, event);
      HookRepresents(carried, earlier, tally, pending + [event], carriedExcess);
      CountedGrows(landed, recorded, earlier, tally + (pending + [event]));
      pending := pending + [event];
      journaled := Merge(Merge(carried, AsMetadata(tally)), AsMetadata(pending));
      recorded := earlier + (tally + pending);
      excess := carriedExcess + HiddenTwice(earlier, tally, pending);
    }

    /** The graph mutation that carries truncated text: its events must be journaled already. */
    method Land(ghost events: seq<Event>)
      requires Running() && Counted(landed + events, recorded)
      modifies this`landed
      ensures Running() && landed == old(landed) + events
    {
      hide Represents, Merge, AsMetadata, Counted;
      landed := landed + events;
    }

    /** The merge hands its tally up, on every exit. */
    method Publish()
      requires Running()
      modifies this
      ensures Running() && tally == old(tally) + old(pending) && pending == []
      ensures earlier == old(earlier) && recorded == old(recorded) && landed == old(landed) && row == old(row)
      ensures carriedExcess == old(carriedExcess) && excess == old(excess)
    {
      hide Represents, Merge, AsMetadata, Counted;
      assert tally + pending + [] == tally + pending;
      tally, pending := tally + pending, [];
    }

    /** The failure write: the journal and the row both get the recomputed record. */
    method Fail()
      requires Running() && pending == []
      modifies this
      ensures Valid() && recorded == old(earlier) + old(tally) && landed == old(landed)
      ensures excess == old(carriedExcess) + Hidden(old(earlier), old(tally))
      ensures Represents(row, base + recorded, snapshotExcess + excess + Hidden(base, recorded))
    {
      hide Represents, Merge, AsMetadata, Counted, Hidden;
      Settle();
      row := Merge(prior, journaled);
      MergeRepresents(prior, journaled, base, recorded, snapshotExcess, excess);
    }

    method Settle()
      requires Running() && pending == []
      modifies this`journaled, this`recorded, this`excess
      ensures Running() && recorded == earlier + tally && excess == carriedExcess + Hidden(earlier, tally)
    {
      hide Represents, Merge, AsMetadata, Counted, Hidden;
      TallyRepresents(tally);
      MergeRepresents(carried, AsMetadata(tally), earlier, tally, carriedExcess, 0);
      assert tally + [] == tally;
      CountedGrows(landed, recorded, earlier, tally);
      journaled := Merge(carried, AsMetadata(tally));
      recorded := earlier + tally;
      excess := carriedExcess + Hidden(earlier, tally);
    }

    /** The commit write: the snapshot plus every attempt's events, once each. */
    method Commit()
      requires Running() && pending == []
      modifies this`row
      ensures Running()
      ensures Represents(row, base + (earlier + tally),
        snapshotExcess + (carriedExcess + Hidden(earlier, tally)) + Hidden(base, earlier + tally))
    {
      hide Represents, Merge, AsMetadata, Counted, Hidden;
      TallyRepresents(tally);
      MergeRepresents(carried, AsMetadata(tally), earlier, tally, carriedExcess, 0);
      MergeRepresents(prior, Merge(carried, AsMetadata(tally)), base, earlier + tally, snapshotExcess,
        carriedExcess + Hidden(earlier, tally));
      row := Merge(prior, Merge(carried, AsMetadata(tally)));
    }

    /** A crash loses what was in memory; nothing that landed goes unrecorded. */
    method Crash()
      requires Running()
      modifies this`carried, this`tally, this`pending
      ensures Valid()
    {
      carried, tally, pending := None, [], [];
    }

    /** A rollback reinstates the snapshot, whatever the attempts stamped on the row. */
    method Restore()
      requires Valid()
      modifies this`row
      ensures Valid() && row == prior && Represents(row, base, snapshotExcess)
    {
      row := prior;
    }
  }

  lemma CountedGrows(landed: seq<Event>, recorded: seq<Event>, earlier: seq<Event>, tally: seq<Event>)
    requires Counted(landed, recorded) && recorded <= earlier + tally
    ensures Counted(landed, earlier + tally)
  {
    var all := earlier + tally;
    assert all == recorded + all[|recorded|..];
  }

  lemma GrowsBy(earlier: seq<Event>, tally: seq<Event>, pending: seq<Event>, event: Event)
    ensures earlier <= earlier + (tally + pending) <= earlier + (tally + (pending + [event]))
  {
    assert tally + (pending + [event]) == (tally + pending) + [event];
  }

  /** What the hook's two-step merge overcounts. */
  ghost function HiddenTwice(earlier: seq<Event>, tally: seq<Event>, pending: seq<Event>): nat {
    Hidden(earlier, tally) + Hidden(earlier + tally, pending)
  }

  /** The hook's two-step merge represents carried, tally and pending, in order. */
  lemma HookRepresents(carried: Option<Payload>, earlier: seq<Event>, tally: seq<Event>, pending: seq<Event>,
      excess: nat)
    requires Represents(carried, earlier, excess)
    ensures Represents(Merge(Merge(carried, AsMetadata(tally)), AsMetadata(pending)), earlier + (tally + pending),
      excess + HiddenTwice(earlier, tally, pending))
  {
    hide Represents, Merge, AsMetadata, Hidden;
    TallyRepresents(tally);
    TallyRepresents(pending);
    MergeRepresents(carried, AsMetadata(tally), earlier, tally, excess, 0);
    MergeRepresents(Merge(carried, AsMetadata(tally)), AsMetadata(pending), earlier + tally, pending,
      excess + Hidden(earlier, tally), 0);
    assert (earlier + tally) + pending == earlier + (tally + pending);
  }

  lemma AllRecorded(landed: seq<Event>, recorded: seq<Event>, more: seq<Event>)
    requires Counted(landed, recorded)
    ensures Counted(landed + more, recorded + more)
  {
  }

  // ----- Whole operations -----

  datatype Ending = CrashesEarly | CrashesAfter(summaries: nat) | Fails | Commits

  datatype Attempt = Attempt(extracted: seq<Event>, summaries: seq<Event>, ending: Ending)

  /** The events an attempt leaves recorded: all of them, unless it crashed first. */
  function Kept(a: Attempt): seq<Event> {
    match a.ending
    case CrashesEarly => []
    case CrashesAfter(k) => a.extracted + a.summaries[..if k < |a.summaries| then k else |a.summaries|]
    case _ => a.extracted + a.summaries
  }

  function AllKept(attempts: seq<Attempt>): seq<Event> {
    if attempts == [] then [] else AllKept(attempts[..|attempts| - 1]) + Kept(attempts[|attempts| - 1])
  }

  /** The summaries an attempt gets to. */
  function Reached(a: Attempt): seq<Event> {
    if a.ending.CrashesAfter? && a.ending.summaries < |a.summaries| then a.summaries[..a.ending.summaries] else a.summaries
  }

  /** What an attempt adds to the journal's overcount. */
  ghost function HiddenBy(earlier: seq<Event>, a: Attempt): nat {
    match a.ending
    case CrashesEarly => 0
    case Fails => Hidden(earlier, a.extracted + a.summaries)
    case _ => HiddenTwice(earlier, a.extracted, Reached(a))
  }

  ghost function AllHidden(attempts: seq<Attempt>): nat {
    if attempts == [] then 0
    else
      var front := attempts[..|attempts| - 1];
      AllHidden(front) + HiddenBy(AllKept(front), attempts[|attempts| - 1])
  }

  /** What the record that the last attempt stamps on the row overcounts, beyond the snapshot's own. */
  ghost function OperationExcess(base: seq<Event>, attempts: seq<Attempt>): nat
    requires attempts != []
  {
    var front := attempts[..|attempts| - 1];
    AllHidden(front) + Hidden(AllKept(front), Kept(attempts[|attempts| - 1])) + Hidden(base, AllKept(attempts))
  }

  /** Appending to the pending summaries appends to the whole. */
  lemma Appended(earlier: seq<Event>, tally: seq<Event>, pending: seq<Event>, event: Event)
    ensures earlier + (tally + (pending + [event])) == earlier + (tally + pending) + [event]
  {
    assert tally + (pending + [event]) == (tally + pending) + [event];
    assert earlier + ((tally + pending) + [event]) == (earlier + (tally + pending)) + [event];
  }

  /** A truncated summary lands right after its hook. */
  method SummarizeAndLand(l: Ledger, event: Event)
    requires l.Running() && l.recorded == l.earlier + (l.tally + l.pending)
    modifies l
    ensures l.Running() && l.recorded == l.earlier + (l.tally + l.pending)
    ensures l.earlier == old(l.earlier) && l.tally == old(l.tally) && l.pending == old(l.pending) + [event] && l.row == old(l.row)
    ensures l.recorded == old(l.recorded) + [event] && l.landed == old(l.landed) + [event]
    ensures l.carriedExcess == old(l.carriedExcess) && l.excess == l.carriedExcess + HiddenTwice(l.earlier, l.tally, l.pending)
  {
    hide Represents, Merge, AsMetadata, Counted, HiddenTwice;
    Appended(l.earlier, l.tally, l.pending, event);
    l.Summarize(event);
    AllRecorded(l.landed, old(l.recorded), [event]);
    l.Land([event]);
  }

  /** Extraction, the write before the merge, and what the merge then writes of the extraction. */
  method OpenAttempt(l: Ledger, extracted: seq<Event>)
    requires l.Valid()
    modifies l
    ensures l.Running() && l.recorded == l.earlier + (l.tally + l.pending) && l.pending == [] && l.row == old(l.row)
    ensures l.recorded == old(l.recorded) + extracted && l.landed == old(l.landed) + extracted
    ensures l.earlier == old(l.recorded) && l.tally == extracted && l.carriedExcess == old(l.excess)
    ensures l.excess == l.carriedExcess + HiddenTwice(l.earlier, l.tally, l.pending)
  {
    hide Represents, Merge, AsMetadata, Counted;
    l.Start();
    l.Extract(extracted);
    assert l.tally == extracted;
    l.Apply();
    assert l.tally + l.pending == l.tally;
    NothingHidden(l.earlier + l.tally);
    AllRecorded(l.landed, old(l.recorded), extracted);
    l.Land(extracted);
  }

  method MergeSummaries(l: Ledger, summaries: seq<Event>)
    requires l.Running() && l.recorded == l.earlier + (l.tally + l.pending) && l.pending == []
    requires l.excess == l.carriedExcess + HiddenTwice(l.earlier, l.tally, l.pending)
    modifies l
    ensures l.Running() && l.recorded == l.earlier + (l.tally + l.pending) && l.row == old(l.row)
    ensures l.earlier == old(l.earlier) && l.tally == old(l.tally) && l.pending == summaries
    ensures l.carriedExcess == old(l.carriedExcess) && l.excess == l.carriedExcess + HiddenTwice(l.earlier, l.tally, l.pending)
    ensures l.recorded == old(l.recorded) + summaries && l.landed == old(l.landed) + summaries
  {
    hide Represents, Merge, AsMetadata, Counted, HiddenTwice, Ledger.Running;
    for i := 0 to |summaries|
      invariant l.Running() && l.recorded == l.earlier + (l.tally + l.pending) && l.row == old(l.row)
      invariant l.earlier == old(l.earlier) && l.tally == old(l.tally) && l.pending == summaries[..i]
      invariant l.carriedExcess == old(l.carriedExcess) && l.excess == l.carriedExcess + HiddenTwice(l.earlier, l.tally, l.pending)
      invariant l.recorded == old(l.recorded) + summaries[..i] && l.landed == old(l.landed) + summaries[..i]
    {
      SummarizeAndLand(l, summaries[i]);
      assert summaries[..i + 1] == summaries[..i] + [summaries[i]];
    }
    assert summaries[..|summaries|] == summaries;
  }

  /** The failure write, or the commit write. */
  method CloseAttempt(l: Ledger, fails: bool)
    requires l.Running() && l.recorded == l.earlier + (l.tally + l.pending)
    modifies l
    ensures l.Valid() && l.recorded == old(l.recorded) && l.landed == old(l.landed)
    ensures l.excess == if fails then old(l.carriedExcess) + Hidden(old(l.earlier), old(l.tally + l.pending)) else old(l.excess)
    ensures Represents(l.row, l.base + l.recorded,
      l.snapshotExcess + (old(l.carriedExcess) + Hidden(old(l.earlier), old(l.tally + l.pending))) + Hidden(l.base, l.recorded))
  {
    hide Represents, Merge, AsMetadata, Counted, Hidden;
    l.Publish();
    if fails {
      l.Fail();
    } else {
      l.Commit();
    }
  }

  lemma KeptParts(a: Attempt, recorded: seq<Event>)
    requires !a.ending.CrashesEarly?
    ensures Kept(a) == a.extracted + Reached(a)
    ensures recorded + a.extracted + Reached(a) == recorded + Kept(a)
  {
    assert a.summaries[..|a.summaries|] == a.summaries;
  }

  /** One attempt, up to its end or to the crash that interrupts it. */
  method RunAttempt(l: Ledger, a: Attempt)
    requires l.Valid()
    modifies l
    ensures l.Valid() && l.recorded == old(l.recorded) + Kept(a) && l.landed == old(l.landed) + Kept(a)
    ensures l.excess == old(l.excess) + HiddenBy(old(l.recorded), a)
    ensures if Finished(a) then
        Represents(l.row, l.base + l.recorded,
          l.snapshotExcess + (old(l.excess) + Hidden(old(l.recorded), Kept(a))) + Hidden(l.base, l.recorded))
      else
        l.row == old(l.row)
  {
    hide Represents, Merge, AsMetadata, Counted, Hidden, HiddenTwice, Ledger.Running, Ledger.Valid;
    if a.ending.CrashesEarly? {
      CrashEarly(l, a.extracted);
      return;
    }
    KeptParts(a, old(l.recorded));
    KeptParts(a, old(l.landed));
    OpenAttempt(l, a.extracted);
    MergeSummaries(l, Reached(a));
    if a.ending.CrashesAfter? {
      l.Crash();
    } else {
      CloseAttempt(l, a.ending.Fails?);
    }
  }

  /** A crash before the write that precedes the merge leaves no trace. */
  method CrashEarly(l: Ledger, extracted: seq<Event>)
    requires l.Valid()
    modifies l
    ensures l.Valid() && l.recorded == old(l.recorded) + [] && l.landed == old(l.landed) + [] && l.row == old(l.row)
    ensures l.excess == old(l.excess)
  {
    hide Represents, Merge, AsMetadata, Counted;
    l.Start();
    l.Extract(extracted);
    l.Crash();
  }

  lemma OneMoreKept(base: seq<Event>, attempts: seq<Attempt>, i: nat)
    requires i < |attempts|
    ensures AllKept(attempts[..i + 1]) == AllKept(attempts[..i]) + Kept(attempts[i])
    ensures AllHidden(attempts[..i + 1]) == AllHidden(attempts[..i]) + HiddenBy(AllKept(attempts[..i]), attempts[i])
    ensures OperationExcess(base, attempts[..i + 1]) ==
      AllHidden(attempts[..i]) + Hidden(AllKept(attempts[..i]), Kept(attempts[i])) + Hidden(base, AllKept(attempts[..i + 1]))
  {
    assert attempts[..i + 1][..i] == attempts[..i];
  }

  predicate Finished(a: Attempt) {
    a.ending.Fails? || a.ending.Commits?
  }

  lemma NothingIsExact(l: Ledger)
    requires l.Valid() && l.recorded == []
    ensures l.excess == 0
  {
  }

  /** What the record of a finished operation says. */
  ghost predicate Stamped(l: Ledger, attempts: seq<Attempt>)
    reads l
  {
    attempts != [] && Finished(attempts[|attempts| - 1]) ==>
      Represents(l.row, l.base + AllKept(attempts), l.snapshotExcess + OperationExcess(l.base, attempts))
  }

  /** Conservation: however many attempts fail, crash and resume, the record of a finished attempt is the
      snapshot plus every recorded event, once each, in order; and its affected count is too high by exactly
      what the snapshot's was and what the attempts' merges could not see. */
  method RunOperation(l: Ledger, attempts: seq<Attempt>)
    requires l.Valid() && l.recorded == []
    modifies l
    ensures l.Valid() && l.recorded == AllKept(attempts) && l.excess == AllHidden(attempts)
    ensures attempts != [] && Finished(attempts[|attempts| - 1]) ==>
      Represents(l.row, l.base + AllKept(attempts), l.snapshotExcess + OperationExcess(l.base, attempts))
  {
    hide Represents, Merge, AsMetadata, Counted, Ledger.Valid, Kept, Hidden, HiddenBy;
    assert attempts[..0] == [];
    NothingIsExact(l);
    for i := 0 to |attempts|
      invariant l.Valid() && l.recorded == AllKept(attempts[..i]) && l.excess == AllHidden(attempts[..i])
      invariant Stamped(l, attempts[..i])
    {
      OneMoreKept(l.base, attempts, i);
      RunAttempt(l, attempts[i]);
    }
    assert attempts[..|attempts|] == attempts;
  }
}
