/** One busy slot, many callers.

  Enqueuers persist a row, post it to the mailbox, then try the slot; a refused try arms the rescan
  flag in the same critical section.  A processing run consumes the mailbox and releases only in the
  critical section that finds it empty.  Other holders probe the mailbox on their way out and hand the
  slot to a processing run if it has work.  Every step below is one critical section or one await-free
  update, so a run is any interleaving of steps. */
module BusySlot {
  import opened Stores

  type Token = nat
  type Doc = string

  /** Where a caller stands. */
  datatype Caller =
    | Persisted(doc: Doc)        // its row is stored, its message is not posted yet
    | Posted                     // its message is posted, the slot is not tried yet
    | Refetching                 // holds the slot, about to read the pending rows
    | Draining(batch: set<Doc>)  // holds the slot, with rows to process
    | Working                    // holds the slot for something else: an insert, a deletion
    | Gone

  datatype State = State(
    owner: Option<Token>,
    callers: map<Token, Caller>,
    pending: set<Doc>,
    messages: set<Doc>,
    rescan: bool,
    manual: seq<Token>)

  datatype Step =
    | Persist(t: Token, doc: Doc)
    | Post(t: Token)
    | Try(t: Token)
    | RequestRetry(t: Token)
    | Fetch(t: Token)
    | Finish(t: Token, doc: Doc)
    | Decide(t: Token)
    | Acquire(t: Token)
    | Exit(t: Token)
    | LateRelease(t: Token)

  predicate HasWork(s: State) {
    s.messages != {} || s.rescan || s.manual != []
  }

  predicate Is(s: State, t: Token, c: Caller) {
    t in s.callers && s.callers[t] == c
  }

  predicate Holding(c: Caller) {
    c.Refetching? || c.Draining? || c.Working?
  }

  function Batch(s: State, t: Token): set<Doc> {
    if t in s.callers && s.callers[t].Draining? then s.callers[t].batch else {}
  }

  predicate Enabled(s: State, step: Step) {
    match step
    case Persist(t, _) => t !in s.callers
    case Post(t) => t in s.callers && s.callers[t].Persisted?
    case Try(t) => Is(s, t, Posted)
    case RequestRetry(t) => t !in s.callers
    case Fetch(t) => Is(s, t, Refetching)
    case Finish(t, doc) => doc in Batch(s, t)
    case Decide(t) => Is(s, t, Draining({}))
    case Acquire(t) => t !in s.callers
    case Exit(t) => Is(s, t, Working)
    case LateRelease(t) => Is(s, t, Gone)
  }

  function Next(s: State, step: Step): State
    requires Enabled(s, step)
  {
    match step
    case Persist(t, doc) => s.(callers := s.callers[t := Persisted(doc)], pending := s.pending + {doc})
    case Post(t) => s.(callers := s.callers[t := Posted], messages := s.messages + {s.callers[t].doc})
    case Try(t) =>
      if s.owner == None then
        // a run absorbs the rescan flag: its first read is that rescan
        s.(owner := Some(t), callers := s.callers[t := Refetching], rescan := s.rescan && s.manual != [])
      else
        s.(callers := s.callers[t := Gone], rescan := true)
    // a manual request is posted, and its requester then tries the slot like an enqueuer
    case RequestRetry(t) => s.(callers := s.callers[t := Posted], manual := s.manual + [t])
    case Fetch(t) => s.(callers := s.callers[t := Draining(s.pending)])
    case Finish(t, doc) =>
      s.(pending := s.pending - {doc}, callers := s.callers[t := Draining(s.callers[t].batch - {doc})])
    case Decide(t) =>
      if s.manual != [] then s.(manual := s.manual[1..], callers := s.callers[t := Refetching])
      else if s.rescan then s.(rescan := false, callers := s.callers[t := Refetching])
      else if s.messages != {} then s.(messages := {}, callers := s.callers[t := Refetching])
      else s.(owner := None, callers := s.callers[t := Gone])
    case Acquire(t) =>
      // refused while busy, and a refusal here leaves no trace
      if s.owner == None then s.(owner := Some(t), callers := s.callers[t := Working])
      else s.(callers := s.callers[t := Gone])
    case Exit(t) =>
      if HasWork(s) then s.(callers := s.callers[t := Refetching])
      else s.(owner := None, callers := s.callers[t := Gone])
    case LateRelease(t) => Released(s, t)
  }

  /** The owner-checked release: it does nothing for anyone but the owner. */
  function Released(s: State, t: Token): State {
    if s.owner == Some(t) then s.(owner := None) else s
  }

  const IDLE: State := State(None, map[], {}, {}, false, [])

  /** A pending row is announced: by its enqueuer, the mailbox, or the run that will read or has read it. */
  predicate Announced(s: State, doc: Doc) {
    || HasWork(s)
    || (exists t :: t in s.callers && (s.callers[t] == Persisted(doc) || s.callers[t].Refetching?))
    || (exists t :: t in s.callers && s.callers[t].Draining? && doc in s.callers[t].batch)
  }

  ghost predicate SlotInv(s: State) {
    // exactly the owner holds
    && (forall t :: t in s.callers ==> (Holding(s.callers[t]) <==> s.owner == Some(t)))
    && (s.owner.Some? ==> s.owner.value in s.callers)
    // a free slot never leaves work in the mailbox unless a poster is still to try
    && (s.owner == None && HasWork(s) ==> exists t :: Is(s, t, Posted))
    && (forall doc :: doc in s.pending ==> Announced(s, doc))
  }

  lemma Witness(s: State, t: Token)
    requires Is(s, t, Posted)
    ensures exists u :: Is(s, u, Posted)
  {
  }

  lemma StillAnnounced(s: State, step: Step, doc: Doc)
    requires SlotInv(s) && Enabled(s, step) && doc in Next(s, step).pending
    ensures Announced(Next(s, step), doc)
  {
    var x := Next(s, step);
    if doc !in s.pending {
      assert x.callers[step.t] == Persisted(doc);
    } else if !HasWork(x) {
      if HasWork(s) {
        // only the owner consumes, and it is about to read the pending rows
        assert x.callers[step.t].Refetching?;
      } else if t :| t in s.callers && (s.callers[t] == Persisted(doc) || s.callers[t].Refetching?) {
        assert x.callers[t] == s.callers[t] || x.callers[t] == Draining(s.pending);
      } else {
        var t :| t in s.callers && s.callers[t].Draining? && doc in s.callers[t].batch;
        assert s.owner == Some(t);
        assert t in x.callers && x.callers[t].Draining? && doc in x.callers[t].batch;
      }
    }
  }

  /** Every step of every caller keeps the protocol's invariant. */
  lemma StepKeeps(s: State, step: Step)
    requires SlotInv(s) && Enabled(s, step)
    ensures SlotInv(Next(s, step))
  {
    var x := Next(s, step);
    forall doc | doc in x.pending
      ensures Announced(x, doc)
    {
      StillAnnounced(s, step, doc);
    }
    if x.owner == None && HasWork(x) {
      if step.Post? || step.RequestRetry? {
        Witness(x, step.t);
      } else {
        assert s.owner == None && HasWork(s);
        var t :| Is(s, t, Posted);
        assert Is(x, t, Posted);
      }
    }
  }

  /** What a step may take away.  A pending row goes only when it is finished.  Mail, the rescan flag and the
      oldest manual request, and no other, go only to a caller that holds the slot and reads the pending
      rows next.  And a step moves no caller but its own. */
  lemma TakenOnlyToRead(s: State, step: Step)
    requires SlotInv(s) && Enabled(s, step)
    ensures
      var x := Next(s, step);
      && (forall doc :: doc in s.pending && doc !in x.pending ==> step == Finish(step.t, doc))
      && (forall doc :: doc in x.pending && doc !in s.pending ==> step == Persist(step.t, doc))
      && (x.messages != s.messages ==>
            (step.Post? && x.messages == s.messages + {s.callers[step.t].doc}) || (x.messages == {} && Reads(x, step.t)))
      && (s.rescan && !x.rescan ==> Reads(x, step.t))
      && (x.manual != s.manual ==>
            (step.RequestRetry? && x.manual == s.manual + [step.t]) ||
            (s.manual != [] && x.manual == s.manual[1..] && Reads(x, step.t)))
      && (forall u :: u != step.t ==> Get(x.callers, u) == Get(s.callers, u))
  {
  }

  /** What a step may add.  The slot is taken only when it is free, by the caller that tries or acquires it; a
      try that is refused arms the rescan, and nothing else does; and whoever finds work on its way out keeps
      the slot to read the pending rows. */
  lemma RefusalsAreRescanned(s: State, step: Step)
    requires SlotInv(s) && Enabled(s, step)
    ensures
      var x := Next(s, step);
      && (x.owner.Some? && x.owner != s.owner ==>
            s.owner == None && x.owner == Some(step.t) && (step.Try? || step.Acquire?))
      && (step.Try? || step.Acquire? ==> (x.owner == Some(step.t) <==> s.owner == None))
      && (step.Try? && s.owner.Some? ==> x.rescan)
      && (x.rescan && !s.rescan ==> step.Try? && s.owner.Some?)
      && (step.Exit? && HasWork(s) ==> Reads(x, step.t))
  {
  }

  /** A processing run takes one kind of work at a time: the oldest manual request first, then the rescan,
      then the mail; and a slot is freed only where there is none. */
  lemma TakenInTurn(s: State, step: Step)
    requires SlotInv(s) && Enabled(s, step)
    ensures
      var x := Next(s, step);
      && (|x.manual| < |s.manual| ==> x.rescan == s.rescan && x.messages == s.messages)
      && (step.Decide? && s.rescan && !x.rescan ==> s.manual == [] && x.messages == s.messages)
      && (s.messages != {} && x.messages == {} ==> s.manual == [] && !s.rescan)
      && (s.owner.Some? && x.owner == None ==> s.owner == Some(step.t) && !HasWork(s))
      && (step.Decide? && HasWork(s) ==> Reads(x, step.t))
  {
  }

  predicate Reads(s: State, t: Token) {
    s.owner == Some(t) && Is(s, t, Refetching)
  }

  // ----- Runs -----

  predicate Runs(s: State, steps: seq<Step>)
    decreases |steps|
  {
    steps == [] || (Enabled(s, steps[0]) && Runs(Next(s, steps[0]), steps[1..]))
  }

  function After(s: State, steps: seq<Step>): State
    requires Runs(s, steps)
    decreases |steps|
  {
    if steps == [] then s else After(Next(s, steps[0]), steps[1..])
  }

  lemma {:induction false} RunKeeps(s: State, steps: seq<Step>)
    requires SlotInv(s) && Runs(s, steps)
    ensures SlotInv(After(s, steps))
    decreases |steps|
  {
    if steps != [] {
      StepKeeps(s, steps[0]);
      RunKeeps(Next(s, steps[0]), steps[1..]);
    }
  }

  /** No stranded work, one owner: in every reachable state a free slot with mail, or with a row still
      pending, means some caller has yet to post or to try; and whoever holds is the owner. */
  lemma NothingStranded(steps: seq<Step>)
    requires Runs(IDLE, steps)
    ensures
      var s := After(IDLE, steps);
      && (s.owner == None && HasWork(s) ==> exists t :: Is(s, t, Posted))
      && (s.owner == None && s.pending != {} ==> exists t :: t in s.callers && (s.callers[t] == Posted || s.callers[t].Persisted?))
      && (forall t, u :: t in s.callers && u in s.callers && Holding(s.callers[t]) && Holding(s.callers[u]) ==> t == u)
  {
    RunKeeps(IDLE, steps);
    var s := After(IDLE, steps);
    if s.owner == None && s.pending != {} {
      var doc :| doc in s.pending;
      assert Announced(s, doc);
      if HasWork(s) {
        var t :| Is(s, t, Posted);
        assert s.callers[t] == Posted;
      }
    }
  }

  lemma {:induction false} PendingUntilFinished(s: State, steps: seq<Step>, doc: Doc)
    requires SlotInv(s) && Runs(s, steps) && doc in s.pending && doc !in After(s, steps).pending
    ensures exists j :: 0 <= j < |steps| && steps[j].Finish? && steps[j].doc == doc
    decreases |steps|
  {
    var x := Next(s, steps[0]);
    TakenOnlyToRead(s, steps[0]);
    StepKeeps(s, steps[0]);
    if doc in x.pending {
      PendingUntilFinished(x, steps[1..], doc);
      var j :| 0 <= j < |steps| - 1 && steps[1..][j].Finish? && steps[1..][j].doc == doc;
      assert steps[j + 1] == steps[1..][j];
    }
  }

  /** No row is lost: one that was stored in the course of a run and is no longer pending was finished after
      that. */
  lemma {:induction false} EveryRowIsFinished(s: State, steps: seq<Step>, i: nat)
    requires SlotInv(s) && Runs(s, steps) && i < |steps| && steps[i].Persist?
    requires steps[i].doc !in After(s, steps).pending
    ensures exists j :: i < j < |steps| && steps[j].Finish? && steps[j].doc == steps[i].doc
    decreases |steps|
  {
    var x := Next(s, steps[0]);
    StepKeeps(s, steps[0]);
    if i == 0 {
      PendingUntilFinished(x, steps[1..], steps[i].doc);
    } else {
      assert steps[1..][i - 1] == steps[i];
      EveryRowIsFinished(x, steps[1..], i - 1);
    }
    var j :| (if i == 0 then 0 else i) <= j < |steps| - 1 && steps[1..][j].Finish? && steps[1..][j].doc == steps[i].doc;
    assert steps[j + 1] == steps[1..][j];
  }

  /** A release that comes late never clears a later holder's slot. */
  lemma LateReleaseIsHarmless(steps: seq<Step>, t: Token)
    requires Runs(IDLE, steps) && Is(After(IDLE, steps), t, Gone)
    ensures Released(After(IDLE, steps), t) == After(IDLE, steps)
  {
    RunKeeps(IDLE, steps);
  }

  /** A handoff whose run is cancelled ends in the backstop release.  That keeps the invariant exactly
      when the mail, if there is any, has a poster still to try, and, if there is none, every pending
      row has its enqueuer still to post. */
  lemma CancelledHandoffIsSafeIff(s: State, t: Token)
    requires SlotInv(s) && Is(s, t, Refetching)
    ensures
      SlotInv(Released(s, t).(callers := s.callers[t := Gone])) <==>
      if HasWork(s) then exists u :: Is(s, u, Posted)
      else forall doc :: doc in s.pending ==> exists u :: Is(s, u, Persisted(doc))
  {
    var x := Released(s, t).(callers := s.callers[t := Gone]);
    forall u, c | c == Posted || c.Persisted?
      ensures Is(x, u, c) == Is(s, u, c)
    {
    }
    forall doc | doc in s.pending
      ensures Announced(x, doc) <==> HasWork(s) || exists u :: Is(s, u, Persisted(doc))
    {
      if Announced(x, doc) && !HasWork(s) {
        var u :| u in x.callers && (x.callers[u] == Persisted(doc) || x.callers[u].Refetching? || x.callers[u].Draining?);
        assert Is(s, u, Persisted(doc));
      }
      if exists u :: Is(s, u, Persisted(doc)) {
        var u :| Is(s, u, Persisted(doc));
        assert u in x.callers && x.callers[u] == Persisted(doc);
      }
    }
  }

  // ----- A holder left alone finishes -----

  lemma {:induction false} RunsOneMore(s: State, steps: seq<Step>, step: Step)
    requires Runs(s, steps) && Enabled(After(s, steps), step)
    ensures Runs(s, steps + [step]) && After(s, steps + [step]) == Next(After(s, steps), step)
    decreases |steps|
  {
    if steps == [] {
      assert [] + [step] == [step] && [step][1..] == [];
    } else {
      assert (steps + [step])[1..] == steps[1..] + [step];
      RunsOneMore(Next(s, steps[0]), steps[1..], step);
    }
  }

  function Left(s: State): nat {
    2 * |s.manual| + (if s.rescan then 2 else 0) + (if s.messages != {} then 2 else 0)
  }

  /** Left alone, a processing run empties the mailbox, processes every pending row and frees the slot. */
  method DrainAlone(s: State, t: Token) returns (steps: seq<Step>)
    requires Is(s, t, Refetching) && s.owner == Some(t)
    ensures Runs(s, steps)
    ensures
      var x := After(s, steps);
      x.owner == None && !HasWork(x) && x.pending == {}
  {
    steps := [];
    var x := s;
    while x.owner == Some(t)
      invariant Runs(s, steps) && x == After(s, steps)
      invariant x.owner == None || (x.owner == Some(t) && t in x.callers && (x.callers[t].Refetching? || x.callers[t].Draining?))
      invariant x.owner == Some(t) && x.callers[t].Draining? ==> x.pending == x.callers[t].batch
      invariant x.owner == None ==> !HasWork(x) && x.pending == {}
      decreases x.owner.Some?, Left(x), x.owner.Some? && x.callers[t].Refetching?, |x.pending|
    {
      var step: Step;
      if x.callers[t].Refetching? {
        step := Fetch(t);
      } else if x.callers[t].batch != {} {
        var doc :| doc in x.callers[t].batch;
        step := Finish(t, doc);
      } else {
        step := Decide(t);
      }
      RunsOneMore(s, steps, step);
      steps := steps + [step];
      x := Next(x, step);
    }
  }
}
