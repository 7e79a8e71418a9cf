/** The document row across a custom-chunk operation: what each transition carries, and what a
    rollback gives back. */
module CustomChunkRow {
  import opened Stores
  import opened Truncation
  import opened KnowledgeGraph

  datatype RecordChange = Carry | Stamp(payload: Payload) | Retire

  function Stamped(p: Option<Payload>): RecordChange {
    if p.None? then Retire else Stamp(p.value)
  }

  /** The one write all transitions share: everything but the named fields is copied from the base. */
  function Transition(base: Option<Row>, content: string, status: Status, journal: Option<CustomJournal>,
      chunks: Option<seq<SourceId>>, change: RecordChange): Row
  {
    var prev := if base.Some? then base.value else Row(status, [], 0, content, None, Unknown, None, None, false);
    var list := if chunks.Some? then chunks.value else prev.chunksList;
    var record :=
      match change
      case Carry => prev.truncation
      case Stamp(p) => Some(p)
      case Retire => None;
    prev.(status := status, chunksList := list, chunksCount := |list|, truncation := record, custom := journal)
  }

  /** The record the terminal writes stamp: the pre-operation snapshot plus every attempt's events. */
  function TerminalRecord(j: CustomJournal, attempt: Option<Payload>): Option<Payload> {
    Merge(j.prior, Merge(j.record, attempt))
  }

  /** What a patch must give back if it is rolled back. */
  datatype BaseFacts = BaseFacts(chunksList: seq<SourceId>, carried: string, truncation: Option<Payload>,
      writeState: WriteState, purge: Option<PurgeJournal>)

  function BaseOf(row: Row): BaseFacts {
    BaseFacts(
      row.chunksList, row.carried,
      if row.custom.Some? then row.custom.value.prior else row.truncation,
      row.writeState, row.purge)
  }

  function Remove(ids: seq<SourceId>, gone: seq<SourceId>): (r: seq<SourceId>)
    ensures forall c :: c in r <==> c in ids && c !in gone
    ensures (forall c :: c in ids ==> c !in gone) ==> r == ids
  {
    if ids == [] then []
    else
      var rest := Remove(ids[1..], gone);
      assert ids == [ids[0]] + ids[1..];
      if ids[0] in gone then rest else [ids[0]] + rest
  }

  /** Rollback of a patch: the staged ids leave the list, the journal goes, the snapshot returns. */
  function RolledBack(row: Row): Row
    requires row.custom.Some?
  {
    var j := row.custom.value;
    Transition(Some(row), "", Processed, None, Some(Remove(row.chunksList, j.staged)), Stamped(j.prior))
  }

  /** Any journaled, non-committing transition of a patch keeps the base facts, so rolling back after
      it restores them; dropping staged ids is harmless exactly because none of them is a base id. */
  lemma RollbackRestoresBase(before: Row, journal: CustomJournal, status: Status, change: RecordChange)
    requires journal.prior == BaseOf(before).truncation
    ensures
      var failed := Transition(Some(before), "", status, Some(journal), None, change);
      && BaseOf(failed) == BaseOf(before)
      && RolledBack(failed).custom == None
      && RolledBack(failed).status == Processed
      && (BaseOf(RolledBack(failed)) == BaseOf(before) <==>
            forall c :: c in journal.staged ==> c !in before.chunksList)
      && RolledBack(failed).chunksCount == |RolledBack(failed).chunksList|
  {
    var failed := Transition(Some(before), "", status, Some(journal), None, change);
    var kept := Remove(before.chunksList, journal.staged);
    if kept == before.chunksList {
      forall c | c in journal.staged
        ensures c !in before.chunksList
      {
        assert c !in kept;
      }
    }
  }
}
