/** The paged sweep that drives rollback, over a live table whose rows it changes as it goes. */
module Sweep {
  import opened Stores

  type Id = nat

  /** The immutable sort key of a row is its creation time, then its id. */
  datatype Record = Record(created: int, swept: bool, journaled: bool)

  /** What rolling a row back did to it: nothing (it failed), or it left the swept statuses, or went. */
  datatype Effect = Stays | Leaves | Vanishes

  /** Keys compare the same however much else of the rows has changed. */
  datatype Key = Key(created: int, id: Id)

  predicate Less(a: Key, b: Key) {
    a.created < b.created || (a.created == b.created && a.id < b.id)
  }

  function KeyOf(rows: map<Id, Record>, d: Id): Key {
    Key(if d in rows then rows[d].created else 0, d)
  }

  /** Strictly ascending keys: in key order, and each once. */
  ghost predicate Ascending(rows: map<Id, Record>, ids: seq<Id>) {
    forall i, j :: 0 <= i < j < |ids| ==> Less(KeyOf(rows, ids[i]), KeyOf(rows, ids[j]))
  }

  /** Rows in creation order, ids deciding ties. */
  ghost predicate InCreationOrder(rows: map<Id, Record>, ids: seq<Id>) {
    forall i, j :: 0 <= i < j < |ids| ==>
      && ids[i] in rows && ids[j] in rows
      && (rows[ids[i]].created < rows[ids[j]].created ||
          (rows[ids[i]].created == rows[ids[j]].created && ids[i] < ids[j]))
  }

  /** A record of the underlying order that the sweep has not consumed. */
  predicate Unread(rows: map<Id, Record>, after: Option<Key>, d: Id) {
    d in rows && (after.Some? ==> Less(after.value, KeyOf(rows, d)))
  }

  /** One of the swept statuses. */
  predicate Beyond(rows: map<Id, Record>, after: Option<Key>, d: Id) {
    Unread(rows, after, d) && rows[d].swept
  }

  /** The cursor has not moved back. */
  predicate AtOrAfter(behind: Option<Key>, position: Option<Key>) {
    behind.Some? ==> position.Some? && (position == behind || Less(behind.value, position.value))
  }

  /** No row was created, none was re-keyed. */
  predicate SameKeys(rows: map<Id, Record>, later: map<Id, Record>) {
    forall d :: d in later ==> d in rows && later[d].created == rows[d].created
  }

  function Effected(record: Option<Record>, effect: Effect): Option<Record> {
    match effect
    case Stays => record
    case Leaves => if record.Some? then Some(record.value.(swept := false, journaled := false)) else None
    case Vanishes => None
  }

  /** Exactly the rows of `ids` were rolled back, each once. */
  ghost predicate RolledBack(rows: map<Id, Record>, later: map<Id, Record>, ids: seq<Id>, effects: Id -> Effect) {
    forall d :: Get(later, d) == if d in ids then Effected(Get(rows, d), effects(d)) else Get(rows, d)
  }

  class Table {
    var rows: map<Id, Record>

    constructor (rows: map<Id, Record>)
      ensures this.rows == rows
    {
      this.rows := rows;
    }

    /** The unread record with the smallest key. */
    method Smallest(after: Option<Key>) returns (r: Option<Id>)
      ensures r.None? ==> forall d :: !Unread(rows, after, d)
      ensures r.Some? ==> Unread(rows, after, r.value)
      ensures r.Some? ==> forall d :: Unread(rows, after, d) ==> d == r.value || Less(KeyOf(rows, r.value), KeyOf(rows, d))
    {
      var todo := rows.Keys;
      r := None;
      while todo != {}
        invariant todo <= rows.Keys
        invariant r.Some? ==> Unread(rows, after, r.value)
        invariant forall d :: Unread(rows, after, d) && d !in todo ==>
          r.Some? && (d == r.value || Less(KeyOf(rows, r.value), KeyOf(rows, d)))
        decreases todo
      {
        var d :| d in todo;
        if Unread(rows, after, d) && (r.None? || Less(KeyOf(rows, d), KeyOf(rows, r.value))) {
          r := Some(d);
        }
        todo := todo - {d};
      }
    }

    /** One bounded page in key order.  Records of other statuses are consumed and dropped, and a backend
        may stop before the page is full: a page may be short, or empty, without being the last.  Only `end`
        says that the sweep is exhausted; otherwise the cursor has consumed some record. */
    method Page(limit: nat, after: Option<Key>) returns (ids: seq<Id>, next: Option<Key>, end: bool)
      requires limit > 0
      ensures |ids| <= limit
      ensures PageOf(rows, after, next, ids, end) && InCreationOrder(rows, ids)
      ensures !end ==> exists d :: Unread(rows, after, d) && !Unread(rows, next, d)
    {
      ids, next, end := [], after, false;
      var stop := false;
      while |ids| < limit && !end && !stop
        invariant |ids| <= limit && PageOf(rows, after, next, ids, end)
        invariant end || (|ids| == 0 && next == after && !stop) || exists d :: Unread(rows, after, d) && !Unread(rows, next, d)
        decreases |UnreadRecords(rows, next)|, !end, !stop
      {
        var d := Smallest(next);
        if d.Some? {
          ghost var before := next;
          if rows[d.value].swept {
            ids := ids + [d.value];
          }
          next := Some(KeyOf(rows, d.value));
          Consumed(rows, after, before, ids, d.value);
          stop := *;
        } else {
          end := true;
        }
      }
    }

    /** One rollback; it touches no other row and never creates one. */
    method RollBack(d: Id, effect: Effect)
      requires d in rows
      modifies this
      ensures forall x :: Get(rows, x) == if x == d then Effected(Get(old(rows), d), effect) else Get(old(rows), x)
    {
      match effect {
        case Stays =>
        case Leaves => rows := rows[d := rows[d].(swept := false, journaled := false)];
        case Vanishes => rows := rows - {d};
      }
    }

    /** The rows of one page, each re-read before it is rolled back. */
    method RollBackPage(ids: seq<Id>, effects: Id -> Effect) returns (attempted: seq<Id>)
      requires forall i :: 0 <= i < |ids| ==> ids[i] in rows
      requires forall i, j :: 0 <= i < j < |ids| ==> ids[i] != ids[j]
      modifies this
      ensures forall d :: d !in ids ==> Get(rows, d) == Get(old(rows), d)
      ensures SameKeys(old(rows), rows)
      ensures attempted == Journaled(old(rows), ids)
      ensures RolledBack(old(rows), rows, attempted, effects)
    {
      attempted := [];
      for i := 0 to |ids|
        invariant forall d :: d !in ids[..i] ==> Get(rows, d) == Get(old(rows), d)
        invariant SameKeys(old(rows), rows)
        invariant attempted == Journaled(old(rows), ids[..i])
        invariant RolledBack(old(rows), rows, attempted, effects)
      {
        assert ids[..i + 1][..i] == ids[..i];
        assert ids[i] !in ids[..i];
        assert Get(rows, ids[i]) == Get(old(rows), ids[i]);
        if rows[ids[i]].journaled {
          attempted := attempted + [ids[i]];
          RollBack(ids[i], effects(ids[i]));
        }
      }
      assert ids[..|ids|] == ids;
    }

    /** The sweep attempts exactly the journaled rows of the swept statuses, each once, in key order,
        whatever its rollbacks do to the rows behind it. */
    method RollBackAll(limit: nat, effects: Id -> Effect) returns (attempted: seq<Id>)
      requires limit > 0
      modifies this
      ensures forall d :: d in attempted <==> d in old(rows) && old(rows)[d].swept && old(rows)[d].journaled
      ensures InCreationOrder(old(rows), attempted)
      ensures forall d :: d !in attempted ==> Get(rows, d) == Get(old(rows), d)
      ensures forall d :: d in attempted ==>
        match effects(d)
        case Stays => Get(rows, d) == Get(old(rows), d)
        case Leaves => d in rows && rows[d] == Record(old(rows)[d].created, false, false)
        case Vanishes => d !in rows
    {
      attempted := [];
      var position: Option<Key> := None;
      var end := false;
      ghost var first := rows;
      while !end
        invariant Visited(first, rows, position, attempted)
        invariant RolledBack(first, rows, attempted, effects)
        invariant end ==> forall d :: !Beyond(first, position, d)
        invariant SameKeys(first, rows)
        decreases !end, UnreadRecords(first, position)
      {
        ghost var now, behind := rows, position;
        var ids: seq<Id>;
        ids, position, end := Page(limit, position);
        var more := RollBackPage(ids, effects);
        PageVisited(first, now, rows, behind, position, ids, attempted, end);
        RolledBackTogether(first, now, rows, attempted, more, effects);
        attempted := attempted + more;
        if !end {
          ghost var d :| Unread(now, behind, d) && !Unread(now, position, d);
          assert d in UnreadRecords(first, behind) && d !in UnreadRecords(first, position);
        }
      }
    }
  }

  lemma RolledBackTogether(first: map<Id, Record>, now: map<Id, Record>, rows: map<Id, Record>, ids: seq<Id>,
      more: seq<Id>, effects: Id -> Effect)
    requires RolledBack(first, now, ids, effects) && RolledBack(now, rows, more, effects)
    requires forall d :: d in more ==> d !in ids
    ensures RolledBack(first, rows, ids + more, effects)
  {
  }

  ghost function UnreadRecords(rows: map<Id, Record>, position: Option<Key>): set<Id> {
    set d | d in rows && Unread(rows, position, d)
  }

  function Journaled(rows: map<Id, Record>, ids: seq<Id>): (r: seq<Id>)
    ensures forall d :: d in r <==> d in ids && d in rows && rows[d].journaled
  {
    if ids == [] then []
    else
      var front := Journaled(rows, ids[..|ids| - 1]);
      var last := ids[|ids| - 1];
      assert ids == ids[..|ids| - 1] + [last];
      if last in rows && rows[last].journaled then front + [last] else front
  }

  /** Everything up to the position has been dealt with; everything beyond is as it was. */
  ghost predicate Visited(first: map<Id, Record>, rows: map<Id, Record>, position: Option<Key>, attempted: seq<Id>) {
    && (forall d :: Beyond(first, position, d) || Beyond(rows, position, d) ==> Get(rows, d) == Get(first, d))
    && (forall d :: d in attempted <==> d in first && first[d].swept && first[d].journaled && !Beyond(first, position, d))
    && Ascending(first, attempted)
  }

  lemma {:induction false} JournaledInOrder(first: map<Id, Record>, ids: seq<Id>)
    requires Ascending(first, ids)
    ensures Ascending(first, Journaled(first, ids))
  {
    if ids != [] {
      var front, last := ids[..|ids| - 1], ids[|ids| - 1];
      JournaledInOrder(first, front);
      var before := Journaled(first, front);
      forall i | 0 <= i < |before|
        ensures Less(KeyOf(first, before[i]), KeyOf(first, last))
      {
        assert before[i] in front;
      }
    }
  }

  lemma {:induction false} JournaledReads(rows: map<Id, Record>, first: map<Id, Record>, ids: seq<Id>)
    requires forall i :: 0 <= i < |ids| ==> Get(rows, ids[i]) == Get(first, ids[i])
    ensures Journaled(rows, ids) == Journaled(first, ids)
  {
    if ids != [] {
      JournaledReads(rows, first, ids[..|ids| - 1]);
      assert Get(rows, ids[|ids| - 1]) == Get(first, ids[|ids| - 1]);
    }
  }

  /** What a page returned of the rows between two positions of the cursor: exactly the swept ones, in key
      order. */
  ghost predicate PageOf(rows: map<Id, Record>, behind: Option<Key>, position: Option<Key>, ids: seq<Id>, end: bool) {
    && AtOrAfter(behind, position)
    && (forall i :: 0 <= i < |ids| ==> Beyond(rows, behind, ids[i]) && !Beyond(rows, position, ids[i]))
    && Ascending(rows, ids)
    && (forall d :: Beyond(rows, behind, d) ==> d in ids || Beyond(rows, position, d))
    && (end ==> forall d :: Beyond(rows, behind, d) ==> d in ids)
  }

  /** Consuming the smallest unread record extends the page. */
  lemma Consumed(rows: map<Id, Record>, after: Option<Key>, before: Option<Key>, ids: seq<Id>, d: Id)
    requires Unread(rows, before, d) && AtOrAfter(after, before)
    requires forall x :: Unread(rows, before, x) ==> x == d || Less(KeyOf(rows, d), KeyOf(rows, x))
    requires PageOf(rows, after, before, if rows[d].swept && ids != [] then ids[..|ids| - 1] else ids, false)
    requires rows[d].swept ==> ids != [] && ids[|ids| - 1] == d
    ensures
      var next := Some(KeyOf(rows, d));
      && PageOf(rows, after, next, ids, false)
      && Unread(rows, after, d) && !Unread(rows, next, d)
      && UnreadRecords(rows, next) < UnreadRecords(rows, before)
      && |UnreadRecords(rows, next)| < |UnreadRecords(rows, before)|
  {
    var next := Some(KeyOf(rows, d));
    forall x | Unread(rows, next, x)
      ensures Unread(rows, before, x)
    {
    }
    assert d in UnreadRecords(rows, before) && d !in UnreadRecords(rows, next);
    FewerRecords(UnreadRecords(rows, next), UnreadRecords(rows, before));
  }

  lemma FewerRecords(fewer: set<Id>, records: set<Id>)
    requires fewer < records
    ensures |fewer| < |records|
  {
    var d :| d in records && d !in fewer;
    assert records == fewer + (records - fewer) && d in records - fewer;
  }

  lemma PageMeans(rows: map<Id, Record>, behind: Option<Key>, position: Option<Key>, ids: seq<Id>, end: bool)
    requires PageOf(rows, behind, position, ids, end)
    ensures forall d :: d in ids ==> !Beyond(rows, position, d)
    ensures forall d :: Beyond(rows, position, d) ==> Beyond(rows, behind, d)
    ensures end ==> forall d :: !Beyond(rows, position, d)
  {
  }

  lemma PageVisited(first: map<Id, Record>, now: map<Id, Record>, rows: map<Id, Record>, behind: Option<Key>,
      position: Option<Key>, ids: seq<Id>, attempted: seq<Id>, end: bool)
    requires Visited(first, now, behind, attempted) && PageOf(now, behind, position, ids, end)
    requires SameKeys(now, rows) && forall d :: d !in ids ==> Get(rows, d) == Get(now, d)
    ensures PageOf(first, behind, position, ids, end)
    ensures forall d :: d in Journaled(now, ids) ==> d !in attempted
    ensures Visited(first, rows, position, attempted + Journaled(now, ids))
    ensures end ==> forall d :: !Beyond(first, position, d)
  {
    PageSeen(first, now, behind, position, ids, attempted, end);
    PageMeans(first, behind, position, ids, end);
    JournaledReads(now, first, ids);
    JournaledInOrder(first, ids);
    var more := Journaled(first, ids);
    forall d | Beyond(first, position, d) || Beyond(rows, position, d)
      ensures Get(rows, d) == Get(first, d)
    {
      BehindStays(first, now, rows, behind, position, ids, attempted, end, d);
    }
    forall a, b | a in attempted && b in more
      ensures Less(KeyOf(first, a), KeyOf(first, b))
    {
      assert !Beyond(first, behind, a) && Beyond(first, behind, b);
    }
  }

  lemma PageSeen(first: map<Id, Record>, now: map<Id, Record>, behind: Option<Key>, position: Option<Key>,
      ids: seq<Id>, attempted: seq<Id>, end: bool)
    requires Visited(first, now, behind, attempted) && PageOf(now, behind, position, ids, end)
    ensures PageOf(first, behind, position, ids, end)
    ensures forall i :: 0 <= i < |ids| ==> Get(now, ids[i]) == Get(first, ids[i])
  {
    forall i | 0 <= i < |ids|
      ensures Get(now, ids[i]) == Get(first, ids[i]) && KeyOf(now, ids[i]) == KeyOf(first, ids[i])
      ensures Beyond(first, behind, ids[i])
    {
      assert Beyond(now, behind, ids[i]);
    }
    forall d | Beyond(first, behind, d)
      ensures Beyond(now, behind, d) && Get(now, d) == Get(first, d)
    {
    }
  }

  lemma BehindStays(first: map<Id, Record>, now: map<Id, Record>, rows: map<Id, Record>, behind: Option<Key>,
      position: Option<Key>, ids: seq<Id>, attempted: seq<Id>, end: bool, d: Id)
    requires Visited(first, now, behind, attempted) && PageOf(now, behind, position, ids, end)
    requires forall x :: x !in ids ==> Get(rows, x) == Get(now, x)
    requires SameKeys(now, rows)
    requires Beyond(first, position, d) || Beyond(rows, position, d)
    ensures Get(rows, d) == Get(first, d)
  {
    PageSeen(first, now, behind, position, ids, attempted, end);
    PageMeans(first, behind, position, ids, end);
    PageMeans(now, behind, position, ids, end);
  }
}
