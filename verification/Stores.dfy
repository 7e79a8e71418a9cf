/** A buffered key-value store: what the process sees, and what survives a crash.

  Every storage backend of the knowledge graph buffers its writes and commits them at a flush
  barrier.  A backend may also commit some keys early, a barrier may fail after committing only
  some keys, and a crash drops whatever was not committed.  `Remix` covers all of these at once:
  afterwards each view shows, key by key, something one of the two views showed before.
 */
module Stores {

  datatype Option<+T> = None | Some(value: T)

  function Get<K, V>(m: map<K, V>, k: K): (r: Option<V>)
    ensures r.Some? <==> k in m
    ensures k in m ==> r == Some(m[k])
  {
    if k in m then Some(m[k]) else None
  }

  datatype View = Mem | Disk

  datatype Store<K, V> = Store(mem: map<K, V>, disk: map<K, V>) {

    function At(v: View): map<K, V> {
      if v == Mem then mem else disk
    }

    /** A buffered write. */
    function Upsert(entries: map<K, V>): Store<K, V> {
      Store(mem + entries, disk)
    }

    /** A buffered write of one entry. */
    function Put(k: K, v: V): Store<K, V> {
      Store(mem[k := v], disk)
    }

    /** A buffered delete. */
    function Delete(keys: set<K>): Store<K, V> {
      Store(mem - keys, disk)
    }

    /** A write that is durable when it returns, as the doc-status backends promise. */
    function UpsertDurable(k: K, v: V): Store<K, V> {
      Store(mem[k := v], disk[k := v])
    }

    /** Commits the buffered state of `keys` only. */
    function Persist(keys: set<K>): Store<K, V> {
      Store(mem, (disk - keys) + (map k | k in keys && k in mem :: mem[k]))
    }

    /** A successful flush barrier. */
    function Flush(): Store<K, V> {
      Store(mem, mem)
    }

    /** A crash, or a discard of the pending buffer. */
    function Revert(): Store<K, V> {
      Store(disk, disk)
    }
  }

  /** Every key in memory is durable, with some value. */
  ghost predicate KeysDurable<K(!new), V(!new)>(s: Store<K, V>) {
    forall k :: k in s.mem ==> k in s.disk
  }

  /** Every entry in memory is durable. */
  ghost predicate EntriesDurable<K(!new), V(!new)>(s: Store<K, V>) {
    forall k :: k in s.mem ==> k in s.disk && s.disk[k] == s.mem[k]
  }

  ghost predicate Remix<K(!new), V(!new)>(s: Store<K, V>, t: Store<K, V>) {
    && (forall v, k :: Get(t.At(v), k) == Get(s.mem, k) || Get(t.At(v), k) == Get(s.disk, k))
    && (KeysDurable(s) ==> KeysDurable(t))
    && (EntriesDurable(s) ==> EntriesDurable(t))
  }

  /** Flushing, crashing, and committing any subset of the keys are all remixes, and nothing else
      distinguishes an interrupted barrier from a completed one. */
  lemma BufferingIsRemix<K(!new), V(!new)>(s: Store<K, V>, keys: set<K>)
    ensures Remix(s, s.Persist(keys))
    ensures Remix(s, s.Flush())
    ensures Remix(s, s.Revert())
    ensures s.Persist(s.mem.Keys + s.disk.Keys) == s.Flush()
    ensures s.Persist({}) == s
    ensures s.mem == s.disk ==> s.Persist(keys) == s
  {
    forall v, k
      ensures
        var t := s.Persist(keys);
        Get(t.At(v), k) == Get(s.mem, k) || Get(t.At(v), k) == Get(s.disk, k)
    {
      if k in keys {
        assert Get(s.Persist(keys).disk, k) == Get(s.mem, k);
      } else {
        assert Get(s.Persist(keys).disk, k) == Get(s.disk, k);
      }
    }
    assert s.Persist(s.mem.Keys + s.disk.Keys).disk == s.mem;
  }

  // ----- What a command may touch -----

  /** Of `k`, the map shows what one of the views showed. */
  predicate Seen<K, V(==)>(s: Store<K, V>, m: map<K, V>, k: K) {
    Get(m, k) == Get(s.mem, k) || Get(m, k) == Get(s.disk, k)
  }

  /** Each view shows, key by key, something one of the views showed at the start, or the new entry. */
  ghost predicate Within<K(!new), V(!new)>(start: Store<K, V>, now: Store<K, V>, entries: map<K, V>) {
    forall v, k :: Seen(start, now.At(v), k) || (k in entries && Get(now.At(v), k) == Some(entries[k]))
  }

  /** The same, with one key left free. */
  ghost predicate WithinBut<K(!new), V(!new)>(start: Store<K, V>, now: Store<K, V>, free: K) {
    forall v, k :: k == free || Seen(start, now.At(v), k)
  }

  lemma WithinItself<K(!new), V(!new)>(s: Store<K, V>, entries: map<K, V>, free: K)
    ensures Within(s, s, entries) && WithinBut(s, s, free)
  {
    forall v, k
      ensures Seen(s, s.At(v), k)
    {
    }
  }

  lemma WithinAfterRemix<K(!new), V(!new)>(start: Store<K, V>, now: Store<K, V>, next: Store<K, V>,
      entries: map<K, V>)
    requires Remix(now, next) && Within(start, now, entries)
    ensures Within(start, next, entries)
  {
    forall v, k
      ensures Seen(start, next.At(v), k) || (k in entries && Get(next.At(v), k) == Some(entries[k]))
    {
      RemixAt(now, next, k);
      assert Seen(start, now.At(Mem), k) || (k in entries && Get(now.At(Mem), k) == Some(entries[k]));
      assert Seen(start, now.At(Disk), k) || (k in entries && Get(now.At(Disk), k) == Some(entries[k]));
    }
  }

  lemma WithinButAfterRemix<K(!new), V(!new)>(start: Store<K, V>, now: Store<K, V>, next: Store<K, V>, free: K)
    requires Remix(now, next) && WithinBut(start, now, free)
    ensures WithinBut(start, next, free)
  {
    forall v, k | k != free
      ensures Seen(start, next.At(v), k)
    {
      RemixAt(now, next, k);
      assert Seen(start, now.At(Mem), k) && Seen(start, now.At(Disk), k);
    }
  }

  lemma RemixAt<K(!new), V(!new)>(s: Store<K, V>, t: Store<K, V>, k: K)
    requires Remix(s, t)
    ensures Get(t.mem, k) == Get(s.mem, k) || Get(t.mem, k) == Get(s.disk, k)
    ensures Get(t.disk, k) == Get(s.mem, k) || Get(t.disk, k) == Get(s.disk, k)
  {
    assert t.mem == t.At(Mem) && t.disk == t.At(Disk);
    assert Get(t.At(Mem), k) == Get(s.mem, k) || Get(t.At(Mem), k) == Get(s.disk, k);
    assert Get(t.At(Disk), k) == Get(s.mem, k) || Get(t.At(Disk), k) == Get(s.disk, k);
  }

  lemma WithinAfterUpsert<K(!new), V(!new)>(start: Store<K, V>, now: Store<K, V>, more: map<K, V>, entries: map<K, V>)
    requires Within(start, now, entries) && forall k :: k in more ==> k in entries && entries[k] == more[k]
    ensures Within(start, now.Upsert(more), entries)
  {
    forall v, k
      ensures
        var m := now.Upsert(more).At(v);
        Seen(start, m, k) || (k in entries && Get(m, k) == Some(entries[k]))
    {
      assert Seen(start, now.At(v), k) || (k in entries && Get(now.At(v), k) == Some(entries[k]));
    }
  }

  lemma WithinAfterPut<K(!new), V(!new)>(start: Store<K, V>, now: Store<K, V>, k: K, value: V, entries: map<K, V>)
    requires Within(start, now, entries) && k in entries && entries[k] == value
    ensures Within(start, now.Put(k, value), entries)
  {
    WithinAfterUpsert(start, now, map[k := value], entries);
    assert now.Upsert(map[k := value]) == now.Put(k, value);
  }

  lemma WithinAfterWrite<K(!new), V(!new)>(start: Store<K, V>, now: Store<K, V>, next: Store<K, V>, free: K)
    requires WithinBut(start, now, free)
    requires forall v, k :: k != free ==> Get(next.At(v), k) == Get(now.At(v), k)
    ensures WithinBut(start, next, free)
  {
    forall v, k | k != free
      ensures Seen(start, next.At(v), k)
    {
      assert Seen(start, now.At(v), k);
    }
  }
}
