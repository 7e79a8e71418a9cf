/** What it means to filter a list, or to keep the first occurrence of everything on it: relations between
    the lists, each of which determines its result. */
module Sequences {

  /** The positions `f` of `ids`, in order, hold `r`. */
  ghost predicate At<T(!new)>(f: seq<int>, r: seq<T>, ids: seq<T>) {
    && |f| == |r|
    && (forall i :: 0 <= i < |f| ==> 0 <= f[i] < |ids| && r[i] == ids[f[i]])
    && (forall i, j :: 0 <= i < j < |f| ==> f[i] < f[j])
  }

  /** The positions `f` are those of the members outside `dropped`. */
  ghost predicate Picks<T(!new)>(f: seq<int>, ids: seq<T>, dropped: set<T>) {
    forall k :: 0 <= k < |ids| ==> (k in f <==> ids[k] !in dropped)
  }

  /** The positions `f` are those of first occurrences. */
  ghost predicate PicksFirst<T(!new)>(f: seq<int>, ids: seq<T>) {
    forall k :: 0 <= k < |ids| ==> (k in f <==> ids[k] !in ids[..k])
  }

  /** `r` is `ids` without the members of `dropped`: in the same order, repetitions included. */
  ghost predicate Without<T(!new)>(r: seq<T>, ids: seq<T>, dropped: set<T>) {
    exists f :: At(f, r, ids) && Picks(f, ids, dropped)
  }

  /** `r` holds each member of `ids` once, in the order of the first occurrences. */
  ghost predicate FirstSeen<T(!new)>(r: seq<T>, ids: seq<T>) {
    exists f :: At(f, r, ids) && PicksFirst(f, ids)
  }

  lemma LastIsLargest<T(!new)>(f: seq<int>, r: seq<T>, ids: seq<T>, i: nat)
    requires At(f, r, ids) && i < |f|
    ensures f[i] <= f[|f| - 1] < |ids| && (i < |f| - 1 ==> f[i] < |ids| - 1)
  {
  }

  /** The positions, or the list, without a last entry for the last position. */
  ghost function Front<T>(s: seq<T>, shorter: bool): seq<T> {
    if shorter && s != [] then s[..|s| - 1] else s
  }

  lemma AtFront<T(!new)>(f: seq<int>, r: seq<T>, ids: seq<T>)
    requires At(f, r, ids) && ids != []
    ensures
      var n := |ids| - 1;
      && (n in f ==> f != [] && f[|f| - 1] == n && r != [] && r == r[..|r| - 1] + [ids[n]])
      && At(Front(f, n in f), Front(r, n in f), ids[..n])
  {
    var n := |ids| - 1;
    if n in f {
      var i :| 0 <= i < |f| && f[i] == n;
      LastIsLargest(f, r, ids, i);
    }
  }

  /** What is picked before the last position is picked without it. */
  lemma FrontHolds(f: seq<int>, n: int)
    requires n in f ==> f != [] && f[|f| - 1] == n
    ensures forall k :: k != n ==> (k in f <==> k in Front(f, n in f))
  {
    if n in f {
      assert f == f[..|f| - 1] + [n];
    }
  }

  lemma AtNothing<T(!new)>(f: seq<int>, r: seq<T>)
    requires At(f, r, [])
    ensures f == [] && r == []
  {
    assert forall k :: k in f ==> 0 <= k < 0;
    hide At;
    FirstIsMember(f);
  }

  lemma FirstIsMember(f: seq<int>)
    ensures |f| > 0 ==> f[0] in f
  {
  }

  /** Positions in ascending order are determined by which they are. */
  lemma {:induction false} AtIsUnique<T(!new)>(f: seq<int>, r: seq<T>, g: seq<int>, s: seq<T>, ids: seq<T>)
    requires At(f, r, ids) && At(g, s, ids)
    requires forall k :: 0 <= k < |ids| ==> (k in f <==> k in g)
    ensures r == s
    decreases |ids|
  {
    hide At;
    if ids == [] {
      AtNothing(f, r);
      AtNothing(g, s);
    } else {
      var n := |ids| - 1;
      AtFront(f, r, ids);
      AtFront(g, s, ids);
      FrontHolds(f, n);
      FrontHolds(g, n);
      AtIsUnique(Front(f, n in f), Front(r, n in f), Front(g, n in g), Front(s, n in g), ids[..n]);
    }
  }

  lemma WithoutIsUnique<T(!new)>(r: seq<T>, s: seq<T>, ids: seq<T>, dropped: set<T>)
    requires Without(r, ids, dropped) && Without(s, ids, dropped)
    ensures r == s
  {
    var f :| At(f, r, ids) && Picks(f, ids, dropped);
    var g :| At(g, s, ids) && Picks(g, ids, dropped);
    AtIsUnique(f, r, g, s, ids);
  }

  lemma FirstSeenIsUnique<T(!new)>(r: seq<T>, s: seq<T>, ids: seq<T>)
    requires FirstSeen(r, ids) && FirstSeen(s, ids)
    ensures r == s
  {
    var f :| At(f, r, ids) && PicksFirst(f, ids);
    var g :| At(g, s, ids) && PicksFirst(g, ids);
    AtIsUnique(f, r, g, s, ids);
  }

  lemma WithoutNone<T(!new)>(dropped: set<T>)
    ensures Without<T>([], [], dropped) && FirstSeen<T>([], [])
  {
    assert At<T>([], [], []);
  }

  lemma AtLonger<T(!new)>(f: seq<int>, r: seq<T>, ids: seq<T>, x: T)
    requires At(f, r, ids)
    ensures At(f, r, ids + [x]) && At(f + [|ids|], r + [x], ids + [x])
    ensures |ids| !in f
  {
  }

  lemma PicksLonger<T(!new)>(f: seq<int>, ids: seq<T>, dropped: set<T>, x: T)
    requires Picks(f, ids, dropped) && |ids| !in f
    ensures Picks(if x in dropped then f else f + [|ids|], ids + [x], dropped)
  {
  }

  lemma PicksFirstLonger<T(!new)>(f: seq<int>, ids: seq<T>, x: T)
    requires PicksFirst(f, ids) && |ids| !in f
    ensures PicksFirst(if x in ids then f else f + [|ids|], ids + [x])
  {
    var g := if x in ids then f else f + [|ids|];
    forall k | 0 <= k < |ids| + 1
      ensures k in g <==> (ids + [x])[k] !in (ids + [x])[..k]
    {
      assert (ids + [x])[..k] == ids[..k];
    }
  }

  lemma WithoutNext<T(!new)>(r: seq<T>, ids: seq<T>, dropped: set<T>, x: T)
    requires Without(r, ids, dropped)
    ensures Without(if x in dropped then r else r + [x], ids + [x], dropped)
  {
    hide At, Picks;
    var f :| At(f, r, ids) && Picks(f, ids, dropped);
    AtLonger(f, r, ids, x);
    PicksLonger(f, ids, dropped, x);
  }

  lemma FirstSeenNext<T(!new)>(r: seq<T>, ids: seq<T>, x: T)
    requires FirstSeen(r, ids)
    ensures FirstSeen(if x in ids then r else r + [x], ids + [x])
  {
    hide At, PicksFirst;
    var f :| At(f, r, ids) && PicksFirst(f, ids);
    AtLonger(f, r, ids, x);
    PicksFirstLonger(f, ids, x);
  }

  lemma PicksFront<T(!new)>(f: seq<int>, ids: seq<T>, dropped: set<T>)
    requires Picks(f, ids, dropped) && ids != []
    requires var n := |ids| - 1; n in f ==> f != [] && f[|f| - 1] == n
    ensures
      var n := |ids| - 1;
      (n in f <==> ids[n] !in dropped) && Picks(Front(f, n in f), ids[..n], dropped)
  {
    FrontHolds(f, |ids| - 1);
  }

  predicate Stays<T(==)>(x: T, dropped: set<T>) {
    x !in dropped
  }

  lemma WithoutLast<T(!new)>(r: seq<T>, ids: seq<T>, dropped: set<T>)
    requires Without(r, ids, dropped) && ids != []
    ensures
      var n := |ids| - 1;
      && (ids[n] !in dropped ==> r != [] && r == r[..|r| - 1] + [ids[n]])
      && Without(Front(r, Stays(ids[n], dropped)), ids[..n], dropped)
  {
    hide At, Picks;
    var f :| At(f, r, ids) && Picks(f, ids, dropped);
    AtFront(f, r, ids);
    PicksFront(f, ids, dropped);
  }

  lemma {:induction false} NothingDropped<T(!new)>(ids: seq<T>)
    ensures Without(ids, ids, {})
  {
    hide Without;
    if ids == [] {
      WithoutNone<T>({});
    } else {
      var n := |ids| - 1;
      NothingDropped(ids[..n]);
      WithoutNext(ids[..n], ids[..n], {}, ids[n]);
      assert ids[..n] + [ids[n]] == ids;
    }
  }

  lemma WithoutNothing<T(!new)>(r: seq<T>, dropped: set<T>)
    requires Without(r, [], dropped)
    ensures r == []
  {
    WithoutNone(dropped);
    WithoutIsUnique(r, [], [], dropped);
  }

  /** Filtering goes through lists piece by piece. */
  lemma {:induction false} WithoutConcat<T(!new)>(r: seq<T>, a: seq<T>, s: seq<T>, b: seq<T>, dropped: set<T>)
    requires Without(r, a, dropped) && Without(s, b, dropped)
    ensures Without(r + s, a + b, dropped)
    decreases |b|
  {
    hide Without;
    if b == [] {
      WithoutNothing(s, dropped);
      assert a + b == a && r + s == r;
    } else {
      var n := |b| - 1;
      WithoutLast(s, b, dropped);
      var front := Front(s, Stays(b[n], dropped));
      WithoutConcat(r, a, front, b[..n], dropped);
      WithoutNext(r + front, a + b[..n], dropped, b[n]);
      assert a + b[..n] + [b[n]] == a + b;
      assert r + front + [b[n]] == r + (front + [b[n]]);
    }
  }

  /** What is left are the members that were not dropped. */
  lemma WithoutHolds<T(!new)>(r: seq<T>, ids: seq<T>, dropped: set<T>)
    requires Without(r, ids, dropped)
    ensures forall c :: c in r <==> c in ids && c !in dropped
    ensures |r| <= |ids|
  {
    var f :| At(f, r, ids) && Picks(f, ids, dropped);
    forall c | c in ids && c !in dropped
      ensures c in r
    {
      var k :| 0 <= k < |ids| && ids[k] == c;
      assert k in f;
      var i :| 0 <= i < |f| && f[i] == k;
      assert r[i] == c;
    }
    forall c | c in r
      ensures c in ids && c !in dropped
    {
      var i :| 0 <= i < |r| && r[i] == c;
      assert f[i] in f;
    }
    AtIsShort(f, r, ids);
  }

  lemma {:induction false} AtIsShort<T(!new)>(f: seq<int>, r: seq<T>, ids: seq<T>)
    requires At(f, r, ids)
    ensures |r| <= |ids|
    decreases |ids|
  {
    if ids == [] {
      AtNothing(f, r);
    } else {
      var n := |ids| - 1;
      AtFront(f, r, ids);
      AtIsShort(Front(f, n in f), Front(r, n in f), ids[..n]);
    }
  }

  /** Filtering twice is filtering by both. */
  lemma {:induction false} WithoutTwice<T(!new)>(r: seq<T>, s: seq<T>, ids: seq<T>, a: set<T>, b: set<T>)
    requires Without(s, ids, a) && Without(r, s, b)
    ensures Without(r, ids, a + b)
    decreases |ids|
  {
    hide Without;
    if ids == [] {
      WithoutNothing(s, a);
      WithoutNothing(r, b);
      WithoutNone(a + b);
    } else {
      var n := |ids| - 1;
      var front := Front(s, Stays(ids[n], a));
      WithoutLast(s, ids, a);
      if ids[n] !in a {
        WithoutLast(r, s, b);
      }
      var rest := if ids[n] in a then r else Front(r, Stays(ids[n], b));
      WithoutTwice(rest, front, ids[..n], a, b);
      WithoutNext(rest, ids[..n], a + b, ids[n]);
      assert ids[..n] + [ids[n]] == ids;
    }
  }

  lemma WithoutOne<T(!new)>(x: T, dropped: set<T>)
    ensures Without(if x in dropped then [] else [x], [x], dropped)
  {
    WithoutNone(dropped);
    WithoutNext([], [], dropped, x);
    assert [] + [x] == [x];
  }

  lemma FirstSeenHolds<T(!new)>(r: seq<T>, ids: seq<T>)
    requires FirstSeen(r, ids)
    ensures forall c :: c in r <==> c in ids
  {
    var f :| At(f, r, ids) && PicksFirst(f, ids);
    forall c | c in ids
      ensures c in r
    {
      var k :| 0 <= k < |ids| && ids[k] == c;
      FirstOccurrence(ids, k);
      var j :| 0 <= j <= k && ids[j] == ids[k] && ids[j] !in ids[..j];
      assert j in f;
      var i :| 0 <= i < |f| && f[i] == j;
      assert r[i] == c;
    }
    forall c | c in r
      ensures c in ids
    {
      var i :| 0 <= i < |r| && r[i] == c;
      assert ids[f[i]] == c;
    }
  }

  lemma {:induction false} FirstOccurrence<T(!new)>(ids: seq<T>, k: nat)
    requires k < |ids|
    ensures exists j :: 0 <= j <= k && ids[j] == ids[k] && ids[j] !in ids[..j]
  {
    if ids[k] in ids[..k] {
      var i :| 0 <= i < k && ids[..k][i] == ids[k];
      FirstOccurrence(ids, i);
    }
  }
}
