/** The strings the deterministic ids are hashed from.  With an injective hash, an id stands for its
    string, so what matters is which inputs share a string. */
module Ids {
  import opened Stores

  function Digit(n: nat): (r: char)
    requires n < 10
    ensures r != ':' && '0' <= r <= '9'
    ensures r as int == '0' as int + n
  {
    '0' + n as char
  }

  function Decimal(n: nat): (r: string)
    ensures r != "" && ':' !in r
  {
    if n < 10 then [Digit(n)] else Decimal(n / 10) + [Digit(n % 10)]
  }

  lemma DecimalLength(n: nat)
    ensures |Decimal(n)| > 1 <==> n >= 10
  {
  }

  lemma {:induction false} DecimalInjective(m: nat, n: nat)
    requires Decimal(m) == Decimal(n)
    ensures m == n
  {
    var s := Decimal(m);
    DecimalLength(m);
    DecimalLength(n);
    assert s[|s| - 1] == Digit(m % 10) == Digit(n % 10);
    if m >= 10 {
      assert Decimal(m / 10) == s[..|s| - 1] == Decimal(n / 10);
      DecimalInjective(m / 10, n / 10);
    }
  }

  /** What a decimal says. */
  function ValueOf(s: string): int {
    if s == "" then 0 else 10 * ValueOf(s[..|s| - 1]) + (s[|s| - 1] as int - '0' as int)
  }

  /** A number is written in decimal, without leading zeros. */
  lemma {:induction false} DecimalReads(n: nat)
    ensures ValueOf(Decimal(n)) == n
    ensures forall i :: 0 <= i < |Decimal(n)| ==> '0' <= Decimal(n)[i] <= '9'
    ensures Decimal(n)[0] == '0' ==> n == 0
  {
    if n < 10 {
      assert Decimal(n)[..0] == "";
    } else {
      DecimalReads(n / 10);
      assert Decimal(n) == Decimal(n / 10) + [Digit(n % 10)];
      assert Decimal(n)[..|Decimal(n)| - 1] == Decimal(n / 10);
    }
  }

  /** Where the separator first occurs. */
  function IndexOf(mark: char, s: string): nat {
    if s == "" || s[0] == mark then 0 else 1 + IndexOf(mark, s[1..])
  }

  lemma {:induction false} IndexOfMark(mark: char, a: string, x: string)
    requires mark !in a
    ensures IndexOf(mark, a + [mark] + x) == |a|
  {
    var s := a + [mark] + x;
    if a != "" {
      assert s[0] == a[0] && a[0] in a;
      assert s[1..] == a[1..] + [mark] + x;
      IndexOfMark(mark, a[1..], x);
    }
  }

  /** Text up to its first separator can be read back. */
  lemma FirstMark(mark: char, a: string, x: string, b: string, y: string)
    requires mark !in a && mark !in b && a + [mark] + x == b + [mark] + y
    ensures a == b && x == y
  {
    IndexOfMark(mark, a, x);
    IndexOfMark(mark, b, y);
    var s := a + [mark] + x;
    assert a == s[..|a|] && b == s[..|b|];
    assert x == s[|a| + 1..] && y == s[|b| + 1..];
  }

  /** The hash input of a custom chunk id and of both operation ids. */
  function Prefixed(doc: string, text: string): string {
    Decimal(|doc|) + ":" + doc + ":" + text
  }

  /** Reading a hash input: a length up to the first colon, that many characters, a colon, the text. */
  function Parsed(s: string): Option<(string, string)> {
    var mark := IndexOf(':', s);
    if mark >= |s| then None
    else
      var n, rest := ValueOf(s[..mark]), s[mark + 1..];
      if 0 <= n < |rest| && rest[n] == ':' then Some((rest[..n], rest[n + 1..])) else None
  }

  lemma ReadsBack(doc: string, text: string)
    ensures Parsed(Prefixed(doc, text)) == Some((doc, text))
  {
    var rest := doc + ":" + text;
    var length := Decimal(|doc|);
    DecimalReads(|doc|);
    assert Prefixed(doc, text) == length + [':'] + rest;
    IndexOfMark(':', length, rest);
    assert (length + [':'] + rest)[..|length|] == length && (length + [':'] + rest)[|length| + 1..] == rest;
    assert rest[..|doc|] == doc && rest[|doc| + 1..] == text;
  }

  /** No two (document, text) pairs share a hash input, for all strings whatsoever. */
  lemma PrefixedInjective(doc: string, text: string, doc': string, text': string)
    requires Prefixed(doc, text) == Prefixed(doc', text')
    ensures doc == doc' && text == text'
  {
    var x, y := doc + ":" + text, doc' + ":" + text';
    assert Prefixed(doc, text) == Decimal(|doc|) + ":" + x;
    assert Prefixed(doc', text') == Decimal(|doc'|) + ":" + y;
    FirstMark(':', Decimal(|doc|), x, Decimal(|doc'|), y);
    DecimalInjective(|doc|, |doc'|);
    assert doc == x[..|doc|] && doc' == y[..|doc'|];
    assert text == x[|doc| + 1..] && text' == y[|doc'| + 1..];
  }

  /** Without the length prefix the pairs ("a", "bc") and ("ab", "c") would collide. */
  lemma PlainConcatenationCollides()
    ensures exists d: string, t: string, d': string, t': string :: (d, t) != (d', t') && d + t == d' + t'
  {
    assert "a" + "bc" == "ab" + "c" && ("a", "bc") != ("ab", "c");
  }

  // ----- Chunk-id lists and sets -----

  function Joined(ids: seq<string>): string {
    if ids == [] then ""
    else if |ids| == 1 then ids[0]
    else ids[0] + "|" + Joined(ids[1..])
  }

  /** Lists are joined with one bar between any two ids. */
  lemma {:induction false} JoinedConcat(xs: seq<string>, ys: seq<string>)
    requires xs != [] && ys != []
    ensures Joined(xs + ys) == Joined(xs) + "|" + Joined(ys)
    ensures forall x :: Joined([x]) == x
  {
    assert (xs + ys)[1..] == xs[1..] + ys;
    if |xs| > 1 {
      JoinedConcat(xs[1..], ys);
    } else {
      assert xs[1..] + ys == ys;
    }
  }

  /** Ids that a joined list can be read back from: not empty, and free of the separator. */
  predicate Plain(id: string) {
    id != "" && '|' !in id
  }

  lemma {:induction false} JoinedInjective(xs: seq<string>, ys: seq<string>)
    requires (forall x :: x in xs ==> Plain(x)) && (forall y :: y in ys ==> Plain(y))
    requires Joined(xs) == Joined(ys)
    ensures xs == ys
  {
    if xs == [] || ys == [] {
      NonemptyJoined(xs);
      NonemptyJoined(ys);
    } else {
      assert xs[0] in xs && ys[0] in ys;
      BarIff(xs);
      BarIff(ys);
      if |xs| > 1 && |ys| > 1 {
        FirstMark('|', xs[0], Joined(xs[1..]), ys[0], Joined(ys[1..]));
        JoinedInjective(xs[1..], ys[1..]);
        assert xs == [xs[0]] + xs[1..] && ys == [ys[0]] + ys[1..];
      }
    }
  }

  lemma NonemptyJoined(xs: seq<string>)
    requires forall x :: x in xs ==> Plain(x)
    ensures Joined(xs) == "" <==> xs == []
  {
    if xs != [] {
      assert xs[0] in xs;
    }
  }

  lemma BarIff(xs: seq<string>)
    requires xs != [] && forall x :: x in xs ==> Plain(x)
    ensures '|' in Joined(xs) <==> |xs| > 1
  {
    assert xs[0] in xs;
    if |xs| > 1 {
      assert Joined(xs)[|xs[0]|] == '|';
    }
  }

  predicate Below(a: string, b: string) {
    b != "" && (a == "" || a[0] < b[0] || (a[0] == b[0] && Below(a[1..], b[1..])))
  }

  /** The first difference decides, and a proper prefix comes first. */
  predicate FirstDifference(a: string, b: string, k: int) {
    && 0 <= k <= |a| && k < |b| && a[..k] == b[..k]
    && (k < |a| ==> a[k] < b[k])
  }

  lemma {:induction false} BelowMeans(a: string, b: string)
    ensures Below(a, b) <==> exists k :: FirstDifference(a, b, k)
  {
    if b != "" {
      if a == "" || a[0] < b[0] {
        assert FirstDifference(a, b, 0);
      } else {
        BelowMeans(a[1..], b[1..]);
        if Below(a, b) {
          var k :| FirstDifference(a[1..], b[1..], k);
          assert a == [a[0]] + a[1..] && b == [b[0]] + b[1..];
          assert a[..k + 1] == [a[0]] + a[1..][..k] && b[..k + 1] == [b[0]] + b[1..][..k];
          assert FirstDifference(a, b, k + 1);
        }
        if k :| FirstDifference(a, b, k) {
          assert a[..k][0] == b[..k][0];
          assert a[1..][..k - 1] == a[..k][1..] && b[1..][..k - 1] == b[..k][1..];
          assert FirstDifference(a[1..], b[1..], k - 1);
        }
      }
    }
  }

  lemma {:induction false} BelowTotal(a: string, b: string)
    ensures a == b || Below(a, b) || Below(b, a)
  {
    if a != "" && b != "" && a[0] == b[0] {
      BelowTotal(a[1..], b[1..]);
      assert a == [a[0]] + a[1..] && b == [b[0]] + b[1..];
    }
  }

  lemma {:induction false} BelowTransitive(a: string, b: string, c: string)
    requires Below(a, b) && Below(b, c)
    ensures Below(a, c)
  {
    if a != "" && a[0] == b[0] == c[0] {
      BelowTransitive(a[1..], b[1..], c[1..]);
    }
  }

  lemma {:induction false} BelowAsymmetric(a: string, b: string)
    ensures !(Below(a, b) && Below(b, a))
  {
    if a != "" && b != "" {
      BelowAsymmetric(a[1..], b[1..]);
    }
  }

  /** `ids` is the set in order, each id once. */
  predicate Sorts(ids: seq<string>, s: set<string>) {
    && (forall x :: x in ids ==> x in s) && (forall x :: x in s ==> x in ids)
    && forall i, j :: 0 <= i < j < |ids| ==> Below(ids[i], ids[j])
  }

  /** A set sorts one way only, so the purge id depends on the set and not on how it was assembled. */
  lemma {:induction false} SortsOneWay(xs: seq<string>, ys: seq<string>, s: set<string>)
    requires Sorts(xs, s) && Sorts(ys, s)
    ensures xs == ys
  {
    EmptySorts(xs, s);
    EmptySorts(ys, s);
    if xs != [] {
      assert xs[0] in ys && ys[0] in xs;
      if xs[0] != ys[0] {
        BelowAsymmetric(xs[0], ys[0]);
        assert false;
      }
      var rest := s - {xs[0]};
      TailSorts(xs, s);
      TailSorts(ys, s);
      SortsOneWay(xs[1..], ys[1..], rest);
      assert xs == [xs[0]] + xs[1..] && ys == [ys[0]] + ys[1..];
    }
  }

  /** Every set sorts. */
  lemma {:induction false} SortsSomehow(s: set<string>)
    ensures exists ids :: Sorts(ids, s)
    decreases |s|
  {
    if s == {} {
      assert Sorts([], s);
    } else {
      var x :| x in s;
      SortsSomehow(s - {x});
      var ids :| Sorts(ids, s - {x});
      hide Sorts;
      var all := Sorted(ids, s - {x}, x, 0);
      assert s - {x} + {x} == s;
    }
  }

  /** Inserting behind everything below it. */
  lemma Sorted(ids: seq<string>, s: set<string>, x: string, i: nat) returns (all: seq<string>)
    requires Sorts(ids, s) && x !in s && i <= |ids| && forall k :: 0 <= k < i ==> Below(ids[k], x)
    ensures Sorts(all, s + {x})
    decreases |ids| - i
  {
    if i < |ids| && Below(ids[i], x) {
      all := Sorted(ids, s, x, i + 1);
    } else {
      all := ids[..i] + [x] + ids[i..];
      forall k | i <= k < |ids|
        ensures Below(x, ids[k])
      {
        assert ids[i] in s;
        BelowTotal(x, ids[i]);
        if k > i {
          BelowTransitive(x, ids[i], ids[k]);
        }
      }
      InsertedSorts(ids, s, x, i);
    }
  }

  lemma InsertedSorts(ids: seq<string>, s: set<string>, x: string, i: nat)
    requires Sorts(ids, s) && i <= |ids|
    requires forall k :: 0 <= k < i ==> Below(ids[k], x)
    requires forall k :: i <= k < |ids| ==> Below(x, ids[k])
    ensures Sorts(ids[..i] + [x] + ids[i..], s + {x})
  {
    hide Below;
    var all := ids[..i] + [x] + ids[i..];
    assert forall k :: 0 <= k < |ids| ==> ids[k] == if k < i then all[k] else all[k + 1];
    forall y | y in ids
      ensures y in all
    {
      var k :| 0 <= k < |ids| && ids[k] == y;
      assert y == if k < i then all[k] else all[k + 1];
    }
    forall a, b | 0 <= a < b < |all|
      ensures Below(all[a], all[b])
    {
      assert all[a] == if a < i then ids[a] else if a == i then x else ids[a - 1];
      assert all[b] == if b < i then ids[b] else if b == i then x else ids[b - 1];
    }
    assert all[i] == x;
  }

  lemma EmptySorts(xs: seq<string>, s: set<string>)
    requires Sorts(xs, s)
    ensures xs == [] <==> s == {}
  {
    if xs != [] {
      assert xs[0] in xs;
    }
  }

  lemma TailSorts(xs: seq<string>, s: set<string>)
    requires xs != [] && Sorts(xs, s)
    ensures Sorts(xs[1..], s - {xs[0]})
  {
    forall k | 0 < k < |xs|
      ensures xs[k] != xs[0]
    {
      BelowAsymmetric(xs[0], xs[0]);
      assert Below(xs[0], xs[k]);
    }
    forall x | x in s && x != xs[0]
      ensures x in xs[1..]
    {
      var k :| 0 <= k < |xs| && xs[k] == x;
      assert xs[1..][k - 1] == x;
    }
  }

  /** The purge's hash input is injective in the document and the chunk-id set, on plain ids. */
  lemma PurgeInputInjective(d: string, s: set<string>, xs: seq<string>, e: string, t: set<string>, ys: seq<string>)
    requires Sorts(xs, s) && Sorts(ys, t)
    requires (forall x :: x in s ==> Plain(x)) && (forall y :: y in t ==> Plain(y))
    requires Prefixed(d, Joined(xs)) == Prefixed(e, Joined(ys))
    ensures d == e && s == t
  {
    PrefixedInjective(d, Joined(xs), e, Joined(ys));
    JoinedInjective(xs, ys);
  }

  /** Both conditions on ids are needed. */
  lemma PlainIsNeeded()
    ensures Joined(["a|b"]) == Joined(["a", "b"]) && Joined([""]) == Joined([])
  {
    assert ["a", "b"][1..] == ["b"];
    assert "a" + "|" + "b" == "a|b";
  }
}
