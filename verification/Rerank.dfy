/** Rerank windows over long documents, and scores brought back to the documents. */
module Rerank {
  import opened Sequences
  import opened Stores

  /** An overlap that would stop the window from advancing is halved. */
  function Clamp(overlap: nat, max: nat): (r: nat)
    requires max >= 1
    ensures r < max && (overlap < max ==> r == overlap)
  {
    if overlap >= max then max / 2 else overlap
  }

  function CeilDiv(a: nat, b: nat): nat
    requires b > 0
  {
    (a + b - 1) / b
  }

  lemma CeilDivIs(a: nat, b: nat, q: nat)
    requires b > 0 && q * b >= a && (q == 0 || (q - 1) * b < a)
    ensures CeilDiv(a, b) == q
  {
    var r := a + b - 1 - q * b;
    if q == 0 {
      assert a == 0;
      assert (b - 1) / b == 0;
    } else {
      assert (q - 1) * b == q * b - b;
      assert 0 <= r < b;
      DivIs(a + b - 1, b, q, r);
    }
  }

  lemma DivIs(n: nat, b: nat, q: nat, r: nat)
    requires 0 <= r < b && n == q * b + r
    ensures n / b == q
  {
    var k := n / b - q;
    assert n == (n / b) * b + n % b;
    assert (n / b) * b - q * b == k * b;
    AtLeastOnce(k, b);
    AtLeastOnce(-k, b);
    assert (-k) * b == -(k * b);
  }

  lemma AtLeastOnce(k: int, b: nat)
    ensures k >= 1 ==> k * b >= b
  {
  }

  function Start(k: nat, step: nat): nat {
    k * step
  }

  function Stop(start: nat, max: nat, n: nat): nat {
    if start + max < n then start + max else n
  }

  /** The chunks put back together, every later one without its overlap. */
  function Rejoined<T>(chunks: seq<seq<T>>, overlap: nat): seq<T> {
    if chunks == [] then []
    else if |chunks| == 1 then chunks[0]
    else
      var last := chunks[|chunks| - 1];
      Rejoined(chunks[..|chunks| - 1], overlap) + (if overlap <= |last| then last[overlap..] else [])
  }

  /** Every chunk is a window of at most `max` tokens starting at a multiple of the step. */
  ghost predicate AreWindows<T>(chunks: seq<seq<T>>, tokens: seq<T>, max: nat, step: nat) {
    forall k :: 0 <= k < |chunks| ==>
      var start := Start(k, step);
      start <= |tokens| && chunks[k] == tokens[start..if start + max < |tokens| then start + max else |tokens|]
  }

  lemma NextStart(k: nat, step: nat)
    ensures Start(k + 1, step) == Start(k, step) + step && Start(0, step) == 0
  {
  }

  lemma WindowsGrow<T>(chunks: seq<seq<T>>, tokens: seq<T>, max: nat, step: nat)
    requires AreWindows(chunks, tokens, max, step) && Start(|chunks|, step) <= |tokens|
    ensures AreWindows(chunks + [tokens[Start(|chunks|, step)..Stop(Start(|chunks|, step), max, |tokens|)]], tokens, max, step)
  {
    hide Start;
  }

  lemma Rejoins<T>(chunks: seq<seq<T>>, tokens: seq<T>, overlap: nat, start: nat, stop: nat)
    requires start + overlap <= stop <= |tokens|
    requires if chunks == [] then start == 0 else Rejoined(chunks, overlap) == tokens[..start + overlap]
    ensures Rejoined(chunks + [tokens[start..stop]], overlap) == tokens[..stop]
  {
    var next := chunks + [tokens[start..stop]];
    assert next[..|chunks|] == chunks;
    if chunks != [] {
      var end := start + overlap;
      assert tokens[start..stop][overlap..] == tokens[end..stop];
      assert tokens[..end] + tokens[end..stop] == tokens[..stop];
    }
  }

  lemma WindowAdded<T>(chunks: seq<seq<T>>, tokens: seq<T>, max: nat, overlap: nat, end: nat)
    requires overlap < max && AreWindows(chunks, tokens, max, max - overlap)
    requires Start(|chunks|, max - overlap) + overlap < |tokens|
    requires chunks == [] || end == Start(|chunks|, max - overlap) + overlap
    requires Rejoined(chunks, overlap) == if chunks == [] then [] else tokens[..end]
    ensures
      var start := Start(|chunks|, max - overlap);
      var stop := Stop(start, max, |tokens|);
      && AreWindows(chunks + [tokens[start..stop]], tokens, max, max - overlap)
      && (chunks == [] ==> start == 0)
      && Rejoined(chunks + [tokens[start..stop]], overlap) == tokens[..stop]
  {
    hide Start, AreWindows, Rejoined;
    NextStart(|chunks|, max - overlap);
    WindowsGrow(chunks, tokens, max, max - overlap);
    var start := Start(|chunks|, max - overlap);
    Rejoins(chunks, tokens, overlap, start, Stop(start, max, |tokens|));
  }

  /** The number of windows, from where the last one starts. */
  lemma WindowCount(n: nat, max: nat, step: nat, last: nat)
    requires 0 < step <= max < n
    requires Start(last, step) + max >= n
    requires last == 0 || Start(last - 1, step) + max < n
    ensures CeilDiv(n - max, step) == last
  {
    CeilDivIs(n - max, step, last);
  }

  /** The overlapping windows of one document that is too long. */
  method Windows<T>(tokens: seq<T>, max: nat, overlap: nat) returns (chunks: seq<seq<T>>)
    requires overlap < max < |tokens|
    ensures AreWindows(chunks, tokens, max, max - overlap)
    ensures |chunks| == 1 + CeilDiv(|tokens| - max, max - overlap)
    ensures Rejoined(chunks, overlap) == tokens
    ensures forall k :: 0 <= k < |chunks| ==> overlap < |chunks[k]| <= max
  {
    hide Start, AreWindows, Rejoined, CeilDiv;
    NextStart(0, max - overlap);
    chunks := [];
    var start := 0;
    ghost var end := 0;
    NoWindows(tokens, max, overlap);
    while true
      invariant start == Start(|chunks|, max - overlap) && start + overlap < |tokens|
      invariant chunks == [] || (end == start + overlap && Start(|chunks| - 1, max - overlap) + max == end)
      invariant AreWindows(chunks, tokens, max, max - overlap)
      invariant Rejoined(chunks, overlap) == if chunks == [] then [] else tokens[..end]
      invariant forall k :: 0 <= k < |chunks| ==> overlap < |chunks[k]| <= max
      decreases |tokens| - start
    {
      var stop := Stop(start, max, |tokens|);
      WindowAdded(chunks, tokens, max, overlap, end);
      NextStart(|chunks|, max - overlap);
      chunks := chunks + [tokens[start..stop]];
      if stop >= |tokens| {
        WindowCount(|tokens|, max, max - overlap, |chunks| - 1);
        assert tokens[..|tokens|] == tokens;
        return;
      }
      end := stop;
      start := stop - overlap;
    }
  }

  lemma NoWindows<T>(tokens: seq<T>, max: nat, overlap: nat)
    requires overlap < max
    ensures AreWindows([], tokens, max, max - overlap) && Rejoined<T>([], overlap) == []
  {
  }

  /** The chunks charged to one document, in order. */
  function ChunksOf<T>(chunks: seq<seq<T>>, owners: seq<int>, d: int): seq<seq<T>>
    requires |chunks| == |owners|
  {
    if chunks == [] then []
    else
      var n := |chunks| - 1;
      var front := ChunksOf(chunks[..n], owners[..n], d);
      if owners[n] == d then front + [chunks[n]] else front
  }

  lemma {:induction false} ChunksOfConcat<T>(chunks: seq<seq<T>>, owners: seq<int>, more: seq<seq<T>>, e: int, d: int)
    requires |chunks| == |owners|
    ensures
      ChunksOf(chunks + more, owners + seq(|more|, _ => e), d) ==
        if d == e then ChunksOf(chunks, owners, d) + more else ChunksOf(chunks, owners, d)
  {
    var copies := seq(|more|, _ => e);
    if more == [] {
      assert chunks + more == chunks && owners + copies == owners;
    } else {
      var n := |more| - 1;
      ChunksOfConcat(chunks, owners, more[..n], e, d);
      var all, whose := chunks + more, owners + copies;
      assert all[..|all| - 1] == chunks + more[..n];
      assert whose[..|all| - 1] == owners + seq(n, _ => e);
      assert ChunksOf(all, whose, d) ==
        if e == d then ChunksOf(chunks + more[..n], owners + seq(n, _ => e), d) + [more[n]]
        else ChunksOf(chunks + more[..n], owners + seq(n, _ => e), d);
      assert more[..n] + [more[n]] == more;
    }
  }

  /** The positions charged to a document. */
  ghost predicate Charged(f: seq<int>, owners: seq<int>, d: int) {
    forall k :: 0 <= k < |owners| ==> (k in f <==> owners[k] == d)
  }

  lemma ChargedNext(f: seq<int>, owners: seq<int>, e: int, d: int)
    requires Charged(f, owners, d) && |owners| !in f
    ensures Charged(if e == d then f + [|owners|] else f, owners + [e], d)
  {
  }

  lemma ChunksOfNext<T>(chunks: seq<seq<T>>, owners: seq<int>, chunk: seq<T>, e: int, d: int)
    requires |chunks| == |owners|
    ensures ChunksOf(chunks + [chunk], owners + [e], d) ==
      if e == d then ChunksOf(chunks, owners, d) + [chunk] else ChunksOf(chunks, owners, d)
  {
    assert (chunks + [chunk])[..|chunks|] == chunks && (owners + [e])[..|owners|] == owners;
  }

  /** A document's chunks are those charged to it, in the order of the list. */
  lemma {:induction false} ChunksAreCharged<T(!new)>(chunks: seq<seq<T>>, owners: seq<int>, d: int)
    requires |chunks| == |owners|
    ensures exists f :: At(f, ChunksOf(chunks, owners, d), chunks) && Charged(f, owners, d)
  {
    hide At, Charged, ChunksOf;
    if chunks == [] {
      NothingCharged(chunks, owners, d);
    } else {
      var n := |chunks| - 1;
      ChunksAreCharged(chunks[..n], owners[..n], d);
      var f :| At(f, ChunksOf(chunks[..n], owners[..n], d), chunks[..n]) && Charged(f, owners[..n], d);
      AtLonger(f, ChunksOf(chunks[..n], owners[..n], d), chunks[..n], chunks[n]);
      ChargedNext(f, owners[..n], owners[n], d);
      ChunksOfNext(chunks[..n], owners[..n], chunks[n], owners[n], d);
      assert chunks[..n] + [chunks[n]] == chunks && owners[..n] + [owners[n]] == owners;
    }
  }

  lemma NothingCharged<T(!new)>(chunks: seq<seq<T>>, owners: seq<int>, d: int)
    requires chunks == [] && owners == []
    ensures At([], ChunksOf(chunks, owners, d), chunks) && Charged([], owners, d)
  {
  }

  lemma {:induction false} NoneOf<T>(chunks: seq<seq<T>>, owners: seq<int>, d: int)
    requires |chunks| == |owners| && d !in owners
    ensures ChunksOf(chunks, owners, d) == []
  {
    if chunks != [] {
      NoneOf(chunks[..|chunks| - 1], owners[..|chunks| - 1], d);
    }
  }

  /** What a document is cut into: itself if it fits, else its windows. */
  ghost predicate CutAs<T>(document: seq<T>, chunks: seq<seq<T>>, max: nat, overlap: nat) {
    if |document| <= max then chunks == [document]
    else overlap < max && AreWindows(chunks, document, max, max - overlap) && Rejoined(chunks, overlap) == document &&
         |chunks| == 1 + CeilDiv(|document| - max, max - overlap)
  }

  /** Every chunk is charged to its document, and a document's chunks are exactly its windows. */
  method ChunkDocuments<T>(documents: seq<seq<T>>, max: nat, overlap: nat)
      returns (chunks: seq<seq<T>>, owners: seq<int>)
    requires max >= 1
    ensures |chunks| == |owners|
    ensures forall i :: 0 <= i < |owners| ==> 0 <= owners[i] < |documents| && |chunks[i]| <= max
    ensures forall i, j :: 0 <= i < j < |owners| ==> owners[i] <= owners[j]
    ensures forall d :: 0 <= d < |documents| ==> CutAs(documents[d], ChunksOf(chunks, owners, d), max, Clamp(overlap, max))
  {
    hide CutAs, AreWindows, Rejoined, CeilDiv, ChunksOf, Clamp;
    chunks, owners := [], [];
    var clamped := Clamp(overlap, max);
    for d := 0 to |documents|
      invariant |chunks| == |owners|
      invariant forall i :: 0 <= i < |owners| ==> 0 <= owners[i] < d && |chunks[i]| <= max
      invariant forall i, j :: 0 <= i < j < |owners| ==> owners[i] <= owners[j]
      invariant forall x :: 0 <= x < d ==> CutAs(documents[x], ChunksOf(chunks, owners, x), max, clamped)
    {
      var more := CutDocument(documents[d], max, clamped);
      NoneOf(chunks, owners, d);
      forall x
        ensures ChunksOf(chunks + more, owners + seq(|more|, _ => d), x) ==
          if x == d then ChunksOf(chunks, owners, x) + more else ChunksOf(chunks, owners, x)
      {
        ChunksOfConcat(chunks, owners, more, d, x);
      }
      assert [] + more == more;
      chunks := chunks + more;
      owners := owners + seq(|more|, _ => d);
    }
  }

  method CutDocument<T>(document: seq<T>, max: nat, overlap: nat) returns (chunks: seq<seq<T>>)
    requires overlap < max
    ensures CutAs(document, chunks, max, overlap)
    ensures forall i :: 0 <= i < |chunks| ==> |chunks[i]| <= max
  {
    if |document| <= max {
      chunks := [document];
    } else {
      chunks := Windows(document, max, overlap);
    }
  }

  /** The call: a window without width and a negative overlap are errors. */
  method ChunkForRerank<T>(documents: seq<seq<T>>, max: int, overlap: int) returns (r: Option<(seq<seq<T>>, seq<int>)>)
    ensures r.Some? <==> max >= 1 && overlap >= 0
    ensures r.Some? ==> |r.value.0| == |r.value.1|
    ensures r.Some? ==> forall d :: 0 <= d < |documents| ==>
      CutAs(documents[d], ChunksOf(r.value.0, r.value.1, d), max, if overlap < max then overlap else max / 2)
  {
    if max < 1 || overlap < 0 {
      return None;
    }
    var chunks, owners := ChunkDocuments(documents, max, overlap);
    return Some((chunks, owners));
  }

  // ----- Scores -----

  datatype Scored = Scored(index: int, score: real)

  /** Descending scores, ties in document order. */
  predicate Above(a: Scored, b: Scored) {
    a.score > b.score || (a.score == b.score && a.index < b.index)
  }

  predicate Ranked(rs: seq<Scored>) {
    forall i, j :: 0 <= i < j < |rs| ==> Above(rs[i], rs[j])
  }

  /** The scores a document's chunks got, malformed entries skipped. */
  function ScoresOf(results: seq<Scored>, owners: seq<int>, doc: int): (r: seq<real>)
    ensures forall s :: s in r <==> exists i :: 0 <= i < |results| && ScoreFor(results[i], owners, doc) && results[i].score == s
  {
    if results == [] then []
    else
      var front := ScoresOf(results[..|results| - 1], owners, doc);
      var last := results[|results| - 1];
      assert results == results[..|results| - 1] + [last];
      if ScoreFor(last, owners, doc) then front + [last.score] else front
  }

  function ScoreList(results: seq<Scored>): (r: seq<real>)
    ensures |r| == |results| && forall i :: 0 <= i < |r| ==> r[i] == results[i].score
  {
    seq(|results|, i requires 0 <= i < |results| => results[i].score)
  }

  /** The positions of a document's usable entries. */
  ghost predicate Used(f: seq<int>, results: seq<Scored>, owners: seq<int>, doc: int) {
    forall k :: 0 <= k < |results| ==> (k in f <==> ScoreFor(results[k], owners, doc))
  }

  lemma UsedNext(f: seq<int>, results: seq<Scored>, owners: seq<int>, doc: int, x: Scored)
    requires Used(f, results, owners, doc) && |results| !in f
    ensures Used(if ScoreFor(x, owners, doc) then f + [|results|] else f, results + [x], owners, doc)
  {
  }

  lemma ScoresOfNext(results: seq<Scored>, owners: seq<int>, doc: int, x: Scored)
    ensures ScoresOf(results + [x], owners, doc) ==
      if ScoreFor(x, owners, doc) then ScoresOf(results, owners, doc) + [x.score] else ScoresOf(results, owners, doc)
    ensures ScoreList(results + [x]) == ScoreList(results) + [x.score]
  {
    assert (results + [x])[..|results|] == results;
  }

  /** They come in the order of the results, one for each usable entry. */
  lemma {:induction false} ScoresInOrder(results: seq<Scored>, owners: seq<int>, doc: int)
    ensures exists f :: At(f, ScoresOf(results, owners, doc), ScoreList(results)) && Used(f, results, owners, doc)
  {
    hide At, Used, ScoresOf, ScoreList;
    if results == [] {
      NothingUsed(results, owners, doc);
    } else {
      var n := |results| - 1;
      ScoresInOrder(results[..n], owners, doc);
      var f :| At(f, ScoresOf(results[..n], owners, doc), ScoreList(results[..n])) && Used(f, results[..n], owners, doc);
      AtLonger(f, ScoresOf(results[..n], owners, doc), ScoreList(results[..n]), results[n].score);
      UsedNext(f, results[..n], owners, doc, results[n]);
      ScoresOfNext(results[..n], owners, doc, results[n]);
      assert results[..n] + [results[n]] == results;
    }
  }

  lemma NothingUsed(results: seq<Scored>, owners: seq<int>, doc: int)
    requires results == []
    ensures At([], ScoresOf(results, owners, doc), ScoreList(results)) && Used([], results, owners, doc)
  {
  }

  predicate ScoreFor(result: Scored, owners: seq<int>, doc: int) {
    0 <= result.index < |owners| && owners[result.index] == doc
  }

  function Largest(scores: seq<real>): (r: real)
    requires scores != []
    ensures r in scores && forall s :: s in scores ==> s <= r
  {
    if |scores| == 1 then scores[0]
    else
      var front := Largest(scores[..|scores| - 1]);
      var last := scores[|scores| - 1];
      assert scores == scores[..|scores| - 1] + [last];
      if last > front then last else front
  }

  datatype Strategy = Max | Mean | First | Unrecognized(name: string)

  function Sum(scores: seq<real>): real {
    if scores == [] then 0.0 else Sum(scores[..|scores| - 1]) + scores[|scores| - 1]
  }

  lemma {:induction false} SumAdds(a: seq<real>, b: seq<real>)
    ensures Sum(a + b) == Sum(a) + Sum(b)
    ensures forall x :: Sum([x]) == x
  {
    if b == [] {
      assert a + b == a;
    } else {
      var n := |b| - 1;
      SumAdds(a, b[..n]);
      assert (a + b)[..|a + b| - 1] == a + b[..n];
    }
    assert forall x: real :: [x][..0] == [];
  }

  function Combined(strategy: Strategy, scores: seq<real>): real
    requires scores != []
  {
    match strategy
    case Max => Largest(scores)
    case Mean => Sum(scores) / |scores| as real
    case First => scores[0]
    case Unrecognized(_) => Largest(scores)
  }

  lemma OneMore(total: real, x: real, n: real, low: real, high: real)
    requires low * n <= total <= high * n && low <= x <= high
    ensures low * (n + 1.0) <= total + x <= high * (n + 1.0)
  {
    assert low * (n + 1.0) == low * n + low && high * (n + 1.0) == high * n + high;
  }

  /** Scores between two bounds add up to between as many times those bounds. */
  lemma {:induction false} SumIsBounded(scores: seq<real>, low: real, high: real)
    requires forall i :: 0 <= i < |scores| ==> low <= scores[i] <= high
    ensures low * |scores| as real <= Sum(scores) <= high * |scores| as real
  {
    if scores != [] {
      var n := |scores| - 1;
      SumIsBounded(scores[..n], low, high);
      OneMore(Sum(scores[..n]), scores[n], n as real, low, high);
      assert |scores| as real == n as real + 1.0;
    }
  }

  lemma DivideIsBounded(total: real, n: real, low: real, high: real)
    requires n > 0.0 && low * n <= total <= high * n
    ensures low <= total / n <= high && total / n * n == total
  {
    var q := total / n;
    assert q * n == total;
    Ordered(low, q, n);
    Ordered(q, high, n);
  }

  lemma Ordered(a: real, b: real, n: real)
    requires n > 0.0 && a * n <= b * n
    ensures a <= b
  {
  }

  /** Whatever the strategy, a document scores between its worst and its best chunk, so never more than the
      maximum strategy would give it; and a document whose chunks agree scores what they do. */
  lemma CombinedIsBetween(strategy: Strategy, scores: seq<real>, low: real)
    requires scores != [] && forall s :: s in scores ==> low <= s
    ensures low <= Combined(strategy, scores) <= Largest(scores)
    ensures strategy.Mean? ==> Combined(strategy, scores) * |scores| as real == Sum(scores)
    ensures strategy.First? ==> Combined(strategy, scores) == scores[0]
    ensures strategy.Max? || strategy.Unrecognized? ==>
      Combined(strategy, scores) in scores && forall s :: s in scores ==> s <= Combined(strategy, scores)
  {
    hide Sum, Largest;
    match strategy
    case Mean =>
      var n := |scores| as real;
      forall i | 0 <= i < |scores|
        ensures low <= scores[i] <= Largest(scores)
      {
        assert scores[i] in scores;
      }
      SumIsBounded(scores, low, Largest(scores));
      DivideIsBounded(Sum(scores), n, low, Largest(scores));
      assert Combined(Mean, scores) == Sum(scores) / n;
    case First =>
      assert scores[0] in scores;
    case _ =>
  }

  lemma InsertedIsRanked(rs: seq<Scored>, i: nat, x: Scored)
    requires Ranked(rs) && i <= |rs|
    requires forall k :: 0 <= k < i ==> Above(rs[k], x)
    requires forall k :: i <= k < |rs| ==> Above(x, rs[k])
    ensures Ranked(rs[..i] + [x] + rs[i..])
  {
    var r := rs[..i] + [x] + rs[i..];
    forall a, b | 0 <= a < b < |r|
      ensures Above(r[a], r[b])
    {
      assert r[a] == if a < i then rs[a] else if a == i then x else rs[a - 1];
      assert r[b] == if b < i then rs[b] else if b == i then x else rs[b - 1];
    }
  }

  method Insert(rs: seq<Scored>, x: Scored) returns (r: seq<Scored>)
    requires Ranked(rs) && forall y :: y in rs ==> y.index != x.index
    ensures Ranked(r) && forall y :: y in r <==> y in rs || y == x
  {
    var i := 0;
    while i < |rs| && Above(rs[i], x)
      invariant 0 <= i <= |rs| && forall k :: 0 <= k < i ==> Above(rs[k], x)
    {
      i := i + 1;
    }
    forall k | i <= k < |rs|
      ensures Above(x, rs[k])
    {
      assert rs[i] in rs;
      assert k == i || Above(rs[i], rs[k]);
    }
    InsertedIsRanked(rs, i, x);
    hide Ranked;
    r := rs[..i] + [x] + rs[i..];
    assert rs == rs[..i] + rs[i..];
  }

  /** The document has a usable chunk score, and the strategy makes this of them. */
  predicate Deserves(strategy: Strategy, results: seq<Scored>, owners: seq<int>, x: Scored) {
    && ScoresOf(results, owners, x.index) != []
    && x.score == Combined(strategy, ScoresOf(results, owners, x.index))
  }

  /** Each document with a usable score gets what the strategy makes of them; the ranking is total. */
  method Aggregate(strategy: Strategy, results: seq<Scored>, owners: seq<int>, documents: nat) returns (r: seq<Scored>)
    ensures Ranked(r)
    ensures forall x :: x in r <==> 0 <= x.index < documents && Deserves(strategy, results, owners, x)
  {
    hide Combined;
    r := [];
    for d := 0 to documents
      invariant Ranked(r)
      invariant forall x :: x in r <==> 0 <= x.index < d && Deserves(strategy, results, owners, x)
    {
      var scores := ScoresOf(results, owners, d);
      if scores != [] {
        r := Insert(r, Scored(d, Combined(strategy, scores)));
      }
    }
  }

  /** The first `n`, or all if there are no more. */
  function TopN(rs: seq<Scored>, n: Option<nat>): (r: seq<Scored>)
    ensures r <= rs
    ensures n.Some? && n.value <= |rs| ==> |r| == n.value
    ensures n.None? || |rs| <= n.value ==> |r| == |rs|
  {
    if n.Some? && |rs| > n.value then rs[..n.value] else rs
  }

  lemma NotInPrefix(rs: seq<Scored>, front: seq<Scored>, k: nat)
    requires k < |rs| && front <= rs && rs[k] !in front
    ensures k >= |front|
  {
    if k < |front| {
      MemberOfPrefix(rs, front, k);
      assert false;
    }
  }

  lemma MemberOfPrefix(rs: seq<Scored>, front: seq<Scored>, k: nat)
    requires k < |front| && front <= rs
    ensures rs[k] in front
  {
    assert front[k] == rs[k];
  }

  /** The cut is by document: what is kept is at least as good as every chunk score of what is not. */
  lemma TopNKeepsTheBest(results: seq<Scored>, owners: seq<int>, documents: nat, rs: seq<Scored>,
      n: Option<nat>, kept: Scored, i: nat)
    requires Ranked(rs)
    requires forall x :: x in rs <==> 0 <= x.index < documents && Deserves(Max, results, owners, x)
    requires kept in TopN(rs, n)
    requires i < |results| && 0 <= results[i].index < |owners| && 0 <= owners[results[i].index] < documents
    requires forall x :: x in TopN(rs, n) ==> x.index != owners[results[i].index]
    ensures kept.score >= results[i].score
  {
    var doc := owners[results[i].index];
    assert ScoreFor(results[i], owners, doc);
    assert results[i].score in ScoresOf(results, owners, doc);
    var best := Scored(doc, Largest(ScoresOf(results, owners, doc)));
    assert best in rs;
    var k :| 0 <= k < |rs| && rs[k] == best;
    var m :| 0 <= m < |TopN(rs, n)| && TopN(rs, n)[m] == kept;
    assert best !in TopN(rs, n);
    NotInPrefix(rs, TopN(rs, n), k);
    assert Above(rs[m], rs[k]);
  }
}
