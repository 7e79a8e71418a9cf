/** The leading and trailing context of a multimodal item: tag-respecting, budgeted, cut at the weakest
    separator that helps. */
module ContextHalves {
  import opened Stores
  import opened TokenTrim

  function Concat(parts: seq<string>): string {
    if parts == [] then "" else Concat(parts[..|parts| - 1]) + parts[|parts| - 1]
  }

  lemma {:induction false} ConcatSplits(parts: seq<string>, k: nat)
    requires k <= |parts|
    ensures Concat(parts) == Concat(parts[..k]) + Concat(parts[k..])
  {
    if k == |parts| {
      assert parts[..k] == parts && parts[k..] == [];
    } else {
      var front := parts[..|parts| - 1];
      ConcatSplits(front, k);
      assert front[..k] == parts[..k];
      assert parts[k..][..|parts[k..]| - 1] == front[k..];
    }
  }

  predicate IsSuffix(r: string, text: string) {
    |r| <= |text| && text[|text| - |r|..] == r
  }

  lemma SuffixOfConcat(parts: seq<string>, k: nat)
    requires k <= |parts|
    ensures IsSuffix(Concat(parts[k..]), Concat(parts))
    ensures Concat(parts[..k]) <= Concat(parts)
  {
    ConcatSplits(parts, k);
  }

  lemma SuffixTransitive(a: string, b: string, c: string)
    requires IsSuffix(a, b) && IsSuffix(b, c)
    ensures IsSuffix(a, c)
  {
  }

  lemma ConcatOne(s: string)
    ensures Concat([s]) == s
  {
    assert [s][..0] == [];
  }

  // ----- Separators -----

  predicate OccursAt(text: string, sep: string, i: nat) {
    i + |sep| <= |text| && text[i..i + |sep|] == sep
  }

  predicate OnlyAtEnd(text: string, sep: string) {
    forall i :: 0 <= i < |text| && OccursAt(text, sep, i) ==> i + |sep| == |text|
  }

  /** The piece ends with its first occurrence of the separator. */
  predicate EndsPiece(piece: string, sep: string) {
    && |piece| >= |sep| && OccursAt(piece, sep, |piece| - |sep|)
    && forall i :: 0 <= i < |piece| - |sep| ==> !OccursAt(piece, sep, i)
  }

  /** The pieces of `text` at `sep`: each ends where the separator first occurs in what is left, none is
      empty, and the last holds none but at its end. */
  ghost predicate SplitAt(text: string, sep: string, pieces: seq<string>) {
    && Concat(pieces) == text && pieces != []
    && (forall i :: 0 <= i < |pieces| ==> pieces[i] != "")
    && (forall i :: 0 <= i < |pieces| - 1 ==> EndsPiece(pieces[i], sep))
    && OnlyAtEnd(pieces[|pieces| - 1], sep)
  }

  lemma PieceFound(text: string, sep: string, start: nat, pos: nat)
    requires start <= pos && OccursAt(text, sep, pos)
    requires forall i :: start <= i < pos ==> !OccursAt(text, sep, i)
    ensures EndsPiece(text[start..pos + |sep|], sep)
  {
    var piece := text[start..pos + |sep|];
    assert piece[|piece| - |sep|..] == text[pos..pos + |sep|];
    forall i | 0 <= i < |piece| - |sep|
      ensures !OccursAt(piece, sep, i)
    {
      SliceOfSlice(text, start, pos + |sep|, i, i + |sep|);
      assert !OccursAt(text, sep, start + i);
    }
  }

  lemma SliceOfSlice(text: string, a: nat, b: nat, i: nat, j: nat)
    requires i <= j && a + j <= b <= |text|
    ensures text[a..b][i..j] == text[a + i..a + j]
  {
    var inner := text[a..b];
    assert forall k :: i <= k < j ==> inner[k] == text[a + k];
    assert inner[i..j] == text[a + i..a + j];
  }

  lemma NoneLeft(text: string, sep: string, start: nat, pos: nat)
    requires sep != "" && start <= pos && start <= |text| < pos + |sep|
    requires forall i :: start <= i < pos ==> !OccursAt(text, sep, i)
    ensures OnlyAtEnd(text[start..], sep)
  {
    forall i | 0 <= i < |text[start..]|
      ensures !OccursAt(text[start..], sep, i)
    {
      assert start + i + |sep| <= |text| ==> text[start..][i..i + |sep|] == text[start + i..start + i + |sep|];
      assert !OccursAt(text, sep, start + i);
    }
  }

  /** The pieces of `text` at `sep`, the separator kept on the piece before it, no empty last piece. */
  method SplitKeeping(text: string, sep: string) returns (pieces: seq<string>)
    requires sep != "" && text != ""
    ensures SplitAt(text, sep, pieces)
  {
    hide Concat, OccursAt, OnlyAtEnd;
    EmptyConcat([]);
    pieces := [];
    var start, pos := 0, 0;
    while pos + |sep| <= |text|
      invariant 0 <= start <= pos <= |text|
      invariant Concat(pieces) == text[..start]
      invariant forall i :: 0 <= i < |pieces| ==> pieces[i] != "" && EndsPiece(pieces[i], sep)
      invariant start == 0 <==> pieces == []
      invariant forall i :: start <= i < pos ==> !OccursAt(text, sep, i)
      decreases |text| - pos
    {
      if OccursAt(text, sep, pos) {
        PieceFound(text, sep, start, pos);
        pos := pos + |sep|;
        LastPiece(pieces, text[start..pos]);
        assert text[..start] + text[start..pos] == text[..pos];
        pieces := pieces + [text[start..pos]];
        start := pos;
      } else {
        pos := pos + 1;
      }
    }
    if start < |text| {
      LastPiece(pieces, text[start..]);
      NoneLeft(text, sep, start, pos);
      pieces := pieces + [text[start..]];
      assert text[..start] + text[start..] == text;
    } else {
      assert text[..start] == text;
      EndsOnly(pieces[|pieces| - 1], sep);
    }
  }

  lemma EndsOnly(piece: string, sep: string)
    requires sep != "" && EndsPiece(piece, sep)
    ensures OnlyAtEnd(piece, sep)
  {
  }

  /** A text has one split at a separator. */
  lemma {:induction false} SplitIsUnique(text: string, sep: string, a: seq<string>, b: seq<string>)
    requires sep != "" && SplitAt(text, sep, a) && SplitAt(text, sep, b)
    ensures a == b
    decreases |a|
  {
    ConcatFirst(a);
    ConcatFirst(b);
    if |a| > 1 && |b| > 1 {
      FirstPieces(text, sep, a[0], b[0]);
      assert Concat(a[1..]) == text[|a[0]|..] == Concat(b[1..]);
      SplitIsUnique(Concat(a[1..]), sep, a[1..], b[1..]);
    } else if |a| > 1 {
      MoreThanOne(text, sep, a);
    } else if |b| > 1 {
      MoreThanOne(text, sep, b);
    }
  }

  lemma ConcatFirst(parts: seq<string>)
    requires parts != []
    ensures Concat(parts) == parts[0] + Concat(parts[1..])
    ensures |parts| == 1 ==> Concat(parts) == parts[0]
  {
    ConcatSplits(parts, 1);
    ConcatOne(parts[0]);
    assert parts[..1] == [parts[0]];
    EmptyConcat([]);
  }

  lemma FirstPieces(text: string, sep: string, a: string, b: string)
    requires EndsPiece(a, sep) && EndsPiece(b, sep) && a <= text && b <= text
    ensures a == b
  {
    if |a| < |b| {
      assert b[|a| - |sep|..|a|] == a[|a| - |sep|..|a|];
      assert OccursAt(b, sep, |a| - |sep|);
    } else if |b| < |a| {
      assert a[|b| - |sep|..|b|] == b[|b| - |sep|..|b|];
      assert OccursAt(a, sep, |b| - |sep|);
    }
  }

  lemma MoreThanOne(text: string, sep: string, pieces: seq<string>)
    requires sep != "" && SplitAt(text, sep, pieces) && |pieces| > 1
    ensures !OnlyAtEnd(text, sep)
  {
    ConcatFirst(pieces);
    ConcatFirst(pieces[1..]);
    var n := |pieces[0]| - |sep|;
    assert text[n..n + |sep|] == pieces[0][n..n + |sep|];
    assert OccursAt(text, sep, n);
  }

  /** The segments of a text: its pieces at the first separator that gives more than one, or the text. */
  ghost predicate Segmented(text: string, separators: seq<string>, segments: seq<string>, index: nat) {
    && index <= |separators|
    && (forall k :: 0 <= k < index && separators[k] != "" ==> OnlyAtEnd(text, separators[k]))
    && if index < |separators| then
         separators[index] != "" && |segments| > 1 && SplitAt(text, separators[index], segments)
       else
         segments == [text]
  }

  /** The first separator that gives more than one piece. */
  method SplitTextSegment(text: string, separators: seq<string>) returns (segments: seq<string>, index: nat)
    ensures Concat(segments) == text && segments != []
    ensures text != "" ==> forall i :: 0 <= i < |segments| ==> segments[i] != ""
    ensures index <= |separators|
    ensures if text == "" then segments == [text] && index == |separators| else Segmented(text, separators, segments, index)
  {
    hide OnlyAtEnd, EndsPiece;
    ConcatOne(text);
    if text == "" {
      return [text], |separators|;
    }
    for i := 0 to |separators|
      invariant forall k :: 0 <= k < i && separators[k] != "" ==> OnlyAtEnd(text, separators[k])
    {
      if separators[i] != "" {
        var pieces := SplitKeeping(text, separators[i]);
        if |pieces| > 1 {
          return pieces, i;
        }
        ConcatFirst(pieces);
      }
    }
    return [text], |separators|;
  }

  // ----- Text -----

  /** Joining never costs more than the parts. */
  ghost predicate Subadditive(t: Tokenizer) {
    forall a, b :: Tokens(t, a + b) <= Tokens(t, a) + Tokens(t, b)
  }

  /** No suffix (prefix) of the text is too much. */
  ghost predicate SuffixesFit(text: string, existing: string, max: nat, t: Tokenizer) {
    forall s :: IsSuffix(s, text) ==> Tokens(t, s + existing) <= max
  }

  ghost predicate PrefixesFit(text: string, existing: string, max: nat, t: Tokenizer) {
    forall s :: s <= text ==> Tokens(t, existing + s) <= max
  }

  lemma NoDearer(t: Tokenizer, a: string, b: string)
    ensures Subadditive(t) ==> Tokens(t, a + b) <= Tokens(t, a) + Tokens(t, b)
  {
  }

  /** Segments fit in front of `existing` one after the other, from the last down to `k`. */
  ghost predicate LastFit(segments: seq<string>, existing: string, max: nat, t: Tokenizer, k: nat) {
    k <= |segments| && forall i :: k <= i < |segments| ==> Tokens(t, Concat(segments[i..]) + existing) <= max
  }

  /** They do down to `k` and no further. */
  ghost predicate LastRun(segments: seq<string>, existing: string, max: nat, t: Tokenizer, k: nat) {
    && LastFit(segments, existing, max, t, k)
    && (k > 0 ==> Tokens(t, Concat(segments[k - 1..]) + existing) > max)
  }

  lemma LastFitNext(segments: seq<string>, existing: string, max: nat, t: Tokenizer, i: nat, candidate: string)
    requires LastFit(segments, existing, max, t, i + 1) && i < |segments| && candidate == Concat(segments[i..])
    ensures if Tokens(t, candidate + existing) <= max then LastFit(segments, existing, max, t, i)
            else LastRun(segments, existing, max, t, i + 1)
  {
  }

  lemma NoneYet(segments: seq<string>, existing: string, max: nat, t: Tokenizer)
    ensures LastFit(segments, existing, max, t, |segments|) && FirstFit(segments, existing, max, t, 0)
  {
  }

  /** What the end of one segment contributes by characters: nothing without room or if nothing fits, else the
      tail that fits into the room. */
  ghost predicate TailOf(text: string, existing: string, max: nat, t: Tokenizer, r: Option<string>) {
    if Tokens(t, existing) >= max then r == None
    else r != Some("") && TailKept(text, max - Tokens(t, existing), t, if r.Some? then r.value else "")
  }

  /** What is kept of a text in front of `existing`: the longest run of whole segments from its end; if the
      last one alone is too much, what is kept of it at the next separators, or by characters when there are
      none left. */
  ghost predicate LeadingKept(text: string, existing: string, max: nat, separators: seq<string>, t: Tokenizer,
      r: Option<string>)
    decreases |separators|, 1
  {
    exists segments: seq<string>, index: nat, k: nat :: LeadingVia(text, existing, max, separators, t, r, segments, index, k)
  }

  ghost predicate LeadingVia(text: string, existing: string, max: nat, separators: seq<string>, t: Tokenizer,
      r: Option<string>, segments: seq<string>, index: nat, k: nat)
    decreases |separators|, 0
  {
    && Segmented(text, separators, segments, index) && LastRun(segments, existing, max, t, k)
    && if k < |segments| then r == Some(Concat(segments[k..]))
       else if index + 1 < |separators| then
         LeadingKept(segments[|segments| - 1], existing, max, separators[index + 1..], t, r)
       else TailOf(segments[|segments| - 1], existing, max, t, r)
  }

  lemma LeadingByRun(text: string, existing: string, max: nat, separators: seq<string>, t: Tokenizer,
      segments: seq<string>, index: nat, k: nat)
    requires Segmented(text, separators, segments, index) && LastRun(segments, existing, max, t, k) && k < |segments|
    ensures LeadingKept(text, existing, max, separators, t, Some(Concat(segments[k..])))
  {
    assert LeadingVia(text, existing, max, separators, t, Some(Concat(segments[k..])), segments, index, k);
  }

  lemma LeadingByPart(text: string, existing: string, max: nat, separators: seq<string>, t: Tokenizer,
      segments: seq<string>, index: nat, r: Option<string>)
    requires Segmented(text, separators, segments, index) && LastRun(segments, existing, max, t, |segments|)
    requires if index + 1 < |separators| then
        LeadingKept(segments[|segments| - 1], existing, max, separators[index + 1..], t, r)
      else
        TailOf(segments[|segments| - 1], existing, max, t, r)
    ensures LeadingKept(text, existing, max, separators, t, r)
  {
    assert LeadingVia(text, existing, max, separators, t, r, segments, index, |segments|);
  }

  /** A text gives nothing only when there is no room, or not even its last character fits into it. */
  lemma {:induction false} NothingInFront(text: string, existing: string, max: nat, separators: seq<string>,
      t: Tokenizer)
    requires text != "" && MonotoneSuffixes(t, text) && LeadingKept(text, existing, max, separators, t, None)
    ensures Tokens(t, existing) >= max || Tokens(t, text[|text| - 1..]) > max - Tokens(t, existing)
    decreases |separators|
  {
    hide Concat, SplitAt, OnlyAtEnd, MonotoneSuffixes, Segmented;
    var segments: seq<string>, index: nat, k: nat :|
      LeadingVia(text, existing, max, separators, t, None, segments, index, k);
    LastSegment(text, separators, segments, index);
    var last := segments[|segments| - 1];
    SuffixIsMonotone(last, text, t);
    if index + 1 < |separators| {
      NothingInFront(last, existing, max, separators[index + 1..], t);
    } else if Tokens(t, existing) < max {
      EmptyTail(last, max - Tokens(t, existing), t);
    }
    assert last[|last| - 1..] == text[|text| - 1..];
  }

  lemma EmptyTail(text: string, max: nat, t: Tokenizer)
    requires text != "" && TailKept(text, max, t, "") && MonotoneSuffixes(t, text)
    ensures Tokens(t, text[|text| - 1..]) > max
  {
  }

  lemma LastSegment(text: string, separators: seq<string>, segments: seq<string>, index: nat)
    requires text != "" && Segmented(text, separators, segments, index)
    ensures segments != [] && segments[|segments| - 1] != "" && IsSuffix(segments[|segments| - 1], text)
  {
    ConcatOne(segments[|segments| - 1]);
    if |segments| > 1 {
      SuffixOfConcat(segments, |segments| - 1);
      assert segments[|segments| - 1..] == [segments[|segments| - 1]];
    }
  }

  lemma SuffixIsMonotone(a: string, text: string, t: Tokenizer)
    requires IsSuffix(a, text) && MonotoneSuffixes(t, text)
    ensures MonotoneSuffixes(t, a)
  {
    var n := |text| - |a|;
    forall i, j | 0 <= i <= j <= |a|
      ensures Tokens(t, a[j..]) <= Tokens(t, a[i..])
    {
      assert a[i..] == text[n + i..] && a[j..] == text[n + j..];
    }
  }

  /** As much of the end of `text` as fits in front of `existing`: a non-empty suffix, or nothing. */
  method AccumulateLeading(text: string, existing: string, max: nat, separators: seq<string>, t: Tokenizer)
      returns (r: Option<string>)
    ensures r.Some? ==> r.value != "" && IsSuffix(r.value, text)
    ensures r.Some? && Subadditive(t) ==> Tokens(t, r.value + existing) <= max
    ensures text != "" && SuffixesFit(text, existing, max, t) ==> r == Some(text)
    ensures if text == "" then r == None else LeadingKept(text, existing, max, separators, t, r)
    decreases |separators|
  {
    hide Subadditive, Concat, IsSuffix, TailOf, Segmented, LeadingKept, SuffixesFit, LastFit;
    var segments, index := SplitTextSegment(text, separators);
    var buffer := "";
    EmptyConcat([]);
    var i := |segments|;
    NoneYet(segments, existing, max, t);
    assert segments[i..] == [];
    while i > 0
      invariant 0 <= i <= |segments|
      invariant buffer == Concat(segments[i..])
      invariant buffer != "" ==> Tokens(t, buffer + existing) <= max
      invariant text != "" && i < |segments| ==> buffer != ""
      invariant LastFit(segments, existing, max, t, i)
    {
      i := i - 1;
      ConcatSplits(segments[i..], 1);
      ConcatOne(segments[i]);
      assert segments[i..][..1] == [segments[i]] && segments[i..][1..] == segments[i + 1..];
      var candidate := segments[i] + buffer;
      SuffixOfConcat(segments, i);
      SuffixFits(candidate, text, existing, max, t);
      LastFitNext(segments, existing, max, t, i, candidate);
      if Tokens(t, candidate + existing) <= max {
        buffer := candidate;
      } else {
        SuffixOfConcat(segments, i + 1);
        if buffer != "" {
          if text != "" {
            LeadingByRun(text, existing, max, separators, t, segments, index, i + 1);
          }
          return Some(buffer);
        }
        // the closest segment alone overflows
        var weaker := if index < |separators| then separators[index + 1..] else [];
        if weaker != [] {
          r := AccumulateLeading(segments[i], existing, max, weaker, t);
        } else {
          r := CharLeading(segments[i], existing, max, t);
        }
        if text != "" {
          LeadingByPart(text, existing, max, separators, t, segments, index, r);
        }
        if r.Some? {
          assert candidate == segments[i] == Concat(segments[i..]);
          SuffixTransitive(r.value, segments[i], text);
        }
        return;
      }
    }
    SuffixOfConcat(segments, 0);
    if text != "" {
      LeadingByRun(text, existing, max, separators, t, segments, index, 0);
    }
    assert segments[0..] == segments;
    return if buffer != "" then Some(buffer) else None;
  }

  lemma SuffixFits(s: string, text: string, existing: string, max: nat, t: Tokenizer)
    requires IsSuffix(s, text)
    ensures SuffixesFit(text, existing, max, t) ==> Tokens(t, s + existing) <= max
  {
  }

  method CharLeading(text: string, existing: string, max: nat, t: Tokenizer) returns (r: Option<string>)
    ensures TailOf(text, existing, max, t, r)
    ensures r.Some? ==> r.value != "" && IsSuffix(r.value, text)
    ensures r.Some? && Subadditive(t) ==> Tokens(t, r.value + existing) <= max
  {
    hide Subadditive;
    var remaining := max - Tokens(t, existing);
    if remaining <= 0 {
      return None;
    }
    var trimmed := CharTrimLeading(text, remaining, t);
    NoDearer(t, trimmed, existing);
    return if trimmed != "" then Some(trimmed) else None;
  }

  ghost predicate FirstFit(segments: seq<string>, existing: string, max: nat, t: Tokenizer, k: nat) {
    k <= |segments| && forall i :: 0 < i <= k ==> Tokens(t, existing + Concat(segments[..i])) <= max
  }

  ghost predicate FirstRun(segments: seq<string>, existing: string, max: nat, t: Tokenizer, k: nat) {
    && FirstFit(segments, existing, max, t, k)
    && (k < |segments| ==> Tokens(t, existing + Concat(segments[..k + 1])) > max)
  }

  lemma FirstFitNext(segments: seq<string>, existing: string, max: nat, t: Tokenizer, i: nat, candidate: string)
    requires FirstFit(segments, existing, max, t, i) && i < |segments| && candidate == Concat(segments[..i + 1])
    ensures if Tokens(t, existing + candidate) <= max then FirstFit(segments, existing, max, t, i + 1)
            else FirstRun(segments, existing, max, t, i)
  {
  }

  ghost predicate HeadIn(text: string, existing: string, max: nat, t: Tokenizer, r: Option<string>) {
    if Tokens(t, existing) >= max then r == None
    else r != Some("") && HeadKept(text, max - Tokens(t, existing), t, if r.Some? then r.value else "")
  }

  /** What is kept of a text behind `existing`, the mirror image. */
  ghost predicate TrailingKept(text: string, existing: string, max: nat, separators: seq<string>, t: Tokenizer,
      r: Option<string>)
    decreases |separators|, 1
  {
    exists segments: seq<string>, index: nat, k: nat :: TrailingVia(text, existing, max, separators, t, r, segments, index, k)
  }

  ghost predicate TrailingVia(text: string, existing: string, max: nat, separators: seq<string>, t: Tokenizer,
      r: Option<string>, segments: seq<string>, index: nat, k: nat)
    decreases |separators|, 0
  {
    && Segmented(text, separators, segments, index) && FirstRun(segments, existing, max, t, k)
    && if k > 0 then r == Some(Concat(segments[..k]))
       else if |segments| > 0 && index + 1 < |separators| then
         TrailingKept(segments[0], existing, max, separators[index + 1..], t, r)
       else |segments| > 0 && HeadIn(segments[0], existing, max, t, r)
  }

  lemma TrailingByRun(text: string, existing: string, max: nat, separators: seq<string>, t: Tokenizer,
      segments: seq<string>, index: nat, k: nat)
    requires Segmented(text, separators, segments, index) && FirstRun(segments, existing, max, t, k) && k > 0
    ensures TrailingKept(text, existing, max, separators, t, Some(Concat(segments[..k])))
  {
    assert TrailingVia(text, existing, max, separators, t, Some(Concat(segments[..k])), segments, index, k);
  }

  lemma TrailingByPart(text: string, existing: string, max: nat, separators: seq<string>, t: Tokenizer,
      segments: seq<string>, index: nat, r: Option<string>)
    requires Segmented(text, separators, segments, index) && FirstRun(segments, existing, max, t, 0)
    requires if index + 1 < |separators| then
        TrailingKept(segments[0], existing, max, separators[index + 1..], t, r)
      else
        HeadIn(segments[0], existing, max, t, r)
    ensures TrailingKept(text, existing, max, separators, t, r)
  {
    assert TrailingVia(text, existing, max, separators, t, r, segments, index, 0);
  }

  lemma PrefixFits(s: string, text: string, existing: string, max: nat, t: Tokenizer)
    requires s <= text
    ensures PrefixesFit(text, existing, max, t) ==> Tokens(t, existing + s) <= max
  {
  }

  lemma {:induction false} NothingBehind(text: string, existing: string, max: nat, separators: seq<string>,
      t: Tokenizer)
    requires text != "" && MonotonePrefixes(t, text) && TrailingKept(text, existing, max, separators, t, None)
    ensures Tokens(t, existing) >= max || Tokens(t, text[..1]) > max - Tokens(t, existing)
    decreases |separators|
  {
    hide Concat, SplitAt, OnlyAtEnd, MonotonePrefixes, Segmented;
    var segments: seq<string>, index: nat, k: nat :|
      TrailingVia(text, existing, max, separators, t, None, segments, index, k);
    FirstSegment(text, separators, segments, index);
    PrefixIsMonotone(segments[0], text, t);
    if index + 1 < |separators| {
      NothingBehind(segments[0], existing, max, separators[index + 1..], t);
    } else if Tokens(t, existing) < max {
      EmptyHead(segments[0], max - Tokens(t, existing), t);
    }
    assert segments[0][..1] == text[..1];
  }

  lemma EmptyHead(text: string, max: nat, t: Tokenizer)
    requires text != "" && HeadKept(text, max, t, "") && MonotonePrefixes(t, text)
    ensures Tokens(t, text[..1]) > max
  {
  }

  lemma FirstSegment(text: string, separators: seq<string>, segments: seq<string>, index: nat)
    requires text != "" && Segmented(text, separators, segments, index)
    ensures segments != [] && segments[0] != "" && segments[0] <= text
  {
    ConcatFirst(segments);
  }

  lemma PrefixIsMonotone(a: string, text: string, t: Tokenizer)
    requires a <= text && MonotonePrefixes(t, text)
    ensures MonotonePrefixes(t, a)
  {
    forall i, j | 0 <= i <= j <= |a|
      ensures Tokens(t, a[..i]) <= Tokens(t, a[..j])
    {
      assert a[..i] == text[..i] && a[..j] == text[..j];
    }
  }

  /** As much of the start of `text` as fits behind `existing`: a non-empty prefix, or nothing. */
  method AccumulateTrailing(text: string, existing: string, max: nat, separators: seq<string>, t: Tokenizer)
      returns (r: Option<string>)
    ensures r.Some? ==> r.value != "" && r.value <= text
    ensures r.Some? && Subadditive(t) ==> Tokens(t, existing + r.value) <= max
    ensures text != "" && PrefixesFit(text, existing, max, t) ==> r == Some(text)
    ensures if text == "" then r == None else TrailingKept(text, existing, max, separators, t, r)
    decreases |separators|
  {
    hide Subadditive, Concat, HeadIn, Segmented, TrailingKept, PrefixesFit, FirstFit;
    var segments, index := SplitTextSegment(text, separators);
    var buffer := "";
    EmptyConcat([]);
    NoneYet(segments, existing, max, t);
    for i := 0 to |segments|
      invariant buffer == Concat(segments[..i])
      invariant buffer != "" ==> Tokens(t, existing + buffer) <= max
      invariant text != "" && i > 0 ==> buffer != ""
      invariant FirstFit(segments, existing, max, t, i)
    {
      LastPiece(segments[..i], segments[i]);
      assert segments[..i] + [segments[i]] == segments[..i + 1];
      var candidate := buffer + segments[i];
      SuffixOfConcat(segments, i + 1);
      PrefixFits(candidate, text, existing, max, t);
      FirstFitNext(segments, existing, max, t, i, candidate);
      if Tokens(t, existing + candidate) <= max {
        buffer := candidate;
      } else {
        SuffixOfConcat(segments, i);
        if buffer != "" {
          if text != "" {
            TrailingByRun(text, existing, max, separators, t, segments, index, i);
          }
          return Some(buffer);
        }
        var weaker := if index < |separators| then separators[index + 1..] else [];
        if weaker != [] {
          r := AccumulateTrailing(segments[i], existing, max, weaker, t);
        } else {
          r := CharTrailing(segments[i], existing, max, t);
        }
        assert candidate == segments[i];
        if text != "" {
          TrailingByPart(text, existing, max, separators, t, segments, index, r);
        }
        return;
      }
    }
    assert segments[..|segments|] == segments;
    if text != "" {
      TrailingByRun(text, existing, max, separators, t, segments, index, |segments|);
    }
    return if buffer != "" then Some(buffer) else None;
  }

  method CharTrailing(text: string, existing: string, max: nat, t: Tokenizer) returns (r: Option<string>)
    ensures HeadIn(text, existing, max, t, r)
    ensures r.Some? ==> r.value != "" && r.value <= text
    ensures r.Some? && Subadditive(t) ==> Tokens(t, existing + r.value) <= max
  {
    hide Subadditive;
    var remaining := max - Tokens(t, existing);
    if remaining <= 0 {
      return None;
    }
    var trimmed := CharTrimTrailing(text, remaining, t);
    NoDearer(t, existing, trimmed);
    return if trimmed != "" then Some(trimmed) else None;
  }

  // ----- Atoms -----

  datatype Kind = PlainText | Drawing | Equation | TableTag

  datatype Atom = Atom(kind: Kind, text: string)

  /** A matched tag; the matcher reports them left to right without overlap. */
  datatype Tag = Tag(start: nat, end: nat, kind: Kind)

  predicate TagsFit(text: string, tags: seq<Tag>) {
    && (forall i :: 0 <= i < |tags| ==> tags[i].start < tags[i].end <= |text| && !tags[i].kind.PlainText?)
    && (forall i :: 0 < i < |tags| ==> tags[i - 1].end <= tags[i].start)
  }

  function Texts(atoms: seq<Atom>): (r: seq<string>)
    ensures |r| == |atoms| && forall i :: 0 <= i < |r| ==> r[i] == atoms[i].text
  {
    seq(|atoms|, i requires 0 <= i < |atoms| => atoms[i].text)
  }

  lemma AtomAdded(atoms: seq<Atom>, atom: Atom)
    ensures Concat(Texts(atoms + [atom])) == Concat(Texts(atoms)) + atom.text
  {
    assert Texts(atoms + [atom])[..|atoms|] == Texts(atoms);
  }

  /** The tags among the atoms. */
  function TagAtoms(atoms: seq<Atom>): (r: seq<Atom>) {
    if atoms == [] then []
    else
      var front := TagAtoms(atoms[..|atoms| - 1]);
      if atoms[|atoms| - 1].kind.PlainText? then front else front + [atoms[|atoms| - 1]]
  }

  lemma TagAtomsNext(atoms: seq<Atom>, atom: Atom)
    ensures TagAtoms(atoms + [atom]) == if atom.kind.PlainText? then TagAtoms(atoms) else TagAtoms(atoms) + [atom]
  {
    assert (atoms + [atom])[..|atoms|] == atoms;
  }

  predicate TextBetween(atoms: seq<Atom>) {
    forall i :: 0 < i < |atoms| ==> !(atoms[i - 1].kind.PlainText? && atoms[i].kind.PlainText?)
  }

  /** The first `n` tags and the text between them, up to `pos`: the tags are whole, each there once and in
      order, with at most one text between two of them. */
  ghost predicate AtomsOf(text: string, tags: seq<Tag>, n: nat, pos: nat, atoms: seq<Atom>)
    requires TagsFit(text, tags)
  {
    && n <= |tags| && pos <= |text| && Concat(Texts(atoms)) == text[..pos]
    && (forall k :: 0 <= k < |atoms| ==> atoms[k].text != "")
    && |TagAtoms(atoms)| == n
    && (forall k :: 0 <= k < n ==> TagAtoms(atoms)[k] == Atom(tags[k].kind, text[tags[k].start..tags[k].end]))
    && TextBetween(atoms)
  }

  lemma TextAtom(text: string, tags: seq<Tag>, n: nat, pos: nat, end: nat, atoms: seq<Atom>)
    requires TagsFit(text, tags) && AtomsOf(text, tags, n, pos, atoms) && pos < end <= |text|
    requires atoms != [] ==> !atoms[|atoms| - 1].kind.PlainText?
    ensures AtomsOf(text, tags, n, end, atoms + [Atom(PlainText, text[pos..end])])
  {
    hide Concat, TagAtoms, Texts;
    AtomAdded(atoms, Atom(PlainText, text[pos..end]));
    TagAtomsNext(atoms, Atom(PlainText, text[pos..end]));
    assert text[..pos] + text[pos..end] == text[..end];
  }

  lemma TagAtom(text: string, tags: seq<Tag>, n: nat, atoms: seq<Atom>)
    requires TagsFit(text, tags) && n < |tags| && AtomsOf(text, tags, n, tags[n].start, atoms)
    ensures AtomsOf(text, tags, n + 1, tags[n].end, atoms + [Atom(tags[n].kind, text[tags[n].start..tags[n].end])])
  {
    hide Concat, TagAtoms, Texts;
    var tag := tags[n];
    AtomAdded(atoms, Atom(tag.kind, text[tag.start..tag.end]));
    TagAtomsNext(atoms, Atom(tag.kind, text[tag.start..tag.end]));
    assert text[..tag.start] + text[tag.start..tag.end] == text[..tag.end];
  }

  /** Tags and the text between them, as far as the text goes. */
  method Atomize(text: string, tags: seq<Tag>) returns (atoms: seq<Atom>)
    requires TagsFit(text, tags)
    ensures AtomsOf(text, tags, |tags|, |text|, atoms)
  {
    hide AtomsOf;
    atoms := [];
    var pos := 0;
    NoTags(text, tags);
    for i := 0 to |tags|
      invariant 0 <= pos <= |text| && (i < |tags| ==> pos <= tags[i].start)
      invariant AtomsOf(text, tags, i, pos, atoms) && (atoms != [] ==> !atoms[|atoms| - 1].kind.PlainText?)
    {
      var tag := tags[i];
      if tag.start > pos {
        TextAtom(text, tags, i, pos, tag.start, atoms);
        atoms := atoms + [Atom(PlainText, text[pos..tag.start])];
      }
      TagAtom(text, tags, i, atoms);
      atoms := atoms + [Atom(tag.kind, text[tag.start..tag.end])];
      pos := tag.end;
    }
    if pos < |text| {
      TextAtom(text, tags, |tags|, pos, |text|, atoms);
      assert text[pos..] == text[pos..|text|];
      atoms := atoms + [Atom(PlainText, text[pos..])];
    }
  }

  lemma NoTags(text: string, tags: seq<Tag>)
    requires TagsFit(text, tags)
    ensures AtomsOf(text, tags, 0, 0, [])
  {
    EmptyConcat([]);
    assert Texts([]) == [];
  }

  // ----- The halves -----

  /** What each atom contributes: a suffix (prefix) of its text, tags other than tables whole or not at
      all, and at most the outermost contribution a re-written table. */
  ghost predicate LeadingPieces(atoms: seq<Atom>, pieces: seq<string>, cut: bool) {
    && |pieces| == |atoms|
    && (forall i :: 0 <= i < |pieces| ==>
          IsSuffix(pieces[i], atoms[i].text) || (cut && Outermost(pieces, i) && atoms[i].kind.TableTag?))
    && (forall i :: 0 <= i < |pieces| && (atoms[i].kind.Drawing? || atoms[i].kind.Equation?) ==>
          pieces[i] == "" || pieces[i] == atoms[i].text)
  }

  ghost predicate Outermost(pieces: seq<string>, i: nat)
    requires i < |pieces|
  {
    forall k :: 0 <= k < i ==> pieces[k] == ""
  }

  lemma PieceAdded(pieces: seq<string>, i: nat, piece: string)
    requires i < |pieces| && forall k :: 0 <= k <= i ==> pieces[k] == ""
    ensures Concat(pieces[i := piece]) == piece + Concat(pieces)
    ensures Outermost(pieces[i := piece], i)
  {
    var next := pieces[i := piece];
    EmptyConcat(pieces[..i]);
    EmptyConcat(pieces[..i + 1]);
    ConcatSplits(pieces, i + 1);
    ConcatSplits(next, i + 1);
    assert next[..i + 1][..i] == pieces[..i] && next[i + 1..] == pieces[i + 1..];
  }

  lemma {:induction false} EmptyConcat(pieces: seq<string>)
    requires forall k :: 0 <= k < |pieces| ==> pieces[k] == ""
    ensures Concat(pieces) == ""
  {
    if pieces != [] {
      EmptyConcat(pieces[..|pieces| - 1]);
    }
  }

  lemma PieceKept(atoms: seq<Atom>, pieces: seq<string>, i: nat, piece: string)
    requires i < |atoms| && LeadingPieces(atoms, pieces, false) && Outermost(pieces, i)
    requires piece == atoms[i].text || (IsSuffix(piece, atoms[i].text) && (atoms[i].kind.PlainText? || atoms[i].kind.TableTag?))
    ensures LeadingPieces(atoms, pieces[i := piece], false)
  {
  }

  lemma TableKept(atoms: seq<Atom>, pieces: seq<string>, i: nat, piece: string)
    requires i < |atoms| && LeadingPieces(atoms, pieces, false) && Outermost(pieces, i) && atoms[i].kind.TableTag?
    ensures LeadingPieces(atoms, pieces[i := piece], true)
  {
    assert Outermost(pieces[i := piece], i);
  }

  /** Every suffix of the source is under budget, so nothing needs to be cut. */
  ghost predicate RoomForAll(atoms: seq<Atom>, max: nat, t: Tokenizer) {
    forall s :: IsSuffix(s, Concat(Texts(atoms))) ==> Tokens(t, s) < max
  }

  /** The source from one atom on. */
  function From(atoms: seq<Atom>, i: nat): string
    requires i <= |atoms|
  {
    Concat(Texts(atoms)[i..])
  }

  lemma FromNext(atoms: seq<Atom>, i: nat)
    requires i < |atoms|
    ensures From(atoms, i) == atoms[i].text + From(atoms, i + 1) && IsSuffix(From(atoms, i), Concat(Texts(atoms)))
  {
    SuffixOfConcat(Texts(atoms), i);
    ConcatThree(Texts(atoms)[i..], 0);
    assert Texts(atoms)[i..][..0] == [] && Texts(atoms)[i..][1..] == Texts(atoms)[i + 1..];
    EmptyConcat([]);
  }

  lemma RoomForAtom(atoms: seq<Atom>, i: nat, max: nat, t: Tokenizer)
    requires i < |atoms| && RoomForAll(atoms, max, t)
    ensures SuffixesFit(atoms[i].text, From(atoms, i + 1), max, t)
    ensures Tokens(t, atoms[i].text + From(atoms, i + 1)) < max
  {
    FromNext(atoms, i);
    hide Concat, From;
    forall s | IsSuffix(s, atoms[i].text)
      ensures Tokens(t, s + From(atoms, i + 1)) <= max
    {
      SuffixAssembles("", s, atoms[i].text, From(atoms, i + 1));
      assert "" + (s + From(atoms, i + 1)) == s + From(atoms, i + 1);
      assert "" + (atoms[i].text + From(atoms, i + 1)) == From(atoms, i);
      SuffixTransitive(s + From(atoms, i + 1), From(atoms, i), Concat(Texts(atoms)));
    }
  }

  /** What one atom gives to the half in front of `existing` while the walk goes on: all of a tag that fits,
      what is kept of a text that does not exhaust the budget. */
  ghost predicate GivesInFront(atom: Atom, existing: string, max: nat, separators: seq<string>, t: Tokenizer,
      gain: string) {
    if atom.text == "" then gain == ""
    else if atom.kind.PlainText? then
      LeadingKept(atom.text, existing, max, separators, t, Some(gain)) && Tokens(t, gain + existing) < max
    else
      gain == atom.text && Tokens(t, atom.text + existing) <= max
  }

  /** What the atom gives that ends the walk: what is kept of a text that exhausts the budget or of a table
      that does not fit; nothing, if nothing of the text or the tag can be kept. */
  ghost predicate EndsInFront<Row>(atom: Atom, existing: string, max: nat, separators: seq<string>,
      tables: string -> Option<Table<Row>>, t: Tokenizer, gain: Option<string>)
  {
    && atom.text != ""
    && if atom.kind.PlainText? then
         && LeadingKept(atom.text, existing, max, separators, t, gain)
         && (gain.Some? ==> Tokens(t, gain.value + existing) >= max)
       else
         && Tokens(t, atom.text + existing) > max
         && if atom.kind.TableTag? then TagKept(tables(atom.text), true, existing, max, t, gain) else gain == None
  }

  /** The half as it is when the walk has passed the atoms from `i` on. */
  ghost predicate WalkedInFront(atoms: seq<Atom>, i: nat, max: nat, separators: seq<string>, t: Tokenizer, r: string)
    requires i <= |atoms|
    decreases |atoms| - i
  {
    if i == |atoms| then r == ""
    else exists gain: string, existing: string ::
      && r == gain + existing && GivesInFront(atoms[i], existing, max, separators, t, gain)
      && WalkedInFront(atoms, i + 1, max, separators, t, existing)
  }

  /** The half: the walk passed every atom, or ended at one. */
  ghost predicate LeadingHalf<Row>(atoms: seq<Atom>, max: nat, separators: seq<string>,
      tables: string -> Option<Table<Row>>, t: Tokenizer, r: string)
  {
    || WalkedInFront(atoms, 0, max, separators, t, r)
    || exists i: nat, existing: string, gain: Option<string> ::
         && i < |atoms| && WalkedInFront(atoms, i + 1, max, separators, t, existing)
         && EndsInFront(atoms[i], existing, max, separators, tables, t, gain)
         && r == (if gain.Some? then gain.value else "") + existing
  }

  lemma WalksOn(atoms: seq<Atom>, i: nat, max: nat, separators: seq<string>, t: Tokenizer, gain: string,
      existing: string)
    requires i < |atoms| && GivesInFront(atoms[i], existing, max, separators, t, gain)
    requires WalkedInFront(atoms, i + 1, max, separators, t, existing)
    ensures WalkedInFront(atoms, i, max, separators, t, gain + existing)
  {
  }

  lemma WalkEnds<Row>(atoms: seq<Atom>, i: nat, max: nat, separators: seq<string>,
      tables: string -> Option<Table<Row>>, t: Tokenizer, gain: Option<string>, existing: string)
    requires i < |atoms| && EndsInFront(atoms[i], existing, max, separators, tables, t, gain)
    requires WalkedInFront(atoms, i + 1, max, separators, t, existing)
    ensures LeadingHalf(atoms, max, separators, tables, t, (if gain.Some? then gain.value else "") + existing)
  {
  }

  /** The leading half, walking the atoms away from the target.  With a subadditive tokenizer it is
      within budget; unless a table was row-trimmed it is made, in order, of suffixes of the atoms; and
      it is the whole source if no suffix of that reaches the budget. */
  method BuildLeading<Row>(atoms: seq<Atom>, max: nat, separators: seq<string>,
      tables: string -> Option<Table<Row>>, t: Tokenizer)
    returns (r: string, cut: bool, ghost pieces: seq<string>)
    ensures Subadditive(t) ==> Tokens(t, r) <= max
    ensures LeadingPieces(atoms, pieces, cut) && Concat(pieces) == r
    ensures RoomForAll(atoms, max, t) ==> r == Concat(Texts(atoms))
    ensures LeadingHalf(atoms, max, separators, tables, t, r)
  {
    hide Subadditive, Concat, SuffixesFit, LeadingPieces, IsSuffix, RoomForAll, From, LeadingKept, TagKept, LeadingHalf;
    r, cut := "", false;
    pieces := seq(|atoms|, _ => "");
    NoPieces(atoms, pieces);
    var i := |atoms|;
    assert WalkedInFront(atoms, i, max, separators, t, r);
    hide WalkedInFront;
    while i > 0
      invariant 0 <= i <= |atoms| && !cut
      invariant Subadditive(t) ==> Tokens(t, r) <= max
      invariant LeadingPieces(atoms, pieces, false) && Concat(pieces) == r && |pieces| == |atoms|
      invariant forall k :: 0 <= k < i ==> pieces[k] == ""
      invariant RoomForAll(atoms, max, t) ==> r == From(atoms, i)
      invariant WalkedInFront(atoms, i, max, separators, t, r)
    {
      i := i - 1;
      var atom := atoms[i];
      FromNext(atoms, i);
      if RoomForAll(atoms, max, t) {
        RoomForAtom(atoms, i, max, t);
      }
      if atom.text == "" {
        WalksOn(atoms, i, max, separators, t, "", r);
        assert "" + r == r;
      } else if atom.kind.PlainText? {
        var addition := AccumulateLeading(atom.text, r, max, separators, t);
        if addition.None? || Tokens(t, addition.value + r) >= max {
          WalkEnds(atoms, i, max, separators, tables, t, addition, r);
        }
        if addition.None? {
          assert "" + r == r;
          return;
        }
        PieceAdded(pieces, i, addition.value);
        PieceKept(atoms, pieces, i, addition.value);
        pieces := pieces[i := addition.value];
        if Tokens(t, addition.value + r) < max {
          WalksOn(atoms, i, max, separators, t, addition.value, r);
        }
        r := addition.value + r;
        if Tokens(t, r) >= max {
          return;
        }
      } else if Tokens(t, atom.text + r) <= max {
        PieceAdded(pieces, i, atom.text);
        PieceKept(atoms, pieces, i, atom.text);
        pieces := pieces[i := atom.text];
        WalksOn(atoms, i, max, separators, t, atom.text, r);
        r := atom.text + r;
      } else {
        var trimmed := None;
        if atom.kind.TableTag? {
          trimmed := TrimTag(tables(atom.text), true, r, max, t);
        }
        WalkEnds(atoms, i, max, separators, tables, t, trimmed, r);
        assert "" + r == r;
        if trimmed.Some? {
          PieceAdded(pieces, i, trimmed.value);
          TableKept(atoms, pieces, i, trimmed.value);
          pieces := pieces[i := trimmed.value];
          cut := true;
          NoDearer(t, trimmed.value, r);
          r := trimmed.value + r;
        }
        return;
      }
    }
    WalkDone(atoms, max, separators, tables, t, r);
    FromAll(atoms);
  }

  lemma WalkDone<Row>(atoms: seq<Atom>, max: nat, separators: seq<string>,
      tables: string -> Option<Table<Row>>, t: Tokenizer, r: string)
    requires WalkedInFront(atoms, 0, max, separators, t, r)
    ensures LeadingHalf(atoms, max, separators, tables, t, r)
  {
  }

  lemma FromAll(atoms: seq<Atom>)
    ensures From(atoms, 0) == Concat(Texts(atoms)) && From(atoms, |atoms|) == ""
  {
    assert Texts(atoms)[0..] == Texts(atoms) && Texts(atoms)[|atoms|..] == [];
  }

  lemma NoPieces(atoms: seq<Atom>, pieces: seq<string>)
    requires |pieces| == |atoms| && forall k :: 0 <= k < |pieces| ==> pieces[k] == ""
    ensures LeadingPieces(atoms, pieces, false) && Concat(pieces) == "" && From(atoms, |atoms|) == ""
  {
    EmptyConcat(pieces);
    FromAll(atoms);
  }

  /** What is kept of a table tag that is too much: what the room leaves of its rows, if it has any. */
  ghost predicate TagKept<Row>(table: Option<Table<Row>>, tail: bool, existing: string, max: nat, t: Tokenizer,
      r: Option<string>) {
    if table == None || Tokens(t, existing) >= max then r == None
    else RowsKept(table.value, tail, max - Tokens(t, existing), t, r)
  }

  /** Whole rows, or part of one, of a table that does not fit as it is. */
  method TrimTag<Row>(table: Option<Table<Row>>, tail: bool, existing: string, max: nat, t: Tokenizer)
      returns (r: Option<string>)
    ensures r.Some? ==> Tokens(t, r.value) + Tokens(t, existing) <= max
    ensures TagKept(table, tail, existing, max, t, r)
  {
    hide RowsKept;
    var remaining := max - Tokens(t, existing);
    if remaining <= 0 || table == None {
      return None;
    }
    r := RowTrim(table.value, tail, remaining, t);
  }

  ghost predicate TrailingPieces(atoms: seq<Atom>, pieces: seq<string>, cut: bool) {
    && |pieces| <= |atoms|
    && (forall i :: 0 <= i < |pieces| ==> pieces[i] <= atoms[i].text || (cut && i == |pieces| - 1 && atoms[i].kind.TableTag?))
    && (forall i :: 0 <= i < |pieces| && (atoms[i].kind.Drawing? || atoms[i].kind.Equation?) ==> pieces[i] == atoms[i].text)
  }

  lemma LastPiece(pieces: seq<string>, piece: string)
    ensures Concat(pieces + [piece]) == Concat(pieces) + piece
  {
    assert (pieces + [piece])[..|pieces|] == pieces;
  }

  ghost predicate RoomForAllBehind(atoms: seq<Atom>, max: nat, t: Tokenizer) {
    forall s :: s <= Concat(Texts(atoms)) ==> Tokens(t, s) < max
  }

  /** The source up to one atom. */
  function UpTo(atoms: seq<Atom>, i: nat): string
    requires i <= |atoms|
  {
    Concat(Texts(atoms)[..i])
  }

  lemma UpToNext(atoms: seq<Atom>, i: nat)
    requires i < |atoms|
    ensures UpTo(atoms, i + 1) == UpTo(atoms, i) + atoms[i].text && UpTo(atoms, i + 1) <= Concat(Texts(atoms))
  {
    SuffixOfConcat(Texts(atoms), i + 1);
    LastPiece(Texts(atoms)[..i], atoms[i].text);
    assert Texts(atoms)[..i] + [atoms[i].text] == Texts(atoms)[..i + 1];
  }

  lemma RoomBehind(atoms: seq<Atom>, i: nat, max: nat, t: Tokenizer)
    requires i < |atoms| && RoomForAllBehind(atoms, max, t)
    ensures PrefixesFit(atoms[i].text, UpTo(atoms, i), max, t)
    ensures Tokens(t, UpTo(atoms, i) + atoms[i].text) < max
  {
    UpToNext(atoms, i);
    hide Concat, UpTo;
    forall s: string | s <= atoms[i].text
      ensures Tokens(t, UpTo(atoms, i) + s) <= max
    {
      assert UpTo(atoms, i) + s <= UpTo(atoms, i) + atoms[i].text;
    }
  }

  lemma UpToEnds(atoms: seq<Atom>)
    ensures UpTo(atoms, 0) == "" && UpTo(atoms, |atoms|) == Concat(Texts(atoms))
  {
    assert Texts(atoms)[..|atoms|] == Texts(atoms) && Texts(atoms)[..0] == [];
  }

  lemma PrefixKept(atoms: seq<Atom>, pieces: seq<string>, piece: string)
    requires |pieces| < |atoms| && TrailingPieces(atoms, pieces, false)
    requires
      var atom := atoms[|pieces|];
      piece == atom.text || (piece <= atom.text && (atom.kind.PlainText? || atom.kind.TableTag?))
    ensures TrailingPieces(atoms, pieces + [piece], false)
  {
  }

  lemma LastTableKept(atoms: seq<Atom>, pieces: seq<string>, piece: string)
    requires |pieces| < |atoms| && TrailingPieces(atoms, pieces, false) && atoms[|pieces|].kind.TableTag?
    ensures TrailingPieces(atoms, pieces + [piece], true)
  {
  }

  ghost predicate GivesBehind(atom: Atom, existing: string, max: nat, separators: seq<string>, t: Tokenizer,
      gain: string) {
    if atom.text == "" then gain == ""
    else if atom.kind.PlainText? then
      TrailingKept(atom.text, existing, max, separators, t, Some(gain)) && Tokens(t, existing + gain) < max
    else
      gain == atom.text && Tokens(t, existing + atom.text) <= max
  }

  ghost predicate EndsBehind<Row>(atom: Atom, existing: string, max: nat, separators: seq<string>,
      tables: string -> Option<Table<Row>>, t: Tokenizer, gain: Option<string>)
  {
    && atom.text != ""
    && if atom.kind.PlainText? then
         && TrailingKept(atom.text, existing, max, separators, t, gain)
         && (gain.Some? ==> Tokens(t, existing + gain.value) >= max)
       else
         && Tokens(t, existing + atom.text) > max
         && if atom.kind.TableTag? then TagKept(tables(atom.text), false, existing, max, t, gain) else gain == None
  }

  ghost predicate WalkedBehind(atoms: seq<Atom>, i: nat, max: nat, separators: seq<string>, t: Tokenizer, r: string)
    requires i <= |atoms|
  {
    if i == 0 then r == ""
    else exists gain: string, existing: string ::
      && r == existing + gain && GivesBehind(atoms[i - 1], existing, max, separators, t, gain)
      && WalkedBehind(atoms, i - 1, max, separators, t, existing)
  }

  ghost predicate TrailingHalf<Row>(atoms: seq<Atom>, max: nat, separators: seq<string>,
      tables: string -> Option<Table<Row>>, t: Tokenizer, r: string)
  {
    || WalkedBehind(atoms, |atoms|, max, separators, t, r)
    || exists i: nat, existing: string, gain: Option<string> ::
         && i < |atoms| && WalkedBehind(atoms, i, max, separators, t, existing)
         && EndsBehind(atoms[i], existing, max, separators, tables, t, gain)
         && r == existing + (if gain.Some? then gain.value else "")
  }

  lemma WalksOnBehind(atoms: seq<Atom>, i: nat, max: nat, separators: seq<string>, t: Tokenizer, gain: string,
      existing: string)
    requires i < |atoms| && GivesBehind(atoms[i], existing, max, separators, t, gain)
    requires WalkedBehind(atoms, i, max, separators, t, existing)
    ensures WalkedBehind(atoms, i + 1, max, separators, t, existing + gain)
  {
  }

  lemma WalkEndsBehind<Row>(atoms: seq<Atom>, i: nat, max: nat, separators: seq<string>,
      tables: string -> Option<Table<Row>>, t: Tokenizer, gain: Option<string>, existing: string)
    requires i < |atoms| && EndsBehind(atoms[i], existing, max, separators, tables, t, gain)
    requires WalkedBehind(atoms, i, max, separators, t, existing)
    ensures TrailingHalf(atoms, max, separators, tables, t, existing + (if gain.Some? then gain.value else ""))
  {
  }

  lemma WalkDoneBehind<Row>(atoms: seq<Atom>, max: nat, separators: seq<string>,
      tables: string -> Option<Table<Row>>, t: Tokenizer, r: string)
    requires WalkedBehind(atoms, |atoms|, max, separators, t, r)
    ensures TrailingHalf(atoms, max, separators, tables, t, r)
  {
  }

  lemma NothingBehindYet(atoms: seq<Atom>, max: nat, separators: seq<string>, t: Tokenizer)
    ensures TrailingPieces(atoms, [], false) && Concat([]) == ""
    ensures UpTo(atoms, 0) == "" && UpTo(atoms, |atoms|) == Concat(Texts(atoms))
    ensures WalkedBehind(atoms, 0, max, separators, t, "")
  {
    EmptyConcat([]);
    UpToEnds(atoms);
  }

  /** The trailing half, the mirror image: prefixes of the atoms, in order, the whole source if no prefix
      of it reaches the budget. */
  method BuildTrailing<Row>(atoms: seq<Atom>, max: nat, separators: seq<string>,
      tables: string -> Option<Table<Row>>, t: Tokenizer)
    returns (r: string, cut: bool, ghost pieces: seq<string>)
    ensures Subadditive(t) ==> Tokens(t, r) <= max
    ensures TrailingPieces(atoms, pieces, cut) && Concat(pieces) == r
    ensures RoomForAllBehind(atoms, max, t) ==> r == Concat(Texts(atoms))
    ensures TrailingHalf(atoms, max, separators, tables, t, r)
  {
    hide Subadditive, Concat, PrefixesFit, TrailingPieces, RoomForAllBehind, UpTo, Texts, TrailingKept, TagKept;
    hide TrailingHalf, WalkedBehind;
    NothingBehindYet(atoms, max, separators, t);
    r, cut, pieces := "", false, [];
    for i := 0 to |atoms|
      invariant !cut && |pieces| == i
      invariant Subadditive(t) ==> Tokens(t, r) <= max
      invariant TrailingPieces(atoms, pieces, false) && Concat(pieces) == r
      invariant RoomForAllBehind(atoms, max, t) ==> r == UpTo(atoms, i)
      invariant WalkedBehind(atoms, i, max, separators, t, r)
    {
      var atom := atoms[i];
      UpToNext(atoms, i);
      if RoomForAllBehind(atoms, max, t) {
        RoomBehind(atoms, i, max, t);
      }
      if atom.text == "" {
        LastPiece(pieces, "");
        PrefixKept(atoms, pieces, "");
        pieces := pieces + [""];
        WalksOnBehind(atoms, i, max, separators, t, "", r);
        assert r + "" == r;
      } else if atom.kind.PlainText? {
        var addition := AccumulateTrailing(atom.text, r, max, separators, t);
        if addition.None? || Tokens(t, r + addition.value) >= max {
          WalkEndsBehind(atoms, i, max, separators, tables, t, addition, r);
        }
        if addition.None? {
          assert r + "" == r;
          return;
        }
        LastPiece(pieces, addition.value);
        PrefixKept(atoms, pieces, addition.value);
        pieces := pieces + [addition.value];
        if Tokens(t, r + addition.value) < max {
          WalksOnBehind(atoms, i, max, separators, t, addition.value, r);
        }
        r := r + addition.value;
        if Tokens(t, r) >= max {
          return;
        }
      } else if Tokens(t, r + atom.text) <= max {
        LastPiece(pieces, atom.text);
        PrefixKept(atoms, pieces, atom.text);
        pieces := pieces + [atom.text];
        WalksOnBehind(atoms, i, max, separators, t, atom.text, r);
        r := r + atom.text;
      } else {
        var trimmed := None;
        if atom.kind.TableTag? {
          trimmed := TrimTag(tables(atom.text), false, r, max, t);
        }
        WalkEndsBehind(atoms, i, max, separators, tables, t, trimmed, r);
        assert r + "" == r;
        if trimmed.Some? {
          LastPiece(pieces, trimmed.value);
          LastTableKept(atoms, pieces, trimmed.value);
          pieces := pieces + [trimmed.value];
          cut := true;
          NoDearer(t, r, trimmed.value);
          r := r + trimmed.value;
        }
        return;
      }
    }
    WalkDoneBehind(atoms, max, separators, tables, t, r);
  }

  /** When every contribution but the outermost is whole, the leading half is a suffix of the source. */
  lemma WholeButOutermostIsSuffix(atoms: seq<Atom>, pieces: seq<string>, k: nat)
    requires LeadingPieces(atoms, pieces, false) && k < |atoms|
    requires Outermost(pieces, k) && forall i :: k < i < |atoms| ==> pieces[i] == atoms[i].text
    ensures IsSuffix(Concat(pieces), Concat(Texts(atoms)))
  {
    hide IsSuffix, Concat;
    EmptyConcat(pieces[..k]);
    ConcatThree(pieces, k);
    ConcatThree(Texts(atoms), k);
    assert pieces[k + 1..] == Texts(atoms)[k + 1..];
    SuffixAssembles(Concat(Texts(atoms)[..k]), pieces[k], atoms[k].text, Concat(pieces[k + 1..]));
  }

  lemma ConcatThree(parts: seq<string>, k: nat)
    requires k < |parts|
    ensures Concat(parts) == Concat(parts[..k]) + (parts[k] + Concat(parts[k + 1..]))
  {
    ConcatSplits(parts, k);
    ConcatSplits(parts[k..], 1);
    assert parts[k..][..1] == [parts[k]] && parts[k..][1..] == parts[k + 1..];
    ConcatOne(parts[k]);
  }

  lemma SuffixAssembles(front: string, a: string, b: string, rest: string)
    requires IsSuffix(a, b)
    ensures IsSuffix("" + (a + rest), front + (b + rest))
  {
    var whole := front + (b + rest);
    assert whole == (front + b[..|b| - |a|]) + (a + rest);
  }
}
