/** Fitting text into a token budget, for a tokenizer nothing is known about.

  `Tokens` is the only access to the tokenizer; it gives the empty string no tokens.  No additivity and
  no monotonicity is assumed unless a contract says so. */
module TokenTrim {
  import opened Stores

  type Tokenizer = string -> nat

  function Tokens(t: Tokenizer, text: string): nat {
    if text == "" then 0 else t(text)
  }

  /** A longer prefix (suffix) never has fewer tokens. */
  ghost predicate MonotonePrefixes(t: Tokenizer, text: string) {
    forall i, j :: 0 <= i <= j <= |text| ==> Tokens(t, text[..i]) <= Tokens(t, text[..j])
  }

  ghost predicate MonotoneSuffixes(t: Tokenizer, text: string) {
    forall i, j :: 0 <= i <= j <= |text| ==> Tokens(t, text[j..]) <= Tokens(t, text[i..])
  }

  /** A tail of the text that fits: all of it if that fits, and for a monotone tokenizer the longest. */
  ghost predicate TailKept(text: string, max: nat, t: Tokenizer, r: string) {
    && |r| <= |text| && r == text[|text| - |r|..] && Tokens(t, r) <= max
    && (Tokens(t, text) <= max ==> r == text)
    && (MonotoneSuffixes(t, text) ==> forall i :: 0 <= i < |text| - |r| ==> Tokens(t, text[i..]) > max)
  }

  /** A head of the text that fits: all of it if that fits, and for a monotone tokenizer the longest. */
  ghost predicate HeadKept(text: string, max: nat, t: Tokenizer, r: string) {
    && r <= text && Tokens(t, r) <= max
    && (Tokens(t, text) <= max ==> r == text)
    && (MonotonePrefixes(t, text) ==> forall i :: |r| < i <= |text| ==> Tokens(t, text[..i]) > max)
  }

  /** Keeps a tail that fits; with a monotone tokenizer, the longest one. */
  method CharTrimLeading(text: string, max: nat, t: Tokenizer) returns (r: string)
    ensures TailKept(text, max, t, r)
  {
    if Tokens(t, text) <= max {
      assert text[0..] == text;
      return text;
    }
    var lo, hi := 0, |text|;
    while lo < hi
      invariant 0 <= lo <= hi <= |text|
      invariant Tokens(t, text[hi..]) <= max
      invariant MonotoneSuffixes(t, text) ==> forall i :: 0 <= i < lo ==> Tokens(t, text[i..]) > max
    {
      var mid := (lo + hi) / 2;
      if Tokens(t, text[mid..]) <= max {
        hi := mid;
      } else {
        lo := mid + 1;
      }
    }
    r := text[lo..];
  }

  /** Keeps a head that fits; with a monotone tokenizer, the longest one. */
  method CharTrimTrailing(text: string, max: nat, t: Tokenizer) returns (r: string)
    ensures HeadKept(text, max, t, r)
  {
    if Tokens(t, text) <= max {
      assert text[..|text|] == text;
      return text;
    }
    var lo, hi := 0, |text|;
    while lo < hi
      invariant 0 <= lo <= hi <= |text|
      invariant Tokens(t, text[..lo]) <= max
      invariant MonotonePrefixes(t, text) ==> forall i :: hi < i <= |text| ==> Tokens(t, text[..i]) > max
    {
      var mid := (lo + hi + 1) / 2;
      if Tokens(t, text[..mid]) <= max {
        lo := mid;
      } else {
        hi := mid - 1;
      }
    }
    r := text[..lo];
  }

  // ----- Tables -----

  /** A parsed table: its rows, how a run of rows is written back, the bare wrapper, the text of one row
      (the oversized one), and how a snippet of it is written back.  Markup and escaping are the
      caller's. */
  datatype Table<!Row> = Table(
    rows: seq<Row>,
    write: seq<Row> -> string,
    empty: string,
    rowText: Row -> string,
    wrap: string -> string,
    body: string)

  /** The end of the table that is kept: its last `k` rows, or its first. */
  function Side<Row>(tail: bool, rows: seq<Row>, k: nat): seq<Row>
    requires k <= |rows|
  {
    if tail then rows[|rows| - k..] else rows[..k]
  }

  function Snippet(tail: bool, text: string, chars: nat): string
    requires chars <= |text|
  {
    if tail then text[|text| - chars..] else text[..chars]
  }

  function Candidate<Row>(table: Table<Row>, tail: bool, text: string, chars: nat): string
    requires chars <= |text|
  {
    if chars == 0 then table.empty else table.wrap(Snippet(tail, text, chars))
  }

  /** A longer snippet never has fewer tokens once it is written back. */
  ghost predicate MonotoneSnippets<Row>(table: Table<Row>, tail: bool, text: string, t: Tokenizer) {
    forall i, j :: 0 <= i <= j <= |text| ==> Tokens(t, Candidate(table, tail, text, i)) <= Tokens(t, Candidate(table, tail, text, j))
  }

  /** A snippet of the kept side written back, or the bare wrapper: the whole text if that fits, and for a
      monotone tokenizer the longest snippet that does. */
  ghost predicate SnippetOf<Row>(table: Table<Row>, tail: bool, text: string, max: nat, t: Tokenizer,
      r: string, chars: nat) {
    && chars <= |text|
    && r == (if chars == 0 then table.empty
             else if tail then table.wrap(text[|text| - chars..]) else table.wrap(text[..chars]))
    && (Tokens(t, Candidate(table, tail, text, |text|)) <= max ==> chars == |text|)
    && (MonotoneSnippets(table, tail, text, t) ==>
          forall i :: chars < i <= |text| ==> Tokens(t, Candidate(table, tail, text, i)) > max)
  }

  /** What is left of an oversized row's text. */
  ghost predicate SnippetKept<Row>(table: Table<Row>, tail: bool, text: string, max: nat, t: Tokenizer, r: string) {
    Tokens(t, r) <= max && exists chars :: SnippetOf(table, tail, text, max, t, r, chars)
  }

  /** One oversized row, cut by characters inside a well-formed table; nothing if the wrapper alone does
      not fit. */
  method CharFallback<Row>(table: Table<Row>, tail: bool, text: string, max: nat, t: Tokenizer)
      returns (r: Option<string>)
    ensures r.None? <==> Tokens(t, table.empty) > max
    ensures r.Some? ==> SnippetKept(table, tail, text, max, t, r.value)
  {
    if Tokens(t, table.empty) > max {
      return None;
    }
    if Tokens(t, Candidate(table, tail, text, |text|)) <= max {
      r := Some(Candidate(table, tail, text, |text|));
      assert SnippetOf(table, tail, text, max, t, r.value, |text|);
      return;
    }
    var lo, hi := 0, |text|;
    while lo < hi
      invariant 0 <= lo <= hi <= |text|
      invariant Tokens(t, Candidate(table, tail, text, lo)) <= max
      invariant MonotoneSnippets(table, tail, text, t) ==>
        forall i :: hi < i <= |text| ==> Tokens(t, Candidate(table, tail, text, i)) > max
    {
      var mid := (lo + hi + 1) / 2;
      if Tokens(t, Candidate(table, tail, text, mid)) <= max {
        lo := mid;
      } else {
        hi := mid - 1;
      }
    }
    r := Some(Candidate(table, tail, text, lo));
    assert SnippetOf(table, tail, text, max, t, r.value, lo);
  }

  /** `k` rows fit, and no larger proper part of the table does. */
  ghost predicate LargestFit<Row>(table: Table<Row>, tail: bool, max: nat, t: Tokenizer, k: nat) {
    && 1 <= k < |table.rows| && Tokens(t, table.write(Side(tail, table.rows, k))) <= max
    && forall i :: k < i < |table.rows| ==> Tokens(t, table.write(Side(tail, table.rows, i))) > max
  }

  /** The text that is cut when no proper part of the rows fits: the row closest to the kept side. */
  function Oversized<Row>(table: Table<Row>, tail: bool): string {
    if table.rows == [] then table.body
    else table.rowText(if tail then table.rows[|table.rows| - 1] else table.rows[0])
  }

  /** What is left of a table: the largest proper part of its rows that fits, first or last ones; if there is
      none, a snippet of the row nearest the kept side; nothing, if not even the wrapper fits. */
  ghost predicate RowsKept<Row>(table: Table<Row>, tail: bool, max: nat, t: Tokenizer, r: Option<string>) {
    && (forall k: nat :: LargestFit(table, tail, max, t, k) ==>
          r == Some(table.write(if tail then table.rows[|table.rows| - k..] else table.rows[..k])))
    && ((forall k: nat :: !LargestFit(table, tail, max, t, k)) ==>
          if Tokens(t, table.empty) > max then r == None
          else
            && r.Some?
            && (table.rows == [] ==> SnippetKept(table, tail, table.body, max, t, r.value))
            && (table.rows != [] ==>
                  var row := if tail then table.rows[|table.rows| - 1] else table.rows[0];
                  SnippetKept(table, tail, table.rowText(row), max, t, r.value)))
  }

  /** Fewer whole rows, the most that fit; else part of the row closest to the kept side. */
  method RowTrim<Row>(table: Table<Row>, tail: bool, max: nat, t: Tokenizer) returns (r: Option<string>)
    ensures r.Some? ==> Tokens(t, r.value) <= max
    ensures RowsKept(table, tail, max, t, r)
  {
    hide SnippetKept;
    var k := |table.rows| - 1;
    while k > 0
      invariant k < |table.rows|
      invariant forall i :: k < i < |table.rows| ==> i < 1 || Tokens(t, table.write(Side(tail, table.rows, i))) > max
    {
      if Tokens(t, table.write(Side(tail, table.rows, k))) <= max {
        assert LargestFit(table, tail, max, t, k);
        return Some(table.write(Side(tail, table.rows, k)));
      }
      k := k - 1;
    }
    r := CharFallback(table, tail, Oversized(table, tail), max, t);
    if r.Some? {
      SnippetFits(table, tail, Oversized(table, tail), max, t, r.value);
    }
  }

  lemma SnippetFits<Row>(table: Table<Row>, tail: bool, text: string, max: nat, t: Tokenizer, r: string)
    requires SnippetKept(table, tail, text, max, t, r)
    ensures Tokens(t, r) <= max
  {
  }

  /** There is at most one largest fit, so the rows that are kept are determined. */
  lemma LargestFitIsUnique<Row>(table: Table<Row>, tail: bool, max: nat, t: Tokenizer, k: nat, n: nat)
    requires LargestFit(table, tail, max, t, k) && LargestFit(table, tail, max, t, n)
    ensures k == n
  {
  }

  // ----- Content -----

  /** What a sidecar item's content is, as far as trimming goes. */
  datatype Content<!Row> =
    | Plain(text: string)
    | Tabular(text: string, table: Table<Row>)  // a table tag that could be split into rows
    | Unsplit(text: string, body: string)       // a table tag that could not

  /** What is left of the content at a budget: the head of plain text or of a table's body, the first rows of a
      table that has rows. */
  ghost predicate HeadOf<Row>(content: Content<Row>, max: nat, t: Tokenizer, r: string) {
    && Tokens(t, r) <= max
    && match content
       case Plain(text) => HeadKept(text, max, t, r)
       case Unsplit(_, body) => HeadKept(body, max, t, r)
       case Tabular(_, table) =>
         RowsKept(table, false, max, t, Some(r)) || (RowsKept(table, false, max, t, None) && HeadKept(table.body, max, t, r))
  }

  method TrimInner<Row>(content: Content<Row>, budget: nat, t: Tokenizer) returns (r: string)
    ensures HeadOf(content, budget, t, r)
  {
    hide RowsKept;
    match content
    case Plain(text) => r := CharTrimTrailing(text, budget, t);
    case Unsplit(_, body) => r := CharTrimTrailing(body, budget, t);
    case Tabular(_, table) =>
      var trimmed := RowTrim(table, false, budget, t);
      if trimmed.Some? {
        r := trimmed.value;
      } else {
        r := CharTrimTrailing(table.body, budget, t);
      }
  }

  /** Tokenizers for which what is left is determined. */
  ghost predicate Sharp<Row>(content: Content<Row>, t: Tokenizer) {
    match content
    case Plain(text) => MonotonePrefixes(t, text)
    case Unsplit(_, body) => MonotonePrefixes(t, body)
    case Tabular(_, table) =>
      && MonotonePrefixes(t, table.body)
      && MonotoneSnippets(table, false, Oversized(table, false), t)
  }

  lemma HeadIsUnique(text: string, max: nat, t: Tokenizer, r: string, s: string)
    requires HeadKept(text, max, t, r) && HeadKept(text, max, t, s) && MonotonePrefixes(t, text)
    ensures r == s
  {
    assert text[..|r|] == r && text[..|s|] == s;
  }

  lemma SnippetIsUnique<Row>(table: Table<Row>, tail: bool, text: string, max: nat, t: Tokenizer, r: string, s: string)
    requires SnippetKept(table, tail, text, max, t, r) && SnippetKept(table, tail, text, max, t, s)
    requires MonotoneSnippets(table, tail, text, t)
    ensures r == s
  {
    var i :| SnippetOf(table, tail, text, max, t, r, i);
    var j :| SnippetOf(table, tail, text, max, t, s, j);
    assert r == Candidate(table, tail, text, i) && s == Candidate(table, tail, text, j);
  }

  lemma RowsAreUnique<Row>(table: Table<Row>, max: nat, t: Tokenizer, r: Option<string>, s: Option<string>)
    requires RowsKept(table, false, max, t, r) && RowsKept(table, false, max, t, s)
    requires MonotoneSnippets(table, false, Oversized(table, false), t)
    ensures r == s
  {
    hide SnippetKept, MonotoneSnippets;
    if k: nat :| LargestFit(table, false, max, t, k) {
    } else if Tokens(t, table.empty) <= max {
      SnippetIsUnique(table, false, Oversized(table, false), max, t, r.value, s.value);
    }
  }

  /** For a monotone tokenizer nothing but the longest head satisfies what trimming promises. */
  lemma TrimmedIsUnique<Row>(content: Content<Row>, max: nat, t: Tokenizer, r: string, s: string)
    requires HeadOf(content, max, t, r) && HeadOf(content, max, t, s) && Sharp(content, t)
    ensures r == s
  {
    hide HeadKept, RowsKept, MonotonePrefixes, MonotoneSnippets;
    match content
    case Plain(text) => HeadIsUnique(text, max, t, r, s);
    case Unsplit(_, body) => HeadIsUnique(body, max, t, r, s);
    case Tabular(_, table) =>
      if RowsKept(table, false, max, t, None) {
        if RowsKept(table, false, max, t, Some(r)) {
          RowsAreUnique(table, max, t, None, Some(r));
        }
        if RowsKept(table, false, max, t, Some(s)) {
          RowsAreUnique(table, max, t, None, Some(s));
        }
        HeadIsUnique(table.body, max, t, r, s);
      } else {
        RowsAreUnique(table, max, t, Some(r), Some(s));
      }
  }

  /** Over-budget content: what is left beside the marker, and the marker, if the marker leaves room and the
      two together fit; else what is left without a marker. */
  ghost predicate Marked<Row>(content: Content<Row>, max: nat, marker: (nat, int) -> string, t: Tokenizer, r: string) {
    var original := Tokens(t, content.text);
    var reserve := Tokens(t, marker(original, max));
    if reserve >= max then HeadOf(content, max, t, r)
    else
      var left := max - reserve;
      exists inner ::
        && HeadOf(content, left, t, inner)
        && var whole := inner + marker(original, Tokens(t, inner));
           if Tokens(t, whole) <= max then r == whole else HeadOf(content, max, t, r)
  }

  /** Trimming with a marker, which counts against the budget and is dropped if it cannot be afforded.
      Whatever the tokenizer, the result fits; content that fits already is not touched. */
  method TrimContent<Row>(content: Content<Row>, max: int, marker: (nat, int) -> string, tokenizer: Option<Tokenizer>)
    returns (r: string, trimmed: bool)
    ensures trimmed <==> content.text != "" && tokenizer.Some? && max > 0 && Tokens(tokenizer.value, content.text) > max
    ensures !trimmed ==> r == content.text
    ensures trimmed ==> Tokens(tokenizer.value, r) <= max
    ensures trimmed ==> Marked(content, max, marker, tokenizer.value, r)
  {
    hide HeadOf;
    if content.text == "" || tokenizer == None || max <= 0 {
      return content.text, false;
    }
    var t := tokenizer.value;
    var original := Tokens(t, content.text);
    if original <= max {
      return content.text, false;
    }
    trimmed := true;
    var reserve := Tokens(t, marker(original, max));
    if reserve >= max {
      r := TrimInner(content, max, t);
      HeadFits(content, max, t, r);
      return;
    }
    var inner := TrimInner(content, max - reserve, t);
    var final := Tokens(t, inner);
    r := inner + marker(original, final);
    if Tokens(t, r) > max {
      // a tokenizer need not be additive
      r := TrimInner(content, max, t);
      HeadFits(content, max, t, r);
    }
  }

  lemma HeadFits<Row>(content: Content<Row>, max: nat, t: Tokenizer, r: string)
    requires HeadOf(content, max, t, r)
    ensures Tokens(t, r) <= max
  {
  }

  /** Over-budget plain text under a monotone tokenizer: the longest head that leaves room for the marker,
      with the marker; where that does not fit, the longest head that fits alone. */
  lemma MarkedHead<Row>(content: Content<Row>, max: nat, marker: (nat, int) -> string, t: Tokenizer, r: string, n: nat)
    requires content.Plain? && MonotonePrefixes(t, content.text) && Marked(content, max, marker, t, r)
    requires
      var reserve := Tokens(t, marker(Tokens(t, content.text), max));
      && reserve < max && n <= |content.text| && Tokens(t, content.text[..n]) <= max - reserve
      && forall i :: n < i <= |content.text| ==> Tokens(t, content.text[..i]) > max - reserve
    ensures
      var whole := content.text[..n] + marker(Tokens(t, content.text), Tokens(t, content.text[..n]));
      if Tokens(t, whole) <= max then r == whole else HeadKept(content.text, max, t, r)
  {
    var reserve := Tokens(t, marker(Tokens(t, content.text), max));
    assert content.text[..|content.text|] == content.text;
    var left := max - reserve;
    assert HeadOf(content, left, t, content.text[..n]);
    forall inner | HeadOf(content, left, t, inner)
      ensures inner == content.text[..n]
    {
      TrimmedIsUnique(content, left, t, inner, content.text[..n]);
    }
  }

  /** The same for a table some of whose rows fit beside the marker. */
  lemma MarkedRows<Row>(content: Content<Row>, max: nat, marker: (nat, int) -> string, t: Tokenizer, r: string, k: nat)
    requires content.Tabular? && Marked(content, max, marker, t, r)
    requires
      var reserve := Tokens(t, marker(Tokens(t, content.text), max));
      reserve < max && LargestFit(content.table, false, max - reserve, t, k)
    ensures
      var rows := content.table.write(content.table.rows[..k]);
      var whole := rows + marker(Tokens(t, content.text), Tokens(t, rows));
      if Tokens(t, whole) <= max then r == whole else HeadOf(content, max, t, r)
  {
    hide HeadKept, SnippetKept;
    var left := max - Tokens(t, marker(Tokens(t, content.text), max));
    forall inner | HeadOf(content, left, t, inner)
      ensures inner == content.table.write(content.table.rows[..k])
    {
    }
  }
}
