/** Table rows and their wrappers, over tags that have already been matched. */
module TableMarkup {
  import opened Stores

  datatype Wrapper = Bare | Head | Body | Foot

  /** A matched tag: an opening or closing wrapper, a whole row, or text the extractor drops. */
  datatype Token = Open(wrapper: Wrapper) | Close(wrapper: Wrapper) | Tr(row: string) | Dropped(text: string)

  type Row = (Wrapper, string)

  function Entered(current: Wrapper, token: Token): Wrapper {
    match token
    case Open(w) => w
    case Close(w) => if current == w then Bare else current
    case _ => current
  }

  /** The rows of the markup, each with the wrapper it sits in. */
  function RowsFrom(current: Wrapper, tokens: seq<Token>): seq<Row>
    decreases |tokens|
  {
    if tokens == [] then []
    else
      (if tokens[0].Tr? then [(current, tokens[0].row)] else []) +
      RowsFrom(Entered(current, tokens[0]), tokens[1..])
  }

  function Switch(current: Wrapper, next: Wrapper): seq<Token> {
    if next == current then []
    else (if current == Bare then [] else [Close(current)]) + (if next == Bare then [] else [Open(next)])
  }

  /** The rows written back, consecutive rows of one wrapper in one block. */
  function Emit(current: Wrapper, rows: seq<Row>): seq<Token>
    decreases |rows|
  {
    if rows == [] then Switch(current, Bare)
    else Switch(current, rows[0].0) + [Tr(rows[0].1)] + Emit(rows[0].0, rows[1..])
  }

  method SplitHtmlRows(body: seq<Token>) returns (r: Option<seq<Row>>)
    ensures r == if RowsFrom(Bare, body) == [] then None else Some(RowsFrom(Bare, body))
  {
    var rows: seq<Row> := [];
    var current := Bare;
    for i := 0 to |body|
      invariant rows + RowsFrom(current, body[i..]) == RowsFrom(Bare, body)
    {
      match body[i] {
        case Open(w) => current := w;
        case Close(w) => if current == w { current := Bare; }
        case Tr(row) => rows := rows + [(current, row)];
        case Dropped(_) =>
      }
    }
    assert rows + RowsFrom(current, body[|body|..]) == rows;
    return if rows == [] then None else Some(rows);
  }

  lemma EmitStep(parts: seq<Token>, current: Wrapper, rows: seq<Row>, i: nat)
    requires i < |rows|
    ensures
      (parts + Switch(current, rows[i].0) + [Tr(rows[i].1)]) + Emit(rows[i].0, rows[i + 1..]) == parts + Emit(current, rows[i..])
  {
    var rest := rows[i..];
    assert rest[0] == rows[i] && rest[1..] == rows[i + 1..];
    assert Emit(current, rest) == Switch(current, rows[i].0) + [Tr(rows[i].1)] + Emit(rows[i].0, rows[i + 1..]);
  }

  method SerializeHtmlRows(rows: seq<Row>) returns (parts: seq<Token>)
    ensures parts == Emit(Bare, rows)
  {
    parts := [];
    var current := Bare;
    for i := 0 to |rows|
      invariant parts + Emit(current, rows[i..]) == Emit(Bare, rows)
    {
      hide Emit;
      var (wrapper, row) := rows[i];
      EmitStep(parts, current, rows, i);
      ghost var before := parts;
      if wrapper != current {
        if current != Bare {
          parts := parts + [Close(current)];
        }
        if wrapper != Bare {
          parts := parts + [Open(wrapper)];
        }
      }
      assert parts == before + Switch(current, wrapper);
      current := wrapper;
      parts := parts + [Tr(row)];
    }
    assert Emit(current, rows[|rows|..]) == Switch(current, Bare);
    if current != Bare {
      parts := parts + [Close(current)];
    }
  }

  lemma RowsFromSwitch(current: Wrapper, next: Wrapper, rest: seq<Token>)
    ensures RowsFrom(current, Switch(current, next) + rest) == RowsFrom(next, rest)
  {
    var closing := if next == current || current == Bare then [] else [Close(current)];
    var opening := if next == current || next == Bare then [] else [Open(next)];
    var middle := if next == current then current else Bare;
    assert Switch(current, next) + rest == closing + (opening + rest);
    if closing != [] {
      assert (closing + (opening + rest))[1..] == opening + rest;
    } else {
      assert closing + (opening + rest) == opening + rest;
    }
    if opening != [] {
      assert (opening + rest)[1..] == rest;
    } else {
      assert opening + rest == rest;
    }
  }

  lemma RowsFromTr(current: Wrapper, row: string, rest: seq<Token>)
    ensures RowsFrom(current, [Tr(row)] + rest) == [(current, row)] + RowsFrom(current, rest)
  {
    assert ([Tr(row)] + rest)[1..] == rest;
  }

  lemma EmitUnfolds(current: Wrapper, rows: seq<Row>)
    requires rows != []
    ensures Emit(current, rows) == Switch(current, rows[0].0) + ([Tr(rows[0].1)] + Emit(rows[0].0, rows[1..]))
  {
  }

  lemma EmitEnds(current: Wrapper)
    ensures Emit(current, []) == Switch(current, Bare) + []
  {
  }

  /** Splitting what was serialized gives the rows back, from wherever serializing starts. */
  lemma {:induction false} RoundTrip(current: Wrapper, rows: seq<Row>)
    ensures RowsFrom(current, Emit(current, rows)) == rows
    decreases |rows|
  {
    if rows == [] {
      EmitEnds(current);
      RowsFromSwitch(current, Bare, []);
    } else {
      var (wrapper, row) := rows[0];
      var rest := Emit(wrapper, rows[1..]);
      EmitUnfolds(current, rows);
      RoundTrip(wrapper, rows[1..]);
      hide Emit, RowsFrom, Switch;
      RowsFromSwitch(current, wrapper, [Tr(row)] + rest);
      RowsFromTr(wrapper, row, rest);
      assert rows == [(wrapper, row)] + rows[1..];
    }
  }

  /** Row trimming writes back a prefix or a suffix of the rows; each reads back as itself. */
  lemma SlicesRoundTrip(rows: seq<Row>, k: nat)
    requires k <= |rows|
    ensures RowsFrom(Bare, Emit(Bare, rows[..k])) == rows[..k]
    ensures RowsFrom(Bare, Emit(Bare, rows[k..])) == rows[k..]
  {
    RoundTrip(Bare, rows[..k]);
    RoundTrip(Bare, rows[k..]);
  }

  /** Re-serializing any markup is stable: same rows, and the second pass changes nothing. */
  lemma NormalFormIsStable(tokens: seq<Token>)
    ensures
      var normal := Emit(Bare, RowsFrom(Bare, tokens));
      RowsFrom(Bare, normal) == RowsFrom(Bare, tokens) && Emit(Bare, RowsFrom(Bare, normal)) == normal
  {
    RoundTrip(Bare, RowsFrom(Bare, tokens));
  }

  /** Well-nested: a wrapper opens only outside any wrapper, closes only itself, and none is left open. */
  predicate Nested(current: Wrapper, tokens: seq<Token>)
    decreases |tokens|
  {
    if tokens == [] then current == Bare
    else
      && (tokens[0].Open? ==> current == Bare && tokens[0].wrapper != Bare)
      && (tokens[0].Close? ==> tokens[0].wrapper == current != Bare)
      && Nested(Entered(current, tokens[0]), tokens[1..])
  }

  lemma NestedSwitch(current: Wrapper, next: Wrapper, rest: seq<Token>)
    requires Nested(next, rest)
    ensures Nested(current, Switch(current, next) + rest)
  {
    var closing := if next == current || current == Bare then [] else [Close(current)];
    var opening := if next == current || next == Bare then [] else [Open(next)];
    assert Switch(current, next) + rest == closing + (opening + rest);
    if opening != [] {
      assert (opening + rest)[1..] == rest;
    } else {
      assert opening + rest == rest;
    }
    if closing != [] {
      assert (closing + (opening + rest))[1..] == opening + rest;
    } else {
      assert closing + (opening + rest) == opening + rest;
    }
  }

  lemma NestedTr(current: Wrapper, row: string, rest: seq<Token>)
    requires Nested(current, rest)
    ensures Nested(current, [Tr(row)] + rest)
  {
    assert ([Tr(row)] + rest)[1..] == rest;
  }

  /** Whatever the rows, the markup written back is well nested. */
  lemma {:induction false} EmitIsNested(current: Wrapper, rows: seq<Row>)
    ensures Nested(current, Emit(current, rows))
    decreases |rows|
  {
    if rows == [] {
      EmitEnds(current);
      NestedSwitch(current, Bare, []);
    } else {
      var (wrapper, row) := rows[0];
      var rest := Emit(wrapper, rows[1..]);
      EmitUnfolds(current, rows);
      EmitIsNested(wrapper, rows[1..]);
      hide Emit, Nested, Switch;
      NestedTr(wrapper, row, rest);
      NestedSwitch(current, wrapper, [Tr(row)] + rest);
    }
  }

  // ----- Which wrapper a row is in -----

  /** The wrapper at the end of the tokens. */
  function WrapperAfter(tokens: seq<Token>): Wrapper {
    if tokens == [] then Bare else Entered(WrapperAfter(tokens[..|tokens| - 1]), tokens[|tokens| - 1])
  }

  /** A wrapper that opened at `q` is still in force: no other has opened since, and it has not closed. */
  predicate OpenSince(tokens: seq<Token>, w: Wrapper, q: int) {
    && 0 <= q < |tokens| && tokens[q] == Open(w)
    && forall k :: q < k < |tokens| ==> !tokens[k].Open? && tokens[k] != Close(w)
  }

  lemma OpenStays(tokens: seq<Token>, w: Wrapper, q: int, token: Token)
    requires q < |tokens|
    ensures OpenSince(tokens + [token], w, q) <==> OpenSince(tokens, w, q) && !token.Open? && token != Close(w)
    ensures OpenSince(tokens + [token], w, |tokens|) <==> token == Open(w)
  {
    var all := tokens + [token];
    assert all[|tokens|] == token && forall k :: 0 <= k < |tokens| ==> all[k] == tokens[k];
  }

  /** A wrapper is in force exactly from its opening tag to the next opening tag or its own closing tag;
      nothing else, dropped text and stray closing tags included, has any effect. */
  lemma {:induction false} InForceIff(tokens: seq<Token>, w: Wrapper)
    requires w != Bare
    ensures WrapperAfter(tokens) == w <==> exists q :: OpenSince(tokens, w, q)
    decreases |tokens|
  {
    if tokens != [] {
      var n := |tokens| - 1;
      var front, last := tokens[..n], tokens[n];
      assert tokens == front + [last];
      InForceIff(front, w);
      forall q | q < n
        ensures OpenSince(tokens, w, q) <==> OpenSince(front, w, q) && !last.Open? && last != Close(w)
      {
        OpenStays(front, w, q, last);
      }
      OpenStays(front, w, -1, last);
      assert WrapperAfter(tokens) == Entered(WrapperAfter(front), last);
      assert forall q :: OpenSince(tokens, w, q) ==> q <= n;
      hide OpenSince, WrapperAfter;
      if last == Open(w) {
        assert OpenSince(tokens, w, n);
      }
    }
  }

  lemma {:induction false} RowsFromLast(current: Wrapper, tokens: seq<Token>, after: Wrapper, token: Token)
    requires after == EnteredAll(current, tokens)
    ensures RowsFrom(current, tokens + [token]) ==
      RowsFrom(current, tokens) + if token.Tr? then [(after, token.row)] else []
    decreases |tokens|
  {
    if tokens == [] {
      assert tokens + [token] == [token] && [token][1..] == [];
    } else {
      assert (tokens + [token])[1..] == tokens[1..] + [token];
      RowsFromLast(Entered(current, tokens[0]), tokens[1..], after, token);
    }
  }

  function EnteredAll(current: Wrapper, tokens: seq<Token>): Wrapper
    decreases |tokens|
  {
    if tokens == [] then current else EnteredAll(Entered(current, tokens[0]), tokens[1..])
  }

  lemma {:induction false} EnteredAllLast(current: Wrapper, tokens: seq<Token>, token: Token)
    ensures EnteredAll(current, tokens + [token]) == Entered(EnteredAll(current, tokens), token)
    decreases |tokens|
  {
    if tokens == [] {
      assert [token][1..] == [];
      assert tokens + [token] == [token];
    } else {
      assert (tokens + [token])[1..] == tokens[1..] + [token];
      EnteredAllLast(Entered(current, tokens[0]), tokens[1..], token);
    }
  }

  lemma {:induction false} SameWrapper(tokens: seq<Token>)
    ensures EnteredAll(Bare, tokens) == WrapperAfter(tokens)
    decreases |tokens|
  {
    if tokens != [] {
      var n := |tokens| - 1;
      SameWrapper(tokens[..n]);
      EnteredAllLast(Bare, tokens[..n], tokens[n]);
      assert tokens == tokens[..n] + [tokens[n]];
    }
  }

  /** Each row tag gives one row, in order, in the wrapper that is in force there. */
  lemma RowsInForce(tokens: seq<Token>, token: Token)
    ensures RowsFrom(Bare, []) == []
    ensures RowsFrom(Bare, tokens + [token]) ==
      RowsFrom(Bare, tokens) + if token.Tr? then [(WrapperAfter(tokens), token.row)] else []
  {
    SameWrapper(tokens);
    RowsFromLast(Bare, tokens, WrapperAfter(tokens), token);
  }

  // ----- The markup written back is the only one of its kind -----

  /** Nothing is dropped, a wrapper opens only right before a row, and one that closes does not open again
      at once: consecutive rows of one wrapper share one block. */
  predicate Compact(tokens: seq<Token>)
    decreases |tokens|
  {
    tokens == [] ||
    (&& !tokens[0].Dropped?
     && (tokens[0].Open? ==> |tokens| > 1 && tokens[1].Tr?)
     && (tokens[0].Close? ==> |tokens| == 1 || tokens[1] != Open(tokens[0].wrapper))
     && Compact(tokens[1..]))
  }

  lemma CompactSwitch(current: Wrapper, next: Wrapper, rest: seq<Token>)
    requires Compact(rest) && if rest == [] then next == Bare else rest[0].Tr?
    ensures Compact(Switch(current, next) + rest)
  {
    var closing := if next == current || current == Bare then [] else [Close(current)];
    var opening := if next == current || next == Bare then [] else [Open(next)];
    assert Switch(current, next) + rest == closing + (opening + rest);
    if opening != [] {
      assert (opening + rest)[1..] == rest;
    } else {
      assert opening + rest == rest;
    }
    if closing != [] {
      assert (closing + (opening + rest))[1..] == opening + rest;
    } else {
      assert closing + (opening + rest) == opening + rest;
    }
  }

  lemma {:induction false} EmitIsCompact(current: Wrapper, rows: seq<Row>)
    ensures Compact(Emit(current, rows))
    decreases |rows|
  {
    if rows == [] {
      EmitEnds(current);
      CompactSwitch(current, Bare, []);
    } else {
      var (wrapper, row) := rows[0];
      var rest := Emit(wrapper, rows[1..]);
      EmitUnfolds(current, rows);
      EmitIsCompact(wrapper, rows[1..]);
      assert ([Tr(row)] + rest)[1..] == rest;
      hide Emit, Switch;
      CompactSwitch(current, wrapper, [Tr(row)] + rest);
    }
  }

  lemma SwitchCloses(current: Wrapper, next: Wrapper)
    requires current != Bare && next != current
    ensures Switch(current, next) == [Close(current)] + Switch(Bare, next)
    ensures Switch(Bare, Bare) == []
  {
  }

  /** What leaving a wrapper adds. */
  lemma EmitCloses(current: Wrapper, rows: seq<Row>)
    requires current != Bare && (rows != [] ==> rows[0].0 != current)
    ensures Emit(current, rows) == [Close(current)] + Emit(Bare, rows)
  {
    hide Emit, Switch;
    if rows == [] {
      EmitEnds(current);
      EmitEnds(Bare);
      SwitchCloses(current, Bare);
    } else {
      var switch := Switch(Bare, rows[0].0);
      var row := [Tr(rows[0].1)] + Emit(rows[0].0, rows[1..]);
      EmitUnfolds(current, rows);
      EmitUnfolds(Bare, rows);
      SwitchCloses(current, rows[0].0);
      assert ([Close(current)] + switch) + row == [Close(current)] + (switch + row);
    }
  }

  lemma EmitOpens(w: Wrapper, rows: seq<Row>)
    requires rows != [] && rows[0].0 == w != Bare
    ensures Emit(Bare, rows) == [Open(w)] + Emit(w, rows)
  {
    EmitUnfolds(Bare, rows);
    EmitUnfolds(w, rows);
    assert Switch(Bare, w) == [Open(w)] && Switch(w, w) == [];
  }

  lemma EmitRow(current: Wrapper, row: string, rows: seq<Row>)
    ensures Emit(current, [(current, row)] + rows) == [Tr(row)] + Emit(current, rows)
  {
    EmitUnfolds(current, [(current, row)] + rows);
    assert ([(current, row)] + rows)[1..] == rows && Switch(current, current) == [];
  }

  /** Well nested, compact markup is what its rows are written back as: serializing has no other choice. */
  lemma {:induction false} OnlyMarkup(current: Wrapper, tokens: seq<Token>)
    requires Nested(current, tokens) && Compact(tokens)
    ensures tokens == Emit(current, RowsFrom(current, tokens))
    decreases |tokens|
  {
    if tokens == [] {
      EmitEnds(Bare);
    } else {
      var first, rest := tokens[0], tokens[1..];
      var next := Entered(current, first);
      var rows := RowsFrom(next, rest);
      OnlyMarkup(next, rest);
      hide Emit, Switch;
      match first
      case Tr(row) =>
        EmitRow(current, row, rows);
      case Close(w) =>
        if rows != [] && rows[0].0 == w {
          EmitOpens(w, rows);
          assert false;
        }
        EmitCloses(current, rows);
        assert RowsFrom(current, tokens) == rows;
      case Open(w) =>
        EmitOpens(w, rows);
        assert RowsFrom(current, tokens) == rows;
    }
  }
}
