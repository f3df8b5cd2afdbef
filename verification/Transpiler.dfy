/**
 Replacing the queries embedded in a handler by calls, line by line
 (parser/parser.go). Finding queries, reading their parameters and escaping for
 JavaScript are parameters.
 */
module Transpiler {
  import opened Prelude
  import opened Lexer
  import opened Rewriting

  // ---- Lines -------------------------------------------------------------------

  /** strings.Split at newlines. */
  function Split(s: string): (lines: seq<string>)
    ensures |lines| == Newlines(s) + 1
  {
    if s == [] then [[]]
    else
      var rest := Split(s[1..]);
      if s[0] == '\n' then [[]] + rest else [[s[0]] + rest[0]] + rest[1..]
  }

  function Join(lines: seq<string>): string
    requires lines != []
  {
    if |lines| == 1 then lines[0] else lines[0] + "\n" + Join(lines[1..])
  }

  ghost predicate OneLine(s: string) { '\n' !in s }

  lemma {:induction false} SplitIsOneLine(s: string)
    ensures forall i | 0 <= i < |Split(s)| :: OneLine(Split(s)[i])
  {
    if s != [] { SplitIsOneLine(s[1..]); }
  }

  lemma {:induction false} JoinSplit(s: string)
    ensures Join(Split(s)) == s
  {
    if s != [] {
      var rest := Split(s[1..]);
      JoinSplit(s[1..]);
      if s[0] == '\n' {
        assert Split(s)[1..] == rest;
      } else {
        assert Split(s)[1..] == rest[1..];
      }
    }
  }

  lemma {:induction false} SplitPrepend(line: string, s: string)
    requires OneLine(line)
    ensures Split(line + s) == [line + Split(s)[0]] + Split(s)[1..]
  {
    if line == [] {
      assert line + s == s && line + Split(s)[0] == Split(s)[0];
    } else {
      assert (line + s)[1..] == line[1..] + s;
      SplitPrepend(line[1..], s);
      assert [line[0]] + (line[1..] + Split(s)[0]) == line + Split(s)[0];
    }
  }

  lemma {:induction false} SplitJoin(lines: seq<string>)
    requires lines != [] && forall i | 0 <= i < |lines| :: OneLine(lines[i])
    ensures Split(Join(lines)) == lines
  {
    if |lines| == 1 {
      SplitPrepend(lines[0], []);
      assert lines[0] + [] == lines[0];
    } else {
      SplitJoin(lines[1..]);
      var rest := "\n" + Join(lines[1..]);
      assert rest[1..] == Join(lines[1..]);
      SplitPrepend(lines[0], rest);
      assert lines[0] + rest == Join(lines) && lines[0] + [] == lines[0];
      assert Split(rest) == [[]] + lines[1..];
    }
  }

  lemma {:induction false} JoinSnoc(lines: seq<string>, line: string)
    requires lines != []
    ensures Join(lines + [line]) == Join(lines) + "\n" + line
  {
    assert (lines + [line])[1..] == lines[1..] + [line];
    if |lines| > 1 { JoinSnoc(lines[1..], line); }
  }

  // ---- A query -----------------------------------------------------------------

  predicate IsSpace(c: char) { c == ' ' || IsBlank(c) }

  function Leading(line: string): (n: nat)
    ensures n <= |line|
  {
    if line == [] || !IsSpace(line[0]) then 0 else 1 + Leading(line[1..])
  }

  function Trailing(line: string): (n: nat)
    ensures n <= |line|
  {
    if line == [] || !IsSpace(line[|line| - 1]) then 0 else 1 + Trailing(line[..|line| - 1])
  }

  datatype Spaced = Spaced(before: string, body: string, after: string)

  /** A line without the spaces around it; a line of spaces only has an empty body. */
  function SpacedLine(line: string): (r: Spaced)
    ensures r.before + r.body + r.after == line
  {
    var before, rest := line[..Leading(line)], line[Leading(line)..];
    var n := |rest| - Trailing(rest);
    Spaced(before, rest[..n], rest[n..])
  }

  /** A line of the query as a JavaScript string, all but the last with a newline escape in it. */
  function JsLine(line: string, last: bool, escape: string -> string): string {
    var split := SpacedLine(line);
    split.before + "'" + escape(StripComments(split.body)) + (if last then "" else "\\n") + "'" + split.after
  }

  function CallEnd(params: string, n1qlParams: string): string {
    if n1qlParams == "" then ", " + params + ");" else ", " + params + ", " + n1qlParams + ");"
  }

  /** A line of the call: the first one opens it, the last one ends it, the others continue. */
  function Decorate(line: string, first: bool, last: bool, end: string): string {
    (if first then "N1QL(" else "") + line + (if last then end else " +")
  }

  /** Line i of the call that replaces a query. */
  function CallLine(lines: seq<string>, i: nat, params: string, n1qlParams: string, escape: string -> string): string
    requires i < |lines|
  {
    var last := i == |lines| - 1;
    Decorate(JsLine(lines[i], last, escape), i == 0, last, CallEnd(params, n1qlParams))
  }

  function CallLines(lines: seq<string>, params: string, n1qlParams: string, escape: string -> string): seq<string> {
    seq(|lines|, i requires 0 <= i < |lines| => CallLine(lines, i, params, n1qlParams, escape))
  }

  lemma JsLineIsOneLine(line: string, last: bool, escape: string -> string)
    requires OneLine(line) && forall s :: OneLine(escape(s))
    ensures OneLine(JsLine(line, last, escape))
  {
    var split := SpacedLine(line);
    assert OneLine(split.before + split.body + split.after);
    assert OneLine(split.before) && OneLine(split.after);
    assert OneLine(escape(StripComments(split.body)));
  }

  method MakeJsLine(line: string, last: bool, escape: string -> string) returns (js: string)
    ensures js == JsLine(line, last, escape)
  {
    var split := SpacedLine(line);
    var nl := if last then "" else "\\n";
    var body := Cleanse(split.body, COMMENTS_OUT);
    js := split.before + "'" + escape(body) + nl + "'" + split.after;
  }

  /** The lines of a query as JavaScript strings. */
  function JsLinesOf(lines: seq<string>, escape: string -> string): seq<string> {
    seq(|lines|, i requires 0 <= i < |lines| => JsLine(lines[i], i == |lines| - 1, escape))
  }

  method JsLines(lines: seq<string>, escape: string -> string, ghost want: seq<string>) returns (jsLines: seq<string>)
    requires |want| == |lines| && forall i | 0 <= i < |lines| :: want[i] == JsLine(lines[i], i == |lines| - 1, escape)
    ensures jsLines == want
  {
    jsLines := [];
    for i := 0 to |lines|
      invariant jsLines == want[..i]
    {
      var js := MakeJsLine(lines[i], i == |lines| - 1, escape);
      assert want[..i + 1] == want[..i] + [want[i]];
      jsLines := jsLines + [js];
    }
    assert want[..|want|] == want;
  }

  /** What replaces a query: the lines made from its lines. */
  function Call(query: string, params: string, n1qlParams: string, escape: string -> string): string {
    Join(CallLines(Split(query), params, n1qlParams, escape))
  }

  method WrapQuery(query: string, params: string, n1qlParams: string, escape: string -> string) returns (result: string)
    ensures result == Call(query, params, n1qlParams, escape)
  {
    var lines := Split(query);
    var jsLines := JsLines(lines, escape, JsLinesOf(lines, escape));
    result := JoinCall(jsLines, CallEnd(params, n1qlParams), CallLines(Split(query), params, n1qlParams, escape));
  }

  method JoinCall(jsLines: seq<string>, end: string, ghost calls: seq<string>) returns (result: string)
    requires |jsLines| == |calls| > 0
    requires forall i | 0 <= i < |calls| :: calls[i] == Decorate(jsLines[i], i == 0, i == |calls| - 1, end)
    ensures result == Join(calls)
  {
    result := "";
    for i := 0 to |jsLines|
      invariant i == 0 ==> result == ""
      invariant i > 0 ==> result == Join(calls[..i]) + (if i < |jsLines| then "\n" else "")
    {
      NextLine(calls, i);
      result := result + Decorate(jsLines[i], i == 0, i == |jsLines| - 1, end);
      if i < |jsLines| - 1 {
        result := result + "\n";
      }
    }
    assert calls[..|calls|] == calls;
  }

  lemma NextLine(lines: seq<string>, i: nat)
    requires i < |lines|
    ensures Join(lines[..i + 1]) == if i == 0 then lines[0] else Join(lines[..i]) + "\n" + lines[i]
  {
    if i > 0 {
      assert lines[..i + 1] == lines[..i] + [lines[i]];
      JoinSnoc(lines[..i], lines[i]);
    }
  }

  /** Parameters and escaped text stay on one line. */
  ghost predicate Inline(params: string, n1qlParams: string, escape: string -> string) {
    OneLine(params) && OneLine(n1qlParams) && forall s :: OneLine(escape(s))
  }

  lemma CallLineIsOneLine(lines: seq<string>, i: nat, params: string, n1qlParams: string, escape: string -> string)
    requires i < |lines| && OneLine(lines[i]) && Inline(params, n1qlParams, escape)
    ensures OneLine(CallLine(lines, i, params, n1qlParams, escape))
  {
    var last := i == |lines| - 1;
    JsLineIsOneLine(lines[i], last, escape);
    DecorateIsOneLine(JsLine(lines[i], last, escape), i == 0, last, params, n1qlParams);
  }

  lemma DecorateIsOneLine(line: string, first: bool, last: bool, params: string, n1qlParams: string)
    requires OneLine(line) && OneLine(params) && OneLine(n1qlParams)
    ensures OneLine(Decorate(line, first, last, CallEnd(params, n1qlParams)))
  {}

  /** A query of k lines becomes a call of k lines, line i of which is made from line i. */
  lemma CallKeepsLines(query: string, params: string, n1qlParams: string, escape: string -> string)
    requires Inline(params, n1qlParams, escape)
    ensures Split(Call(query, params, n1qlParams, escape)) == CallLines(Split(query), params, n1qlParams, escape)
    ensures Newlines(Call(query, params, n1qlParams, escape)) == Newlines(query)
  {
    var lines := Split(query);
    var calls := CallLines(lines, params, n1qlParams, escape);
    SplitIsOneLine(query);
    forall i | 0 <= i < |calls| ensures OneLine(calls[i]) {
      CallLineIsOneLine(lines, i, params, n1qlParams, escape);
    }
    SplitJoin(calls);
  }

  // ---- A handler ---------------------------------------------------------------

  /** The stretch is a query if its parameters can be read. */
  function Query(input: string, found: Piece, analyse: string -> Option<string>): seq<Piece>
    requires found.begin <= found.end <= |input|
  {
    var params := analyse(StripComments(input[found.begin..found.end]));
    if params.None? then [] else [Piece(found.begin, found.end, params.value)]
  }

  lemma QueryIsThere(input: string, found: Piece, analyse: string -> Option<string>)
    requires found.begin <= found.end <= |input|
    ensures AtMost(Query(input, found, analyse), found)
  {}

  ghost predicate AtMost(query: seq<Piece>, found: Piece) {
    query == [] || (|query| == 1 && query[0].begin == found.begin && query[0].end == found.end)
  }

  /** For every stretch found, the query that it is, if it is one. */
  function EachQuery(input: string, found: seq<Piece>, analyse: string -> Option<string>): seq<seq<Piece>>
    requires forall i | 0 <= i < |found| :: found[i].begin <= found[i].end <= |input|
  {
    seq(|found|, i requires 0 <= i < |found| => Query(input, found[i], analyse))
  }

  function Flatten(queries: seq<seq<Piece>>, k: nat): seq<Piece>
    requires k <= |queries|
  {
    if k == 0 then [] else Flatten(queries, k - 1) + queries[k - 1]
  }

  /** The queries among the stretches found, each with its parameters. */
  function Queries(input: string, found: seq<Piece>, analyse: string -> Option<string>): seq<Piece>
    requires forall i | 0 <= i < |found| :: found[i].begin <= found[i].end <= |input|
  {
    Flatten(EachQuery(input, found, analyse), |found|)
  }

  lemma OrderedSnoc(before: seq<Piece>, more: seq<Piece>, found: Piece, limit: nat)
    requires Ordered(before, limit) && found.begin <= found.end <= limit && forall i | 0 <= i < |before| :: before[i].end <= found.begin
    requires AtMost(more, found)
    ensures Ordered(before + more, limit) && forall i | 0 <= i < |before + more| :: (before + more)[i].end <= found.end
  {}

  lemma {:induction false} FlattenIsOrdered(queries: seq<seq<Piece>>, found: seq<Piece>, limit: nat, k: nat)
    requires Ordered(found, limit) && k <= |found| == |queries| && forall i | 0 <= i < |found| :: AtMost(queries[i], found[i])
    ensures var q := Flatten(queries, k); Ordered(q, limit) && forall i | 0 <= i < |q| :: q[i].end <= EndOf(found, k)
  {
    if k > 0 {
      FlattenIsOrdered(queries, found, limit, k - 1);
      assert EndOf(found, k - 1) <= found[k - 1].begin;
      OrderedSnoc(Flatten(queries, k - 1), queries[k - 1], found[k - 1], limit);
    }
  }

  lemma QueriesAreOrdered(input: string, found: seq<Piece>, analyse: string -> Option<string>)
    requires Ordered(found, |input|)
    ensures Ordered(Queries(input, found, analyse), |input|)
  {
    forall i | 0 <= i < |found| ensures AtMost(EachQuery(input, found, analyse)[i], found[i]) {
      QueryIsThere(input, found[i], analyse);
    }
    FlattenIsOrdered(EachQuery(input, found, analyse), found, |input|, |found|);
  }

  /** Positions found in the stripped text are positions of the input. */
  method FindQueries(input: string, matcher: string -> seq<Piece>, analyse: string -> Option<string>) returns (matches: seq<Piece>)
    requires forall s :: Ordered(matcher(s), |s|)
    ensures Ordered(matcher(StripAll(input)), |input|)
    ensures matches == Queries(input, matcher(StripAll(input)), analyse)
  {
    var bare := Cleanse(input, ALL_OUT);
    StripAllAligned(input);
    var found := matcher(bare);
    assert Ordered(found, |input|);
    matches := ReadQueries(input, found, analyse, EachQuery(input, found, analyse));
  }

  method ReadQueries(input: string, found: seq<Piece>, analyse: string -> Option<string>, ghost queries: seq<seq<Piece>>)
    returns (matches: seq<Piece>)
    requires Ordered(found, |input|) && queries == EachQuery(input, found, analyse)
    ensures matches == Flatten(queries, |found|)
  {
    matches := [];
    for i := 0 to |found|
      invariant matches == Flatten(queries, i)
    {
      var query := ReadQuery(input, found[i], analyse);
      matches := matches + query;
    }
  }

  method ReadQuery(input: string, found: Piece, analyse: string -> Option<string>) returns (query: seq<Piece>)
    requires found.begin <= found.end <= |input|
    ensures query == Query(input, found, analyse)
  {
    var text := Cleanse(input[found.begin..found.end], COMMENTS_OUT);
    var params := analyse(text);
    if params.None? {
      return [];
    }
    return [Piece(found.begin, found.end, params.value)];
  }

  function OneCall(input: string, query: Piece, n1qlParams: string, escape: string -> string): Piece
    requires query.begin <= query.end <= |input|
  {
    Piece(query.begin, query.end, Call(input[query.begin..query.end], query.text, n1qlParams, escape))
  }

  /** The calls that replace the queries. */
  function Calls(input: string, matches: seq<Piece>, n1qlParams: string, escape: string -> string): (calls: seq<Piece>)
    requires forall i | 0 <= i < |matches| :: matches[i].begin <= matches[i].end <= |input|
    ensures |calls| == |matches|
    ensures forall i | 0 <= i < |calls| :: calls[i].begin == matches[i].begin && calls[i].end == matches[i].end
  {
    seq(|matches|, i requires 0 <= i < |matches| => OneCall(input, matches[i], n1qlParams, escape))
  }

  /** The calls take the places of the matches. */
  ghost predicate Match(input: string, matches: seq<Piece>, n1qlParams: string, escape: string -> string, calls: seq<Piece>) {
    && |calls| == |matches|
    && (forall i | 0 <= i < |calls| :: calls[i].begin == matches[i].begin <= calls[i].end == matches[i].end <= |input|)
    && (forall i {:trigger OneCall(input, matches[i], n1qlParams, escape)} | 0 <= i < |calls| ::
          calls[i] == OneCall(input, matches[i], n1qlParams, escape))
  }

  method WrapOne(input: string, matches: seq<Piece>, i: nat, n1qlParams: string, escape: string -> string, ghost calls: seq<Piece>)
    returns (call: string)
    requires i < |matches| && Match(input, matches, n1qlParams, escape, calls)
    ensures call == calls[i].text
  {
    var query := matches[i];
    assert calls[i] == OneCall(input, matches[i], n1qlParams, escape);
    call := WrapQuery(input[query.begin..query.end], query.text, n1qlParams, escape);
  }

  method ReplaceQueries(input: string, matches: seq<Piece>, n1qlParams: string, escape: string -> string) returns (result: string)
    requires Ordered(matches, |input|)
    ensures result == Replaced(input, Calls(input, matches, n1qlParams, escape))
  {
    ghost var calls := Calls(input, matches, n1qlParams, escape);
    assert Ordered(calls, |input|);
    result := Substitute(input, matches, n1qlParams, escape, calls);
  }

  method Substitute(input: string, matches: seq<Piece>, n1qlParams: string, escape: string -> string, ghost calls: seq<Piece>)
    returns (result: string)
    requires Match(input, matches, n1qlParams, escape, calls) && Ordered(calls, |input|)
    ensures result == Replaced(input, calls)
  {
    result := "";
    var pos := 0;
    for i := 0 to |matches|
      invariant pos == EndOf(calls, i) <= |input| && result == Done(input, calls, i)
    {
      DoneNext(input, calls, i);
      var call := WrapOne(input, matches, i, n1qlParams, escape, calls);
      result := result + input[pos..matches[i].begin] + call;
      pos := matches[i].end;
    }
    result := result + input[pos..];
  }

  method TranspileQueries(input: string, n1qlParams: string, matcher: string -> seq<Piece>,
                          analyse: string -> Option<string>, escape: string -> string)
    returns (result: string, matches: seq<Piece>)
    requires forall s :: Ordered(matcher(s), |s|)
    ensures Ordered(matcher(StripAll(input)), |input|)
    ensures matches == Queries(input, matcher(StripAll(input)), analyse)
    ensures Ordered(matches, |input|) && result == Replaced(input, Calls(input, matches, n1qlParams, escape))
  {
    matches := FindQueries(input, matcher, analyse);
    QueriesAreOrdered(input, matcher(StripAll(input)), analyse);
    result := ReplaceQueries(input, matches, n1qlParams, escape);
  }

  /** Every byte outside the queries is still there after the replacement, on the line it was on before. */
  lemma TranspiledKeepsLines(input: string, matches: seq<Piece>, n1qlParams: string, escape: string -> string, p: nat)
    returns (q: nat)
    requires Ordered(matches, |input|) && p < |input|
    requires forall i | 0 <= i < |matches| :: p < matches[i].begin || matches[i].end <= p
    requires forall i | 0 <= i < |matches| :: Inline(matches[i].text, n1qlParams, escape)
    ensures var out := Replaced(input, Calls(input, matches, n1qlParams, escape));
            q < |out| && out[q] == input[p] && Newlines(out[..q]) == Newlines(input[..p])
  {
    var calls := Calls(input, matches, n1qlParams, escape);
    forall i | 0 <= i < |calls| ensures KeepsLines(input, calls[i]) {
      CallKeepsLines(input[matches[i].begin..matches[i].end], matches[i].text, n1qlParams, escape);
    }
    var k := SomeGap(input, calls, p, |calls|);
    GapKeepsLines(input, calls, k, p);
    q := Moved(input, calls, k, p);
  }
}
