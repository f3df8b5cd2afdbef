/**
 The lexer behind the views of a handler's source text (parser/parser.go).
 A string is a sequence of bytes.
 */
module Lexer {
  import opened Prelude

  /** What the caller wants kept, and whether what is dropped leaves spaces behind. */
  datatype Keep = Keep(comment: bool, quoted: bool, special: bool, space: bool, alignment: bool)

  const COMMENTS_OUT := Keep(false, true, true, true, false)
  const ALL_OUT := Keep(false, false, false, false, true)

  function Spaces(n: nat): string {
    seq(n, _ => ' ')
  }

  predicate IsQuote(c: char) { c == '\"' || c == '\'' || c == '`' }

  predicate IsBlank(c: char) { c == '\t' || c == '\n' || c == '\U{0B}' || c == '\U{0C}' || c == '\r' }

  predicate Pair(s: string, a: char, b: char) { |s| >= 2 && s[0] == a && s[1] == b }

  predicate Escaped(s: string) { |s| >= 2 && s[0] == '\\' }

  // ---- The reference: a text is a sequence of spans --------------------------

  datatype Kind = Special | Quoted | Comment | Space | Code

  datatype Span = Span(kind: Kind, text: string)

  /** What ends a quoted or commented stretch. */
  datatype Terminator = Byte(c: char) | StarSlash {
    function Width(): nat { if Byte? then 1 else 2 }

    predicate At(s: string) { if Byte? then s != [] && s[0] == c else Pair(s, '*', '/') }
  }

  /** How far a stretch reaches: up to its first terminator that no backslash escapes. */
  function Reach(s: string, t: Terminator): (n: nat)
    ensures n <= |s|
    decreases |s|
  {
    if s == [] then 0
    else if Escaped(s) then 2 + Reach(s[2..], t)
    else if t.At(s) then t.Width()
    else 1 + Reach(s[1..], t)
  }

  predicate Ends(t: Terminator, s: string, i: nat) {
    if t.Byte? then i < |s| && s[i] == t.c else i + 1 < |s| && s[i] == '*' && s[i + 1] == '/'
  }

  /** Where there is no backslash, a stretch ends with the first occurrence of its terminator, or not at all. */
  lemma {:induction false} ReachIsFirst(s: string, t: Terminator)
    requires '\\' !in s
    ensures var n := Reach(s, t);
            || (t.Width() <= n && Ends(t, s, n - t.Width()) && forall i: nat | i < n - t.Width() :: !Ends(t, s, i))
            || (n == |s| && forall i: nat | i < |s| :: !Ends(t, s, i))
    decreases |s|
  {
    if s != [] && !t.At(s) {
      ReachIsFirst(s[1..], t);
      assert forall i: nat | 1 <= i < |s| :: Ends(t, s, i) <==> Ends(t, s[1..], i - 1);
    }
  }

  /** The kind of a span, the width of its opening and, if it is a stretch, what ends it. */
  datatype Opening = Single(kind: Kind, width: nat) | Stretch(kind: Kind, width: nat, end: Terminator)

  function Open(s: string): (o: Opening)
    requires s != []
    ensures 1 <= o.width <= 2 && o.width <= |s|
  {
    if Escaped(s) then Single(Special, 2)
    else if IsQuote(s[0]) then Stretch(Quoted, 1, Byte(s[0]))
    else if Pair(s, '/', '*') then Stretch(Comment, 2, StarSlash)
    else if Pair(s, '/', '/') then Stretch(Comment, 2, Byte('\n'))
    else if IsBlank(s[0]) then Single(Space, 1)
    else Single(Code, 1)
  }

  function Length(o: Opening, s: string): (n: nat)
    requires o.width <= |s|
    ensures o.width <= n <= |s|
  {
    if o.Single? then o.width else o.width + Reach(s[o.width..], o.end)
  }

  function Spans(s: string): seq<Span> {
    if s == [] then []
    else
      var o := Open(s);
      [Span(o.kind, s[..Length(o, s)])] + Spans(s[Length(o, s)..])
  }

  function Text(spans: seq<Span>): string {
    if spans == [] then [] else spans[0].text + Text(spans[1..])
  }

  /** Cutting a text into spans loses nothing. */
  lemma {:induction false} SpansAreLossless(s: string)
    ensures Text(Spans(s)) == s
    decreases |s|
  {
    if s != [] {
      var n := Length(Open(s), s);
      SpansAreLossless(s[n..]);
      assert Spans(s)[1..] == Spans(s[n..]);
      assert s == s[..n] + s[n..];
    }
  }

  // ---- Washing ---------------------------------------------------------------

  function Emit(keep: Keep, drop: bool, bytes: string): string {
    if !drop then bytes else if keep.alignment then Spaces(|bytes|) else []
  }

  function Drops(keep: Keep, kind: Kind): bool {
    match kind
    case Special => !keep.special
    case Quoted => !keep.quoted
    case Comment => !keep.comment
    case Space => !keep.space
    case Code => false
  }

  /** A span piece by piece: an escaped byte in it is dropped with the span or because it is special. */
  function WashText(keep: Keep, drop: bool, s: string): string
    decreases |s|
  {
    if s == [] then []
    else if Escaped(s) then Emit(keep, drop || !keep.special, s[..2]) + WashText(keep, drop, s[2..])
    else Emit(keep, drop, s[..1]) + WashText(keep, drop, s[1..])
  }

  function Wash(keep: Keep, spans: seq<Span>): string {
    if spans == [] then []
    else WashText(keep, Drops(keep, spans[0].kind), spans[0].text) + Wash(keep, spans[1..])
  }

  function StripComments(s: string): string { Wash(COMMENTS_OUT, Spans(s)) }

  function StripAll(s: string): string { Wash(ALL_OUT, Spans(s)) }

  // ---- The scanner refines the reference -------------------------------------

  /** The stretch that the scanner is in the middle of, if any. */
  datatype Mode = Top | In(kind: Kind, end: Terminator)

  predicate DropsIn(keep: Keep, m: Mode) { m.In? && Drops(keep, m.kind) }

  function After(o: Opening): Mode {
    if o.Single? then Top else In(o.kind, o.end)
  }

  /** What the scanner writes from here on. */
  function Rest(keep: Keep, m: Mode, s: string): string
    decreases |s|
  {
    if s == [] then []
    else if Escaped(s) then Emit(keep, DropsIn(keep, m) || !keep.special, s[..2]) + Rest(keep, m, s[2..])
    else if m.In? then
      if m.end.At(s) then Emit(keep, DropsIn(keep, m), s[..m.end.Width()]) + Rest(keep, Top, s[m.end.Width()..])
      else Emit(keep, DropsIn(keep, m), s[..1]) + Rest(keep, m, s[1..])
    else Emit(keep, Drops(keep, Open(s).kind), s[..Open(s).width]) + Rest(keep, After(Open(s)), s[Open(s).width..])
  }

  method Cleanse(str: string, keep: Keep) returns (washed: string)
    ensures washed == Wash(keep, Spans(str))
  {
    var mode, pos := Top, 0;
    washed := [];
    assert str[0..] == str;
    while pos < |str|
      invariant pos <= |str|
      invariant washed + Rest(keep, mode, str[pos..]) == Rest(keep, Top, str)
    {
      var out, width, mode' := Step(str[pos..], keep, mode);
      Assoc(washed, out, Rest(keep, mode', str[pos..][width..]));
      assert str[pos..][width..] == str[pos + width..];
      washed, pos, mode := washed + out, pos + width, mode';
    }
    RestIsWash(keep, str);
  }

  /** One round of the loop: how many bytes it consumes, what it writes for them, and the mode afterwards. */
  method Step(rest: string, keep: Keep, mode: Mode) returns (out: string, width: nat, mode': Mode)
    requires rest != []
    ensures 1 <= width <= |rest|
    ensures Rest(keep, mode, rest) == out + Rest(keep, mode', rest[width..])
  {
    var drop := DropsIn(keep, mode);
    width, mode' := 1, mode;
    if rest[0] == '\\' && |rest| > 1 {
      drop, width := drop || !keep.special, 2;
    } else if mode.In? {
      if mode.end.At(rest) {
        width, mode' := mode.end.Width(), Top;
      }
    } else if IsQuote(rest[0]) {
      drop, mode' := !keep.quoted, In(Quoted, Byte(rest[0]));
    } else if Pair(rest, '/', '*') {
      drop, width, mode' := !keep.comment, 2, In(Comment, StarSlash);
    } else if Pair(rest, '/', '/') {
      drop, width, mode' := !keep.comment, 2, In(Comment, Byte('\n'));
    } else if IsBlank(rest[0]) {
      drop := !keep.space;
    }
    out := Emit(keep, drop, rest[..width]);
  }

  lemma Combine(first: string, washed: string, tail: string, rest: string, whole: string, all: string)
    requires rest == washed + tail && whole == first + washed && all == first + rest
    ensures all == whole + tail
  {}

  lemma Slices(s: string, width: nat, n: nat)
    requires width <= n <= |s|
    ensures s[width..][n - width..] == s[n..]
  {}

  lemma WashEscaped(keep: Keep, drop: bool, s: string, n: nat)
    requires Escaped(s) && 2 <= n <= |s|
    ensures WashText(keep, drop, s[..n]) == Emit(keep, drop || !keep.special, s[..2]) + WashText(keep, drop, s[2..][..n - 2])
  {
    assert s[..n][2..] == s[2..][..n - 2] && s[..n][..2] == s[..2];
  }

  lemma WashByte(keep: Keep, drop: bool, s: string, n: nat)
    requires s != [] && !Escaped(s) && 1 <= n <= |s|
    ensures WashText(keep, drop, s[..n]) == Emit(keep, drop, s[..1]) + WashText(keep, drop, s[1..][..n - 1])
  {
    assert s[..n][1..] == s[1..][..n - 1] && s[..n][..1] == s[..1];
  }

  lemma WashTwoBytes(keep: Keep, drop: bool, s: string, n: nat)
    requires |s| >= 2 && !Escaped(s) && !Escaped(s[1..]) && 2 <= n <= |s|
    ensures WashText(keep, drop, s[..n]) == Emit(keep, drop, s[..2]) + WashText(keep, drop, s[2..][..n - 2])
  {
    WashByte(keep, drop, s, n);
    WashByte(keep, drop, s[1..], n - 1);
    assert s[1..][..1] == s[1..2] && s[1..][1..] == s[2..] && s[..2] == s[..1] + s[1..2];
  }

  lemma WashAll(keep: Keep, drop: bool, s: string, n: nat)
    requires n in {1, 2} && n <= |s| && !Escaped(s) && (n == 2 ==> !Escaped(s[1..]))
    ensures WashText(keep, drop, s[..n]) == Emit(keep, drop, s[..n])
  {
    if n == 1 { WashByte(keep, drop, s, 1); } else { WashTwoBytes(keep, drop, s, 2); }
    assert s[n..][..0] == [];
  }

  /** In the middle of a stretch, the scanner washes the rest of it and then goes on at the top. */
  ghost predicate Finishes(keep: Keep, m: Mode, s: string)
    requires m.In?
  {
    var n := Reach(s, m.end);
    Rest(keep, m, s) == WashText(keep, Drops(keep, m.kind), s[..n]) + Rest(keep, Top, s[n..])
  }

  lemma FinishEscaped(keep: Keep, m: Mode, s: string)
    requires m.In? && Escaped(s) && Finishes(keep, m, s[2..])
    ensures Finishes(keep, m, s)
  {
    var n, drop := Reach(s, m.end), Drops(keep, m.kind);
    WashEscaped(keep, drop, s, n);
    Slices(s, 2, n);
    Combine(Emit(keep, drop || !keep.special, s[..2]), WashText(keep, drop, s[2..][..n - 2]), Rest(keep, Top, s[n..]),
            Rest(keep, m, s[2..]), WashText(keep, drop, s[..n]), Rest(keep, m, s));
  }

  lemma FinishByte(keep: Keep, m: Mode, s: string)
    requires m.In? && s != [] && !Escaped(s) && !m.end.At(s) && Finishes(keep, m, s[1..])
    ensures Finishes(keep, m, s)
  {
    var n, drop := Reach(s, m.end), Drops(keep, m.kind);
    WashByte(keep, drop, s, n);
    Slices(s, 1, n);
    Combine(Emit(keep, drop, s[..1]), WashText(keep, drop, s[1..][..n - 1]), Rest(keep, Top, s[n..]),
            Rest(keep, m, s[1..]), WashText(keep, drop, s[..n]), Rest(keep, m, s));
  }

  lemma {:induction false} RestInside(keep: Keep, m: Mode, s: string)
    requires m.In?
    ensures Finishes(keep, m, s)
    decreases |s|
  {
    if Escaped(s) {
      RestInside(keep, m, s[2..]);
      FinishEscaped(keep, m, s);
    } else if s != [] {
      if m.end.At(s) {
        WashAll(keep, Drops(keep, m.kind), s, m.end.Width());
      } else {
        RestInside(keep, m, s[1..]);
        FinishByte(keep, m, s);
      }
    }
  }

  lemma WashPair(keep: Keep, drop: bool, s: string)
    requires Escaped(s)
    ensures WashText(keep, drop, s[..2]) == Emit(keep, drop || !keep.special, s[..2])
  {
    WashEscaped(keep, drop, s, 2);
    assert s[2..][..0] == [];
  }

  lemma RestSingle(keep: Keep, s: string)
    requires s != [] && Open(s).Single?
    ensures var n := Open(s).width;
            Rest(keep, Top, s) == WashText(keep, Drops(keep, Open(s).kind), s[..n]) + Rest(keep, Top, s[n..])
  {
    var drop := Drops(keep, Open(s).kind);
    if Escaped(s) { WashPair(keep, drop, s); } else { WashAll(keep, drop, s, 1); }
  }

  lemma RestOpens(keep: Keep, s: string, o: Opening, n: nat)
    requires s != [] && o == Open(s) && o.Stretch? && n == Length(o, s)
    ensures !Escaped(s) && (o.width == 2 ==> !Escaped(s[1..])) && n - o.width == Reach(s[o.width..], o.end)
    ensures Rest(keep, Top, s) == Emit(keep, Drops(keep, o.kind), s[..o.width]) + Rest(keep, In(o.kind, o.end), s[o.width..])
  {}

  /** At the top, the scanner washes the first span and goes on. */
  lemma RestFirst(keep: Keep, s: string, o: Opening, n: nat)
    requires s != [] && o == Open(s) && n == Length(o, s)
    ensures Rest(keep, Top, s) == WashText(keep, Drops(keep, o.kind), s[..n]) + Rest(keep, Top, s[n..])
  {
    if o.Single? {
      RestSingle(keep, s);
    } else {
      var drop, tail := Drops(keep, o.kind), s[o.width..];
      RestOpens(keep, s, o, n);
      RestInside(keep, In(o.kind, o.end), tail);
      OpeningFirst(keep, drop, s, o.width, n);
      Slices(s, o.width, n);
      Combine(Emit(keep, drop, s[..o.width]), WashText(keep, drop, tail[..n - o.width]), Rest(keep, Top, s[n..]),
              Rest(keep, In(o.kind, o.end), tail), WashText(keep, drop, s[..n]), Rest(keep, Top, s));
    }
  }

  lemma OpeningFirst(keep: Keep, drop: bool, s: string, width: nat, n: nat)
    requires width in {1, 2} && width <= n <= |s| && !Escaped(s) && (width == 2 ==> !Escaped(s[1..]))
    ensures WashText(keep, drop, s[..n]) == Emit(keep, drop, s[..width]) + WashText(keep, drop, s[width..][..n - width])
  {
    if width == 1 { WashByte(keep, drop, s, n); } else { WashTwoBytes(keep, drop, s, n); }
  }

  /** The scanner washes the text span by span. */
  lemma {:induction false} RestIsWash(keep: Keep, s: string)
    ensures Rest(keep, Top, s) == Wash(keep, Spans(s))
    decreases |s|
  {
    if s != [] {
      RestFirst(keep, s, Open(s), Length(Open(s), s));
      WashFirst(keep, s);
      RestIsWash(keep, s[Length(Open(s), s)..]);
    }
  }

  lemma WashFirst(keep: Keep, s: string)
    requires s != []
    ensures var o := Open(s);
            Wash(keep, Spans(s)) == WashText(keep, Drops(keep, o.kind), s[..Length(o, s)]) + Wash(keep, Spans(s[Length(o, s)..]))
  {
    var n := Length(Open(s), s);
    assert Spans(s)[1..] == Spans(s[n..]);
  }

  // ---- What the two views show -----------------------------------------------

  /** The code of a text, with spaces in place of everything else. */
  function OnlyCode(spans: seq<Span>): string {
    if spans == [] then []
    else (if spans[0].kind == Code then spans[0].text else Spaces(|spans[0].text|)) + OnlyCode(spans[1..])
  }

  function WithoutComments(spans: seq<Span>): seq<Span> {
    if spans == [] then []
    else (if spans[0].kind == Comment then [] else [spans[0]]) + WithoutComments(spans[1..])
  }

  lemma {:induction false} WashedOut(s: string)
    ensures WashText(ALL_OUT, true, s) == Spaces(|s|) && WashText(COMMENTS_OUT, true, s) == []
    ensures WashText(COMMENTS_OUT, false, s) == s
    decreases |s|
  {
    if s != [] {
      var n := if Escaped(s) then 2 else 1;
      WashedOut(s[n..]);
      assert s == s[..n] + s[n..];
    }
  }

  /** stripComments deletes the comments of the text and keeps everything else. */
  lemma {:induction false} StripCommentsDeletes(spans: seq<Span>)
    ensures Wash(COMMENTS_OUT, spans) == Text(WithoutComments(spans))
  {
    if spans != [] {
      StripCommentsDeletes(spans[1..]);
      WashedOut(spans[0].text);
      var rest := WithoutComments(spans[1..]);
      if spans[0].kind == Comment { assert WithoutComments(spans) == rest; }
      else { assert WithoutComments(spans) == [spans[0]] + rest && ([spans[0]] + rest)[1..] == rest; }
    }
  }

  lemma FirstBlanked(s: string)
    requires s != []
    ensures var o, n := Open(s), Length(Open(s), s);
            WashText(ALL_OUT, Drops(ALL_OUT, o.kind), s[..n]) == if o.kind == Code then s[..n] else Spaces(n)
  {
    var n := Length(Open(s), s);
    WashedOut(s[..n]);
    if Open(s).kind == Code { WashByte(ALL_OUT, false, s, 1); }
  }

  lemma OnlyCodeFirst(first: Span, rest: seq<Span>)
    ensures OnlyCode([first] + rest) == (if first.kind == Code then first.text else Spaces(|first.text|)) + OnlyCode(rest)
  {
    assert ([first] + rest)[1..] == rest;
  }

  /** stripAll puts spaces in place of the same comments, and of quoted, escaped and blank bytes. */
  lemma {:induction false} StripAllBlanks(s: string)
    ensures StripAll(s) == OnlyCode(Spans(s))
    decreases |s|
  {
    if s != [] {
      var n := Length(Open(s), s);
      StripAllBlanks(s[n..]);
      WashFirst(ALL_OUT, s);
      FirstBlanked(s);
      OnlyCodeFirst(Span(Open(s).kind, s[..n]), Spans(s[n..]));
    }
  }

  /** What stripAll makes of the first span. */
  lemma StripFirst(s: string)
    requires s != []
    ensures var o, n := Open(s), Length(Open(s), s);
            StripAll(s) == (if o.kind == Code then [s[0]] else Spaces(n)) + StripAll(s[n..])
  {
    var n := Length(Open(s), s);
    StripAllBlanks(s);
    StripAllBlanks(s[n..]);
    assert Spans(s)[1..] == Spans(s[n..]);
  }

  /** The text is as long as the other, and differs from it only by spaces. */
  ghost predicate Aligned(t: string, s: string) {
    |t| == |s| && forall i | 0 <= i < |s| :: t[i] == s[i] || t[i] == ' '
  }

  lemma AlignedFirst(head: string, tail: string, s: string)
    requires |head| <= |s| && Aligned(head, s[..|head|]) && Aligned(tail, s[|head|..])
    ensures Aligned(head + tail, s)
  {}

  /** Positions are kept, and a byte that is not kept has become a space. */
  lemma {:induction false} StripAllAligned(s: string)
    ensures Aligned(StripAll(s), s)
    decreases |s|
  {
    if s != [] {
      var n := Length(Open(s), s);
      StripFirst(s);
      StripAllAligned(s[n..]);
      AlignedFirst(if Open(s).kind == Code then [s[0]] else Spaces(n), StripAll(s[n..]), s);
    }
  }

  /** Nothing but code: no quote, no comment opener, no blank byte other than a space, and no escape. */
  ghost predicate Bare(t: string) {
    forall i | 0 <= i < |t| :: BareAt(t[i..])
  }

  ghost predicate BareAt(t: string)
    requires t != []
  {
    !IsQuote(t[0]) && !IsBlank(t[0]) && !Escaped(t) && !Pair(t, '/', '*') && !Pair(t, '/', '/')
  }

  lemma BareRest(t: string, n: nat)
    requires n <= |t| && Bare(t[n..]) && forall i | 0 <= i < n :: BareAt(t[i..])
    ensures Bare(t)
  {
    forall i | n <= i < |t| ensures BareAt(t[i..]) { assert t[n..][i - n..] == t[i..]; }
  }

  lemma {:induction false} StripAllIsBare(s: string)
    ensures Bare(StripAll(s))
    decreases |s|
  {
    if s != [] {
      var n, t := Length(Open(s), s), StripAll(s);
      StripFirst(s);
      StripAllIsBare(s[n..]);
      StripAllAligned(s[n..]);
      assert t[n..] == StripAll(s[n..]);
      BareRest(t, n);
    }
  }

  lemma {:induction false} BareIsUnchanged(t: string)
    requires Bare(t)
    ensures StripAll(t) == t
    decreases |t|
  {
    if t != [] {
      assert BareAt(t[0..]) && t[0..] == t;
      forall i | 0 <= i < |t[1..]| ensures BareAt(t[1..][i..]) { assert t[1..][i..] == t[i + 1..]; }
      BareIsUnchanged(t[1..]);
      StripFirst(t);
    }
  }

  /** The texts that stripAll leaves alone are exactly the bare ones, and all its results are bare. */
  lemma StripAllTwice(s: string)
    ensures StripAll(s) == s <==> Bare(s)
    ensures StripAll(StripAll(s)) == StripAll(s)
  {
    StripAllIsBare(s);
    BareIsUnchanged(StripAll(s));
    if Bare(s) { BareIsUnchanged(s); }
  }
}
