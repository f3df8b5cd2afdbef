/** Replacing pieces of a text, and the lines on which the rest of it ends up. */
module Rewriting {

  function Newlines(s: string): nat {
    if s == [] then 0 else (if s[0] == '\n' then 1 else 0) + Newlines(s[1..])
  }

  lemma {:induction false} NewlinesConcat(a: string, b: string)
    ensures Newlines(a + b) == Newlines(a) + Newlines(b)
  {
    if a == [] {
      assert a + b == b;
    } else {
      assert (a + b)[1..] == a[1..] + b;
      NewlinesConcat(a[1..], b);
    }
  }

  /** A stretch of a text, with a text that belongs to it. */
  datatype Piece = Piece(begin: nat, end: nat, text: string)

  /** Where the first k pieces end. */
  function EndOf(pieces: seq<Piece>, k: nat): nat
    requires k <= |pieces|
  {
    if k == 0 then 0 else pieces[k - 1].end
  }

  /** The pieces follow one another within a text of the given length. */
  ghost predicate Ordered(pieces: seq<Piece>, limit: nat) {
    && (forall i | 0 <= i < |pieces| :: pieces[i].begin <= pieces[i].end <= limit)
    && (forall i, j | 0 <= i < j < |pieces| :: pieces[i].end <= pieces[j].begin)
  }

  /** The text up to the end of the first k pieces, each piece replaced by its text. */
  ghost function Done(input: string, pieces: seq<Piece>, k: nat): string
    requires Ordered(pieces, |input|) && k <= |pieces|
  {
    if k == 0 then []
    else Done(input, pieces, k - 1) + input[EndOf(pieces, k - 1)..pieces[k - 1].begin] + pieces[k - 1].text
  }

  ghost function Replaced(input: string, pieces: seq<Piece>): string
    requires Ordered(pieces, |input|)
  {
    Done(input, pieces, |pieces|) + input[EndOf(pieces, |pieces|)..]
  }

  /** A replacement that has as many lines as what it replaces. */
  ghost predicate KeepsLines(input: string, piece: Piece)
    requires piece.begin <= piece.end <= |input|
  {
    Newlines(piece.text) == Newlines(input[piece.begin..piece.end])
  }

  lemma ThreeParts(a: string, b: string, c: string)
    ensures Newlines(a + b + c) == Newlines(a) + Newlines(b) + Newlines(c)
  {
    NewlinesConcat(a, b);
    NewlinesConcat(a + b, c);
  }

  lemma Split3(input: string, i: nat, j: nat, k: nat)
    requires i <= j <= k <= |input|
    ensures input[..k] == input[..i] + input[i..j] + input[j..k]
  {}

  lemma SameLines(done: string, gap: string, text: string, before: string, middle: string)
    requires Newlines(done) == Newlines(before) && Newlines(text) == Newlines(middle)
    ensures Newlines(done + gap + text) == Newlines(before + gap + middle)
  {
    ThreeParts(done, gap, text);
    ThreeParts(before, gap, middle);
  }

  /** Where the gap before piece k ends. */
  function GapEnd(input: string, pieces: seq<Piece>, k: nat): nat
    requires k <= |pieces|
  {
    if k < |pieces| then pieces[k].begin else |input|
  }

  function Gap(input: string, pieces: seq<Piece>, k: nat): string
    requires k <= |pieces| && EndOf(pieces, k) <= GapEnd(input, pieces, k) <= |input|
  {
    input[EndOf(pieces, k)..GapEnd(input, pieces, k)]
  }

  lemma Regroup(done: string, gap: string, text: string, done': string, gap': string, tail: string, out: string)
    requires done' == done + gap + text && out == done' + gap' + tail
    ensures out == done + gap + (text + gap' + tail)
  {}

  lemma LastGap(input: string, pieces: seq<Piece>)
    requires Ordered(pieces, |input|)
    ensures EndOf(pieces, |pieces|) <= |input|
    ensures Replaced(input, pieces) == Done(input, pieces, |pieces|) + Gap(input, pieces, |pieces|)
  {
    assert input[EndOf(pieces, |pieces|)..] == input[EndOf(pieces, |pieces|)..|input|];
  }

  lemma NothingAfter(done: string, gap: string)
    ensures done + gap == done + gap + []
  {}

  lemma DoneNext(input: string, pieces: seq<Piece>, k: nat)
    requires Ordered(pieces, |input|) && k < |pieces|
    ensures EndOf(pieces, k) <= GapEnd(input, pieces, k) <= |input|
    ensures Done(input, pieces, k + 1) == Done(input, pieces, k) + Gap(input, pieces, k) + pieces[k].text
  {}

  lemma PieceKeepsLines(input: string, from: nat, piece: Piece, done: string)
    requires from <= piece.begin <= piece.end <= |input| && KeepsLines(input, piece) && Newlines(done) == Newlines(input[..from])
    ensures Newlines(done + input[from..piece.begin] + piece.text) == Newlines(input[..piece.end])
  {
    SameLines(done, input[from..piece.begin], piece.text, input[..from], input[piece.begin..piece.end]);
    Split3(input, from, piece.begin, piece.end);
  }

  lemma {:induction false} DoneKeepsLines(input: string, pieces: seq<Piece>, k: nat)
    requires Ordered(pieces, |input|) && k <= |pieces|
    requires forall i | 0 <= i < |pieces| :: KeepsLines(input, pieces[i])
    ensures EndOf(pieces, k) <= |input| && Newlines(Done(input, pieces, k)) == Newlines(input[..EndOf(pieces, k)])
  {
    if k > 0 {
      DoneKeepsLines(input, pieces, k - 1);
      DoneNext(input, pieces, k - 1);
      PieceKeepsLines(input, EndOf(pieces, k - 1), pieces[k - 1], Done(input, pieces, k - 1));
    }
  }

  /** The gaps are copied: what comes before a gap is replaced, and something follows. */
  lemma {:induction false} GapIsCopied(input: string, pieces: seq<Piece>, k: nat, out: string) returns (tail: string)
    requires Ordered(pieces, |input|) && k <= |pieces| && EndOf(pieces, |pieces|) <= |input|
    requires out == Done(input, pieces, |pieces|) + Gap(input, pieces, |pieces|)
    ensures EndOf(pieces, k) <= GapEnd(input, pieces, k) <= |input|
    ensures out == Done(input, pieces, k) + Gap(input, pieces, k) + tail
    decreases |pieces| - k
  {
    if k == |pieces| {
      tail := [];
      NothingAfter(Done(input, pieces, k), Gap(input, pieces, k));
    } else {
      var tail' := GapIsCopied(input, pieces, k + 1, out);
      var text, gap' := pieces[k].text, Gap(input, pieces, k + 1);
      DoneNext(input, pieces, k);
      Regroup(Done(input, pieces, k), Gap(input, pieces, k), text, Done(input, pieces, k + 1), gap', tail', out);
      tail := text + gap' + tail';
    }
  }

  /** The position in the result of a position in the gap before piece k. */
  ghost function Moved(input: string, pieces: seq<Piece>, k: nat, p: nat): int
    requires Ordered(pieces, |input|) && k <= |pieces|
  {
    |Done(input, pieces, k)| + p - EndOf(pieces, k)
  }

  lemma CutAt(input: string, done: string, from: nat, p: nat, to: nat, tail: string, out: string, q: int)
    requires from <= p < to <= |input| && out == done + input[from..to] + tail && q == |done| + p - from
    ensures 0 <= q < |out| && out[q] == input[p] && out[..q] == done + input[from..p]
  {}

  lemma SameCount(input: string, done: string, from: nat, p: nat)
    requires from <= p <= |input| && Newlines(done) == Newlines(input[..from])
    ensures Newlines(done + input[from..p]) == Newlines(input[..p])
  {
    NewlinesConcat(done, input[from..p]);
    NewlinesConcat(input[..from], input[from..p]);
    assert input[..p] == input[..from] + input[from..p];
  }

  /** Every byte outside the pieces is still there, on the line it was on before. */
  lemma GapKeepsLines(input: string, pieces: seq<Piece>, k: nat, p: nat)
    requires Ordered(pieces, |input|) && k <= |pieces| && EndOf(pieces, k) <= p < GapEnd(input, pieces, k)
    requires forall i | 0 <= i < |pieces| :: KeepsLines(input, pieces[i])
    ensures var out, q := Replaced(input, pieces), Moved(input, pieces, k, p);
            0 <= q < |out| && out[q] == input[p] && Newlines(out[..q]) == Newlines(input[..p])
  {
    LastGap(input, pieces);
    var tail := GapIsCopied(input, pieces, k, Replaced(input, pieces));
    var done, from := Done(input, pieces, k), EndOf(pieces, k);
    DoneKeepsLines(input, pieces, k);
    SameCount(input, done, from, p);
    CutAt(input, done, from, p, GapEnd(input, pieces, k), tail, Replaced(input, pieces), Moved(input, pieces, k, p));
  }

  /** The gap that a position outside the pieces lies in. */
  lemma {:induction false} SomeGap(input: string, pieces: seq<Piece>, p: nat, j: nat) returns (k: nat)
    requires Ordered(pieces, |input|) && j <= |pieces| && p < GapEnd(input, pieces, j)
    requires forall i | 0 <= i < |pieces| :: p < pieces[i].begin || pieces[i].end <= p
    ensures k <= |pieces| && EndOf(pieces, k) <= p < GapEnd(input, pieces, k)
    decreases j
  {
    if EndOf(pieces, j) <= p { k := j; } else { k := SomeGap(input, pieces, p, j - 1); }
  }
}
