/**
 Cutting the bytes that come back from the worker into frames
 (consumer/handle_messages.go). The loops for the two sockets are the same.
 */
module Framing {
  import opened Prelude
  import opened Wire

  const HEADER_FRAGMENT_SIZE := 4

  type Bytes = seq<Byte>

  /** Where the frame at the front ends. The sum is one of 32-bit numbers. */
  function FrameEnd(b: Bytes): nat
    requires |b| >= HEADER_FRAGMENT_SIZE
  {
    (HEADER_FRAGMENT_SIZE + Uint32(b)) % TWO_TO_THE_32
  }

  /** The size at the front is so large that the sum wraps around. */
  predicate Wraps(b: Bytes) {
    |b| >= HEADER_FRAGMENT_SIZE && Uint32(b) >= TWO_TO_THE_32 - HEADER_FRAGMENT_SIZE
  }

  /** A whole frame is at the front. */
  predicate Complete(b: Bytes) {
    |b| >= HEADER_FRAGMENT_SIZE && |b| >= HEADER_FRAGMENT_SIZE + Uint32(b)
  }

  function EncodeFrame(f: Bytes): Bytes {
    PutUint32(|f|) + f
  }

  function Encode(frames: seq<Bytes>): Bytes {
    if frames == [] then [] else Encode(frames[..|frames| - 1]) + EncodeFrame(frames[|frames| - 1])
  }

  lemma EncodeSnoc(frames: seq<Bytes>, f: Bytes)
    ensures Encode(frames + [f]) == Encode(frames) + EncodeFrame(f)
  {
    assert (frames + [f])[..|frames|] == frames;
  }

  lemma ThreeSlices(b: Bytes, i: nat, j: nat)
    requires i <= j <= |b|
    ensures b[..i] + b[i..j] + b[j..] == b
  {}

  /** Encoding the frame that was cut off gives back the bytes that it was cut from. */
  lemma FrameIsLossless(b: Bytes)
    requires Complete(b) && !Wraps(b)
    ensures 4 <= FrameEnd(b) <= |b| && EncodeFrame(b[4..FrameEnd(b)]) + b[FrameEnd(b)..] == b
  {
    PutOfUint32(b);
    EndCases(b);
    ThreeSlices(b, 4, FrameEnd(b));
  }

  lemma EndCases(b: Bytes)
    requires |b| >= HEADER_FRAGMENT_SIZE
    ensures if Wraps(b) then FrameEnd(b) < HEADER_FRAGMENT_SIZE else FrameEnd(b) == HEADER_FRAGMENT_SIZE + Uint32(b)
  {}

  /** Cutting off a frame moves it from the buffer to the parsed frames. */
  lemma CutFrame(received: Bytes, parsed: seq<Bytes>, b: Bytes)
    requires received == Encode(parsed) + b && Complete(b) && !Wraps(b)
    ensures 4 <= FrameEnd(b) <= |b| && received == Encode(parsed + [b[4..FrameEnd(b)]]) + b[FrameEnd(b)..]
  {
    FrameIsLossless(b);
    EncodeSnoc(parsed, b[4..FrameEnd(b)]);
  }

  function Concat(chunks: seq<Bytes>): Bytes {
    if chunks == [] then [] else Concat(chunks[..|chunks| - 1]) + chunks[|chunks| - 1]
  }

  lemma {:induction false} ConcatConcat(a: seq<Bytes>, b: seq<Bytes>)
    ensures Concat(a + b) == Concat(a) + Concat(b)
    decreases |b|
  {
    if b == [] {
      assert a + b == a;
    } else {
      var c, f := b[..|b| - 1], b[|b| - 1];
      ConcatConcat(a, c);
      assert (a + b)[..|a + b| - 1] == a + c;
      Assoc(Concat(a), Concat(c), f);
    }
  }

  lemma StillUnread(received: Bytes, encoded: Bytes, r: Bytes, left: Bytes, unread: Bytes, all: Bytes)
    requires received == encoded + r && received + left + unread == all
    ensures encoded + (r + (left + unread)) == all
  {}

  class FrameReader {
    var readMsgBuffer: Bytes
    var parsed: seq<Bytes>
    var panicked: bool
    ghost var received: Bytes

    /** Nothing is lost, and every frame is short. */
    ghost predicate Valid()
      reads this
    {
      received == Encode(parsed) + readMsgBuffer && Short(parsed)
    }

    constructor ()
      ensures Valid() && received == [] && parsed == [] && !panicked
    {
      readMsgBuffer, parsed, panicked, received := [], [], false, [];
    }

    /** One read from the socket. A slice out of bounds ends the loop. */
    method Read(bytesRead: Bytes)
      requires Valid() && !panicked && bytesRead != []
      modifies this
      ensures Valid() && received == old(received) + bytesRead
      ensures old(parsed) <= parsed
      ensures panicked ==> Wraps(readMsgBuffer)
      ensures Parses(|bytesRead|, |old(readMsgBuffer)|) && !panicked ==> AtRest(readMsgBuffer)
      ensures !Parses(|bytesRead|, |old(readMsgBuffer)|) ==>
                parsed == old(parsed) && readMsgBuffer == old(readMsgBuffer) + bytesRead
    {
      received := received + bytesRead;
      if |bytesRead| >= HEADER_FRAGMENT_SIZE || |readMsgBuffer| >= HEADER_FRAGMENT_SIZE {
        ParseMessages(bytesRead);
      } else {
        readMsgBuffer := readMsgBuffer + bytesRead;
      }
    }

    /** Any split of a stream of short frames into reads: no slice is out of bounds, and the frames come out in order. */
    method ReadAll(chunks: seq<Bytes>, ghost frames: seq<Bytes>, ghost unread: Bytes)
      requires Valid() && received == [] && !panicked
      requires Short(frames) && Concat(chunks) + unread == Encode(frames)
      requires forall i | 0 <= i < |chunks| :: chunks[i] != []
      modifies this
      ensures Valid() && !panicked && received == Concat(chunks) && parsed <= frames
      ensures unread == [] && !Complete(readMsgBuffer) ==> parsed == frames && readMsgBuffer == []
    {
      for i := 0 to |chunks|
        invariant Valid() && !panicked && received == Concat(chunks[..i])
      {
        ghost var left := chunks[i + 1..];
        assert chunks[..i + 1][..i] == chunks[..i];
        Read(chunks[i]);
        assert chunks == chunks[..i + 1] + left;
        ConcatConcat(chunks[..i + 1], left);
        StillUnread(received, Encode(parsed), readMsgBuffer, Concat(left), unread, Encode(frames));
        ShortFramesNeverWrap(frames, Concat(left) + unread, parsed, readMsgBuffer);
      }
      assert chunks[..|chunks|] == chunks;
      StillUnread(received, Encode(parsed), readMsgBuffer, [], unread, Encode(frames));
      ShortFramesNeverWrap(frames, [] + unread, parsed, readMsgBuffer);
      if unread == [] && !Complete(readMsgBuffer) {
        assert received == Encode(frames) + [];
        ChunksDoNotMatter(parsed, readMsgBuffer, frames, []);
      }
    }

    /** From the label parseMessage on. */
    method ParseMessages(bytesRead: Bytes)
      requires |readMsgBuffer| + |bytesRead| >= HEADER_FRAGMENT_SIZE && !panicked && Short(parsed)
      requires received == Encode(parsed) + (readMsgBuffer + bytesRead)
      modifies this`readMsgBuffer, this`parsed, this`panicked
      ensures Valid() && old(parsed) <= parsed
      ensures panicked ==> Wraps(readMsgBuffer)
      ensures !panicked ==> AtRest(readMsgBuffer)
    {
      var buffer := bytesRead;
      while true
        invariant !panicked && Short(parsed) && old(parsed) <= parsed
        invariant |readMsgBuffer + buffer| >= HEADER_FRAGMENT_SIZE
        invariant received == Encode(parsed) + (readMsgBuffer + buffer)
        decreases |readMsgBuffer + buffer|
      {
        buffer := readMsgBuffer + buffer;
        EndCases(buffer);
        var end := FrameEnd(buffer);
        if |buffer| < end {
          readMsgBuffer := buffer;
          return;
        }
        if end < HEADER_FRAGMENT_SIZE {
          readMsgBuffer, panicked := buffer, true;
          return;
        }
        CutFrame(received, parsed, buffer);
        parsed := parsed + [buffer[4..end]];
        readMsgBuffer := buffer[end..];
        buffer := [];
        assert readMsgBuffer + buffer == readMsgBuffer;
        if |readMsgBuffer| <= HEADER_FRAGMENT_SIZE {
          return;
        }
      }
    }
  }

  /** Whether a read enters the parsing branch. */
  predicate Parses(bytesRead: nat, residual: nat) {
    bytesRead >= HEADER_FRAGMENT_SIZE || residual >= HEADER_FRAGMENT_SIZE
  }

  /** No complete frame is left, except that an empty one may be, and no size that makes the sum wrap around has been passed over. */
  predicate AtRest(b: Bytes) {
    |b| == HEADER_FRAGMENT_SIZE || (!Complete(b) && !Wraps(b))
  }

  /** Frames whose size does not make the sum wrap around. */
  ghost predicate Short(frames: seq<Bytes>) {
    forall i | 0 <= i < |frames| :: |frames[i]| < TWO_TO_THE_32 - HEADER_FRAGMENT_SIZE
  }

  // ---- The split into reads does not matter --------------------------------

  lemma {:induction false} EncodeConcat(a: seq<Bytes>, b: seq<Bytes>)
    ensures Encode(a + b) == Encode(a) + Encode(b)
    decreases |b|
  {
    if b == [] {
      assert a + b == a;
    } else {
      var c, f := b[..|b| - 1], b[|b| - 1];
      EncodeConcat(a, c);
      assert (a + b)[..|a + b| - 1] == a + c;
      Assoc(Encode(a), Encode(c), EncodeFrame(f));
    }
  }

  /** The front of a stream of frames. */
  lemma EncodeFront(frames: seq<Bytes>)
    requires frames != []
    ensures Encode(frames) == EncodeFrame(frames[0]) + Encode(frames[1..])
  {
    assert frames == [frames[0]] + frames[1..];
    EncodeConcat([frames[0]], frames[1..]);
    EncodeSnoc([], frames[0]);
    assert [] + [frames[0]] == [frames[0]];
  }

  /** The front of a stream names the size of the frame there. */
  lemma FrontIsComplete(f: Bytes, rest: Bytes)
    requires |f| < TWO_TO_THE_32 - HEADER_FRAGMENT_SIZE
    ensures var b := EncodeFrame(f) + rest;
            Uint32(b) == |f| && Complete(b) && !Wraps(b) && b[4..4 + |f|] == f && b[4 + |f|..] == rest
  {
    var b := EncodeFrame(f) + rest;
    Uint32OfPut(|f|, f + rest);
    assert b == PutUint32(|f|) + (f + rest);
  }

  lemma SameFront(f: Bytes, s: Bytes, g: Bytes, t: Bytes)
    requires |f| < TWO_TO_THE_32 - HEADER_FRAGMENT_SIZE && |g| < TWO_TO_THE_32 - HEADER_FRAGMENT_SIZE
    requires EncodeFrame(f) + s == EncodeFrame(g) + t
    ensures f == g && s == t
  {
    FrontIsComplete(f, s);
    FrontIsComplete(g, t);
  }

  lemma FrontFirst(p: seq<Bytes>, r: Bytes)
    requires p != []
    ensures Encode(p) + r == EncodeFrame(p[0]) + (Encode(p[1..]) + r)
  {
    EncodeFront(p);
    Assoc(EncodeFrame(p[0]), Encode(p[1..]), r);
  }

  /** Of two ways to read the same bytes, one has merely parsed further than the other. */
  lemma {:induction false} ParsedFurther(p: seq<Bytes>, r: Bytes, p': seq<Bytes>, r': Bytes)
    requires Short(p) && Short(p') && Encode(p) + r == Encode(p') + r' && |p| <= |p'|
    ensures p <= p' && r == Encode(p'[|p|..]) + r'
  {
    if p == [] {
      assert Encode(p) + r == r && p'[0..] == p';
    } else {
      FrontFirst(p, r);
      FrontFirst(p', r');
      SameFront(p[0], Encode(p[1..]) + r, p'[0], Encode(p'[1..]) + r');
      ParsedFurther(p[1..], r, p'[1..], r');
      assert p'[1..][|p| - 1..] == p'[|p|..];
    }
  }

  lemma MoreIsComplete(more: seq<Bytes>, rest: Bytes, r: Bytes)
    requires more != [] && Short(more) && r == Encode(more) + rest
    ensures Complete(r) && !Wraps(r)
  {
    EncodeFront(more);
    FrontIsComplete(more[0], Encode(more[1..]) + rest);
    assert r == EncodeFrame(more[0]) + (Encode(more[1..]) + rest);
  }

  /** A reader whose buffer holds no complete frame has parsed all there is. */
  lemma NothingLeft(p: seq<Bytes>, r: Bytes, p': seq<Bytes>, r': Bytes)
    requires Short(p) && Short(p') && Encode(p) + r == Encode(p') + r' && !Complete(r)
    ensures p' <= p
  {
    if |p'| <= |p| {
      ParsedFurther(p', r', p, r);
    } else {
      ParsedFurther(p, r, p', r');
      MoreIsComplete(p'[|p|..], r', r);
    }
  }

  /** Whatever the reads were, readers of the same bytes with no complete frame left have the same frames and the same rest. */
  lemma ChunksDoNotMatter(p: seq<Bytes>, r: Bytes, p': seq<Bytes>, r': Bytes)
    requires Short(p) && Short(p') && Encode(p) + r == Encode(p') + r' && !Complete(r) && !Complete(r')
    ensures p == p' && r == r'
  {
    NothingLeft(p, r, p', r');
    NothingLeft(p', r', p, r);
    ParsedFurther(p, r, p', r');
  }

  lemma FrontOnly(r: Bytes, unread: Bytes)
    requires |r| >= HEADER_FRAGMENT_SIZE && !Wraps(r + unread)
    ensures !Wraps(r)
  {
    assert Uint32(r) == Uint32(r + unread);
  }

  /** Reading what a worker writes never panics: as long as its frames are short, no size wraps around. */
  lemma ShortFramesNeverWrap(frames: seq<Bytes>, unread: Bytes, parsed: seq<Bytes>, r: Bytes)
    requires Short(frames) && Short(parsed) && Encode(parsed) + (r + unread) == Encode(frames)
    ensures parsed <= frames && (|r| >= HEADER_FRAGMENT_SIZE ==> !Wraps(r))
  {
    assert Encode(frames) + [] == Encode(frames);
    NothingLeft(frames, [], parsed, r + unread);
    ParsedFurther(parsed, r + unread, frames, []);
    var more := frames[|parsed|..];
    if more != [] && |r| >= HEADER_FRAGMENT_SIZE {
      MoreIsComplete(more, [], r + unread);
      FrontOnly(r, unread);
    }
  }
}
