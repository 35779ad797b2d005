/** desktop/src/main/frames.ts and transport/noise/frames.go: length-prefixed frames, whole and in pieces. */
module Frames {
  import opened Endian
  import opened Octets
  import opened Transport

  /** A four-byte big-endian length, then the payload. */
  function Frame(payload: seq<byte>): seq<byte> { BigEndian(|payload|, 4) + payload }

  function Stream(frames: seq<seq<byte>>): seq<byte> {
    if frames == [] then [] else Frame(frames[0]) + Stream(frames[1..])
  }

  predicate WithinCap(frames: seq<seq<byte>>) { forall f | f in frames :: |f| <= MAX_FRAME_SIZE }

  /** encodeFrame; None when it throws. */
  method EncodeFrame(payload: seq<byte>) returns (r: Option<seq<byte>>)
    ensures r == if |payload| > MAX_FRAME_SIZE then None else Some(Frame(payload))
  {
    if |payload| > MAX_FRAME_SIZE { return None; }
    var buf := new byte[4 + |payload|];
    var header := BigEndian(|payload|, 4);
    for i := 0 to 4
      invariant buf[..i] == header[..i]
    {
      buf[i] := header[i];
    }
    for i := 0 to |payload|
      invariant buf[..4] == header && buf[4..4 + i] == payload[..i]
    {
      buf[4 + i] := payload[i];
    }
    assert payload[..|payload|] == payload && header[..4] == header;
    assert buf[..] == buf[..4] + buf[4..4 + |payload|];
    return Some(buf[..]);
  }

  // ---- The incremental decoder ---------------------------------------------------------------------------------

  /** What a buffer holds: the complete frames in front, what is left, and whether an oversized header stops it. */
  datatype Drained = Drained(frames: seq<seq<byte>>, rest: seq<byte>, oversized: bool)

  function Length(b: seq<byte>): nat
    requires |b| >= 4
  {
    FromBigEndian(b[..4])
  }

  predicate Complete(b: seq<byte>) { |b| >= 4 && Length(b) <= MAX_FRAME_SIZE && 4 + Length(b) <= |b| }

  function Drain(b: seq<byte>): Drained {
    if !Complete(b) then Drained([], b, |b| >= 4 && Length(b) > MAX_FRAME_SIZE)
    else
      var n := Length(b);
      var d := Drain(b[4 + n..]);
      d.(frames := [b[4..4 + n]] + d.frames)
  }

  lemma DrainStep(b: seq<byte>, frames: seq<seq<byte>>)
    requires Complete(b)
    ensures var n := Length(b);
            Drain(b).(frames := frames + Drain(b).frames)
            == Drain(b[4 + n..]).(frames := (frames + [b[4..4 + n]]) + Drain(b[4 + n..]).frames)
  {
    var n := Length(b);
    assert (frames + [b[4..4 + n]]) + Drain(b[4 + n..]).frames == frames + ([b[4..4 + n]] + Drain(b[4 + n..]).frames);
  }

  lemma DrainStops(b: seq<byte>, frames: seq<seq<byte>>)
    requires !Complete(b)
    ensures Drain(b).(frames := frames + Drain(b).frames) == Drained(frames, b, |b| >= 4 && Length(b) > MAX_FRAME_SIZE)
  {
    assert frames + [] == frames;
  }

  class FrameDecoder {
    var buffer: seq<byte>

    constructor ()
      ensures buffer == []
    {
      buffer := [];
    }

    /** None when push throws: the frames of that push are lost, the buffer stays at the oversized header. */
    method Push(chunk: seq<byte>) returns (r: Option<seq<seq<byte>>>)
      modifies this
      ensures var d := Drain(old(buffer) + chunk);
              buffer == d.rest && r == if d.oversized then None else Some(d.frames)
    {
      hide Drain;
      buffer := if |buffer| == 0 then chunk else buffer + chunk;
      var frames := [];
      ghost var start := Drain(buffer);
      assert buffer == old(buffer) + chunk && [] + start.frames == start.frames;
      while true
        invariant start == Drain(buffer).(frames := frames + Drain(buffer).frames)
        decreases |buffer|
      {
        if !Complete(buffer) { DrainStops(buffer, frames); }
        if |buffer| < 4 { break; }
        var n := FromBigEndian(buffer[..4]);
        if n > MAX_FRAME_SIZE { return None; }
        if |buffer| < 4 + n { break; }
        DrainStep(buffer, frames);
        frames := frames + [buffer[4..4 + n]];
        buffer := buffer[4 + n..];
      }
      return Some(frames);
    }
  }

  /** After a push that does not throw, less than one frame of the largest size is kept, and no complete frame. */
  lemma {:induction false} KeptBufferIsShort(b: seq<byte>)
    ensures !Complete(Drain(b).rest)
    ensures !Drain(b).oversized ==> |Drain(b).rest| < 4 + MAX_FRAME_SIZE
    ensures Drain(Drain(b).rest) == Drained([], Drain(b).rest, Drain(b).oversized)
    decreases |b|
  {
    if Complete(b) { KeptBufferIsShort(b[4 + Length(b)..]); }
  }

  lemma CompletePrefix(a: seq<byte>, b: seq<byte>)
    requires Complete(a)
    ensures Complete(a + b) && Length(a + b) == Length(a)
    ensures (a + b)[4..4 + Length(a)] == a[4..4 + Length(a)]
    ensures (a + b)[4 + Length(a)..] == a[4 + Length(a)..] + b
  {
    assert (a + b)[..4] == a[..4];
  }

  /** Draining in two goes is draining at once, as long as the first go meets no oversized header. */
  lemma {:induction false} DrainInPieces(a: seq<byte>, b: seq<byte>)
    requires !Drain(a).oversized
    ensures Drain(a + b) == Drain(Drain(a).rest + b).(frames := Drain(a).frames + Drain(Drain(a).rest + b).frames)
    decreases |a|
  {
    hide Complete, Length;
    if Complete(a) {
      CompleteBounds(a);
      CompletePrefix(a, b);
      DrainInPieces(a[4 + Length(a)..], b);
    }
  }

  lemma CompleteBounds(b: seq<byte>)
    requires Complete(b)
    ensures |b| >= 4 && 4 + Length(b) <= |b|
  {
  }

  /** An oversized header stays where it is, whatever follows. */
  lemma {:induction false} OversizedStays(a: seq<byte>, b: seq<byte>)
    requires Drain(a).oversized
    ensures Drain(a + b).oversized
    decreases |a|
  {
    if Complete(a) {
      CompletePrefix(a, b);
      OversizedStays(a[4 + Length(a)..], b);
    } else {
      assert (a + b)[..4] == a[..4];
    }
  }

  function Concat(chunks: seq<seq<byte>>): seq<byte> {
    if chunks == [] then [] else chunks[0] + Concat(chunks[1..])
  }

  /** Successive pushes on a buffer; None once one throws. */
  function Pushes(buffer: seq<byte>, chunks: seq<seq<byte>>): Option<(seq<byte>, seq<seq<byte>>)>
    decreases |chunks|
  {
    if chunks == [] then Some((buffer, []))
    else
      var d := Drain(buffer + chunks[0]);
      if d.oversized then None
      else
        match Pushes(d.rest, chunks[1..])
        case None => None
        case Some((rest, frames)) => Some((rest, d.frames + frames))
  }

  /**
   Chunking does not matter: any cutting of a byte stream gives the frames of the whole stream, or throws for all.
   */
  lemma {:induction false} ChunkingDoesNotMatter(buffer: seq<byte>, chunks: seq<seq<byte>>)
    requires !Complete(buffer) && !Drain(buffer).oversized
    ensures var d := Drain(buffer + Concat(chunks));
            Pushes(buffer, chunks) == if d.oversized then None else Some((d.rest, d.frames))
    decreases |chunks|
  {
    if chunks == [] {
      assert buffer + [] == buffer;
    } else {
      var a, b := buffer + chunks[0], Concat(chunks[1..]);
      assert buffer + Concat(chunks) == a + b;
      if Drain(a).oversized {
        OversizedStays(a, b);
      } else {
        DrainInPieces(a, b);
        KeptBufferIsShort(a);
        ChunkingDoesNotMatter(Drain(a).rest, chunks[1..]);
      }
    }
  }

  lemma FrameComplete(f: seq<byte>, rest: seq<byte>)
    requires |f| <= MAX_FRAME_SIZE
    ensures var b := Frame(f) + rest;
            Complete(b) && Length(b) == |f| && b[4..4 + |f|] == f && b[4 + |f|..] == rest
  {
    Widths();
    BigEndianRoundTrip(|f|, 4);
    var b := Frame(f) + rest;
    assert b[..4] == BigEndian(|f|, 4);
  }

  lemma {:induction false} DrainStream(frames: seq<seq<byte>>, rest: seq<byte>)
    requires WithinCap(frames)
    ensures Drain(Stream(frames) + rest) == Drain(rest).(frames := frames + Drain(rest).frames)
    decreases |frames|
  {
    hide Frame, Complete, Length;
    if frames == [] {
      assert [] + rest == rest;
    } else {
      assert frames[0] in frames;
      assert Stream(frames) + rest == Frame(frames[0]) + (Stream(frames[1..]) + rest);
      FrameComplete(frames[0], Stream(frames[1..]) + rest);
      DrainStream(frames[1..], rest);
      assert frames + Drain(rest).frames == [frames[0]] + (frames[1..] + Drain(rest).frames);
    }
  }

  /** Frames within the cap, encoded and cut anywhere, come back as they were, and nothing is left over. */
  lemma FramesSurviveChunking(frames: seq<seq<byte>>, chunks: seq<seq<byte>>)
    requires WithinCap(frames) && Concat(chunks) == Stream(frames)
    ensures Pushes([], chunks) == Some(([], frames))
  {
    ChunkingDoesNotMatter([], chunks);
    DrainStream(frames, []);
    assert [] + Concat(chunks) == Stream(frames) + [];
    assert frames + [] == frames;
  }

  // ---- The Go side ------------------------------------------------------------------------------------------------

  datatype FrameError = EndOfStream | BadFrame | TooLarge
  datatype ReadResult = Read(frame: seq<byte>, rest: seq<byte>) | Failed(error: FrameError)

  method WriteFrame(w: seq<byte>, payload: seq<byte>) returns (out: seq<byte>, r: Option<FrameError>)
    ensures r == if |payload| == 0 then Some(BadFrame)
                 else if |payload| > MAX_FRAME_SIZE then Some(TooLarge) else None
    ensures out == if r.None? then w + Frame(payload) else w
  {
    if |payload| == 0 { return w, Some(BadFrame); }
    if |payload| > MAX_FRAME_SIZE { return w, Some(TooLarge); }
    out := w + BigEndian(|payload|, 4);
    out := out + payload;
    assert out == w + Frame(payload);
    return out, None;
  }

  function ReadFrame(b: seq<byte>): ReadResult {
    if |b| < 4 then Failed(EndOfStream)
    else
      var n := FromBigEndian(b[..4]);
      if n == 0 then Failed(BadFrame)
      else if n > MAX_FRAME_SIZE then Failed(TooLarge)
      else if |b| - 4 < n then Failed(BadFrame)
      else Read(b[4..4 + n], b[4 + n..])
  }

  /** The reader takes a frame exactly when the decoder has a non-empty one in front, and then the same one. */
  lemma ReaderAndDecoderAgree(b: seq<byte>)
    ensures ReadFrame(b).Read? <==> Drain(b).frames != [] && Drain(b).frames[0] != []
    ensures ReadFrame(b).Read? ==>
              ReadFrame(b).frame == Drain(b).frames[0]
              && Drain(b) == Drain(ReadFrame(b).rest).(frames := [ReadFrame(b).frame] + Drain(ReadFrame(b).rest).frames)
    ensures ReadFrame(b) == Failed(TooLarge) <==> Drain(b).frames == [] && Drain(b).oversized
  {
    if Complete(b) {
      assert Drain(b).frames[0] == b[4..4 + Length(b)];
    }
  }

  /** What the reader answers when there is no frame to take. */
  lemma ReadFailsWith(b: seq<byte>)
    ensures |b| < 4 ==> ReadFrame(b) == Failed(EndOfStream)
    ensures |b| >= 4 && FromBigEndian(b[..4]) == 0 ==> ReadFrame(b) == Failed(BadFrame)
    ensures |b| >= 4 && FromBigEndian(b[..4]) > 768_000 ==> ReadFrame(b) == Failed(TooLarge)
    ensures |b| >= 4 && |b| - 4 < FromBigEndian(b[..4]) <= 768_000 ==> ReadFrame(b) == Failed(BadFrame)
  {
  }

  lemma ReadsOneFrame(f: seq<byte>, rest: seq<byte>)
    requires 0 < |f| <= MAX_FRAME_SIZE
    ensures ReadFrame(Frame(f) + rest) == Read(f, rest)
  {
    hide Frame;
    FrameComplete(f, rest);
  }

  function Reads(b: seq<byte>, count: nat): Option<(seq<seq<byte>>, seq<byte>)> {
    if count == 0 then Some(([], b))
    else
      match ReadFrame(b)
      case Failed(_) => None
      case Read(f, rest) =>
        match Reads(rest, count - 1)
        case None => None
        case Some((frames, left)) => Some(([f] + frames, left))
  }

  lemma EmptyStream(rest: seq<byte>)
    ensures Stream([]) + rest == rest
  {
  }

  lemma StreamNests(frames: seq<seq<byte>>, rest: seq<byte>)
    requires frames != []
    ensures Stream(frames) + rest == Frame(frames[0]) + (Stream(frames[1..]) + rest)
  {
    hide Frame;
    assert Stream(frames) == Frame(frames[0]) + Stream(frames[1..]);
  }

  /** Non-empty frames written one after the other are read back in order. */
  lemma {:induction false} ReadsWhatWasWritten(frames: seq<seq<byte>>, rest: seq<byte>)
    requires WithinCap(frames) && forall f | f in frames :: f != []
    ensures Reads(Stream(frames) + rest, |frames|) == Some((frames, rest))
    decreases |frames|
  {
    hide Frame, ReadFrame, Stream;
    if frames == [] {
      EmptyStream(rest);
    } else {
      var f, more := frames[0], frames[1..];
      assert frames == [f] + more && f in frames;
      StreamNests(frames, rest);
      ReadsOneFrame(f, Stream(more) + rest);
      forall x | x in more ensures x != [] && |x| <= MAX_FRAME_SIZE { assert x in frames; }
      ReadsWhatWasWritten(more, rest);
    }
  }
}
