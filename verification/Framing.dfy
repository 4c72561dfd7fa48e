/** Newline-delimited frames read from a stream that arrives in pieces of any
    size. */
module Framing {
  import opened Domain

  newtype byte = x: int | 0 <= x < 256

  const LF: byte := 10
  const CR: byte := 13

  // ------------------------------------------------------------ what a frame is

  function Flatten(chunks: seq<seq<byte>>): seq<byte> {
    if |chunks| == 0 then [] else chunks[0] + Flatten(chunks[1..])
  }

  // Up to and including the first line feed, or everything.
  function FirstFrame(s: seq<byte>): (f: seq<byte>)
    ensures f <= s && (|s| > 0 ==> |f| > 0)
  {
    if |s| == 0 then [] else if s[0] == LF then [LF] else [s[0]] + FirstFrame(s[1..])
  }

  ghost predicate Ends(f: seq<byte>, s: seq<byte>) {
    (f == s && LF !in s) || (|f| > 0 && f[|f| - 1] == LF && LF !in f[..|f| - 1])
  }

  lemma EndsMore(b: byte, g: seq<byte>, s: seq<byte>)
    requires b != LF && Ends(g, s)
    ensures Ends([b] + g, [b] + s)
  {
    var f := [b] + g;
    if |g| > 0 {
      assert f[..|f| - 1] == [b] + g[..|g| - 1];
    }
  }

  // A frame ends at its only line feed, or with the stream.
  lemma {:induction false} FirstFrameEnds(s: seq<byte>)
    ensures Ends(FirstFrame(s), s)
  {
    if |s| > 0 && s[0] != LF {
      FirstFrameEnds(s[1..]);
      EndsMore(s[0], FirstFrame(s[1..]), s[1..]);
      assert s == [s[0]] + s[1..];
    }
  }

  function Frames(s: seq<byte>): seq<seq<byte>>
    decreases |s|
  {
    if |s| == 0 then [] else
      var f := FirstFrame(s);
      [f] + Frames(s[|f|..])
  }

  lemma {:induction false} FirstFrameLine(line: seq<byte>, rest: seq<byte>)
    requires LF !in line
    ensures FirstFrame(line + [LF] + rest) == line + [LF]
  {
    var s := line + [LF] + rest;
    if |line| > 0 {
      assert s[1..] == line[1..] + [LF] + rest;
      FirstFrameLine(line[1..], rest);
    }
  }

  // A piece without a line feed only lengthens the frame.
  lemma {:induction false} FirstFrameGrows(piece: seq<byte>, rest: seq<byte>)
    requires LF !in piece
    ensures FirstFrame(piece + rest) == piece + FirstFrame(rest)
  {
    var s := piece + rest;
    if |piece| > 0 {
      assert s[1..] == piece[1..] + rest;
      FirstFrameGrows(piece[1..], rest);
    } else {
      assert s == rest;
    }
  }

  function Lines(payloads: seq<seq<byte>>): seq<byte> {
    if |payloads| == 0 then [] else payloads[0] + [LF] + Lines(payloads[1..])
  }

  // `trim_line_ending`
  function TrimLineEnding(frame: seq<byte>): seq<byte> {
    var f := if |frame| > 0 && frame[|frame| - 1] == LF then frame[..|frame| - 1] else frame;
    if |f| > 0 && f[|f| - 1] == CR then f[..|f| - 1] else f
  }

  /** What is written line by line is read frame by frame. */
  lemma {:induction false} FramesOfLines(payloads: seq<seq<byte>>)
    requires forall k :: 0 <= k < |payloads| ==> LF !in payloads[k]
    ensures |Frames(Lines(payloads))| == |payloads|
    ensures forall k :: 0 <= k < |payloads| ==> Frames(Lines(payloads))[k] == payloads[k] + [LF]
  {
    if |payloads| > 0 {
      var rest := Lines(payloads[1..]);
      var s := Lines(payloads);
      assert s == payloads[0] + [LF] + rest;
      FirstFrameLine(payloads[0], rest);
      assert s[|payloads[0]| + 1..] == rest;
      FramesOfLines(payloads[1..]);
    }
  }

  /** Trimming gives the payload back exactly when it does not end in a carriage return. */
  lemma TrimIsInverseIff(payload: seq<byte>)
    ensures TrimLineEnding(payload + [LF]) == payload <==> !(|payload| > 0 && payload[|payload| - 1] == CR)
  {
    assert (payload + [LF])[..|payload|] == payload;
  }

  /** One line ending is taken off, LF or CR LF or a lone CR, and nothing else. */
  lemma TrimTakesOneEnding(payload: seq<byte>)
    ensures TrimLineEnding(payload + [CR, LF]) == payload && TrimLineEnding(payload + [CR]) == payload
    ensures |payload| == 0 || payload[|payload| - 1] !in {CR, LF} ==>
              TrimLineEnding(payload) == payload && TrimLineEnding(payload + [LF]) == payload
  {
    assert (payload + [CR, LF])[..|payload| + 1] == payload + [CR];
    assert (payload + [CR])[..|payload|] == payload;
    assert (payload + [LF])[..|payload|] == payload;
  }

  lemma {:induction false} FramesRejoin(s: seq<byte>)
    ensures Flatten(Frames(s)) == s
    decreases |s|
  {
    if |s| > 0 {
      var f := FirstFrame(s);
      FramesRejoin(s[|f|..]);
      FlattenMore(f, Frames(s[|f|..]));
      Whole(f, s);
    }
  }

  lemma Whole(f: seq<byte>, s: seq<byte>)
    requires f <= s
    ensures f + s[|f|..] == s
  {}

  lemma FlattenMore(first: seq<byte>, rest: seq<seq<byte>>)
    ensures Flatten([first] + rest) == first + Flatten(rest)
  {
    assert ([first] + rest)[1..] == rest;
  }

  // ---------------------------------------------------------------- the reader

  // Index of the first line feed.
  method Position(available: seq<byte>) returns (r: Option<nat>)
    ensures r.None? <==> LF !in available
    ensures r.Some? ==> r.value < |available| && available[r.value] == LF && LF !in available[..r.value]
  {
    for k := 0 to |available|
      invariant LF !in available[..k]
    {
      if available[k] == LF {
        return Some(k);
      }
      assert available[..k + 1] == available[..k] + [available[k]];
    }
    assert available[..|available|] == available;
    return None;
  }

  /** A buffered reader. Every buffer it hands out is non-empty until the stream ends. */
  class Reader {
    var chunks: seq<seq<byte>>

    ghost predicate Valid()
      reads this
    {
      forall k :: 0 <= k < |chunks| ==> |chunks[k]| > 0
    }

    constructor (chunks: seq<seq<byte>>)
      requires forall k :: 0 <= k < |chunks| ==> |chunks[k]| > 0
      ensures Valid() && this.chunks == chunks
    {
      this.chunks := chunks;
    }

    function FillBuf(): seq<byte>
      reads this
    {
      if |chunks| == 0 then [] else chunks[0]
    }

    method Consume(n: nat)
      requires Valid() && n <= |FillBuf()|
      modifies this
      ensures Valid() && Flatten(chunks) == Flatten(old(chunks))[n..] && |Flatten(old(chunks))| >= n
      ensures n > 0 && n == |old(FillBuf())| ==> chunks == old(chunks)[1..]
      ensures n > 0 ==> |chunks| <= |old(chunks)|
    {
      if n > 0 {
        ghost var first, rest := chunks[0], Flatten(chunks[1..]);
        assert Flatten(chunks) == first + rest;
        if n == |chunks[0]| {
          chunks := chunks[1..];
        } else {
          assert first[n..] + rest == (first + rest)[n..];
          chunks := [chunks[0][n..]] + chunks[1..];
          assert chunks[1..] == old(chunks)[1..];
        }
      }
    }

    // The part of the next buffer that belongs to the frame, unless it exceeds the room left.
    method Take(room: nat) returns (piece: seq<byte>, fits: bool, terminated: bool)
      requires Valid() && |chunks| > 0
      modifies this
      ensures Valid() && piece <= FirstFrame(old(Flatten(chunks))) && (fits <==> |piece| <= room)
      ensures fits ==> old(Flatten(chunks)) == piece + Flatten(chunks)
      ensures fits && terminated ==> FirstFrame(old(Flatten(chunks))) == piece
      ensures fits && !terminated ==>
          FirstFrame(old(Flatten(chunks))) == piece + FirstFrame(Flatten(chunks)) && |chunks| < |old(chunks)|
    {
      var available := FillBuf();
      var newline := Position(available);
      var consumed := if newline.Some? then newline.value + 1 else |available|;
      FrameInBuffer(available, Flatten(chunks[1..]), newline);
      piece, terminated := available[..consumed], newline.Some?;
      fits := consumed <= room;
      if fits {
        ghost var left := Flatten(chunks);
        assert left[..consumed] == piece;
        Consume(consumed);
      }
    }

    /** `read_frame`: however the stream is cut, the same frame; and a failure exactly when
        the frame is longer than allowed. */
    method ReadFrame(maximum: nat) returns (r: Result<seq<byte>, nat>)
      requires Valid()
      modifies this
      ensures Valid()
      ensures r.Ok? <==> |FirstFrame(old(Flatten(chunks)))| <= maximum
      ensures r.Ok? ==>
          r.value == FirstFrame(old(Flatten(chunks))) && Flatten(chunks) == old(Flatten(chunks))[|r.value|..]
      ensures r.Err? ==> maximum < r.error <= |FirstFrame(old(Flatten(chunks)))|
    {
      var frame: seq<byte> := [];
      ghost var all, first := Flatten(chunks), FirstFrame(Flatten(chunks));
      while |chunks| > 0
        invariant Valid() && |frame| <= maximum
        invariant frame + Flatten(chunks) == all && frame + FirstFrame(Flatten(chunks)) == first
        decreases |chunks|
      {
        ghost var left := Flatten(chunks);
        var piece, fits, terminated := Take(maximum - |frame|);
        if !fits {
          return Err(|frame| + |piece|);
        }
        Regroup(frame, piece, Flatten(chunks));
        Regroup(frame, piece, FirstFrame(Flatten(chunks)));
        frame := frame + piece;
        if terminated {
          return Ok(frame);
        }
      }
      return Ok(frame);
    }

    // The frame after those in `frames`.
    method ReadNext(maximum: nat, ghost frames: seq<seq<byte>>, ghost all: seq<seq<byte>>)
        returns (r: Result<seq<byte>, nat>)
      requires Valid() && frames + Frames(Flatten(chunks)) == all
      modifies this
      ensures Valid() && frames <= all
      ensures r.Err? ==> |frames| < |all| && |all[|frames|]| > maximum
      ensures r.Ok? && |r.value| == 0 ==> frames == all
      ensures r.Ok? && |r.value| > 0 ==> frames + [r.value] + Frames(Flatten(chunks)) == all && |r.value| <= maximum
      ensures r.Ok? && |r.value| > 0 ==> |Flatten(chunks)| < |old(Flatten(chunks))|
    {
      NextFrame(frames, Flatten(chunks), all);
      r := ReadFrame(maximum);
    }

    /** Frame after frame until the stream ends or a frame is too long: the frames of the
        bytes, not of the pieces they came in. */
    method ReadFrames(maximum: nat) returns (frames: seq<seq<byte>>, tooLong: bool)
      requires Valid()
      modifies this
      ensures frames <= Frames(old(Flatten(chunks)))
      ensures !tooLong ==> frames == Frames(old(Flatten(chunks)))
      ensures tooLong ==>
          |frames| < |Frames(old(Flatten(chunks)))| && |Frames(old(Flatten(chunks)))[|frames|]| > maximum
      ensures forall k :: 0 <= k < |frames| ==> |frames[k]| <= maximum
    {
      frames := [];
      ghost var all := Frames(Flatten(chunks));
      while true
        invariant Valid() && frames + Frames(Flatten(chunks)) == all
        invariant forall k :: 0 <= k < |frames| ==> |frames[k]| <= maximum
        decreases |Flatten(chunks)|
      {
        var r := ReadNext(maximum, frames, all);
        if r.Err? {
          return frames, true;
        }
        if |r.value| == 0 {
          return frames, false;
        }
        frames := frames + [r.value];
      }
    }
  }

  lemma NextFrame(frames: seq<seq<byte>>, s: seq<byte>, all: seq<seq<byte>>)
    requires frames + Frames(s) == all
    ensures frames <= all && (|s| == 0 ==> frames == all)
    ensures |s| > 0 ==>
        |frames| < |all| && all[|frames|] == FirstFrame(s)
        && frames + [FirstFrame(s)] + Frames(s[|FirstFrame(s)|..]) == all
  {}

  // What one buffer says about the frame.
  lemma FrameInBuffer(available: seq<byte>, rest: seq<byte>, newline: Option<nat>)
    requires newline.None? ==> LF !in available
    requires newline.Some? ==>
        newline.value < |available| && available[newline.value] == LF && LF !in available[..newline.value]
    ensures newline.Some? ==> FirstFrame(available + rest) == available[..newline.value + 1]
    ensures newline.None? ==> FirstFrame(available + rest) == available[..|available|] + FirstFrame(rest)
  {
    if newline.Some? {
      var n := newline.value;
      assert available + rest == available[..n] + [LF] + (available[n + 1..] + rest);
      FirstFrameLine(available[..n], available[n + 1..] + rest);
      assert available[..n] + [LF] == available[..n + 1];
    } else {
      FirstFrameGrows(available, rest);
      assert available[..|available|] == available;
    }
  }

  lemma Regroup(frame: seq<byte>, piece: seq<byte>, rest: seq<byte>)
    ensures frame + (piece + rest) == frame + piece + rest
  {}
}
