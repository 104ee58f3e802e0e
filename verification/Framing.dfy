/**
 * Size-prefixed frames on a byte stream: the reading side of ReceiveDomainData,
 * whatever pieces the stream arrives in.
 */
module Framing {
  import opened LittleEndian

  function Concat(pieces: seq<Buffer>): Buffer {
    if pieces == [] then [] else pieces[0] + Concat(pieces[1..])
  }

  // ----- io.Reader and io.ReadFull ----------------------------------------------------

  datatype ReadError = NoError | EOF | UnexpectedEOF

  /** A stream that delivers its bytes in given pieces, possibly empty ones. */
  class Reader {
    var pieces: seq<Buffer>

    ghost function Remaining(): Buffer
      reads this
    {
      Concat(pieces)
    }

    constructor (pieces: seq<Buffer>)
      ensures this.pieces == pieces
    {
      this.pieces := pieces;
    }

    /** Read at most n bytes: never more than the current piece holds. */
    method Read(n: nat) returns (got: Buffer, eof: bool)
      requires n > 0
      modifies this
      ensures got + Remaining() == old(Remaining()) && |got| <= n
      ensures eof == (old(pieces) == []) && (eof ==> got == [] && pieces == [])
      ensures |pieces| < old(|pieces|) || |got| > 0 || eof
      ensures |pieces| <= old(|pieces|)
    {
      eof := pieces == [];
      if eof {
        got := [];
      } else if |pieces[0]| <= n {
        got := pieces[0];
        pieces := pieces[1..];
      } else {
        got := pieces[0][..n];
        pieces := [pieces[0][n..]] + pieces[1..];
        assert got + pieces[0] == old(pieces[0]);
      }
    }

    /** The next n bytes. What it returns does not depend on how the stream is cut up. */
    method ReadFull(n: nat) returns (buf: Buffer, err: ReadError)
      modifies this
      ensures var s := old(Remaining());
        && (|s| >= n ==> err == NoError && buf == s[..n] && Remaining() == s[n..])
        && (|s| < n ==> Remaining() == [] && err == if s == [] then EOF else UnexpectedEOF)
    {
      buf := [];
      var eof := false;
      while |buf| < n && !eof
        invariant buf + Remaining() == old(Remaining()) && |buf| <= n
        invariant eof ==> pieces == []
        decreases !eof, n - |buf|, |pieces|
      {
        var got: Buffer;
        ghost var before := buf;
        got, eof := Read(n - |buf|);
        buf := buf + got;
        assert buf + Remaining() == before + (got + Remaining());
      }
      ghost var s := old(Remaining());
      if |buf| == n {
        err := NoError;
        assert s[..n] == buf && s[n..] == Remaining();
      } else {
        err := if buf == [] then EOF else UnexpectedEOF;
        assert Remaining() == [];
        assert buf + [] == s;
      }
    }

    /**
     * One round of ReceiveDomainData's loop up to the decoding of the message: a frame,
     * or the result with which the loop ends.
     */
    method NextFrame() returns (r: FrameResult)
      modifies this
      ensures r == FirstFrame(old(Remaining()))
      ensures r.Frame? ==> old(Remaining()) == r.header + r.body + Remaining()
      ensures r.Frame? ==> |Remaining()| < |old(Remaining())|
    {
      ghost var s := Remaining();
      var header, err := ReadFull(4);
      if err == EOF {
        return End;
      }
      if err != NoError {
        return HeaderCut;
      }
      var size := Decode(header, 0, 4);
      ghost var rest := Remaining();
      assert s == header + rest;
      DecodeSame(header, 0, s, 0, 4);
      var body;
      body, err := ReadFull(size);
      if err == EOF {
        return End;
      }
      if err != NoError {
        return BodyCut;
      }
      assert rest == body + Remaining();
      assert s == header + body + Remaining();
      return Frame(header, body);
    }
  }

  // ----- The stream as a list of frames -------------------------------------------------

  datatype FrameResult = Frame(header: Buffer, body: Buffer) | End | HeaderCut | BodyCut

  function FirstFrame(s: Buffer): (r: FrameResult)
    ensures r.Frame? ==> 4 <= |r.header| + |r.body| <= |s| && |r.header| == 4
  {
    if s == [] then End
    else if |s| < 4 then HeaderCut
    else
      var size := Decode(s, 0, 4);
      if size <= |s| - 4 then Frame(s[..4], s[4..][..size])
      else if |s| == 4 then End
      else BodyCut
  }

  /** All frames of a stream, each with its header, and how reading ends. */
  datatype Frames = Frames(frames: seq<Buffer>, end: FrameResult)

  function ParseStream(s: Buffer): (r: Frames)
    ensures !r.end.Frame?
    decreases |s|
  {
    match FirstFrame(s)
    case Frame(header, body) =>
      var rest := ParseStream(s[4 + |body|..]);
      Frames([header + body] + rest.frames, rest.end)
    case other => Frames([], other)
  }

  predicate IsFrame(f: Buffer) {
    4 <= |f| && Decode(f, 0, 4) == |f| - 4
  }

  predicate AllFrames(fs: seq<Buffer>) {
    forall i :: 0 <= i < |fs| ==> IsFrame(fs[i])
  }

  /** A header that announces a body, with nothing after it. */
  predicate BareHeader(s: Buffer) {
    |s| == 4 && Decode(s, 0, 4) > 0
  }

  /** Reading stops here: the stream ends, or it is cut inside a header or a body. */
  predicate Unframed(s: Buffer) {
    !FirstFrame(s).Frame?
  }

  lemma FirstFrameOf(f: Buffer, rest: Buffer)
    requires IsFrame(f)
    ensures FirstFrame(f + rest) == Frame(f[..4], f[4..])
  {
    DecodeSame(f, 0, f + rest, 0, 4);
    assert (f + rest)[..4] == f[..4];
    assert (f + rest)[4..][..|f| - 4] == f[4..];
  }

  /** The header is the length of the body, least significant byte first. */
  lemma FirstFrameBytes(a: byte, b: byte, c: byte, d: byte, rest: Buffer)
    ensures var size := a as int + 0x100 * (b as int) + 0x1_0000 * (c as int) + 0x100_0000 * (d as int);
      FirstFrame([a, b, c, d] + rest) ==
        if size <= |rest| then Frame([a, b, c, d], rest[..size]) else if rest == [] then End else BodyCut
    ensures FirstFrame([]) == End && FirstFrame([a]) == FirstFrame([a, b]) == FirstFrame([a, b, c]) == HeaderCut
  {
    hide Decode;
    var s := [a, b, c, d] + rest;
    Decode4(s, 0);
    assert s[..4] == [a, b, c, d] && s[4..] == rest;
  }

  /** A stream of one message of five bytes. */
  lemma FiveBytes(body: Buffer)
    requires |body| == 5
    ensures ParseStream([5, 0, 0, 0] + body) == Frames([[5, 0, 0, 0] + body], End)
  {
    hide FirstFrame;
    FirstFrameBytes(5, 0, 0, 0, body);
    FirstFrameBytes(0, 0, 0, 0, []);
    var s := [5, 0, 0, 0] + body;
    assert body[..5] == body && s[9..] == [];
  }

  /** Exactness: the frames a sender writes are the frames the receiver sees, in order. */
  lemma {:induction false} ParseConcat(fs: seq<Buffer>, tail: Buffer)
    requires AllFrames(fs) && Unframed(tail)
    ensures ParseStream(Concat(fs) + tail) == Frames(fs, FirstFrame(tail))
    decreases |fs|
  {
    hide FirstFrame, Decode;
    if fs == [] {
      assert Concat(fs) + tail == tail;
    } else {
      var f, s := fs[0], Concat(fs) + tail;
      var rest := Concat(fs[1..]) + tail;
      assert s == f + rest;
      FirstFrameOf(f, rest);
      assert 4 + |f[4..]| == |f| && s[|f|..] == rest;
      ParseConcat(fs[1..], tail);
      assert f[..4] + f[4..] == f;
    }
  }

  /** What is left of the stream behind its last whole frame. */
  function Leftover(s: Buffer): Buffer
    decreases |s|
  {
    match FirstFrame(s)
    case Frame(_, body) => Leftover(s[4 + |body|..])
    case _ => s
  }

  lemma FirstFrameSplit(s: Buffer)
    requires FirstFrame(s).Frame?
    ensures var f := FirstFrame(s).header + FirstFrame(s).body;
      IsFrame(f) && s == f + s[4 + |FirstFrame(s).body|..]
  {
    var f := FirstFrame(s).header + FirstFrame(s).body;
    DecodeSame(f, 0, s, 0, 4);
  }

  /** Conservation: the frames seen are, byte for byte, the stream up to its leftover. */
  lemma {:induction false} ParsedPrefix(s: Buffer)
    ensures AllFrames(ParseStream(s).frames) && Unframed(Leftover(s))
    ensures s == Concat(ParseStream(s).frames) + Leftover(s) && ParseStream(s).end == FirstFrame(Leftover(s))
    decreases |s|
  {
    hide FirstFrame, IsFrame;
    match FirstFrame(s)
    case Frame(header, body) =>
      var f, next := header + body, s[4 + |body|..];
      FirstFrameSplit(s);
      ParsedPrefix(next);
      assert ParseStream(s).frames == [f] + ParseStream(next).frames;
      assert Concat(ParseStream(s).frames) == f + Concat(ParseStream(next).frames);
    case _ =>
      assert [] + s == s;
  }

  /** s is whole frames, then nothing or a bare header. */
  ghost predicate WholeFrames(s: Buffer, fs: seq<Buffer>, tail: Buffer) {
    AllFrames(fs) && (tail == [] || BareHeader(tail)) && s == Concat(fs) + tail
  }

  /**
   * ReceiveDomainData ends without an error exactly when the stream is a list of whole
   * frames, optionally followed by a bare header: a body that never starts is not
   * noticed, every other truncation is.
   */
  lemma CleanEndIff(s: Buffer)
    ensures ParseStream(s).end == End <==> exists fs, tail :: WholeFrames(s, fs, tail)
  {
    ParsedPrefix(s);
    if ParseStream(s).end == End {
      assert WholeFrames(s, ParseStream(s).frames, Leftover(s));
    }
    forall fs, tail | WholeFrames(s, fs, tail)
      ensures ParseStream(s).end == End
    {
      ParseConcat(fs, tail);
    }
  }

  lemma EndIff(s: Buffer)
    ensures ParseStream(s).end == End <==> |Leftover(s)| == 0 || |Leftover(s)| == 4
  {
    ParsedPrefix(s);
  }

  /** The error cases, by what is left over: 1 to 3 bytes, or a header and part of its body. */
  lemma CutIff(s: Buffer)
    ensures ParseStream(s).end == HeaderCut <==> 0 < |Leftover(s)| < 4
    ensures ParseStream(s).end == BodyCut <==> 4 < |Leftover(s)|
  {
    ParsedPrefix(s);
  }
}
