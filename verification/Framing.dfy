/** Message frames on a byte stream: a header of a 16-bit type and a 64-bit length (of
    header and body), then the body.  A connection reads the stream in chunks of any
    size into one buffer and hands every complete frame to its handler. */
module Framing {
  import opened Bytes

  datatype Frame = Frame(kind: nat, body: seq<Byte>)

  const HEADER: nat := 10
  const BUFFER: nat := 8192

  function Encode(f: Frame): seq<Byte> {
    Little(f.kind, 2) + Little(HEADER + |f.body|, 8) + f.body
  }

  function EncodeAll(fs: seq<Frame>): seq<Byte> {
    if fs == [] then [] else Encode(fs[0]) + EncodeAll(fs[1..])
  }

  /** Types have 16 bits, and lengths are small enough for 32-bit positions. */
  predicate WellFormed(f: Frame) { f.kind < 0x1_0000 && HEADER + |f.body| < 0x4000_0000 }

  ghost predicate AllWellFormed(fs: seq<Frame>) { forall i :: 0 <= i < |fs| ==> WellFormed(fs[i]) }

  /** The length announced by the header at the start of `bs`. */
  function Announced(bs: seq<Byte>): nat
    requires |bs| >= HEADER
  {
    Value(bs[2..10])
  }

  /** A whole frame is there. */
  predicate Complete(bs: seq<Byte>) { |bs| >= HEADER && HEADER <= Announced(bs) <= |bs| }

  function Front(bs: seq<Byte>): Frame
    requires Complete(bs)
  {
    Frame(Value(bs[..2]), bs[HEADER..Announced(bs)])
  }

  /** All complete frames at the start of `bs`, and what is left over. */
  function Frames(bs: seq<Byte>): seq<Frame>
    decreases |bs|
  {
    if Complete(bs) then [Front(bs)] + Frames(bs[Announced(bs)..]) else []
  }

  function Left(bs: seq<Byte>): seq<Byte>
    decreases |bs|
  {
    if Complete(bs) then Left(bs[Announced(bs)..]) else bs
  }

  // ---------------------------------------------------------------- streams

  lemma CompleteStays(a: seq<Byte>, b: seq<Byte>)
    requires Complete(a)
    ensures Complete(a + b) && Front(a + b) == Front(a) && Announced(a + b) == Announced(a)
    ensures (a + b)[Announced(a)..] == a[Announced(a)..] + b
  {
    assert (a + b)[2..10] == a[2..10] && (a + b)[..2] == a[..2];
    assert (a + b)[HEADER..Announced(a)] == a[HEADER..Announced(a)];
  }

  /** Cutting a stream anywhere and carrying the left-over bytes forward changes nothing. */
  lemma {:induction false} CutAnywhere(a: seq<Byte>, b: seq<Byte>)
    ensures Frames(a + b) == Frames(a) + Frames(Left(a) + b)
    ensures Left(a + b) == Left(Left(a) + b)
    decreases |a|
  {
    if Complete(a) {
      CompleteStays(a, b);
      CutAnywhere(a[Announced(a)..], b);
    }
  }

  lemma EncodedFront(f: Frame, rest: seq<Byte>)
    requires WellFormed(f)
    ensures var bs := Encode(f) + rest;
      Complete(bs) && Front(bs) == f && Announced(bs) == |Encode(f)| && bs[Announced(bs)..] == rest
  {
    var bs := Encode(f) + rest;
    Widths();
    ValueOfLittle(f.kind, 2);
    ValueOfLittle(HEADER + |f.body|, 8);
    assert bs[..2] == Little(f.kind, 2);
    assert bs[2..10] == Little(HEADER + |f.body|, 8);
    assert bs[HEADER..HEADER + |f.body|] == f.body;
  }

  /** A stream of well-formed frames, followed by less than a frame, splits into exactly those frames. */
  lemma {:induction false} FramesOfEncoded(fs: seq<Frame>, rest: seq<Byte>)
    requires AllWellFormed(fs) && !Complete(rest)
    ensures Frames(EncodeAll(fs) + rest) == fs && Left(EncodeAll(fs) + rest) == rest
  {
    if fs == [] {
      assert EncodeAll(fs) + rest == rest;
    } else {
      EncodedFront(fs[0], EncodeAll(fs[1..]) + rest);
      FramesOfEncoded(fs[1..], rest);
      Associates(Encode(fs[0]), EncodeAll(fs[1..]), rest);
      assert [fs[0]] + fs[1..] == fs;
    }
  }

  // ---------------------------------------------------------------- chunks

  function Joined(chunks: seq<seq<Byte>>): seq<Byte> {
    if chunks == [] then [] else Joined(chunks[..|chunks| - 1]) + chunks[|chunks| - 1]
  }

  /** What is handed on, and kept, when the stream comes in these chunks. */
  function HandedOn(chunks: seq<seq<Byte>>): seq<Frame> {
    if chunks == [] then []
    else
      var front := chunks[..|chunks| - 1];
      HandedOn(front) + Frames(Kept(front) + chunks[|chunks| - 1])
  }

  function Kept(chunks: seq<seq<Byte>>): seq<Byte> {
    if chunks == [] then [] else Left(Kept(chunks[..|chunks| - 1]) + chunks[|chunks| - 1])
  }

  lemma {:induction false} ChunksDoNotMatter(chunks: seq<seq<Byte>>)
    ensures HandedOn(chunks) == Frames(Joined(chunks)) && Kept(chunks) == Left(Joined(chunks))
  {
    if chunks != [] {
      var front := chunks[..|chunks| - 1];
      ChunksDoNotMatter(front);
      CutAnywhere(Joined(front), chunks[|chunks| - 1]);
    }
  }

  /** However a stream of frames is cut into chunks, the handler sees exactly those frames, in order. */
  lemma ChunkIndependence(fs: seq<Frame>, chunks: seq<seq<Byte>>)
    requires AllWellFormed(fs) && Joined(chunks) == EncodeAll(fs)
    ensures HandedOn(chunks) == fs && Kept(chunks) == []
  {
    ChunksDoNotMatter(chunks);
    FramesOfEncoded(fs, []);
    assert EncodeAll(fs) + [] == EncodeAll(fs);
  }

  // ---------------------------------------------------------------- the receive buffer

  /** Every header met from the start of `bs` announces a length a well-formed frame can have. */
  predicate Sane(bs: seq<Byte>)
    decreases |bs|
  {
    |bs| >= HEADER ==> HEADER <= Announced(bs) < 0x4000_0000 && (Complete(bs) ==> Sane(bs[Announced(bs)..]))
  }

  /** So it is with every part of a stream of well-formed frames that starts at a frame. */
  lemma {:induction false} StreamsAreSane(fs: seq<Frame>, bs: seq<Byte>)
    requires AllWellFormed(fs) && bs <= EncodeAll(fs)
    ensures Sane(bs)
  {
    if |bs| >= HEADER {
      assert fs != [];
      EncodedFront(fs[0], EncodeAll(fs[1..]));
      assert bs[2..10] == EncodeAll(fs)[2..10];
      if Complete(bs) {
        var k := Announced(bs);
        assert EncodeAll(fs)[k..] == EncodeAll(fs[1..]);
        assert bs[k..] == EncodeAll(fs)[k..][..|bs| - k];
        StreamsAreSane(fs[1..], bs[k..]);
      }
    }
  }

  /** The bytes waited for after the left-over bytes `bs`: the body of the frame begun, if its header is there. */
  function Missing(bs: seq<Byte>): nat {
    if |bs| >= HEADER && Announced(bs) >= HEADER then Announced(bs) - HEADER else 0
  }

  lemma {:induction false} LeftIsSane(bs: seq<Byte>)
    requires Sane(bs)
    ensures Sane(Left(bs)) && Missing(Left(bs)) < 0x4000_0000
    ensures |Left(bs)| < HEADER + Missing(Left(bs)) && |Left(bs)| < 0x4000_0000
    decreases |bs|
  {
    if Complete(bs) { LeftIsSane(bs[Announced(bs)..]); }
  }

  lemma {:induction false} SaneOn(a: seq<Byte>, b: seq<Byte>)
    requires Sane(a + b)
    ensures Sane(Left(a) + b)
    decreases |a|
  {
    if Complete(a) {
      CompleteStays(a, b);
      SaneOn(a[Announced(a)..], b);
    }
  }

  /** How much a read takes: some of what there is and of what there is room for. */
  function Amount(want: nat, room: nat, left: nat): (n: nat)
    requires room > 0 && left > 0
    ensures 0 < n <= room && n <= left
  {
    var most := if room < left then room else left;
    if want == 0 then 1 else if want < most then want else most
  }

  /** What `chunk` does, behind the part `read` of a stream of frames; `next` is the part after it. */
  lemma ReadOn(fs: seq<Frame>, read: seq<Byte>, chunk: seq<Byte>, next: seq<Byte>, h: seq<Frame>)
    requires AllWellFormed(fs) && next == read + chunk && next <= EncodeAll(fs)
    ensures Sane(Left(read) + chunk) && Left(next) == Left(Left(read) + chunk)
    ensures (h + Frames(read)) + Frames(Left(read) + chunk) == h + Frames(next)
  {
    StreamsAreSane(fs, next);
    SaneOn(read, chunk);
    CutAnywhere(read, chunk);
    JoinFrames(h, Frames(read), Frames(Left(read) + chunk));
  }

  lemma CutAt(s: seq<Byte>, pos: nat, n: nat)
    requires pos + n <= |s|
    ensures s[..pos + n] == s[..pos] + s[pos..pos + n] && s[..pos + n] <= s
  {}

  lemma JoinFrames(a: seq<Frame>, b: seq<Frame>, c: seq<Frame>)
    ensures (a + b) + c == a + (b + c)
  {}

  /** A part of a part. */
  lemma Inside(s: seq<Byte>, from: nat, to: nat, i: nat, j: nat)
    requires i <= j && from + j <= to <= |s|
    ensures s[from..to][i..j] == s[from + i..from + j]
  {
    var a, b := s[from..to][i..j], s[from + i..from + j];
    assert |a| == |b|;
    forall k | 0 <= k < |a| ensures a[k] == b[k] {}
  }

  /** Having handed on `h` with `b` left to read is on the way from `h0` and `b0`. */
  ghost predicate Owed(h0: seq<Frame>, b0: seq<Byte>, h: seq<Frame>, b: seq<Byte>) {
    Sane(b) && h + Frames(b) == h0 + Frames(b0) && Left(b) == Left(b0)
  }

  lemma OwedStep(h0: seq<Frame>, b0: seq<Byte>, h: seq<Frame>, b: seq<Byte>)
    requires Owed(h0, b0, h, b) && Complete(b)
    ensures Owed(h0, b0, h + [Front(b)], b[Announced(b)..])
  {
    assert h + ([Front(b)] + Frames(b[Announced(b)..])) == (h + [Front(b)]) + Frames(b[Announced(b)..]);
  }

  class Connection {
    var data: array<Byte>
    var readPos: nat
    var writePos: nat
    var handled: seq<Frame>

    ghost predicate InRange()
      reads this
    {
      readPos <= writePos <= data.Length && BUFFER <= data.Length < 0x1_0000_0000
    }

    /** Between two reads: nothing consumed is kept, and there is room for the next read. */
    ghost predicate Valid()
      reads this
    {
      InRange() && readPos == 0 && writePos < data.Length
    }

    ghost function Unread(): seq<Byte>
      requires InRange()
      reads this, data
    {
      data[readPos..writePos]
    }

    constructor ()
      ensures Valid() && fresh(data) && Unread() == [] && handled == []
    {
      data := new Byte[BUFFER](_ => 0);
      readPos, writePos, handled := 0, 0, [];
    }

    /** Bytes arrive: they are put behind what is there, and every complete frame is handed on. */
    method Receive(chunk: seq<Byte>)
      requires Valid() && writePos + |chunk| <= data.Length && Sane(Unread() + chunk)
      modifies this, data
      ensures Valid() && (data == old(data) || fresh(data))
      ensures handled == old(handled) + Frames(old(Unread()) + chunk)
      ensures Unread() == Left(old(Unread()) + chunk)
    {
      Put(data, writePos, chunk);
      writePos := writePos + |chunk|;
      assert Unread() == old(Unread()) + chunk;
      LeftIsSane(Unread());
      var missing := ProcessMessages();
      Compact();
      MakeRoom(missing);
    }

    /** A stream of frames is read, each time as much as `size` says and there is room for:
        the handler sees exactly those frames, in order. */
    method ReceiveAll(stream: seq<Byte>, size: nat -> nat, ghost fs: seq<Frame>)
      requires Valid() && Unread() == [] && AllWellFormed(fs) && stream == EncodeAll(fs)
      modifies this, data
      ensures Valid() && (data == old(data) || fresh(data))
      ensures handled == old(handled) + fs && Unread() == []
    {
      var pos := 0;
      while pos < |stream|
        invariant pos <= |stream| && Valid() && (data == old(data) || fresh(data))
        invariant handled == old(handled) + Frames(stream[..pos]) && Unread() == Left(stream[..pos])
      {
        var n := Amount(size(pos), data.Length - writePos, |stream| - pos);
        var chunk := stream[pos..pos + n];
        CutAt(stream, pos, n);
        ReadOn(fs, stream[..pos], chunk, stream[..pos + n], old(handled));
        Receive(chunk);
        pos := pos + n;
      }
      assert stream[..pos] == stream && stream + [] == stream;
      FramesOfEncoded(fs, []);
    }

    /** Hand on every complete frame. */
    method ProcessMessages() returns (missing: nat)
      requires InRange() && Sane(Unread())
      modifies this`readPos, this`handled
      ensures InRange() && handled == old(handled) + Frames(old(Unread())) && Unread() == Left(old(Unread()))
      ensures missing == Missing(Unread())
    {
      missing := 0;
      while writePos - readPos >= HEADER
        invariant InRange() && missing == 0 && Owed(old(handled), old(Unread()), handled, Unread())
      {
        var length := ReadLength();
        if readPos + length > writePos {
          missing := length - HEADER;
          break;
        }
        OwedStep(old(handled), old(Unread()), handled, Unread());
        TakeFrame(length);
      }
      assert Frames(Unread()) == [];
    }

    method ReadLength() returns (length: nat)
      requires InRange() && |Unread()| >= HEADER
      ensures length == Announced(Unread())
    {
      Inside(data[..], readPos, writePos, 2, 10);
      length := Value(data[readPos + 2..readPos + 10]);
    }

    method TakeFrame(length: nat)
      requires InRange() && Complete(Unread()) && length == Announced(Unread())
      modifies this`readPos, this`handled
      ensures InRange() && handled == old(handled) + [Front(old(Unread()))] && Unread() == old(Unread())[length..]
    {
      Inside(data[..], readPos, writePos, 0, 2);
      Inside(data[..], readPos, writePos, HEADER, length);
      handled := handled + [Frame(Value(data[readPos..readPos + 2]), data[readPos + HEADER..readPos + length])];
      readPos := readPos + length;
    }

    /** Move the unread bytes to the start of the buffer. */
    method Compact()
      requires InRange()
      modifies this`readPos, this`writePos, data
      ensures InRange() && readPos == 0 && Unread() == old(Unread())
    {
      var left := writePos - readPos;
      for i := 0 to left
        invariant readPos == old(readPos) && writePos == old(writePos) && data[..i] == old(data[readPos..readPos + i])
        invariant data[readPos + i..] == old(data[readPos + i..])
      {
        data[i] := data[readPos + i];
        assert data[..i + 1] == data[..i] + [old(data[readPos + i])];
      }
      readPos, writePos := 0, left;
    }

    /** Grow the buffer for a long frame under way, or shrink it back to its usual size. */
    method MakeRoom(missing: nat)
      requires InRange() && readPos == 0 && missing == Missing(Unread()) < 0x4000_0000
      requires writePos < HEADER + missing && writePos < 0x4000_0000
      modifies this`data
      ensures Valid() && Unread() == old(Unread()) && (data == old(data) || fresh(data))
    {
      if writePos + missing > BUFFER {
        if writePos + missing > data.Length - writePos { Resize(writePos + missing + writePos); }
      } else if writePos <= BUFFER && data.Length > BUFFER {
        Resize(BUFFER);
      }
    }

    method Resize(size: nat)
      requires InRange() && writePos <= size && BUFFER <= size < 0x1_0000_0000
      modifies this`data
      ensures InRange() && data.Length == size && fresh(data) && Unread() == old(Unread())
    {
      var bigger := new Byte[size](_ => 0);
      for i := 0 to writePos
        invariant data == old(data) && bigger[..i] == data[..i]
      {
        bigger[i] := data[i];
      }
      assert bigger[readPos..writePos] == bigger[..writePos][readPos..];
      assert data[readPos..writePos] == data[..writePos][readPos..];
      data := bigger;
    }

    /** Append a message to the buffer, header and body, growing it when there is no room. */
    method WriteFrame(f: Frame)
      requires InRange() && WellFormed(f) && 2 * writePos + HEADER + |f.body| < 0x1_0000_0000
      modifies this, data
      ensures InRange() && Unread() == old(Unread()) + Encode(f) && handled == old(handled)
      ensures data == old(data) || fresh(data)
    {
      if data.Length - writePos < HEADER + |f.body| { Resize(HEADER + |f.body| + writePos); }
      AppendFrame(f);
    }

    /** Body first, then the header before it. */
    method PutFrame(f: Frame)
      requires InRange() && writePos + HEADER + |f.body| <= data.Length
      modifies data
      ensures data[..] == Splice(old(data[..]), writePos, Encode(f))
    {
      var header := Little(f.kind, 2) + Little(HEADER + |f.body|, 8);
      Put(data, writePos + HEADER, f.body);
      Put(data, writePos, header);
      SpliceBefore(old(data[..]), writePos, header, f.body);
    }

    method AppendFrame(f: Frame)
      requires InRange() && writePos + HEADER + |f.body| <= data.Length
      modifies this`writePos, data
      ensures InRange() && Unread() == old(Unread()) + Encode(f)
    {
      ghost var s := data[..];
      PutFrame(f);
      SpliceEnds(s, readPos, writePos, Encode(f));
      assert data[readPos..writePos + HEADER + |f.body|] == data[..][readPos..writePos + HEADER + |f.body|];
      writePos := writePos + HEADER + |f.body|;
    }
  }
}
