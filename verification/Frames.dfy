/** The relay's wire frames, internal/relay/frames.go: one type byte, a two-byte
    big-endian length, the body. */
module Frames {
  import opened Prelude
  import opened Numerals

  const MAX_FRAME_LEN: nat := 4096

  datatype Frame = Frame(typ: byte, body: seq<byte>)

  predicate Fits(f: Frame) { |f.body| <= MAX_FRAME_LEN }

  predicate AllFit(fs: seq<Frame>) { forall f :: f in fs ==> Fits(f) }

  /** A length on the wire wraps at 16 bits. */
  function Header(typ: byte, n: nat): seq<byte> { [typ, n / 256 % 256, n % 256] }

  function Encode(f: Frame): seq<byte> { Header(f.typ, |f.body|) + f.body }

  function EncodeAll(fs: seq<Frame>): seq<byte> {
    if fs == [] then [] else Encode(fs[0]) + EncodeAll(fs[1..])
  }

  function BodyLen(s: seq<byte>): nat
    requires |s| >= 3
  {
    s[1] as nat * 256 + s[2]
  }

  predicate Readable(s: seq<byte>) { |s| >= 3 && BodyLen(s) <= MAX_FRAME_LEN && |s| >= 3 + BodyLen(s) }

  /** The frame at the front of the stream, if a whole one is there. */
  function First(s: seq<byte>): Frame
    requires Readable(s)
  {
    Frame(s[0], s[3..3 + BodyLen(s)])
  }

  /** io.EOF, io.ErrUnexpectedEOF, and the refusal of a length beyond the limit. */
  datatype ReadError = Eof | UnexpectedEof | Oversized

  /** io.ReadFull of n bytes where only |s| are left: a plain end if nothing is. */
  function ShortRead(s: seq<byte>): ReadError { if s == [] then Eof else UnexpectedEof }

  /** The error of reading a frame where no whole one is. */
  function ErrorAt(s: seq<byte>): ReadError
    requires !Readable(s)
  {
    if |s| < 3 then ShortRead(s)
    else if BodyLen(s) > MAX_FRAME_LEN then Oversized
    else ShortRead(s[3..])
  }

  datatype Reading = Reading(frames: seq<Frame>, error: ReadError, left: seq<byte>)

  /** Reading until the first error: the frames read, the error, and the bytes from the
      start of the frame that failed. */
  function ReadAll(s: seq<byte>): Reading {
    if Readable(s) then
      var r := ReadAll(s[3 + BodyLen(s)..]);
      r.(frames := [First(s)] + r.frames)
    else Reading([], ErrorAt(s), s)
  }

  lemma FirstOfEncoded(f: Frame, rest: seq<byte>)
    requires Fits(f)
    ensures var s := Encode(f) + rest;
            Readable(s) && First(s) == f && s[3 + BodyLen(s)..] == rest && BodyLen(s) == |f.body|
  {
    var s := Encode(f) + rest;
    assert s[1] == |f.body| / 256 % 256 && s[2] == |f.body| % 256;
    assert s[3..3 + |f.body|] == f.body;
  }

  lemma ReadNext(f: Frame, rest: seq<byte>)
    requires Fits(f)
    ensures ReadAll(Encode(f) + rest) == ReadAll(rest).(frames := [f] + ReadAll(rest).frames)
  {
    FirstOfEncoded(f, rest);
  }

  lemma EncodeNext(f: Frame, fs: seq<Frame>)
    ensures EncodeAll([f] + fs) == Encode(f) + EncodeAll(fs)
  {
    assert ([f] + fs)[1..] == fs;
  }

  /** Reading what was written gives back exactly the frames and consumes everything. */
  lemma {:induction false} RoundTrip(fs: seq<Frame>)
    requires AllFit(fs)
    ensures ReadAll(EncodeAll(fs)) == Reading(fs, Eof, [])
  {
    if fs != [] {
      ReadNext(fs[0], EncodeAll(fs[1..]));
      RoundTrip(fs[1..]);
      assert [fs[0]] + fs[1..] == fs;
    }
  }

  /** m whole frames come before position k of the stream, and not m + 1. */
  predicate FramesBefore(fs: seq<Frame>, k: nat, m: nat) {
    m <= |fs| && |EncodeAll(fs[..m])| <= k && (m < |fs| ==> k < |EncodeAll(fs[..m + 1])|)
  }

  /** What reading says, `over` bytes into a frame. */
  predicate CutReading(r: Reading, fs: seq<Frame>, over: nat) {
    r.frames == fs && |r.left| == over && r.error == if over == 0 || over == 3 then Eof else UnexpectedEof
  }

  /** A stream cut anywhere yields the whole frames before the cut.  The error is a plain
      end exactly when the cut falls between two frames or right behind a header. */
  lemma {:induction false} CutStream(fs: seq<Frame>, k: nat) returns (m: nat)
    requires AllFit(fs) && k <= |EncodeAll(fs)|
    ensures FramesBefore(fs, k, m) && CutReading(ReadAll(EncodeAll(fs)[..k]), fs[..m], k - |EncodeAll(fs[..m])|)
  {
    m := 0;
    if fs != [] {
      if k < |Encode(fs[0])| {
        CutFrame(fs[0], k);
        assert EncodeAll(fs)[..k] == Encode(fs[0])[..k] && fs[..1][1..] == [];
      } else {
        m := CutStream(fs[1..], k - |Encode(fs[0])|);
        CutLater(fs[0], fs[1..], k, m);
        assert [fs[0]] + fs[1..] == fs;
        m := m + 1;
      }
    }
  }

  lemma CutLater(f: Frame, fs: seq<Frame>, k: nat, m: nat)
    requires Fits(f) && |Encode(f)| <= k <= |Encode(f)| + |EncodeAll(fs)| && FramesBefore(fs, k - |Encode(f)|, m)
    requires CutReading(ReadAll(EncodeAll(fs)[..k - |Encode(f)|]), fs[..m], k - |Encode(f)| - |EncodeAll(fs[..m])|)
    ensures var gs := [f] + fs;
            && FramesBefore(gs, k, m + 1)
            && CutReading(ReadAll(EncodeAll(gs)[..k]), gs[..m + 1], k - |EncodeAll(gs[..m + 1])|)
  {
    var gs, j := [f] + fs, k - |Encode(f)|;
    EncodeNext(f, fs);
    EncodeNext(f, fs[..m]);
    assert gs[..m + 1] == [f] + fs[..m];
    if m < |fs| {
      EncodeNext(f, fs[..m + 1]);
      assert gs[..m + 2] == [f] + fs[..m + 1];
    }
    assert EncodeAll(gs)[..k] == Encode(f) + EncodeAll(fs)[..j];
    ReadNext(f, EncodeAll(fs)[..j]);
  }

  lemma CutFrame(f: Frame, k: nat)
    requires Fits(f) && k < |Encode(f)|
    ensures CutReading(ReadAll(Encode(f)[..k]), [], k)
  {
    var s := Encode(f)[..k];
    if k >= 3 { assert s[1] == |f.body| / 256 % 256 && s[2] == |f.body| % 256; }
  }

  lemma EncodedFirst(s: seq<byte>)
    requires Readable(s)
    ensures s == Encode(First(s)) + s[3 + BodyLen(s)..] && Fits(First(s))
  {
    assert BodyLen(s) / 256 == s[1] && BodyLen(s) % 256 == s[2];
  }

  /** The stream is the frames read and what is left, where no frame can be read. */
  predicate Splits(s: seq<byte>, fs: seq<Frame>, left: seq<byte>) {
    AllFit(fs) && !Readable(left) && s == EncodeAll(fs) + left
  }

  lemma SplitsNext(f: Frame, t: seq<byte>, fs: seq<Frame>, left: seq<byte>)
    requires Fits(f) && Splits(t, fs, left)
    ensures Splits(Encode(f) + t, [f] + fs, left)
  {
    EncodeNext(f, fs);
    assert Encode(f) + t == Encode(f) + EncodeAll(fs) + left;
  }

  lemma {:induction false} ReadSplits(s: seq<byte>)
    ensures Splits(s, ReadAll(s).frames, ReadAll(s).left) && ReadAll(s).error == ErrorAt(ReadAll(s).left)
    decreases |s|
  {
    if Readable(s) {
      EncodedFirst(s);
      var f, t := First(s), s[3 + BodyLen(s)..];
      ReadSplits(t);
      SplitsNext(f, t, ReadAll(t).frames, ReadAll(t).left);
    }
  }

  lemma {:induction false} SplitsOnce(s: seq<byte>, fs: seq<Frame>, left: seq<byte>)
    requires Splits(s, fs, left)
    ensures ReadAll(s) == Reading(fs, ErrorAt(left), left)
    decreases |fs|
  {
    if fs == [] {
      assert s == left;
    } else {
      var t := EncodeAll(fs[1..]) + left;
      assert s == Encode(fs[0]) + t && [fs[0]] + fs[1..] == fs;
      SplitsOnce(t, fs[1..], left);
      ReadNext(fs[0], t);
    }
  }

  /** A stream of which nothing is left has exactly one parse: it is the encoding of the
      frames read, and of no others. */
  lemma OneParse(s: seq<byte>, gs: seq<Frame>)
    requires ReadAll(s).left == []
    ensures AllFit(ReadAll(s).frames) && EncodeAll(ReadAll(s).frames) == s
    ensures AllFit(gs) && EncodeAll(gs) == s ==> gs == ReadAll(s).frames
  {
    ReadSplits(s);
    if AllFit(gs) && EncodeAll(gs) == s { RoundTrip(gs); }
  }

  /** A header that announces a body. */
  predicate BareHeader(h: seq<byte>) { |h| == 3 && 1 <= BodyLen(h) <= MAX_FRAME_LEN }

  /** Reading ends with io.EOF exactly on the streams of whole frames and on those cut
      right behind a header, so io.EOF alone does not mean that nothing was lost. */
  lemma EofMeans(s: seq<byte>)
    ensures ReadAll(s).error == Eof <==> exists fs, h :: Splits(s, fs, h) && (h == [] || BareHeader(h))
  {
    ReadSplits(s);
    var r := ReadAll(s);
    if r.error == Eof { assert Splits(s, r.frames, r.left) && (r.left == [] || BareHeader(r.left)); }
    if fs, h :| Splits(s, fs, h) && (h == [] || BareHeader(h)) { SplitsOnce(s, fs, h); }
  }

  // ---------------------------------------------------------------- the two operations

  /** A connection that takes `room` more bytes before its writes fail. */
  class Writer {
    var sent: seq<byte>
    var room: nat

    method Write(b: seq<byte>) returns (ok: bool)
      modifies this
      ensures ok == (|b| <= old(room))
      ensures ok ==> sent == old(sent) + b && room == old(room) - |b|
      ensures !ok ==> sent == old(sent) + b[..old(room)] && room == 0
    {
      ok := |b| <= room;
      if ok { sent, room := sent + b, room - |b|; } else { sent, room := sent + b[..room], 0; }
    }
  }

  class Reader {
    var rest: seq<byte>

    /** io.ReadFull into buf[..n]. */
    method ReadFull(buf: array<byte>, n: nat) returns (err: Option<ReadError>)
      requires n <= buf.Length
      modifies this, buf
      ensures err == if |old(rest)| >= n then None else Some(ShortRead(old(rest)))
      ensures err.None? ==> buf[..n] == old(rest)[..n] && rest == old(rest)[n..]
      ensures err.None? ==> buf[n..] == old(buf[n..])
      ensures err.Some? ==> rest == []
    {
      err := None;
      if |rest| >= n {
        var i := 0;
        while i < n
          invariant i <= n && rest == old(rest) && buf[..i] == rest[..i] && buf[n..] == old(buf[n..])
        {
          buf[i] := rest[i];
          i := i + 1;
        }
        rest := rest[n..];
      } else {
        err := Some(if |rest| == 0 then Eof else UnexpectedEof);
        rest := [];
      }
    }
  }

  datatype ReadResult = Got(typ: byte, len: nat) | Failed(error: ReadError)

  /** An oversized body sends nothing; a failing connection sends a strict prefix. */
  method WriteFrame(w: Writer, typ: byte, body: seq<byte>) returns (ok: bool)
    modifies w
    ensures ok == (Fits(Frame(typ, body)) && |Encode(Frame(typ, body))| <= old(w.room))
    ensures ok ==> w.sent == old(w.sent) + Encode(Frame(typ, body))
    ensures !ok && !Fits(Frame(typ, body)) ==> w.sent == old(w.sent)
    ensures !ok && Fits(Frame(typ, body)) ==> w.sent == old(w.sent) + Encode(Frame(typ, body))[..old(w.room)]
  {
    if |body| > MAX_FRAME_LEN { return false; }
    var hdr := [typ, |body| / 256, |body| % 256];
    ghost var whole := Encode(Frame(typ, body));
    assert whole == hdr + body;
    ghost var room := w.room;
    ok := w.Write(hdr);
    if !ok {
      assert whole[..room] == hdr[..room];
      return;
    }
    ok := w.Write(body);
    if !ok { assert whole[..room] == hdr + body[..room - 3]; }
  }

  /** Fills the caller's buffer: on success buf[..n] is the body of the next frame. */
  method ReadFrame(r: Reader, buf: array<byte>) returns (res: ReadResult)
    requires buf.Length >= MAX_FRAME_LEN
    modifies r, buf
    ensures res.Got? <==> Readable(old(r.rest))
    ensures res.Got? ==> res.len == BodyLen(old(r.rest)) && Frame(res.typ, buf[..res.len]) == First(old(r.rest))
                         && r.rest == old(r.rest)[3 + res.len..]
    ensures res.Failed? ==> res.error == ErrorAt(old(r.rest))
  {
    var hdr := new byte[3];
    ghost var s := r.rest;
    var err := r.ReadFull(hdr, 3);
    if err.Some? { return Failed(err.value); }
    assert hdr[..3][1] == s[1] && hdr[..3][2] == s[2] && hdr[..3][0] == s[0];
    var n := hdr[1] as nat * 256 + hdr[2];
    if n > MAX_FRAME_LEN { return Failed(Oversized); }
    err := r.ReadFull(buf, n);
    if err.Some? { return Failed(err.value); }
    assert s[3..][..n] == s[3..3 + n] && s[3..][n..] == s[3 + n..];
    res := Got(hdr[0], n);
  }
}
