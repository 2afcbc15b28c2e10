/**
 * The length-prefixed frame codec used by the framed TCP transport
 * (src/transport/framing.rs): a 4-byte big-endian `u32` payload length followed
 * by the payload. The writer accepts any payload a `u32` can measure; the
 * reader refuses declared lengths above 10,000,000 bytes.
 */
module Framing {
  import opened Wrappers
  import opened Json

  type byte = x: int | 0 <= x < 256

  /** Largest declared payload length `read_frame` accepts. */
  const MAX_FRAME_LEN: nat := 10_000_000

  datatype FrameError =
    | MessageTooLarge(size: nat)   // write side: payload longer than `u32::MAX`
    | FrameTooLarge(len: nat)      // read side: declared length above MAX_FRAME_LEN
    | UnexpectedEof                // read side: stream ended inside the prefix or payload

  /** `u32::to_be_bytes`. */
  function Be32(n: nat): (b: seq<byte>)
    requires n <= U32_MAX
    ensures |b| == 4 && FromBe32(b) == n
  {
    var q1 := n / 256;
    var q2 := q1 / 256;
    var q3 := q2 / 256;
    assert q2 * 256 + q1 % 256 == q1;
    assert q3 * 256 + q2 % 256 == q2;
    [q3, q2 % 256, q1 % 256, n % 256]
  }

  /** `u32::from_be_bytes`. */
  function FromBe32(b: seq<byte>): (n: nat)
    requires |b| == 4
    ensures n <= U32_MAX
  {
    ((b[0] as int * 256 + b[1]) * 256 + b[2]) * 256 + b[3]
  }

  /** The prefix bytes determine the length and the length determines the prefix bytes. */
  lemma Be32FromBe32(b: seq<byte>)
    requires |b| == 4
    ensures Be32(FromBe32(b)) == b
  {
    var n := FromBe32(b);
    var q2 := b[0] as int * 256 + b[1];
    var q1 := q2 * 256 + b[2];
    assert n / 256 == q1 && n % 256 == b[3];
    assert q1 / 256 == q2 && q1 % 256 == b[2];
    assert q2 / 256 == b[0] && q2 % 256 == b[1];
  }

  /** The bytes `write_frame` emits for a payload: prefix, then the payload itself. */
  function EncodeFrame(p: seq<byte>): (f: seq<byte>)
    requires |p| <= U32_MAX
  {
    Be32(|p|) + p
  }

  /**
   * What `read_frame` makes of the bytes still to be read: the payload and the
   * number of bytes it consumes, or the error it reports.
   */
  function DecodeFrame(s: seq<byte>): (r: Result<(seq<byte>, nat), FrameError>)
    ensures r.Ok? ==> var (p, used) := r.value;
      && |p| <= MAX_FRAME_LEN && used == 4 + |p| <= |s|
      && s[..used] == EncodeFrame(p)
    ensures r.Err? ==> r.error.UnexpectedEof? || r.error.FrameTooLarge?
    ensures r.Err? && r.error.FrameTooLarge? ==>
      |s| >= 4 && r.error.len == FromBe32(s[..4]) > MAX_FRAME_LEN
    ensures r.Err? && r.error.UnexpectedEof? ==>
      |s| < 4 || (FromBe32(s[..4]) <= MAX_FRAME_LEN && |s| < 4 + FromBe32(s[..4]))
  {
    if |s| < 4 then Err(UnexpectedEof)
    else
      var len := FromBe32(s[..4]);
      if len > MAX_FRAME_LEN then Err(FrameTooLarge(len))
      else if |s| < 4 + len then Err(UnexpectedEof)
      else
        Be32FromBe32(s[..4]);
        assert s[..4 + len] == s[..4] + s[4..4 + len];
        Ok((s[4..4 + len], 4 + len))
  }

  /**
   * Round trip: a frame written for a payload of at most MAX_FRAME_LEN bytes is
   * read back as that payload, consuming exactly the frame, whatever follows it.
   */
  lemma FrameRoundTrip(p: seq<byte>, rest: seq<byte>)
    requires |p| <= MAX_FRAME_LEN
    ensures DecodeFrame(EncodeFrame(p) + rest) == Ok((p, 4 + |p|))
  {
    var s := EncodeFrame(p) + rest;
    assert s[..4] == Be32(|p|);
    assert s[4..4 + |p|] == p;
  }

  /**
   * The size limits of the two sides differ: a payload of 10,000,001 up to
   * `u32::MAX` bytes is written, and the reader rejects the frame without
   * consuming its payload.
   */
  lemma OversizeFrameWrittenButRejected(p: seq<byte>, rest: seq<byte>)
    requires MAX_FRAME_LEN < |p| <= U32_MAX
    ensures DecodeFrame(EncodeFrame(p) + rest) == Err(FrameTooLarge(|p|))
  {
    var s := EncodeFrame(p) + rest;
    assert s[..4] == Be32(|p|);
  }

  /** Frames written back to back. */
  function EncodeFrames(ps: seq<seq<byte>>): seq<byte>
    requires forall i :: 0 <= i < |ps| ==> |ps[i]| <= U32_MAX
  {
    if ps == [] then [] else EncodeFrame(ps[0]) + EncodeFrames(ps[1..])
  }

  lemma {:induction false} EncodeFramesAppend(ps: seq<seq<byte>>, p: seq<byte>)
    requires forall i :: 0 <= i < |ps| ==> |ps[i]| <= U32_MAX
    requires |p| <= U32_MAX
    ensures EncodeFrames(ps + [p]) == EncodeFrames(ps) + EncodeFrame(p)
  {
    if ps == [] {
      assert ps + [p] == [p];
      assert [p][1..] == [];
    } else {
      assert (ps + [p])[1..] == ps[1..] + [p];
      EncodeFramesAppend(ps[1..], p);
    }
  }

  /** The writer end of a stream: everything written so far, in order. */
  class ByteSink {
    var bytes: seq<byte>

    constructor ()
      ensures bytes == []
    {
      bytes := [];
    }
  }

  /** The reader end of a stream: the bytes it will ever deliver and a read cursor. */
  class ByteSource {
    const data: seq<byte>
    var pos: nat

    ghost predicate Valid()
      reads this
    {
      pos <= |data|
    }

    constructor (data: seq<byte>)
      ensures this.data == data && pos == 0 && Valid()
    {
      this.data := data;
      pos := 0;
    }

    /** The bytes not yet read. */
    function Remaining(): seq<byte>
      reads this
      requires Valid()
    {
      data[pos..]
    }
  }

  /**
   * `FrameCodec::write_frame`: refuses, writing nothing, a payload longer than
   * `u32::MAX`; otherwise appends the prefix and then the payload.
   */
  method WriteFrame(w: ByteSink, data: seq<byte>) returns (r: Result<(), FrameError>)
    modifies w
    ensures |data| > U32_MAX ==> r == Err(MessageTooLarge(|data|)) && w.bytes == old(w.bytes)
    ensures |data| <= U32_MAX ==> r == Ok(()) && w.bytes == old(w.bytes) + EncodeFrame(data)
  {
    if |data| > U32_MAX {
      return Err(MessageTooLarge(|data|));
    }
    var lenBytes := Be32(|data|);
    w.bytes := w.bytes + lenBytes;
    w.bytes := w.bytes + data;
    return Ok(());
  }

  /**
   * `FrameCodec::read_frame`: reads the 4-byte prefix, refuses a declared length
   * above MAX_FRAME_LEN before touching the payload, then reads exactly that many
   * bytes. When the stream ends early the reader has consumed all it had.
   */
  method ReadFrame(src: ByteSource) returns (r: Result<seq<byte>, FrameError>)
    requires src.Valid()
    modifies src
    ensures src.Valid()
    ensures var d := DecodeFrame(old(src.Remaining()));
      && (d.Ok? ==> r == Ok(d.value.0) && src.pos == old(src.pos) + d.value.1)
      && (d.Ok? ==> src.Remaining() == old(src.Remaining())[d.value.1..])
      && (d.Err? ==> r == Err(d.error))
      && (d.Err? && d.error.FrameTooLarge? ==> src.pos == old(src.pos) + 4)
      && (d.Err? && d.error.UnexpectedEof? ==> src.pos == |src.data|)
  {
    ghost var rest := src.Remaining();
    ghost var start := src.pos;
    if |src.data| - src.pos < 4 {
      src.pos := |src.data|;
      return Err(UnexpectedEof);
    }
    var lenBytes := src.data[src.pos..src.pos + 4];
    assert lenBytes == rest[..4];
    src.pos := src.pos + 4;
    var len := FromBe32(lenBytes);
    if len > MAX_FRAME_LEN {
      return Err(FrameTooLarge(len));
    }
    if |src.data| - src.pos < len {
      src.pos := |src.data|;
      return Err(UnexpectedEof);
    }
    var payload := src.data[src.pos..src.pos + len];
    assert src.pos == start + 4;
    assert payload == rest[4..4 + len] by {
      forall k | 0 <= k < len
        ensures payload[k] == rest[4 + k]
      {
      }
    }
    src.pos := src.pos + len;
    assert src.Remaining() == rest[4 + len..];
    return Ok(payload);
  }

  /** Writes each payload in turn as one frame. */
  method WriteFrames(w: ByteSink, messages: seq<seq<byte>>)
    requires forall i :: 0 <= i < |messages| ==> |messages[i]| <= U32_MAX
    modifies w
    ensures w.bytes == old(w.bytes) + EncodeFrames(messages)
  {
    var i := 0;
    while i < |messages|
      invariant 0 <= i <= |messages|
      invariant w.bytes == old(w.bytes) + EncodeFrames(messages[..i])
    {
      var _ := WriteFrame(w, messages[i]);
      EncodeFramesAppend(messages[..i], messages[i]);
      assert messages[..i + 1] == messages[..i] + [messages[i]];
      i := i + 1;
    }
    assert messages[..i] == messages;
  }

  /** Reads `|messages|` frames from a stream that holds exactly those messages framed back to back. */
  method ReadFrames(src: ByteSource, ghost messages: seq<seq<byte>>, n: nat) returns (read: seq<seq<byte>>)
    requires n == |messages|
    requires forall i :: 0 <= i < |messages| ==> |messages[i]| <= MAX_FRAME_LEN
    requires src.Valid() && src.Remaining() == EncodeFrames(messages)
    modifies src
    ensures read == messages
  {
    read := [];
    var i := 0;
    while i < n
      invariant i <= n && src.Valid()
      invariant read == messages[..i]
      invariant src.Remaining() == EncodeFrames(messages[i..])
    {
      ghost var tail := EncodeFrames(messages[i + 1..]);
      assert messages[i..][1..] == messages[i + 1..];
      assert src.Remaining() == EncodeFrame(messages[i]) + tail;
      FrameRoundTrip(messages[i], tail);
      var r := ReadFrame(src);
      read := read + [r.value];
      assert messages[..i + 1] == messages[..i] + [messages[i]];
      i := i + 1;
    }
    assert messages[..i] == messages;
  }

  /**
   * Several frames written back to back into one buffer and then read from it
   * come back in the same order with the same contents.
   */
  method WriteThenReadFrames(messages: seq<seq<byte>>) returns (read: seq<seq<byte>>)
    requires forall i :: 0 <= i < |messages| ==> |messages[i]| <= MAX_FRAME_LEN
    ensures read == messages
  {
    var sink := new ByteSink();
    WriteFrames(sink, messages);
    var src := new ByteSource(sink.bytes);
    read := ReadFrames(src, messages, |messages|);
  }
}
