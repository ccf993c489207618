/**
 * The frame wire format: a 16-byte network-order header (version, type, flags, stream id,
 * payload length, window) followed by the payload. Decode is the reference meaning of a
 * byte stream; the classes below are the source's encoder and decoder over a partial
 * writer and a blocking reader.
 */
module FrameCodec {
  import opened Bytes

  const HEADER_SIZE: nat := 16
  const CURRENT_VERSION: Byte := 1
  const MAX_PAYLOAD: nat := 0x10_0000
  const MAX_METADATA_PAYLOAD: nat := 32768
  const MAX_OPEN_RESULT_PAYLOAD: nat := 1024

  const WINDOW_UPDATE: Byte := 5
  const OPEN_RESULT: Byte := 15

  type Word16 = i: int | 0 <= i < 0x1_0000
  type Word32 = i: int | 0 <= i < U32

  datatype Frame = Frame(version: Byte, kind: Byte, flags: Word16, id: Word32, window: Word32, payload: seq<Byte>)

  datatype Error =
    | UnsupportedVersion | UnknownFrameType | PayloadTooLarge | InvalidFrame
    | Eof | UnexpectedEof
    | ShortWrite | WriterFailed

  datatype Status = Fine | Fault(error: Error)

  predicate KnownType(t: Byte) { 1 <= t <= 18 }

  predicate IsMetadata(t: Byte) { 9 <= t <= 11 || 16 <= t <= 18 }

  predicate IsTrace(t: Byte) { 12 <= t <= 14 }

  /** Go-away, ping, pong, metadata and trace frames need not name a stream. */
  predicate MayOmitStream(t: Byte) { 6 <= t <= 8 || IsMetadata(t) || IsTrace(t) }

  function Validate(f: Frame): Status {
    if f.version != CURRENT_VERSION then Fault(UnsupportedVersion)
    else if !KnownType(f.kind) then Fault(UnknownFrameType)
    else if |f.payload| > MAX_PAYLOAD then Fault(PayloadTooLarge)
    else if IsMetadata(f.kind) && |f.payload| > MAX_METADATA_PAYLOAD then Fault(PayloadTooLarge)
    else if f.kind == OPEN_RESULT && |f.payload| > MAX_OPEN_RESULT_PAYLOAD then Fault(PayloadTooLarge)
    else if f.id == 0 && !MayOmitStream(f.kind) then Fault(InvalidFrame)
    else if f.kind == WINDOW_UPDATE && f.window == 0 then Fault(InvalidFrame)
    else Fine
  }

  /** A configured limit that is not positive or above the protocol's own means the protocol's own. */
  function Limit(max: int): (r: nat)
    ensures r <= MAX_PAYLOAD
  {
    if max <= 0 || max > MAX_PAYLOAD then MAX_PAYLOAD else max
  }

  /** The frames an end configured with max lets through. */
  predicate Sendable(max: int, f: Frame) {
    Validate(f) == Fine && |f.payload| <= Limit(max)
  }

  function Header(f: Frame): (h: seq<Byte>)
    ensures |h| == HEADER_SIZE
  {
    [f.version, f.kind] + BigEndian(f.flags, 2) + BigEndian(f.id, 4)
    + BigEndian(|f.payload|, 4) + BigEndian(f.window, 4)
  }

  function Encode(f: Frame): seq<Byte> {
    Header(f) + f.payload
  }

  function EncodeAll(fs: seq<Frame>): seq<Byte> {
    if fs == [] then [] else Encode(fs[0]) + EncodeAll(fs[1..])
  }

  /** What one ReadFrame makes of the remaining input, and what input it leaves. */
  datatype Decoded = Got(frame: Frame, rest: seq<Byte>) | Failed(error: Error, rest: seq<Byte>)

  function FrameOf(h: seq<Byte>, payload: seq<Byte>): Frame
    requires |h| == HEADER_SIZE
  {
    Fields(h);
    Frame(h[0], h[1], Value(h[2..4]), Value(h[4..8]), Value(h[12..16]), payload)
  }

  lemma Fields(h: seq<Byte>)
    requires |h| == HEADER_SIZE
    ensures Value(h[2..4]) < 0x1_0000 && Value(h[4..8]) < U32 && Value(h[8..12]) < U32 && Value(h[12..16]) < U32
  {
    Radix4();
    BigEndianOfValue(h[2..4]);
    BigEndianOfValue(h[4..8]);
    BigEndianOfValue(h[8..12]);
    BigEndianOfValue(h[12..16]);
  }

  function Decode(max: int, b: seq<Byte>): Decoded {
    if |b| < HEADER_SIZE then Failed(if b == [] then Eof else UnexpectedEof, [])
    else
      var h, rest := b[..HEADER_SIZE], b[HEADER_SIZE..];
      var n := Value(h[8..12]);
      if h[0] != CURRENT_VERSION then Failed(UnsupportedVersion, rest)
      else if !KnownType(h[1]) then Failed(UnknownFrameType, rest)
      else if n > Limit(max) then Failed(PayloadTooLarge, rest)
      else if IsMetadata(h[1]) && n > MAX_METADATA_PAYLOAD then Failed(PayloadTooLarge, rest)
      else if |rest| < n then Failed(if rest == [] then Eof else UnexpectedEof, [])
      else
        var f := FrameOf(h, rest[..n]);
        match Validate(f)
        case Fine => Got(f, rest[n..])
        case Fault(e) => Failed(e, rest[n..])
  }

  /** Frames read until the reader reports an error, that error, and the input still unread then. */
  datatype Transcript = Transcript(frames: seq<Frame>, error: Error, rest: seq<Byte>)

  lemma DecodeConsumes(max: int, b: seq<Byte>)
    ensures Decode(max, b).Got? ==> |Decode(max, b).rest| + HEADER_SIZE <= |b|
  {
  }

  function DecodeAll(max: int, b: seq<Byte>): Transcript
    decreases |b|
  {
    match Decode(max, b)
    case Failed(e, rest) => Transcript([], e, rest)
    case Got(f, rest) =>
      DecodeConsumes(max, b);
      var t := DecodeAll(max, rest);
      Prepend([f], t)
  }

  function Prepend(fs: seq<Frame>, t: Transcript): Transcript {
    t.(frames := fs + t.frames)
  }

  lemma PrependTwice(fs: seq<Frame>, gs: seq<Frame>, t: Transcript)
    ensures Prepend(fs, Prepend(gs, t)) == Prepend(fs + gs, t)
  {
  }

  // ---------------------------------------------------------------------------
  // Round trips
  // ---------------------------------------------------------------------------

  lemma FiveParts(a: seq<Byte>, b: seq<Byte>, c: seq<Byte>, d: seq<Byte>, e: seq<Byte>)
    requires |a| == 2 && |b| == 2 && |c| == 4 && |d| == 4 && |e| == 4
    ensures
      var h := a + b + c + d + e;
      h[..2] == a && h[2..4] == b && h[4..8] == c && h[8..12] == d && h[12..16] == e
  {
  }

  lemma HeaderFields(f: Frame)
    requires |f.payload| < U32
    ensures FrameOf(Header(f), f.payload) == f && Value(Header(f)[8..12]) == |f.payload|
  {
    Radix4();
    var a, b, c := [f.version, f.kind], BigEndian(f.flags, 2), BigEndian(f.id, 4);
    var d, e := BigEndian(|f.payload|, 4), BigEndian(f.window, 4);
    FiveParts(a, b, c, d, e);
    var h := a + b + c + d + e;
    assert h == Header(f) && h[0] == h[..2][0] && h[1] == h[..2][1];
    ValueOfBigEndian(f.flags, 2);
    ValueOfBigEndian(f.id, 4);
    ValueOfBigEndian(|f.payload|, 4);
    ValueOfBigEndian(f.window, 4);
  }

  lemma HeaderOfFrame(h: seq<Byte>, payload: seq<Byte>)
    requires |h| == HEADER_SIZE && Value(h[8..12]) == |payload|
    ensures Header(FrameOf(h, payload)) == h
  {
    Fields(h);
    BigEndianOfValue(h[2..4]);
    BigEndianOfValue(h[4..8]);
    BigEndianOfValue(h[8..12]);
    BigEndianOfValue(h[12..16]);
    assert h == [h[0], h[1]] + h[2..4] + h[4..8] + h[8..12] + h[12..16];
  }

  lemma DecodeOfEncode(max: int, f: Frame, rest: seq<Byte>)
    requires Sendable(max, f)
    ensures Decode(max, Encode(f) + rest) == Got(f, rest)
  {
    var b := Encode(f) + rest;
    HeaderFields(f);
    assert b[..HEADER_SIZE] == Header(f);
    assert b[HEADER_SIZE..] == f.payload + rest;
    assert (f.payload + rest)[..|f.payload|] == f.payload;
    assert (f.payload + rest)[|f.payload|..] == rest;
  }

  lemma EncodeOfDecode(max: int, b: seq<Byte>)
    requires Decode(max, b).Got?
    ensures Sendable(max, Decode(max, b).frame)
    ensures b == Encode(Decode(max, b).frame) + Decode(max, b).rest
  {
    var h, tail := b[..HEADER_SIZE], b[HEADER_SIZE..];
    var n := Value(h[8..12]);
    HeaderOfFrame(h, tail[..n]);
    assert b == h + tail && tail == tail[..n] + tail[n..];
  }

  /**
   * The decoder delivers a frame exactly when the input starts with that frame's encoding and
   * the frame is valid and within the limit; what follows is left unread. In particular no
   * other byte string is ever taken for a frame.
   */
  lemma DecodesExactlyTheEncodings(max: int, b: seq<Byte>, f: Frame, rest: seq<Byte>)
    ensures Decode(max, b) == Got(f, rest) <==> Sendable(max, f) && b == Encode(f) + rest
  {
    if Decode(max, b).Got? {
      EncodeOfDecode(max, b);
    }
    if Sendable(max, f) && b == Encode(f) + rest {
      DecodeOfEncode(max, f, rest);
    }
  }

  lemma DecodeAllStep(max: int, f: Frame, rest: seq<Byte>)
    requires Sendable(max, f)
    ensures DecodeAll(max, Encode(f) + rest) == Prepend([f], DecodeAll(max, rest))
  {
    DecodeOfEncode(max, f, rest);
  }

  lemma ListStep(max: int, f: Frame, fs: seq<Frame>, b: seq<Byte>, t: Transcript)
    requires Sendable(max, f) && DecodeAll(max, b) == Prepend(fs, t)
    ensures DecodeAll(max, Encode(f) + b) == Prepend([f] + fs, t)
  {
    DecodeAllStep(max, f, b);
    PrependTwice([f], fs, t);
  }

  /** Any list of sendable frames comes back unchanged, whatever follows it on the wire. */
  lemma {:induction false} ListRoundTrip(max: int, fs: seq<Frame>, tail: seq<Byte>)
    requires forall f :: f in fs ==> Sendable(max, f)
    ensures DecodeAll(max, EncodeAll(fs) + tail) == Prepend(fs, DecodeAll(max, tail))
  {
    if fs == [] {
      assert EncodeAll(fs) + tail == tail;
      assert fs + DecodeAll(max, tail).frames == DecodeAll(max, tail).frames;
    } else {
      assert fs[0] in fs;
      ListRoundTrip(max, fs[1..], tail);
      ListStep(max, fs[0], fs[1..], EncodeAll(fs[1..]) + tail, DecodeAll(max, tail));
      Assoc(Encode(fs[0]), EncodeAll(fs[1..]), tail);
      assert fs == [fs[0]] + fs[1..];
    }
  }

  /** The produced bytes are consumed exactly: the list comes back and the next read is a clean end of input. */
  lemma WholeStreamRoundTrip(max: int, fs: seq<Frame>)
    requires forall f :: f in fs ==> Sendable(max, f)
    ensures DecodeAll(max, EncodeAll(fs)) == Transcript(fs, Eof, [])
  {
    ListRoundTrip(max, fs, []);
    assert EncodeAll(fs) + [] == EncodeAll(fs);
    assert fs + [] == fs;
  }

  /** t is what a reader should make of the first k bytes of the encoded frames fs. */
  predicate ReadsCut(fs: seq<Frame>, k: nat, t: Transcript) {
    var whole := |EncodeAll(t.frames)|;
    && (t.error == Eof || t.error == UnexpectedEof) && t.rest == []
    && (t.error == Eof <==> k == whole || k == whole + HEADER_SIZE)
    && t.frames <= fs && whole <= k
    && (|t.frames| < |fs| ==> k < whole + |Encode(fs[|t.frames|])|)
  }

  lemma ReadsCutStep(f: Frame, fs: seq<Frame>, k: nat, t: Transcript)
    requires ReadsCut(fs, k, t)
    ensures ReadsCut([f] + fs, |Encode(f)| + k, Prepend([f], t))
  {
    var all, frames := [f] + fs, [f] + t.frames;
    assert frames[1..] == t.frames;
    if |t.frames| < |fs| {
      assert all[|frames|] == fs[|t.frames|];
    }
  }

  /**
   * A stream cut anywhere yields the frames that arrived whole and then an end of input, which reads as a
   * clean one exactly at a frame boundary or right behind the header of the frame that was cut.
   */
  lemma {:induction false} CutStream(max: int, fs: seq<Frame>, k: nat)
    requires forall f :: f in fs ==> Sendable(max, f)
    requires k <= |EncodeAll(fs)|
    ensures ReadsCut(fs, k, DecodeAll(max, EncodeAll(fs)[..k]))
  {
    if fs != [] {
      var f, rest := fs[0], EncodeAll(fs[1..]);
      assert f in fs;
      if k < |Encode(f)| {
        assert EncodeAll(fs)[..k] == Encode(f)[..k];
        CutFrame(max, f, k);
      } else {
        var k' := k - |Encode(f)|;
        CutStream(max, fs[1..], k');
        assert EncodeAll(fs)[..k] == Encode(f) + rest[..k'];
        DecodeAllStep(max, f, rest[..k']);
        ReadsCutStep(f, fs[1..], k', DecodeAll(max, rest[..k']));
        assert fs == [f] + fs[1..];
      }
    }
  }

  lemma CutFrame(max: int, f: Frame, k: nat)
    requires Sendable(max, f) && k < |Encode(f)|
    ensures Decode(max, Encode(f)[..k]) == Failed(if k == 0 || k == HEADER_SIZE then Eof else UnexpectedEof, [])
  {
    var b := Encode(f)[..k];
    if k >= HEADER_SIZE {
      HeaderFields(f);
      assert b[..HEADER_SIZE] == Header(f);
    }
  }

  // ---------------------------------------------------------------------------
  // The encoder over a writer that may take part of what it is given
  // ---------------------------------------------------------------------------

  /** One answer of the writer: how much it takes of what is offered, and whether it reports an error. */
  datatype Portion = Portion(n: nat, failed: bool)

  /** The writer takes at least one byte every time and reports no error. */
  predicate Benign(s: seq<Portion>) {
    forall i :: 0 <= i < |s| ==> s[i].n > 0 && !s[i].failed
  }

  /** The environment: answers come from an arbitrary script, after which everything is taken. */
  class Writer {
    var out: seq<Byte>
    var script: seq<Portion>

    method Write(p: seq<Byte>) returns (n: nat, failed: bool)
      modifies this
      ensures n <= |p| && out == old(out) + p[..n]
      ensures Benign(old(script)) ==> !failed && (p != [] ==> n > 0) && Benign(script)
    {
      if script == [] {
        n, failed := |p|, false;
      } else {
        n := if script[0].n <= |p| then script[0].n else |p|;
        failed := script[0].failed;
        script := script[1..];
      }
      out := out + p[..n];
    }

    /** Only whole prefixes are written; success means everything; a benign writer always succeeds. */
    method WriteFull(p: seq<Byte>) returns (s: Status)
      modifies this
      ensures old(out) <= out && out[|old(out)|..] <= p
      ensures s == Fine ==> out == old(out) + p
      ensures Benign(old(script)) ==> s == Fine && Benign(script)
    {
      var left := p;
      while left != []
        invariant |left| <= |p| && left == p[|p| - |left|..]
        invariant out == old(out) + p[..|p| - |left|]
        invariant Benign(old(script)) ==> Benign(script)
        decreases |left|
      {
        var n, failed := Write(left);
        if n > 0 {
          left := left[n..];
        }
        if failed {
          return Fault(WriterFailed);
        }
        if n == 0 {
          return Fault(ShortWrite);
        }
      }
      return Fine;
    }
  }

  /** Stores the k low-order bytes of v at off, most significant first. */
  method Put(h: array<Byte>, off: nat, v: nat, k: nat)
    requires off + k <= h.Length
    modifies h
    ensures forall i :: 0 <= i < k ==> h[off + i] == BigEndian(v, k)[i]
    ensures forall i :: 0 <= i < h.Length && !(off <= i < off + k) ==> h[i] == old(h[i])
  {
    var i: nat, x: nat := k, v;
    while i > 0
      invariant i <= k
      invariant BigEndian(v, k) == BigEndian(x, i) + h[off + i..off + k]
      invariant forall j :: 0 <= j < h.Length && !(off <= j < off + k) ==> h[j] == old(h[j])
    {
      ghost var tail := h[off + i..off + k];
      i := i - 1;
      h[off + i] := x % 256;
      assert h[off + i..off + k] == [x % 256] + tail;
      x := x / 256;
    }
  }

  lemma HeaderPointwise(f: Frame, h: seq<Byte>)
    requires |h| == HEADER_SIZE && h[0] == f.version && h[1] == f.kind
    requires forall i :: 0 <= i < 2 ==> h[2 + i] == BigEndian(f.flags, 2)[i]
    requires forall i :: 0 <= i < 4 ==> h[4 + i] == BigEndian(f.id, 4)[i]
    requires forall i :: 0 <= i < 4 ==> h[8 + i] == BigEndian(|f.payload|, 4)[i]
    requires forall i :: 0 <= i < 4 ==> h[12 + i] == BigEndian(f.window, 4)[i]
    ensures h == Header(f)
  {
  }

  class Encoder {
    const w: Writer
    var maxPayload: int

    constructor (w: Writer)
      ensures this.w == w && maxPayload == MAX_PAYLOAD
    {
      this.w := w;
      maxPayload := MAX_PAYLOAD;
    }

    /** The header buffer is filled field by field in place. */
    method FillHeader(f: Frame) returns (h: seq<Byte>)
      requires |f.payload| <= MAX_PAYLOAD
      ensures h == Header(f)
    {
      var b := new Byte[16];
      b[0], b[1] := f.version, f.kind;
      Put(b, 2, f.flags, 2);
      Put(b, 4, f.id, 4);
      Put(b, 8, |f.payload|, 4);
      Put(b, 12, f.window, 4);
      h := b[..];
      HeaderPointwise(f, h);
    }

    /**
     * A frame that is too large or invalid writes nothing; a benign writer gets exactly the
     * encoding; any failure leaves a prefix of it on the wire.
     */
    method WriteFrame(f: Frame) returns (s: Status)
      modifies this, w
      ensures maxPayload == if old(maxPayload) <= 0 then MAX_PAYLOAD else old(maxPayload)
      ensures old(w.out) <= w.out && w.out[|old(w.out)|..] <= Encode(f)
      ensures !Sendable(old(maxPayload), f) ==> s.Fault? && w.out == old(w.out)
      ensures s == Fine ==> w.out == old(w.out) + Encode(f)
      ensures Sendable(old(maxPayload), f) && Benign(old(w.script)) ==> s == Fine
      ensures Benign(old(w.script)) ==> Benign(w.script)
    {
      if maxPayload <= 0 {
        maxPayload := MAX_PAYLOAD;
      }
      if |f.payload| > maxPayload {
        return Fault(PayloadTooLarge);
      }
      var v := Validate(f);
      if v.Fault? {
        return v;
      }
      var h := FillHeader(f);
      s := w.WriteFull(h);
      Assoc(old(w.out), h, f.payload);
      if s.Fault? {
        return;
      }
      if |f.payload| > 0 {
        s := w.WriteFull(f.payload);
      }
    }

    /** Frames written one after the other over any benign writer put exactly their encodings on the wire. */
    method WriteFrames(fs: seq<Frame>) returns (s: Status)
      requires Benign(w.script) && forall f :: f in fs ==> Sendable(maxPayload, f)
      modifies this, w
      ensures s == Fine && w.out == old(w.out) + EncodeAll(fs)
    {
      s := Fine;
      var max := maxPayload;
      for i := 0 to |fs|
        invariant Limit(maxPayload) == Limit(max)
        invariant s == Fine && Benign(w.script) && w.out == old(w.out) + EncodeAll(fs[..i])
      {
        assert fs[i] in fs;
        ghost var sent := fs[..i];
        s := WriteFrame(fs[i]);
        EncodeAllSnoc(sent, fs[i]);
        Assoc(old(w.out), EncodeAll(sent), Encode(fs[i]));
        assert fs[..i + 1] == sent + [fs[i]];
      }
      assert fs[..|fs|] == fs;
    }
  }

  lemma {:induction false} EncodeAllSnoc(fs: seq<Frame>, f: Frame)
    ensures EncodeAll(fs + [f]) == EncodeAll(fs) + Encode(f)
  {
    if fs == [] {
      assert fs + [f] == [f] && [f][1..] == [];
    } else {
      assert (fs + [f])[1..] == fs[1..] + [f];
      EncodeAllSnoc(fs[1..], f);
    }
  }

  // ---------------------------------------------------------------------------
  // The decoder over a reader
  // ---------------------------------------------------------------------------

  class Decoder {
    /** Input not yet read; reads block until it is available, so only its contents matter. */
    var input: seq<Byte>
    var maxPayload: int

    constructor (input: seq<Byte>)
      ensures this.input == input && maxPayload == MAX_PAYLOAD
    {
      this.input := input;
      maxPayload := MAX_PAYLOAD;
    }

    /** Fills a buffer of n bytes, or fails after taking what little there was. */
    method ReadFull(n: nat) returns (s: Status, b: seq<Byte>)
      modifies this`input
      ensures n <= |old(input)| ==> s == Fine && b + input == old(input) && |b| == n
      ensures n > |old(input)| ==> s == Fault(if old(input) == [] then Eof else UnexpectedEof) && input == []
    {
      if n <= |input| {
        s, b := Fine, input[..n];
        input := input[n..];
      } else {
        s, b := Fault(if input == [] then Eof else UnexpectedEof), input;
        input := [];
      }
    }

    method ReadFrame() returns (d: Decoded)
      modifies this`input
      ensures d == Decode(maxPayload, old(input)) && input == d.rest
    {
      var limit := maxPayload;
      if limit <= 0 || limit > MAX_PAYLOAD {
        limit := MAX_PAYLOAD;
      }
      var s, h := ReadFull(HEADER_SIZE);
      if s.Fault? {
        return Failed(s.error, input);
      }
      assert old(input)[..HEADER_SIZE] == h && old(input)[HEADER_SIZE..] == input;
      var n := Value(h[8..12]);
      if h[0] != CURRENT_VERSION {
        return Failed(UnsupportedVersion, input);
      }
      if !KnownType(h[1]) {
        return Failed(UnknownFrameType, input);
      }
      if n > limit {
        return Failed(PayloadTooLarge, input);
      }
      if IsMetadata(h[1]) && n > MAX_METADATA_PAYLOAD {
        return Failed(PayloadTooLarge, input);
      }
      var payload := [];
      ghost var tail := input;
      if n > 0 {
        s, payload := ReadFull(n);
        if s.Fault? {
          return Failed(s.error, input);
        }
      }
      assert payload == tail[..n] && input == tail[n..];
      var f := FrameOf(h, payload);
      var v := Validate(f);
      if v.Fault? {
        return Failed(v.error, input);
      }
      return Got(f, input);
    }

    /** Reading until the first error produces the reference transcript. */
    method ReadFrames() returns (fs: seq<Frame>, e: Error)
      modifies this`input
      ensures Transcript(fs, e, input) == DecodeAll(maxPayload, old(input))
    {
      fs := [];
      while true
        invariant DecodeAll(maxPayload, old(input)) == Prepend(fs, DecodeAll(maxPayload, input))
        decreases |input|
      {
        DecodeConsumes(maxPayload, input);
        var d := ReadFrame();
        if d.Failed? {
          assert fs + [] == fs;
          return fs, d.error;
        }
        PrependTwice(fs, [d.frame], DecodeAll(maxPayload, input));
        fs := fs + [d.frame];
      }
    }
  }
}
