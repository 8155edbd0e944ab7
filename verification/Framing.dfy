/** Big-endian integers over bytes, as DataView reads and writes them. */
module Bytes {
  type Byte = b: int | 0 <= b < 256

  type Blob = seq<Byte>

  const U16_MODULUS := 0x1_0000
  const U32_MODULUS := 0x1_0000_0000

  /** `n >>> 0`. */
  function Wrap32(n: int): (r: nat)
    ensures r < U32_MODULUS
  {
    n % 0x1_0000_0000
  }

  function ReadU16(b: Blob, off: nat): nat
    requires off + 2 <= |b|
  {
    b[off] as int * 256 + b[off + 1]
  }

  function ReadU32(b: Blob, off: nat): (n: nat)
    requires off + 4 <= |b|
    ensures n < U32_MODULUS
  {
    ((b[off] as int * 256 + b[off + 1]) * 256 + b[off + 2]) * 256 + b[off + 3]
  }

  function PutU16(n: nat): (b: Blob)
    requires n < U16_MODULUS
    ensures |b| == 2 && ReadU16(b, 0) == n
  {
    [n / 256, n % 256]
  }

  function PutU32(n: nat): (b: Blob)
    requires n < U32_MODULUS
    ensures |b| == 4 && ReadU32(b, 0) == n
  {
    var hi := n / 256 / 256;
    assert hi < 0x1_0000 && n / 256 < 0x100_0000;
    [hi / 256, hi % 256, n / 256 % 256, n % 256]
  }

  lemma DivModStep(q: int, r: Byte)
    ensures (q * 256 + r) / 256 == q && (q * 256 + r) % 256 == r
  {
  }

  lemma PutReadBack(b: Blob)
    requires |b| == 4
    ensures PutU32(ReadU32(b, 0)) == b
  {
    var q1 := b[0] as int * 256 + b[1];
    var q2 := q1 * 256 + b[2];
    DivModStep(b[0], b[1]);
    DivModStep(q1, b[2]);
    DivModStep(q2, b[3]);
    assert q2 * 256 + b[3] == ReadU32(b, 0);
  }

  lemma PutReadBack16(b: Blob)
    requires |b| == 2
    ensures PutU16(ReadU16(b, 0)) == b
  {
  }
}

/**
 * The data-plane frame format and its streaming decoder
 * (packages/protocol/src/framing.ts).
 */
module Framing {
  import opened Prelude
  import opened Bytes

  const FRAME_MAGIC: Byte := 0xCC
  const OFF_SEQ := 1
  const OFF_PAYLEN := 5
  const OFF_IDLEN := 9
  const OFF_PANEID := 11
  const MIN_HEADER_BYTES := 11
  const MAX_FRAME := 8_388_608

  /** A pane id is carried as its UTF-8 bytes. */
  datatype DataFrame = DataFrame(paneId: Blob, seqNo: nat, payload: Blob)

  datatype FrameError =
    | IdTooLong        // encode: id over 65535 bytes
    | PayloadTooLong   // encode: payload over 4294967295 bytes
    | ShortHeader      // decode: fewer than 11 bytes
    | BadMagic         // decode: first byte is not 0xCC
    | Oversized        // decode: PAYLEN over MAX_FRAME
    | ShortBody        // decode: header announces more bytes than there are

  // ---------------------------------------------------------------------
  // Encoding
  // ---------------------------------------------------------------------

  predicate Encodable(id: Blob, payload: Blob) {
    |id| <= 0xffff && |payload| <= 0xffff_ffff
  }

  /** The layout table of the frame format. `seqNo >>> 0` is `% 2^32`. */
  function FrameBytes(id: Blob, seqNo: int, payload: Blob): (b: Blob)
    requires Encodable(id, payload)
    ensures |b| == MIN_HEADER_BYTES + |id| + |payload|
  {
    [FRAME_MAGIC] + PutU32(Wrap32(seqNo)) + PutU32(|payload|) + PutU16(|id|) + id + payload
  }

  /** What `encodeFrame` promises: the frame, or the RangeError it throws. */
  function EncodeResult(id: Blob, seqNo: int, payload: Blob): Result<Blob, FrameError> {
    if |id| > 0xffff then Failure(IdTooLong)
    else if |payload| > 0xffff_ffff then Failure(PayloadTooLong)
    else Success(FrameBytes(id, seqNo, payload))
  }

  /** `frame.set(src, off)`: overwrite a stretch of the array, leave the rest. */
  method SetBytes(frame: array<Byte>, src: Blob, off: nat)
    requires off + |src| <= frame.Length
    modifies frame
    ensures frame[..off + |src|] == old(frame[..off]) + src
    ensures frame[off + |src|..] == old(frame[off + |src|..])
  {
    for i := 0 to |src|
      invariant frame[..off] == old(frame[..off])
      invariant frame[off..off + i] == src[..i]
      invariant frame[off + i..] == old(frame[off + i..])
    {
      frame[off + i] := src[i];
    }
    assert frame[..off + |src|] == frame[..off] + frame[off..off + |src|];
  }

  method EncodeFrame(id: Blob, seqNo: int, payload: Blob) returns (r: Result<Blob, FrameError>)
    ensures r == EncodeResult(id, seqNo, payload)
  {
    if |id| > 0xffff {
      return Failure(IdTooLong);
    }
    if |payload| > 0xffff_ffff {
      return Failure(PayloadTooLong);
    }
    var frameLen := MIN_HEADER_BYTES + |id| + |payload|;
    var frame := new Byte[frameLen](i => 0);
    frame[0] := FRAME_MAGIC;
    assert frame[..OFF_SEQ] == [FRAME_MAGIC];
    SetBytes(frame, PutU32(Wrap32(seqNo)), OFF_SEQ);
    SetBytes(frame, PutU32(|payload|), OFF_PAYLEN);
    SetBytes(frame, PutU16(|id|), OFF_IDLEN);
    SetBytes(frame, id, OFF_PANEID);
    SetBytes(frame, payload, OFF_PANEID + |id|);
    assert frame[..] == frame[..frameLen];
    r := Success(frame[..]);
  }

  // ---------------------------------------------------------------------
  // Decoding one frame
  // ---------------------------------------------------------------------

  /** Length of the frame whose header starts `buf`. */
  function FrameLength(buf: Blob): nat
    requires |buf| >= MIN_HEADER_BYTES
  {
    MIN_HEADER_BYTES + ReadU16(buf, OFF_IDLEN) + ReadU32(buf, OFF_PAYLEN)
  }

  /** `decodeFrame`: bytes after the frame are ignored. */
  function DecodeFrame(buf: Blob): Result<DataFrame, FrameError> {
    if |buf| < MIN_HEADER_BYTES then Failure(ShortHeader)
    else if buf[0] != FRAME_MAGIC then Failure(BadMagic)
    else if ReadU32(buf, OFF_PAYLEN) > MAX_FRAME then Failure(Oversized)
    else if |buf| < FrameLength(buf) then Failure(ShortBody)
    else
      var idEnd := OFF_PANEID + ReadU16(buf, OFF_IDLEN);
      Success(DataFrame(buf[OFF_PANEID..idEnd], ReadU32(buf, OFF_SEQ), buf[idEnd..FrameLength(buf)]))
  }

  lemma HeaderFields(id: Blob, seqNo: int, payload: Blob, more: Blob)
    requires Encodable(id, payload)
    ensures var b := FrameBytes(id, seqNo, payload) + more;
      && b[0] == FRAME_MAGIC
      && ReadU32(b, OFF_SEQ) == Wrap32(seqNo)
      && ReadU32(b, OFF_PAYLEN) == |payload|
      && ReadU16(b, OFF_IDLEN) == |id|
      && FrameLength(b) == |FrameBytes(id, seqNo, payload)|
      && b[OFF_PANEID..OFF_PANEID + |id|] == id
      && b[OFF_PANEID + |id|..FrameLength(b)] == payload
  {
    var b := FrameBytes(id, seqNo, payload) + more;
    var s, p, i := PutU32(Wrap32(seqNo)), PutU32(|payload|), PutU16(|id|);
    assert b == [FRAME_MAGIC] + s + p + i + id + payload + more;
    assert b[1..5] == s && b[5..9] == p && b[9..11] == i;
    assert forall k | 0 <= k < 4 :: b[1 + k] == b[1..5][k] && b[5 + k] == b[5..9][k];
    assert forall k | 0 <= k < 2 :: b[9 + k] == b[9..11][k];
  }

  /** The layout in plain bytes: magic, then sequence number, payload length and id length, high bytes first. */
  lemma FrameLayout(id: Blob, seqNo: int, payload: Blob)
    requires Encodable(id, payload)
    ensures var b := FrameBytes(id, seqNo, payload);
      && |b| == 11 + |id| + |payload| && b[0] == 0xCC
      && b[1] as int * 0x100_0000 + b[2] as int * 0x1_0000 + b[3] as int * 0x100 + b[4] == seqNo % 0x1_0000_0000
      && b[5] as int * 0x100_0000 + b[6] as int * 0x1_0000 + b[7] as int * 0x100 + b[8] == |payload|
      && b[9] as int * 0x100 + b[10] == |id|
      && b[11..11 + |id|] == id && b[11 + |id|..] == payload
  {
    HeaderFields(id, seqNo, payload, []);
    assert FrameBytes(id, seqNo, payload) + [] == FrameBytes(id, seqNo, payload);
  }

  /**
   * Encoding then decoding gives the frame back, with whatever follows it on
   * the stream ignored, exactly when the payload is under the decoder's cap:
   * the encoder accepts payloads up to 4 GiB, the decoder only up to 8 MiB.
   */
  lemma FrameRoundTrip(id: Blob, seqNo: int, payload: Blob, more: Blob)
    requires Encodable(id, payload)
    ensures DecodeFrame(FrameBytes(id, seqNo, payload) + more)
         == if |payload| <= MAX_FRAME
            then Success(DataFrame(id, Wrap32(seqNo), payload))
            else Failure(Oversized)
  {
    HeaderFields(id, seqNo, payload, more);
  }

  /** The other direction: only the frame's own encoding decodes to it. */
  lemma DecodeIsInverse(buf: Blob)
    requires DecodeFrame(buf).Success?
    ensures var f := DecodeFrame(buf).value;
      && Encodable(f.paneId, f.payload)
      && |f.payload| <= MAX_FRAME
      && f.seqNo < U32_MODULUS
      && FrameLength(buf) == |FrameBytes(f.paneId, f.seqNo, f.payload)| <= |buf|
      && buf[..FrameLength(buf)] == FrameBytes(f.paneId, f.seqNo, f.payload)
  {
    var f := DecodeFrame(buf).value;
    var n := FrameLength(buf);
    assert |f.paneId| == ReadU16(buf, OFF_IDLEN) && |f.payload| == ReadU32(buf, OFF_PAYLEN);
    assert buf[..n] == buf[0..1] + buf[1..5] + buf[5..9] + buf[9..11] + f.paneId + f.payload;
    PutReadBack(buf[1..5]);
    PutReadBack(buf[5..9]);
    PutReadBack16(buf[9..11]);
    assert ReadU32(buf[1..5], 0) == f.seqNo && ReadU32(buf[5..9], 0) == |f.payload|;
    assert ReadU16(buf[9..11], 0) == |f.paneId|;
    assert Wrap32(f.seqNo) == f.seqNo;
  }

  /** What a decoder may conclude from a prefix it also concludes from more bytes. */
  lemma DecodeStable(a: Blob, b: Blob)
    requires DecodeFrame(a) != Failure(ShortHeader) && DecodeFrame(a) != Failure(ShortBody)
    ensures DecodeFrame(a + b) == DecodeFrame(a)
    ensures FrameLength(a + b) == FrameLength(a)
    ensures DecodeFrame(a).Success? ==> FrameLength(a) <= |a|
  {
    assert (a + b)[..11] == a[..11];
    assert forall i | 0 <= i < 11 :: (a + b)[i] == a[..11][i];
    if DecodeFrame(a).Success? {
      var n, e := FrameLength(a), OFF_PANEID + ReadU16(a, OFF_IDLEN);
      assert (a + b)[OFF_PANEID..e] == a[OFF_PANEID..e] && (a + b)[e..n] == a[e..n];
    }
  }

  // ---------------------------------------------------------------------
  // Decoding a stream: the flat reference
  // ---------------------------------------------------------------------

  datatype Drained = Drained(frames: seq<DataFrame>, rest: Blob, error: Option<FrameError>)

  /** Decode frame after frame off the front until the bytes run short or are bad. */
  function Drain(buf: Blob): (d: Drained)
    ensures |d.rest| <= |buf|
    decreases |buf|
  {
    match DecodeFrame(buf)
    case Success(f) =>
      var d := Drain(buf[FrameLength(buf)..]);
      d.(frames := [f] + d.frames)
    case Failure(ShortHeader) => Drained([], buf, None)
    case Failure(ShortBody) => Drained([], buf, None)
    case Failure(e) => Drained([], buf, Some(e))
  }

  /** Drain what is left of `d`, and more, behind the frames already out. */
  function Resume(d: Drained, more: Blob): Drained {
    if d.error.Some? then d.(rest := d.rest + more)
    else var e := Drain(d.rest + more); e.(frames := d.frames + e.frames)
  }

  /** Stopping in the middle of the bytes and going on later changes nothing. */
  lemma {:induction false} DrainSplit(a: Blob, b: Blob)
    ensures Drain(a + b) == Resume(Drain(a), b)
    decreases |a|
  {
    match DecodeFrame(a)
    case Success(f) =>
      DecodeStable(a, b);
      var n := FrameLength(a);
      assert (a + b)[n..] == a[n..] + b;
      DrainSplit(a[n..], b);
      assert [f] + (Drain(a[n..]).frames + Drain(Drain(a[n..]).rest + b).frames)
          == [f] + Drain(a[n..]).frames + Drain(Drain(a[n..]).rest + b).frames;
    case Failure(e) =>
      if e != ShortHeader && e != ShortBody {
        DecodeStable(a, b);
      } else {
        assert Drain(a) == Drained([], a, None);
        assert [] + Drain(a + b).frames == Drain(a + b).frames;
      }
  }

  /** Feed chunks one at a time, as `push` is called. */
  function Feed(d: Drained, chunks: seq<Blob>): Drained
    decreases |chunks|
  {
    if chunks == [] then d else Feed(Resume(d, chunks[0]), chunks[1..])
  }

  const FRESH := Drained([], [], None)

  lemma {:induction false} FeedFrom(prefix: Blob, chunks: seq<Blob>)
    ensures Feed(Drain(prefix), chunks) == Drain(prefix + Flatten(chunks))
    decreases |chunks|
  {
    if chunks == [] {
      assert prefix + Flatten(chunks) == prefix;
    } else {
      DrainSplit(prefix, chunks[0]);
      FeedFrom(prefix + chunks[0], chunks[1..]);
      assert prefix + chunks[0] + Flatten(chunks[1..]) == prefix + Flatten(chunks);
    }
  }

  /** However the stream is cut into chunks, the outcome is that of the whole. */
  lemma ChunkingIndependence(chunks: seq<Blob>)
    ensures Feed(FRESH, chunks) == Drain(Flatten(chunks))
  {
    hide Feed;
    assert Drain([]) == FRESH;
    hide Drain;
    FeedFrom([], chunks);
    assert [] + Flatten(chunks) == Flatten(chunks);
  }

  // ---------------------------------------------------------------------
  // Streams written by the encoder
  // ---------------------------------------------------------------------

  predicate Sendable(f: DataFrame) {
    Encodable(f.paneId, f.payload) && |f.payload| <= MAX_FRAME && f.seqNo < U32_MODULUS
  }

  function Encoded(f: DataFrame): (b: Blob)
    requires Sendable(f)
    ensures |b| >= MIN_HEADER_BYTES
  {
    FrameBytes(f.paneId, f.seqNo, f.payload)
  }

  function Stream(fs: seq<DataFrame>): Blob
    requires forall f <- fs :: Sendable(f)
  {
    if fs == [] then [] else Encoded(fs[0]) + Stream(fs[1..])
  }

  /** A frame cut short is recognised as cut short. */
  lemma StrictPrefixWaits(f: DataFrame, cut: Blob)
    requires Sendable(f) && cut < Encoded(f)
    ensures Drain(cut) == Drained([], cut, None)
  {
    if |cut| >= MIN_HEADER_BYTES {
      HeaderFields(f.paneId, f.seqNo, f.payload, []);
      var b := Encoded(f);
      assert b + [] == b;
      assert cut[..11] == b[..11];
      assert forall i | 0 <= i < 11 :: cut[i] == b[..11][i];
      assert DecodeFrame(cut) == Failure(ShortBody);
    }
  }

  lemma DrainEncoded(f: DataFrame, more: Blob)
    requires Sendable(f)
    ensures Drain(Encoded(f) + more) == Drain(more).(frames := [f] + Drain(more).frames)
  {
    hide ReadU32, ReadU16, PutU32, PutU16, FrameBytes, DecodeFrame, FrameLength;
    var b := Encoded(f) + more;
    assert DecodeFrame(b) == Success(f) by {
      FrameRoundTrip(f.paneId, f.seqNo, f.payload, more);
    }
    assert FrameLength(b) == |Encoded(f)| by {
      HeaderFields(f.paneId, f.seqNo, f.payload, more);
    }
    assert b[|Encoded(f)|..] == more;
  }

  /**
   * Any part of a stream of encoded frames, cut anywhere and delivered in any
   * chunks, gives the frames that are complete and leaves a strict prefix of
   * the next one.
   */
  lemma {:induction false} StreamDecodes(fs: seq<DataFrame>, k: nat, cut: Blob)
    requires forall f <- fs :: Sendable(f)
    requires k <= |fs|
    requires if k < |fs| then cut < Encoded(fs[k]) else cut == []
    ensures Drain(Stream(fs[..k]) + cut) == Drained(fs[..k], cut, None)
    decreases k
  {
    hide ReadU32, ReadU16, PutU32, PutU16, FrameBytes;
    if k == 0 {
      assert Stream(fs[..0]) + cut == cut;
      if fs != [] {
        StrictPrefixWaits(fs[0], cut);
      }
    } else {
      var f, tail := fs[0], fs[1..];
      assert fs[..k][1..] == tail[..k - 1];
      assert Stream(fs[..k]) + cut == Encoded(f) + (Stream(tail[..k - 1]) + cut);
      DrainEncoded(f, Stream(tail[..k - 1]) + cut);
      StreamDecodes(tail, k - 1, cut);
      assert [f] + tail[..k - 1] == fs[..k];
    }
  }

  lemma ChunkedStreamDecodes(fs: seq<DataFrame>, k: nat, cut: Blob, chunks: seq<Blob>)
    requires forall f <- fs :: Sendable(f)
    requires k <= |fs|
    requires if k < |fs| then cut < Encoded(fs[k]) else cut == []
    requires Flatten(chunks) == Stream(fs[..k]) + cut
    ensures Feed(FRESH, chunks) == Drained(fs[..k], cut, None)
  {
    hide Drain, Feed;
    ChunkingIndependence(chunks);
    StreamDecodes(fs, k, cut);
  }

  // ---------------------------------------------------------------------
  // What successive pushes hand out
  // ---------------------------------------------------------------------

  /** A decoder after some pushes: bytes kept, frames returned so far, and whether a push threw. */
  datatype Pushed = Pushed(rest: Blob, handedOut: seq<DataFrame>, failed: bool)

  /** A push that meets a bad header returns nothing: what it had decoded itself is gone. */
  function PushOne(p: Pushed, chunk: Blob): Pushed {
    if chunk == [] then p
    else
      var d := Drain(p.rest + chunk);
      if d.error.Some? then Pushed(d.rest, p.handedOut, true)
      else Pushed(d.rest, p.handedOut + d.frames, p.failed)
  }

  function PushAll(chunks: seq<Blob>): Pushed {
    if chunks == [] then Pushed([], [], false)
    else PushOne(PushAll(chunks[..|chunks| - 1]), chunks[|chunks| - 1])
  }

  /** No push that met a bad header had completed a frame before it. */
  predicate NoneMissed(chunks: seq<Blob>) {
    forall k | 0 <= k < |chunks| :: Completes(PushAll(chunks[..k]).rest, chunks[k])
  }

  /** Whether the push throws with nothing to lose, or does not throw: to be seen from the buffered bytes and the chunk. */
  predicate Completes(buffered: Blob, chunk: Blob) {
    var d := Drain(buffered + chunk);
    chunk != [] && d.error.Some? ==> d.frames == []
  }

  lemma NoneMissedStep(front: seq<Blob>, chunk: Blob)
    ensures NoneMissed(front + [chunk]) <==> NoneMissed(front) && Completes(PushAll(front).rest, chunk)
  {
    hide Completes, PushAll;
    var all := front + [chunk];
    assert all[..|front|] == front && all[|front|] == chunk;
    assert forall k | 0 <= k < |front| :: all[..k] == front[..k] && all[k] == front[k];
  }

  /** A bad header stays at the front, and nothing decodes past it. */
  lemma BadStaysBad(all: Blob, chunk: Blob)
    requires Drain(all).error.Some?
    ensures Drain(Drain(all).rest + chunk) == Drained([], Drain(all).rest + chunk, Drain(all).error)
    ensures Drain(all + chunk) == Drain(all).(rest := Drain(all).rest + chunk)
    decreases |all|
  {
    DrainSplit(all, chunk);
    if DecodeFrame(all).Success? {
      BadStaysBad(all[FrameLength(all)..], chunk);
    } else {
      DecodeStable(all, chunk);
    }
  }

  /**
   * Over any sequence of pushes: the bytes kept and whether a push threw are
   * those of the concatenated bytes, the frames handed out are its first ones,
   * and they are all of them if and only if the push that met the bad header,
   * if one did, had completed no frame of its own.
   */
  lemma {:induction false} PushesHandOut(chunks: seq<Blob>)
    ensures var p, d := PushAll(chunks), Drain(Flatten(chunks));
      && p.rest == d.rest && (p.failed <==> d.error.Some?)
      && p.handedOut <= d.frames && (!p.failed ==> p.handedOut == d.frames)
      && (p.handedOut == d.frames <==> NoneMissed(chunks))
  {
    if chunks == [] {
      assert Drain([]) == FRESH;
    } else {
      var k := |chunks| - 1;
      var front, chunk := chunks[..k], chunks[k];
      assert chunks == front + [chunk];
      PushesHandOut(front);
      FlattenAppend(front, chunk);
      NoneMissedStep(front, chunk);
      PushStep(PushAll(front), Flatten(front), chunk);
      hide Drain, NoneMissed, Completes, PushOne;
    }
  }

  lemma PushStep(p: Pushed, all: Blob, chunk: Blob)
    requires p.rest == Drain(all).rest && (p.failed <==> Drain(all).error.Some?)
    requires p.handedOut <= Drain(all).frames && (!p.failed ==> p.handedOut == Drain(all).frames)
    ensures var q, d := PushOne(p, chunk), Drain(all + chunk);
      && q.rest == d.rest && (q.failed <==> d.error.Some?)
      && q.handedOut <= d.frames && (!q.failed ==> q.handedOut == d.frames)
      && (q.handedOut == d.frames <==> p.handedOut == Drain(all).frames && Completes(p.rest, chunk))
  {
    if chunk == [] {
      assert all + chunk == all;
    } else if p.failed {
      BadStaysBad(all, chunk);
      hide Drain;
    } else {
      DrainSplit(all, chunk);
      hide Drain;
      var more := Drain(p.rest + chunk).frames;
      assert |p.handedOut + more| == |p.handedOut| + |more|;
      assert more == [] ==> p.handedOut + more == p.handedOut;
    }
  }

  lemma EmptyAndBad(bad: Blob)
    requires |bad| >= MIN_HEADER_BYTES && bad[0] != FRAME_MAGIC
    ensures Drain([]) == FRESH && Drain(bad) == Drained([], bad, Some(BadMagic))
  {
  }

  lemma PushFirst(chunk: Blob)
    ensures PushAll([chunk]) == PushOne(Pushed([], [], false), chunk)
    ensures [] + chunk == chunk
  {
    assert [chunk][..0] == [];
  }

  lemma PushSecond(first: Blob, second: Blob)
    ensures PushAll([first, second]) == PushOne(PushAll([first]), second)
  {
    assert [first, second][..1] == [first];
  }

  /**
   * The same bytes in two cuts: together with a bad header a frame is lost, in
   * a push of its own it is handed out.
   */
  lemma CutDecides(f: DataFrame, bad: Blob)
    requires Sendable(f) && |bad| >= MIN_HEADER_BYTES && bad[0] != FRAME_MAGIC
    ensures PushAll([Encoded(f) + bad]).handedOut == []
    ensures PushAll([Encoded(f), bad]).handedOut == [f]
  {
    DrainEncoded(f, bad);
    DrainEncoded(f, []);
    EmptyAndBad(bad);
    PushFirst(Encoded(f) + bad);
    PushFirst(Encoded(f));
    PushSecond(Encoded(f), bad);
    hide Drain, Encoded, PushAll;
    assert Encoded(f) + [] == Encoded(f) && [] + bad == bad;
  }

  // ---------------------------------------------------------------------
  // The streaming decoder over a list of chunks
  // ---------------------------------------------------------------------

  predicate NoEmpty(chunks: seq<Blob>) {
    forall i | 0 <= i < |chunks| :: chunks[i] != []
  }

  lemma SomeChunk(chunks: seq<Blob>)
    requires |Flatten(chunks)| > 0
    ensures chunks != []
  {
  }

  lemma FlattenFirst(chunks: seq<Blob>, n: nat)
    requires chunks != [] && n <= |chunks[0]|
    ensures n <= |chunks[0]| <= |Flatten(chunks)|
    ensures Flatten(chunks)[..n] == chunks[0][..n]
    ensures Flatten([chunks[0][n..]] + chunks[1..]) == Flatten(chunks)[n..]
    ensures Flatten(chunks[1..]) == Flatten(chunks)[|chunks[0]|..]
  {
    var first, tail := chunks[0], chunks[1..];
    var cs := [first[n..]] + tail;
    assert cs[1..] == tail;
    assert Flatten(chunks) == first + Flatten(tail) && Flatten(cs) == first[n..] + Flatten(tail);
    hide Flatten;
    var rest := Flatten(tail);
    assert (first + rest)[n..] == first[n..] + rest;
    assert (first + rest)[|first|..] == rest;
  }

  /** Moving the first chunk, or its front, from the buffer to the output loses nothing. */
  lemma Consume(all: Blob, out: Blob, chunks: seq<Blob>)
    requires chunks != [] && all == out + Flatten(chunks)
    ensures all == (out + chunks[0]) + Flatten(chunks[1..])
    ensures out == [] ==> all == chunks[0] + Flatten(chunks[1..])
  {
  }

  lemma ConsumePart(all: Blob, out: Blob, chunks: seq<Blob>, n: nat)
    requires chunks != [] && n < |chunks[0]| && all == out + Flatten(chunks)
    ensures all == (out + chunks[0][..n]) + Flatten([chunks[0][n..]] + chunks[1..])
    ensures out == [] ==> all == chunks[0][..n] + Flatten([chunks[0][n..]] + chunks[1..])
  {
    FlattenFirst(chunks, n);
    hide Flatten;
    var rest := Flatten(chunks);
    assert rest == rest[..n] + rest[n..];
  }

  /** The header fields can be read off any prefix that holds the header. */
  lemma PrefixFields(a: Blob, b: Blob)
    requires |a| >= MIN_HEADER_BYTES && a <= b
    ensures a[0] == b[0]
    ensures ReadU32(a, OFF_SEQ) == ReadU32(b, OFF_SEQ)
    ensures ReadU32(a, OFF_PAYLEN) == ReadU32(b, OFF_PAYLEN)
    ensures ReadU16(a, OFF_IDLEN) == ReadU16(b, OFF_IDLEN)
  {
    assert forall i | 0 <= i < 11 :: a[i] == b[i];
  }

  lemma FrameFromBytes(buf: Blob, frameBytes: Blob)
    requires |buf| >= MIN_HEADER_BYTES && buf[0] == FRAME_MAGIC
    requires ReadU32(buf, OFF_PAYLEN) <= MAX_FRAME && FrameLength(buf) <= |buf|
    requires frameBytes == buf[..FrameLength(buf)]
    ensures var idEnd := OFF_PANEID + ReadU16(buf, OFF_IDLEN);
      DecodeFrame(buf) == Success(DataFrame(
        frameBytes[OFF_PANEID..idEnd],
        ReadU32(frameBytes, OFF_SEQ),
        frameBytes[idEnd..idEnd + ReadU32(buf, OFF_PAYLEN)]))
  {
    var n, idEnd := FrameLength(buf), OFF_PANEID + ReadU16(buf, OFF_IDLEN);
    PrefixFields(frameBytes, buf);
    assert frameBytes[OFF_PANEID..idEnd] == buf[OFF_PANEID..idEnd];
    assert frameBytes[idEnd..n] == buf[idEnd..n];
  }

  /** Frames out so far, followed by what the buffer still holds, are those of the whole. */
  ghost predicate CaughtUp(all: Blob, frames: seq<DataFrame>, buf: Blob) {
    Drain(all) == Drain(buf).(frames := frames + Drain(buf).frames)
  }

  lemma CaughtUpStep(all: Blob, frames: seq<DataFrame>, buf: Blob)
    requires CaughtUp(all, frames, buf) && DecodeFrame(buf).Success?
    ensures FrameLength(buf) <= |buf|
    ensures CaughtUp(all, frames + [DecodeFrame(buf).value], buf[FrameLength(buf)..])
  {
    var f, ahead := DecodeFrame(buf).value, Drain(buf[FrameLength(buf)..]).frames;
    assert frames + ([f] + ahead) == frames + [f] + ahead;
  }

  lemma CaughtUpEnd(all: Blob, frames: seq<DataFrame>, buf: Blob)
    requires CaughtUp(all, frames, buf) && DecodeFrame(buf).Failure?
    ensures Drain(all).rest == buf
    ensures DecodeFrame(buf).error in {ShortHeader, ShortBody} ==> Drain(all).frames == frames && Drain(all).error == None
    ensures DecodeFrame(buf).error !in {ShortHeader, ShortBody} ==> Drain(all).error == Some(DecodeFrame(buf).error)
  {
  }

  class FrameDecoder {
    var chunks: seq<Blob>
    var bufferedLen: nat
    ghost var pushes: seq<Blob>            // every chunk pushed so far
    ghost var handedOut: seq<DataFrame>    // every frame returned so far

    constructor ()
      ensures Valid() && Buffered() == [] && pushes == [] && handedOut == []
    {
      chunks, bufferedLen, pushes, handedOut := [], 0, [], [];
    }

    /** Every chunk holds bytes and the running total is right. */
    ghost predicate Tidy()
      reads this`chunks, this`bufferedLen
    {
      bufferedLen == |Flatten(chunks)| && NoEmpty(chunks)
    }

    /** And bytes kept and frames returned are those the pushes determine. */
    ghost predicate Valid()
      reads this
    {
      && Tidy()
      && Buffered() == PushAll(pushes).rest
      && handedOut == PushAll(pushes).handedOut
    }

    ghost function Buffered(): Blob
      reads this`chunks
    {
      Flatten(chunks)
    }

    /** `_peekBytes`: the front of the buffer, not consumed. */
    method PeekBytes(n: nat) returns (out: Blob)
      requires Tidy() && n <= bufferedLen
      ensures out == Buffered()[..n]
    {
      if |chunks| > 0 && |chunks[0]| >= n {
        FlattenFirst(chunks, n);
        return chunks[0][..n];
      }
      out := [];
      var i := 0;
      while i < |chunks| && |out| < n
        invariant i <= |chunks| && |out| <= n
        invariant |out| < n ==> Flatten(chunks) == out + Flatten(chunks[i..])
        invariant |out| == n ==> out == Flatten(chunks)[..n]
      {
        var chunk, needed := chunks[i], n - |out|;
        assert chunks[i..] == [chunk] + chunks[i + 1..];
        assert Flatten(chunks[i..]) == chunk + Flatten(chunks[i + 1..]);
        if |chunk| <= needed {
          out := out + chunk;
        } else {
          out := out + chunk[..needed];
        }
        i := i + 1;
      }
    }

    /** `_consumeBytes`: the front of the buffer, removed. */
    method ConsumeBytes(n: nat) returns (out: Blob)
      requires Tidy() && 0 < n <= bufferedLen
      modifies this`chunks, this`bufferedLen
      ensures Tidy()
      ensures out == old(Buffered())[..n]
      ensures Buffered() == old(Buffered())[n..]
    {
      hide Flatten;
      ghost var all := Buffered();
      bufferedLen := bufferedLen - n;
      SomeChunk(chunks);
      out := [];
      Consume(all, out, chunks);
      if |chunks[0]| == n {
        out := chunks[0];
        chunks := chunks[1..];
        return;
      }
      if |chunks[0]| > n {
        ConsumePart(all, out, chunks, n);
        out := chunks[0][..n];
        chunks := [chunks[0][n..]] + chunks[1..];
        return;
      }
      while |out| < n
        invariant |out| <= n <= |all|
        invariant bufferedLen == |all| - n
        invariant all == out + Buffered()
        invariant NoEmpty(chunks)
        decreases n - |out|
      {
        SomeChunk(chunks);
        var chunk, needed := chunks[0], n - |out|;
        if |chunk| <= needed {
          Consume(all, out, chunks);
          out := out + chunk;
          chunks := chunks[1..];
        } else {
          ConsumePart(all, out, chunks, needed);
          out := out + chunk[..needed];
          chunks := [chunk[needed..]] + chunks[1..];
        }
      }
    }

    /**
     * The body of `push`. A bad header throws: the frames decoded earlier in
     * the same call are then lost to the caller, and the bad bytes stay at the
     * front.
     */
    method DecodeChunk(chunk: Blob) returns (r: Result<seq<DataFrame>, FrameError>)
      requires Tidy()
      modifies this`chunks, this`bufferedLen
      ensures Tidy()
      ensures chunk == [] ==> r == Success([]) && Buffered() == old(Buffered())
      ensures chunk != [] ==>
        var d := Drain(old(Buffered()) + chunk);
        && Buffered() == d.rest
        && r == if d.error.Some? then Failure(d.error.value) else Success(d.frames)
    {
      hide Drain, ReadU32, ReadU16;
      if |chunk| == 0 {
        return Success([]);
      }
      ghost var all := Buffered() + chunk;
      FlattenAppend(chunks, chunk);
      chunks := chunks + [chunk];
      bufferedLen := bufferedLen + |chunk|;
      var frames: seq<DataFrame> := [];
      assert CaughtUp(all, frames, Buffered()) by {
        assert [] + Drain(all).frames == Drain(all).frames;
      }
      while bufferedLen >= MIN_HEADER_BYTES
        invariant Tidy() && CaughtUp(all, frames, Buffered())
        decreases bufferedLen
      {
        ghost var buf := Buffered();
        var header := PeekBytes(MIN_HEADER_BYTES);
        PrefixFields(header, buf);
        if header[0] != FRAME_MAGIC {
          CaughtUpEnd(all, frames, buf);
          return Failure(BadMagic);
        }
        var payLen := ReadU32(header, OFF_PAYLEN);
        var idLen := ReadU16(header, OFF_IDLEN);
        if payLen > MAX_FRAME {
          CaughtUpEnd(all, frames, buf);
          return Failure(Oversized);
        }
        var totalFrameLen := MIN_HEADER_BYTES + idLen + payLen;
        if bufferedLen < totalFrameLen {
          break;
        }
        var frameBytes := ConsumeBytes(totalFrameLen);
        var idEnd := OFF_PANEID + idLen;
        FrameFromBytes(buf, frameBytes);
        CaughtUpStep(all, frames, buf);
        var frame := DataFrame(frameBytes[OFF_PANEID..idEnd], ReadU32(frameBytes, OFF_SEQ), frameBytes[idEnd..idEnd + payLen]);
        frames := frames + [frame];
      }
      CaughtUpEnd(all, frames, Buffered());
      r := Success(frames);
    }

    /** `push`. */
    method Push(chunk: Blob) returns (r: Result<seq<DataFrame>, FrameError>)
      requires Valid()
      modifies this
      ensures Valid()
      ensures pushes == old(pushes) + [chunk]
      ensures handedOut == old(handedOut) + if r.Success? then r.value else []
      ensures chunk == [] ==> r == Success([]) && Buffered() == old(Buffered())
      ensures chunk != [] ==>
        var d := Drain(old(Buffered()) + chunk);
        && Buffered() == d.rest
        && r == if d.error.Some? then Failure(d.error.value) else Success(d.frames)
    {
      hide Drain;
      r := DecodeChunk(chunk);
      pushes := pushes + [chunk];
      assert pushes[..|pushes| - 1] == old(pushes);
      handedOut := handedOut + if r.Success? then r.value else [];
    }
  }

  /** What a decoder has handed out and keeps, in terms of all the bytes it was given. */
  lemma DecoderHandsOut(d: FrameDecoder)
    requires d.Valid()
    ensures d.Buffered() == Drain(Flatten(d.pushes)).rest
    ensures d.handedOut <= Drain(Flatten(d.pushes)).frames
    ensures d.handedOut == Drain(Flatten(d.pushes)).frames <==> NoneMissed(d.pushes)
  {
    hide Drain, NoneMissed;
    PushesHandOut(d.pushes);
  }

  /** A decoder given part of a stream of encoded frames, however cut, has handed out the complete ones. */
  lemma DecoderDecodesStream(d: FrameDecoder, fs: seq<DataFrame>, k: nat, cut: Blob)
    requires d.Valid()
    requires forall f <- fs :: Sendable(f)
    requires k <= |fs|
    requires if k < |fs| then cut < Encoded(fs[k]) else cut == []
    requires Flatten(d.pushes) == Stream(fs[..k]) + cut
    ensures d.handedOut == fs[..k] && d.Buffered() == cut && !PushAll(d.pushes).failed
  {
    hide Drain, PushAll, Encoded, Stream;
    StreamDecodes(fs, k, cut);
    PushesHandOut(d.pushes);
    NeverFailed(d.pushes);
  }

  /** Without a bad header there was nothing to miss. */
  lemma {:induction false} NeverFailed(chunks: seq<Blob>)
    ensures !PushAll(chunks).failed ==> NoneMissed(chunks)
  {
    if chunks != [] {
      hide Drain;
      var k := |chunks| - 1;
      assert chunks == chunks[..k] + [chunks[k]];
      NeverFailed(chunks[..k]);
      NoneMissedStep(chunks[..k], chunks[k]);
    }
  }
}
