/**
 * The two-plane demultiplexer over one byte stream
 * (packages/driver/src/socket-transport.ts).
 */
module SocketTransport {
  import opened Prelude
  import opened Bytes
  import opened Framing

  type PaneId = Blob

  const CTRL_LEN_SIZE := 4

  /** What the receiver cuts off the stream: a control payload, or one frame's output. */
  datatype Unit = Control(payload: Blob) | Data(paneId: PaneId, payload: Blob)

  // ---------------------------------------------------------------------
  // Reference demultiplexer over flat bytes
  // ---------------------------------------------------------------------

  datatype Cut = Wait | Broken | Take(unit: Unit, length: nat)

  /** The first byte decides the plane; the unit's own header decides its length. */
  function NextUnit(buf: Blob): (c: Cut)
    ensures c.Take? ==> 0 < c.length <= |buf|
  {
    if buf == [] then Wait
    else if buf[0] == FRAME_MAGIC then
      match DecodeFrame(buf)
      case Success(f) => Take(Data(f.paneId, f.payload), FrameLength(buf))
      case Failure(Oversized) => Broken
      case Failure(_) => Wait
    else if |buf| < CTRL_LEN_SIZE || |buf| < CTRL_LEN_SIZE + ReadU32(buf, 0) then Wait
    else
      var end := CTRL_LEN_SIZE + ReadU32(buf, 0);
      Take(Control(buf[CTRL_LEN_SIZE..end]), end)
  }

  datatype Demuxed = Demuxed(units: seq<Unit>, rest: Blob, broken: bool)

  function Demux(buf: Blob): Demuxed
    decreases |buf|
  {
    match NextUnit(buf)
    case Wait => Demuxed([], buf, false)
    case Broken => Demuxed([], buf, true)
    case Take(u, n) => var d := Demux(buf[n..]); d.(units := [u] + d.units)
  }

  function Resume(d: Demuxed, more: Blob): Demuxed {
    if d.broken then d.(rest := d.rest + more)
    else var e := Demux(d.rest + more); e.(units := d.units + e.units)
  }

  lemma NextUnitStable(a: Blob, b: Blob)
    requires NextUnit(a) != Wait
    ensures NextUnit(a + b) == NextUnit(a)
  {
    if a[0] == FRAME_MAGIC {
      DecodeStable(a, b);
    } else {
      assert (a + b)[..4] == a[..4];
      assert forall i | 0 <= i < 4 :: (a + b)[i] == a[..4][i];
      var end := CTRL_LEN_SIZE + ReadU32(a, 0);
      assert (a + b)[CTRL_LEN_SIZE..end] == a[CTRL_LEN_SIZE..end];
    }
  }

  lemma {:induction false} DemuxSplit(a: Blob, b: Blob)
    ensures Demux(a + b) == Resume(Demux(a), b)
    decreases |a|
  {
    hide NextUnit;
    match NextUnit(a)
    case Wait =>
      assert [] + Demux(a + b).units == Demux(a + b).units;
    case Broken =>
      NextUnitStable(a, b);
    case Take(u, n) =>
      NextUnitStable(a, b);
      assert (a + b)[n..] == a[n..] + b;
      DemuxSplit(a[n..], b);
      var d := Demux(a[n..]);
      assert [u] + (d.units + Demux(d.rest + b).units) == [u] + d.units + Demux(d.rest + b).units;
  }

  // ---------------------------------------------------------------------
  // What the sender writes
  // ---------------------------------------------------------------------

  /** One call of sendControl (its serialised payload) or sendData. */
  datatype Call = SendControl(payload: Blob) | SendData(paneId: PaneId, bytes: Blob)

  /** A call with the frame sequence number it consumed. */
  datatype Numbered = Numbered(call: Call, seqNo: nat)

  /** Calls the encoders do not reject. */
  predicate Writable(c: Call) {
    match c
    case SendControl(p) => |p| < U32_MODULUS
    case SendData(id, bytes) => Encodable(id, bytes)
  }

  function UnitBytes(n: Numbered): Blob {
    match n.call
    case SendControl(p) => if Writable(n.call) then PutU32(|p|) + p else []
    case SendData(id, bytes) => if Writable(n.call) then FrameBytes(id, n.seqNo, bytes) else []
  }

  function UnitsBytes(ns: seq<Numbered>): Blob {
    if ns == [] then [] else UnitBytes(ns[0]) + UnitsBytes(ns[1..])
  }

  lemma {:induction false} UnitsBytesAppend(ns: seq<Numbered>, n: Numbered)
    ensures UnitsBytes(ns + [n]) == UnitsBytes(ns) + UnitBytes(n)
  {
    if ns == [] {
      assert [n][1..] == [];
    } else {
      assert (ns + [n])[1..] == ns[1..] + [n];
      UnitsBytesAppend(ns[1..], n);
    }
  }

  /** How many of the calls were sendData for this pane. */
  function DataCalls(calls: seq<Call>, id: PaneId): nat {
    if calls == [] then 0
    else
      var last := calls[|calls| - 1];
      DataCalls(calls[..|calls| - 1], id) + if last.SendData? && last.paneId == id then 1 else 0
  }

  /** The k-th frame of a pane carries k, whatever the other panes do. */
  function NumberOf(calls: seq<Call>, i: nat): nat
    requires i < |calls|
  {
    if calls[i].SendData? then Wrap32(DataCalls(calls[..i], calls[i].paneId)) else 0
  }

  function Number(calls: seq<Call>): seq<Numbered> {
    seq(|calls|, i requires 0 <= i < |calls| => Numbered(calls[i], NumberOf(calls, i)))
  }

  function WireOf(calls: seq<Call>): Blob {
    UnitsBytes(Number(calls))
  }

  lemma WireOfAppend(calls: seq<Call>, c: Call)
    ensures WireOf(calls + [c])
         == WireOf(calls) + UnitBytes(Numbered(c, if c.SendData? then Wrap32(DataCalls(calls, c.paneId)) else 0))
  {
    var all := calls + [c];
    assert all[..|calls|] == calls;
    forall i | 0 <= i < |calls| ensures NumberOf(all, i) == NumberOf(calls, i) {
      assert all[..i] == calls[..i];
    }
    var n := Numbered(c, NumberOf(all, |calls|));
    assert Number(all) == Number(calls) + [n];
    UnitsBytesAppend(Number(calls), n);
  }

  lemma {:induction false} WireSplits(calls: seq<Call>, i: nat) returns (rest: Blob)
    requires i < |calls|
    ensures WireOf(calls) == WireOf(calls[..i]) + UnitBytes(Numbered(calls[i], NumberOf(calls, i))) + rest
  {
    hide WireOf, UnitBytes;
    var k := |calls| - 1;
    assert calls == calls[..k] + [calls[k]];
    WireOfAppend(calls[..k], calls[k]);
    if i == k {
      rest := [];
    } else {
      var front := calls[..k];
      var more := WireSplits(front, i);
      assert front[..i] == calls[..i];
      rest := more + UnitBytes(Numbered(calls[k], if calls[k].SendData? then Wrap32(DataCalls(front, calls[k].paneId)) else 0));
    }
  }

  /** The frame that call `i` put on the wire. */
  function FrameSent(calls: seq<Call>, i: nat): Result<DataFrame, FrameError>
    requires i < |calls|
  {
    var wire, at := WireOf(calls), |WireOf(calls[..i])|;
    if at <= |wire| then DecodeFrame(wire[at..]) else Failure(ShortHeader)
  }

  lemma CutAfter(a: Blob, b: Blob, c: Blob)
    ensures (a + b + c)[|a|..] == b + c
  {
  }

  lemma NumberInRange(calls: seq<Call>, i: nat)
    requires i < |calls| && calls[i].SendData? && Encodable(calls[i].paneId, calls[i].bytes)
    ensures Wrap32(NumberOf(calls, i)) == NumberOf(calls, i)
    ensures UnitBytes(Numbered(calls[i], NumberOf(calls, i))) == FrameBytes(calls[i].paneId, NumberOf(calls, i), calls[i].bytes)
  {
    hide FrameBytes, DataCalls;
  }

  lemma FrameSentIs(calls: seq<Call>, i: nat)
    requires i < |calls| && calls[i].SendData?
    requires Encodable(calls[i].paneId, calls[i].bytes) && |calls[i].bytes| <= MAX_FRAME
    ensures FrameSent(calls, i) == Success(DataFrame(calls[i].paneId, NumberOf(calls, i), calls[i].bytes))
  {
    hide WireOf, DecodeFrame, FrameBytes, UnitBytes, NumberOf;
    var rest := WireSplits(calls, i);
    var number := NumberOf(calls, i);
    var frame := FrameBytes(calls[i].paneId, number, calls[i].bytes);
    NumberInRange(calls, i);
    CutAfter(WireOf(calls[..i]), frame, rest);
    FrameRoundTrip(calls[i].paneId, number, calls[i].bytes, rest);
    assert |WireOf(calls[..i])| <= |WireOf(calls)|;
  }

  predicate ForPane(c: Call, id: PaneId) {
    c.SendData? && c.paneId == id
  }

  lemma {:induction false} CountedBetween(calls: seq<Call>, id: PaneId, j: nat, i: nat)
    requires j <= i <= |calls| && forall k | j <= k < i :: !ForPane(calls[k], id)
    ensures DataCalls(calls[..i], id) == DataCalls(calls[..j], id)
  {
    if j < i {
      CountedBetween(calls, id, j, i - 1);
      assert calls[..i][..i - 1] == calls[..i - 1];
    }
  }

  lemma CountedAfter(calls: seq<Call>, id: PaneId, j: nat, i: nat)
    requires j < i <= |calls| && ForPane(calls[j], id) && forall k | j < k < i :: !ForPane(calls[k], id)
    ensures DataCalls(calls[..i], id) == DataCalls(calls[..j], id) + 1
  {
    CountedBetween(calls, id, j + 1, i);
    assert calls[..j + 1][..j] == calls[..j];
  }

  lemma CountedNone(calls: seq<Call>, id: PaneId, i: nat)
    requires i <= |calls| && forall k | 0 <= k < i :: !ForPane(calls[k], id)
    ensures DataCalls(calls[..i], id) == 0
  {
    CountedBetween(calls, id, 0, i);
    assert calls[..0] == [];
  }

  /**
   * On the wire the first frame of a pane carries 0, and each later one the
   * number of the pane's frame before it plus one, modulo 2^32, whatever is
   * sent between them.
   */
  lemma FramesCountUp(calls: seq<Call>, j: nat, i: nat)
    requires j <= i < |calls| && calls[i].SendData?
    requires forall k | j <= k <= i && calls[k].SendData? :: Encodable(calls[k].paneId, calls[k].bytes) && |calls[k].bytes| <= MAX_FRAME
    requires forall k | j < k < i :: !ForPane(calls[k], calls[i].paneId)
    ensures FrameSent(calls, i).Success?
    ensures (forall k | 0 <= k < i :: !ForPane(calls[k], calls[i].paneId)) ==> FrameSent(calls, i).value.seqNo == 0
    ensures j < i && ForPane(calls[j], calls[i].paneId) ==>
      && FrameSent(calls, j).Success?
      && FrameSent(calls, i).value.seqNo == (FrameSent(calls, j).value.seqNo + 1) % 0x1_0000_0000
  {
    hide FrameSent, DataCalls;
    var id := calls[i].paneId;
    FrameSentIs(calls, i);
    if forall k | 0 <= k < i :: !ForPane(calls[k], id) {
      CountedNone(calls, id, i);
    }
    if j < i && ForPane(calls[j], id) {
      FrameSentIs(calls, j);
      CountedAfter(calls, id, j, i);
    }
  }

  // ---------------------------------------------------------------------
  // Sending and receiving are inverse, exactly within bounds
  // ---------------------------------------------------------------------

  function UnitOf(c: Call): Unit {
    match c
    case SendControl(p) => Control(p)
    case SendData(id, bytes) => Data(id, bytes)
  }

  function UnitsOf(ns: seq<Numbered>): seq<Unit> {
    seq(|ns|, i requires 0 <= i < |ns| => UnitOf(ns[i].call))
  }

  /**
   * A control length whose top byte is 0xCC starts like a frame and is
   * misrouted; a frame over the decoder's cap breaks the stream.
   */
  predicate InBound(c: Call) {
    match c
    case SendControl(p) => |p| / 0x100_0000 != FRAME_MAGIC
    case SendData(_, bytes) => |bytes| <= MAX_FRAME
  }

  lemma ControlCut(p: Blob, more: Blob)
    requires |p| < U32_MODULUS
    ensures var buf := PutU32(|p|) + p + more;
      && buf != []
      && (buf[0] == FRAME_MAGIC <==> |p| / 0x100_0000 == FRAME_MAGIC)
      && (buf[0] != FRAME_MAGIC ==> NextUnit(buf) == Take(Control(p), 4 + |p|))
  {
    var len := PutU32(|p|);
    var buf := len + p + more;
    assert len[0] == |p| / 256 / 256 / 256;
    assert |p| / 256 / 256 / 256 == |p| / 0x100_0000;
    assert forall i | 0 <= i < 4 :: buf[i] == len[i];
    assert ReadU32(buf, 0) == ReadU32(len, 0) == |p|;
    assert buf[4..4 + |p|] == p;
  }

  lemma CutOfUnit(n: Numbered, more: Blob)
    requires Writable(n.call) && n.seqNo < U32_MODULUS
    ensures InBound(n.call) ==> NextUnit(UnitBytes(n) + more) == Take(UnitOf(n.call), |UnitBytes(n)|)
    ensures !InBound(n.call) ==>
      var c := NextUnit(UnitBytes(n) + more);
      c.Take? ==> c.unit != UnitOf(n.call)
  {
    hide ReadU32, ReadU16, PutU32, PutU16;
    match n.call
    case SendControl(p) =>
      ControlCut(p, more);
    case SendData(id, bytes) =>
      FrameRoundTrip(id, n.seqNo, bytes, more);
      HeaderFields(id, n.seqNo, bytes, more);
  }

  lemma FirstUnit(buf: Blob)
    ensures var c := NextUnit(buf);
      if c.Take? then Demux(buf) == Demux(buf[c.length..]).(units := [c.unit] + Demux(buf[c.length..]).units)
      else Demux(buf).units == []
  {
  }

  /** One unit more at the front: it arrives if and only if it is within bounds. */
  lemma NumberedArrivesFirst(n: Numbered, more: Blob, units: seq<Unit>)
    requires Writable(n.call) && n.seqNo < U32_MODULUS
    ensures Demux(UnitBytes(n) + more) == Demuxed([UnitOf(n.call)] + units, [], false)
       <==> InBound(n.call) && Demux(more) == Demuxed(units, [], false)
  {
    var buf := UnitBytes(n) + more;
    CutOfUnit(n, more);
    FirstUnit(buf);
    hide *;
    if InBound(n.call) {
      assert buf[|UnitBytes(n)|..] == more;
      assert ([UnitOf(n.call)] + units)[1..] == units;
      assert ([UnitOf(n.call)] + Demux(more).units)[1..] == Demux(more).units;
    } else if Demux(buf).units != [] {
      assert Demux(buf).units[0] == NextUnit(buf).unit;
      assert ([UnitOf(n.call)] + units)[0] == UnitOf(n.call);
    }
  }

  lemma {:induction false} NumberedArrive(ns: seq<Numbered>)
    requires forall n <- ns :: Writable(n.call) && n.seqNo < U32_MODULUS
    ensures Demux(UnitsBytes(ns)) == Demuxed(UnitsOf(ns), [], false) <==> forall n <- ns :: InBound(n.call)
  {
    assert Demux([]) == Demuxed([], [], false);
    hide NextUnit, UnitBytes, Demux, InBound;
    if ns != [] {
      var n, tail := ns[0], ns[1..];
      assert UnitsOf(ns) == [UnitOf(n.call)] + UnitsOf(tail);
      NumberedArrivesFirst(n, UnitsBytes(tail), UnitsOf(tail));
      NumberedArrive(tail);
      assert ns == [n] + tail;
    }
  }

  /**
   * The receiver sees exactly the interleaving that was sent, in order and with
   * nothing left over, if and only if every call is within bounds.
   */
  lemma InterleavingArrives(calls: seq<Call>)
    requires forall c <- calls :: Writable(c)
    ensures Demux(WireOf(calls)) == Demuxed(seq(|calls|, i requires 0 <= i < |calls| => UnitOf(calls[i])), [], false)
       <==> forall c <- calls :: InBound(c)
  {
    var ns := Number(calls);
    assert forall i | 0 <= i < |calls| :: ns[i].call == calls[i];
    assert forall n <- ns :: exists i | 0 <= i < |calls| :: n == ns[i];
    assert UnitsOf(ns) == seq(|calls|, i requires 0 <= i < |calls| => UnitOf(calls[i]));
    NumberedArrive(ns);
    assert (forall n <- ns :: InBound(n.call)) <==> forall c <- calls :: InBound(c) by {
      assert forall i | 0 <= i < |calls| :: ns[i] in ns && calls[i] in calls;
    }
  }

  // ---------------------------------------------------------------------
  // JavaScript's 32-bit wrap
  // ---------------------------------------------------------------------

  /** `x & 0xffffffff`: both operands become signed 32-bit integers first. */
  function ToInt32(n: int): int {
    Wrap32(n + 0x8000_0000) - 0x8000_0000
  }

  lemma ToInt32Congruent(n: int)
    ensures -0x8000_0000 <= ToInt32(n) < 0x8000_0000
    ensures Wrap32(ToInt32(n)) == Wrap32(n)
  {
  }

  /** Counting on from the wrapped value is counting on from the true one. */
  lemma ToInt32Step(n: int)
    ensures ToInt32(ToInt32(n) + 1) == ToInt32(n + 1)
  {
  }

  // ---------------------------------------------------------------------
  // Steps of the receive loop
  // ---------------------------------------------------------------------

  /** What is delivered, followed by what the buffer still holds, is what was received. */
  ghost predicate Agrees(received: Blob, delivered: seq<Unit>, buf: Blob) {
    Demux(received) == Demuxed(delivered + Demux(buf).units, Demux(buf).rest, Demux(buf).broken)
  }

  lemma AgreesStep(received: Blob, delivered: seq<Unit>, buf: Blob)
    requires Agrees(received, delivered, buf) && NextUnit(buf).Take?
    ensures var c := NextUnit(buf); Agrees(received, delivered + [c.unit], buf[c.length..])
  {
    var c := NextUnit(buf);
    var ahead := Demux(buf[c.length..]).units;
    assert delivered + ([c.unit] + ahead) == delivered + [c.unit] + ahead;
  }

  lemma AgreesMore(received: Blob, delivered: seq<Unit>, buf: Blob, chunk: Blob)
    requires Agrees(received, delivered, buf)
    ensures Agrees(received + chunk, delivered, buf + chunk)
  {
    hide NextUnit, Demux;
    DemuxSplit(received, chunk);
    DemuxSplit(buf, chunk);
    var d, e := Demux(buf), Demux(Demux(buf).rest + chunk);
    assert delivered + d.units + e.units == delivered + (d.units + e.units);
  }

  lemma AgreesBroken(received: Blob, delivered: seq<Unit>, buf: Blob)
    requires Agrees(received, delivered, buf) && NextUnit(buf) == Broken
    ensures delivered == Demux(received).units && Demux(received).broken && buf == Demux(received).rest
  {
  }

  lemma DemuxedPrefix(received: Blob, delivered: seq<Unit>, buf: Blob)
    requires Agrees(received, delivered, buf)
    ensures delivered <= Demux(received).units
  {
  }

  lemma CutOfFrame(buf: Blob)
    requires buf != [] && buf[0] == FRAME_MAGIC
    ensures |buf| < MIN_HEADER_BYTES ==> NextUnit(buf) == Wait
    ensures |buf| >= MIN_HEADER_BYTES ==>
      var n := FrameLength(buf);
      if ReadU32(buf, OFF_PAYLEN) > MAX_FRAME then NextUnit(buf) == Broken
      else if |buf| < n then NextUnit(buf) == Wait
      else
        && DecodeFrame(buf[..n]).Success?
        && var f := DecodeFrame(buf[..n]).value; NextUnit(buf) == Take(Data(f.paneId, f.payload), n)
  {
    if DecodeFrame(buf).Success? {
      var n, f := FrameLength(buf), DecodeFrame(buf).value;
      DecodeIsInverse(buf);
      FrameRoundTrip(f.paneId, f.seqNo, f.payload, []);
      assert buf[..n] + [] == buf[..n];
    }
  }

  /** `seq >>> 0`: only the counter modulo 2^32 reaches the wire; a rejected call writes nothing. */
  lemma EncodedUnit(id: PaneId, n: int, bytes: Blob)
    ensures UnitBytes(Numbered(SendData(id, bytes), Wrap32(n))) == Output(EncodeResult(id, n, bytes))
  {
    hide PutU32, PutU16;
    assert Wrap32(Wrap32(n)) == Wrap32(n);
  }

  function Output(r: Result<Blob, FrameError>): Blob {
    if r.Success? then r.value else []
  }

  lemma DataCallsAppend(calls: seq<Call>, c: Call, id: PaneId)
    ensures DataCalls(calls + [c], id) == DataCalls(calls, id) + if c.SendData? && c.paneId == id then 1 else 0
  {
    assert (calls + [c])[..|calls|] == calls;
  }

  // ---------------------------------------------------------------------
  // Steps of the sender
  // ---------------------------------------------------------------------

  /** The bytes written and the stored counters are those the calls so far determine. */
  ghost predicate SenderAgrees(written: Blob, dataSeqs: map<PaneId, int>, calls: seq<Call>) {
    && written == WireOf(calls)
    && forall id: PaneId :: Counter(dataSeqs, id) == ToInt32(DataCalls(calls, id))
  }

  function Counter(dataSeqs: map<PaneId, int>, id: PaneId): int {
    if id in dataSeqs then dataSeqs[id] else 0
  }

  lemma SentControl(written: Blob, dataSeqs: map<PaneId, int>, calls: seq<Call>, payload: Blob)
    requires SenderAgrees(written, dataSeqs, calls)
    ensures var c := SendControl(payload);
      SenderAgrees(written + UnitBytes(Numbered(c, 0)), dataSeqs, calls + [c])
  {
    hide WireOf, UnitBytes, DataCalls, ToInt32;
    var c := SendControl(payload);
    WireOfAppend(calls, c);
    forall id: PaneId ensures DataCalls(calls + [c], id) == DataCalls(calls, id) {
      DataCallsAppend(calls, c, id);
    }
  }

  lemma SentData(written: Blob, dataSeqs: map<PaneId, int>, calls: seq<Call>, id: PaneId, bytes: Blob)
    requires SenderAgrees(written, dataSeqs, calls)
    ensures var c, n := SendData(id, bytes), Counter(dataSeqs, id);
      SenderAgrees(written + UnitBytes(Numbered(c, Wrap32(n))), dataSeqs[id := ToInt32(n + 1)], calls + [c])
  {
    hide WireOf, UnitBytes, DataCalls;
    var c, n := SendData(id, bytes), Counter(dataSeqs, id);
    WireOfAppend(calls, c);
    ToInt32Congruent(DataCalls(calls, id));
    ToInt32Step(DataCalls(calls, id));
    hide ToInt32;
    var after := dataSeqs[id := ToInt32(n + 1)];
    forall other: PaneId ensures Counter(after, other) == ToInt32(DataCalls(calls + [c], other)) {
      DataCallsAppend(calls, c, other);
    }
  }

  // ---------------------------------------------------------------------
  // The transport
  // ---------------------------------------------------------------------

  datatype Closure = Open | FramingError | ByCaller

  class Transport {
    var buf: Blob
    var closure: Closure
    var immediates: nat            // queued setImmediate(_processBuffer) callbacks
    var dataSeqs: map<PaneId, int>
    var delivered: seq<Unit>       // units handed on, in order
    var written: Blob              // bytes given to socket.write
    ghost var received: Blob       // every byte the socket has emitted
    ghost var calls: seq<Call>     // every send made while open

    constructor ()
      ensures Valid() && received == [] && delivered == [] && closure == Open && calls == []
    {
      buf, closure, immediates, dataSeqs, delivered, written := [], Open, 0, map[], [], [];
      received, calls := [], [];
    }

    ghost predicate Receiving()
      reads this`closure, this`received, this`delivered, this`buf, this`immediates
    {
      match closure
      case Open => Agrees(received, delivered, buf) && (immediates == 0 ==> NextUnit(buf) == Wait)
      case FramingError => delivered == Demux(received).units && Demux(received).broken && buf == Demux(received).rest
      case ByCaller => delivered <= Demux(received).units
    }

    ghost predicate Sending()
      reads this`written, this`dataSeqs, this`calls
    {
      SenderAgrees(written, dataSeqs, calls)
    }

    ghost predicate Valid()
      reads this
    {
      Receiving() && Sending()
    }

    method Close()
      modifies this`closure
      ensures closure == if old(closure) == Open then ByCaller else old(closure)
    {
      if closure != Open {
        return;
      }
      closure := ByCaller;
    }

    /** `_onData`. */
    method OnData(chunk: Blob)
      requires Valid()
      modifies this
      ensures Valid()
      ensures received == old(received) + chunk
      ensures old(delivered) <= delivered && (old(closure) != Open ==> delivered == old(delivered))
      ensures calls == old(calls) && written == old(written)
    {
      hide NextUnit, Demux, Sending;
      if closure == Open {
        AgreesMore(received, delivered, buf, chunk);
      }
      DemuxSplit(received, chunk);
      buf := buf + chunk;
      received := received + chunk;
      ProcessBuffer();
    }

    /** A queued setImmediate fires. */
    method RunImmediate()
      requires Valid() && immediates > 0
      modifies this
      ensures Valid()
      ensures received == old(received)
      ensures old(delivered) <= delivered
      ensures calls == old(calls) && written == old(written)
    {
      immediates := immediates - 1;
      ProcessBuffer();
    }

    /**
     * `_processBuffer`. Whatever a handler does is chosen freely: it may close
     * the transport, and a control handler may install another handler.
     */
    method ProcessBuffer()
      requires Sending()
      requires if closure == Open then Agrees(received, delivered, buf) else Receiving()
      modifies this`buf, this`closure, this`immediates, this`delivered
      ensures Valid()
      ensures old(delivered) <= delivered && (old(closure) != Open ==> delivered == old(delivered))
    {
      hide Demux, DecodeFrame, ReadU32, ReadU16, Sending;
      while |buf| > 0
        invariant if closure == Open then Agrees(received, delivered, buf) else Receiving()
        invariant old(delivered) <= delivered && (old(closure) != Open ==> closure != Open && delivered == old(delivered))
        decreases |buf|
      {
        if closure != Open {
          return;
        }
        var unit, length, isControl := Control([]), 0, false;
        if buf[0] == FRAME_MAGIC {
          CutOfFrame(buf);
          if |buf| < MIN_HEADER_BYTES {
            break;
          }
          var payLen := ReadU32(buf, OFF_PAYLEN);
          var idLen := ReadU16(buf, OFF_IDLEN);
          if payLen > MAX_FRAME {
            AgreesBroken(received, delivered, buf);
            closure := FramingError;
            return;
          }
          length := MIN_HEADER_BYTES + idLen + payLen;
          if |buf| < length {
            break;
          }
          match DecodeFrame(buf[..length])
          case Failure(_) =>
            assert false;   // length and magic are already checked
          case Success(f) =>
            unit := Data(f.paneId, f.payload);
        } else {
          if |buf| < CTRL_LEN_SIZE {
            break;
          }
          length := CTRL_LEN_SIZE + ReadU32(buf, 0);
          if |buf| < length {
            break;
          }
          unit, isControl := Control(buf[CTRL_LEN_SIZE..length]), true;
        }
        AgreesStep(received, delivered, buf);
        buf := buf[length..];
        delivered := delivered + [unit];
        var handlerCloses: bool := *;
        var handlerSwaps: bool := *;
        if handlerCloses {
          DemuxedPrefix(received, delivered, buf);
          Close();
        }
        if isControl && handlerSwaps && |buf| > 0 {
          immediates := immediates + 1;
          return;
        }
      }
    }

    /** `sendControl`; a payload the length field cannot hold throws before writing. */
    method SendControlMessage(payload: Blob)
      requires Valid()
      modifies this`calls, this`written
      ensures Valid()
      ensures calls == if closure == Open then old(calls) + [SendControl(payload)] else old(calls)
    {
      hide SenderAgrees, Receiving, PutU32;
      if closure != Open {
        return;
      }
      SentControl(written, dataSeqs, calls, payload);
      calls := calls + [SendControl(payload)];
      if |payload| < U32_MODULUS {
        written := written + (PutU32(|payload|) + payload);
      } else {
        assert written + [] == written;
      }
    }

    /** `sendData`: the pane's counter advances even when encoding then throws. */
    method SendPaneData(paneId: PaneId, bytes: Blob)
      requires Valid()
      modifies this`calls, this`dataSeqs, this`written
      ensures Valid()
      ensures calls == if closure == Open then old(calls) + [SendData(paneId, bytes)] else old(calls)
    {
      hide SenderAgrees, Receiving, FrameBytes, ToInt32, UnitBytes, EncodeResult;
      if closure != Open {
        return;
      }
      var seqNo := Counter(dataSeqs, paneId);
      var counters := dataSeqs[paneId := ToInt32(seqNo + 1)];
      var frame := EncodeFrame(paneId, seqNo, bytes);
      EncodedUnit(paneId, seqNo, bytes);
      SentData(written, dataSeqs, calls, paneId, bytes);
      calls, dataSeqs, written := calls + [SendData(paneId, bytes)], counters, written + Output(frame);
    }
  }

  /**
   * Once no callback is queued, what was delivered, whether the stream was
   * closed for a framing error, and what is left over depend only on the bytes
   * received: not on how they were chunked, nor on when handlers were swapped.
   */
  lemma SettledOutcome(t: Transport)
    requires t.Valid() && t.closure != ByCaller
    requires t.closure == Open ==> t.immediates == 0
    ensures t.delivered == Demux(t.received).units
    ensures t.closure == FramingError <==> Demux(t.received).broken
    ensures t.buf == Demux(t.received).rest
  {
    if t.closure == Open {
      assert Demux(t.buf) == Demuxed([], t.buf, false);
      assert t.delivered + [] == t.delivered;
    }
  }

  /** One transport's sends reach the other transport's handlers, in order. */
  lemma EndToEnd(sender: Transport, receiver: Transport)
    requires sender.Valid() && receiver.Valid() && receiver.received == sender.written
    requires receiver.closure != ByCaller && (receiver.closure == Open ==> receiver.immediates == 0)
    requires forall c <- sender.calls :: Writable(c) && InBound(c)
    ensures receiver.closure == Open && receiver.buf == []
    ensures |receiver.delivered| == |sender.calls|
    ensures forall i | 0 <= i < |sender.calls| :: receiver.delivered[i] == UnitOf(sender.calls[i])
  {
    SettledOutcome(receiver);
    InterleavingArrives(sender.calls);
  }
}
