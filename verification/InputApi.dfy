/**
 * Client output: keyboard input, coalesced resizes and commands on one FIFO wire
 * (clients/ts/src/input.ts). The sender neither throws nor calls back in.
 */
module InputApi {
  import opened Prelude

  type PaneId = string

  datatype Size = Size(cols: int, rows: int)

  datatype Request = Request(paneId: PaneId, size: Size)

  /** A verb's correlation id is the decimal text of a number; here, the number. */
  datatype WireMessage =
    | Input(seqNo: int, paneId: PaneId, data: string)
    | ResizeRequest(seqNo: int, paneId: PaneId, size: Size)
    | CommandRequest(seqNo: int, correlationId: int, command: string)
    | PaneAttach(seqNo: int, paneId: PaneId)

  /**
   * A message on the wire. `ticket` is, for a resize, the number of the request
   * it carries, and otherwise how many requests had been made before it.
   * `awaited` tells a sendVerb or sendPaneCapture from a sendCommand.
   */
  datatype Sent = Sent(msg: WireMessage, ticket: nat, awaited: bool)

  datatype Pending = Pending(paneId: PaneId, size: Size, ticket: nat)

  datatype State = State(
    coalesce: bool,
    seqNo: int,                 // the next sequence number
    pending: seq<Pending>,      // in the map's insertion order
    flushScheduled: bool,
    microtasks: nat,            // queued flushResizes callbacks
    disconnected: bool,
    wire: seq<Sent>,
    requests: seq<Request>)     // every resizePane that was not refused

  datatype Call =
    | SendInput(paneId: PaneId, data: string)
    | ResizePane(paneId: PaneId, size: Size)
    | Flush
    | MarkDisconnected
    | SendCommand(command: string)
    | SendVerb(command: string)      // also sendPaneCapture
    | AttachPane(paneId: PaneId)
    | RunMicrotask

  // ---------------------------------------------------------------------
  // The reference machine
  // ---------------------------------------------------------------------

  function Start(coalesce: bool): State {
    State(coalesce, 1, [], false, 0, false, [], [])
  }

  function PositionOf(pending: seq<Pending>, p: PaneId): (i: Option<nat>)
    ensures i.Some? ==> i.value < |pending| && pending[i.value].paneId == p
    ensures i.None? ==> forall k | 0 <= k < |pending| :: pending[k].paneId != p
  {
    if pending == [] then None
    else if pending[0].paneId == p then Some(0)
    else
      var i := PositionOf(pending[1..], p);
      assert forall k | 0 < k < |pending| :: pending[k] == pending[1..][k - 1];
      if i.Some? then Some(i.value + 1) else None
  }

  /** `Map.set`: an entry that exists keeps its place. */
  function Put(pending: seq<Pending>, e: Pending): seq<Pending> {
    var i := PositionOf(pending, e.paneId);
    if i.Some? then pending[i.value := e] else pending + [e]
  }

  function Resizes(pending: seq<Pending>, seqNo: int): seq<Sent> {
    seq(|pending|, i requires 0 <= i < |pending| =>
      Sent(ResizeRequest(seqNo + i, pending[i].paneId, pending[i].size), pending[i].ticket, false))
  }

  function Send(s: State, msg: WireMessage, awaited: bool): State {
    s.(wire := s.wire + [Sent(msg, |s.requests|, awaited)], seqNo := s.seqNo + 1)
  }

  function FlushResizes(s: State): State {
    s.(flushScheduled := false, pending := [],
       wire := s.wire + Resizes(s.pending, s.seqNo), seqNo := s.seqNo + |s.pending|)
  }

  function Next(s: State, c: Call): State {
    match c
    case SendInput(p, data) => Send(s, Input(s.seqNo, p, data), false)
    case AttachPane(p) => Send(s, PaneAttach(s.seqNo, p), false)
    case SendVerb(command) => Send(s, CommandRequest(s.seqNo, s.seqNo, command), true)
    case SendCommand(command) =>
      var t := if s.pending != [] then FlushResizes(s) else s;
      Send(t, CommandRequest(t.seqNo, t.seqNo, command), false)
    case Flush => if s.coalesce && s.pending != [] then FlushResizes(s) else s
    case RunMicrotask => if s.microtasks == 0 then s else FlushResizes(s.(microtasks := s.microtasks - 1))
    case MarkDisconnected => s.(disconnected := true, pending := [], flushScheduled := false)
    case ResizePane(p, size) =>
      var requests := s.requests + [Request(p, size)];
      if s.disconnected then s
      else if !s.coalesce then Send(s, ResizeRequest(s.seqNo, p, size), false).(requests := requests)
      else s.(requests := requests, pending := Put(s.pending, Pending(p, size, |s.requests|)),
              flushScheduled := true, microtasks := if s.flushScheduled then s.microtasks else s.microtasks + 1)
  }

  function Run(coalesce: bool, calls: seq<Call>): State {
    if calls == [] then Start(coalesce)
    else Next(Run(coalesce, calls[..|calls| - 1]), calls[|calls| - 1])
  }

  // ---------------------------------------------------------------------
  // What every run keeps
  // ---------------------------------------------------------------------

  /** Sequence numbers on the wire are 1, 2, 3, ..., and a command's is its correlation id. */
  predicate Numbered(s: State) {
    && s.seqNo == |s.wire| + 1
    && forall i | 0 <= i < |s.wire| ::
         var msg := s.wire[i].msg; msg.seqNo == i + 1 && (msg.CommandRequest? ==> msg.correlationId == i + 1)
  }

  /** A pending resize is bound to leave: its microtask is queued. */
  predicate Scheduled(s: State) {
    (s.pending != [] ==> s.flushScheduled && !s.disconnected && s.coalesce) && (s.flushScheduled ==> s.microtasks > 0 && s.pending != [])
  }

  predicate OnePerPane(pending: seq<Pending>) {
    forall i, j | 0 <= i < j < |pending| :: pending[i].paneId != pending[j].paneId
  }

  /** Resizes carry what was requested. */
  predicate Honest(s: State) {
    && OnePerPane(s.pending)
    && (forall i | 0 <= i < |s.pending| ::
          var e := s.pending[i]; e.ticket < |s.requests| && s.requests[e.ticket] == Request(e.paneId, e.size))
    && (forall i | 0 <= i < |s.wire| :: s.wire[i].ticket <= |s.requests|)
    && (forall i | 0 <= i < |s.wire| && s.wire[i].msg.ResizeRequest? ::
          s.wire[i].ticket < |s.requests| && s.requests[s.wire[i].ticket] == Request(s.wire[i].msg.paneId, s.wire[i].msg.size))
  }

  /** May `before` stand before a resize of pane `p` with number `ticket`? */
  predicate InOrder(before: Sent, p: PaneId, ticket: nat) {
    && (before.msg.ResizeRequest? && before.msg.paneId == p ==> before.ticket < ticket)
    && (before.msg.CommandRequest? && !before.awaited ==> before.ticket <= ticket)
  }

  /**
   * Per pane, resizes leave in the order they were requested; and every
   * sendCommand follows all resizes requested before it.
   */
  predicate Ordered(s: State) {
    && (forall i, j | 0 <= i < j < |s.wire| && s.wire[j].msg.ResizeRequest? ::
          InOrder(s.wire[i], s.wire[j].msg.paneId, s.wire[j].ticket))
    && (forall i, j | 0 <= i < |s.wire| && 0 <= j < |s.pending| ::
          InOrder(s.wire[i], s.pending[j].paneId, s.pending[j].ticket))
  }

  predicate Answers(sent: Sent, p: PaneId, t: nat) {
    sent.msg.ResizeRequest? && sent.msg.paneId == p && t <= sent.ticket
  }

  /** A resize on the wire, at least as recent as request `t`, for the same pane. */
  predicate Answered(s: State, t: nat)
    requires t < |s.requests|
  {
    exists i :: 0 <= i < |s.wire| && Answers(s.wire[i], s.requests[t].paneId, t)
  }

  predicate Awaiting(s: State, t: nat)
    requires t < |s.requests|
  {
    exists i :: 0 <= i < |s.pending| && s.pending[i].paneId == s.requests[t].paneId && t <= s.pending[i].ticket
  }

  /** The latest size of a pane is never lost while connected. */
  predicate Covered(s: State) {
    !s.disconnected ==> forall t | 0 <= t < |s.requests| :: Answered(s, t) || Awaiting(s, t)
  }

  predicate Inv(s: State) {
    Numbered(s) && Scheduled(s) && Honest(s) && Ordered(s) && Covered(s)
  }

  lemma FlushKeepsOrder(s: State)
    requires Honest(s) && Ordered(s)
    ensures Ordered(FlushResizes(s))
  {
    var t := FlushResizes(s);
    forall i, j | 0 <= i < j < |t.wire| && t.wire[j].msg.ResizeRequest?
      ensures InOrder(t.wire[i], t.wire[j].msg.paneId, t.wire[j].ticket)
    {
      if j >= |s.wire| && i < |s.wire| {
        var k := j - |s.wire|;
        assert InOrder(s.wire[i], s.pending[k].paneId, s.pending[k].ticket);
      }
    }
  }

  lemma FlushKeepsCover(s: State)
    requires Covered(s)
    ensures Covered(FlushResizes(s))
  {
    var f := FlushResizes(s);
    if !s.disconnected {
      forall t | 0 <= t < |s.requests| ensures Answered(f, t) {
        if Answered(s, t) {
          var i :| 0 <= i < |s.wire| && Answers(s.wire[i], s.requests[t].paneId, t);
          assert f.wire[i] == s.wire[i];
        } else {
          var i :| 0 <= i < |s.pending| && s.pending[i].paneId == s.requests[t].paneId && t <= s.pending[i].ticket;
          assert f.wire[|s.wire| + i].msg.ResizeRequest?;
        }
      }
    }
  }

  lemma FlushKeeps(s: State)
    requires Numbered(s) && Honest(s) && Ordered(s) && Covered(s) && (s.pending != [] ==> s.coalesce)
    ensures Inv(FlushResizes(s))
  {
    FlushKeepsOrder(s);
    FlushKeepsCover(s);
    hide Ordered, Covered;
  }

  lemma SendKeeps(s: State, msg: WireMessage, awaited: bool)
    requires Inv(s) && msg.seqNo == s.seqNo && !msg.ResizeRequest?
    requires msg.CommandRequest? ==> msg.correlationId == s.seqNo
    requires msg.CommandRequest? && !awaited ==> s.pending == []
    ensures Inv(Send(s, msg, awaited))
  {
    var t := Send(s, msg, awaited);
    forall k | 0 <= k < |s.requests| && Answered(s, k) ensures Answered(t, k) {
      var i :| 0 <= i < |s.wire| && Answers(s.wire[i], s.requests[k].paneId, k);
      assert t.wire[i] == s.wire[i];
    }
    forall k | 0 <= k < |s.requests| && Awaiting(s, k) ensures Awaiting(t, k) {
    }
    hide Answered, Awaiting;
  }

  lemma DirectResizeKeeps(s: State, p: PaneId, size: Size)
    requires Inv(s) && !s.coalesce && !s.disconnected
    ensures Inv(Next(s, ResizePane(p, size)))
  {
    var t := Next(s, ResizePane(p, size));
    forall k | 0 <= k < |t.requests| ensures Answered(t, k) {
      if k < |s.requests| {
        assert Answered(s, k);
        var i :| 0 <= i < |s.wire| && Answers(s.wire[i], s.requests[k].paneId, k);
        assert t.wire[i] == s.wire[i];
      } else {
        assert t.wire[|s.wire|].msg.ResizeRequest?;
      }
    }
    hide Answered, Awaiting;
  }

  /** What setting an entry does to a map kept in insertion order. */
  lemma PutEntries(pending: seq<Pending>, e: Pending)
    requires OnePerPane(pending)
    ensures var after := Put(pending, e);
      && OnePerPane(after)
      && (exists i :: 0 <= i < |after| && after[i] == e)
      && (forall i | 0 <= i < |after| :: after[i] == e || (i < |pending| && after[i] == pending[i]))
      && (forall i | 0 <= i < |pending| :: i < |after| && after[i] == if pending[i].paneId == e.paneId then e else pending[i])
  {
    var after, i := Put(pending, e), PositionOf(pending, e.paneId);
    assert after[if i.Some? then i.value else |pending|] == e;
  }

  lemma CoalescedResizeKeeps(s: State, p: PaneId, size: Size)
    requires Inv(s) && s.coalesce && !s.disconnected
    ensures Inv(Next(s, ResizePane(p, size)))
  {
    var t, e := Next(s, ResizePane(p, size)), Pending(p, size, |s.requests|);
    PutEntries(s.pending, e);
    hide Put;
    forall k | 0 <= k < |t.requests| ensures Answered(t, k) || Awaiting(t, k) {
      if k == |s.requests| {
        assert Awaiting(t, k);
      } else if Answered(s, k) {
        var i :| 0 <= i < |s.wire| && Answers(s.wire[i], s.requests[k].paneId, k);
        assert t.wire[i] == s.wire[i];
        assert Answered(t, k);
      } else {
        var i :| 0 <= i < |s.pending| && s.pending[i].paneId == s.requests[k].paneId && k <= s.pending[i].ticket;
        assert t.pending[i].paneId == s.pending[i].paneId && k <= t.pending[i].ticket;
        assert Awaiting(t, k);
      }
    }
    hide Answered, Awaiting;
  }

  lemma NextKeeps(s: State, c: Call)
    requires Inv(s)
    ensures Inv(Next(s, c))
  {
    hide Numbered, Honest, Ordered, Covered, Resizes, Put;
    match c
    case SendInput(p, data) => SendKeeps(s, Input(s.seqNo, p, data), false);
    case AttachPane(p) => SendKeeps(s, PaneAttach(s.seqNo, p), false);
    case SendVerb(command) => SendKeeps(s, CommandRequest(s.seqNo, s.seqNo, command), true);
    case SendCommand(command) =>
      FlushKeeps(s);
      var t := if s.pending != [] then FlushResizes(s) else s;
      SendKeeps(t, CommandRequest(t.seqNo, t.seqNo, command), false);
    case Flush => FlushKeeps(s);
    case RunMicrotask =>
      SilentStep(s, s.(microtasks := if s.microtasks == 0 then 0 else s.microtasks - 1));
      FlushKeeps(s.(microtasks := if s.microtasks == 0 then 0 else s.microtasks - 1));
    case MarkDisconnected => DisconnectKeeps(s);
    case ResizePane(p, size) =>
      if s.disconnected {
      } else if s.coalesce {
        CoalescedResizeKeeps(s, p, size);
      } else {
        DirectResizeKeeps(s, p, size);
      }
  }

  lemma SilentStep(s: State, t: State)
    requires Inv(s) && t == s.(microtasks := t.microtasks)
    ensures Numbered(t) && Honest(t) && Ordered(t) && Covered(t)
  {
    forall k | 0 <= k < |s.requests| ensures Answered(t, k) == Answered(s, k) && Awaiting(t, k) == Awaiting(s, k) {
    }
    hide Answered, Awaiting;
  }

  lemma DisconnectKeeps(s: State)
    requires Inv(s)
    ensures Inv(Next(s, MarkDisconnected))
  {
  }

  /**
   * For every run of calls and microtasks: sequence numbers are 1, 2, 3, ...;
   * a pending resize has its flush queued; resizes are honest, in order per
   * pane, and before every later sendCommand; and no pane's latest size is lost.
   */
  lemma {:induction false} RunKeeps(coalesce: bool, calls: seq<Call>)
    ensures Inv(Run(coalesce, calls))
  {
    hide Inv, Next;
    if calls == [] {
      StartKeeps(coalesce);
    } else {
      RunKeeps(coalesce, calls[..|calls| - 1]);
      NextKeeps(Run(coalesce, calls[..|calls| - 1]), calls[|calls| - 1]);
    }
  }

  lemma StartKeeps(coalesce: bool)
    ensures Inv(Start(coalesce))
  {
  }

  /** When the microtask queue is empty, every pane's last resize on the wire is its latest request. */
  lemma QuietMeansSent(coalesce: bool, calls: seq<Call>, t: nat)
    requires var s := Run(coalesce, calls); s.microtasks == 0 && !s.disconnected && t < |s.requests|
    ensures Answered(Run(coalesce, calls), t)
  {
    RunKeeps(coalesce, calls);
  }

  // ---------------------------------------------------------------------
  // The wire against the calls
  // ---------------------------------------------------------------------

  /** The calls that speak at once. */
  function Speech(calls: seq<Call>): seq<Call> {
    if calls == [] then []
    else
      var c := calls[|calls| - 1];
      Speech(calls[..|calls| - 1]) + if c.SendInput? || c.AttachPane? || c.SendVerb? || c.SendCommand? then [c] else []
  }

  /** The call a message other than a resize can only come from. */
  function Heard(wire: seq<Sent>): seq<Call> {
    if wire == [] then []
    else
      var last := wire[|wire| - 1];
      Heard(wire[..|wire| - 1])
      + match last.msg
        case Input(_, p, data) => [SendInput(p, data)]
        case PaneAttach(_, p) => [AttachPane(p)]
        case CommandRequest(_, _, command) => [if last.awaited then SendVerb(command) else SendCommand(command)]
        case ResizeRequest(_, _, _) => []
  }

  /** The resizes called for before the first markDisconnected. */
  function Made(calls: seq<Call>): seq<Request> {
    if calls == [] then []
    else
      var front, c := calls[..|calls| - 1], calls[|calls| - 1];
      Made(front) + if c.ResizePane? && MarkDisconnected !in front then [Request(c.paneId, c.size)] else []
  }

  lemma HeardNext(wire: seq<Sent>, sent: Sent)
    ensures Heard(wire + [sent]) == Heard(wire) + Heard([sent])
  {
    assert (wire + [sent])[..|wire|] == wire && [sent][..0] == [];
  }

  lemma {:induction false} ResizesAreNotHeard(wire: seq<Sent>, pending: seq<Pending>, seqNo: int)
    ensures Heard(wire + Resizes(pending, seqNo)) == Heard(wire)
  {
    if pending == [] {
      assert wire + Resizes(pending, seqNo) == wire;
    } else {
      var k := |pending| - 1;
      ResizesAreNotHeard(wire, pending[..k], seqNo);
      assert wire + Resizes(pending, seqNo)
          == wire + Resizes(pending[..k], seqNo) + [Resizes(pending, seqNo)[k]];
      HeardNext(wire + Resizes(pending[..k], seqNo), Resizes(pending, seqNo)[k]);
    }
  }

  /** What one message says. */
  lemma HeardOne(s: State, msg: WireMessage, awaited: bool)
    ensures Heard(Send(s, msg, awaited).wire) == Heard(s.wire)
      + match msg
        case Input(_, p, data) => [SendInput(p, data)]
        case PaneAttach(_, p) => [AttachPane(p)]
        case CommandRequest(_, _, command) => [if awaited then SendVerb(command) else SendCommand(command)]
        case ResizeRequest(_, _, _) => []
  {
    HeardNext(s.wire, Sent(msg, |s.requests|, awaited));
    assert [Sent(msg, |s.requests|, awaited)][..0] == [];
  }

  lemma SpeechOne(c: Call)
    ensures Speech([c]) == if c.SendInput? || c.AttachPane? || c.SendVerb? || c.SendCommand? then [c] else []
  {
    assert [c][..0] == [];
  }

  lemma SpokenNext(s: State, c: Call)
    ensures Heard(Next(s, c).wire) == Heard(s.wire) + Speech([c])
    ensures Next(s, c).disconnected == (s.disconnected || c.MarkDisconnected?)
    ensures Next(s, c).requests
         == s.requests + if c.ResizePane? && !s.disconnected then [Request(c.paneId, c.size)] else []
  {
    SpeechOne(c);
    ResizesAreNotHeard(s.wire, s.pending, s.seqNo);
    match c
    case SendInput(p, data) => HeardOne(s, Input(s.seqNo, p, data), false);
    case AttachPane(p) => HeardOne(s, PaneAttach(s.seqNo, p), false);
    case SendVerb(command) => HeardOne(s, CommandRequest(s.seqNo, s.seqNo, command), true);
    case SendCommand(command) =>
      var t := if s.pending != [] then FlushResizes(s) else s;
      HeardOne(t, CommandRequest(t.seqNo, t.seqNo, command), false);
    case ResizePane(p, size) => HeardOne(s, ResizeRequest(s.seqNo, p, size), false);
    case Flush =>
    case RunMicrotask =>
    case MarkDisconnected =>
    hide Heard, Speech, Resizes, Put;
  }

  lemma MadeNext(calls: seq<Call>, c: Call)
    ensures Made(calls + [c])
      == Made(calls) + if c.ResizePane? && MarkDisconnected !in calls then [Request(c.paneId, c.size)] else []
    ensures Speech(calls + [c]) == Speech(calls) + Speech([c])
  {
    assert (calls + [c])[..|calls|] == calls && [c][..0] == [];
  }

  lemma CoalesceStays(s: State, c: Call)
    ensures Next(s, c).coalesce == s.coalesce
  {
    hide Put, Resizes;
  }

  /**
   * Over every run: the wire without its resizes is the calls that speak, in
   * order, with their contents; the resize requests are those called for before
   * the first markDisconnected; and the flag says whether there was one.
   */
  lemma {:induction false} WireIsCalls(coalesce: bool, calls: seq<Call>)
    ensures var s := Run(coalesce, calls);
      && Heard(s.wire) == Speech(calls) && s.requests == Made(calls) && s.coalesce == coalesce
      && (s.disconnected <==> MarkDisconnected in calls)
  {
    if calls != [] {
      var k := |calls| - 1;
      WireIsCalls(coalesce, calls[..k]);
      SpokenNext(Run(coalesce, calls[..k]), calls[k]);
      RunNext(coalesce, calls[..k], calls[k]);
      MadeNext(calls[..k], calls[k]);
      assert calls == calls[..k] + [calls[k]];
      CoalesceStays(Run(coalesce, calls[..k]), calls[k]);
      hide Run, Next, Heard, Speech, Made;
    }
  }

  // ---------------------------------------------------------------------
  // Resizes leave, coalesced
  // ---------------------------------------------------------------------

  /** The calls after which nothing may be pending. */
  predicate Flushes(s: State, c: Call) {
    c.Flush? || c.SendCommand? || (c.RunMicrotask? && s.microtasks > 0)
  }

  /** After any of them every resize called for has been answered on the wire. */
  lemma FlushAnswersAll(coalesce: bool, calls: seq<Call>, c: Call, t: nat)
    requires MarkDisconnected !in calls && t < |Made(calls)| && Flushes(Run(coalesce, calls), c)
    ensures var after := Run(coalesce, calls + [c]);
      after.pending == [] && t < |after.requests| && Answered(after, t)
  {
    var s := Run(coalesce, calls);
    WireIsCalls(coalesce, calls);
    RunNext(coalesce, calls, c);
    RunKeeps(coalesce, calls);
    RunKeeps(coalesce, calls + [c]);
    SpokenNext(s, c);
    hide Run, Answered, Numbered, Honest, Ordered, Heard, Made;
    var after := Next(s, c);
    assert after.pending == [];
    assert !Awaiting(after, t);
  }

  /** The queue of microtasks empties; each of them is one callback. */
  lemma {:induction false} MicrotasksRunOut(coalesce: bool, calls: seq<Call>, n: nat)
    requires n <= Run(coalesce, calls).microtasks
    ensures Run(coalesce, calls + seq(n, _ => RunMicrotask)).microtasks == Run(coalesce, calls).microtasks - n
  {
    if n == 0 {
      assert calls + seq(n, _ => RunMicrotask) == calls;
    } else {
      MicrotasksRunOut(coalesce, calls, n - 1);
      var ticks, all := seq(n - 1, _ => RunMicrotask), seq(n, _ => RunMicrotask);
      RunNext(coalesce, calls + ticks, RunMicrotask);
      hide Run;
      assert calls + all == calls + ticks + [RunMicrotask];
    }
  }

  predicate AllResizes(calls: seq<Call>) {
    forall i | 0 <= i < |calls| :: calls[i].ResizePane?
  }

  lemma ResizeWaits(calls: seq<Call>, c: Call)
    requires MarkDisconnected !in calls && c.ResizePane?
    ensures var before, after := Run(true, calls), Run(true, calls + [c]);
      && after.wire == before.wire && after.pending != []
      && after.microtasks == before.microtasks + (if before.pending == [] then 1 else 0)
  {
    RunNext(true, calls, c);
    RunKeeps(true, calls);
    WireIsCalls(true, calls);
    hide Run, Numbered, Honest, Ordered, Covered, Heard, Made, Speech;
  }

  /** While coalescing, resizes alone put nothing on the wire and queue one callback, unless one is still to come. */
  lemma {:induction false} ResizesWait(calls: seq<Call>, burst: seq<Call>)
    requires AllResizes(burst) && MarkDisconnected !in calls
    ensures var before, after := Run(true, calls), Run(true, calls + burst);
      && after.wire == before.wire
      && after.microtasks == before.microtasks + (if before.pending == [] && burst != [] then 1 else 0)
      && (after.pending == [] <==> before.pending == [] && burst == [])
  {
    if burst == [] {
      assert calls + burst == calls;
    } else {
      var k := |burst| - 1;
      ResizesWait(calls, burst[..k]);
      assert calls + burst == calls + burst[..k] + [burst[k]];
      NotMarked(calls, burst[..k]);
      ResizeWaits(calls + burst[..k], burst[k]);
      hide Run;
    }
  }

  /**
   * A burst of resizes, however many per pane, then a flush: what leaves is one
   * resize per pane, and for every pane of the burst it is the last size called for.
   */
  lemma BurstLeavesOnce(calls: seq<Call>, burst: seq<Call>, k: nat)
    requires AllResizes(burst) && k < |burst| && MarkDisconnected !in calls
    requires forall j | k < j < |burst| :: burst[j].paneId != burst[k].paneId
    ensures var before, after := Run(true, calls).wire, Run(true, calls + burst + [Flush]).wire;
      && before <= after
      && (forall i | |before| <= i < |after| :: after[i].msg.ResizeRequest?)
      && (forall i, j | |before| <= i < j < |after| :: after[i].msg.paneId != after[j].msg.paneId)
      && (exists i :: |before| <= i < |after| && after[i].msg == ResizeRequest(i + 1, burst[k].paneId, burst[k].size))
  {
    var s := Run(true, calls + burst);
    ResizesWait(calls, burst);
    RunNext(true, calls + burst, Flush);
    RunKeeps(true, calls + burst);
    WireIsCalls(true, calls + burst);
    LastWaits(calls, burst, k);
    hide Run, Heard, Made, Speech, Ordered, Covered;
    var i :| 0 <= i < |s.pending| && s.pending[i].paneId == burst[k].paneId && s.pending[i].size == burst[k].size;
    var after := Next(s, Flush);
    assert after.wire[|s.wire| + i].msg == ResizeRequest(|s.wire| + i + 1, burst[k].paneId, burst[k].size);
  }

  predicate Waits(pending: seq<Pending>, p: PaneId, size: Size) {
    exists i :: 0 <= i < |pending| && pending[i].paneId == p && pending[i].size == size
  }

  /** The latest size of a pane waits, and goes on waiting when another pane's is set. */
  lemma PutWaits(pending: seq<Pending>, e: Pending, p: PaneId, size: Size)
    requires OnePerPane(pending)
    ensures Waits(Put(pending, e), e.paneId, e.size)
    ensures Waits(pending, p, size) && e.paneId != p ==> Waits(Put(pending, e), p, size)
  {
    PutEntries(pending, e);
    hide Put;
    if Waits(pending, p, size) && e.paneId != p {
      var i :| 0 <= i < |pending| && pending[i].paneId == p && pending[i].size == size;
      assert Put(pending, e)[i] == pending[i];
    }
  }

  lemma NotMarked(calls: seq<Call>, burst: seq<Call>)
    requires AllResizes(burst) && MarkDisconnected !in calls
    ensures MarkDisconnected !in calls + burst
  {
    forall i | 0 <= i < |burst| ensures burst[i] != MarkDisconnected {
    }
  }

  lemma ResizePends(calls: seq<Call>, c: Call)
    requires MarkDisconnected !in calls && c.ResizePane?
    ensures var s := Run(true, calls);
      && OnePerPane(s.pending)
      && Run(true, calls + [c]).pending == Put(s.pending, Pending(c.paneId, c.size, |s.requests|))
  {
    RunNext(true, calls, c);
    RunKeeps(true, calls);
    WireIsCalls(true, calls);
    hide Run, Put, Numbered, Ordered, Covered, Heard, Made, Speech;
  }

  lemma {:induction false} LastWaits(calls: seq<Call>, burst: seq<Call>, k: nat)
    requires AllResizes(burst) && k < |burst| && MarkDisconnected !in calls
    requires forall j | k < j < |burst| :: burst[j].paneId != burst[k].paneId
    ensures Waits(Run(true, calls + burst).pending, burst[k].paneId, burst[k].size)
  {
    var n := |burst| - 1;
    var front := burst[..n];
    assert calls + burst == calls + front + [burst[n]];
    NotMarked(calls, front);
    ResizePends(calls + front, burst[n]);
    hide Run, Waits, Put;
    var s := Run(true, calls + front);
    PutWaits(s.pending, Pending(burst[n].paneId, burst[n].size, |s.requests|), burst[k].paneId, burst[k].size);
    if k < n {
      LastWaits(calls, front, k);
    }
  }

  // ---------------------------------------------------------------------
  // After markDisconnected
  // ---------------------------------------------------------------------

  /** Whatever was pending and whatever is called later, markDisconnected is the end of resizes. */
  lemma DisconnectSilencesResizes(coalesce: bool, calls: seq<Call>, more: seq<Call>)
    ensures var before, after := Run(coalesce, calls), Run(coalesce, calls + [MarkDisconnected] + more);
      before.wire <= after.wire && forall i | |before.wire| <= i < |after.wire| :: !after.wire[i].msg.ResizeRequest?
  {
    RunNext(coalesce, calls, MarkDisconnected);
    NoResizeAfterDisconnect(coalesce, calls + [MarkDisconnected], more);
  }

  lemma {:induction false} NoResizeAfterDisconnect(coalesce: bool, calls: seq<Call>, more: seq<Call>)
    requires Run(coalesce, calls).disconnected
    ensures var before, after := Run(coalesce, calls), Run(coalesce, calls + more);
      && after.disconnected && after.requests == before.requests
      && before.wire <= after.wire
      && forall i | |before.wire| <= i < |after.wire| :: !after.wire[i].msg.ResizeRequest?
  {
    if more == [] {
      assert calls + more == calls;
    } else {
      var k := |more| - 1;
      assert (calls + more)[..|calls + more| - 1] == calls + more[..k];
      NoResizeAfterDisconnect(coalesce, calls, more[..k]);
      RunKeeps(coalesce, calls + more[..k]);
      DisconnectedStep(Run(coalesce, calls + more[..k]), more[k]);
      hide Run, Next, Inv;
      var before, middle, after := Run(coalesce, calls), Run(coalesce, calls + more[..k]), Run(coalesce, calls + more);
      assert after == Next(middle, more[k]) by {
        RunNext(coalesce, calls + more[..k], more[k]);
        assert calls + more == calls + more[..k] + [more[k]];
      }
    }
  }

  lemma RunNext(coalesce: bool, calls: seq<Call>, c: Call)
    ensures Run(coalesce, calls + [c]) == Next(Run(coalesce, calls), c)
  {
    assert (calls + [c])[..|calls|] == calls;
  }

  lemma DisconnectedStep(s: State, c: Call)
    requires Inv(s) && s.disconnected
    ensures var t := Next(s, c);
      && t.disconnected && t.requests == s.requests && s.wire <= t.wire
      && forall i | |s.wire| <= i < |t.wire| :: !t.wire[i].msg.ResizeRequest?
  {
    hide Numbered, Honest, Ordered, Covered, Put;
  }

  // ---------------------------------------------------------------------
  // Verbs do not wait
  // ---------------------------------------------------------------------

  /**
   * A sendVerb leaves no earlier resize behind it if and only if none was
   * pending when it was called.
   */
  lemma VerbOvertakesExactlyPending(s: State, command: string)
    requires Inv(s)
    ensures var t := Next(Next(s, SendVerb(command)), RunMicrotask);
      (forall j | |s.wire| < j < |t.wire| && t.wire[j].msg.ResizeRequest? :: t.wire[|s.wire|].ticket <= t.wire[j].ticket)
      <==> s.pending == []
  {
    var v := Next(s, SendVerb(command));
    var t := Next(v, RunMicrotask);
    assert t.wire[|s.wire|] == v.wire[|s.wire|];
    if s.pending != [] {
      var j := |s.wire| + 1;
      assert t.wire[j] == Resizes(v.pending, v.seqNo)[0];
      assert t.wire[j].ticket < |s.requests| == t.wire[|s.wire|].ticket;
    }
  }

  lemma VerbOvertakesResize(p: PaneId, size: Size, command: string)
    ensures var s := Run(true, [ResizePane(p, size), SendVerb(command), RunMicrotask]);
      s.wire == [Sent(CommandRequest(1, 1, command), 1, true), Sent(ResizeRequest(2, p, size), 0, false)]
  {
    var c1, c2 := ResizePane(p, size), SendVerb(command);
    var calls := [c1, c2, RunMicrotask];
    assert calls[..2] == [c1, c2] && [c1, c2][..1] == [c1] && [c1][..0] == [];
    assert Run(true, [c1]) == Next(Start(true), c1);
    assert Run(true, [c1, c2]) == Next(Run(true, [c1]), c2);
  }

  // ---------------------------------------------------------------------
  // The closure `createInputApi` returns
  // ---------------------------------------------------------------------

  class Api {
    const coalesce: bool
    var seqNo: int
    var pending: seq<Pending>
    var flushScheduled: bool
    var microtasks: nat
    var disconnected: bool
    var wire: seq<Sent>
    var requests: seq<Request>
    ghost var calls: seq<Call>

    constructor (coalesceResizes: bool)
      ensures Valid() && calls == [] && coalesce == coalesceResizes
    {
      coalesce := coalesceResizes;
      seqNo, pending, flushScheduled, microtasks, disconnected := 1, [], false, 0, false;
      wire, requests, calls := [], [], [];
    }

    ghost function Now(): State
      reads this
    {
      State(coalesce, seqNo, pending, flushScheduled, microtasks, disconnected, wire, requests)
    }

    /** The closure's variables are those of the reference machine after the same calls. */
    ghost predicate Valid()
      reads this
    {
      Now() == Run(coalesce, calls)
    }

    ghost method Record(c: Call)
      requires Now() == Next(Run(coalesce, calls), c)
      modifies this`calls
      ensures Valid() && calls == old(calls) + [c]
    {
      calls := calls + [c];
      assert calls[..|calls| - 1] == old(calls);
    }

    method NextSeq() returns (n: int)
      modifies this`seqNo
      ensures n == old(seqNo) && seqNo == n + 1
    {
      n := seqNo;
      seqNo := seqNo + 1;
    }

    method Transmit(msg: WireMessage, awaited: bool)
      modifies this`wire
      ensures wire == old(wire) + [Sent(msg, |requests|, awaited)]
    {
      wire := wire + [Sent(msg, |requests|, awaited)];
    }

    /** `flushResizes`. */
    method FlushPending()
      modifies this`flushScheduled, this`pending, this`wire, this`seqNo
      ensures Now() == FlushResizes(old(Now()))
    {
      flushScheduled := false;
      ghost var out := Resizes(pending, seqNo);
      for i := 0 to |pending|
        invariant !flushScheduled && pending == old(pending)
        invariant seqNo == old(seqNo) + i
        invariant wire == old(wire) + out[..i]
      {
        var n := NextSeq();
        var e := pending[i];
        wire := wire + [Sent(ResizeRequest(n, e.paneId, e.size), e.ticket, false)];
      }
      pending := [];
    }

    method SendInput(p: PaneId, data: string)
      requires Valid()
      modifies this
      ensures Valid() && calls == old(calls) + [Call.SendInput(p, data)]
    {
      hide Run;
      var n := NextSeq();
      Transmit(Input(n, p, data), false);
      Record(Call.SendInput(p, data));
    }

    method AttachPane(p: PaneId)
      requires Valid()
      modifies this
      ensures Valid() && calls == old(calls) + [Call.AttachPane(p)]
    {
      hide Run;
      var n := NextSeq();
      Transmit(PaneAttach(n, p), false);
      Record(Call.AttachPane(p));
    }

    method ResizePane(p: PaneId, size: Size)
      requires Valid()
      modifies this
      ensures Valid() && calls == old(calls) + [Call.ResizePane(p, size)]
    {
      hide Run;
      if disconnected {
      } else if !coalesce {
        var n := NextSeq();
        Transmit(ResizeRequest(n, p, size), false);
        requests := requests + [Request(p, size)];
      } else {
        var i := PositionOf(pending, p);
        var e := Pending(p, size, |requests|);
        pending := if i.Some? then pending[i.value := e] else pending + [e];
        requests := requests + [Request(p, size)];
        ScheduleFlush();
      }
      Record(Call.ResizePane(p, size));
    }

    method ScheduleFlush()
      modifies this`flushScheduled, this`microtasks
      ensures flushScheduled
      ensures microtasks == if old(flushScheduled) then old(microtasks) else old(microtasks) + 1
    {
      if !flushScheduled {
        flushScheduled := true;
        microtasks := microtasks + 1;
      }
    }

    method Flush()
      requires Valid()
      modifies this
      ensures Valid() && calls == old(calls) + [Call.Flush]
    {
      hide Run, FlushResizes;
      if coalesce && |pending| > 0 {
        FlushPending();
      }
      Record(Call.Flush);
    }

    /** The promise callback of an earlier scheduleFlush. */
    method RunMicrotask()
      requires Valid() && microtasks > 0
      modifies this
      ensures Valid() && calls == old(calls) + [Call.RunMicrotask]
    {
      hide Run, FlushResizes;
      microtasks := microtasks - 1;
      FlushPending();
      Record(Call.RunMicrotask);
    }

    method MarkDisconnected()
      requires Valid()
      modifies this
      ensures Valid() && calls == old(calls) + [Call.MarkDisconnected]
    {
      hide Run;
      disconnected, pending, flushScheduled := true, [], false;
      Record(Call.MarkDisconnected);
    }

    method SendCommand(command: string)
      requires Valid()
      modifies this
      ensures Valid() && calls == old(calls) + [Call.SendCommand(command)]
    {
      hide Run;
      if |pending| > 0 {
        FlushPending();
      }
      var n := NextSeq();
      Transmit(CommandRequest(n, seqNo - 1, command), false);
      Record(Call.SendCommand(command));
    }

    /** `sendVerb` and `sendPaneCapture`, up to the promise. */
    method SendVerb(command: string) returns (correlationId: int)
      requires Valid()
      modifies this
      ensures Valid() && calls == old(calls) + [Call.SendVerb(command)]
      ensures correlationId == old(seqNo)
    {
      hide Run;
      correlationId := NextSeq();
      Transmit(CommandRequest(correlationId, correlationId, command), true);
      Record(Call.SendVerb(command));
    }
  }
}
