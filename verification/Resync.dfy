/**
 * Recovery from lost messages: a mirror, a FIFO channel that loses messages and
 * a session-proxy that answers resync.request with a snapshot at the next
 * sequence number (packages/protocol/src/session-proxy-control.ts).
 */
module Resync {
  import opened Prelude
  import opened ClientModel
  import opened Replica
  import opened Projection
  import opened Deltas
  import opened Agreement

  datatype System = System(
    log: seq<Body>,              // everything the server has sent on this connection
    channel: seq<nat>,           // log indices still in flight, oldest first
    core: Core,                  // the mirror
    requests: nat,               // resync.requests the server has not answered
    answer: Option<nat>,         // log index of the answering snapshot
    sent: nat,                   // resync.requests the mirror sent
    closed: bool)                // the mirror closed the transport

  datatype Event =
    | Emit(body: Body)           // the server sends anything but a snapshot
    | Answer(snapshot: Snapshot) // the server answers a resync.request
    | Deliver                    // the oldest message in flight arrives
    | Lose(k: nat)               // a message in flight is lost

  /** The mirror has just applied the connection's first snapshot. */
  function Start(s: Snapshot, base: int): System {
    System([SnapshotBody(s)], [], ReceiveSnapshot(INITIAL, base, s), 0, None, 0, false)
  }

  /** No loss at or after the answering snapshot. */
  predicate Enabled(s: System, e: Event) {
    match e
    case Emit(b) => !b.SnapshotBody?
    case Answer(_) => s.requests > 0
    case Deliver => s.channel != [] && s.channel[0] < |s.log|
    case Lose(k) => k < |s.channel| && (s.answer.Some? ==> s.channel[k] < s.answer.value)
  }

  function Step(s: System, base: int, e: Event): System
    requires Enabled(s, e)
  {
    match e
    case Emit(b) => s.(log := s.log + [b], channel := s.channel + [|s.log|])
    case Answer(snap) =>
      s.(log := s.log + [SnapshotBody(snap)], channel := s.channel + [|s.log|], requests := s.requests - 1,
         answer := if s.answer.None? then Some(|s.log|) else s.answer)
    case Lose(k) => s.(channel := s.channel[..k] + s.channel[k + 1..])
    case Deliver =>
      var (core, reaction) := Receive(s.core, Wire(s.log, base, s.channel[0]));
      s.(channel := s.channel[1..], core := core,
         requests := s.requests + if reaction.GapRequested? then 1 else 0,
         sent := s.sent + if reaction.GapRequested? then 1 else 0,
         closed := s.closed || reaction.GapEscalated?)
  }

  function Last(s: System, base: int): int {
    OrElse(s.core.lastSeq, base - 1) - base
  }

  /** Messages in flight are later than anything applied, and in order. */
  ghost predicate Fifo(s: System, base: int) {
    && 0 <= Last(s, base) < |s.log|
    && (forall i, j | 0 <= i < j < |s.channel| :: s.channel[i] < s.channel[j])
    && (forall i | 0 <= i < |s.channel| :: Last(s, base) < s.channel[i] < |s.log|)
  }

  ghost predicate InFlight(s: System, n: int) {
    exists i :: 0 <= i < |s.channel| && s.channel[i] == n
  }

  ghost predicate Inv(s: System, base: int) {
    && s.core.lastSeq.Some?
    && Fifo(s, base)
    && Faithful(s.core, s.log, base)
    && !s.closed
    && (forall n | 1 <= n < |s.log| :: s.log[n].SnapshotBody? <==> s.answer == Some(n))
    && (s.answer.Some? ==> 1 <= s.answer.value < |s.log|)
    && (if !s.core.resyncRequested && !s.core.resyncDelivered then
          // no gap seen so far
          s.sent == 0 && s.requests == 0 && s.answer.None?
        else if s.core.resyncRequested then
          // the next expected message is gone for good; nothing from the answer on is
          && s.sent == 1 && !s.core.resyncDelivered
          && !InFlight(s, Last(s, base) + 1)
          && (s.answer.None? <==> s.requests == 1) && s.requests <= 1
          && (s.answer.Some? ==> Last(s, base) + 1 < s.answer.value)
          && Last(s, base) + 1 < |s.log|
          && (s.answer.Some? ==> forall n | s.answer.value <= n < |s.log| :: InFlight(s, n))
        else
          // resynchronised: everything after the copy is on its way
          && s.sent == 1 && s.requests == 0 && s.answer.Some?
          && s.answer.value <= Last(s, base)
          && forall n | Last(s, base) < n < |s.log| :: InFlight(s, n))
  }

  lemma StartInv(s: Snapshot, base: int)
    ensures Inv(Start(s, base), base)
  {
  }

  lemma AppendInFlight(s: System, t: System, n: nat)
    requires t.channel == s.channel + [n]
    ensures forall m :: InFlight(t, m) <==> InFlight(s, m) || m == n
  {
    forall m ensures InFlight(t, m) <==> InFlight(s, m) || m == n {
      if InFlight(s, m) {
        var i :| 0 <= i < |s.channel| && s.channel[i] == m;
        assert t.channel[i] == m;
      }
      assert t.channel[|s.channel|] == n;
    }
  }

  lemma EmitStep(s: System, base: int, e: Event)
    requires Inv(s, base) && Enabled(s, e) && (e.Emit? || e.Answer?)
    ensures Inv(Step(s, base, e), base)
  {
    hide StateAt, ApplySnapshot, ApplyDelta;
    var t := Step(s, base, e);
    StateAtPrefix(s.log, if e.Emit? then [e.body] else [SnapshotBody(e.snapshot)], Last(s, base));
    AppendInFlight(s, t, |s.log|);
    hide InFlight;
  }

  lemma LoseStep(s: System, base: int, k: nat)
    requires Inv(s, base) && Enabled(s, Lose(k))
    requires s.core.resyncRequested || !s.core.resyncDelivered
    ensures Inv(Step(s, base, Lose(k)), base)
  {
    hide StateAt, ApplySnapshot, ApplyDelta;
    var t := Step(s, base, Lose(k));
    forall i | 0 <= i < |t.channel| ensures t.channel[i] == s.channel[if i < k then i else i + 1] {
    }
    forall m | InFlight(s, m) && m != s.channel[k] ensures InFlight(t, m) {
      var i :| 0 <= i < |s.channel| && s.channel[i] == m;
      assert t.channel[if i < k then i else i - 1] == m;
    }
    forall m | InFlight(t, m) ensures InFlight(s, m) {
    }
  }

  lemma DeliveredInFlight(s: System, base: int)
    requires Inv(s, base) && s.channel != []
    ensures var t, n := Step(s, base, Deliver), s.channel[0];
      && (forall i | 0 <= i < |t.channel| :: t.channel[i] == s.channel[i + 1] > n)
      && (forall m :: InFlight(s, m) <==> InFlight(t, m) || m == n)
      && (forall m | InFlight(s, m) :: n <= m)
  {
    hide StateAt, ApplySnapshot, ApplyDelta, Receive, Faithful;
    var t, n := Step(s, base, Deliver), s.channel[0];
    forall m ensures InFlight(s, m) <==> InFlight(t, m) || m == n {
      if InFlight(t, m) {
        var i :| 0 <= i < |t.channel| && t.channel[i] == m;
        assert s.channel[i + 1] == m;
      }
      if InFlight(s, m) && m != n {
        var i :| 0 <= i < |s.channel| && s.channel[i] == m;
        assert t.channel[i - 1] == m;
      }
    }
  }

  lemma DeliverStep(s: System, base: int)
    requires Inv(s, base) && s.channel != []
    ensures Inv(Step(s, base, Deliver), base)
  {
    hide StateAt, ApplySnapshot, ApplyDelta, Faithful;
    var t, n := Step(s, base, Deliver), s.channel[0];
    FaithfulStep(s.core, s.log, base, n);
    DeliveredInFlight(s, base);
    assert s.log[n].SnapshotBody? <==> s.answer == Some(n);
    hide InFlight;
    var next := Last(s, base) + 1;
    if s.core.resyncDelivered && !s.core.resyncRequested {
      assert n == next by {
        assert InFlight(s, next);
      }
    } else if s.core.resyncRequested && s.answer.Some? {
      assert InFlight(s, s.answer.value);
    }
  }

  // ---------------------------------------------------------------------
  // Whole runs
  // ---------------------------------------------------------------------

  /** The system after `events`, if each was enabled in its turn. */
  function RunTo(first: Snapshot, base: int, events: seq<Event>): Option<System> {
    if events == [] then Some(Start(first, base))
    else
      var k := |events| - 1;
      var before := RunTo(first, base, events[..k]);
      if before.Some? && Enabled(before.value, events[k]) then Some(Step(before.value, base, events[k])) else None
  }

  lemma {:induction false} RunInv(first: Snapshot, base: int, events: seq<Event>)
    requires RunTo(first, base, events).Some?
    ensures Inv(RunTo(first, base, events).value, base)
  {
    hide Inv, Step, Start;
    if events == [] {
      StartInv(first, base);
    } else {
      var k := |events| - 1;
      RunInv(first, base, events[..k]);
      StepInv(RunTo(first, base, events[..k]).value, base, events[k]);
    }
  }

  lemma StepInv(s: System, base: int, e: Event)
    requires Inv(s, base) && Enabled(s, e)
    ensures Inv(Step(s, base, e), base)
  {
    hide Step, Faithful, InFlight;
    match e
    case Emit(_) => EmitStep(s, base, e);
    case Answer(_) => EmitStep(s, base, e);
    case Deliver => DeliverStep(s, base);
    case Lose(k) => LoseStep(s, base, k);
  }

  lemma NothingInFlight(s: System, n: int)
    requires s.channel == []
    ensures !InFlight(s, n)
  {
  }

  /**
   * Convergence. Whatever is sent, lost before the answer and delivered, the
   * transport is never closed and at most one resync.request is sent; once a
   * gap was seen, the request answered and the channel drained, the copy is the
   * server's state at its very last message.
   */
  lemma Convergence(first: Snapshot, base: int, events: seq<Event>)
    requires RunTo(first, base, events).Some?
    ensures var s := RunTo(first, base, events).value;
      && !s.closed && s.sent <= 1
      && |s.log| > 0
      && (s.channel == [] && s.sent == 1 && s.requests == 0 ==>
            s.core.lastSeq == Some(base + |s.log| - 1) && s.core.model == StateAt(s.log, |s.log| - 1))
  {
    hide RunTo, StateAt, InFlight;
    RunInv(first, base, events);
    var s := RunTo(first, base, events).value;
    if s.channel == [] && s.sent == 1 && s.requests == 0 {
      if s.core.resyncRequested {
        NothingInFlight(s, s.answer.value);
        assert false;
      } else if Last(s, base) < |s.log| - 1 {
        NothingInFlight(s, |s.log| - 1);
        assert false;
      }
    }
  }

  /** Without a later message nothing reveals a loss: the copy stays behind and asks for nothing. */
  lemma TailLossGoesUnnoticed(first: Snapshot, base: int, b: Body)
    requires !b.SnapshotBody?
    ensures var run := RunTo(first, base, [Emit(b), Lose(0)]);
      && run.Some? && run.value.channel == [] && run.value.sent == 0
      && run.value.core.lastSeq == Some(base) && |run.value.log| == 2
  {
    var events := [Emit(b), Lose(0)];
    assert events[..1] == [Emit(b)] && [Emit(b)][..0] == [];
    assert RunTo(first, base, [Emit(b)]).Some?;
  }

  // ---------------------------------------------------------------------
  // Exactly when a drained channel means an up-to-date copy
  // ---------------------------------------------------------------------

  predicate Lossy(events: seq<Event>) {
    exists i :: 0 <= i < |events| && events[i].Lose?
  }

  /** Everything after the copy is on its way. */
  ghost predicate Complete(s: System, base: int) {
    forall n | Last(s, base) < n < |s.log| :: InFlight(s, n)
  }

  /** Until a gap shows, the channel misses something exactly if something was lost. */
  ghost predicate LossInv(s: System, base: int, lossy: bool) {
    if s.sent == 0 then Complete(s, base) <==> !lossy else lossy
  }

  lemma EmitLoss(s: System, base: int, e: Event, lossy: bool)
    requires Inv(s, base) && LossInv(s, base, lossy) && Enabled(s, e) && (e.Emit? || e.Answer?)
    ensures LossInv(Step(s, base, e), base, lossy)
  {
    hide StateAt, ApplySnapshot, ApplyDelta, Faithful;
    AppendInFlight(s, Step(s, base, e), |s.log|);
    hide InFlight;
  }

  lemma LoseLoss(s: System, base: int, k: nat, lossy: bool)
    requires Inv(s, base) && LossInv(s, base, lossy) && Enabled(s, Lose(k))
    ensures LossInv(Step(s, base, Lose(k)), base, true)
  {
    hide StateAt, ApplySnapshot, ApplyDelta, Faithful;
    var t := Step(s, base, Lose(k));
    forall i | 0 <= i < |t.channel| ensures t.channel[i] == s.channel[if i < k then i else i + 1] != s.channel[k] {
    }
    assert !InFlight(t, s.channel[k]);
  }

  lemma DeliverLoss(s: System, base: int, lossy: bool)
    requires Inv(s, base) && LossInv(s, base, lossy) && s.channel != []
    ensures LossInv(Step(s, base, Deliver), base, lossy)
  {
    hide StateAt, ApplySnapshot, ApplyDelta, Faithful;
    var n, next := s.channel[0], Last(s, base) + 1;
    DeliveredInFlight(s, base);
    assert s.log[n].SnapshotBody? <==> s.answer == Some(n);
    hide InFlight;
    if s.sent == 0 && n > next {
      assert !InFlight(s, next);
    }
  }

  lemma StepLoss(s: System, base: int, e: Event, lossy: bool)
    requires Inv(s, base) && LossInv(s, base, lossy) && Enabled(s, e)
    ensures LossInv(Step(s, base, e), base, lossy || e.Lose?)
  {
    hide Step, LossInv, Inv;
    match e
    case Emit(_) => EmitLoss(s, base, e, lossy);
    case Answer(_) => EmitLoss(s, base, e, lossy);
    case Deliver => DeliverLoss(s, base, lossy);
    case Lose(k) => LoseLoss(s, base, k, lossy);
  }

  lemma LossyNext(events: seq<Event>, e: Event)
    ensures Lossy(events + [e]) <==> Lossy(events) || e.Lose?
  {
    var all := events + [e];
    assert all[|events|] == e && forall i | 0 <= i < |events| :: all[i] == events[i];
  }

  lemma {:induction false} RunLoss(first: Snapshot, base: int, events: seq<Event>)
    requires RunTo(first, base, events).Some?
    ensures LossInv(RunTo(first, base, events).value, base, Lossy(events))
  {
    hide Inv, Step;
    if events == [] {
    } else {
      hide LossInv, Start;
      var k := |events| - 1;
      RunLoss(first, base, events[..k]);
      RunInv(first, base, events[..k]);
      StepLoss(RunTo(first, base, events[..k]).value, base, events[k], Lossy(events[..k]));
      LossyNext(events[..k], events[k]);
      assert events[..k] + [events[k]] == events;
    }
  }

  /**
   * For every run that drained the channel, the copy is at the server's head if
   * and only if nothing was ever lost, or the one resync.request was answered.
   */
  lemma DrainedMeansCurrent(first: Snapshot, base: int, events: seq<Event>)
    requires RunTo(first, base, events).Some? && RunTo(first, base, events).value.channel == []
    ensures var s := RunTo(first, base, events).value;
      s.core.lastSeq == Some(base + |s.log| - 1) <==> !Lossy(events) || (s.sent == 1 && s.requests == 0)
  {
    RunInv(first, base, events);
    RunLoss(first, base, events);
    var s := RunTo(first, base, events).value;
    hide RunTo, Lossy, InFlight, StateAt, Faithful;
    NothingInFlight(s, |s.log| - 1);
    assert Complete(s, base) <==> Last(s, base) == |s.log| - 1;
    if s.answer.Some? {
      NothingInFlight(s, s.answer.value);
    }
  }

  // ---------------------------------------------------------------------
  // The copy and the server's model
  // ---------------------------------------------------------------------

  /** The messages that the diff of two models can produce: no slot fillers, no client counts. */
  function Topology(bs: seq<Body>): seq<Body> {
    if bs == [] then []
    else
      var k := |bs| - 1;
      Topology(bs[..k]) + if Stateless(bs[k]) || bs[k].ClientCountChanged? then [] else [bs[k]]
  }

  predicate SameButCount(m: Model, n: Model) {
    m == n.(attachedClientCount := m.attachedClientCount)
  }

  predicate OfWindows(b: Body) {
    b.WindowAdded? || b.WindowClosed? || b.WindowRenamed? || b.WindowSyncChanged? || b.WindowMonitorActivityChanged?
    || b.WindowMonitorSilenceChanged? || b.LayoutUpdated? || b.FocusChanged?
  }

  lemma ApplySameButCount(m: Model, n: Model, b: Body)
    requires SameButCount(m, n)
    ensures SameButCount(ApplyDelta(m, b), ApplyDelta(n, b))
    ensures b.ClientCountChanged? ==> SameButCount(ApplyDelta(m, b), n)
  {
    if OfWindows(b) {
      WindowSameButCount(m, n, b);
    } else {
      OtherSameButCount(m, n, b);
    }
    hide ApplyDelta;
  }

  lemma WindowSameButCount(m: Model, n: Model, b: Body)
    requires SameButCount(m, n) && OfWindows(b)
    ensures SameButCount(ApplyDelta(m, b), ApplyDelta(n, b))
  {
    hide Activate;
  }

  lemma OtherSameButCount(m: Model, n: Model, b: Body)
    requires SameButCount(m, n) && !OfWindows(b)
    ensures SameButCount(ApplyDelta(m, b), ApplyDelta(n, b))
    ensures b.ClientCountChanged? ==> SameButCount(ApplyDelta(m, b), n)
  {
    hide Activate;
  }

  lemma {:induction false} TopologyIsAll(m: Model, bs: seq<Body>)
    ensures SameButCount(ApplyAll(m, bs), ApplyAll(m, Topology(bs)))
  {
    if bs != [] {
      hide ApplyDelta;
      var k := |bs| - 1;
      TopologyIsAll(m, bs[..k]);
      ApplySameButCount(ApplyAll(m, bs[..k]), ApplyAll(m, Topology(bs[..k])), bs[k]);
      if Stateless(bs[k]) || bs[k].ClientCountChanged? {
        if Stateless(bs[k]) {
          StatelessKeeps(ApplyAll(m, bs[..k]), bs[k]);
        }
        assert Topology(bs) == Topology(bs[..k]);
      } else {
        var t := Topology(bs);
        assert t[..|t| - 1] == Topology(bs[..k]);
      }
    }
  }

  lemma SameView(m: Model, n: Model, s: ServerModel, client: Option<string>)
    requires SameButCount(m, n)
    ensures Agrees(m, s, client) <==> Agrees(n, s, client)
    ensures AgreesButForTitles(m, s, client) <==> AgreesButForTitles(n, s, client)
  {
    hide ServerView, PaneViews, PaneTitles;
  }

  /** A snapshot starts afresh: nothing before it matters. */
  lemma {:induction false} SnapshotResets(before: seq<Body>, s: Snapshot, after: seq<Body>)
    requires forall i | 0 <= i < |after| :: !after[i].SnapshotBody?
    ensures var log := before + [SnapshotBody(s)] + after;
      StateAt(log, |log| - 1) == ApplyAll(ApplySnapshot(s), after)
    decreases |after|
  {
    hide ApplyDelta, ApplySnapshot;
    var log := before + [SnapshotBody(s)] + after;
    if after != [] {
      var k := |after| - 1;
      var shorter := before + [SnapshotBody(s)] + after[..k];
      SnapshotResets(before, s, after[..k]);
      StateAtPrefix(shorter, [after[k]], |shorter| - 1);
      assert log == shorter + [after[k]];
    }
  }

  /**
   * From the server's model to the client's eyes: a mirror that recovered and
   * drained shows the server's current model, whatever was lost on the way; of
   * the titles, if all of them could be announced.
   */
  lemma RecoveredMirrorAgrees(first: Snapshot, base: int, events: seq<Event>,
                              before: seq<Body>, after: seq<Body>,
                              models: seq<ServerModel>, client: Option<string>, why: seq<Causality>,
                              count: Option<int>, connection: Option<ConnectionId>)
    requires |models| == |why| + 1 && forall k | 0 <= k < |models| :: Ordered(models[k])
    requires AnnounceableRunButForTitles(models)
    requires RunTo(first, base, events).Some?
    requires var s := RunTo(first, base, events).value;
      && s.channel == [] && s.sent == 1 && s.requests == 0
      && s.log == before + [SnapshotBody(ProjectSnapshot(models[0], client, count, connection))] + after
    requires forall i | 0 <= i < |after| :: !after[i].SnapshotBody?
    requires Topology(after) == Batches(models, client, why)
    ensures AgreesButForTitles(RunTo(first, base, events).value.core.model, models[|why|], client)
    ensures AnnounceableRun(models) ==> Agrees(RunTo(first, base, events).value.core.model, models[|why|], client)
  {
    hide *;
    Convergence(first, base, events);
    var start := ApplySnapshot(ProjectSnapshot(models[0], client, count, connection));
    SnapshotResets(before, ProjectSnapshot(models[0], client, count, connection), after);
    TopologyIsAll(start, after);
    SameView(ApplyAll(start, after), ApplyAll(start, Topology(after)), models[|why|], client);
    RunAgreesButForTitles(models, client, why, count, connection);
    if AnnounceableRun(models) {
      RunAgrees(models, client, why, count, connection);
    }
  }
}
