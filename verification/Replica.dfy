/**
 * The mirror's sequence-gap state machine (clients/ts/src/mirror.ts,
 * receiveSnapshot and receiveDelta) against one server log and a channel that
 * may drop, repeat and reorder.
 */
module Replica {
  import opened Prelude
  import opened ClientModel

  /** The mirror's replication state. `lastSeq` is None before the first snapshot. */
  datatype Core = Core(model: Model, lastSeq: Option<int>, resyncRequested: bool, resyncDelivered: bool)

  const INITIAL := Core(EMPTY, None, false, false)

  datatype Reaction =
    | Ignored            // not initialised, or a snapshot in the wrong place
    | Changed            // the model was replaced and handlers fired
    | Consumed           // a sequence slot was used, the model was not touched
    | GapDeduped         // gap while a resync.request is in flight
    | GapEscalated       // gap after a resync snapshot: the transport is closed
    | GapRequested       // first gap: resync.request

  /** Server messages that use a sequence slot but bear no topology. */
  predicate Stateless(b: Body) {
    b.CommandResponse? || b.ProxyError? || b.Capabilities? || b.PaneAttachFailed?
    || b.HydrationBegin? || b.HydrationEnd? || b.PaneNotify?
  }

  function ReceiveSnapshot(c: Core, seqNo: int, s: Snapshot): Core {
    Core(ApplySnapshot(s), Some(seqNo), false, c.resyncDelivered || c.resyncRequested)
  }

  function ReceiveDelta(c: Core, msg: Message): (Core, Reaction) {
    if c.lastSeq.None? || msg.body.SnapshotBody? then (c, Ignored)
    else if msg.seqNo != c.lastSeq.value + 1 then
      if c.resyncRequested then (c, GapDeduped)
      else if c.resyncDelivered then (c, GapEscalated)
      else (c.(resyncRequested := true), GapRequested)
    else if Stateless(msg.body) then (c.(lastSeq := Some(msg.seqNo)), Consumed)
    else (c.(model := ApplyDelta(c.model, msg.body), lastSeq := Some(msg.seqNo)), Changed)
  }

  /** The routing of `connectTo`. */
  function Receive(c: Core, msg: Message): (Core, Reaction) {
    if msg.body.SnapshotBody? then (ReceiveSnapshot(c, msg.seqNo, msg.body.snapshot), Changed)
    else ReceiveDelta(c, msg)
  }

  // ---------------------------------------------------------------------
  // The server's log
  // ---------------------------------------------------------------------

  /** The state the log stands for after its message `n`; a snapshot starts afresh. */
  function StateAt(log: seq<Body>, n: nat): Model
    requires n < |log|
  {
    if log[n].SnapshotBody? then ApplySnapshot(log[n].snapshot)
    else ApplyDelta(if n == 0 then EMPTY else StateAt(log, n - 1), log[n])
  }

  lemma {:induction false} StateAtPrefix(log: seq<Body>, more: seq<Body>, n: nat)
    requires n < |log|
    ensures StateAt(log + more, n) == StateAt(log, n)
  {
    if n > 0 {
      StateAtPrefix(log, more, n - 1);
    }
  }

  lemma StatelessKeeps(m: Model, b: Body)
    requires Stateless(b)
    ensures ApplyDelta(m, b) == m
  {
  }

  /** Message `n` of the log travels with sequence number `base + n`. */
  function Wire(log: seq<Body>, base: int, n: nat): Message
    requires n < |log|
  {
    Message(base + n, log[n])
  }

  /** Deliver log messages by index: any selection, any order, any repetition. */
  function DeliverAll(c: Core, log: seq<Body>, base: int, deliveries: seq<nat>): Core
    requires forall i | 0 <= i < |deliveries| :: deliveries[i] < |log|
  {
    if deliveries == [] then c
    else
      var k := |deliveries| - 1;
      Receive(DeliverAll(c, log, base, deliveries[..k]), Wire(log, base, deliveries[k])).0
  }

  /** The copy is the log folded up to exactly lastSeq. */
  ghost predicate Faithful(c: Core, log: seq<Body>, base: int) {
    c.lastSeq.Some? ==>
      && base <= c.lastSeq.value < base + |log|
      && c.model == StateAt(log, c.lastSeq.value - base)
  }

  lemma FaithfulStep(c: Core, log: seq<Body>, base: int, n: nat)
    requires n < |log| && Faithful(c, log, base)
    ensures Faithful(Receive(c, Wire(log, base, n)).0, log, base)
  {
    hide ApplyDelta, ApplySnapshot;
    if Stateless(log[n]) && n > 0 {
      StatelessKeeps(StateAt(log, n - 1), log[n]);
    }
  }

  /**
   * Replica safety. Under any dropping, repeating and reordering of one log, an
   * initialised mirror holds the log's state at lastSeq: no message up to there
   * was skipped, applied twice or applied out of order.
   */
  lemma {:induction false} ReplicaSafety(log: seq<Body>, base: int, deliveries: seq<nat>)
    requires forall i | 0 <= i < |deliveries| :: deliveries[i] < |log|
    ensures Faithful(DeliverAll(INITIAL, log, base, deliveries), log, base)
  {
    if deliveries != [] {
      var k := |deliveries| - 1;
      ReplicaSafety(log, base, deliveries[..k]);
      FaithfulStep(DeliverAll(INITIAL, log, base, deliveries[..k]), log, base, deliveries[k]);
    }
  }

  // ---------------------------------------------------------------------
  // At most one resync.request, whatever arrives
  // ---------------------------------------------------------------------

  function ReceiveAll(c: Core, msgs: seq<Message>): Core {
    if msgs == [] then c else Receive(ReceiveAll(c, msgs[..|msgs| - 1]), msgs[|msgs| - 1]).0
  }

  /** How many resync.requests receiving `msgs` sends. */
  function Requests(c: Core, msgs: seq<Message>): nat {
    if msgs == [] then 0
    else
      var k := |msgs| - 1;
      Requests(c, msgs[..k]) + if Receive(ReceiveAll(c, msgs[..k]), msgs[k]).1.GapRequested? then 1 else 0
  }

  lemma {:induction false} AtMostOneRequest(msgs: seq<Message>)
    ensures var c := ReceiveAll(INITIAL, msgs);
      Requests(INITIAL, msgs) == if c.resyncRequested || c.resyncDelivered then 1 else 0
  {
    hide ApplyDelta, ApplySnapshot;
    if msgs != [] {
      AtMostOneRequest(msgs[..|msgs| - 1]);
    }
  }

  // ---------------------------------------------------------------------
  // What every gap leads to
  // ---------------------------------------------------------------------

  /** Message `k` was out of sequence when it came. */
  predicate GapAt(msgs: seq<Message>, k: nat)
    requires k < |msgs|
  {
    var lastSeq := ReceiveAll(INITIAL, msgs[..k]).lastSeq;
    !msgs[k].body.SnapshotBody? && lastSeq.Some? && msgs[k].seqNo != lastSeq.value + 1
  }

  predicate SawGap(msgs: seq<Message>) {
    exists k :: 0 <= k < |msgs| && GapAt(msgs, k)
  }

  /** A snapshot came after a gap. */
  predicate Recovered(msgs: seq<Message>) {
    exists j :: 0 <= j < |msgs| && msgs[j].body.SnapshotBody? && SawGap(msgs[..j])
  }

  lemma GapsNext(msgs: seq<Message>)
    requires msgs != []
    ensures var front, last := msgs[..|msgs| - 1], msgs[|msgs| - 1];
      && (SawGap(msgs) <==> SawGap(front) || GapAt(msgs, |msgs| - 1))
      && (Recovered(msgs) <==> Recovered(front) || (last.body.SnapshotBody? && SawGap(front)))
  {
    var n := |msgs| - 1;
    var front := msgs[..n];
    assert forall k | 0 <= k <= n :: front[..k] == msgs[..k];
    hide ReceiveAll;
    if SawGap(front) {
      var k :| 0 <= k < n && GapAt(front, k);
      assert GapAt(msgs, k);
    }
    if SawGap(msgs) {
      var k :| 0 <= k <= n && GapAt(msgs, k);
      assert k < n ==> GapAt(front, k);
    }
    hide SawGap;
    if Recovered(front) {
      var j :| 0 <= j < n && front[j].body.SnapshotBody? && SawGap(front[..j]);
      assert msgs[j].body.SnapshotBody? && SawGap(msgs[..j]);
    }
    if Recovered(msgs) {
      var j :| 0 <= j <= n && msgs[j].body.SnapshotBody? && SawGap(msgs[..j]);
      assert j < n ==> front[j].body.SnapshotBody? && SawGap(front[..j]);
    }
  }

  /** The two flags tell what the messages were. */
  lemma {:induction false} FlagsTell(msgs: seq<Message>)
    ensures var c := ReceiveAll(INITIAL, msgs);
      && (c.resyncDelivered <==> Recovered(msgs))
      && (c.resyncRequested <==> SawGap(msgs) && !Recovered(msgs))
  {
    hide ApplyDelta, ApplySnapshot, SawGap, Recovered;
    if msgs == [] {
      assert !SawGap([]) && !Recovered([]) by { NoGaps(); }
    } else {
      FlagsTell(msgs[..|msgs| - 1]);
      GapsNext(msgs);
    }
  }

  lemma NoGaps()
    ensures !SawGap([]) && !Recovered([])
  {
  }

  /**
   * Whatever came before, a message out of sequence leaves model and sequence
   * number alone; the first of all is answered by a resync.request, one that
   * comes before a snapshot is ignored, and one that comes after a snapshot
   * followed a gap closes the transport. Nothing else asks or closes.
   */
  lemma GapReaction(msgs: seq<Message>, msg: Message)
    ensures var c := ReceiveAll(INITIAL, msgs);
      var (after, reaction) := Receive(c, msg);
      var gap := GapAt(msgs + [msg], |msgs|);
      && (reaction.GapRequested? <==> gap && !SawGap(msgs))
      && (reaction.GapDeduped? <==> gap && SawGap(msgs) && !Recovered(msgs))
      && (reaction.GapEscalated? <==> gap && Recovered(msgs))
      && (gap ==> after.model == c.model && after.lastSeq == c.lastSeq)
  {
    FlagsTell(msgs);
    assert (msgs + [msg])[..|msgs|] == msgs;
    RecoveredSaw(msgs);
    hide ReceiveAll, SawGap, Recovered, ApplyDelta, ApplySnapshot;
  }

  /** Answers, errors, capabilities, hydration and notices use up their number and change nothing a handler is told of. */
  lemma SlotFillersChangeNothing(c: Core, msg: Message)
    requires var b := msg.body;
      b.CommandResponse? || b.ProxyError? || b.Capabilities? || b.PaneAttachFailed? || b.HydrationBegin? || b.HydrationEnd?
      || b.PaneNotify?
    ensures var (after, reaction) := Receive(c, msg);
      && !reaction.Changed? && after.model == c.model
      && (c.lastSeq.Some? && msg.seqNo == c.lastSeq.value + 1 ==>
            reaction.Consumed? && after == c.(lastSeq := Some(msg.seqNo)))
  {
  }

  lemma RecoveredSaw(msgs: seq<Message>)
    ensures Recovered(msgs) ==> SawGap(msgs)
  {
    if Recovered(msgs) {
      var j :| 0 <= j < |msgs| && msgs[j].body.SnapshotBody? && SawGap(msgs[..j]);
      var k :| 0 <= k < j && GapAt(msgs[..j], k);
      assert msgs[..j][..k] == msgs[..k];
      assert GapAt(msgs, k);
    }
  }
}
