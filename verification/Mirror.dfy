/**
 * The stateful mirror (clients/ts/src/mirror.ts, class Mirror): the sequence-gap
 * machine of Replica in place, the forwarded messages, and the attached hook.
 */
module Mirror {
  import opened Prelude
  import opened ClientModel
  import opened Replica
  import opened Renderer

  const HYDRATION_LOG_CAP := 1024

  datatype AttachError = NotWired

  /** The messages the mirror reports on the hydration hook. */
  predicate IsHydration(b: Body) {
    b.HydrationBegin? || b.HydrationEnd? || b.PaneAttachFailed?
  }

  /** The messages forwarded before any gating. */
  predicate IsForwarded(b: Body) {
    b.CommandResponse? || b.ProxyError?
  }

  function Forwarded(msgs: seq<Message>): seq<Body> {
    if msgs == [] then []
    else
      var b := msgs[|msgs| - 1].body;
      Forwarded(msgs[..|msgs| - 1]) + if IsForwarded(b) then [b] else []
  }

  /** Hydration events that were in sequence when they arrived. */
  function Hydrations(c: Core, msgs: seq<Message>): seq<Body> {
    if msgs == [] then []
    else
      var k := |msgs| - 1;
      var accepted := Receive(ReceiveAll(c, msgs[..k]), msgs[k]).1.Consumed?;
      Hydrations(c, msgs[..k]) + if accepted && IsHydration(msgs[k].body) then [msgs[k].body] else []
  }

  function LastFew<T>(s: seq<T>, n: nat): (r: seq<T>)
    ensures |r| <= n
  {
    if |s| <= n then s else s[|s| - n..]
  }

  lemma LastFewAreTheEnd<T>(s: seq<T>, n: nat)
    ensures var r := LastFew(s, n); |r| == (if |s| <= n then |s| else n) && r == s[|s| - |r|..]
  {
  }

  lemma LastFewStep<T>(s: seq<T>, x: T, n: nat)
    requires n > 0
    ensures LastFew(s + [x], n) == LastFew(LastFew(s, n) + [x], n)
  {
  }

  lemma {:induction false} ReceiveAllWellFormed(msgs: seq<Message>)
    ensures WellFormed(ReceiveAll(INITIAL, msgs).model)
  {
    hide ApplyDelta, ApplySnapshot;
    if msgs != [] {
      var k := |msgs| - 1;
      ReceiveAllWellFormed(msgs[..k]);
      if msgs[k].body.SnapshotBody? {
        SnapshotWellFormed(msgs[k].body.snapshot);
      } else {
        DeltaWellFormed(ReceiveAll(INITIAL, msgs[..k]).model, msgs[k].body);
      }
    }
  }

  lemma ReceiveNext(msgs: seq<Message>, msg: Message)
    ensures ReceiveAll(INITIAL, msgs + [msg]) == Receive(ReceiveAll(INITIAL, msgs), msg).0
    ensures Requests(INITIAL, msgs + [msg])
         == Requests(INITIAL, msgs) + if Receive(ReceiveAll(INITIAL, msgs), msg).1.GapRequested? then 1 else 0
    ensures Forwarded(msgs + [msg]) == Forwarded(msgs) + if IsForwarded(msg.body) then [msg.body] else []
    ensures Hydrations(INITIAL, msgs + [msg])
         == Hydrations(INITIAL, msgs)
            + if Receive(ReceiveAll(INITIAL, msgs), msg).1.Consumed? && IsHydration(msg.body) then [msg.body] else []
  {
    hide Receive;
    assert (msgs + [msg])[..|msgs|] == msgs;
  }

  class Mirror {
    var model: Model
    var lastSeq: Option<int>
    var resyncRequested: bool
    var resyncDelivered: bool
    var clientSeq: nat
    var connected: bool               // sendFn and closeFn are injected
    var outbox: seq<nat>              // seqs of the resync.requests sent
    var closeCalls: nat
    var forwarded: seq<Body>
    var hydrationLog: seq<Body>
    var wired: bool                   // wireDataSources was called
    var attached: bool
    var feed: HookFeed?
    ghost var received: seq<Message>

    constructor ()
      ensures Valid() && received == [] && feed == null && !connected
    {
      model, lastSeq, resyncRequested, resyncDelivered := EMPTY, None, false, false;
      clientSeq, connected, outbox, closeCalls, forwarded, hydrationLog := 0, false, [], 0, [], [];
      wired, attached, feed, received := false, false, null, [];
    }

    ghost function State(): Core
      reads this`model, this`lastSeq, this`resyncRequested, this`resyncDelivered
    {
      Core(model, lastSeq, resyncRequested, resyncDelivered)
    }

    /** The state is that of the reference machine on everything received. */
    ghost predicate Tracks()
      reads this
    {
      && State() == ReceiveAll(INITIAL, received)
      && forwarded == Forwarded(received)
      && hydrationLog == LastFew(Hydrations(INITIAL, received), HYDRATION_LOG_CAP)
      && clientSeq <= Requests(INITIAL, received)
      && outbox == if clientSeq == 0 then [] else [1]
    }

    ghost predicate Valid()
      reads this, feed
    {
      && Tracks()
      && (feed != null ==> attached && wired)
      && (feed != null && !feed.detached ==> feed.Follows(model))
      && (feed != null && feed.detached ==> feed.subscribed == {})
    }

    method ConnectTo()
      requires Valid()
      modifies this`connected
      ensures Valid() && connected
    {
      connected := true;
    }

    method Disconnect()
      requires Valid()
      modifies this`connected
      ensures Valid() && !connected
    {
      connected := false;
    }

    method WireDataSources()
      requires Valid()
      modifies this`wired
      ensures Valid() && wired
    {
      wired := true;
    }

    /** `receiveSnapshot`, up to the change notification. */
    method ReplaceModel(seqNo: int, s: Snapshot)
      modifies this`model, this`lastSeq, this`resyncRequested, this`resyncDelivered
      ensures State() == ReceiveSnapshot(old(State()), seqNo, s)
    {
      model, lastSeq := ApplySnapshot(s), Some(seqNo);
      if resyncRequested {
        resyncRequested, resyncDelivered := false, true;
      }
    }

    /** `receiveDelta`, up to the change notification, which `reaction` reports. */
    method AcceptDelta(msg: Message) returns (ghost reaction: Reaction, changed: bool)
      requires !msg.body.SnapshotBody? && |hydrationLog| <= HYDRATION_LOG_CAP
      modifies this`model, this`lastSeq, this`resyncRequested, this`clientSeq, this`outbox, this`closeCalls,
               this`forwarded, this`hydrationLog
      ensures State() == ReceiveDelta(old(State()), msg).0
      ensures reaction == ReceiveDelta(old(State()), msg).1
      ensures changed == reaction.Changed?
      ensures forwarded == old(forwarded) + if IsForwarded(msg.body) then [msg.body] else []
      ensures hydrationLog == if reaction.Consumed? && IsHydration(msg.body)
                              then LastFew(old(hydrationLog) + [msg.body], HYDRATION_LOG_CAP) else old(hydrationLog)
      ensures clientSeq == old(clientSeq) + if reaction.GapRequested? && connected then 1 else 0
      ensures outbox == old(outbox) + if reaction.GapRequested? && connected then [clientSeq] else []
      ensures closeCalls == old(closeCalls) + if reaction.GapEscalated? && connected then 1 else 0
    {
      hide ApplyDelta;
      changed := false;
      if IsForwarded(msg.body) {
        forwarded := forwarded + [msg.body];
      }
      reaction := Ignored;
      if lastSeq.None? {
        return;
      }
      var expected := lastSeq.value + 1;
      if msg.seqNo != expected {
        if resyncRequested {
          reaction := GapDeduped;
          return;
        }
        if resyncDelivered {
          reaction := GapEscalated;
          if connected {
            closeCalls := closeCalls + 1;
          }
          return;
        }
        reaction := GapRequested;
        resyncRequested := true;
        if connected {
          clientSeq := clientSeq + 1;
          outbox := outbox + [clientSeq];
        }
        return;
      }
      if Stateless(msg.body) {
        reaction := Consumed;
        lastSeq := Some(msg.seqNo);
        if IsHydration(msg.body) {
          LogHydration(msg.body);
        }
        return;
      }
      reaction := Changed;
      model, lastSeq, changed := ApplyDelta(model, msg.body), Some(msg.seqNo), true;
    }

    /** The bounded log of `#emitHydration`. */
    method LogHydration(b: Body)
      requires |hydrationLog| <= HYDRATION_LOG_CAP
      modifies this`hydrationLog
      ensures hydrationLog == LastFew(old(hydrationLog) + [b], HYDRATION_LOG_CAP)
    {
      if |hydrationLog| >= HYDRATION_LOG_CAP {
        hydrationLog := hydrationLog[1..];
      }
      hydrationLog := hydrationLog + [b];
    }

    /** Everything a message does before handlers of model changes run. */
    method Update(msg: Message) returns (changed: bool)
      requires Tracks()
      modifies this`model, this`lastSeq, this`resyncRequested, this`resyncDelivered, this`clientSeq, this`outbox,
               this`closeCalls, this`forwarded, this`hydrationLog, this`received
      ensures Tracks()
      ensures received == old(received) + [msg]
      ensures closeCalls == old(closeCalls) + if connected && Receive(old(State()), msg).1.GapEscalated? then 1 else 0
      ensures clientSeq == old(clientSeq) + if connected && Receive(old(State()), msg).1.GapRequested? then 1 else 0
      ensures changed == (msg.body.SnapshotBody? || Receive(old(State()), msg).1.Changed?)
      ensures !changed ==> model == old(model)
    {
      hide ReceiveAll, Requests, Forwarded, Hydrations, ApplyDelta, ApplySnapshot, LastFew;
      ReceiveNext(received, msg);
      AtMostOneRequest(received);
      AtMostOneRequest(received + [msg]);
      LastFewStep(Hydrations(INITIAL, received), msg.body, HYDRATION_LOG_CAP);
      assert Forwarded(received) + [] == Forwarded(received);
      assert Hydrations(INITIAL, received) + [] == Hydrations(INITIAL, received);
      changed := true;
      if msg.body.SnapshotBody? {
        ReplaceModel(msg.seqNo, msg.body.snapshot);
      } else {
        ghost var reaction;
        reaction, changed := AcceptDelta(msg);
      }
      received := received + [msg];
    }

    /** The routing installed by `connectTo`. */
    method Handle(msg: Message)
      requires Valid()
      modifies this, feed
      ensures Valid()
      ensures received == old(received) + [msg]
      ensures feed == old(feed) && connected == old(connected)
      ensures feed != null ==> feed.detached == old(feed.detached) && old(feed.calls) <= feed.calls
      ensures feed != null && !feed.detached ==>
        var changed := msg.body.SnapshotBody? || Receive(old(State()), msg).1.Changed?;
        if !changed then feed.history == old(feed.history) && feed.calls == old(feed.calls)
        else
          && feed.history == old(feed.history) + [model]
          && Reports(feed.calls, |old(feed.calls)|, ShownWindows(old(model).windows), SeenPanes(old(model).panes),
                     old(model).focus, model)
      ensures clientSeq == old(clientSeq) + if connected && Receive(old(State()), msg).1.GapRequested? then 1 else 0
      ensures closeCalls == old(closeCalls) + if connected && Receive(old(State()), msg).1.GapEscalated? then 1 else 0
    {
      hide ReceiveAll, Requests, Forwarded, Hydrations, Receive, LastFew, WellFormed, Fold, Shows, KnownTitles,
           Reports, ShownWindows, SeenPanes, CatchesUp;
      ghost var before := model;
      var changed := Update(msg);
      ReceiveAllWellFormed(received);
      if changed && feed != null && !feed.detached {
        feed.ApplyModelDiff(before, model);
      }
    }

    /** `attach`: once only, and never again after a first call that threw. */
    method Attach() returns (r: Result<(), AttachError>)
      requires Valid()
      modifies this`attached, this`feed
      ensures Valid() && attached
      ensures old(attached) ==> feed == old(feed) && r == Success(())
      ensures !old(attached) && !wired ==> feed == old(feed) && r == Failure(NotWired)
      ensures !old(attached) && wired ==>
        && feed != null && fresh(feed) && !feed.detached && r == Success(())
        && feed.history == [model] && CatchesUp(feed.calls, model)
    {
      if attached {
        return Success(());
      }
      attached := true;
      if !wired {
        return Failure(NotWired);
      }
      ReceiveAllWellFormed(received);
      feed := new HookFeed(model);
      r := Success(());
    }

    /** `detachHook`: tears down once; the attached flag stays. */
    method DetachHook()
      requires Valid()
      modifies feed
      ensures Valid()
      ensures feed != null ==> feed.detached && feed.subscribed == {}
      ensures feed != null && !old(feed.detached) ==> feed.calls == old(feed.calls) + [OnDisconnected("mirror detached")]
      ensures feed != null && old(feed.detached) ==> feed.calls == old(feed.calls)
    {
      if feed != null && !feed.detached {
        feed.Teardown();
      }
    }
  }

  /** Answers and errors reach their handlers once each, in order, whatever the sequence numbers are. */
  lemma {:induction false} ForwardedInOrder(before: seq<Message>, msg: Message, after: seq<Message>)
    ensures Forwarded(before + [msg] + after)
         == Forwarded(before)
            + (if msg.body.CommandResponse? || msg.body.ProxyError? then [msg.body] else []) + Forwarded(after)
  {
    var all := before + [msg] + after;
    if after == [] {
      assert all[..|all| - 1] == before;
    } else {
      var k := |after| - 1;
      ForwardedInOrder(before, msg, after[..k]);
      assert all[..|all| - 1] == before + [msg] + after[..k];
    }
  }

  /** A hydration message is logged if and only if it comes in sequence. */
  lemma HydrationInSequence(msgs: seq<Message>, msg: Message)
    ensures var lastSeq := ReceiveAll(INITIAL, msgs).lastSeq;
      Hydrations(INITIAL, msgs + [msg]) == Hydrations(INITIAL, msgs)
        + if (msg.body.HydrationBegin? || msg.body.HydrationEnd? || msg.body.PaneAttachFailed?)
             && lastSeq.Some? && msg.seqNo == lastSeq.value + 1 then [msg.body] else []
  {
    ReceiveNext(msgs, msg);
    hide ReceiveAll, Hydrations, ApplyDelta, ApplySnapshot;
  }

  /**
   * Attaching early or late makes no difference: two mirrors that received the
   * same messages show their hooks the same picture and listen to the same
   * panes, which are exactly the model's.
   */
  lemma AttachTimeIsInvisible(early: Mirror, late: Mirror)
    requires early.Valid() && late.Valid() && early.received == late.received
    requires early.feed != null && !early.feed.detached && late.feed != null && !late.feed.detached
    ensures early.feed.Picture() == late.feed.Picture() == Shows(ReceiveAll(INITIAL, early.received).model)
    ensures early.feed.subscribed == late.feed.subscribed == ReceiveAll(INITIAL, early.received).model.panes.Keys
  {
  }

  /**
   * A mirror fed any selection of one server log shows its hook that log's
   * state at lastSeq, and of the live titles those that changed while it watched.
   */
  lemma HookShowsServerState(m: Mirror, log: seq<Body>, base: int, deliveries: seq<nat>)
    requires forall i | 0 <= i < |deliveries| :: deliveries[i] < |log|
    requires m.Valid() && m.feed != null && !m.feed.detached && m.lastSeq.Some?
    requires m.received == seq(|deliveries|, i requires 0 <= i < |deliveries| => Wire(log, base, deliveries[i]))
    ensures base <= m.lastSeq.value < base + |log|
    ensures m.feed.Picture() == Shows(StateAt(log, m.lastSeq.value - base))
    ensures forall p <- StateAt(log, m.lastSeq.value - base).panes ::
      var title := StateAt(log, m.lastSeq.value - base).panes[p].paneTitle;
      p in m.feed.Titles() && (m.feed.Titles()[p] == title <==> TitleMoved(m.feed.history, p) || title.None?)
    ensures |m.outbox| <= 1
  {
    hide TitleMoved, TitlesTold;
    DeliveriesAreMessages(log, base, deliveries);
    ReplicaSafety(log, base, deliveries);
  }

  lemma {:induction false} DeliveriesAreMessages(log: seq<Body>, base: int, deliveries: seq<nat>)
    requires forall i | 0 <= i < |deliveries| :: deliveries[i] < |log|
    ensures DeliverAll(INITIAL, log, base, deliveries)
         == ReceiveAll(INITIAL, seq(|deliveries|, i requires 0 <= i < |deliveries| => Wire(log, base, deliveries[i])))
  {
    hide Receive, Wire;
    if deliveries != [] {
      var k := |deliveries| - 1;
      var front := deliveries[..k];
      DeliveriesAreMessages(log, base, front);
      var msgs := seq(|deliveries|, i requires 0 <= i < |deliveries| => Wire(log, base, deliveries[i]));
      assert msgs[..k] == seq(|front|, i requires 0 <= i < |front| => Wire(log, base, front[i]));
    }
  }
}
