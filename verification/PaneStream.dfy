/**
 * The per-pane byte stream with its bounded pre-subscription buffer
 * (clients/ts/src/pane-stream.ts).
 */
module PaneStream {
  import opened Prelude
  import opened Bytes

  type PaneId = string
  type Handler = nat   // a callback's identity

  // ---------------------------------------------------------------------
  // What the buffer should hold
  // ---------------------------------------------------------------------

  function Total(chunks: seq<Blob>): nat {
    if chunks == [] then 0 else |chunks[0]| + Total(chunks[1..])
  }

  /** Of a chunk longer than the cap only the end is kept. */
  function Tail(chunk: Blob, cap: nat): (t: Blob)
    ensures |t| <= cap
  {
    if |chunk| > cap then chunk[|chunk| - cap..] else chunk
  }

  function Tails(chunks: seq<Blob>, cap: nat): seq<Blob> {
    seq(|chunks|, i requires 0 <= i < |chunks| => Tail(chunks[i], cap))
  }

  /** The longest suffix, in whole chunks, of at most `cap` bytes. */
  function Fit(chunks: seq<Blob>, cap: nat): (kept: seq<Blob>)
    ensures Total(kept) <= cap
  {
    if Total(chunks) <= cap then chunks else Fit(chunks[1..], cap)
  }

  /** The buffer for chunks pushed since the pane last had a handler. */
  function Kept(window: seq<Blob>, cap: nat): seq<Blob> {
    Fit(Tails(window, cap), cap)
  }

  lemma {:induction false} TotalAppend(chunks: seq<Blob>, c: Blob)
    ensures Total(chunks + [c]) == Total(chunks) + |c|
  {
    if chunks == [] {
      assert [c][1..] == [];
    } else {
      assert (chunks + [c])[1..] == chunks[1..] + [c];
      TotalAppend(chunks[1..], c);
    }
  }

  lemma {:induction false} TotalIsLength(chunks: seq<Blob>)
    ensures |Flatten(chunks)| == Total(chunks)
  {
    if chunks != [] {
      TotalIsLength(chunks[1..]);
    }
  }

  /** Fitting early, then appending, is fitting late. */
  lemma {:induction false} FitAppend(chunks: seq<Blob>, c: Blob, cap: nat)
    requires |c| <= cap
    ensures Fit(Fit(chunks, cap) + [c], cap) == Fit(chunks + [c], cap)
  {
    if Total(chunks) > cap {
      TotalAppend(chunks, c);
      assert (chunks + [c])[1..] == chunks[1..] + [c];
      FitAppend(chunks[1..], c, cap);
    }
  }

  /** One eviction of the oldest chunk. */
  lemma FitEvict(buf: seq<Blob>, c: Blob, cap: nat)
    requires buf != [] && Total(buf) + |c| > cap
    ensures Fit(buf + [c], cap) == Fit(buf[1..] + [c], cap)
    ensures Total(buf) == |buf[0]| + Total(buf[1..])
  {
    TotalAppend(buf, c);
    assert (buf + [c])[1..] == buf[1..] + [c];
  }

  lemma KeptAppend(window: seq<Blob>, c: Blob, cap: nat)
    ensures Kept(window + [c], cap) == Fit(Kept(window, cap) + [Tail(c, cap)], cap)
  {
    assert Tails(window + [c], cap) == Tails(window, cap) + [Tail(c, cap)];
    FitAppend(Tails(window, cap), Tail(c, cap), cap);
  }

  // ---------------------------------------------------------------------
  // What that means for the bytes
  // ---------------------------------------------------------------------

  lemma {:induction false} FitDrops(chunks: seq<Blob>, cap: nat) returns (k: nat)
    ensures k <= |chunks| && Fit(chunks, cap) == chunks[k..]
    ensures k > 0 ==> Total(chunks[k..]) + |chunks[k - 1]| > cap
  {
    if Total(chunks) <= cap {
      k := 0;
    } else {
      var j := FitDrops(chunks[1..], cap);
      k := j + 1;
      assert chunks[1..][j..] == chunks[k..];
      if j > 0 {
        assert chunks[1..][j - 1] == chunks[k - 1];
      }
    }
  }

  predicate IsSuffix(held: Blob, all: Blob) {
    |held| <= |all| && held == all[|all| - |held|..]
  }

  lemma {:induction false} TailsAreSuffix(chunks: seq<Blob>, cap: nat)
    requires Total(Tails(chunks, cap)) <= cap
    ensures IsSuffix(Flatten(Tails(chunks, cap)), Flatten(chunks))
  {
    if chunks != [] {
      var first, rest := chunks[0], chunks[1..];
      assert Tails(chunks, cap)[1..] == Tails(rest, cap);
      var kept, all := Flatten(Tails(rest, cap)), Flatten(rest);
      if |first| > cap {
        NoTails(rest, cap);
        hide Flatten, Tails;
        assert Tail(first, cap) + [] == Tail(first, cap);
        if cap > 0 {
          assert first + [] == first;
        }
      } else if first == [] {
        TailsAreSuffix(rest, cap);
        hide Flatten, Tails;
        assert first + kept == kept && first + all == all;
      } else {
        Untruncated(rest, cap);
      }
    }
  }

  /** A chunk over the cap would fill it alone. */
  lemma Untruncated(chunks: seq<Blob>, cap: nat)
    requires Total(Tails(chunks, cap)) < cap
    ensures Tails(chunks, cap) == chunks
  {
    forall i | 0 <= i < |chunks| ensures |chunks[i]| <= cap {
      OneOfTotal(Tails(chunks, cap), i);
    }
  }

  /** Truncation leaves nothing only of nothing, or under a cap of zero. */
  lemma {:induction false} NoTails(chunks: seq<Blob>, cap: nat)
    requires Total(Tails(chunks, cap)) == 0
    ensures cap > 0 ==> Flatten(chunks) == []
    ensures Flatten(Tails(chunks, cap)) == []
  {
    if chunks != [] {
      assert Tails(chunks, cap)[1..] == Tails(chunks[1..], cap);
      NoTails(chunks[1..], cap);
    }
  }

  /**
   * The buffer is a contiguous suffix of the bytes pushed in the window, of at
   * most `cap` bytes, and eviction is minimal: the last evicted chunk would not
   * have fitted as well.
   */
  lemma KeptIsSuffix(window: seq<Blob>, cap: nat) returns (evicted: nat)
    ensures |Flatten(Kept(window, cap))| <= cap
    ensures IsSuffix(Flatten(Kept(window, cap)), Flatten(window))
    ensures evicted <= |window| && Kept(window, cap) == Tails(window[evicted..], cap)
    ensures evicted > 0 ==> |Flatten(Kept(window, cap))| + |Tail(window[evicted - 1], cap)| > cap
  {
    evicted := KeptChunks(window, cap);
    hide Flatten, Fit, Total, Tails, Kept;
    var rest := window[evicted..];
    TailsAreSuffix(rest, cap);
    TotalIsLength(Tails(rest, cap));
    FlattenConcat(window[..evicted], rest);
    assert window == window[..evicted] + rest;
    SuffixOfConcat(Flatten(window[..evicted]), Flatten(rest), Flatten(Kept(window, cap)));
  }

  lemma KeptChunks(window: seq<Blob>, cap: nat) returns (evicted: nat)
    ensures evicted <= |window| && Kept(window, cap) == Tails(window[evicted..], cap)
    ensures Total(Kept(window, cap)) <= cap
    ensures evicted > 0 ==> Total(Kept(window, cap)) + |Tail(window[evicted - 1], cap)| > cap
  {
    hide Fit, Total;
    evicted := FitDrops(Tails(window, cap), cap);
    assert Tails(window, cap)[evicted..] == Tails(window[evicted..], cap);
  }

  lemma SuffixOfConcat(front: Blob, back: Blob, held: Blob)
    requires IsSuffix(held, back)
    ensures IsSuffix(held, front + back)
  {
  }

  /** Nothing is lost exactly when the window's bytes fit. */
  lemma KeptAll(window: seq<Blob>, cap: nat)
    ensures Flatten(Kept(window, cap)) == Flatten(window) <==> |Flatten(window)| <= cap
    ensures |Flatten(window)| <= cap ==> Kept(window, cap) == window
  {
    var _ := KeptIsSuffix(window, cap);
    if |Flatten(window)| <= cap {
      TotalIsLength(window);
      forall i | 0 <= i < |window| ensures |window[i]| <= cap {
        OneOfTotal(window, i);
      }
      assert Tails(window, cap) == window;
    }
  }

  lemma {:induction false} OneOfTotal(chunks: seq<Blob>, i: nat)
    requires i < |chunks|
    ensures |chunks[i]| <= Total(chunks)
  {
    if i > 0 {
      OneOfTotal(chunks[1..], i - 1);
    }
  }

  // ---------------------------------------------------------------------
  // The life of one pane
  // ---------------------------------------------------------------------

  datatype Event =
    | Pushed(paneId: PaneId, bytes: Blob)
    | Subscribed(paneId: PaneId, handler: Handler)
    | Unsubscribed(paneId: PaneId, handler: Handler)
    | GlobalOn(handler: Handler)
    | GlobalOff(handler: Handler)

  predicate About(e: Event, p: PaneId) {
    !e.GlobalOn? && !e.GlobalOff? && e.paneId == p
  }

  /** `out` is what the pane's first handler was given; `dropped` what nobody ever will be. */
  datatype Trace = Trace(subs: seq<Handler>, window: seq<Blob>, out: Blob, dropped: nat)

  function IndexOf(hs: seq<Handler>, h: Handler): (i: Option<nat>)
    ensures i.Some? ==> i.value < |hs| && hs[i.value] == h && h !in hs[..i.value]
    ensures i.None? ==> h !in hs
  {
    if hs == [] then None
    else if hs[0] == h then Some(0)
    else
      var i := IndexOf(hs[1..], h);
      if i.Some? then Some(i.value + 1) else None
  }

  /** `indexOf` and `splice`: the first registration goes. */
  function Without(hs: seq<Handler>, h: Handler): seq<Handler> {
    var i := IndexOf(hs, h);
    if i.None? then hs else hs[..i.value] + hs[i.value + 1..]
  }

  function Advance(t: Trace, e: Event, cap: nat): Trace
    requires !e.GlobalOn? && !e.GlobalOff?
  {
    match e
    case Pushed(_, bytes) =>
      if t.subs == [] then t.(window := t.window + [bytes]) else t.(out := t.out + bytes)
    case Subscribed(_, h) =>
      var held := Flatten(Kept(t.window, cap));
      var gone := |Flatten(t.window)| - |held|;
      Trace(t.subs + [h], [], t.out + held, t.dropped + if gone > 0 then gone else 0)
    case Unsubscribed(_, h) => t.(subs := Without(t.subs, h))
  }

  function TraceOf(events: seq<Event>, p: PaneId, cap: nat): Trace {
    if events == [] then Trace([], [], [], 0)
    else
      var e := events[|events| - 1];
      var t := TraceOf(events[..|events| - 1], p, cap);
      if About(e, p) then Advance(t, e, cap) else t
  }

  function BytesPushed(events: seq<Event>, p: PaneId): Blob {
    if events == [] then []
    else
      var e := events[|events| - 1];
      BytesPushed(events[..|events| - 1], p) + if e.Pushed? && e.paneId == p then e.bytes else []
  }

  /** A pane with handlers has an empty window. */
  lemma {:induction false} HandlersOrWindow(events: seq<Event>, p: PaneId, cap: nat)
    ensures var t := TraceOf(events, p, cap); t.subs != [] ==> t.window == []
  {
    if events != [] {
      HandlersOrWindow(events[..|events| - 1], p, cap);
      var t, e := TraceOf(events[..|events| - 1], p, cap), events[|events| - 1];
      if e.Unsubscribed? && e.paneId == p && t.subs == [] {
        assert IndexOf(t.subs, e.handler).None?;
      }
    }
  }

  /** Event `k` subscribes to the pane and finds more bytes waiting than the buffer can hold. */
  predicate Overflows(events: seq<Event>, k: nat, p: PaneId, cap: nat)
    requires k < |events|
  {
    events[k].Subscribed? && events[k].paneId == p && |Flatten(TraceOf(events[..k], p, cap).window)| > cap
  }

  predicate Overflowed(events: seq<Event>, p: PaneId, cap: nat) {
    exists k :: 0 <= k < |events| && Overflows(events, k, p, cap)
  }

  lemma OverflowedStep(events: seq<Event>, p: PaneId, cap: nat)
    requires events != []
    ensures var k := |events| - 1;
      Overflowed(events, p, cap) <==> Overflowed(events[..k], p, cap) || Overflows(events, k, p, cap)
  {
    var front := events[..|events| - 1];
    assert forall i | 0 <= i < |front| :: front[..i] == events[..i] && front[i] == events[i];
    if Overflowed(front, p, cap) {
      var i :| 0 <= i < |front| && Overflows(front, i, p, cap);
      assert Overflows(events, i, p, cap);
    }
    if Overflowed(events, p, cap) {
      var i :| 0 <= i < |events| && Overflows(events, i, p, cap);
      assert i < |front| ==> Overflows(front, i, p, cap);
    }
  }

  /** Bytes are dropped exactly when some window is longer than the cap at its end. */
  lemma {:induction false} DroppedByOverflow(events: seq<Event>, p: PaneId, cap: nat)
    ensures TraceOf(events, p, cap).dropped == 0 <==> !Overflowed(events, p, cap)
  {
    hide Kept, Without, Overflowed;
    if events == [] {
      assert !Overflowed(events, p, cap) by { NoEventNoOverflow(p, cap); }
    } else {
      var k := |events| - 1;
      DroppedByOverflow(events[..k], p, cap);
      OverflowedStep(events, p, cap);
      var window := TraceOf(events[..k], p, cap).window;
      var _ := KeptIsSuffix(window, cap);
      KeptAll(window, cap);
    }
  }

  lemma NoEventNoOverflow(p: PaneId, cap: nat)
    ensures !Overflowed([], p, cap)
  {
  }

  /**
   * Conservation. Every byte pushed was handed on, is still in the window, or
   * was dropped; and what was handed on followed by the window is what was
   * pushed, in order, if and only if no subscription found an overfull window.
   */
  lemma Conservation(events: seq<Event>, p: PaneId, cap: nat)
    ensures var t := TraceOf(events, p, cap);
      && |t.out| + |Flatten(t.window)| + t.dropped == |BytesPushed(events, p)|
      && (t.out + Flatten(t.window) == BytesPushed(events, p) <==> !Overflowed(events, p, cap))
  {
    hide TraceOf, Overflowed;
    DroppedByOverflow(events, p, cap);
    BytesAccounted(events, p, cap);
  }

  lemma {:induction false} BytesAccounted(events: seq<Event>, p: PaneId, cap: nat)
    ensures var t := TraceOf(events, p, cap);
      && |t.out| + |Flatten(t.window)| + t.dropped == |BytesPushed(events, p)|
      && (t.dropped == 0 ==> t.out + Flatten(t.window) == BytesPushed(events, p))
  {
    hide Kept, Without;
    if events != [] {
      var k := |events| - 1;
      var t, e := TraceOf(events[..k], p, cap), events[k];
      BytesAccounted(events[..k], p, cap);
      HandlersOrWindow(events[..k], p, cap);
      if About(e, p) {
        match e
        case Pushed(_, bytes) =>
          FlattenAppend(t.window, bytes);
          assert t.out + Flatten(t.window) + bytes == t.out + (Flatten(t.window) + bytes);
        case Subscribed(_, _) =>
          var _ := KeptIsSuffix(t.window, cap);
          KeptAll(t.window, cap);
        case Unsubscribed(_, _) =>
      }
    }
  }

  // ---------------------------------------------------------------------
  // The calls handlers receive
  // ---------------------------------------------------------------------

  datatype Call =
    | ToPane(paneId: PaneId, position: nat, handler: Handler, bytes: Blob)
    | ToGlobal(paneId: PaneId, handler: Handler, bytes: Blob)

  function LiveCalls(p: PaneId, hs: seq<Handler>, bytes: Blob): seq<Call> {
    seq(|hs|, i requires 0 <= i < |hs| => ToPane(p, i, hs[i], bytes))
  }

  function GlobalCalls(p: PaneId, hs: seq<Handler>, bytes: Blob): seq<Call> {
    seq(|hs|, i requires 0 <= i < |hs| => ToGlobal(p, hs[i], bytes))
  }

  function FlushCalls(p: PaneId, position: nat, h: Handler, chunks: seq<Blob>): seq<Call> {
    seq(|chunks|, i requires 0 <= i < |chunks| => ToPane(p, position, h, chunks[i]))
  }

  /** The bytes handed to whichever handler was first in the pane's list. */
  function Lead(calls: seq<Call>, p: PaneId): Blob {
    if calls == [] then []
    else
      var c := calls[|calls| - 1];
      Lead(calls[..|calls| - 1], p) + LeadBytes(c, p)
  }

  function LeadBytes(c: Call, p: PaneId): Blob {
    if c.ToPane? && c.paneId == p && c.position == 0 then c.bytes else []
  }

  lemma {:induction false} LeadConcat(a: seq<Call>, b: seq<Call>, p: PaneId)
    ensures Lead(a + b, p) == Lead(a, p) + Lead(b, p)
  {
    if b == [] {
      assert a + b == a;
    } else {
      var front, last := b[..|b| - 1], b[|b| - 1];
      assert (a + b)[..|a + b| - 1] == a + front;
      LeadConcat(a, front, p);
      hide LeadBytes;
      assert Lead(a + b, p) == Lead(a + front, p) + LeadBytes(last, p);
      assert Lead(a, p) + Lead(front, p) + LeadBytes(last, p) == Lead(a, p) + (Lead(front, p) + LeadBytes(last, p));
    }
  }

  lemma {:induction false} LeadOfLive(p: PaneId, hs: seq<Handler>, bytes: Blob, q: PaneId)
    ensures Lead(LiveCalls(p, hs, bytes), q) == if p == q && hs != [] then bytes else []
  {
    if hs != [] {
      var calls := LiveCalls(p, hs, bytes);
      assert calls[..|calls| - 1] == LiveCalls(p, hs[..|hs| - 1], bytes);
      LeadOfLive(p, hs[..|hs| - 1], bytes, q);
    }
  }

  lemma {:induction false} LeadOfGlobal(p: PaneId, hs: seq<Handler>, bytes: Blob, q: PaneId)
    ensures Lead(GlobalCalls(p, hs, bytes), q) == []
  {
    if hs != [] {
      var calls := GlobalCalls(p, hs, bytes);
      assert calls[..|calls| - 1] == GlobalCalls(p, hs[..|hs| - 1], bytes);
      LeadOfGlobal(p, hs[..|hs| - 1], bytes, q);
    }
  }

  lemma {:induction false} LeadOfFlush(p: PaneId, h: Handler, chunks: seq<Blob>, q: PaneId)
    ensures Lead(FlushCalls(p, 0, h, chunks), q) == if p == q then Flatten(chunks) else []
  {
    if chunks != [] {
      var front, last := chunks[..|chunks| - 1], chunks[|chunks| - 1];
      var calls := FlushCalls(p, 0, h, chunks);
      assert calls[..|calls| - 1] == FlushCalls(p, 0, h, front);
      LeadOfFlush(p, h, front, q);
      FlattenAppend(front, last);
      assert chunks == front + [last];
    }
  }

  // ---------------------------------------------------------------------
  // What each handler receives
  // ---------------------------------------------------------------------

  /** The bytes of pane `p` given to one handler, among those of the pane or among the global ones. */
  function Received(calls: seq<Call>, p: PaneId, h: Handler, global: bool): Blob {
    if calls == [] then []
    else
      var c := calls[|calls| - 1];
      Received(calls[..|calls| - 1], p, h, global)
      + if c.ToGlobal? == global && c.paneId == p && c.handler == h then c.bytes else []
  }

  /** How often the handler is registered. */
  function Count(hs: seq<Handler>, h: Handler): nat {
    if hs == [] then 0 else Count(hs[..|hs| - 1], h) + if hs[|hs| - 1] == h then 1 else 0
  }

  function Times(bytes: Blob, n: nat): Blob {
    if n == 0 then [] else Times(bytes, n - 1) + bytes
  }

  /** The global handlers after these events. */
  function GlobalSubs(events: seq<Event>): seq<Handler> {
    if events == [] then []
    else
      var before := GlobalSubs(events[..|events| - 1]);
      match events[|events| - 1]
      case GlobalOn(h) => before + [h]
      case GlobalOff(h) => Without(before, h)
      case _ => before
  }

  /**
   * What the handler has a right to: of every push to the pane, the bytes once
   * per registration it had then; and at a subscription the pane's backlog.
   */
  function Due(events: seq<Event>, p: PaneId, h: Handler, global: bool, cap: nat): Blob {
    if events == [] then []
    else
      var front := events[..|events| - 1];
      Due(front, p, h, global, cap)
      + match events[|events| - 1]
        case Pushed(q, bytes) =>
          if q != p then []
          else Times(bytes, Count(if global then GlobalSubs(front) else TraceOf(front, p, cap).subs, h))
        case Subscribed(q, g) => if q == p && g == h && !global then Flatten(Kept(TraceOf(front, p, cap).window, cap)) else []
        case _ => []
  }

  lemma {:induction false} ReceivedConcat(a: seq<Call>, b: seq<Call>, p: PaneId, h: Handler, global: bool)
    ensures Received(a + b, p, h, global) == Received(a, p, h, global) + Received(b, p, h, global)
  {
    if b == [] {
      assert a + b == a;
    } else {
      var front, last := b[..|b| - 1], b[|b| - 1];
      assert (a + b)[..|a + b| - 1] == a + front;
      ReceivedConcat(a, front, p, h, global);
      var one: Blob := if last.ToGlobal? == global && last.paneId == p && last.handler == h then last.bytes else [];
      assert Received(a, p, h, global) + Received(front, p, h, global) + one
          == Received(a, p, h, global) + (Received(front, p, h, global) + one);
    }
  }

  lemma {:induction false} ReceivedOfLive(p: PaneId, hs: seq<Handler>, bytes: Blob, q: PaneId, h: Handler, global: bool)
    ensures Received(LiveCalls(p, hs, bytes), q, h, global) == if p == q && !global then Times(bytes, Count(hs, h)) else []
  {
    if hs != [] {
      var calls := LiveCalls(p, hs, bytes);
      assert calls[..|calls| - 1] == LiveCalls(p, hs[..|hs| - 1], bytes);
      ReceivedOfLive(p, hs[..|hs| - 1], bytes, q, h, global);
    }
  }

  lemma {:induction false} ReceivedOfGlobal(p: PaneId, hs: seq<Handler>, bytes: Blob, q: PaneId, h: Handler, global: bool)
    ensures Received(GlobalCalls(p, hs, bytes), q, h, global) == if p == q && global then Times(bytes, Count(hs, h)) else []
  {
    if hs != [] {
      var calls := GlobalCalls(p, hs, bytes);
      assert calls[..|calls| - 1] == GlobalCalls(p, hs[..|hs| - 1], bytes);
      ReceivedOfGlobal(p, hs[..|hs| - 1], bytes, q, h, global);
    }
  }

  lemma {:induction false} ReceivedOfFlush(p: PaneId, g: Handler, chunks: seq<Blob>, q: PaneId, h: Handler, global: bool)
    ensures Received(FlushCalls(p, 0, g, chunks), q, h, global) == if p == q && g == h && !global then Flatten(chunks) else []
  {
    if chunks != [] {
      var front, last := chunks[..|chunks| - 1], chunks[|chunks| - 1];
      var calls := FlushCalls(p, 0, g, chunks);
      assert calls[..|calls| - 1] == FlushCalls(p, 0, g, front);
      ReceivedOfFlush(p, g, front, q, h, global);
      FlattenAppend(front, last);
      assert chunks == front + [last];
    }
  }

  lemma PushServed(calls: seq<Call>, p: PaneId, hs: seq<Handler>, globals: seq<Handler>, bytes: Blob,
                   q: PaneId, h: Handler, global: bool)
    ensures Received(calls + LiveCalls(p, hs, bytes) + GlobalCalls(p, globals, bytes), q, h, global)
      == Received(calls, q, h, global) + if p == q then Times(bytes, Count(if global then globals else hs, h)) else []
  {
    hide Received, LiveCalls, GlobalCalls, Times, Count;
    ReceivedConcat(calls, LiveCalls(p, hs, bytes), q, h, global);
    ReceivedConcat(calls + LiveCalls(p, hs, bytes), GlobalCalls(p, globals, bytes), q, h, global);
    ReceivedOfLive(p, hs, bytes, q, h, global);
    ReceivedOfGlobal(p, globals, bytes, q, h, global);
  }

  lemma DueNext(events: seq<Event>, e: Event, p: PaneId, h: Handler, global: bool, cap: nat)
    ensures Due(events + [e], p, h, global, cap) == Due(events, p, h, global, cap)
      + match e
        case Pushed(q, bytes) =>
          if q != p then []
          else Times(bytes, Count(if global then GlobalSubs(events) else TraceOf(events, p, cap).subs, h))
        case Subscribed(q, g) => if q == p && g == h && !global then Flatten(Kept(TraceOf(events, p, cap).window, cap)) else []
        case _ => []
    ensures GlobalSubs(events + [e]) == match e
      case GlobalOn(g) => GlobalSubs(events) + [g]
      case GlobalOff(g) => Without(GlobalSubs(events), g)
      case _ => GlobalSubs(events)
  {
    assert (events + [e])[..|events|] == events;
  }

  lemma AllServedByPush(calls: seq<Call>, events: seq<Event>, p: PaneId, hs: seq<Handler>, globals: seq<Handler>,
                        bytes: Blob, cap: nat)
    requires forall q: PaneId, h: Handler, g: bool :: Received(calls, q, h, g) == Due(events, q, h, g, cap)
    requires hs == TraceOf(events, p, cap).subs && globals == GlobalSubs(events)
    ensures var after := calls + LiveCalls(p, hs, bytes) + GlobalCalls(p, globals, bytes);
      forall q: PaneId, h: Handler, g: bool :: Received(after, q, h, g) == Due(events + [Pushed(p, bytes)], q, h, g, cap)
    ensures GlobalSubs(events + [Pushed(p, bytes)]) == globals
  {
    hide Received, Due, LiveCalls, GlobalCalls, GlobalSubs, TraceOf, Times, Count;
    var after := calls + LiveCalls(p, hs, bytes) + GlobalCalls(p, globals, bytes);
    forall q: PaneId, h: Handler, g: bool
      ensures Received(after, q, h, g) == Due(events + [Pushed(p, bytes)], q, h, g, cap)
    {
      PushServed(calls, p, hs, globals, bytes, q, h, g);
      DueNext(events, Pushed(p, bytes), q, h, g, cap);
    }
    DueNext(events, Pushed(p, bytes), p, 0, false, cap);
  }

  lemma AllServedByFlush(calls: seq<Call>, events: seq<Event>, p: PaneId, handler: Handler, chunks: seq<Blob>, cap: nat)
    requires forall q: PaneId, h: Handler, g: bool :: Received(calls, q, h, g) == Due(events, q, h, g, cap)
    requires chunks == Kept(TraceOf(events, p, cap).window, cap)
    ensures var after := calls + FlushCalls(p, 0, handler, chunks);
      forall q: PaneId, h: Handler, g: bool :: Received(after, q, h, g) == Due(events + [Subscribed(p, handler)], q, h, g, cap)
    ensures GlobalSubs(events + [Subscribed(p, handler)]) == GlobalSubs(events)
  {
    hide Received, Due, FlushCalls, GlobalSubs, TraceOf, Kept;
    forall q: PaneId, h: Handler, g: bool
      ensures Received(calls + FlushCalls(p, 0, handler, chunks), q, h, g)
           == Due(events + [Subscribed(p, handler)], q, h, g, cap)
    {
      ReceivedConcat(calls, FlushCalls(p, 0, handler, chunks), q, h, g);
      ReceivedOfFlush(p, handler, chunks, q, h, g);
      DueNext(events, Subscribed(p, handler), q, h, g, cap);
    }
    DueNext(events, Subscribed(p, handler), p, 0, false, cap);
  }

  // ---------------------------------------------------------------------
  // The consumer
  // ---------------------------------------------------------------------

  function Listed<V>(m: map<PaneId, seq<V>>, p: PaneId): seq<V> {
    if p in m then m[p] else []
  }

  /** One pane's share of the state is what its history says. */
  predicate Follows(t: Trace, cap: nat, handlers: seq<Handler>, chunks: Option<seq<Blob>>, held: Option<nat>, lead: Blob) {
    && handlers == t.subs
    && (if chunks.Some? then chunks.value else []) == Kept(t.window, cap)
    && (chunks.Some? ==> chunks.value != [])
    && held == (if chunks.Some? then Some(Total(chunks.value)) else None)
    && lead == t.out
  }

  class PaneStreamConsumer {
    const capBytes: nat
    var paneHandlers: map<PaneId, seq<Handler>>
    var preSub: map<PaneId, seq<Blob>>
    var preSubBytes: map<PaneId, nat>
    var globalHandlers: seq<Handler>
    var log: seq<Call>             // every handler call, in order
    ghost var events: seq<Event>   // every push, subscription and unsubscription, in order

    constructor (cap: nat)
      ensures Valid() && capBytes == cap && events == [] && log == []
    {
      capBytes := cap;
      paneHandlers, preSub, preSubBytes, globalHandlers, log, events := map[], map[], map[], [], [], [];
    }

    ghost predicate Tracks(p: PaneId)
      reads this`paneHandlers, this`preSub, this`preSubBytes, this`log, this`events
    {
      Follows(TraceOf(events, p, capBytes), capBytes, Listed(paneHandlers, p),
              Lookup(preSub, p), Lookup(preSubBytes, p), Lead(log, p))
    }

    /** Every handler has received exactly what was due to it. */
    ghost predicate Served()
      reads this`log, this`events
    {
      forall p: PaneId, h: Handler, global: bool :: Received(log, p, h, global) == Due(events, p, h, global, capBytes)
    }

    ghost predicate Valid()
      reads this`paneHandlers, this`globalHandlers, this`preSub, this`preSubBytes, this`log, this`events
    {
      (forall p: PaneId :: Tracks(p)) && Served() && globalHandlers == GlobalSubs(events)
    }

    /** The eviction loop: make room for `incoming` and append it. */
    method Store(buf: seq<Blob>, bytesHeld: nat, incoming: Blob) returns (kept: seq<Blob>, total: nat)
      requires bytesHeld == Total(buf) && |incoming| <= capBytes
      ensures kept == Fit(buf + [incoming], capBytes)
      ensures total == Total(kept) && kept != []
    {
      kept, total := buf, bytesHeld;
      while |kept| > 0 && total + |incoming| > capBytes
        invariant total == Total(kept)
        invariant Fit(kept + [incoming], capBytes) == Fit(buf + [incoming], capBytes)
        decreases |kept|
      {
        FitEvict(kept, incoming, capBytes);
        total := total - |kept[0]|;
        kept := kept[1..];
      }
      TotalAppend(kept, incoming);
      kept, total := kept + [incoming], total + |incoming|;
    }

    method CallPaneHandlers(p: PaneId, handlers: seq<Handler>, bytes: Blob)
      modifies this`log
      ensures log == old(log) + LiveCalls(p, handlers, bytes)
    {
      for i := 0 to |handlers|
        invariant log == old(log) + LiveCalls(p, handlers, bytes)[..i]
      {
        log := log + [ToPane(p, i, handlers[i], bytes)];
      }
    }

    method CallGlobalHandlers(p: PaneId, bytes: Blob)
      modifies this`log
      ensures log == old(log) + GlobalCalls(p, globalHandlers, bytes)
    {
      for i := 0 to |globalHandlers|
        invariant log == old(log) + GlobalCalls(p, globalHandlers, bytes)[..i]
      {
        log := log + [ToGlobal(p, globalHandlers[i], bytes)];
      }
    }

    method Push(p: PaneId, bytes: Blob)
      requires Valid()
      modifies this
      ensures Valid()
      ensures events == old(events) + [Pushed(p, bytes)]
      ensures log == old(log) + LiveCalls(p, Listed(old(paneHandlers), p), bytes) + GlobalCalls(p, globalHandlers, bytes)
      ensures var hs, n := Listed(old(paneHandlers), p), |old(log)|;
        && |log| == n + |hs| + |globalHandlers|
        && (forall i | 0 <= i < |hs| :: log[n + i] == ToPane(p, i, hs[i], bytes))
        && (forall i | 0 <= i < |globalHandlers| :: log[n + |hs| + i] == ToGlobal(p, globalHandlers[i], bytes))
      ensures paneHandlers == old(paneHandlers) && globalHandlers == old(globalHandlers)
    {
      CallsInOrder(log, p, Listed(paneHandlers, p), globalHandlers, bytes);
      hide Kept, Total, Lead, Fit, LiveCalls, GlobalCalls, TraceOf, Received, Due, GlobalSubs, Times, Count;
      var handlers := Listed(paneHandlers, p);
      assert Tracks(p);
      ghost var before := log;
      var chunks, held := preSub, preSubBytes;
      NoLiveCalls(p, bytes);
      if |handlers| == 0 {
        var incoming := if |bytes| > capBytes then bytes[|bytes| - capBytes..] else bytes;
        KeptAppend(TraceOf(events, p, capBytes).window, bytes, capBytes);
        EmptyTotal();
        var kept, total := Store(Listed(preSub, p), if p in preSub then preSubBytes[p] else 0, incoming);
        chunks, held := preSub[p := kept], preSubBytes[p := total];
      } else {
        CallPaneHandlers(p, handlers, bytes);
      }
      assert log == before + LiveCalls(p, handlers, bytes);
      CallGlobalHandlers(p, bytes);
      forall q: PaneId
        ensures Follows(TraceOf(events + [Pushed(p, bytes)], q, capBytes), capBytes, Listed(paneHandlers, q),
                        Lookup(chunks, q), Lookup(held, q), Lead(log, q))
      {
        assert old(Tracks(q));
        PushTracked(events, p, bytes, q, capBytes);
        PushLead(before, p, handlers, globalHandlers, bytes, q);
      }
      AllServedByPush(before, events, p, handlers, globalHandlers, bytes, capBytes);
      preSub, preSubBytes := chunks, held;
      events := events + [Pushed(p, bytes)];
    }

    /** `onPaneOutput`: the first handler gets the backlog. */
    method OnPaneOutput(p: PaneId, handler: Handler)
      requires Valid()
      modifies this
      ensures Valid()
      ensures events == old(events) + [Subscribed(p, handler)]
      ensures paneHandlers == old(paneHandlers)[p := Listed(old(paneHandlers), p) + [handler]]
      ensures log == old(log) + FlushCalls(p, 0, handler, Listed(old(preSub), p))
      ensures Listed(preSub, p) == [] && globalHandlers == old(globalHandlers)
    {
      hide Kept, Advance, Total, Lead, FlushCalls, TraceOf, Received, Due, GlobalSubs;
      assert Tracks(p);
      HandlersOrWindow(events, p, capBytes);
      KeptNothing(capBytes);
      ghost var before := log;
      var handlers := Listed(paneHandlers, p) + [handler];
      var buffered := Listed(preSub, p);
      NoFlushCalls(p, handler);
      var chunks, held := preSub, preSubBytes;
      if |buffered| > 0 {
        Flush(p, |handlers| - 1, handler, buffered);
        chunks, held := preSub - {p}, preSubBytes - {p};
      }
      assert log == before + FlushCalls(p, 0, handler, buffered);
      forall q: PaneId
        ensures Follows(TraceOf(events + [Subscribed(p, handler)], q, capBytes), capBytes,
                        if q == p then handlers else Listed(paneHandlers, q),
                        Lookup(chunks, q), Lookup(held, q), Lead(log, q))
      {
        assert old(Tracks(q));
        SubscribeTracked(events, p, handler, q, capBytes);
        LeadConcat(before, FlushCalls(p, 0, handler, buffered), q);
        LeadOfFlush(p, handler, buffered, q);
      }
      AllServedByFlush(before, events, p, handler, buffered, capBytes);
      paneHandlers := paneHandlers[p := handlers];
      preSub, preSubBytes := chunks, held;
      events := events + [Subscribed(p, handler)];
    }

    method Flush(p: PaneId, position: nat, handler: Handler, chunks: seq<Blob>)
      modifies this`log
      ensures log == old(log) + FlushCalls(p, position, handler, chunks)
    {
      for i := 0 to |chunks|
        invariant log == old(log) + FlushCalls(p, position, handler, chunks)[..i]
      {
        log := log + [ToPane(p, position, handler, chunks[i])];
      }
    }

    /** The function `onPaneOutput` returned; it may be called more than once. */
    method Unsubscribe(p: PaneId, handler: Handler)
      requires Valid()
      modifies this`paneHandlers, this`events
      ensures Valid()
      ensures events == old(events) + [Unsubscribed(p, handler)]
      ensures paneHandlers == if p in old(paneHandlers) then old(paneHandlers)[p := Without(old(paneHandlers)[p], handler)]
                              else old(paneHandlers)
    {
      hide Kept, Total, Lead, Received, Due, GlobalSubs;
      forall q: PaneId, h: Handler, global: bool
        ensures Due(events + [Unsubscribed(p, handler)], q, h, global, capBytes) == Due(events, q, h, global, capBytes)
        ensures GlobalSubs(events + [Unsubscribed(p, handler)]) == GlobalSubs(events)
      {
        DueNext(events, Unsubscribed(p, handler), q, h, global, capBytes);
      }
      DueNext(events, Unsubscribed(p, handler), p, 0, false, capBytes);
      events := events + [Unsubscribed(p, handler)];
      assert events[..|events| - 1] == old(events);
      if p in paneHandlers {
        var list := paneHandlers[p];
        var idx := IndexOf(list, handler);
        if idx.Some? {
          list := list[..idx.value] + list[idx.value + 1..];
        }
        paneHandlers := paneHandlers[p := list];
      }
      forall q: PaneId ensures Tracks(q) {
        assert old(Tracks(q));
      }
    }

    method OnOutput(handler: Handler)
      requires Valid()
      modifies this`globalHandlers, this`events
      ensures Valid() && events == old(events) + [GlobalOn(handler)]
      ensures globalHandlers == old(globalHandlers) + [handler]
    {
      GlobalStep(events, GlobalOn(handler), capBytes);
      hide TraceOf, Due, GlobalSubs;
      globalHandlers := globalHandlers + [handler];
      events := events + [GlobalOn(handler)];
      assert forall p: PaneId :: old(Tracks(p)) ==> Tracks(p);
    }

    /** The function `onOutput` returned. */
    method OffOutput(handler: Handler)
      requires Valid()
      modifies this`globalHandlers, this`events
      ensures Valid() && events == old(events) + [GlobalOff(handler)]
      ensures globalHandlers == Without(old(globalHandlers), handler)
    {
      GlobalStep(events, GlobalOff(handler), capBytes);
      hide TraceOf, Due, GlobalSubs;
      var idx := IndexOf(globalHandlers, handler);
      if idx.Some? {
        globalHandlers := globalHandlers[..idx.value] + globalHandlers[idx.value + 1..];
      }
      events := events + [GlobalOff(handler)];
      assert forall p: PaneId :: old(Tracks(p)) ==> Tracks(p);
    }

    /** `getBuffered`: one copy of the whole backlog. */
    method GetBuffered(p: PaneId) returns (r: Option<Blob>)
      requires Valid()
      ensures r == if Listed(preSub, p) == [] then None else Some(Flatten(Listed(preSub, p)))
    {
      var chunks := Listed(preSub, p);
      if |chunks| == 0 {
        return None;
      }
      var out: Blob := [];
      for i := 0 to |chunks|
        invariant out == Flatten(chunks[..i])
      {
        FlattenAppend(chunks[..i], chunks[i]);
        assert chunks[..i + 1] == chunks[..i] + [chunks[i]];
        out := out + chunks[i];
      }
      assert chunks[..|chunks|] == chunks;
      r := Some(out);
    }
  }

  // ---------------------------------------------------------------------
  // Steps of the consumer
  // ---------------------------------------------------------------------

  lemma EmptyTotal()
    ensures Total([]) == 0
  {
  }

  lemma NoLiveCalls(p: PaneId, bytes: Blob)
    ensures LiveCalls(p, [], bytes) == []
  {
  }

  lemma NoFlushCalls(p: PaneId, h: Handler)
    ensures FlushCalls(p, 0, h, []) == []
  {
  }

  lemma KeptNothing(cap: nat)
    ensures Kept([], cap) == []
  {
  }

  /** The global handlers change nothing of the panes, and nothing is due for that. */
  lemma GlobalStep(events: seq<Event>, e: Event, cap: nat)
    requires e.GlobalOn? || e.GlobalOff?
    ensures forall p: PaneId :: TraceOf(events + [e], p, cap) == TraceOf(events, p, cap)
    ensures forall p: PaneId, h: Handler, g: bool :: Due(events + [e], p, h, g, cap) == Due(events, p, h, g, cap)
    ensures GlobalSubs(events + [e])
      == if e.GlobalOn? then GlobalSubs(events) + [e.handler] else Without(GlobalSubs(events), e.handler)
  {
    assert (events + [e])[..|events|] == events;
  }

  lemma CallsInOrder(log: seq<Call>, p: PaneId, hs: seq<Handler>, globals: seq<Handler>, bytes: Blob)
    ensures var after, n := log + LiveCalls(p, hs, bytes) + GlobalCalls(p, globals, bytes), |log|;
      && |after| == n + |hs| + |globals|
      && (forall i | 0 <= i < |hs| :: after[n + i] == ToPane(p, i, hs[i], bytes))
      && (forall i | 0 <= i < |globals| :: after[n + |hs| + i] == ToGlobal(p, globals[i], bytes))
  {
  }

  lemma PushTracked(events: seq<Event>, p: PaneId, bytes: Blob, q: PaneId, cap: nat)
    ensures var before, after := TraceOf(events, q, cap), TraceOf(events + [Pushed(p, bytes)], q, cap);
      after == if q != p then before
               else if before.subs == [] then before.(window := before.window + [bytes])
               else before.(out := before.out + bytes)
  {
    assert (events + [Pushed(p, bytes)])[..|events|] == events;
  }

  lemma SubscribeTracked(events: seq<Event>, p: PaneId, h: Handler, q: PaneId, cap: nat)
    ensures var before, after := TraceOf(events, q, cap), TraceOf(events + [Subscribed(p, h)], q, cap);
      if q != p then after == before
      else
        && after.subs == before.subs + [h] && after.window == []
        && after.out == before.out + Flatten(Kept(before.window, cap))
  {
    assert (events + [Subscribed(p, h)])[..|events|] == events;
  }

  lemma PushLead(calls: seq<Call>, p: PaneId, hs: seq<Handler>, globals: seq<Handler>, bytes: Blob, q: PaneId)
    ensures Lead(calls + LiveCalls(p, hs, bytes) + GlobalCalls(p, globals, bytes), q)
         == if p == q && hs != [] then Lead(calls, q) + bytes else Lead(calls, q)
  {
    hide Lead, LiveCalls, GlobalCalls;
    LeadConcat(calls, LiveCalls(p, hs, bytes), q);
    LeadConcat(calls + LiveCalls(p, hs, bytes), GlobalCalls(p, globals, bytes), q);
    LeadOfLive(p, hs, bytes, q);
    LeadOfGlobal(p, globals, bytes, q);
  }

  /** Never both a handler and a backlog; the backlog is capped and its count is right. */
  lemma BufferInvariant(c: PaneStreamConsumer, p: PaneId)
    requires c.Valid()
    ensures Listed(c.paneHandlers, p) == [] || Listed(c.preSub, p) == []
    ensures Total(Listed(c.preSub, p)) <= c.capBytes
    ensures p in c.preSubBytes ==> c.preSubBytes[p] == |Flatten(Listed(c.preSub, p))|
  {
    assert c.Tracks(p);
    HandlersOrWindow(c.events, p, c.capBytes);
    KeptNothing(c.capBytes);
    TotalIsLength(Listed(c.preSub, p));
  }

  /**
   * The bytes the pane's first handlers received, followed by the backlog, are
   * the bytes pushed if and only if no subscription found more than `capBytes`
   * waiting and no more than that waits now.
   */
  lemma NothingLost(c: PaneStreamConsumer, p: PaneId)
    requires c.Valid()
    ensures Lead(c.log, p) + Flatten(Listed(c.preSub, p)) == BytesPushed(c.events, p)
       <==> !Overflowed(c.events, p, c.capBytes) && |Flatten(TraceOf(c.events, p, c.capBytes).window)| <= c.capBytes
  {
    assert c.Tracks(p);
    hide Kept, Lead, TraceOf, Overflowed;
    var t := TraceOf(c.events, p, c.capBytes);
    Conservation(c.events, p, c.capBytes);
    KeptAll(t.window, c.capBytes);
    var _ := KeptIsSuffix(t.window, c.capBytes);
  }

  lemma {:induction false} CountConcat(a: seq<Handler>, b: seq<Handler>, h: Handler)
    ensures Count(a + b, h) == Count(a, h) + Count(b, h)
  {
    if b == [] {
      assert a + b == a;
    } else {
      assert (a + b)[..|a + b| - 1] == a + b[..|b| - 1];
      CountConcat(a, b[..|b| - 1], h);
    }
  }

  lemma {:induction false} CountNone(hs: seq<Handler>, h: Handler)
    ensures Count(hs, h) == 0 <==> h !in hs
  {
    if hs != [] {
      CountNone(hs[..|hs| - 1], h);
      assert hs == hs[..|hs| - 1] + [hs[|hs| - 1]];
    }
  }

  /** Unsubscribing takes away one registration of the handler, and nobody else's. */
  lemma WithoutOne(hs: seq<Handler>, h: Handler, g: Handler)
    ensures Count(Without(hs, h), g) == Count(hs, g) - if g == h && h in hs then 1 else 0
  {
    var i := IndexOf(hs, h);
    if i.Some? {
      var a, b := hs[..i.value], hs[i.value + 1..];
      assert hs == a + [h] + b && Without(hs, h) == a + b;
      CountConcat(a + [h], b, g);
      CountConcat(a, [h], g);
      CountConcat(a, b, g);
      assert [h][..0] == [];
    }
  }

  /** What one event brings a handler that it neither adds nor takes away. */
  lemma DueStep(events: seq<Event>, e: Event, p: PaneId, h: Handler, cap: nat)
    requires var n := Count(TraceOf(events, p, cap).subs, h);
      e != Subscribed(p, h) && n <= 1 && (n == 1 ==> e != Unsubscribed(p, h))
    ensures var n := Count(TraceOf(events, p, cap).subs, h);
      && Count(TraceOf(events + [e], p, cap).subs, h) == n
      && Due(events + [e], p, h, false, cap)
      == Due(events, p, h, false, cap) + if n == 1 && e.Pushed? && e.paneId == p then e.bytes else []
  {
    if e == Unsubscribed(p, h) {
      CountGone(events, p, h, cap);
    } else {
      CountNext(events, e, p, h, cap);
    }
    DueNext(events, e, p, h, false, cap);
    TimesFew(e);
    hide Due, TraceOf, Count, Times, Kept;
  }

  /** While its registrations do not change, a handler that has one gets every push, and one that has none nothing. */
  lemma {:induction false} DueWhile(past: seq<Event>, more: seq<Event>, p: PaneId, h: Handler, cap: nat)
    requires var n := Count(TraceOf(past, p, cap).subs, h);
      Subscribed(p, h) !in more && n <= 1 && (n == 1 ==> Unsubscribed(p, h) !in more)
    ensures var n := Count(TraceOf(past, p, cap).subs, h);
      && Count(TraceOf(past + more, p, cap).subs, h) == n
      && Due(past + more, p, h, false, cap) == Due(past, p, h, false, cap) + if n == 1 then BytesPushed(more, p) else []
  {
    if more == [] {
      assert past + more == past;
    } else {
      hide Due, TraceOf, BytesPushed, Count;
      var k := |more| - 1;
      var front, e, before := more[..k], more[k], past + more[..k];
      LastEvent(past, more);
      DueWhile(past, front, p, h, cap);
      DueStep(before, e, p, h, cap);
      BytesNext(front, e, p);
      var told, was: Blob := Due(past, p, h, false, cap), BytesPushed(front, p);
      Assoc(told, was, if e.Pushed? && e.paneId == p then e.bytes else []);
    }
  }

  lemma LastEvent(past: seq<Event>, more: seq<Event>)
    requires more != []
    ensures var k := |more| - 1;
      && more == more[..k] + [more[k]] && past + more == past + more[..k] + [more[k]]
      && (forall e <- more[..k] :: e in more) && more[k] in more
  {
  }

  lemma TimesFew(e: Event)
    ensures e.Pushed? ==> Times(e.bytes, 0) == [] && Times(e.bytes, 1) == e.bytes
  {
    if e.Pushed? {
      assert Times(e.bytes, 0) + e.bytes == e.bytes;
    }
  }

  lemma BytesNext(events: seq<Event>, e: Event, p: PaneId)
    ensures BytesPushed(events + [e], p) == BytesPushed(events, p) + if e.Pushed? && e.paneId == p then e.bytes else []
  {
    assert (events + [e])[..|events|] == events;
  }

  lemma CountNext(events: seq<Event>, e: Event, p: PaneId, h: Handler, cap: nat)
    requires e != Unsubscribed(p, h)
    ensures Count(TraceOf(events + [e], p, cap).subs, h)
         == Count(TraceOf(events, p, cap).subs, h) + if e == Subscribed(p, h) then 1 else 0
  {
    assert (events + [e])[..|events|] == events;
    var subs := TraceOf(events, p, cap).subs;
    if e.Unsubscribed? && e.paneId == p {
      WithoutOne(subs, e.handler, h);
    } else if e.Subscribed? && e.paneId == p {
      CountConcat(subs, [e.handler], h);
      assert [e.handler][..0] == [];
    }
    hide Kept;
  }

  lemma CountGone(events: seq<Event>, p: PaneId, h: Handler, cap: nat)
    requires Count(TraceOf(events, p, cap).subs, h) == 0
    ensures Count(TraceOf(events + [Unsubscribed(p, h)], p, cap).subs, h) == 0
  {
    assert (events + [Unsubscribed(p, h)])[..|events|] == events;
    CountNone(TraceOf(events, p, cap).subs, h);
    WithoutOne(TraceOf(events, p, cap).subs, h, h);
  }

  lemma {:induction false} StrangerGetsNothing(events: seq<Event>, p: PaneId, h: Handler, cap: nat)
    requires Subscribed(p, h) !in events
    ensures Count(TraceOf(events, p, cap).subs, h) == 0 && Due(events, p, h, false, cap) == []
  {
    if events != [] {
      var k := |events| - 1;
      StrangerGetsNothing(events[..k], p, h, cap);
      DueNext(events[..k], events[k], p, h, false, cap);
      TimesFew(events[k]);
      assert events == events[..k] + [events[k]];
      if events[k] == Unsubscribed(p, h) {
        CountGone(events[..k], p, h, cap);
      } else {
        CountNext(events[..k], events[k], p, h, cap);
      }
    }
  }

  /**
   * For a real consumer and every pane handler registered once and still
   * registered: it was given the backlog it found, the kept suffix of what had
   * come since the pane last had a handler, and then every byte pushed, in order.
   */
  lemma SubscriberGetsAll(c: PaneStreamConsumer, past: seq<Event>, p: PaneId, h: Handler, more: seq<Event>)
    requires c.Valid() && c.events == past + [Subscribed(p, h)] + more
    requires Subscribed(p, h) !in past && Subscribed(p, h) !in more && Unsubscribed(p, h) !in more
    ensures Received(c.log, p, h, false)
         == Flatten(Kept(TraceOf(past, p, c.capBytes).window, c.capBytes)) + BytesPushed(more, p)
  {
    hide Due, TraceOf, BytesPushed, Count, Kept, Flatten;
    var cap, joined := c.capBytes, past + [Subscribed(p, h)];
    StrangerGetsNothing(past, p, h, cap);
    DueNext(past, Subscribed(p, h), p, h, false, cap);
    CountNext(past, Subscribed(p, h), p, h, cap);
    DueWhile(joined, more, p, h, cap);
    assert Received(c.log, p, h, false) == Due(c.events, p, h, false, cap);
  }

  /** A handler that is no longer registered, or never was, is given nothing more. */
  lemma UnsubscribedGetsNothing(c: PaneStreamConsumer, past: seq<Event>, p: PaneId, h: Handler, more: seq<Event>)
    requires c.Valid() && c.events == past + more && h !in TraceOf(past, p, c.capBytes).subs
    requires Subscribed(p, h) !in more
    ensures Received(c.log, p, h, false) == Due(past, p, h, false, c.capBytes)
  {
    CountNone(TraceOf(past, p, c.capBytes).subs, h);
    DueWhile(past, more, p, h, c.capBytes);
    hide Due, TraceOf, Count;
    assert Received(c.log, p, h, false) == Due(c.events, p, h, false, c.capBytes);
  }
}
