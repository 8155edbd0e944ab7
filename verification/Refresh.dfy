/**
 * Coalesced reconciliation of the session table: `_refreshSessions` and
 * `_startRefresh` of packages/driver/src/server-proxy.ts. Promise reactions are
 * steps of their own.
 */
module Refresh {
  import opened Prelude

  type RunId = nat
  type FollowId = nat
  type CallId = nat

  /** Running: the body is at work. Settled: it resolved or rejected. Over: finally ran and the promise resolved. */
  datatype Phase = Running | Settled | Over

  datatype Reconcile = Reconcile(start: nat, phase: Phase)

  /** A promise queued with then on run `after`; its callback starts a run. */
  datatype FollowUp = FollowUp(after: RunId, started: Option<RunId>)

  /** The promise a caller was given. */
  datatype Promise = OfRun(run: RunId) | OfFollowUp(follow: FollowId)

  datatype Call = Call(at: nat, promise: Promise, resolved: bool)

  datatype State = State(
    now: nat,
    runs: seq<Reconcile>,
    follows: seq<FollowUp>,
    calls: seq<Call>,
    inFlight: Option<RunId>,      // _refreshInFlight
    pending: Option<FollowId>)    // _refreshPending

  const INITIAL := State(0, [], [], [], None, None)

  datatype Event =
    | RefreshSessions             // a caller
    | BodySettles(run: RunId)     // with or without an error: catch swallows it
    | FinallyRuns(run: RunId)
    | FollowUpRuns(follow: FollowId)
    | Resolves(call: CallId)

  // ---------------------------------------------------------------------
  // The reference machine
  // ---------------------------------------------------------------------

  predicate IsOver(s: State, r: RunId) {
    r < |s.runs| && s.runs[r].phase.Over?
  }

  predicate PromiseResolved(s: State, p: Promise) {
    match p
    case OfRun(r) => IsOver(s, r)
    case OfFollowUp(f) => f < |s.follows| && s.follows[f].started.Some? && IsOver(s, s.follows[f].started.value)
  }

  predicate Enabled(s: State, e: Event) {
    match e
    case RefreshSessions => true
    case BodySettles(r) => r < |s.runs| && s.runs[r].phase.Running?
    case FinallyRuns(r) => r < |s.runs| && s.runs[r].phase.Settled?
    case FollowUpRuns(f) => f < |s.follows| && s.follows[f].started.None? && IsOver(s, s.follows[f].after)
    case Resolves(c) => c < |s.calls| && !s.calls[c].resolved && PromiseResolved(s, s.calls[c].promise)
  }

  /** `_startRefresh`. */
  function StartRefresh(s: State): State {
    s.(runs := s.runs + [Reconcile(s.now, Running)], inFlight := Some(|s.runs|))
  }

  function React(s: State, e: Event): State
    requires Enabled(s, e)
  {
    match e
    case RefreshSessions =>
      if s.inFlight.None? then
        StartRefresh(s).(calls := s.calls + [Call(s.now, OfRun(|s.runs|), false)])
      else if s.pending.None? then
        s.(follows := s.follows + [FollowUp(s.inFlight.value, None)], pending := Some(|s.follows|),
           calls := s.calls + [Call(s.now, OfFollowUp(|s.follows|), false)])
      else s.(calls := s.calls + [Call(s.now, OfFollowUp(s.pending.value), false)])
    case BodySettles(r) => s.(runs := s.runs[r := s.runs[r].(phase := Settled)])
    case FinallyRuns(r) =>
      s.(runs := s.runs[r := s.runs[r].(phase := Over)], inFlight := if s.inFlight == Some(r) then None else s.inFlight)
    case FollowUpRuns(f) =>
      StartRefresh(s.(pending := None, follows := s.follows[f := s.follows[f].(started := Some(|s.runs|))]))
    case Resolves(c) => s.(calls := s.calls[c := s.calls[c].(resolved := true)])
  }

  function Next(s: State, e: Event): State {
    if Enabled(s, e) then React(s, e).(now := s.now + 1) else s
  }

  function Run(events: seq<Event>): State {
    if events == [] then INITIAL else Next(Run(events[..|events| - 1]), events[|events| - 1])
  }

  // ---------------------------------------------------------------------
  // Invariants
  // ---------------------------------------------------------------------

  /** The callback of the pending promise, and only it, has yet to run. */
  predicate PendingInv(s: State) {
    && (s.inFlight.Some? ==> s.inFlight.value < |s.runs| && !s.runs[s.inFlight.value].phase.Over?)
    && (s.pending.Some? ==> s.pending.value < |s.follows|)
    && (forall f | 0 <= f < |s.follows| :: s.follows[f].started.None? <==> s.pending == Some(f))
    && (s.pending.Some? ==>
          var r := s.follows[s.pending.value].after; s.inFlight == Some(r) || IsOver(s, r))
  }

  predicate FollowsInv(s: State) {
    && (forall f | 0 <= f < |s.follows| :: s.follows[f].after < |s.runs|)
    && (forall f | 0 <= f < |s.follows| && s.follows[f].started.Some? ::
          s.follows[f].started.value < |s.runs| && IsOver(s, s.follows[f].after))
    && (forall f, g | 0 <= f < g < |s.follows| :: s.follows[f].after != s.follows[g].after)
    && (s.inFlight.Some? ==> forall f | 0 <= f < |s.follows| && s.follows[f].started.Some? :: s.follows[f].after != s.inFlight.value)
  }

  /** The run that answers a call began no earlier than the call. */
  predicate CallSound(s: State, c: Call) {
    && c.at < s.now
    && (c.promise.OfRun? ==> c.promise.run < |s.runs| && s.runs[c.promise.run].start >= c.at)
    && (c.promise.OfFollowUp? ==>
          && c.promise.follow < |s.follows|
          && (s.follows[c.promise.follow].started.Some? ==>
                var r := s.follows[c.promise.follow].started.value; r < |s.runs| && s.runs[r].start >= c.at))
    && (c.resolved ==> PromiseResolved(s, c.promise))
  }

  predicate Inv(s: State) {
    && PendingInv(s) && FollowsInv(s)
    && (forall r | 0 <= r < |s.runs| :: s.runs[r].start < s.now)
    && (forall c | 0 <= c < |s.calls| :: CallSound(s, s.calls[c]))
  }

  /** What is over stays over. */
  lemma StaysOver(s: State, e: Event)
    requires Enabled(s, e)
    ensures forall r | IsOver(s, r) :: IsOver(Next(s, e), r)
    ensures forall p | PromiseResolved(s, p) && s.follows == Next(s, e).follows :: PromiseResolved(Next(s, e), p)
  {
  }

  lemma PendingKeeps(s: State, e: Event)
    requires PendingInv(s) && Enabled(s, e)
    ensures PendingInv(Next(s, e))
  {
    StaysOver(s, e);
    hide PromiseResolved;
    match e
    case RefreshSessions =>
    case BodySettles(_) =>
    case FinallyRuns(_) =>
    case FollowUpRuns(_) =>
    case Resolves(_) =>
  }

  lemma FollowsKeep(s: State, e: Event)
    requires PendingInv(s) && FollowsInv(s) && Enabled(s, e)
    ensures FollowsInv(Next(s, e))
  {
    StaysOver(s, e);
    hide PromiseResolved;
    match e
    case RefreshSessions =>
    case BodySettles(_) =>
    case FinallyRuns(_) =>
    case FollowUpRuns(_) =>
    case Resolves(_) =>
  }

  /** A call that was sound stays sound. */
  lemma CallKeeps(s: State, e: Event, c: Call)
    requires PendingInv(s) && FollowsInv(s) && Enabled(s, e) && CallSound(s, c)
    requires forall r | 0 <= r < |s.runs| :: s.runs[r].start < s.now
    ensures CallSound(Next(s, e), c)
  {
    StaysOver(s, e);
    hide FollowsInv;
    match e
    case RefreshSessions =>
    case BodySettles(_) =>
    case FinallyRuns(_) =>
    case FollowUpRuns(_) =>
    case Resolves(_) =>
  }

  /** And so is a new call, and one that resolves. */
  lemma CallsKeep(s: State, e: Event)
    requires Inv(s) && Enabled(s, e)
    ensures forall c | 0 <= c < |Next(s, e).calls| :: CallSound(Next(s, e), Next(s, e).calls[c])
  {
    var t := Next(s, e);
    forall c | 0 <= c < |t.calls| ensures CallSound(t, t.calls[c]) {
      if c < |s.calls| {
        CallKeeps(s, e, s.calls[c]);
        if t.calls[c] != s.calls[c] {
          Resolved(s, e, s.calls[c]);
        }
      } else {
        NewCall(s);
      }
    }
  }

  lemma Resolved(s: State, e: Event, c: Call)
    requires e.Resolves? && Enabled(s, e) && c == s.calls[e.call] && CallSound(Next(s, e), c)
    ensures CallSound(Next(s, e), c.(resolved := true))
  {
    StaysOver(s, e);
  }

  lemma NewCall(s: State)
    requires PendingInv(s)
    ensures var t := Next(s, RefreshSessions);
      |t.calls| == |s.calls| + 1 && CallSound(t, t.calls[|s.calls|])
  {
  }

  lemma NextKeeps(s: State, e: Event)
    requires Inv(s)
    ensures Inv(Next(s, e))
  {
    if Enabled(s, e) {
      PendingKeeps(s, e);
      FollowsKeep(s, e);
      CallsKeep(s, e);
      hide PendingInv, FollowsInv, CallSound;
    }
  }

  lemma {:induction false} RunKeeps(events: seq<Event>)
    ensures Inv(Run(events))
  {
    hide Next, Inv;
    if events == [] {
      StartKeeps();
    } else {
      RunKeeps(events[..|events| - 1]);
      NextKeeps(Run(events[..|events| - 1]), events[|events| - 1]);
    }
  }

  lemma StartKeeps()
    ensures Inv(INITIAL)
  {
  }

  // ---------------------------------------------------------------------
  // The promises
  // ---------------------------------------------------------------------

  /** The run a call's promise waits for, once there is one. */
  function Serving(s: State, p: Promise): Option<RunId> {
    match p
    case OfRun(r) => Some(r)
    case OfFollowUp(f) => if f < |s.follows| then s.follows[f].started else None
  }

  /**
   * Freshness: whoever awaited _refreshSessions and went on saw a reconcile
   * that began no earlier than the call, and is over.
   */
  lemma ResolvedIsFresh(events: seq<Event>, c: CallId)
    requires c < |Run(events).calls| && Run(events).calls[c].resolved
    ensures var s := Run(events);
      var r := Serving(s, s.calls[c].promise);
      r.Some? && IsOver(s, r.value) && s.calls[c].at <= s.runs[r.value].start
  {
    RunKeeps(events);
    hide Run;
    assert CallSound(Run(events), Run(events).calls[c]);
  }

  /** However many calls arrive during one run, at most one follow-up is queued on it. */
  lemma OneFollowUpPerRun(events: seq<Event>, f: FollowId, g: FollowId)
    requires f < |Run(events).follows| && g < |Run(events).follows|
    requires Run(events).follows[f].after == Run(events).follows[g].after
    ensures f == g
  {
    RunKeeps(events);
  }

  // ---------------------------------------------------------------------
  // Nothing gets stuck
  // ---------------------------------------------------------------------

  function RunWork(r: Reconcile): nat {
    match r.phase
    case Running => 2
    case Settled => 1
    case Over => 0
  }

  function RunsWork(runs: seq<Reconcile>): nat {
    if runs == [] then 0 else RunsWork(runs[..|runs| - 1]) + RunWork(runs[|runs| - 1])
  }

  function FollowsWork(follows: seq<FollowUp>): nat {
    if follows == [] then 0
    else FollowsWork(follows[..|follows| - 1]) + if follows[|follows| - 1].started.None? then 3 else 0
  }

  function CallsWork(calls: seq<Call>): nat {
    if calls == [] then 0 else CallsWork(calls[..|calls| - 1]) + if calls[|calls| - 1].resolved then 0 else 1
  }

  /** Reactions still to come if nobody calls again. */
  function Work(s: State): nat {
    RunsWork(s.runs) + FollowsWork(s.follows) + CallsWork(s.calls)
  }

  lemma {:induction false} RunsWorkAt(runs: seq<Reconcile>, i: nat, r: Reconcile)
    requires i < |runs|
    ensures RunsWork(runs[i := r]) == RunsWork(runs) - RunWork(runs[i]) + RunWork(r)
  {
    var k := |runs| - 1;
    if i < k {
      assert runs[i := r][..k] == runs[..k][i := r];
      RunsWorkAt(runs[..k], i, r);
    } else {
      assert runs[i := r][..k] == runs[..k];
    }
  }

  lemma {:induction false} FollowsWorkAt(follows: seq<FollowUp>, i: nat, f: FollowUp)
    requires i < |follows| && follows[i].started.None? && f.started.Some?
    ensures FollowsWork(follows[i := f]) == FollowsWork(follows) - 3
  {
    var k := |follows| - 1;
    if i < k {
      assert follows[i := f][..k] == follows[..k][i := f];
      FollowsWorkAt(follows[..k], i, f);
    } else {
      assert follows[i := f][..k] == follows[..k];
    }
  }

  lemma {:induction false} CallsWorkAt(calls: seq<Call>, i: nat, c: Call)
    requires i < |calls| && !calls[i].resolved && c.resolved
    ensures CallsWork(calls[i := c]) == CallsWork(calls) - 1
  {
    var k := |calls| - 1;
    if i < k {
      assert calls[i := c][..k] == calls[..k][i := c];
      CallsWorkAt(calls[..k], i, c);
    } else {
      assert calls[i := c][..k] == calls[..k];
    }
  }

  /** Every reaction uses up work, whether the reconcile failed or not. */
  lemma ReactionsEnd(s: State, e: Event)
    requires Enabled(s, e) && !e.RefreshSessions?
    ensures Work(Next(s, e)) < Work(s)
  {
    match e
    case RefreshSessions =>
    case BodySettles(r) => RunsWorkAt(s.runs, r, s.runs[r].(phase := Settled));
    case FinallyRuns(r) => RunsWorkAt(s.runs, r, s.runs[r].(phase := Over));
    case FollowUpRuns(f) =>
      FollowsWorkAt(s.follows, f, s.follows[f].(started := Some(|s.runs|)));
      assert (s.runs + [Reconcile(s.now, Running)])[..|s.runs|] == s.runs;
    case Resolves(c) => CallsWorkAt(s.calls, c, s.calls[c].(resolved := true));
  }

  /** While a caller waits, some reaction is due: no chain is wedged. */
  lemma SomethingIsDue(s: State, c: CallId) returns (e: Event)
    requires Inv(s) && c < |s.calls| && !s.calls[c].resolved
    ensures Enabled(s, e) && !e.RefreshSessions?
  {
    var p := s.calls[c].promise;
    assert CallSound(s, s.calls[c]);
    if PromiseResolved(s, p) {
      e := Resolves(c);
    } else {
      var waiting := p.OfFollowUp? && s.follows[p.follow].started.None?;
      var r := if p.OfRun? then p.run else if waiting then s.follows[p.follow].after else s.follows[p.follow].started.value;
      e := if s.runs[r].phase.Running? then BodySettles(r)
           else if s.runs[r].phase.Settled? then FinallyRuns(r)
           else FollowUpRuns(p.follow);
    }
  }

  lemma RunNext(events: seq<Event>, e: Event)
    ensures Run(events + [e]) == Next(Run(events), e)
  {
    assert (events + [e])[..|events|] == events;
  }

  lemma SameCallers(s: State, e: Event)
    requires !e.RefreshSessions?
    ensures |Next(s, e).calls| == |s.calls|
  {
  }

  /** So every caller's promise resolves, from any reachable state, if the reactions just run. */
  lemma {:induction false} EveryCallerResolves(events: seq<Event>) returns (more: seq<Event>)
    ensures forall i | 0 <= i < |more| :: !more[i].RefreshSessions?
    ensures |more| <= Work(Run(events))
    ensures var t := Run(events + more);
      |t.calls| == |Run(events).calls| && forall c | 0 <= c < |t.calls| :: t.calls[c].resolved
    decreases Work(Run(events))
  {
    hide *;
    var s := Run(events);
    if c :| 0 <= c < |s.calls| && !s.calls[c].resolved {
      RunKeeps(events);
      var e := SomethingIsDue(s, c);
      ReactionsEnd(s, e);
      RunNext(events, e);
      SameCallers(s, e);
      var rest := EveryCallerResolves(events + [e]);
      more := [e] + rest;
      Assoc(events, [e], rest);
    } else {
      more := [];
      assert events + more == events;
    }
  }

  // ---------------------------------------------------------------------
  // Overlap
  // ---------------------------------------------------------------------

  /** The gap between a run's finally and its queued follow-up. */
  predicate InGap(s: State) {
    s.inFlight.None? && s.pending.Some?
  }

  predicate Busy(r: Reconcile) {
    !r.phase.Over?
  }

  /** At most the in-flight run is at work. */
  predicate Exclusive(s: State) {
    forall r | 0 <= r < |s.runs| && Busy(s.runs[r]) :: s.inFlight == Some(r)
  }

  predicate AvoidsGap(events: seq<Event>) {
    events != [] ==>
      && AvoidsGap(events[..|events| - 1])
      && (events[|events| - 1].RefreshSessions? ==> !InGap(Run(events[..|events| - 1])))
  }

  lemma ExclusiveStep(s: State, e: Event)
    requires Inv(s) && Exclusive(s) && !(e.RefreshSessions? && InGap(s))
    requires s.pending.Some? && s.inFlight.Some? ==> s.follows[s.pending.value].after == s.inFlight.value
    ensures var t := Next(s, e);
      Exclusive(t) && (t.pending.Some? && t.inFlight.Some? ==> t.follows[t.pending.value].after == t.inFlight.value)
  {
    NextKeeps(s, e);
    hide CallSound;
  }

  /** Reconciles never overlap as long as nobody calls in the gap ... */
  lemma {:induction false} NoOverlap(events: seq<Event>)
    requires AvoidsGap(events)
    ensures Inv(Run(events)) && Exclusive(Run(events))
    ensures var s := Run(events);
      s.pending.Some? && s.inFlight.Some? ==> s.follows[s.pending.value].after == s.inFlight.value
  {
    RunKeeps(events);
    if events != [] {
      NoOverlap(events[..|events| - 1]);
      hide Inv, Next, Exclusive, InGap;
      ExclusiveStep(Run(events[..|events| - 1]), events[|events| - 1]);
    }
  }

  /** ... and a call in any reachable gap lets two reconciles run at once. */
  lemma CallInGapOverlaps(events: seq<Event>)
    requires InGap(Run(events))
    ensures var s := Run(events);
      var t := Next(Next(s, RefreshSessions), FollowUpRuns(s.pending.value));
      && |t.runs| == |s.runs| + 2
      && t.runs[|s.runs|].phase.Running? && t.runs[|s.runs| + 1].phase.Running?
  {
    RunKeeps(events);
  }

  /** The gap is reachable: two calls, and the first reconcile ends. */
  lemma GapIsReachable()
    ensures InGap(Run([RefreshSessions, RefreshSessions, BodySettles(0), FinallyRuns(0)]))
  {
    var es := [RefreshSessions, RefreshSessions, BodySettles(0), FinallyRuns(0)];
    RunNext([], RefreshSessions);
    RunNext(es[..1], RefreshSessions);
    RunNext(es[..2], BodySettles(0));
    RunNext(es[..3], FinallyRuns(0));
    assert [] + [RefreshSessions] == es[..1] && es[..1] + [RefreshSessions] == es[..2];
    assert es[..2] + [BodySettles(0)] == es[..3] && es[..3] + [FinallyRuns(0)] == es;
    assert Run([]) == INITIAL;
    hide Run;
  }

  // ---------------------------------------------------------------------
  // The broker's fields
  // ---------------------------------------------------------------------

  class Reconciler {
    var refreshInFlight: Option<RunId>
    var refreshPending: Option<FollowId>
    var now: nat
    var runs: seq<Reconcile>
    var follows: seq<FollowUp>
    var calls: seq<Call>
    ghost var events: seq<Event>

    constructor ()
      ensures Valid() && events == []
    {
      refreshInFlight, refreshPending, now, runs, follows, calls, events := None, None, 0, [], [], [], [];
    }

    ghost function Now(): State
      reads this
    {
      State(now, runs, follows, calls, refreshInFlight, refreshPending)
    }

    ghost predicate Valid()
      reads this
    {
      Now() == Run(events)
    }

    /** Time passes with every reaction. */
    method Tick(ghost e: Event)
      requires Enabled(Run(events), e) && Now() == React(Run(events), e)
      modifies this`now, this`events
      ensures Valid() && events == old(events) + [e]
    {
      RunNext(events, e);
      now := now + 1;
      events := events + [e];
      hide Run;
    }

    /** `_startRefresh`. */
    method BeginRun()
      modifies this`runs, this`refreshInFlight
      ensures Now() == StartRefresh(old(Now()))
    {
      var p := |runs|;
      runs := runs + [Reconcile(now, Running)];
      refreshInFlight := Some(p);
    }

    /** `_refreshSessions`: the promise returned is the new call's. */
    method RefreshSessions() returns (p: Promise)
      requires Valid()
      modifies this
      ensures Valid() && events == old(events) + [Event.RefreshSessions]
      ensures |calls| == |old(calls)| + 1 && calls[|old(calls)|].promise == p
    {
      hide Run;
      if refreshInFlight.Some? {
        if refreshPending.None? {
          refreshPending := Some(|follows|);
          follows := follows + [FollowUp(refreshInFlight.value, None)];
        }
        p := OfFollowUp(refreshPending.value);
      } else {
        BeginRun();
        p := OfRun(|runs| - 1);
      }
      calls := calls + [Call(now, p, false)];
      Tick(Event.RefreshSessions);
    }

    /** The finally callback of one run. */
    method Finally(r: RunId)
      requires Valid() && Enabled(Now(), FinallyRuns(r))
      modifies this
      ensures Valid() && events == old(events) + [FinallyRuns(r)]
    {
      hide Run;
      if refreshInFlight == Some(r) {
        refreshInFlight := None;
      }
      runs := runs[r := runs[r].(phase := Over)];
      Tick(FinallyRuns(r));
    }

    /** The then callback of the pending promise. */
    method ContinuePending(f: FollowId)
      requires Valid() && Enabled(Now(), FollowUpRuns(f))
      modifies this
      ensures Valid() && events == old(events) + [FollowUpRuns(f)]
    {
      hide Run;
      refreshPending := None;
      follows := follows[f := follows[f].(started := Some(|runs|))];
      BeginRun();
      Tick(FollowUpRuns(f));
    }
  }
}
