/**
 * The session-proxy registry with its circuit breaker
 * (packages/driver/src/session-proxy-supervisor.ts). Every await is a step
 * boundary: a run is any interleaving of calls, continuations and events.
 */
module Supervisor {
  import opened Prelude

  type SessionId = string
  type Id = nat   // identity of one creation: its promise and its entry object

  const CIRCUIT_BREAKER_TRIP_THRESHOLD := 3
  const CIRCUIT_BREAKER_WINDOW_MS := 10_000

  /** What the registry map holds. */
  datatype Slot = Creating(id: Id) | Ready(id: Id)

  datatype Phase = Starting | Started | Failed

  datatype Entry = Entry(
    sessionId: SessionId,
    phase: Phase,
    settled: bool,          // ensureSessionProxy went on past its await
    reapPending: bool,      // reaped in flight: a then-callback will tear it down
    tornDown: bool,
    boundaryTripInFlight: bool)

  /** What happened to the circuit breaker, for the refinement. */
  datatype Mark = Tripped(sessionId: SessionId, at: int) | Cleared(sessionId: SessionId)

  datatype State = State(
    registry: map<SessionId, Slot>,
    entries: seq<Entry>,
    tripLog: map<SessionId, seq<int>>,
    quarantined: set<SessionId>,
    stops: seq<Id>,         // stop() calls, in order
    crashes: seq<Id>,       // crash-handler calls, in order
    reaped: set<Id>,        // entries whose slot was removed by a reap
    tripped: set<Id>,       // entries whose slot was removed by a boundary trip
    history: seq<Mark>)

  datatype Event =
    | Ensure(sessionId: SessionId)
    | StartOk(id: Id)             // sessionProxy.start() resolved; handlers are wired
    | StartFail(id: Id)           // sessionProxy.start() rejected
    | Register(id: Id)            // ensureSessionProxy continues after success
    | Unregister(id: Id)          // ensureSessionProxy continues after failure
    | Reap(sessionId: SessionId)
    | ReapTeardown(id: Id)        // the then-callback of an in-flight reap
    | Trip(id: Id, now: int)      // onFatalError
    | HostDeath(id: Id)
    | ClearQuarantine(sessionId: SessionId)

  const INITIAL := State(map[], [], map[], {}, [], [], {}, {}, [])

  // ---------------------------------------------------------------------
  // The reference machine
  // ---------------------------------------------------------------------

  /**
   * A trip may come as soon as the creation is under way: the late-bound entry
   * is set before start() is awaited. Host handlers are wired when start() has
   * resolved, and no host event fits between that and the registration, which
   * are microtasks of one turn.
   */
  predicate Enabled(s: State, e: Event) {
    match e
    case Ensure(_) => true
    case Reap(_) => true
    case ClearQuarantine(_) => true
    case StartOk(id) => id < |s.entries| && s.entries[id].phase == Starting
    case StartFail(id) => id < |s.entries| && s.entries[id].phase == Starting
    case Register(id) => id < |s.entries| && s.entries[id].phase == Started && !s.entries[id].settled
    case Unregister(id) => id < |s.entries| && s.entries[id].phase == Failed && !s.entries[id].settled
    case ReapTeardown(id) => id < |s.entries| && s.entries[id].phase == Started && s.entries[id].reapPending
    case Trip(id, _) => id < |s.entries|
    case HostDeath(id) => id < |s.entries| && s.entries[id].phase == Started && s.entries[id].settled
  }

  predicate Registered(s: State, id: Id)
    requires id < |s.entries|
  {
    var sid := s.entries[id].sessionId;
    sid in s.registry && s.registry[sid] == Ready(id)
  }

  /** `_teardownEntry`. */
  function Teardown(s: State, id: Id): State
    requires id < |s.entries|
  {
    if s.entries[id].tornDown then s
    else s.(entries := s.entries[id := s.entries[id].(tornDown := true)], stops := s.stops + [id])
  }

  function TripLogOf(tripLog: map<SessionId, seq<int>>, sid: SessionId): seq<int> {
    if sid in tripLog then tripLog[sid] else []
  }

  /** The last three of the log and the new trip. */
  function Pushed(log: seq<int>, now: int): seq<int> {
    var all := log + [now];
    if |all| > CIRCUIT_BREAKER_TRIP_THRESHOLD then all[|all| - CIRCUIT_BREAKER_TRIP_THRESHOLD..] else all
  }

  predicate ShouldQuarantine(log: seq<int>, now: int) {
    |log| >= CIRCUIT_BREAKER_TRIP_THRESHOLD && now - log[0] <= CIRCUIT_BREAKER_WINDOW_MS
  }

  /** A counted boundary trip of the registered entry. */
  function CountTrip(s: State, id: Id, now: int): State
    requires id < |s.entries|
  {
    var e := s.entries[id];
    var sid, log := e.sessionId, Pushed(TripLogOf(s.tripLog, e.sessionId), now);
    var should := ShouldQuarantine(log, now);
    var after := s.(
      tripLog := if should then s.tripLog - {sid} else s.tripLog[sid := log],
      quarantined := if should then s.quarantined + {sid} else s.quarantined,
      entries := s.entries[id := e.(boundaryTripInFlight := true, tornDown := true)],
      registry := s.registry - {sid},
      tripped := s.tripped + {id},
      history := s.history + [Tripped(sid, now)]);
    Teardown(after, id)
  }

  function Next(s: State, e: Event): State {
    if !Enabled(s, e) then s
    else
      match e
      case Ensure(sid) =>
        if sid in s.quarantined || sid in s.registry then s
        else s.(entries := s.entries + [Entry(sid, Starting, false, false, false, false)],
                registry := s.registry[sid := Creating(|s.entries|)])
      case StartOk(id) => s.(entries := s.entries[id := s.entries[id].(phase := Started)])
      case StartFail(id) => s.(entries := s.entries[id := s.entries[id].(phase := Failed)])
      case Register(id) =>
        var e := s.entries[id];
        var own := e.sessionId in s.registry && s.registry[e.sessionId] == Creating(id);
        s.(entries := s.entries[id := e.(settled := true)],
           registry := if own then s.registry[e.sessionId := Ready(id)] else s.registry)
      case Unregister(id) =>
        s.(entries := s.entries[id := s.entries[id].(settled := true)],
           registry := s.registry - {s.entries[id].sessionId})
      case Reap(sid) =>
        if sid !in s.registry then s
        else
          var id := s.registry[sid].id;
          var after := s.(registry := s.registry - {sid}, reaped := s.reaped + {id});
          if id >= |s.entries| then after
          else if s.registry[sid].Creating? then after.(entries := s.entries[id := s.entries[id].(reapPending := true)])
          else Teardown(after, id)
      case ReapTeardown(id) => Teardown(s.(entries := s.entries[id := s.entries[id].(reapPending := false)]), id)
      case Trip(id, now) =>
        if s.entries[id].boundaryTripInFlight then s
        else if !Registered(s, id) then s.(entries := s.entries[id := s.entries[id].(boundaryTripInFlight := true)])
        else CountTrip(s, id, now)
      case HostDeath(id) =>
        var e := s.entries[id];
        if e.tornDown then s
        else
          var after := s.(entries := s.entries[id := e.(tornDown := true)]);
          if Registered(s, id) then after.(registry := s.registry - {e.sessionId}, crashes := s.crashes + [id]) else after
      case ClearQuarantine(sid) =>
        s.(quarantined := s.quarantined - {sid}, tripLog := s.tripLog - {sid}, history := s.history + [Cleared(sid)])
  }

  function Run(events: seq<Event>): State {
    if events == [] then INITIAL else Next(Run(events[..|events| - 1]), events[|events| - 1])
  }

  // ---------------------------------------------------------------------
  // Invariants of the registry
  // ---------------------------------------------------------------------

  /** An entry leaves the registry by at most one of reap, trip and crash. */
  ghost predicate Apart(s: State) {
    forall id: Id :: (id in s.reaped ==> id !in s.tripped && id !in s.crashes) && (id in s.tripped ==> id !in s.crashes)
  }

  predicate SlotSound(s: State, sid: SessionId)
    requires sid in s.registry
  {
    var id := s.registry[sid].id;
    && id < |s.entries| && s.entries[id].sessionId == sid
    && id !in s.reaped && id !in s.tripped && id !in s.crashes
    && (s.registry[sid].Creating? ==> !s.entries[id].settled)
    && (s.registry[sid].Ready? ==> s.entries[id].phase == Started && s.entries[id].settled)
  }

  predicate EntrySound(s: State, id: Id)
    requires id < |s.entries|
  {
    var e := s.entries[id];
    && (e.reapPending ==> id in s.reaped)
    && (id in s.tripped || id in s.crashes || id in s.stops ==> e.tornDown)
    && (id in s.stops ==> id in s.reaped)
  }

  ghost predicate Bounded(s: State) {
    forall id: Id :: id in s.reaped || id in s.tripped || id in s.crashes || id in s.stops ==> id < |s.entries|
  }

  ghost predicate RegistryInv(s: State) {
    && (forall sid <- s.registry :: sid !in s.quarantined && SlotSound(s, sid))
    && (forall id | 0 <= id < |s.entries| :: EntrySound(s, id))
    && Bounded(s) && Apart(s) && NoRepeats(s.stops) && NoRepeats(s.crashes)
  }

  lemma TeardownKeeps(s: State, id: Id)
    requires id < |s.entries| && RegistryInv(s) && id in s.reaped
    ensures RegistryInv(Teardown(s, id))
  {
    hide NoRepeats;
    var t := Teardown(s, id);
    if t != s {
      assert EntrySound(s, id);
      Appended(s.stops, id);
      forall k | 0 <= k < |t.entries| ensures EntrySound(t, k) {
        assert EntrySound(s, k);
      }
      forall sid <- t.registry ensures SlotSound(t, sid) {
        assert SlotSound(s, sid);
      }
    }
  }

  /** Steps that only touch one entry's flags and no history. */
  lemma EntryStepKeeps(s: State, t: State, id: Id)
    requires RegistryInv(s) && id < |s.entries|
    requires t == s.(entries := t.entries) && |t.entries| == |s.entries| && t.entries == s.entries[id := t.entries[id]]
    requires t.entries[id].sessionId == s.entries[id].sessionId && t.entries[id].settled == s.entries[id].settled
    requires s.entries[id].phase == Started ==> t.entries[id].phase == Started
    requires s.entries[id].tornDown ==> t.entries[id].tornDown
    requires t.entries[id].reapPending ==> s.entries[id].reapPending
    ensures RegistryInv(t)
  {
    forall k | 0 <= k < |t.entries| ensures EntrySound(t, k) {
      assert EntrySound(s, k);
    }
    forall sid <- t.registry ensures SlotSound(t, sid) {
      assert SlotSound(s, sid);
    }
  }

  /** Steps of ensureSessionProxy. */
  lemma EnsureKeeps(s: State, e: Event)
    requires RegistryInv(s) && (e.Ensure? || e.Register? || e.Unregister?)
    ensures RegistryInv(Next(s, e))
  {
    hide NoRepeats;
    var t := Next(s, e);
    forall k | 0 <= k < |t.entries| ensures EntrySound(t, k) {
      if k < |s.entries| {
        assert EntrySound(s, k);
      }
    }
    forall sid <- t.registry ensures sid !in t.quarantined && SlotSound(t, sid) {
      if sid in s.registry {
        assert SlotSound(s, sid);
      }
    }
  }

  lemma ReapKeeps(s: State, sid: SessionId)
    requires RegistryInv(s)
    ensures RegistryInv(Next(s, Reap(sid)))
  {
    hide NoRepeats, Teardown;
    if sid in s.registry {
      assert SlotSound(s, sid);
      var id := s.registry[sid].id;
      var after := s.(registry := s.registry - {sid}, reaped := s.reaped + {id});
      forall k | 0 <= k < |s.entries| ensures EntrySound(after, k) {
        assert EntrySound(s, k);
      }
      forall other <- after.registry ensures SlotSound(after, other) {
        assert SlotSound(s, other);
      }
      if s.registry[sid].Creating? {
        var t := Next(s, Reap(sid));
        forall k | 0 <= k < |t.entries| ensures EntrySound(t, k) {
          assert EntrySound(after, k);
        }
        forall other <- t.registry ensures SlotSound(t, other) {
          assert SlotSound(after, other);
        }
      } else {
        TeardownKeeps(after, id);
      }
    }
  }

  /** A trip or death that removes its own slot. */
  lemma RemovalKeeps(s: State, t: State, id: Id)
    requires RegistryInv(s) && id < |s.entries| && Registered(s, id)
    requires t.registry == s.registry - {s.entries[id].sessionId}
    requires t.stops == s.stops && t.reaped == s.reaped && t.quarantined <= s.quarantined + {s.entries[id].sessionId}
    requires |t.entries| == |s.entries| && t.entries == s.entries[id := t.entries[id]]
    requires t.entries[id].tornDown && t.entries[id].reapPending == s.entries[id].reapPending
    requires (t.tripped == s.tripped + {id} && t.crashes == s.crashes) || (t.crashes == s.crashes + [id] && t.tripped == s.tripped)
    ensures RegistryInv(t)
  {
    var own := s.entries[id].sessionId;
    assert SlotSound(s, own);
    Appended(s.crashes, id);
    hide NoRepeats;
    forall k | 0 <= k < |t.entries| ensures EntrySound(t, k) {
      assert EntrySound(s, k);
    }
    forall sid <- t.registry ensures sid !in t.quarantined && SlotSound(t, sid) {
      assert SlotSound(s, sid);
    }
  }

  lemma ClearKeeps(s: State, sid: SessionId)
    requires RegistryInv(s)
    ensures RegistryInv(Next(s, ClearQuarantine(sid)))
  {
    hide NoRepeats;
    var t := Next(s, ClearQuarantine(sid));
    forall k | 0 <= k < |t.entries| ensures EntrySound(t, k) {
      assert EntrySound(s, k);
    }
    forall other <- t.registry ensures SlotSound(t, other) {
      assert SlotSound(s, other);
    }
  }

  lemma NextKeeps(s: State, e: Event)
    requires RegistryInv(s)
    ensures RegistryInv(Next(s, e))
  {
    hide RegistryInv;
    if Enabled(s, e) {
      match e
      case Ensure(_) => EnsureKeeps(s, e);
      case Register(_) => EnsureKeeps(s, e);
      case Unregister(_) => EnsureKeeps(s, e);
      case StartOk(id) => EntryStepKeeps(s, Next(s, e), id);
      case StartFail(id) => EntryStepKeeps(s, Next(s, e), id);
      case Reap(sid) => ReapKeeps(s, sid);
      case ReapTeardown(id) =>
        PendingIsReaped(s, id);
        var t := s.(entries := s.entries[id := s.entries[id].(reapPending := false)]);
        EntryStepKeeps(s, t, id);
        TeardownKeeps(t, id);
      case Trip(id, now) =>
        if !s.entries[id].boundaryTripInFlight {
          if Registered(s, id) {
            RemovalKeeps(s, Next(s, e), id);
          } else {
            EntryStepKeeps(s, Next(s, e), id);
          }
        }
      case HostDeath(id) =>
        if !s.entries[id].tornDown {
          if Registered(s, id) {
            RemovalKeeps(s, Next(s, e), id);
          } else {
            EntryStepKeeps(s, Next(s, e), id);
          }
        }
      case ClearQuarantine(sid) => ClearKeeps(s, sid);
    }
  }

  lemma PendingIsReaped(s: State, id: Id)
    requires RegistryInv(s) && id < |s.entries| && s.entries[id].reapPending
    ensures id in s.reaped
  {
    assert EntrySound(s, id);
  }

  /**
   * Over every interleaving: a quarantined session has no slot; stop() and the
   * crash handler are each called at most once per entry; and the crash handler
   * never for an entry that was reaped or tripped, before or after.
   */
  lemma {:induction false} RunKeeps(events: seq<Event>)
    ensures RegistryInv(Run(events))
  {
    hide Next, RegistryInv;
    if events == [] {
      StartKeeps();
    } else {
      RunKeeps(events[..|events| - 1]);
      NextKeeps(Run(events[..|events| - 1]), events[|events| - 1]);
    }
  }

  lemma StartKeeps()
    ensures RegistryInv(INITIAL)
  {
  }

  lemma AtMostOnce(events: seq<Event>, id: Id)
    ensures var s := Run(events);
      && multiset(s.stops)[id] <= 1 && multiset(s.crashes)[id] <= 1
      && (id in s.crashes ==> id !in s.reaped && id !in s.tripped && id !in s.stops)
      && (id in s.tripped ==> id !in s.stops)
  {
    RunKeeps(events);
    var s := Run(events);
    hide Run;
    CountOnce(s.stops, id);
    CountOnce(s.crashes, id);
    if id in s.stops {
      assert EntrySound(s, id);
    }
  }

  /**
   * A trip or death of one entry changes the registry only if that very entry
   * is registered, and then removes its slot and nothing else.
   */
  lemma StaleEventsAreHarmless(s: State, e: Event)
    requires (e.Trip? || e.HostDeath?) && Enabled(s, e)
    ensures var t, entry := Next(s, e), s.entries[e.id];
      && (t.registry != s.registry ==> Registered(s, e.id) && t.registry == s.registry - {entry.sessionId})
      && (Registered(s, e.id) && !entry.tornDown && !entry.boundaryTripInFlight ==> t.registry == s.registry - {entry.sessionId})
      && (t.crashes != s.crashes ==> e.HostDeath? && t.crashes == s.crashes + [e.id] && Registered(s, e.id) && !entry.tornDown)
      && t.stops == s.stops
      && (t.tripLog != s.tripLog || t.quarantined != s.quarantined ==> e.Trip? && Registered(s, e.id))
  {
  }

  // ---------------------------------------------------------------------
  // The circuit breaker
  // ---------------------------------------------------------------------

  /** Every counted trip of a session since it was last cleared. */
  function Since(history: seq<Mark>, sid: SessionId): seq<int> {
    if history == [] then []
    else
      var last, before := history[|history| - 1], Since(history[..|history| - 1], sid);
      if last.sessionId != sid then before
      else if last.Cleared? then []
      else before + [last.at]
  }

  /** Three consecutive trips within the window. */
  predicate Burst(trips: seq<int>) {
    exists i :: 0 <= i < |trips| - 2 && trips[i + 2] - trips[i] <= CIRCUIT_BREAKER_WINDOW_MS
  }

  function LastThree(trips: seq<int>): seq<int> {
    if |trips| <= 3 then trips else trips[|trips| - 3..]
  }

  /** The three-entry log refines the unbounded history. */
  predicate Refines(s: State, sid: SessionId) {
    var trips := Since(s.history, sid);
    if sid in s.quarantined then Burst(trips) && sid !in s.tripLog
    else !Burst(trips) && TripLogOf(s.tripLog, sid) == LastThree(trips)
  }

  lemma OneMoreTrip(trips: seq<int>, now: int)
    requires !Burst(trips)
    ensures var log := Pushed(LastThree(trips), now);
      && log == LastThree(trips + [now])
      && (ShouldQuarantine(log, now) <==> Burst(trips + [now]))
  {
    var all, log := trips + [now], Pushed(LastThree(trips), now);
    assert forall i | 0 <= i < |trips| :: all[i] == trips[i];
    assert log == LastThree(all);
    if |all| >= 3 {
      assert log == all[|all| - 3..] && log[0] == all[|all| - 3] && all[|all| - 3 + 2] == now;
    }
    if Burst(all) {
      var i :| 0 <= i < |all| - 2 && all[i + 2] - all[i] <= CIRCUIT_BREAKER_WINDOW_MS;
      assert i == |all| - 3;
    }
  }

  /** Does this event count as a boundary trip? */
  predicate Counts(s: State, e: Event) {
    e.Trip? && Enabled(s, e) && !s.entries[e.id].boundaryTripInFlight && Registered(s, e.id)
  }

  lemma BreakerUntouched(s: State, e: Event)
    requires !Counts(s, e) && !e.ClearQuarantine?
    ensures var t := Next(s, e); t.tripLog == s.tripLog && t.quarantined == s.quarantined && t.history == s.history
  {
  }

  lemma SinceNext(history: seq<Mark>, m: Mark, sid: SessionId)
    ensures Since(history + [m], sid)
         == if m.sessionId != sid then Since(history, sid) else if m.Cleared? then [] else Since(history, sid) + [m.at]
  {
    assert (history + [m])[..|history|] == history;
  }

  lemma RefinesStep(s: State, e: Event, sid: SessionId)
    requires RegistryInv(s) && Refines(s, sid)
    ensures Refines(Next(s, e), sid)
  {
    hide Burst, Pushed, ShouldQuarantine, SlotSound, EntrySound, Apart, NoRepeats, Bounded, LastThree, Since;
    if Counts(s, e) {
      var own := s.entries[e.id].sessionId;
      SinceNext(s.history, Tripped(own, e.now), sid);
      if own == sid {
        OneMoreTrip(Since(s.history, sid), e.now);
      }
    } else if e.ClearQuarantine? {
      SinceNext(s.history, Cleared(e.sessionId), sid);
      NoTrips();
    } else {
      BreakerUntouched(s, e);
      hide Next;
    }
  }

  lemma NoTrips()
    ensures !Burst([]) && LastThree([]) == []
  {
  }

  /** A session is quarantined exactly while its history since the last clear holds a burst. */
  lemma {:induction false} BreakerRefinement(events: seq<Event>, sid: SessionId)
    ensures var s := Run(events);
      && (sid in s.quarantined <==> Burst(Since(s.history, sid)))
      && Refines(s, sid)
      && (sid in s.quarantined ==> sid !in s.registry)
  {
    hide Next, RegistryInv, Burst;
    if events == [] {
      NoTrips();
    } else {
      var front := events[..|events| - 1];
      BreakerRefinement(front, sid);
      RunKeeps(front);
      RefinesStep(Run(front), events[|events| - 1], sid);
    }
    RunKeeps(events);
    QuarantinedHasNoSlot(Run(events), sid);
  }

  lemma QuarantinedHasNoSlot(s: State, sid: SessionId)
    requires RegistryInv(s)
    ensures sid in s.quarantined ==> sid !in s.registry
  {
  }

  /** Some three trips, not necessarily consecutive, within the window. */
  predicate AnyThree(trips: seq<int>) {
    exists i, k :: 0 <= i < |trips| && i + 2 <= k < |trips| && trips[k] - trips[i] <= CIRCUIT_BREAKER_WINDOW_MS
  }

  /** With a clock that never runs backwards, any three trips will do. */
  lemma MonotoneBurst(trips: seq<int>)
    requires forall i, j | 0 <= i <= j < |trips| :: trips[i] <= trips[j]
    ensures Burst(trips) <==> AnyThree(trips)
  {
    if AnyThree(trips) {
      var i, k :| 0 <= i < |trips| && i + 2 <= k < |trips| && trips[k] - trips[i] <= CIRCUIT_BREAKER_WINDOW_MS;
      assert trips[i + 2] <= trips[k];
    }
    if Burst(trips) {
      var i :| 0 <= i < |trips| - 2 && trips[i + 2] - trips[i] <= CIRCUIT_BREAKER_WINDOW_MS;
      var k := i + 2;
      assert trips[k] - trips[i] <= CIRCUIT_BREAKER_WINDOW_MS;
    }
  }

  // ---------------------------------------------------------------------
  // Is a registered entry alive?
  // ---------------------------------------------------------------------

  /** Does this event trip an entry that is not registered yet? */
  predicate EarlyTrip(s: State, e: Event) {
    e.Trip? && Enabled(s, e) && !s.entries[e.id].settled
  }

  function TripsAfter(s: State, e: Event, trips: set<Id>): set<Id> {
    trips + if EarlyTrip(s, e) then {e.id} else {}
  }

  /** Entries whose boundary tripped before their registration, during start() included. */
  function EarlyTrips(events: seq<Event>): set<Id> {
    if events == [] then {}
    else
      var k := |events| - 1;
      TripsAfter(Run(events[..k]), events[k], EarlyTrips(events[..k]))
  }

  /** This entry is not torn down, and deaf to trips exactly if it tripped early. */
  predicate Healthy(s: State, id: Id, trips: set<Id>) {
    && id < |s.entries|
    && !s.entries[id].tornDown
    && (s.entries[id].boundaryTripInFlight <==> id in trips)
  }

  predicate HealthInv(s: State, trips: set<Id>) {
    && (forall sid <- s.registry :: Healthy(s, s.registry[sid].id, trips))
    && (forall id <- trips :: id < |s.entries|)
  }

  /** A slot that stays: its entry changes only by a trip of its own. */
  lemma StayingSlot(s: State, e: Event, sid: SessionId)
    requires RegistryInv(s) && Enabled(s, e)
    requires sid in s.registry && sid in Next(s, e).registry && !s.entries[s.registry[sid].id].tornDown
    ensures var t, id := Next(s, e), s.registry[sid].id;
      && t.registry[sid].id == id < |t.entries| && id < |s.entries|
      && !t.entries[id].tornDown
      && (t.entries[id].boundaryTripInFlight == (s.entries[id].boundaryTripInFlight || (e.Trip? && e.id == id)))
      && (e.Trip? && e.id == id && s.entries[id].settled ==> s.entries[id].boundaryTripInFlight)
  {
    hide NoRepeats, Apart, Bounded, Pushed, ShouldQuarantine;
    assert SlotSound(s, sid);
    match e
    case Ensure(_) =>
    case StartOk(_) =>
    case StartFail(_) =>
    case Register(_) =>
    case Unregister(_) =>
    case ClearQuarantine(_) =>
    case Reap(other) =>
      if other in s.registry {
        assert SlotSound(s, other);
      }
    case ReapTeardown(id) => assert EntrySound(s, id);
    case Trip(_, _) =>
    case HostDeath(_) =>
  }

  lemma NewSlot(s: State, e: Event, sid: SessionId)
    requires RegistryInv(s) && Enabled(s, e) && sid !in s.registry && sid in Next(s, e).registry
    ensures var t := Next(s, e);
      && e.Ensure? && t.registry[sid].id == |s.entries| && |t.entries| == |s.entries| + 1
      && !t.entries[|s.entries|].tornDown && !t.entries[|s.entries|].boundaryTripInFlight
  {
    hide NoRepeats, Apart, Bounded, Pushed, ShouldQuarantine;
  }

  lemma EntriesGrow(s: State, e: Event)
    ensures |s.entries| <= |Next(s, e).entries|
  {
  }

  lemma HealthStep(s: State, e: Event, trips: set<Id>)
    requires RegistryInv(s) && HealthInv(s, trips)
    ensures HealthInv(Next(s, e), TripsAfter(s, e, trips))
  {
    EntriesGrow(s, e);
    var t, tripped := Next(s, e), TripsAfter(s, e, trips);
    if Enabled(s, e) {
      forall sid <- t.registry ensures Healthy(t, t.registry[sid].id, tripped) {
        if sid in s.registry {
          assert SlotSound(s, sid) && Healthy(s, s.registry[sid].id, trips);
          StayingSlot(s, e, sid);
        } else {
          NewSlot(s, e, sid);
          assert |s.entries| !in trips;
        }
      }
      forall id <- tripped ensures id < |t.entries| {
        assert id in trips || id < |s.entries|;
      }
    } else {
      assert t == s && tripped == trips;
    }
  }

  lemma {:induction false} RunHealth(events: seq<Event>)
    ensures HealthInv(Run(events), EarlyTrips(events))
  {
    if events != [] {
      hide Next, RegistryInv, HealthInv, TripsAfter;
      var k := |events| - 1;
      RunHealth(events[..k]);
      RunKeeps(events[..k]);
      HealthStep(Run(events[..k]), events[k], EarlyTrips(events[..k]));
    }
  }

  /**
   * Over every run: no slot holds an entry that is torn down, and a ready one is
   * deaf to boundary trips if and only if it tripped before its registration,
   * during start() included.
   */
  lemma ReadySlotHealth(events: seq<Event>, sid: SessionId)
    requires sid in Run(events).registry && Run(events).registry[sid].Ready?
    ensures var s := Run(events);
      var id := s.registry[sid].id;
      && id < |s.entries|
      && !s.entries[id].tornDown
      && (s.entries[id].boundaryTripInFlight <==> id in EarlyTrips(events))
  {
    hide Run;
    RunHealth(events);
  }

  /** Such a run: the pipeline stops while start() is awaited, and is registered deaf, its trip uncounted. */
  lemma EarlyTripIsRegistered(sid: SessionId, now: int)
    ensures var s := Run([Ensure(sid), Trip(0, now), StartOk(0), Register(0)]);
      && s.registry == map[sid := Ready(0)] && |s.entries| == 1 && s.history == []
      && s.entries[0].boundaryTripInFlight
  {
    var a: seq<Event> := [Ensure(sid), Trip(0, now)];
    TrippedRun(sid, now);
    RunNext(a, StartOk(0));
    RunNext(a + [StartOk(0)], Register(0));
    assert a + [StartOk(0)] + [Register(0)] == [Ensure(sid), Trip(0, now), StartOk(0), Register(0)];
    hide Run;
  }

  lemma TrippedRun(sid: SessionId, now: int)
    ensures Run([Ensure(sid), Trip(0, now)])
         == INITIAL.(registry := map[sid := Creating(0)], entries := [Entry(sid, Starting, false, false, false, true)])
  {
    RunNext([], Ensure(sid));
    RunNext([Ensure(sid)], Trip(0, now));
    assert [] + [Ensure(sid)] == [Ensure(sid)] && [Ensure(sid)] + [Trip(0, now)] == [Ensure(sid), Trip(0, now)];
    assert Run([]) == INITIAL;
  }

  // ---------------------------------------------------------------------
  // The unguarded removal after a failed creation
  // ---------------------------------------------------------------------

  /** What a removal guarded by identity, as Register's is, would do. */
  function GuardedRemoval(s: State, id: Id): map<SessionId, Slot>
    requires id < |s.entries|
  {
    var sid := s.entries[id].sessionId;
    if sid in s.registry && s.registry[sid] == Creating(id) then s.registry - {sid} else s.registry
  }

  /**
   * A failed creation removes whatever holds its session's slot. That is the
   * guarded removal if and only if the slot is its own or empty.
   */
  lemma FailureEvicts(s: State, id: Id)
    requires Enabled(s, Unregister(id))
    ensures var sid := s.entries[id].sessionId;
      Next(s, Unregister(id)).registry == GuardedRemoval(s, id) <==> sid !in s.registry || s.registry[sid] == Creating(id)
  {
    var sid := s.entries[id].sessionId;
    assert sid !in s.registry ==> s.registry - {sid} == s.registry;
    assert sid !in s.registry - {sid};
  }

  /** Such a run: the second creation succeeds, and its running session-proxy is in no slot. */
  lemma LateFailureOrphansSuccessor(sid: SessionId)
    ensures var s := Run([Ensure(sid), Reap(sid), Ensure(sid), StartFail(0), Unregister(0), StartOk(1), Register(1)]);
      && |s.entries| == 2 && s.entries[1].phase == Started && !s.entries[1].tornDown
      && 1 !in s.reaped && sid !in s.registry
  {
    var a := [Ensure(sid), Reap(sid), Ensure(sid), StartFail(0)];
    var b := a + [Unregister(0), StartOk(1), Register(1)];
    assert b == [Ensure(sid), Reap(sid), Ensure(sid), StartFail(0), Unregister(0), StartOk(1), Register(1)];
    RunFour(sid);
    RunNext(a, Unregister(0));
    RunNext(a + [Unregister(0)], StartOk(1));
    RunNext(a + [Unregister(0), StartOk(1)], Register(1));
    assert a + [Unregister(0)] + [StartOk(1)] == a + [Unregister(0), StartOk(1)];
    assert a + [Unregister(0), StartOk(1)] + [Register(1)] == b;
    hide Run;
  }

  // ---------------------------------------------------------------------
  // Exactly which running entries are in no slot
  // ---------------------------------------------------------------------

  predicate Holds(s: State, id: Id)
    requires id < |s.entries|
  {
    var sid := s.entries[id].sessionId;
    sid in s.registry && s.registry[sid].id == id
  }

  /** The entry whose slot this event removes although another creation failed. */
  function EvictedAfter(s: State, e: Event, evicted: set<Id>): set<Id> {
    if !e.Unregister? || !Enabled(s, e) then evicted
    else
      var sid := s.entries[e.id].sessionId;
      if sid in s.registry && s.registry[sid].id != e.id then evicted + {s.registry[sid].id} else evicted
  }

  /** Entries whose slot was removed by the failure of another creation. */
  function Evicted(events: seq<Event>): set<Id> {
    if events == [] then {}
    else
      var k := |events| - 1;
      EvictedAfter(Run(events[..k]), events[k], Evicted(events[..k]))
  }

  predicate LeftOnPurpose(s: State, id: Id)
    requires id < |s.entries|
  {
    id in s.reaped || id in s.tripped || id in s.crashes || (s.entries[id].phase == Failed && s.entries[id].settled)
  }

  /** An entry that did not leave on purpose holds its slot, unless it was evicted. */
  predicate HoldRight(s: State, evicted: set<Id>, id: Id)
    requires id < |s.entries|
  {
    (!LeftOnPurpose(s, id) ==> (Holds(s, id) <==> id !in evicted)) && (Holds(s, id) ==> id !in evicted)
  }

  predicate HoldInv(s: State, evicted: set<Id>) {
    && (forall id <- evicted :: id < |s.entries|)
    && (forall id | 0 <= id < |s.entries| :: HoldRight(s, evicted, id))
  }

  /** No step but Unregister lets go of a slot unless its entry leaves on purpose. */
  lemma HoldKept(s: State, e: Event, evicted: set<Id>, id: Id)
    requires RegistryInv(s) && Enabled(s, e) && id < |s.entries| && HoldRight(s, evicted, id)
    requires !e.Unregister?
    ensures id < |Next(s, e).entries| && HoldRight(Next(s, e), evicted, id)
  {
    if e.Reap? || e.ReapTeardown? {
      HoldReaped(s, e, evicted, id);
    } else if e.Trip? || e.HostDeath? {
      HoldStopped(s, e, evicted, id);
    } else {
      hide NoRepeats, Apart, Bounded, EntrySound;
      var sid := s.entries[id].sessionId;
      if sid in s.registry {
        assert SlotSound(s, sid);
      }
      hide RegistryInv, SlotSound;
    }
  }

  lemma HoldReaped(s: State, e: Event, evicted: set<Id>, id: Id)
    requires RegistryInv(s) && Enabled(s, e) && id < |s.entries| && HoldRight(s, evicted, id)
    requires e.Reap? || e.ReapTeardown?
    ensures id < |Next(s, e).entries| && HoldRight(Next(s, e), evicted, id)
  {
    hide NoRepeats, Apart, Bounded, EntrySound;
    var sid := s.entries[id].sessionId;
    if sid in s.registry {
      assert SlotSound(s, sid);
    }
    if e.Reap? && e.sessionId in s.registry {
      assert SlotSound(s, e.sessionId);
    }
    hide RegistryInv, SlotSound;
  }

  lemma HoldStopped(s: State, e: Event, evicted: set<Id>, id: Id)
    requires RegistryInv(s) && Enabled(s, e) && id < |s.entries| && HoldRight(s, evicted, id)
    requires e.Trip? || e.HostDeath?
    ensures id < |Next(s, e).entries| && HoldRight(Next(s, e), evicted, id)
  {
    hide NoRepeats, Apart, Bounded, EntrySound, Pushed, ShouldQuarantine;
    var sid := s.entries[id].sessionId;
    if sid in s.registry {
      assert SlotSound(s, sid);
    }
    hide RegistryInv, SlotSound;
  }

  lemma HoldFailed(s: State, k: Id, evicted: set<Id>, id: Id)
    requires RegistryInv(s) && Enabled(s, Unregister(k)) && id < |s.entries| && HoldRight(s, evicted, id)
    ensures var t := Next(s, Unregister(k));
      id < |t.entries| && HoldRight(t, EvictedAfter(s, Unregister(k), evicted), id)
  {
    hide NoRepeats, Apart, Bounded, EntrySound;
    if s.entries[id].sessionId in s.registry {
      assert SlotSound(s, s.entries[id].sessionId);
    }
    if s.entries[k].sessionId in s.registry {
      assert SlotSound(s, s.entries[k].sessionId);
    }
    hide RegistryInv;
  }

  lemma HoldNew(s: State, e: Event, evicted: set<Id>, id: Id)
    requires RegistryInv(s) && HoldInv(s, evicted) && Enabled(s, e) && |s.entries| <= id < |Next(s, e).entries|
    ensures Holds(Next(s, e), id) && id !in EvictedAfter(s, e, evicted)
  {
    hide NoRepeats, Apart, Pushed, ShouldQuarantine;
  }

  lemma HoldStep(s: State, e: Event, evicted: set<Id>)
    requires RegistryInv(s) && HoldInv(s, evicted)
    ensures HoldInv(Next(s, e), EvictedAfter(s, e, evicted))
  {
    var t, gone := Next(s, e), EvictedAfter(s, e, evicted);
    EntriesGrow(s, e);
    if Enabled(s, e) {
      forall id <- gone ensures id < |t.entries| {
        if id !in evicted {
          assert SlotSound(s, s.entries[e.id].sessionId);
        }
      }
      forall id | 0 <= id < |t.entries| ensures HoldRight(t, gone, id) {
        if id >= |s.entries| {
          HoldNew(s, e, evicted, id);
        } else if e.Unregister? {
          assert HoldRight(s, evicted, id);
          HoldFailed(s, e.id, evicted, id);
        } else {
          assert HoldRight(s, evicted, id);
          HoldKept(s, e, evicted, id);
        }
      }
    }
  }

  lemma {:induction false} RunHolds(events: seq<Event>)
    ensures HoldInv(Run(events), Evicted(events))
  {
    if events != [] {
      hide Next, RegistryInv, HoldInv, EvictedAfter;
      var k := |events| - 1;
      RunHolds(events[..k]);
      RunKeeps(events[..k]);
      HoldStep(Run(events[..k]), events[k], Evicted(events[..k]));
    }
  }

  /**
   * Over every run: a started, settled entry that was not reaped, tripped or
   * reported crashed is registered, unless and only unless its slot was removed
   * by the failure of another creation.
   */
  lemma OrphansWereEvicted(events: seq<Event>, id: Id)
    requires var s := Run(events);
      && id < |s.entries| && s.entries[id].phase == Started && s.entries[id].settled
      && id !in s.reaped && id !in s.tripped && id !in s.crashes
    ensures !Registered(Run(events), id) <==> id in Evicted(events)
  {
    RunHolds(events);
    RunKeeps(events);
    var s := Run(events);
    hide Run;
    var sid := s.entries[id].sessionId;
    if sid in s.registry {
      assert SlotSound(s, sid);
    }
    assert HoldRight(s, Evicted(events), id);
  }

  lemma RunNext(events: seq<Event>, e: Event)
    ensures Run(events + [e]) == Next(Run(events), e)
  {
    assert (events + [e])[..|events|] == events;
  }

  lemma RunFour(sid: SessionId)
    ensures var s := Run([Ensure(sid), Reap(sid), Ensure(sid), StartFail(0)]);
      && |s.entries| == 2 && s.registry == map[sid := Creating(1)] && s.reaped == {0}
      && s.entries[0] == Entry(sid, Failed, false, true, false, false)
      && s.entries[1] == Entry(sid, Starting, false, false, false, false)
  {
    var es := [Ensure(sid), Reap(sid), Ensure(sid), StartFail(0)];
    RunNext([], Ensure(sid));
    RunNext([Ensure(sid)], Reap(sid));
    RunNext([Ensure(sid), Reap(sid)], Ensure(sid));
    RunNext([Ensure(sid), Reap(sid), Ensure(sid)], StartFail(0));
    assert [] + [Ensure(sid)] == [Ensure(sid)];
    assert [Ensure(sid)] + [Reap(sid)] == es[..2];
    assert [Ensure(sid), Reap(sid)] + [Ensure(sid)] == es[..3];
    assert [Ensure(sid), Reap(sid), Ensure(sid)] + [StartFail(0)] == es;
    assert Run([]) == INITIAL;
  }

  // ---------------------------------------------------------------------
  // What certainly happens, in any state a run can reach
  // ---------------------------------------------------------------------

  /** A session without a slot that is not quarantined is served: one new creation, registered when it has started. */
  lemma EnsureServes(events: seq<Event>, sid: SessionId)
    requires sid !in Run(events).registry && sid !in Run(events).quarantined
    ensures var before := Run(events);
      var id := |before.entries|;
      var asked, served := Run(events + [Ensure(sid)]), Run(events + [Ensure(sid), StartOk(id), Register(id)]);
      && asked.registry == before.registry[sid := Creating(id)]
      && served.registry == before.registry[sid := Ready(id)]
      && |served.entries| == id + 1 && served.entries[..id] == before.entries
      && served.entries[id] == Entry(sid, Started, true, false, false, false)
  {
    hide Next, Run;
    var id := |Run(events).entries|;
    var a, b := events + [Ensure(sid)], events + [Ensure(sid), StartOk(id)];
    RunNext(events, Ensure(sid));
    RunNext(a, StartOk(id));
    RunNext(b, Register(id));
    assert a + [StartOk(id)] == b && b + [Register(id)] == events + [Ensure(sid), StartOk(id), Register(id)];
    Served(Run(events), sid);
  }

  lemma Served(s: State, sid: SessionId)
    requires sid !in s.registry && sid !in s.quarantined
    ensures var id := |s.entries|;
      var asked := Next(s, Ensure(sid));
      var served := Next(Next(asked, StartOk(id)), Register(id));
      && asked.registry == s.registry[sid := Creating(id)] && served.registry == s.registry[sid := Ready(id)]
      && |served.entries| == id + 1 && served.entries[..id] == s.entries
      && served.entries[id] == Entry(sid, Started, true, false, false, false)
  {
  }

  /** A ready session that is reaped gives up its slot and its session-proxy is stopped, then and there ... */
  lemma ReapStops(events: seq<Event>, sid: SessionId)
    requires sid in Run(events).registry && Run(events).registry[sid].Ready?
    ensures var before, after := Run(events), Run(events + [Reap(sid)]);
      after.registry == before.registry - {sid} && after.stops == before.stops + [before.registry[sid].id]
  {
    ReadySlotHealth(events, sid);
    RunNext(events, Reap(sid));
    hide Run;
  }

  /** ... and one that is reaped while it is being created, as soon as it has started, whatever happens to it till then. */
  lemma LateReapStops(events: seq<Event>, id: Id)
    requires Enabled(Run(events), ReapTeardown(id)) && !Run(events).entries[id].tornDown
    ensures var before, after := Run(events), Run(events + [ReapTeardown(id)]);
      after.stops == before.stops + [id] && after.registry == before.registry
  {
    RunNext(events, ReapTeardown(id));
    hide Run;
  }

  lemma ReapIsRemembered(events: seq<Event>, sid: SessionId)
    requires sid in Run(events).registry && Run(events).registry[sid].Creating?
    ensures var before, after := Run(events), Run(events + [Reap(sid)]);
      var id := before.registry[sid].id;
      && after.registry == before.registry - {sid} && after.stops == before.stops
      && id < |after.entries| && id in after.reaped && after.entries[id].reapPending
      && (Enabled(after, ReapTeardown(id)) <==> after.entries[id].phase == Started)
      && !after.entries[id].tornDown
  {
    RunHealth(events);
    RunNext(events, Reap(sid));
    hide Run;
    assert Healthy(Run(events), Run(events).registry[sid].id, EarlyTrips(events));
  }

  /** The death of a registered entry's host frees the slot and is reported once. */
  lemma DeathIsReported(events: seq<Event>, sid: SessionId)
    requires sid in Run(events).registry && Run(events).registry[sid].Ready?
    ensures var before := Run(events);
      var id := before.registry[sid].id;
      var after := Run(events + [HostDeath(id)]);
      after.registry == before.registry - {sid} && after.crashes == before.crashes + [id] && after.stops == before.stops
  {
    ReadySlotHealth(events, sid);
    RunKeeps(events);
    assert SlotSound(Run(events), sid);
    RunNext(events, HostDeath(Run(events).registry[sid].id));
    hide Run;
  }

  /** A boundary trip of a registered entry is counted, frees the slot and stops nothing, unless the entry is deaf. */
  lemma TripIsCounted(events: seq<Event>, sid: SessionId, now: int)
    requires sid in Run(events).registry && Run(events).registry[sid].Ready?
    ensures var before := Run(events);
      var id := before.registry[sid].id;
      var after := Run(events + [Trip(id, now)]);
      if id in EarlyTrips(events) then after == before
      else
        && after.registry == before.registry - {sid} && after.history == before.history + [Tripped(sid, now)]
        && after.stops == before.stops && after.crashes == before.crashes
        && (sid in after.quarantined <==> Burst(Since(before.history, sid) + [now]))
  {
    hide Next, RegistryInv;
    ReadySlotHealth(events, sid);
    RunKeeps(events);
    SlotsAreSound(Run(events), sid);
    var id := Run(events).registry[sid].id;
    BreakerRefinement(events + [Trip(id, now)], sid);
    SinceNext(Run(events).history, Tripped(sid, now), sid);
    RunNext(events, Trip(id, now));
    hide Run, Burst, Since, EarlyTrips;
    TripEffect(Run(events), id, now);
  }

  lemma SlotsAreSound(s: State, sid: SessionId)
    requires RegistryInv(s) && sid in s.registry
    ensures SlotSound(s, sid)
  {
  }

  lemma TripEffect(s: State, id: Id, now: int)
    requires id < |s.entries| && Registered(s, id)
    ensures var t, e := Next(s, Trip(id, now)), s.entries[id];
      if e.boundaryTripInFlight then t == s
      else
        && t.registry == s.registry - {e.sessionId} && t.history == s.history + [Tripped(e.sessionId, now)]
        && t.stops == s.stops && t.crashes == s.crashes
  {
    hide Pushed, ShouldQuarantine;
  }

  /** Clearing forgets the trips, so that the session can be asked for again. */
  lemma ClearingForgets(events: seq<Event>, sid: SessionId)
    ensures var after := Run(events + [ClearQuarantine(sid)]);
      sid !in after.quarantined && Since(after.history, sid) == [] && after.registry == Run(events).registry
  {
    RunNext(events, ClearQuarantine(sid));
    SinceNext(Run(events).history, Cleared(sid), sid);
    hide Run;
  }

  function DiedAfter(s: State, e: Event, died: set<Id>): set<Id> {
    if e.HostDeath? && Enabled(s, e) && !s.entries[e.id].tornDown then died + {e.id} else died
  }

  /** Entries whose host died before anything else tore them down. */
  function Died(events: seq<Event>): set<Id> {
    if events == [] then {}
    else
      var k := |events| - 1;
      DiedAfter(Run(events[..k]), events[k], Died(events[..k]))
  }

  predicate StopRight(s: State, died: set<Id>, id: Id)
    requires id < |s.entries|
  {
    && (id in s.reaped && !s.entries[id].reapPending ==> s.entries[id].tornDown)
    && (s.entries[id].tornDown ==> id in s.stops || id in s.tripped || id in died)
    && (id in died ==> s.entries[id].tornDown && id !in s.stops)
  }

  predicate StopInv(s: State, died: set<Id>) {
    && (forall id <- died :: id < |s.entries|)
    && (forall id | 0 <= id < |s.entries| :: StopRight(s, died, id))
  }

  lemma StopKept(s: State, e: Event, died: set<Id>, id: Id)
    requires RegistryInv(s) && Enabled(s, e) && id < |s.entries| && StopRight(s, died, id)
    ensures id < |Next(s, e).entries| && StopRight(Next(s, e), DiedAfter(s, e, died), id)
  {
    hide NoRepeats, Bounded, Pushed, ShouldQuarantine;
    assert EntrySound(s, id);
    if e.Reap? && e.sessionId in s.registry {
      assert SlotSound(s, e.sessionId);
    }
    if e.Trip? && Registered(s, e.id) {
      assert SlotSound(s, s.entries[e.id].sessionId);
    }
    hide RegistryInv, SlotSound;
  }

  lemma StopStep(s: State, e: Event, died: set<Id>)
    requires RegistryInv(s) && StopInv(s, died)
    ensures StopInv(Next(s, e), DiedAfter(s, e, died))
  {
    var t, gone := Next(s, e), DiedAfter(s, e, died);
    EntriesGrow(s, e);
    if Enabled(s, e) {
      forall id | 0 <= id < |t.entries| ensures StopRight(t, gone, id) {
        if id < |s.entries| {
          assert StopRight(s, died, id);
          StopKept(s, e, died, id);
        } else {
          NewIsUntouched(s, e, id);
        }
      }
      hide Next;
    }
  }

  lemma NewIsUntouched(s: State, e: Event, id: Id)
    requires RegistryInv(s) && Enabled(s, e) && |s.entries| <= id < |Next(s, e).entries|
    ensures var t := Next(s, e); e.Ensure? && id !in t.reaped && !t.entries[id].tornDown
  {
    hide NoRepeats, Apart, Pushed, ShouldQuarantine;
  }

  lemma {:induction false} RunStops(events: seq<Event>)
    ensures StopInv(Run(events), Died(events))
  {
    if events != [] {
      hide Next, RegistryInv, StopInv, DiedAfter;
      var k := |events| - 1;
      RunStops(events[..k]);
      RunKeeps(events[..k]);
      StopStep(Run(events[..k]), events[k], Died(events[..k]));
    }
  }

  /**
   * Over every run: an entry that was reaped, its callback done if the reap came
   * while it was being created, has been stopped, unless and only unless its
   * host died first.
   */
  lemma ReapedAreStopped(events: seq<Event>, id: Id)
    requires var s := Run(events); id in s.reaped && id < |s.entries| && !s.entries[id].reapPending
    ensures id in Run(events).stops <==> id !in Died(events)
  {
    RunStops(events);
    RunKeeps(events);
    var s := Run(events);
    hide Run;
    assert StopRight(s, Died(events), id);
  }

  // ---------------------------------------------------------------------
  // The supervisor
  // ---------------------------------------------------------------------

  class SessionProxySupervisor {
    var sessionProxies: map<SessionId, Slot>
    var entries: seq<Entry>
    var boundaryTripLog: map<SessionId, seq<int>>
    var quarantinedSessions: set<SessionId>
    var stops: seq<Id>
    var crashes: seq<Id>
    ghost var reaped: set<Id>
    ghost var tripped: set<Id>
    ghost var history: seq<Mark>
    ghost var events: seq<Event>

    constructor ()
      ensures Valid() && events == []
    {
      sessionProxies, entries, boundaryTripLog, quarantinedSessions, stops, crashes := map[], [], map[], {}, [], [];
      reaped, tripped, history, events := {}, {}, [], [];
    }

    ghost function Now(): State
      reads this
    {
      State(sessionProxies, entries, boundaryTripLog, quarantinedSessions, stops, crashes, reaped, tripped, history)
    }

    ghost predicate Valid()
      reads this
    {
      Now() == Run(events)
    }

    ghost method Record(e: Event)
      requires Now() == Next(Run(events), e)
      modifies this`events
      ensures Valid() && events == old(events) + [e]
    {
      events := events + [e];
      assert events[..|events| - 1] == old(events);
    }

    /** `ensureSessionProxy` up to its await; a second caller joins an existing slot. */
    method EnsureSessionProxy(sid: SessionId) returns (r: Result<Slot, string>)
      requires Valid()
      modifies this
      ensures Valid() && events == old(events) + [Ensure(sid)]
      ensures sid in old(quarantinedSessions) <==> r.Failure?
      ensures r.Success? ==> sid in sessionProxies && r.value == sessionProxies[sid]
      ensures sid in old(sessionProxies) && r.Success? ==> r.value == old(sessionProxies)[sid]
    {
      hide Run;
      if sid in quarantinedSessions {
        Record(Ensure(sid));
        return Failure("quarantined");
      }
      if sid !in sessionProxies {
        var id := |entries|;
        entries := entries + [Entry(sid, Starting, false, false, false, false)];
        sessionProxies := sessionProxies[sid := Creating(id)];
      }
      Record(Ensure(sid));
      r := Success(sessionProxies[sid]);
    }

    method SettleStart(id: Id, ok: bool)
      requires Valid() && Enabled(Now(), StartOk(id))
      modifies this
      ensures Valid() && events == old(events) + [if ok then StartOk(id) else StartFail(id)]
    {
      hide Run;
      entries := entries[id := entries[id].(phase := if ok then Started else Failed)];
      Record(if ok then StartOk(id) else StartFail(id));
    }

    /** `ensureSessionProxy` after its await succeeded. */
    method ContinueAfterStart(id: Id)
      requires Valid() && Enabled(Now(), Register(id))
      modifies this
      ensures Valid() && events == old(events) + [Register(id)]
    {
      hide Run;
      var sid := entries[id].sessionId;
      entries := entries[id := entries[id].(settled := true)];
      if sid in sessionProxies && sessionProxies[sid] == Creating(id) {
        sessionProxies := sessionProxies[sid := Ready(id)];
      }
      Record(Register(id));
    }

    /** `ensureSessionProxy` after its await threw: no check whose slot it is. */
    method ContinueAfterFailure(id: Id)
      requires Valid() && Enabled(Now(), Unregister(id))
      modifies this
      ensures Valid() && events == old(events) + [Unregister(id)]
    {
      hide Run;
      var sid := entries[id].sessionId;
      entries := entries[id := entries[id].(settled := true)];
      sessionProxies := sessionProxies - {sid};
      Record(Unregister(id));
    }

    method TeardownEntry(id: Id)
      requires id < |entries|
      modifies this`entries, this`stops
      ensures Now() == Teardown(old(Now()), id)
    {
      if entries[id].tornDown {
        return;
      }
      entries := entries[id := entries[id].(tornDown := true)];
      stops := stops + [id];
    }

    method ReapSessionProxy(sid: SessionId)
      requires Valid()
      modifies this
      ensures Valid() && events == old(events) + [Reap(sid)]
    {
      RunKeeps(events);
      hide Run, Teardown;
      if sid in sessionProxies {
        var slot := sessionProxies[sid];
        assert SlotSound(Now(), sid);
        sessionProxies := sessionProxies - {sid};
        reaped := reaped + {slot.id};
        if slot.Creating? {
          entries := entries[slot.id := entries[slot.id].(reapPending := true)];
        } else {
          TeardownEntry(slot.id);
        }
      }
      Record(Reap(sid));
    }

    method RunReapTeardown(id: Id)
      requires Valid() && Enabled(Now(), ReapTeardown(id))
      modifies this
      ensures Valid() && events == old(events) + [ReapTeardown(id)]
    {
      hide Run, Teardown;
      entries := entries[id := entries[id].(reapPending := false)];
      TeardownEntry(id);
      Record(ReapTeardown(id));
    }

    /** Keep only the most recent entries. */
    method PushTrip(log: seq<int>, now: int) returns (tripLog: seq<int>)
      ensures tripLog == Pushed(log, now)
    {
      tripLog := log + [now];
      ghost var all := tripLog;
      while |tripLog| > CIRCUIT_BREAKER_TRIP_THRESHOLD
        invariant |tripLog| <= |all| && tripLog == all[|all| - |tripLog|..]
        invariant |tripLog| >= CIRCUIT_BREAKER_TRIP_THRESHOLD || tripLog == all
        decreases |tripLog|
      {
        tripLog := tripLog[1..];
      }
    }

    /** The trip-log part of onFatalError: push, trim, decide. */
    method LogTrip(sid: SessionId, now: int)
      modifies this`boundaryTripLog, this`quarantinedSessions
      ensures var log := Pushed(TripLogOf(old(boundaryTripLog), sid), now);
        if ShouldQuarantine(log, now)
        then boundaryTripLog == old(boundaryTripLog) - {sid} && quarantinedSessions == old(quarantinedSessions) + {sid}
        else boundaryTripLog == old(boundaryTripLog)[sid := log] && quarantinedSessions == old(quarantinedSessions)
    {
      hide Pushed;
      var tripLog := PushTrip(TripLogOf(boundaryTripLog, sid), now);
      boundaryTripLog := boundaryTripLog[sid := tripLog];
      if |tripLog| >= CIRCUIT_BREAKER_TRIP_THRESHOLD && now - tripLog[0] <= CIRCUIT_BREAKER_WINDOW_MS {
        quarantinedSessions := quarantinedSessions + {sid};
        boundaryTripLog := boundaryTripLog - {sid};
        assert boundaryTripLog == old(boundaryTripLog) - {sid};
      }
    }

    /** `onFatalError` past its guards: the entry is the registered one. */
    method HandleTrip(id: Id, now: int)
      requires id < |entries| && Registered(Now(), id)
      modifies this`entries, this`sessionProxies, this`boundaryTripLog, this`quarantinedSessions, this`stops,
               this`tripped, this`history
      ensures Now() == CountTrip(old(Now()), id, now)
    {
      hide Pushed, ShouldQuarantine, Teardown;
      ghost var before := entries[id];
      var sid := entries[id].sessionId;
      LogTrip(sid, now);
      entries := entries[id := entries[id].(boundaryTripInFlight := true, tornDown := true)];
      sessionProxies := sessionProxies - {sid};
      tripped, history := tripped + {id}, history + [Tripped(sid, now)];
      TeardownEntry(id);
    }

    /** `onFatalError`. */
    method OnFatalError(id: Id, now: int)
      requires Valid() && Enabled(Now(), Trip(id, now))
      modifies this
      ensures Valid() && events == old(events) + [Trip(id, now)]
    {
      hide Run, CountTrip;
      var sid := entries[id].sessionId;
      if !entries[id].boundaryTripInFlight {
        if sid in sessionProxies && sessionProxies[sid] == Ready(id) {
          HandleTrip(id, now);
        } else {
          entries := entries[id := entries[id].(boundaryTripInFlight := true)];
        }
      }
      Record(Trip(id, now));
    }

    method OnHostDeath(id: Id)
      requires Valid() && Enabled(Now(), HostDeath(id))
      modifies this
      ensures Valid() && events == old(events) + [HostDeath(id)]
    {
      hide Run;
      var sid := entries[id].sessionId;
      if !entries[id].tornDown {
        entries := entries[id := entries[id].(tornDown := true)];
        if sid in sessionProxies && sessionProxies[sid] == Ready(id) {
          sessionProxies := sessionProxies - {sid};
          crashes := crashes + [id];
        }
      }
      Record(HostDeath(id));
    }

    method ClearSessionQuarantine(sid: SessionId)
      requires Valid()
      modifies this
      ensures Valid() && events == old(events) + [ClearQuarantine(sid)]
      ensures sid !in quarantinedSessions
    {
      hide Run;
      quarantinedSessions, boundaryTripLog := quarantinedSessions - {sid}, boundaryTripLog - {sid};
      history := history + [Cleared(sid)];
      Record(ClearQuarantine(sid));
    }
  }
}
