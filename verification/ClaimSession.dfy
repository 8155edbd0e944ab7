/**
 * Claiming and creating sessions (packages/driver/src/claim-session.ts and the
 * commands of packages/driver/src/server-proxy.ts that use it). Every await is
 * a step boundary; tmux's new-session is one atomic step.
 */
module ClaimSession {
  import opened Prelude

  type Name = string
  type BodyId = nat      // one run of doClaimSession, and its promise
  type CommandId = nat   // one client command

  // ---------------------------------------------------------------------
  // The claimer
  // ---------------------------------------------------------------------

  /** Where a claim body waits. Closed: its finally callback ran and its promise settled. */
  datatype Stage =
    | Refreshing
    | Creating
    | RaceRefreshing
    | Marking
    | Scrolling
    | Ensuring
    | Settled(ok: bool)
    | Closed(ok: bool)

  datatype Body = Body(name: Name, owner: CommandId, stage: Stage, created: bool)

  datatype Input =
    | Found(present: bool)   // a refresh finished; is the name in the table?
    | Minted                 // new-session made the session
    | Taken                  // new-session failed: the name exists
    | Went                   // the awaited call succeeded
    | Threw                  // it did not

  /** `doClaimSession`, from one await to the next. */
  function Advance(b: Body, i: Input): Body {
    if b.stage.Settled? || b.stage.Closed? then b
    else if i.Threw? then b.(stage := Settled(false))
    else
      match (b.stage, i)
      case (Refreshing, Found(present)) => b.(stage := if present then Marking else Creating)
      case (Creating, Minted) => b.(stage := Marking, created := true)
      case (Creating, Taken) => b.(stage := RaceRefreshing)
      case (RaceRefreshing, Found(present)) => b.(stage := if present then Marking else Settled(false))
      case (Marking, Went) => b.(stage := Scrolling)
      case (Scrolling, Went) => b.(stage := Ensuring)
      case (Ensuring, Went) => b.(stage := Settled(true))
      case (_, _) => b
  }

  /** What a body can be told while it waits there. */
  predicate Fits(stage: Stage, i: Input) {
    match stage
    case Refreshing => i.Found? || i.Threw?
    case RaceRefreshing => i.Found? || i.Threw?
    case Creating => i.Minted? || i.Taken? || i.Threw?
    case Settled(_) => false
    case Closed(_) => false
    case _ => i.Went? || i.Threw?
  }

  datatype Claimer = Claimer(locks: map<Name, BodyId>, bodies: seq<Body>)

  /** `claim`: join the body in flight, or start one. */
  function Claim(c: Claimer, name: Name, owner: CommandId): Claimer {
    if name in c.locks then c
    else Claimer(c.locks[name := |c.bodies|], c.bodies + [Body(name, owner, Refreshing, false)])
  }

  /** The finally callback. */
  function Finish(c: Claimer, b: BodyId): Claimer
    requires b < |c.bodies| && c.bodies[b].stage.Settled?
  {
    var body := c.bodies[b];
    Claimer(if body.name in c.locks && c.locks[body.name] == b then c.locks - {body.name} else c.locks,
            c.bodies[b := body.(stage := Closed(body.stage.ok))])
  }

  class SessionClaimer {
    var claimLocks: map<Name, BodyId>
    var bodies: seq<Body>

    constructor ()
      ensures Now() == Claimer(map[], [])
    {
      claimLocks, bodies := map[], [];
    }

    ghost function Now(): Claimer
      reads this
    {
      Claimer(claimLocks, bodies)
    }

    method RequestClaim(name: Name, owner: CommandId) returns (body: BodyId, joined: bool)
      modifies this
      ensures Now() == Claim(old(Now()), name, owner)
      ensures joined == (name in old(claimLocks))
      ensures name in claimLocks && body == claimLocks[name]
    {
      if name in claimLocks {
        return claimLocks[name], true;
      }
      body, joined := |bodies|, false;
      bodies := bodies + [Body(name, owner, Refreshing, false)];
      claimLocks := claimLocks[name := body];
    }

    method IsInFlight(name: Name) returns (r: bool)
      ensures r == (name in claimLocks)
    {
      r := name in claimLocks;
    }

    /** `doClaimSession` goes on after an await. */
    method Resume(b: BodyId, i: Input)
      requires b < |bodies|
      modifies this`bodies
      ensures bodies == old(bodies)[b := Advance(old(bodies)[b], i)]
    {
      var stage, created := bodies[b].stage, bodies[b].created;
      if stage.Settled? || stage.Closed? {
        return;
      }
      if i.Threw? {
        stage := Settled(false);
      } else if stage.Refreshing? && i.Found? {
        stage := if i.present then Marking else Creating;
      } else if stage.Creating? && i.Minted? {
        stage, created := Marking, true;
      } else if stage.Creating? && i.Taken? {
        stage := RaceRefreshing;
      } else if stage.RaceRefreshing? && i.Found? {
        stage := if i.present then Marking else Settled(false);
      } else if stage.Marking? && i.Went? {
        stage := Scrolling;
      } else if stage.Scrolling? && i.Went? {
        stage := Ensuring;
      } else if stage.Ensuring? && i.Went? {
        stage := Settled(true);
      }
      bodies := bodies[b := bodies[b].(stage := stage, created := created)];
    }

    method Finally(b: BodyId)
      requires b < |bodies| && bodies[b].stage.Settled?
      modifies this
      ensures Now() == Finish(old(Now()), b)
    {
      var body := bodies[b];
      if body.name in claimLocks && claimLocks[body.name] == b {
        claimLocks := claimLocks - {body.name};
      }
      bodies := bodies[b := body.(stage := Closed(body.stage.ok))];
    }
  }

  // ---------------------------------------------------------------------
  // The commands that use it
  // ---------------------------------------------------------------------

  datatype Kind = ClaimCommand | CreateCommand | CreateUniqueCommand

  datatype Outcome = Ok(created: bool, body: BodyId) | NameTaken | ClaimFailed

  datatype Progress =
    | Checking                                   // awaiting the refresh, or between two candidates
    | Awaiting(body: BodyId, initiator: bool)    // awaiting a claim
    | Done(outcome: Outcome)

  datatype Command = Command(kind: Kind, name: Name, template: bool, progress: Progress)

  datatype State = State(
    claimer: Claimer,
    commands: seq<Command>,
    tmux: set<Name>,          // the sessions tmux has
    mints: seq<BodyId>,       // bodies whose new-session made a session
    applied: seq<BodyId>)     // bodies whose mint got a template applied

  const INITIAL := State(Claimer(map[], []), [], {}, [], [])

  datatype Event =
    | Issue(kind: Kind, name: Name, template: bool)
    | Checked(command: CommandId, candidate: Name, inTable: bool)
    | Step(body: BodyId, input: Input)
    | FinallyRuns(body: BodyId)
    | Resolve(command: CommandId)
    | External(name: Name, present: bool)        // another tmux client

  predicate Enabled(s: State, e: Event) {
    match e
    case Issue(_, _, _) => true
    case External(_, _) => true
    case Checked(c, candidate, _) =>
      && c < |s.commands| && s.commands[c].progress.Checking?
      && (s.commands[c].kind.CreateCommand? ==> candidate == s.commands[c].name)
    case Step(b, i) =>
      && b < |s.claimer.bodies| && Fits(s.claimer.bodies[b].stage, i)
      && (i.Minted? ==> s.claimer.bodies[b].name !in s.tmux)
      && (i.Taken? ==> s.claimer.bodies[b].name in s.tmux)
    case FinallyRuns(b) => b < |s.claimer.bodies| && s.claimer.bodies[b].stage.Settled?
    case Resolve(c) =>
      && c < |s.commands| && s.commands[c].progress.Awaiting?
      && s.commands[c].progress.body < |s.claimer.bodies| && s.claimer.bodies[s.commands[c].progress.body].stage.Closed?
  }

  /** Command `c` calls claim. */
  function CallClaim(s: State, c: CommandId, name: Name): State
    requires c < |s.commands|
  {
    var joined, after := name in s.claimer.locks, Claim(s.claimer, name, c);
    s.(claimer := after,
       commands := s.commands[c := s.commands[c].(progress := Awaiting(after.locks[name], !joined))])
  }

  /** What a command makes of the claim's result: joiners always read created as false. */
  function Concluded(kind: Kind, b: BodyId, ok: bool, created: bool): Progress {
    if !ok then Done(ClaimFailed)
    else if created || kind.ClaimCommand? then Done(Ok(created, b))
    else if kind.CreateCommand? then Done(NameTaken)
    else Checking
  }

  function Next(s: State, e: Event): State {
    if !Enabled(s, e) then s
    else
      match e
      case External(name, present) => s.(tmux := if present then s.tmux + {name} else s.tmux - {name})
      case Issue(kind, name, template) =>
        var t := s.(commands := s.commands + [Command(kind, name, template, Checking)]);
        if kind.ClaimCommand? then CallClaim(t, |s.commands|, name) else t
      case Checked(c, candidate, inTable) =>
        if inTable || candidate in s.claimer.locks then
          if s.commands[c].kind.CreateCommand? then s.(commands := s.commands[c := s.commands[c].(progress := Done(NameTaken))])
          else s
        else CallClaim(s, c, candidate)
      case Step(b, i) =>
        var body := s.claimer.bodies[b];
        var t := s.(claimer := s.claimer.(bodies := s.claimer.bodies[b := Advance(body, i)]));
        if i.Minted? then t.(tmux := s.tmux + {body.name}, mints := s.mints + [b]) else t
      case FinallyRuns(b) => s.(claimer := Finish(s.claimer, b))
      case Resolve(c) =>
        var command := s.commands[c];
        var b := command.progress.body;
        var ok := s.claimer.bodies[b].stage.ok;
        var created := ok && command.progress.initiator && s.claimer.bodies[b].created;
        s.(commands := s.commands[c := command.(progress := Concluded(command.kind, b, ok, created))],
           applied := if created && command.template then s.applied + [b] else s.applied)
  }

  function Run(events: seq<Event>): State {
    if events == [] then INITIAL else Next(Run(events[..|events| - 1]), events[|events| - 1])
  }

  // ---------------------------------------------------------------------
  // Invariants
  // ---------------------------------------------------------------------

  /** A name is locked by exactly the body of that name that is not closed. */
  predicate LocksInv(c: Claimer) {
    && (forall name <- c.locks ::
          c.locks[name] < |c.bodies| && c.bodies[c.locks[name]].name == name && !c.bodies[c.locks[name]].stage.Closed?)
    && (forall b | 0 <= b < |c.bodies| && !c.bodies[b].stage.Closed? ::
          c.bodies[b].name in c.locks && c.locks[c.bodies[b].name] == b)
  }

  /** A body mints at most once, and knows it. */
  ghost predicate MintsInv(s: State) {
    && NoRepeats(s.mints)
    && (forall b: BodyId :: b in s.mints <==> b < |s.claimer.bodies| && s.claimer.bodies[b].created)
    && (forall b | 0 <= b < |s.claimer.bodies| ::
          s.claimer.bodies[b].created ==>
            !s.claimer.bodies[b].stage.Refreshing? && !s.claimer.bodies[b].stage.Creating? && !s.claimer.bodies[b].stage.RaceRefreshing?)
  }

  predicate CommandSound(s: State, c: CommandId)
    requires c < |s.commands|
  {
    var command := s.commands[c];
    match command.progress
    case Checking => !command.kind.ClaimCommand?
    case Awaiting(b, initiator) =>
      && b < |s.claimer.bodies|
      && (initiator <==> s.claimer.bodies[b].owner == c)
      && (!command.kind.ClaimCommand? ==> initiator)
      && (!command.kind.CreateUniqueCommand? ==> s.claimer.bodies[b].name == command.name)
    case Done(Ok(created, b)) =>
      && b < |s.claimer.bodies|
      && (created <==> s.claimer.bodies[b].owner == c && b in s.mints)
      && (!command.kind.ClaimCommand? ==> created)
      && (!command.kind.CreateUniqueCommand? ==> s.claimer.bodies[b].name == command.name)
      && s.claimer.bodies[b].stage == Closed(true)
      && (created ==> (b in s.applied <==> command.template))
    case Done(_) => true
  }

  ghost predicate CommandsInv(s: State) {
    && (forall c | 0 <= c < |s.commands| :: CommandSound(s, c))
    && (forall b | 0 <= b < |s.claimer.bodies| :: s.claimer.bodies[b].owner < |s.commands|)
    && NoRepeats(s.applied)
    && (forall b: BodyId | b in s.applied ::
          && b < |s.claimer.bodies| && s.claimer.bodies[b].owner < |s.commands|
          && s.commands[s.claimer.bodies[b].owner].progress == Done(Ok(true, b)))
  }

  ghost predicate Inv(s: State) {
    LocksInv(s.claimer) && MintsInv(s) && CommandsInv(s)
  }

  lemma ClaimKeepsLocks(c: Claimer, name: Name, owner: CommandId)
    requires LocksInv(c)
    ensures LocksInv(Claim(c, name, owner))
  {
  }

  /** The identity guard of the finally callback always holds. */
  lemma FinallyGuardHolds(c: Claimer, b: BodyId)
    requires LocksInv(c) && b < |c.bodies| && c.bodies[b].stage.Settled?
    ensures c.bodies[b].name in c.locks && c.locks[c.bodies[b].name] == b
    ensures LocksInv(Finish(c, b))
    ensures c.bodies[b].name !in Finish(c, b).locks
  {
    var name, after := c.bodies[b].name, Finish(c, b);
    assert after.locks == c.locks - {name};
    forall k | 0 <= k < |after.bodies| && !after.bodies[k].stage.Closed?
      ensures after.bodies[k].name in after.locks && after.locks[after.bodies[k].name] == k
    {
      assert after.bodies[k] == c.bodies[k];
    }
  }

  lemma CallClaimKeeps(s: State, c: CommandId, name: Name)
    requires LocksInv(s.claimer) && MintsInv(s) && c < |s.commands| && s.commands[c].progress.Checking?
    requires forall k | 0 <= k < |s.commands| && k != c :: CommandSound(s, k)
    requires forall b | 0 <= b < |s.claimer.bodies| :: s.claimer.bodies[b].owner < |s.commands|
    requires NoRepeats(s.applied)
    requires forall b: BodyId | b in s.applied ::
      && b < |s.claimer.bodies| && s.claimer.bodies[b].owner < |s.commands|
      && s.commands[s.claimer.bodies[b].owner].progress == Done(Ok(true, b))
    requires name in s.claimer.locks ==>
      s.commands[c].kind.ClaimCommand? && s.claimer.bodies[s.claimer.locks[name]].owner != c
    requires !s.commands[c].kind.CreateUniqueCommand? ==> name == s.commands[c].name
    ensures Inv(CallClaim(s, c, name))
  {
    hide NoRepeats;
    var t := CallClaim(s, c, name);
    ClaimKeepsLocks(s.claimer, name, c);
    forall k | 0 <= k < |t.commands| ensures CommandSound(t, k) {
      if k != c {
        assert CommandSound(s, k);
      }
    }
    hide LocksInv;
    assert forall b | 0 <= b < |s.claimer.bodies| :: t.claimer.bodies[b] == s.claimer.bodies[b];
  }

  lemma IssueKeeps(s: State, kind: Kind, name: Name, template: bool)
    requires Inv(s)
    ensures Inv(Next(s, Issue(kind, name, template)))
  {
    assert name in s.claimer.locks ==> s.claimer.locks[name] < |s.claimer.bodies|;
    hide NoRepeats, LocksInv, CallClaim;
    var t := s.(commands := s.commands + [Command(kind, name, template, Checking)]);
    forall k | 0 <= k < |s.commands| ensures CommandSound(t, k) {
      assert CommandSound(s, k);
    }
    if kind.ClaimCommand? {
      CallClaimKeeps(t, |s.commands|, name);
    }
  }

  lemma CheckedKeeps(s: State, c: CommandId, candidate: Name, inTable: bool)
    requires Inv(s) && Enabled(s, Checked(c, candidate, inTable))
    ensures Inv(Next(s, Checked(c, candidate, inTable)))
  {
    hide NoRepeats, LocksInv, CallClaim;
    assert CommandSound(s, c);
    if !inTable && candidate !in s.claimer.locks {
      CallClaimKeeps(s, c, candidate);
    } else {
      var t := Next(s, Checked(c, candidate, inTable));
      forall k | 0 <= k < |t.commands| ensures CommandSound(t, k) {
        assert CommandSound(s, k);
      }
    }
  }

  lemma StepKeeps(s: State, b: BodyId, i: Input)
    requires Inv(s) && Enabled(s, Step(b, i))
    ensures Inv(Next(s, Step(b, i)))
  {
    var t := Next(s, Step(b, i));
    var body, after := s.claimer.bodies[b], t.claimer.bodies[b];
    assert after.name == body.name && after.owner == body.owner && (after.stage.Closed? <==> body.stage.Closed?);
    assert after.created <==> body.created || i.Minted?;
    assert after.created ==> !after.stage.Refreshing? && !after.stage.Creating? && !after.stage.RaceRefreshing?;
    assert LocksInv(t.claimer);
    if i.Minted? {
      Appended(s.mints, b);
    }
    hide Advance, NoRepeats, LocksInv;
    forall k | 0 <= k < |t.commands| ensures CommandSound(t, k) {
      assert CommandSound(s, k);
    }
  }

  lemma FinallyKeeps(s: State, b: BodyId)
    requires Inv(s) && Enabled(s, FinallyRuns(b))
    ensures Inv(Next(s, FinallyRuns(b)))
  {
    hide NoRepeats;
    var t := Next(s, FinallyRuns(b));
    FinallyGuardHolds(s.claimer, b);
    hide LocksInv;
    forall k | 0 <= k < |t.commands| ensures CommandSound(t, k) {
      assert CommandSound(s, k);
    }
  }

  lemma ResolveKeeps(s: State, c: CommandId)
    requires Inv(s) && Enabled(s, Resolve(c))
    ensures Inv(Next(s, Resolve(c)))
  {
    var t := Next(s, Resolve(c));
    assert CommandSound(s, c);
    var b := s.commands[c].progress.body;
    if t.applied != s.applied {
      Appended(s.applied, b);
    }
    hide NoRepeats, LocksInv;
    forall k | 0 <= k < |t.commands| ensures CommandSound(t, k) {
      assert CommandSound(s, k);
    }
  }

  lemma NextKeeps(s: State, e: Event)
    requires Inv(s)
    ensures Inv(Next(s, e))
  {
    if Enabled(s, e) {
      match e
      case Issue(kind, name, template) => IssueKeeps(s, kind, name, template);
      case Checked(c, candidate, inTable) => CheckedKeeps(s, c, candidate, inTable);
      case Step(b, i) => StepKeeps(s, b, i);
      case FinallyRuns(b) => FinallyKeeps(s, b);
      case Resolve(c) => ResolveKeeps(s, c);
      case External(name, present) =>
        var t := Next(s, e);
        hide NoRepeats, LocksInv;
        forall k | 0 <= k < |t.commands| ensures CommandSound(t, k) {
          assert CommandSound(s, k);
        }
    }
  }

  lemma {:induction false} RunKeeps(events: seq<Event>)
    ensures Inv(Run(events))
  {
    hide Next, Inv;
    if events == [] {
      StartKeeps();
    } else {
      RunKeeps(events[..|events| - 1]);
      NextKeeps(Run(events[..|events| - 1]), events[|events| - 1]);
    }
  }

  lemma StartKeeps()
    ensures Inv(INITIAL)
  {
  }

  // ---------------------------------------------------------------------
  // The way a body went
  // ---------------------------------------------------------------------

  /** What body `b` was told, in order. */
  function Inputs(events: seq<Event>, b: BodyId): seq<Input> {
    if events == [] then []
    else
      var front, e := events[..|events| - 1], events[|events| - 1];
      Inputs(front, b) + if e.Step? && e.body == b && Enabled(Run(front), e) then [e.input] else []
  }

  /** The three ways to have a session: it was there, it was made, or another client made it meanwhile. */
  predicate Arrived(w: seq<Input>) {
    w == [Found(true)] || w == [Found(false), Minted] || w == [Found(false), Taken, Found(true)]
  }

  predicate ThenWent(w: seq<Input>, times: nat) {
    |w| >= times && Arrived(w[..|w| - times]) && forall i | |w| - times <= i < |w| :: w[i] == Went
  }

  /** It has the session, and marking, scroll setting and session-proxy succeeded. */
  predicate GoodWay(w: seq<Input>) {
    ThenWent(w, 3)
  }

  predicate Underway(w: seq<Input>) {
    w == [] || w == [Found(false)] || w == [Found(false), Taken] || ThenWent(w, 0) || ThenWent(w, 1) || ThenWent(w, 2)
  }

  /** It lost the race for a session that is gone again, or something threw on the way. */
  predicate BadWay(w: seq<Input>) {
    w == [Found(false), Taken, Found(false)] || (w != [] && w[|w| - 1].Threw? && Underway(w[..|w| - 1]))
  }

  predicate MintedOn(w: seq<Input>) {
    |w| >= 2 && w[0] == Found(false) && w[1].Minted?
  }

  predicate OnItsWay(b: Body, w: seq<Input>) {
    && (b.created <==> MintedOn(w))
    && match b.stage
       case Refreshing => w == []
       case Creating => w == [Found(false)]
       case RaceRefreshing => w == [Found(false), Taken]
       case Marking => ThenWent(w, 0)
       case Scrolling => ThenWent(w, 1)
       case Ensuring => ThenWent(w, 2)
       case Settled(ok) => if ok then GoodWay(w) else BadWay(w)
       case Closed(ok) => if ok then GoodWay(w) else BadWay(w)
  }

  lemma AdvanceOnWay(b: Body, w: seq<Input>, i: Input)
    requires OnItsWay(b, w) && Fits(b.stage, i)
    ensures OnItsWay(Advance(b, i), w + [i])
  {
    var v := w + [i];
    assert v[..|v| - 1] == w;
    assert |w| >= 1 ==> v[..|v| - 2] == w[..|w| - 1];
    assert |w| >= 2 ==> v[..|v| - 3] == w[..|w| - 2];
    assert v[..|v| - 0] == v;
    assert w[..|w| - 0] == w;
  }

  lemma QuietOnWay(b: Body, after: Body, w: seq<Input>)
    requires after == b.(stage := after.stage) && OnItsWay(b, w)
    requires after.stage == b.stage || (b.stage.Settled? && after.stage == Closed(b.stage.ok))
    ensures OnItsWay(after, w)
  {
  }

  /** The ways tell themselves apart. */
  lemma WaysDiffer(b: Body, w: seq<Input>)
    requires OnItsWay(b, w)
    ensures (b.stage == Settled(true) || b.stage == Closed(true)) <==> GoodWay(w)
    ensures (b.stage == Settled(false) || b.stage == Closed(false)) <==> BadWay(w)
  {
    hide ThenWent, Arrived;
    if GoodWay(w) || ThenWent(w, 0) || ThenWent(w, 1) || ThenWent(w, 2) {
      WentOnce(w);
    }
  }

  lemma WentOnce(w: seq<Input>)
    requires ThenWent(w, 0) || ThenWent(w, 1) || ThenWent(w, 2) || ThenWent(w, 3)
    ensures w != [] && !w[|w| - 1].Threw? && w != [Found(false)] && w != [Found(false), Taken]
    ensures w != [Found(false), Taken, Found(false)]
    ensures ThenWent(w, 3) ==> !ThenWent(w, 0) && !ThenWent(w, 1) && !ThenWent(w, 2)
  {
    if ThenWent(w, 3) {
      assert w[|w| - 3] == Went && w[|w| - 2] == Went && w[|w| - 1] == Went;
      var v := w[..|w| - 3];
      assert v == [Found(true)] || v == [Found(false), Minted] || v == [Found(false), Taken, Found(true)];
      assert w[..|w| - 2][|w| - 3] == Went && w[..|w| - 1][|w| - 2] == Went;
      LastArrives(w[..|w| - 2]);
      LastArrives(w[..|w| - 1]);
    }
  }

  lemma LastArrives(w: seq<Input>)
    ensures Arrived(w) ==> w[|w| - 1] != Went
  {
  }

  lemma InputsNext(events: seq<Event>, b: BodyId)
    requires events != []
    ensures var front, e := events[..|events| - 1], events[|events| - 1];
      && Inputs(events, b) == Inputs(front, b) + (if e.Step? && e.body == b && Enabled(Run(front), e) then [e.input] else [])
      && Run(events) == Next(Run(front), e)
  {
  }

  lemma BodyNext(s: State, e: Event, b: BodyId)
    requires b < |Next(s, e).claimer.bodies|
    ensures var t := Next(s, e);
      if b >= |s.claimer.bodies| then t.claimer.bodies[b].stage.Refreshing? && !t.claimer.bodies[b].created
      else if e.Step? && e.body == b && Enabled(s, e) then
        t.claimer.bodies[b] == Advance(s.claimer.bodies[b], e.input) && Fits(s.claimer.bodies[b].stage, e.input)
      else
        t.claimer.bodies[b] == s.claimer.bodies[b].(stage := t.claimer.bodies[b].stage)
        && (t.claimer.bodies[b].stage == s.claimer.bodies[b].stage
            || (s.claimer.bodies[b].stage.Settled? && t.claimer.bodies[b].stage == Closed(s.claimer.bodies[b].stage.ok)))
  {
    hide Advance;
  }

  lemma {:induction false} NotToldBefore(events: seq<Event>, b: BodyId)
    requires b >= |Run(events).claimer.bodies|
    ensures Inputs(events, b) == []
  {
    if events != [] {
      var k := |events| - 1;
      BodiesGrow(Run(events[..k]), events[k]);
      NotToldBefore(events[..k], b);
    }
  }

  lemma BodiesGrow(s: State, e: Event)
    ensures |s.claimer.bodies| <= |Next(s, e).claimer.bodies|
  {
    hide Advance;
  }

  lemma {:induction false} RunOnWay(events: seq<Event>, b: BodyId)
    requires b < |Run(events).claimer.bodies|
    ensures OnItsWay(Run(events).claimer.bodies[b], Inputs(events, b))
  {
    hide Next, Advance, Enabled, OnItsWay, Fits;
    if events != [] {
      var k := |events| - 1;
      var s, e, w := Run(events[..k]), events[k], Inputs(events[..k], b);
      InputsNext(events, b);
      BodyNext(s, e, b);
      hide Run, Inputs;
      if b < |s.claimer.bodies| {
        RunOnWay(events[..k], b);
        if e.Step? && e.body == b && Enabled(s, e) {
          AdvanceOnWay(s.claimer.bodies[b], w, e.input);
        } else {
          assert w + [] == w;
          QuietOnWay(s.claimer.bodies[b], Next(s, e).claimer.bodies[b], w);
        }
      } else {
        NotToldBefore(events[..k], b);
        StartsOnWay(s, e, b);
      }
    }
  }

  lemma StartsOnWay(s: State, e: Event, b: BodyId)
    requires |s.claimer.bodies| <= b < |Next(s, e).claimer.bodies|
    ensures OnItsWay(Next(s, e).claimer.bodies[b], []) && !(e.Step? && e.body == b && Enabled(s, e))
  {
    hide Advance;
  }

  /**
   * Over every run: a claim body succeeds if and only if it came to a session in
   * one of the three ways and then went through marking, scroll setting and
   * session-proxy; it fails if and only if it went one of the bad ways; and it
   * has minted if and only if it found no session and new-session made one.
   */
  lemma BodyOutcome(events: seq<Event>, b: BodyId)
    requires b < |Run(events).claimer.bodies|
    ensures var s, w := Run(events), Inputs(events, b);
      var stage := s.claimer.bodies[b].stage;
      && ((stage == Settled(true) || stage == Closed(true)) <==> GoodWay(w))
      && ((stage == Settled(false) || stage == Closed(false)) <==> BadWay(w))
      && (b in s.mints <==> MintedOn(w))
  {
    RunOnWay(events, b);
    RunKeeps(events);
    hide Run, Inputs;
    WaysDiffer(Run(events).claimer.bodies[b], Inputs(events, b));
    assert b in Run(events).mints <==> MintedOn(Inputs(events, b));
    hide *;
  }

  lemma RunNext(events: seq<Event>, e: Event)
    ensures Run(events + [e]) == Next(Run(events), e)
  {
    assert (events + [e])[..|events|] == events;
  }

  /**
   * What a command whose claim is over gets, told by the way of the body alone:
   * a failure if that went wrong, created:true if it minted and is the command's
   * own, and otherwise the session itself, a name taken, or another candidate.
   * Only a mint gets its template.
   */
  lemma CommandAnswer(events: seq<Event>, c: CommandId)
    requires Enabled(Run(events), Resolve(c))
    ensures var s, t := Run(events), Run(events + [Resolve(c)]);
      var command := s.commands[c];
      var b := command.progress.body;
      var w, own := Inputs(events, b), s.claimer.bodies[b].owner == c;
      && (GoodWay(w) || BadWay(w)) && (!command.kind.ClaimCommand? ==> own)
      && t.commands == s.commands[c := command.(progress :=
           if BadWay(w) then Done(ClaimFailed)
           else if MintedOn(w) && own then Done(Ok(true, b))
           else match command.kind
                case ClaimCommand => Done(Ok(false, b))
                case CreateCommand => Done(NameTaken)
                case CreateUniqueCommand => Checking)]
      && t.applied == s.applied + if GoodWay(w) && MintedOn(w) && own && command.template then [b] else []
  {
    RunNext(events, Resolve(c));
    var s := Run(events);
    var b := s.commands[c].progress.body;
    RunKeeps(events);
    assert CommandSound(s, c);
    BodyOutcome(events, b);
    assert s.claimer.bodies[b].created <==> b in s.mints;
    NotBoth(events, b);
    hide Run, Inputs, GoodWay, BadWay, MintedOn;
  }

  lemma NotBoth(events: seq<Event>, b: BodyId)
    requires b < |Run(events).claimer.bodies|
    ensures !(GoodWay(Inputs(events, b)) && BadWay(Inputs(events, b)))
  {
    BodyOutcome(events, b);
    hide Run, Inputs, GoodWay, BadWay, MintedOn;
  }

  predicate OpenFor(s: State, name: Name) {
    exists b :: 0 <= b < |s.claimer.bodies| && s.claimer.bodies[b].name == name && !s.claimer.bodies[b].stage.Closed?
  }

  /** A claim awaits an open body of its name: the one there was, or a new one of its own. */
  lemma ClaimJoins(events: seq<Event>, name: Name, template: bool)
    ensures var s, t := Run(events), Run(events + [Issue(ClaimCommand, name, template)]);
      var c := |s.commands|;
      && |t.commands| == c + 1 && t.commands[c].kind.ClaimCommand? && t.commands[c].template == template
      && t.commands[c].progress.Awaiting?
      && var b := t.commands[c].progress.body;
      && b < |t.claimer.bodies| && t.claimer.bodies[b].name == name && !t.claimer.bodies[b].stage.Closed?
      && (t.commands[c].progress.initiator <==> !OpenFor(s, name))
      && t.claimer.bodies == s.claimer.bodies + if OpenFor(s, name) then [] else [Body(name, c, Refreshing, false)]
  {
    var e := Issue(ClaimCommand, name, template);
    RunNext(events, e);
    RunKeeps(events);
    OneBodyPerName(events, name);
    var s := Run(events);
    assert OpenFor(s, name) <==> name in s.claimer.locks;
    assert name in s.claimer.locks ==> s.claimer.locks[name] < |s.claimer.bodies|;
    hide Run, MintsInv, CommandsInv, OpenFor;
    assert s.claimer.bodies + [] == s.claimer.bodies;
  }

  /** A create claims nothing before it has looked at a refreshed table. */
  lemma CreateLooksFirst(events: seq<Event>, kind: Kind, name: Name, template: bool)
    requires !kind.ClaimCommand?
    ensures var s, t := Run(events), Run(events + [Issue(kind, name, template)]);
      t == s.(commands := t.commands) && t.commands == s.commands + [Command(kind, name, template, Checking)]
  {
    RunNext(events, Issue(kind, name, template));
    hide Run;
  }

  /** A create whose name, or candidate, is neither in the table nor being claimed claims it for itself; else it does not. */
  lemma CreateClaims(events: seq<Event>, c: CommandId, candidate: Name, inTable: bool)
    requires Enabled(Run(events), Checked(c, candidate, inTable))
    ensures var s, t := Run(events), Run(events + [Checked(c, candidate, inTable)]);
      if inTable || OpenFor(s, candidate) then
        t == if s.commands[c].kind.CreateCommand? then s.(commands := s.commands[c := s.commands[c].(progress := Done(NameTaken))]) else s
      else
        && t.claimer.bodies == s.claimer.bodies + [Body(candidate, c, Refreshing, false)]
        && t.commands == s.commands[c := s.commands[c].(progress := Awaiting(|s.claimer.bodies|, true))]
        && t.tmux == s.tmux && t.mints == s.mints && t.applied == s.applied
  {
    RunNext(events, Checked(c, candidate, inTable));
    OneBodyPerName(events, candidate);
    RunKeeps(events);
    var s := Run(events);
    assert OpenFor(s, candidate) <==> candidate in s.claimer.locks;
    assert CommandSound(s, c);
    hide Run, Inv, OpenFor;
  }

  predicate OnceMinted(s: State, name: Name) {
    && (forall i | 0 <= i < |s.mints| :: s.mints[i] < |s.claimer.bodies|)
    && (forall i | 0 <= i < |s.mints| && s.claimer.bodies[s.mints[i]].name == name :: name in s.tmux)
    && (forall i, j | 0 <= i < |s.mints| && 0 <= j < |s.mints| ::
          s.claimer.bodies[s.mints[i]].name == s.claimer.bodies[s.mints[j]].name == name ==> i == j)
  }

  /** Unless another client removes the session, a name is minted at most once, and the session is there. */
  lemma {:induction false} MintedOncePerName(events: seq<Event>, name: Name)
    requires External(name, false) !in events
    ensures OnceMinted(Run(events), name)
  {
    hide Next, OnceMinted;
    if events == [] {
      NoneMinted(name);
    } else {
      var k := |events| - 1;
      MintedOncePerName(events[..k], name);
      OnceStep(Run(events[..k]), events[k], name);
    }
  }

  lemma NoneMinted(name: Name)
    ensures OnceMinted(INITIAL, name)
  {
  }

  lemma OnceStep(s: State, e: Event, name: Name)
    requires OnceMinted(s, name) && e != External(name, false)
    ensures OnceMinted(Next(s, e), name)
  {
    var t := Next(s, e);
    NamesStay(s, e);
    TmuxNext(s, e);
    hide Next, Enabled;
    assert forall i | 0 <= i < |s.mints| :: t.claimer.bodies[s.mints[i]].name == s.claimer.bodies[s.mints[i]].name;
  }

  lemma TmuxNext(s: State, e: Event)
    ensures var t := Next(s, e);
      if e.Step? && e.input.Minted? && Enabled(s, e) then
        && e.body < |s.claimer.bodies| && s.claimer.bodies[e.body].name !in s.tmux
        && t.tmux == s.tmux + {s.claimer.bodies[e.body].name} && t.mints == s.mints + [e.body]
      else
        t.mints == s.mints && (t.tmux == s.tmux || (e.External? && t.tmux + {e.name} >= s.tmux && (e.present ==> t.tmux >= s.tmux)))
  {
    hide Advance;
  }

  lemma NamesStay(s: State, e: Event)
    ensures |s.claimer.bodies| <= |Next(s, e).claimer.bodies|
    ensures forall b | 0 <= b < |s.claimer.bodies| :: Next(s, e).claimer.bodies[b].name == s.claimer.bodies[b].name
  {
  }

  // ---------------------------------------------------------------------
  // The promises
  // ---------------------------------------------------------------------

  /** At most one claim body per name runs at any time, and isInFlight tells whether one does. */
  lemma OneBodyPerName(events: seq<Event>, name: Name)
    ensures var bodies := Run(events).claimer.bodies;
      && (forall a, b | 0 <= a < |bodies| && 0 <= b < |bodies| ::
            bodies[a].name == bodies[b].name == name && !bodies[a].stage.Closed? && !bodies[b].stage.Closed? ==> a == b)
      && (name in Run(events).claimer.locks <==> exists b :: 0 <= b < |bodies| && bodies[b].name == name && !bodies[b].stage.Closed?)
  {
    RunKeeps(events);
  }

  /**
   * Exactly-once creation: every created:true answers the command that started
   * the body that minted; no two commands are told of the same mint; and a
   * successful session.create or createUnique has minted.
   */
  lemma CreatedAtMostOnce(events: seq<Event>, c: CommandId, d: CommandId)
    requires var s := Run(events);
      && c < |s.commands| && d < |s.commands|
      && s.commands[c].progress.Done? && s.commands[c].progress.outcome.Ok?
      && s.commands[d].progress.Done? && s.commands[d].progress.outcome.Ok?
    ensures var s := Run(events);
      var o, p := s.commands[c].progress.outcome, s.commands[d].progress.outcome;
      && (o.created ==> o.body in s.mints && o.body < |s.claimer.bodies| && s.claimer.bodies[o.body].owner == c)
      && (o.created && p.created && o.body == p.body ==> c == d)
      && (!s.commands[c].kind.ClaimCommand? ==> o.created)
  {
    RunKeeps(events);
    hide Run;
    assert CommandSound(Run(events), c) && CommandSound(Run(events), d);
  }

  /** A template is applied at most once per mint, and only for a mint. */
  lemma TemplateAtMostOnce(events: seq<Event>, b: BodyId)
    ensures var s := Run(events); multiset(s.applied)[b] <= 1 && (b in s.applied ==> b in s.mints)
  {
    RunKeeps(events);
    var s := Run(events);
    CountOnce(s.applied, b);
    if b in s.applied {
      assert CommandSound(s, s.claimer.bodies[b].owner);
    }
  }
}
