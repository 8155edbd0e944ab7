/**
 * The client's copy of a session and the two pure functions that build it
 * (clients/ts/src/mirror.ts, "Pure core").
 */
module ClientModel {
  import opened Prelude

  type PaneId = string
  type WindowId = string
  type SessionId = string
  type ConnectionId = string

  /** A window's layout tree, compared as a value. */
  datatype Layout = Placeholder | Tree(serialised: string)

  datatype Detach = DetachPane | KillPane

  datatype Origin = Origin(connectionId: ConnectionId, requestId: string)

  datatype Session = Session(sessionId: SessionId, name: string)

  datatype Focus = Focus(paneId: Option<PaneId>, windowId: Option<WindowId>)

  datatype ClientPane = ClientPane(
    windowId: WindowId, cols: int, rows: int, mode: string,
    dead: bool, exitCode: Option<int>,
    paneLabel: Option<string>, bound: bool, detach: Option<Detach>, icon: Option<string>,
    paneTitle: Option<string>, origin: Option<Origin>)

  datatype ClientWindow = ClientWindow(
    name: string, active: bool, layout: Layout,
    synchronizePanes: bool, monitorActivity: bool, monitorSilence: int)

  datatype Model = Model(
    session: Session,
    windows: map<WindowId, ClientWindow>,
    panes: map<PaneId, ClientPane>,
    focus: Focus,
    exitCodes: map<PaneId, int>,
    closeCauses: map<PaneId, Origin>,
    attachedClientCount: Option<int>,
    ownConnectionId: Option<ConnectionId>)

  const EMPTY := Model(Session("", ""), map[], map[], Focus(None, None), map[], map[], None, None)

  // ---------------------------------------------------------------------
  // Wire messages; an optional field is an Option
  // ---------------------------------------------------------------------

  datatype SnapshotWindow = SnapshotWindow(
    windowId: WindowId, name: string, active: bool, layout: Layout,
    synchronizePanes: Option<bool>, monitorActivity: Option<bool>, monitorSilence: Option<int>)

  datatype SnapshotPane = SnapshotPane(
    paneId: PaneId, windowId: WindowId, cols: int, rows: int,
    dead: Option<bool>, exitCode: Option<int>, paneLabel: Option<string>,
    bound: Option<bool>, detach: Option<Detach>, icon: Option<string>, paneTitle: Option<string>)

  datatype Snapshot = Snapshot(
    session: Session, windows: seq<SnapshotWindow>, panes: seq<SnapshotPane>, focus: Focus,
    attachedClientCount: Option<int>, connectionId: Option<ConnectionId>)

  datatype Body =
    | SnapshotBody(snapshot: Snapshot)
    | PaneOpened(paneId: PaneId, windowId: WindowId, cols: int, rows: int,
                 bornDead: Option<bool>, exitCode: Option<int>, paneLabel: Option<string>,
                 bornBound: Option<bool>, detach: Option<Detach>, icon: Option<string>, origin: Option<Origin>)
    | PaneDeadChanged(paneId: PaneId, dead: bool, exitCode: Option<int>)
    | PaneClosed(paneId: PaneId, exitCode: Option<int>, cause: Option<Origin>)
    | PaneResized(paneId: PaneId, cols: int, rows: int)
    | PaneMoved(paneId: PaneId, windowId: WindowId)
    | PaneLabelChanged(paneId: PaneId, paneLabel: Option<string>)
    | PanePolicyChanged(paneId: PaneId, bound: bool, detach: Option<Detach>, icon: Option<string>)
    | PaneTitleChanged(paneId: PaneId, title: string)
    | PaneModeChanged(paneId: PaneId, mode: string)
    | WindowAdded(windowId: WindowId, name: string, active: bool)
    | WindowClosed(windowId: WindowId)
    | WindowRenamed(windowId: WindowId, newName: string)
    | WindowSyncChanged(windowId: WindowId, on: bool)
    | WindowMonitorActivityChanged(windowId: WindowId, on: bool)
    | WindowMonitorSilenceChanged(windowId: WindowId, seconds: int)
    | LayoutUpdated(windowId: WindowId, layout: Layout)
    | FocusChanged(focusPane: Option<PaneId>, focusWindow: Option<WindowId>)
    | SessionRenamed(newName: string)
    | ClientCountChanged(count: int)
    | Capabilities
    | CommandResponse(correlationId: string)
    | ProxyError(code: string)
    | PaneAttachFailed(paneId: PaneId, code: string)
    | HydrationBegin(paneId: PaneId)
    | HydrationEnd(paneId: PaneId)
    | PaneNotify(paneId: PaneId, kind: string)

  /** Every message carries the sender's per-connection sequence number. */
  datatype Message = Message(seqNo: int, body: Body)

  function OrElse<T>(o: Option<T>, default: T): T {
    if o.Some? then o.value else default
  }

  // ---------------------------------------------------------------------
  // applySnapshot
  // ---------------------------------------------------------------------

  function WindowOf(w: SnapshotWindow): ClientWindow {
    ClientWindow(w.name, w.active, w.layout,
                 OrElse(w.synchronizePanes, false), OrElse(w.monitorActivity, true), OrElse(w.monitorSilence, 0))
  }

  function PaneOf(p: SnapshotPane): ClientPane {
    var dead := OrElse(p.dead, false);
    ClientPane(p.windowId, p.cols, p.rows, "normal", dead, if dead then p.exitCode else None,
               p.paneLabel, OrElse(p.bound, false), p.detach, p.icon, p.paneTitle, None)
  }

  /** Entries are set one after the other: a repeated id keeps the last. */
  function WindowsOf(ws: seq<SnapshotWindow>): map<WindowId, ClientWindow> {
    if ws == [] then map[]
    else var w := ws[|ws| - 1]; WindowsOf(ws[..|ws| - 1])[w.windowId := WindowOf(w)]
  }

  function PanesOf(ps: seq<SnapshotPane>): map<PaneId, ClientPane> {
    if ps == [] then map[]
    else var p := ps[|ps| - 1]; PanesOf(ps[..|ps| - 1])[p.paneId := PaneOf(p)]
  }

  function ApplySnapshot(s: Snapshot): Model {
    Model(s.session, WindowsOf(s.windows), PanesOf(s.panes), s.focus,
          map[], map[], s.attachedClientCount, s.connectionId)
  }

  // ---------------------------------------------------------------------
  // applyDelta
  // ---------------------------------------------------------------------

  function SetPane(m: Model, id: PaneId, p: ClientPane): Model {
    m.(panes := m.panes[id := p])
  }

  function SetWindow(m: Model, id: WindowId, w: ClientWindow): Model {
    m.(windows := m.windows[id := w])
  }

  /** Window flags after focus moves: active exactly at `target`. */
  function Activate(windows: map<WindowId, ClientWindow>, target: Option<WindowId>): map<WindowId, ClientWindow> {
    map w | w in windows :: windows[w].(active := target == Some(w))
  }

  function ApplyDelta(m: Model, msg: Body): Model {
    match msg
    case PaneOpened(id, windowId, cols, rows, bornDead, exitCode, paneLabel, bornBound, detach, icon, origin) =>
      var dead := OrElse(bornDead, false);
      SetPane(m, id, ClientPane(windowId, cols, rows, "normal", dead, if dead then exitCode else None,
                                paneLabel, OrElse(bornBound, false), detach, icon, None, origin))
    case PaneDeadChanged(id, dead, exitCode) =>
      if id !in m.panes then m
      else SetPane(m, id, m.panes[id].(dead := dead, exitCode := if dead then exitCode else None))
    case PaneClosed(id, exitCode, cause) =>
      if id !in m.panes then m
      else m.(panes := m.panes - {id},
              exitCodes := if exitCode.Some? then m.exitCodes[id := exitCode.value] else m.exitCodes,
              closeCauses := if cause.Some? then m.closeCauses[id := cause.value] else m.closeCauses)
    case PaneResized(id, cols, rows) =>
      if id !in m.panes then m else SetPane(m, id, m.panes[id].(cols := cols, rows := rows))
    case PaneMoved(id, windowId) =>
      if id !in m.panes then m else SetPane(m, id, m.panes[id].(windowId := windowId))
    case PaneLabelChanged(id, paneLabel) =>
      if id !in m.panes then m else SetPane(m, id, m.panes[id].(paneLabel := paneLabel))
    case PanePolicyChanged(id, bound, detach, icon) =>
      if id !in m.panes then m else SetPane(m, id, m.panes[id].(bound := bound, detach := detach, icon := icon))
    case PaneTitleChanged(id, title) =>
      if id !in m.panes then m else SetPane(m, id, m.panes[id].(paneTitle := Some(title)))
    case PaneModeChanged(id, mode) =>
      if id !in m.panes then m else SetPane(m, id, m.panes[id].(mode := mode))
    case WindowAdded(id, name, active) =>
      var others := if active then Activate(m.windows, None) else m.windows;
      m.(windows := others[id := ClientWindow(name, active, Placeholder, false, true, 0)])
    case WindowClosed(id) =>
      m.(windows := m.windows - {id})
    case WindowRenamed(id, newName) =>
      if id !in m.windows then m else SetWindow(m, id, m.windows[id].(name := newName))
    case WindowSyncChanged(id, on) =>
      if id !in m.windows then m else SetWindow(m, id, m.windows[id].(synchronizePanes := on))
    case WindowMonitorActivityChanged(id, on) =>
      if id !in m.windows then m else SetWindow(m, id, m.windows[id].(monitorActivity := on))
    case WindowMonitorSilenceChanged(id, seconds) =>
      if id !in m.windows then m else SetWindow(m, id, m.windows[id].(monitorSilence := seconds))
    case LayoutUpdated(id, layout) =>
      if id !in m.windows then m else SetWindow(m, id, m.windows[id].(layout := layout))
    case FocusChanged(paneId, windowId) =>
      m.(focus := Focus(paneId, windowId), windows := Activate(m.windows, windowId))
    case SessionRenamed(newName) =>
      m.(session := m.session.(name := newName))
    case ClientCountChanged(count) =>
      m.(attachedClientCount := Some(count))
    case _ => m
  }

  function ApplyAll(m: Model, msgs: seq<Body>): Model {
    if msgs == [] then m else ApplyDelta(ApplyAll(m, msgs[..|msgs| - 1]), msgs[|msgs| - 1])
  }

  lemma {:induction false} ApplyAllConcat(m: Model, a: seq<Body>, b: seq<Body>)
    ensures ApplyAll(m, a + b) == ApplyAll(ApplyAll(m, a), b)
  {
    if b == [] {
      assert a + b == a;
    } else {
      var n := |b| - 1;
      assert (a + b)[..|a + b| - 1] == a + b[..n];
      ApplyAllConcat(m, a, b[..n]);
    }
  }

  // ---------------------------------------------------------------------
  // What the model promises about itself
  // ---------------------------------------------------------------------

  /** Only a dead pane has an exit code. */
  predicate SoundPane(p: ClientPane) {
    p.exitCode.Some? ==> p.dead
  }

  ghost predicate WellFormed(m: Model) {
    forall p <- m.panes :: SoundPane(m.panes[p])
  }

  lemma {:induction false} SnapshotWellFormed(s: Snapshot)
    ensures WellFormed(ApplySnapshot(s))
    decreases |s.panes|
  {
    if s.panes != [] {
      SnapshotWellFormed(s.(panes := s.panes[..|s.panes| - 1]));
    }
  }

  lemma DeltaWellFormed(m: Model, msg: Body)
    requires WellFormed(m)
    ensures WellFormed(ApplyDelta(m, msg))
  {
    hide Activate;
    var after := ApplyDelta(m, msg);
    if msg.PaneOpened? || msg.PaneDeadChanged? || msg.PaneClosed? {
    } else if msg.PaneResized? || msg.PaneMoved? || msg.PaneLabelChanged? {
    } else if msg.PanePolicyChanged? || msg.PaneTitleChanged? || msg.PaneModeChanged? {
    } else {
      assert after.panes == m.panes;
    }
  }
}
