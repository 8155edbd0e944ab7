/**
 * The incremental deltas between two versions of the authoritative model
 * (packages/driver/src/state/projection.ts, diffModel), and exactly when a
 * client that applies them keeps seeing what the server holds.
 */
module Deltas {
  import opened Prelude
  import opened ClientModel
  import opened Projection

  // ---------------------------------------------------------------------
  // diffModel
  // ---------------------------------------------------------------------

  /** The groups that compare a pane present in both versions. */
  datatype PaneGroup = Moved | Resized | ModeChanged | LabelChanged | PolicyChanged | DeadChanged | TitleChanged

  datatype WindowGroup = LayoutChanged | Renamed | SyncChanged | ActivityChanged | SilenceChanged

  function PaneDelta(g: PaneGroup, id: PaneId, p: ServerPane, n: ServerPane, client: Option<string>): Option<Body> {
    match g
    case Moved => if p.windowId != n.windowId then Some(PaneMoved(id, n.windowId)) else None
    case Resized => if p.cols != n.cols || p.rows != n.rows then Some(PaneResized(id, n.cols, n.rows)) else None
    case ModeChanged => if p.mode != n.mode then Some(PaneModeChanged(id, n.mode)) else None
    case LabelChanged => if p.paneLabel != n.paneLabel then Some(PaneLabelChanged(id, n.paneLabel)) else None
    case PolicyChanged =>
      if BoundFor(p, client) != BoundFor(n, client) || p.detach != n.detach || p.icon != n.icon
      then Some(PanePolicyChanged(id, BoundFor(n, client), n.detach, n.icon)) else None
    case DeadChanged =>
      if p.dead != n.dead || (n.dead && p.dead && p.exitCode != n.exitCode)
      then Some(PaneDeadChanged(id, n.dead, if n.dead then n.exitCode else None)) else None
    case TitleChanged => if p.paneTitle != n.paneTitle then Some(PaneTitleChanged(id, OrElse(n.paneTitle, ""))) else None
  }

  /** Only the layout group also speaks about windows that are new. */
  function WindowDelta(g: WindowGroup, id: WindowId, p: Option<ServerWindow>, n: ServerWindow): Option<Body> {
    match g
    case LayoutChanged =>
      var before := if p.Some? then p.value.layout else None;
      if before != n.layout && n.layout.Some? then Some(LayoutUpdated(id, n.layout.value)) else None
    case Renamed => if p.Some? && p.value.name != n.name then Some(WindowRenamed(id, n.name)) else None
    case SyncChanged =>
      if p.Some? && p.value.synchronizePanes != n.synchronizePanes
      then Some(WindowSyncChanged(id, n.synchronizePanes)) else None
    case ActivityChanged =>
      if p.Some? && p.value.monitorActivity != n.monitorActivity
      then Some(WindowMonitorActivityChanged(id, n.monitorActivity)) else None
    case SilenceChanged =>
      if p.Some? && p.value.monitorSilence != n.monitorSilence
      then Some(WindowMonitorSilenceChanged(id, n.monitorSilence)) else None
  }

  function ToSeq(o: Option<Body>): seq<Body> {
    if o.Some? then [o.value] else []
  }

  /** Each loop of diffModel visits the ids in order and pushes at most one message. */
  function PaneDeltas(g: PaneGroup, prev: ServerModel, next: ServerModel, client: Option<string>,
          ids: seq<PaneId>): seq<Body>
    requires forall p <- ids :: p in next.panes
  {
    if ids == [] then []
    else
      var id := ids[|ids| - 1];
      PaneDeltas(g, prev, next, client, ids[..|ids| - 1])
      + if id in prev.panes then ToSeq(PaneDelta(g, id, prev.panes[id], next.panes[id], client)) else []
  }

  function WindowDeltas(g: WindowGroup, prev: ServerModel, next: ServerModel, ids: seq<WindowId>): seq<Body>
    requires forall w <- ids :: w in next.windows
  {
    if ids == [] then []
    else
      var id := ids[|ids| - 1];
      WindowDeltas(g, prev, next, ids[..|ids| - 1])
      + ToSeq(WindowDelta(g, id, Lookup(prev.windows, id), next.windows[id]))
  }

  function WindowsAdded(prev: ServerModel, next: ServerModel, ids: seq<WindowId>): seq<Body>
    requires forall w <- ids :: w in next.windows
  {
    if ids == [] then []
    else
      var id := ids[|ids| - 1];
      WindowsAdded(prev, next, ids[..|ids| - 1])
      + if id in prev.windows then [] else [WindowAdded(id, next.windows[id].name, next.activeWindowId == Some(id))]
  }

  function Opening(id: PaneId, p: ServerPane, client: Option<string>, origin: Option<Origin>): Body {
    PaneOpened(id, p.windowId, p.cols, p.rows, OnlyIf(p.dead), if p.dead then p.exitCode else None,
               p.paneLabel, OnlyIf(BoundFor(p, client)), p.detach, p.icon, origin)
  }

  function PanesOpened(prev: ServerModel, next: ServerModel, client: Option<string>, origins: map<PaneId, Origin>,
          ids: seq<PaneId>): seq<Body>
    requires forall p <- ids :: p in next.panes
  {
    if ids == [] then []
    else
      var id := ids[|ids| - 1];
      PanesOpened(prev, next, client, origins, ids[..|ids| - 1])
      + if id in prev.panes then [] else [Opening(id, next.panes[id], client, Lookup(origins, id))]
  }

  function PanesClosed(prev: ServerModel, next: ServerModel, causes: map<PaneId, Origin>, ids: seq<PaneId>): seq<Body>
    requires forall p <- ids :: p in prev.panes
  {
    if ids == [] then []
    else
      var id := ids[|ids| - 1];
      PanesClosed(prev, next, causes, ids[..|ids| - 1])
      + if id in next.panes then []
        else [PaneClosed(id, if prev.panes[id].dead then prev.panes[id].exitCode else None, Lookup(causes, id))]
  }

  function WindowsClosed(prev: ServerModel, next: ServerModel, ids: seq<WindowId>): seq<Body> {
    if ids == [] then []
    else
      var id := ids[|ids| - 1];
      WindowsClosed(prev, next, ids[..|ids| - 1]) + if id in next.windows then [] else [WindowClosed(id)]
  }

  function SessionDelta(prev: ServerModel, next: ServerModel): seq<Body> {
    if prev.session.name != next.session.name then [SessionRenamed(next.session.name)] else []
  }

  function FocusDelta(prev: ServerModel, next: ServerModel): seq<Body> {
    if prev.focus != next.focus then [FocusChanged(next.focus.paneId, next.focus.windowId)] else []
  }

  /** Attribution of openings and closings to the verbs that caused them. */
  datatype Causality = Causality(origins: map<PaneId, Origin>, causes: map<PaneId, Origin>)

  /** `diffModel`: the groups in the order of the delta ordering rule. */
  function DiffModel(prev: ServerModel, next: ServerModel, client: Option<string>, why: Causality): seq<Body>
    requires Ordered(prev) && Ordered(next)
  {
    WindowsAdded(prev, next, next.windowOrder)
    + PanesOpened(prev, next, client, why.origins, next.paneOrder)
    + WindowDeltas(LayoutChanged, prev, next, next.windowOrder)
    + PaneDeltas(Moved, prev, next, client, next.paneOrder)
    + PaneDeltas(Resized, prev, next, client, next.paneOrder)
    + PaneDeltas(ModeChanged, prev, next, client, next.paneOrder)
    + PaneDeltas(LabelChanged, prev, next, client, next.paneOrder)
    + PaneDeltas(PolicyChanged, prev, next, client, next.paneOrder)
    + PaneDeltas(DeadChanged, prev, next, client, next.paneOrder)
    + PaneDeltas(TitleChanged, prev, next, client, next.paneOrder)
    + WindowDeltas(Renamed, prev, next, next.windowOrder)
    + WindowDeltas(SyncChanged, prev, next, next.windowOrder)
    + WindowDeltas(ActivityChanged, prev, next, next.windowOrder)
    + WindowDeltas(SilenceChanged, prev, next, next.windowOrder)
    + SessionDelta(prev, next)
    + FocusDelta(prev, next)
    + PanesClosed(prev, next, why.causes, prev.paneOrder)
    + WindowsClosed(prev, next, prev.windowOrder)
  }

  // ---------------------------------------------------------------------
  // What each group does to a client
  // ---------------------------------------------------------------------

  function PanePatch(g: PaneGroup, c: ClientPane, n: ServerPane, client: Option<string>): ClientPane {
    match g
    case Moved => c.(windowId := n.windowId)
    case Resized => c.(cols := n.cols, rows := n.rows)
    case ModeChanged => c.(mode := n.mode)
    case LabelChanged => c.(paneLabel := n.paneLabel)
    case PolicyChanged => c.(bound := BoundFor(n, client), detach := n.detach, icon := n.icon)
    case DeadChanged => c.(dead := n.dead, exitCode := if n.dead then n.exitCode else None)
    case TitleChanged => c.(paneTitle := Some(OrElse(n.paneTitle, "")))
  }

  function WindowPatch(g: WindowGroup, c: ClientWindow, n: ServerWindow): ClientWindow {
    match g
    case LayoutChanged => c.(layout := OrElse(n.layout, c.layout))
    case Renamed => c.(name := n.name)
    case SyncChanged => c.(synchronizePanes := n.synchronizePanes)
    case ActivityChanged => c.(monitorActivity := n.monitorActivity)
    case SilenceChanged => c.(monitorSilence := n.monitorSilence)
  }

  function PanePatched(g: PaneGroup, c: ClientPane, p: ServerPane, n: ServerPane, client: Option<string>): ClientPane {
    if PaneDelta(g, "", p, n, client).Some? then PanePatch(g, c, n, client) else c
  }

  function WindowPatched(g: WindowGroup, c: ClientWindow, p: Option<ServerWindow>, n: ServerWindow): ClientWindow {
    if WindowDelta(g, "", p, n).Some? then WindowPatch(g, c, n) else c
  }

  lemma ApplyOne(m: Model, b: Body)
    ensures ApplyAll(m, [b]) == ApplyDelta(m, b)
  {
    assert [b][..0] == [];
  }

  /** Each pane message does to the client what its group is for. */
  lemma PaneMessage(m: Model, g: PaneGroup, id: PaneId, p: ServerPane, n: ServerPane, client: Option<string>)
    requires id in m.panes && PaneDelta(g, id, p, n, client).Some?
    ensures ApplyDelta(m, PaneDelta(g, id, p, n, client).value) == SetPane(m, id, PanePatch(g, m.panes[id], n, client))
  {
    hide BoundFor;
    match g
    case Moved =>
    case Resized =>
    case ModeChanged =>
    case LabelChanged =>
    case PolicyChanged =>
    case DeadChanged =>
    case TitleChanged =>
  }

  lemma ApplyPaneDelta(m: Model, g: PaneGroup, id: PaneId, p: ServerPane, n: ServerPane, client: Option<string>)
    requires id in m.panes
    ensures ApplyAll(m, ToSeq(PaneDelta(g, id, p, n, client)))
         == m.(panes := m.panes[id := PanePatched(g, m.panes[id], p, n, client)])
  {
    hide ApplyAll, ApplyDelta, PanePatch;
    var d := PaneDelta(g, id, p, n, client);
    SameChoice(g, id, p, n, client);
    hide PaneDelta;
    if d.Some? {
      ApplyOne(m, d.value);
      PaneMessage(m, g, id, p, n, client);
    } else {
      ApplyNone(m);
      assert m.panes[id := m.panes[id]] == m.panes;
    }
  }

  lemma SameChoice(g: PaneGroup, id: PaneId, p: ServerPane, n: ServerPane, client: Option<string>)
    ensures PaneDelta(g, id, p, n, client).Some? == PaneDelta(g, "", p, n, client).Some?
  {
    hide BoundFor;
  }

  lemma ApplyNone(m: Model)
    ensures ApplyAll(m, []) == m
  {
  }

  /** Each window message does to the client what its group is for. */
  lemma WindowMessage(m: Model, g: WindowGroup, id: WindowId, p: Option<ServerWindow>, n: ServerWindow)
    requires id in m.windows && WindowDelta(g, id, p, n).Some?
    ensures ApplyDelta(m, WindowDelta(g, id, p, n).value) == SetWindow(m, id, WindowPatch(g, m.windows[id], n))
  {
    match g
    case LayoutChanged =>
    case Renamed =>
    case SyncChanged =>
    case ActivityChanged =>
    case SilenceChanged =>
  }

  lemma ApplyWindowDelta(m: Model, g: WindowGroup, id: WindowId, p: Option<ServerWindow>, n: ServerWindow)
    requires id in m.windows
    ensures ApplyAll(m, ToSeq(WindowDelta(g, id, p, n)))
         == m.(windows := m.windows[id := WindowPatched(g, m.windows[id], p, n)])
  {
    hide ApplyAll, ApplyDelta, WindowPatch;
    var d := WindowDelta(g, id, p, n);
    assert d.Some? == WindowDelta(g, "", p, n).Some?;
    hide WindowDelta;
    if d.Some? {
      ApplyOne(m, d.value);
      WindowMessage(m, g, id, p, n);
    } else {
      ApplyNone(m);
      assert m.windows[id := m.windows[id]] == m.windows;
    }
  }

  /** Panes of a client after a whole group: those listed and old are patched. */
  function PanesAfter(g: PaneGroup, ps: map<PaneId, ClientPane>, prev: ServerModel, next: ServerModel,
          client: Option<string>, ids: seq<PaneId>): map<PaneId, ClientPane>
    requires forall p <- ids :: p in next.panes
  {
    map p | p in ps ::
      if p in ids && p in prev.panes then PanePatched(g, ps[p], prev.panes[p], next.panes[p], client) else ps[p]
  }

  function WindowsAfter(g: WindowGroup, ws: map<WindowId, ClientWindow>, prev: ServerModel, next: ServerModel,
          ids: seq<WindowId>): map<WindowId, ClientWindow>
    requires forall w <- ids :: w in next.windows
  {
    map w | w in ws ::
      if w in ids then WindowPatched(g, ws[w], Lookup(prev.windows, w), next.windows[w]) else ws[w]
  }

  lemma PanesAfterStep(g: PaneGroup, ps: map<PaneId, ClientPane>, prev: ServerModel, next: ServerModel,
          client: Option<string>, front: seq<PaneId>, id: PaneId)
    requires forall p <- front + [id] :: p in next.panes
    requires id !in front && id in ps
    ensures var before, after := PanesAfter(g, ps, prev, next, client, front), PanesAfter(g, ps, prev, next, client, front + [id]);
      && before.Keys == ps.Keys && before[id] == ps[id]
      && after == if id in prev.panes
                  then before[id := PanePatched(g, ps[id], prev.panes[id], next.panes[id], client)]
                  else before
  {
    hide PanePatched;
  }

  lemma WindowsAfterStep(g: WindowGroup, ws: map<WindowId, ClientWindow>, prev: ServerModel, next: ServerModel,
          front: seq<WindowId>, id: WindowId)
    requires forall w <- front + [id] :: w in next.windows
    requires id !in front && id in ws
    ensures var before, after := WindowsAfter(g, ws, prev, next, front), WindowsAfter(g, ws, prev, next, front + [id]);
      && before.Keys == ws.Keys && before[id] == ws[id]
      && after == before[id := WindowPatched(g, ws[id], Lookup(prev.windows, id), next.windows[id])]
  {
    hide WindowPatched;
  }

  lemma {:induction false} PaneGroupEffect(m: Model, g: PaneGroup, prev: ServerModel, next: ServerModel,
          client: Option<string>, ids: seq<PaneId>)
    requires forall p <- ids :: p in next.panes && p in m.panes
    requires forall i, j | 0 <= i < j < |ids| :: ids[i] != ids[j]
    ensures ApplyAll(m, PaneDeltas(g, prev, next, client, ids))
         == m.(panes := PanesAfter(g, m.panes, prev, next, client, ids))
  {
    if ids == [] {
      assert PanesAfter(g, m.panes, prev, next, client, ids) == m.panes;
    } else {
      hide PanesAfter, PanePatched, PaneDelta, ApplyAll;
      var id, front := ids[|ids| - 1], ids[..|ids| - 1];
      assert ids == front + [id];
      PaneGroupEffect(m, g, prev, next, client, front);
      PanesAfterStep(g, m.panes, prev, next, client, front, id);
      var before := m.(panes := PanesAfter(g, m.panes, prev, next, client, front));
      if id in prev.panes {
        var p, n := prev.panes[id], next.panes[id];
        ApplyAllConcat(m, PaneDeltas(g, prev, next, client, front), ToSeq(PaneDelta(g, id, p, n, client)));
        ApplyPaneDelta(before, g, id, p, n, client);
      } else {
        assert PaneDeltas(g, prev, next, client, ids) == PaneDeltas(g, prev, next, client, front);
      }
    }
  }

  lemma {:induction false} WindowGroupEffect(m: Model, g: WindowGroup, prev: ServerModel, next: ServerModel,
          ids: seq<WindowId>)
    requires forall w <- ids :: w in next.windows && w in m.windows
    requires forall i, j | 0 <= i < j < |ids| :: ids[i] != ids[j]
    ensures ApplyAll(m, WindowDeltas(g, prev, next, ids))
         == m.(windows := WindowsAfter(g, m.windows, prev, next, ids))
  {
    if ids == [] {
      assert WindowsAfter(g, m.windows, prev, next, ids) == m.windows;
    } else {
      hide WindowsAfter, WindowPatched, WindowDelta, ApplyAll;
      var id, front := ids[|ids| - 1], ids[..|ids| - 1];
      assert ids == front + [id];
      WindowGroupEffect(m, g, prev, next, front);
      WindowsAfterStep(g, m.windows, prev, next, front, id);
      var before := m.(windows := WindowsAfter(g, m.windows, prev, next, front));
      var p, n := Lookup(prev.windows, id), next.windows[id];
      ApplyAllConcat(m, WindowDeltas(g, prev, next, front), ToSeq(WindowDelta(g, id, p, n)));
      ApplyWindowDelta(before, g, id, p, n);
    }
  }
}
