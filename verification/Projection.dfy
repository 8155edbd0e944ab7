/**
 * The session-proxy's authoritative model, its snapshot and its deltas
 * (packages/driver/src/state/projection.ts), against the client that applies
 * them (clients/ts/src/mirror.ts).
 */
module Projection {
  import opened Prelude
  import opened ClientModel

  datatype ServerPane = ServerPane(
    windowId: WindowId, cols: int, rows: int, mode: string,
    dead: bool, exitCode: Option<int>, paneLabel: Option<string>,
    boundClients: set<string>, detach: Option<Detach>, icon: Option<string>, paneTitle: Option<string>)

  datatype ServerWindow = ServerWindow(
    name: string, layout: Option<Layout>,
    synchronizePanes: bool, monitorActivity: bool, monitorSilence: int)

  /** One session per proxy. Maps keep their keys in iteration order beside them. */
  datatype ServerModel = ServerModel(
    session: Session, activeWindowId: Option<WindowId>,
    windows: map<WindowId, ServerWindow>, windowOrder: seq<WindowId>,
    panes: map<PaneId, ServerPane>, paneOrder: seq<PaneId>,
    focus: Focus)

  ghost predicate Lists<K(!new)>(order: seq<K>, keys: set<K>) {
    && (forall i, j | 0 <= i < j < |order| :: order[i] != order[j])
    && (forall k :: k in order <==> k in keys)
  }

  ghost predicate Ordered(m: ServerModel) {
    Lists(m.windowOrder, m.windows.Keys) && Lists(m.paneOrder, m.panes.Keys)
  }

  /** Binding intent is per client identity; an anonymous client is bound nowhere. */
  predicate BoundFor(p: ServerPane, client: Option<string>) {
    client.Some? && client.value in p.boundClients
  }

  // ---------------------------------------------------------------------
  // What a client should see
  // ---------------------------------------------------------------------

  /** What a pane looks like, but for its live title, which travels on its own. */
  datatype PaneView = PaneView(
    windowId: WindowId, cols: int, rows: int, dead: bool, exitCode: Option<int>,
    paneLabel: Option<string>, bound: bool, detach: Option<Detach>, icon: Option<string>)

  /** All that a snapshot carries. Mode and causality tags are not in it. */
  datatype View = View(
    session: Session, windows: map<WindowId, ClientWindow>,
    panes: map<PaneId, PaneView>, titles: map<PaneId, Option<string>>, focus: Focus)

  function ViewOfPane(p: ClientPane): PaneView {
    PaneView(p.windowId, p.cols, p.rows, p.dead, p.exitCode, p.paneLabel, p.bound, p.detach, p.icon)
  }

  function PaneViews(ps: map<PaneId, ClientPane>): map<PaneId, PaneView> {
    map p | p in ps :: ViewOfPane(ps[p])
  }

  function PaneTitles(ps: map<PaneId, ClientPane>): map<PaneId, Option<string>> {
    map p | p in ps :: ps[p].paneTitle
  }

  function ViewOf(m: Model): View {
    View(m.session, m.windows, PaneViews(m.panes), PaneTitles(m.panes), m.focus)
  }

  function ServerPaneView(p: ServerPane, client: Option<string>): PaneView {
    PaneView(p.windowId, p.cols, p.rows, p.dead, if p.dead then p.exitCode else None,
             p.paneLabel, BoundFor(p, client), p.detach, p.icon)
  }

  function ServerWindowView(m: ServerModel, id: WindowId): ClientWindow
    requires id in m.windows
  {
    var w := m.windows[id];
    ClientWindow(w.name, m.activeWindowId == Some(id), OrElse(w.layout, Placeholder),
                 w.synchronizePanes, w.monitorActivity, w.monitorSilence)
  }

  function ServerWindowViews(m: ServerModel): map<WindowId, ClientWindow> {
    map w | w in m.windows :: ServerWindowView(m, w)
  }

  function ServerPaneViews(m: ServerModel, client: Option<string>): map<PaneId, PaneView> {
    map p | p in m.panes :: ServerPaneView(m.panes[p], client)
  }

  function ServerTitles(m: ServerModel): map<PaneId, Option<string>> {
    map p | p in m.panes :: m.panes[p].paneTitle
  }

  function ServerView(m: ServerModel, client: Option<string>): View {
    View(m.session, ServerWindowViews(m), ServerPaneViews(m, client), ServerTitles(m), m.focus)
  }

  // ---------------------------------------------------------------------
  // projectSnapshot
  // ---------------------------------------------------------------------

  function ProjectWindow(m: ServerModel, id: WindowId): SnapshotWindow
    requires id in m.windows
  {
    var w := m.windows[id];
    SnapshotWindow(id, w.name, m.activeWindowId == Some(id), OrElse(w.layout, Placeholder),
                   Some(w.synchronizePanes), Some(w.monitorActivity), Some(w.monitorSilence))
  }

  function OnlyIf(b: bool): Option<bool> {
    if b then Some(true) else None
  }

  function ProjectPane(m: ServerModel, id: PaneId, client: Option<string>): SnapshotPane
    requires id in m.panes
  {
    var p := m.panes[id];
    SnapshotPane(id, p.windowId, p.cols, p.rows, OnlyIf(p.dead), if p.dead then p.exitCode else None,
                 p.paneLabel, OnlyIf(BoundFor(p, client)), p.detach, p.icon, p.paneTitle)
  }

  function ProjectWindows(m: ServerModel, order: seq<WindowId>): seq<SnapshotWindow>
    requires forall w <- order :: w in m.windows
  {
    if order == [] then []
    else ProjectWindows(m, order[..|order| - 1]) + [ProjectWindow(m, order[|order| - 1])]
  }

  function ProjectPanes(m: ServerModel, order: seq<PaneId>, client: Option<string>): seq<SnapshotPane>
    requires forall p <- order :: p in m.panes
  {
    if order == [] then []
    else ProjectPanes(m, order[..|order| - 1], client) + [ProjectPane(m, order[|order| - 1], client)]
  }

  function ProjectSnapshot(m: ServerModel, client: Option<string>, count: Option<int>,
          connection: Option<ConnectionId>): Snapshot
    requires Ordered(m)
  {
    Snapshot(m.session, ProjectWindows(m, m.windowOrder), ProjectPanes(m, m.paneOrder, client),
             m.focus, count, connection)
  }

  lemma {:induction false} WindowsArrive(m: ServerModel, order: seq<WindowId>)
    requires forall w <- order :: w in m.windows
    ensures WindowsOf(ProjectWindows(m, order)) == map w | w in m.windows && w in order :: ServerWindowView(m, w)
  {
    if order != [] {
      var last, front := order[|order| - 1], order[..|order| - 1];
      WindowsArrive(m, front);
      var ws := ProjectWindows(m, order);
      assert ws[..|ws| - 1] == ProjectWindows(m, front);
      assert order == front + [last];
      assert WindowOf(ProjectWindow(m, last)) == ServerWindowView(m, last);
    }
  }

  lemma ProjectedPane(m: ServerModel, id: PaneId, client: Option<string>)
    requires id in m.panes
    ensures ViewOfPane(PaneOf(ProjectPane(m, id, client))) == ServerPaneView(m.panes[id], client)
    ensures PaneOf(ProjectPane(m, id, client)).paneTitle == m.panes[id].paneTitle
  {
  }

  lemma {:induction false} PanesArrive(m: ServerModel, order: seq<PaneId>, client: Option<string>)
    requires forall p <- order :: p in m.panes
    ensures var got := PanesOf(ProjectPanes(m, order, client));
      && (forall p :: p in got <==> p in order)
      && (forall p <- got :: ViewOfPane(got[p]) == ServerPaneView(m.panes[p], client))
      && (forall p <- got :: got[p].paneTitle == m.panes[p].paneTitle)
  {
    hide ViewOfPane, ServerPaneView, PaneOf;
    if order != [] {
      var last, front := order[|order| - 1], order[..|order| - 1];
      PanesArrive(m, front, client);
      var ps := ProjectPanes(m, order, client);
      assert ps[..|ps| - 1] == ProjectPanes(m, front, client);
      assert order == front + [last];
      ProjectedPane(m, last, client);
    }
  }

  /** A client that applies the snapshot sees the server's state, whatever that state is. */
  lemma SnapshotAgrees(m: ServerModel, client: Option<string>, count: Option<int>, connection: Option<ConnectionId>)
    requires Ordered(m)
    ensures ViewOf(ApplySnapshot(ProjectSnapshot(m, client, count, connection))) == ServerView(m, client)
    ensures var c := ApplySnapshot(ProjectSnapshot(m, client, count, connection));
      c.attachedClientCount == count && c.ownConnectionId == connection
  {
    hide WindowsOf, PanesOf, ProjectWindows, ProjectPanes, ServerWindowView, ServerPaneView, ViewOfPane;
    var c, v := ApplySnapshot(ProjectSnapshot(m, client, count, connection)), ServerView(m, client);
    WindowsArrive(m, m.windowOrder);
    PanesArrive(m, m.paneOrder, client);
    assert c.windows == v.windows;
    assert ViewOf(c).panes == v.panes;
    assert ViewOf(c).titles == v.titles;
  }
}
