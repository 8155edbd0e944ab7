/**
 * Snapshot and deltas agree: the round trip the projection promises, for every
 * pair of models, with the exact condition under which the deltas tell a client
 * everything (packages/driver/src/state/projection.ts, clients/ts/src/mirror.ts).
 */
module Agreement {
  import opened Prelude
  import opened ClientModel
  import opened Projection
  import opened Deltas

  /** The client sees what the server holds: all that a snapshot would tell it. */
  ghost predicate Agrees(m: Model, s: ServerModel, client: Option<string>) {
    ViewOf(m) == ServerView(s, client)
  }

  /** The same, the panes' live titles left aside. */
  ghost predicate AgreesButForTitles(m: Model, s: ServerModel, client: Option<string>) {
    ViewOf(m).(titles := map[]) == ServerView(s, client).(titles := map[])
  }

  // ---------------------------------------------------------------------
  // The exact condition
  // ---------------------------------------------------------------------

  /** `window.added` carries no flags: a client assumes these. */
  predicate NewWindowsAreDefault(prev: ServerModel, next: ServerModel) {
    forall w <- next.windows | w !in prev.windows ::
      var n := next.windows[w]; !n.synchronizePanes && n.monitorActivity && n.monitorSilence == 0
  }

  /** There is no delta for a layout that becomes unknown again. */
  predicate NoLayoutForgotten(prev: ServerModel, next: ServerModel) {
    forall w <- next.windows | w in prev.windows ::
      next.windows[w].layout.None? ==> OrElse(prev.windows[w].layout, Placeholder) == Placeholder
  }

  /** Is `w` the window the deltas leave active? Only focus.changed and window.added say so. */
  predicate AnnouncedActive(prev: ServerModel, next: ServerModel, w: WindowId) {
    if prev.focus != next.focus then next.focus.windowId == Some(w)
    else if NewlyActive(prev, next) then next.activeWindowId == Some(w)
    else w in prev.windows && prev.activeWindowId == Some(w)
  }

  predicate NewlyActive(prev: ServerModel, next: ServerModel) {
    && next.activeWindowId.Some?
    && next.activeWindowId.value in next.windows
    && next.activeWindowId.value !in prev.windows
  }

  predicate ActivityAnnounced(prev: ServerModel, next: ServerModel) {
    forall w <- next.windows :: AnnouncedActive(prev, next, w) == (next.activeWindowId == Some(w))
  }

  /** `pane.opened` carries no title, and a title that is cleared arrives as the empty one. */
  predicate TitlesAnnounced(prev: ServerModel, next: ServerModel) {
    && (forall p <- next.panes | p !in prev.panes :: next.panes[p].paneTitle.None?)
    && (forall p <- next.panes | p in prev.panes :: prev.panes[p].paneTitle.Some? ==> next.panes[p].paneTitle.Some?)
  }

  predicate AnnounceableButForTitles(prev: ServerModel, next: ServerModel) {
    && prev.session.sessionId == next.session.sessionId
    && NewWindowsAreDefault(prev, next)
    && NoLayoutForgotten(prev, next)
    && ActivityAnnounced(prev, next)
  }

  predicate Announceable(prev: ServerModel, next: ServerModel) {
    AnnounceableButForTitles(prev, next) && TitlesAnnounced(prev, next)
  }

  // ---------------------------------------------------------------------
  // Effect of the opening and closing groups
  // ---------------------------------------------------------------------

  /** Windows after window.added for `ids`. */
  function Grown(ws: map<WindowId, ClientWindow>, prev: ServerModel, next: ServerModel,
          ids: seq<WindowId>): map<WindowId, ClientWindow>
    requires forall w <- ids :: w in next.windows
  {
    map w | w in ws.Keys + (set v | v in ids && v !in prev.windows) ::
      if w in ids && w !in prev.windows then
        ClientWindow(next.windows[w].name, next.activeWindowId == Some(w), Placeholder, false, true, 0)
      else if next.activeWindowId.Some? && next.activeWindowId.value in ids && next.activeWindowId.value !in prev.windows then
        ws[w].(active := false)
      else ws[w]
  }

  lemma GrownStep(ws: map<WindowId, ClientWindow>, prev: ServerModel, next: ServerModel, front: seq<WindowId>, id: WindowId)
    requires forall w <- front + [id] :: w in next.windows
    requires id !in front && id !in prev.windows
    ensures var before, active := Grown(ws, prev, next, front), next.activeWindowId == Some(id);
      Grown(ws, prev, next, front + [id])
      == (if active then Activate(before, None) else before)
         [id := ClientWindow(next.windows[id].name, active, Placeholder, false, true, 0)]
  {
    var before, active := Grown(ws, prev, next, front), next.activeWindowId == Some(id);
    var l := Grown(ws, prev, next, front + [id]);
    var r := (if active then Activate(before, None) else before)
         [id := ClientWindow(next.windows[id].name, active, Placeholder, false, true, 0)];
    assert l.Keys == r.Keys;
    forall w <- l ensures l[w] == r[w] {
    }
  }

  lemma AddingApplied(m: Model, b: Body)
    requires b.WindowAdded?
    ensures ApplyDelta(m, b) == m.(windows := (if b.active then Activate(m.windows, None) else m.windows)
      [b.windowId := ClientWindow(b.name, b.active, Placeholder, false, true, 0)])
  {
  }

  lemma {:induction false} WindowsAddedEffect(m: Model, prev: ServerModel, next: ServerModel, ids: seq<WindowId>)
    requires forall w <- ids :: w in next.windows
    requires forall i, j | 0 <= i < j < |ids| :: ids[i] != ids[j]
    ensures ApplyAll(m, WindowsAdded(prev, next, ids)) == m.(windows := Grown(m.windows, prev, next, ids))
  {
    if ids == [] {
      assert Grown(m.windows, prev, next, ids) == m.windows;
    } else {
      hide Grown, ApplyAll, ApplyDelta, Activate;
      var id, front := ids[|ids| - 1], ids[..|ids| - 1];
      assert ids == front + [id];
      WindowsAddedEffect(m, prev, next, front);
      if id in prev.windows {
        GrownOld(m.windows, prev, next, front, id);
        assert WindowsAdded(prev, next, ids) == WindowsAdded(prev, next, front);
      } else {
        GrownStep(m.windows, prev, next, front, id);
        var b := WindowAdded(id, next.windows[id].name, next.activeWindowId == Some(id));
        ApplyAllConcat(m, WindowsAdded(prev, next, front), [b]);
        ApplyOne(m.(windows := Grown(m.windows, prev, next, front)), b);
        AddingApplied(m.(windows := Grown(m.windows, prev, next, front)), b);
      }
    }
  }

  lemma GrownOld(ws: map<WindowId, ClientWindow>, prev: ServerModel, next: ServerModel, front: seq<WindowId>, id: WindowId)
    requires forall w <- front + [id] :: w in next.windows
    requires id in prev.windows
    ensures Grown(ws, prev, next, front + [id]) == Grown(ws, prev, next, front)
  {
    var l, r := Grown(ws, prev, next, front + [id]), Grown(ws, prev, next, front);
    assert l.Keys == r.Keys;
  }

  /** Panes after pane.opened for `ids`. */
  function Opened(ps: map<PaneId, ClientPane>, prev: ServerModel, next: ServerModel, client: Option<string>,
          origins: map<PaneId, Origin>, ids: seq<PaneId>): map<PaneId, ClientPane>
    requires forall p <- ids :: p in next.panes
  {
    map p | p in ps.Keys + (set q | q in ids && q !in prev.panes) ::
      if p in ids && p !in prev.panes then Born(next.panes[p], client, Lookup(origins, p)) else ps[p]
  }

  function Born(n: ServerPane, client: Option<string>, origin: Option<Origin>): ClientPane {
    ClientPane(n.windowId, n.cols, n.rows, "normal", n.dead, if n.dead then n.exitCode else None,
               n.paneLabel, BoundFor(n, client), n.detach, n.icon, None, origin)
  }

  lemma OpeningIsBorn(m: Model, id: PaneId, n: ServerPane, client: Option<string>, origin: Option<Origin>)
    ensures ApplyDelta(m, Opening(id, n, client, origin)) == m.(panes := m.panes[id := Born(n, client, origin)])
  {
  }

  lemma OpenedStep(ps: map<PaneId, ClientPane>, prev: ServerModel, next: ServerModel, client: Option<string>,
          origins: map<PaneId, Origin>, front: seq<PaneId>, id: PaneId)
    requires forall p <- front + [id] :: p in next.panes
    ensures var before := Opened(ps, prev, next, client, origins, front);
      Opened(ps, prev, next, client, origins, front + [id])
      == if id in prev.panes then before else before[id := Born(next.panes[id], client, Lookup(origins, id))]
  {
    hide Born;
    var before, l := Opened(ps, prev, next, client, origins, front), Opened(ps, prev, next, client, origins, front + [id]);
    var r := if id in prev.panes then before else before[id := Born(next.panes[id], client, Lookup(origins, id))];
    assert l.Keys == r.Keys;
  }

  lemma {:induction false} PanesOpenedEffect(m: Model, prev: ServerModel, next: ServerModel, client: Option<string>,
          origins: map<PaneId, Origin>, ids: seq<PaneId>)
    requires forall p <- ids :: p in next.panes
    ensures ApplyAll(m, PanesOpened(prev, next, client, origins, ids))
         == m.(panes := Opened(m.panes, prev, next, client, origins, ids))
  {
    if ids == [] {
      assert Opened(m.panes, prev, next, client, origins, ids) == m.panes;
    } else {
      hide Opened, ApplyAll, ApplyDelta, Born, Opening;
      var id, front := ids[|ids| - 1], ids[..|ids| - 1];
      assert ids == front + [id];
      PanesOpenedEffect(m, prev, next, client, origins, front);
      OpenedStep(m.panes, prev, next, client, origins, front, id);
      if id in prev.panes {
        assert PanesOpened(prev, next, client, origins, ids) == PanesOpened(prev, next, client, origins, front);
      } else {
        var before, b := m.(panes := Opened(m.panes, prev, next, client, origins, front)), Opening(id, next.panes[id], client, Lookup(origins, id));
        ApplyAllConcat(m, PanesOpened(prev, next, client, origins, front), [b]);
        ApplyOne(before, b);
        OpeningIsBorn(before, id, next.panes[id], client, Lookup(origins, id));
      }
    }
  }

  /** The listed ids that `keys` no longer has. */
  function Gone<K>(ids: seq<K>, keys: set<K>): set<K> {
    set k | k in ids && k !in keys
  }

  lemma GoneStep<K, V>(entries: map<K, V>, front: seq<K>, id: K, keys: set<K>)
    ensures entries - Gone(front + [id], keys)
         == if id in keys then entries - Gone(front, keys) else entries - Gone(front, keys) - {id}
  {
    assert Gone(front + [id], keys) == if id in keys then Gone(front, keys) else Gone(front, keys) + {id};
  }

  lemma ClosingApplied(m: Model, b: Body)
    requires b.PaneClosed? || b.WindowClosed?
    ensures var after := ApplyDelta(m, b);
      && after.panes == (if b.PaneClosed? then m.panes - {b.paneId} else m.panes)
      && after.windows == (if b.WindowClosed? then m.windows - {b.windowId} else m.windows)
      && after.focus == m.focus && after.session == m.session
  {
  }

  /** Closing groups only take entries away, besides recording codes and causes. */
  lemma {:induction false} PanesClosedEffect(m: Model, prev: ServerModel, next: ServerModel, causes: map<PaneId,
          Origin>, ids: seq<PaneId>)
    requires forall p <- ids :: p in prev.panes
    ensures var after := ApplyAll(m, PanesClosed(prev, next, causes, ids));
      && after.panes == m.panes - Gone(ids, next.panes.Keys)
      && after.windows == m.windows && after.focus == m.focus && after.session == m.session
  {
    if ids != [] {
      hide ApplyAll, ApplyDelta, Gone;
      var id, front := ids[|ids| - 1], ids[..|ids| - 1];
      assert ids == front + [id];
      var msgs := PanesClosed(prev, next, causes, front);
      PanesClosedEffect(m, prev, next, causes, front);
      GoneStep(m.panes, front, id, next.panes.Keys);
      if id in next.panes {
        assert PanesClosed(prev, next, causes, ids) == msgs;
      } else {
        var b := PaneClosed(id, if prev.panes[id].dead then prev.panes[id].exitCode else None, Lookup(causes, id));
        ApplyAllConcat(m, msgs, [b]);
        ApplyOne(ApplyAll(m, msgs), b);
        ClosingApplied(ApplyAll(m, msgs), b);
      }
    }
  }

  lemma {:induction false} WindowsClosedEffect(m: Model, prev: ServerModel, next: ServerModel, ids: seq<WindowId>)
    ensures var after := ApplyAll(m, WindowsClosed(prev, next, ids));
      && after.windows == m.windows - Gone(ids, next.windows.Keys)
      && after.panes == m.panes && after.focus == m.focus && after.session == m.session
  {
    if ids != [] {
      hide ApplyAll, ApplyDelta, Gone;
      var id, front := ids[|ids| - 1], ids[..|ids| - 1];
      assert ids == front + [id];
      var msgs := WindowsClosed(prev, next, front);
      WindowsClosedEffect(m, prev, next, front);
      GoneStep(m.windows, front, id, next.windows.Keys);
      if id in next.windows {
        assert WindowsClosed(prev, next, ids) == msgs;
      } else {
        ApplyAllConcat(m, msgs, [WindowClosed(id)]);
        ApplyOne(ApplyAll(m, msgs), WindowClosed(id));
        ClosingApplied(ApplyAll(m, msgs), WindowClosed(id));
      }
    }
  }

  // ---------------------------------------------------------------------
  // The whole diff
  // ---------------------------------------------------------------------

  function FinalPanes(ps: map<PaneId, ClientPane>, prev: ServerModel, next: ServerModel, client: Option<string>,
          origins: map<PaneId, Origin>): map<PaneId, ClientPane>
    requires Ordered(prev) && Ordered(next)
  {
    var ids := next.paneOrder;
    var p0 := Opened(ps, prev, next, client, origins, ids);
    var p1 := PanesAfter(Moved, p0, prev, next, client, ids);
    var p2 := PanesAfter(Resized, p1, prev, next, client, ids);
    var p3 := PanesAfter(ModeChanged, p2, prev, next, client, ids);
    var p4 := PanesAfter(LabelChanged, p3, prev, next, client, ids);
    var p5 := PanesAfter(PolicyChanged, p4, prev, next, client, ids);
    var p6 := PanesAfter(DeadChanged, p5, prev, next, client, ids);
    PanesAfter(TitleChanged, p6, prev, next, client, ids) - Gone(prev.paneOrder, next.panes.Keys)
  }

  function FinalWindows(ws: map<WindowId, ClientWindow>, prev: ServerModel, next: ServerModel): map<WindowId, ClientWindow>
    requires Ordered(prev) && Ordered(next)
  {
    var ids := next.windowOrder;
    var w0 := Grown(ws, prev, next, ids);
    var w1 := WindowsAfter(LayoutChanged, w0, prev, next, ids);
    var w2 := WindowsAfter(Renamed, w1, prev, next, ids);
    var w3 := WindowsAfter(SyncChanged, w2, prev, next, ids);
    var w4 := WindowsAfter(ActivityChanged, w3, prev, next, ids);
    var w5 := WindowsAfter(SilenceChanged, w4, prev, next, ids);
    (if prev.focus != next.focus then Activate(w5, next.focus.windowId) else w5)
    - Gone(prev.windowOrder, next.windows.Keys)
  }

  lemma GrownKeys(ws: map<WindowId, ClientWindow>, prev: ServerModel, next: ServerModel)
    requires Ordered(prev) && Ordered(next) && ws.Keys == prev.windows.Keys
    ensures forall w <- next.windowOrder :: w in Grown(ws, prev, next, next.windowOrder)
  {
  }

  lemma OpenedKeys(ps: map<PaneId, ClientPane>, prev: ServerModel, next: ServerModel, client: Option<string>,
          origins: map<PaneId, Origin>)
    requires Ordered(prev) && Ordered(next) && ps.Keys == prev.panes.Keys
    ensures forall p <- next.paneOrder :: p in Opened(ps, prev, next, client, origins, next.paneOrder)
  {
  }

  lemma PanesAfterKeys(g: PaneGroup, ps: map<PaneId, ClientPane>, prev: ServerModel, next: ServerModel,
          client: Option<string>)
    requires Ordered(next)
    ensures PanesAfter(g, ps, prev, next, client, next.paneOrder).Keys == ps.Keys
  {
  }

  lemma WindowsAfterKeys(g: WindowGroup, ws: map<WindowId, ClientWindow>, prev: ServerModel, next: ServerModel)
    requires Ordered(next)
    ensures WindowsAfter(g, ws, prev, next, next.windowOrder).Keys == ws.Keys
  {
  }

  /** One more pane group on top of the messages so far. */
  lemma ThenPanes(m: Model, msgs: seq<Body>, sofar: Model, g: PaneGroup, prev: ServerModel, next: ServerModel,
          client: Option<string>) returns (after: Model)
    requires Ordered(prev) && Ordered(next)
    requires ApplyAll(m, msgs) == sofar && forall p <- next.paneOrder :: p in sofar.panes
    ensures after == sofar.(panes := PanesAfter(g, sofar.panes, prev, next, client, next.paneOrder))
    ensures ApplyAll(m, msgs + PaneDeltas(g, prev, next, client, next.paneOrder)) == after
    ensures forall p <- next.paneOrder :: p in after.panes
  {
    hide ApplyAll;
    after := sofar.(panes := PanesAfter(g, sofar.panes, prev, next, client, next.paneOrder));
    ApplyAllConcat(m, msgs, PaneDeltas(g, prev, next, client, next.paneOrder));
    PaneGroupEffect(sofar, g, prev, next, client, next.paneOrder);
    PanesAfterKeys(g, sofar.panes, prev, next, client);
  }

  lemma ThenWindows(m: Model, msgs: seq<Body>, sofar: Model, g: WindowGroup, prev: ServerModel,
          next: ServerModel) returns (after: Model)
    requires Ordered(prev) && Ordered(next)
    requires ApplyAll(m, msgs) == sofar && forall w <- next.windowOrder :: w in sofar.windows
    ensures after == sofar.(windows := WindowsAfter(g, sofar.windows, prev, next, next.windowOrder))
    ensures ApplyAll(m, msgs + WindowDeltas(g, prev, next, next.windowOrder)) == after
    ensures forall w <- next.windowOrder :: w in after.windows
  {
    hide ApplyAll;
    after := sofar.(windows := WindowsAfter(g, sofar.windows, prev, next, next.windowOrder));
    ApplyAllConcat(m, msgs, WindowDeltas(g, prev, next, next.windowOrder));
    WindowGroupEffect(sofar, g, prev, next, next.windowOrder);
    WindowsAfterKeys(g, sofar.windows, prev, next);
  }

  /** The opening groups, which announce every window and pane the rest mention. */
  lemma OpeningEffect(m: Model, prev: ServerModel, next: ServerModel, client: Option<string>,
          why: Causality) returns (after: Model)
    requires Ordered(prev) && Ordered(next)
    requires m.windows.Keys == prev.windows.Keys && m.panes.Keys == prev.panes.Keys
    ensures after == m.(windows := Grown(m.windows, prev, next, next.windowOrder),
                        panes := Opened(m.panes, prev, next, client, why.origins, next.paneOrder))
    ensures ApplyAll(m, WindowsAdded(prev, next, next.windowOrder) + PanesOpened(prev, next, client, why.origins, next.paneOrder)) == after
    ensures forall w <- next.windowOrder :: w in after.windows
    ensures forall p <- next.paneOrder :: p in after.panes
  {
    hide ApplyAll, Grown, Opened;
    var m0 := m.(windows := Grown(m.windows, prev, next, next.windowOrder));
    WindowsAddedEffect(m, prev, next, next.windowOrder);
    PanesOpenedEffect(m0, prev, next, client, why.origins, next.paneOrder);
    ApplyAllConcat(m, WindowsAdded(prev, next, next.windowOrder), PanesOpened(prev, next, client, why.origins, next.paneOrder));
    GrownKeys(m.windows, prev, next);
    OpenedKeys(m.panes, prev, next, client, why.origins);
    after := m0.(panes := Opened(m.panes, prev, next, client, why.origins, next.paneOrder));
  }

  lemma FocusAndSession(m: Model, prev: ServerModel, next: ServerModel)
    ensures ApplyAll(m, SessionDelta(prev, next) + FocusDelta(prev, next)) ==
      m.(session := if prev.session.name != next.session.name then m.session.(name := next.session.name) else m.session,
         focus := if prev.focus != next.focus then next.focus else m.focus,
         windows := if prev.focus != next.focus then Activate(m.windows, next.focus.windowId) else m.windows)
  {
    hide Activate;
    ApplyAllConcat(m, SessionDelta(prev, next), FocusDelta(prev, next));
    var named := m.(session := if prev.session.name != next.session.name then m.session.(name := next.session.name) else m.session);
    ApplyOne(m, SessionRenamed(next.session.name));
    ApplyOne(named, FocusChanged(next.focus.paneId, next.focus.windowId));
  }

  /** What all the deltas together make of a client that holds prev's windows and panes. */
  lemma DiffEffect(m: Model, prev: ServerModel, next: ServerModel, client: Option<string>, why: Causality)
    requires Ordered(prev) && Ordered(next)
    requires m.windows.Keys == prev.windows.Keys && m.panes.Keys == prev.panes.Keys
    ensures var after := ApplyAll(m, DiffModel(prev, next, client, why));
      && after.session == (if prev.session.name != next.session.name then m.session.(name := next.session.name) else m.session)
      && after.focus == (if prev.focus != next.focus then next.focus else m.focus)
      && after.windows == FinalWindows(m.windows, prev, next)
      && after.panes == FinalPanes(m.panes, prev, next, client, why.origins)
  {
    hide ApplyAll, Grown, Opened, PanesAfter, WindowsAfter, Gone, Activate, WindowsAdded, PanesOpened, WindowDeltas, PaneDeltas,
      PanesClosed, WindowsClosed, SessionDelta, FocusDelta;
    var ws, ps := next.windowOrder, next.paneOrder;
    var msgs := WindowsAdded(prev, next, ws) + PanesOpened(prev, next, client, why.origins, ps);
    var a := OpeningEffect(m, prev, next, client, why);
    var a1 := ThenWindows(m, msgs, a, LayoutChanged, prev, next);
    msgs := msgs + WindowDeltas(LayoutChanged, prev, next, ws);
    var a2 := ThenPanes(m, msgs, a1, Moved, prev, next, client);
    msgs := msgs + PaneDeltas(Moved, prev, next, client, ps);
    var a3 := ThenPanes(m, msgs, a2, Resized, prev, next, client);
    msgs := msgs + PaneDeltas(Resized, prev, next, client, ps);
    var a4 := ThenPanes(m, msgs, a3, ModeChanged, prev, next, client);
    msgs := msgs + PaneDeltas(ModeChanged, prev, next, client, ps);
    var a5 := ThenPanes(m, msgs, a4, LabelChanged, prev, next, client);
    msgs := msgs + PaneDeltas(LabelChanged, prev, next, client, ps);
    var a6 := ThenPanes(m, msgs, a5, PolicyChanged, prev, next, client);
    msgs := msgs + PaneDeltas(PolicyChanged, prev, next, client, ps);
    var a7 := ThenPanes(m, msgs, a6, DeadChanged, prev, next, client);
    msgs := msgs + PaneDeltas(DeadChanged, prev, next, client, ps);
    var a8 := ThenPanes(m, msgs, a7, TitleChanged, prev, next, client);
    msgs := msgs + PaneDeltas(TitleChanged, prev, next, client, ps);
    var b1 := ThenWindows(m, msgs, a8, Renamed, prev, next);
    msgs := msgs + WindowDeltas(Renamed, prev, next, ws);
    var b2 := ThenWindows(m, msgs, b1, SyncChanged, prev, next);
    msgs := msgs + WindowDeltas(SyncChanged, prev, next, ws);
    var b3 := ThenWindows(m, msgs, b2, ActivityChanged, prev, next);
    msgs := msgs + WindowDeltas(ActivityChanged, prev, next, ws);
    var b4 := ThenWindows(m, msgs, b3, SilenceChanged, prev, next);
    msgs := msgs + WindowDeltas(SilenceChanged, prev, next, ws);
    var focusing := SessionDelta(prev, next) + FocusDelta(prev, next);
    ApplyAllConcat(m, msgs, focusing);
    FocusAndSession(b4, prev, next);
    var c := ApplyAll(b4, focusing);
    assert msgs + focusing == msgs + SessionDelta(prev, next) + FocusDelta(prev, next);
    msgs := msgs + SessionDelta(prev, next) + FocusDelta(prev, next);
    ApplyAllConcat(m, msgs, PanesClosed(prev, next, why.causes, prev.paneOrder));
    PanesClosedEffect(c, prev, next, why.causes, prev.paneOrder);
    var d := ApplyAll(c, PanesClosed(prev, next, why.causes, prev.paneOrder));
    msgs := msgs + PanesClosed(prev, next, why.causes, prev.paneOrder);
    ApplyAllConcat(m, msgs, WindowsClosed(prev, next, prev.windowOrder));
    WindowsClosedEffect(d, prev, next, prev.windowOrder);
  }

  // ---------------------------------------------------------------------
  // Entry by entry
  // ---------------------------------------------------------------------

  /** A surviving pane ends up as the server shows it. */
  function AllPatches(c: ClientPane, p: ServerPane, n: ServerPane, client: Option<string>): ClientPane {
    var c1 := PanePatched(Moved, c, p, n, client);
    var c2 := PanePatched(Resized, c1, p, n, client);
    var c3 := PanePatched(ModeChanged, c2, p, n, client);
    var c4 := PanePatched(LabelChanged, c3, p, n, client);
    var c5 := PanePatched(PolicyChanged, c4, p, n, client);
    var c6 := PanePatched(DeadChanged, c5, p, n, client);
    PanePatched(TitleChanged, c6, p, n, client)
  }

  lemma SurvivingPane(c: ClientPane, p: ServerPane, n: ServerPane, client: Option<string>)
    requires ViewOfPane(c) == ServerPaneView(p, client)
    ensures ViewOfPane(AllPatches(c, p, n, client)) == ServerPaneView(n, client)
  {
    hide PanePatched, BoundFor;
    PatchedIs(Moved, c, p, n, client);
    var c1 := PanePatch(Moved, c, n, client);
    PatchedIs(Resized, c1, p, n, client);
    var c2 := PanePatch(Resized, c1, n, client);
    UnseenPatch(ModeChanged, c2, p, n, client);
    var c3 := PanePatched(ModeChanged, c2, p, n, client);
    PatchedIs(LabelChanged, c3, p, n, client);
    var c4 := PanePatch(LabelChanged, c3, n, client);
    PatchedIs(PolicyChanged, c4, p, n, client);
    var c5 := PanePatch(PolicyChanged, c4, n, client);
    PatchedIs(DeadChanged, c5, p, n, client);
    UnseenPatch(TitleChanged, PanePatch(DeadChanged, c5, n, client), p, n, client);
  }

  /** The title of a surviving pane: set by a change, the empty one standing for none. */
  lemma SurvivingTitle(c: ClientPane, p: ServerPane, n: ServerPane, client: Option<string>)
    ensures AllPatches(c, p, n, client).paneTitle
         == if p.paneTitle != n.paneTitle then Some(OrElse(n.paneTitle, "")) else c.paneTitle
  {
    var c1 := PanePatched(Moved, c, p, n, client);
    KeepsTitle(Moved, c, p, n, client);
    var c2 := PanePatched(Resized, c1, p, n, client);
    KeepsTitle(Resized, c1, p, n, client);
    var c3 := PanePatched(ModeChanged, c2, p, n, client);
    KeepsTitle(ModeChanged, c2, p, n, client);
    var c4 := PanePatched(LabelChanged, c3, p, n, client);
    KeepsTitle(LabelChanged, c3, p, n, client);
    var c5 := PanePatched(PolicyChanged, c4, p, n, client);
    KeepsTitle(PolicyChanged, c4, p, n, client);
    var c6 := PanePatched(DeadChanged, c5, p, n, client);
    KeepsTitle(DeadChanged, c5, p, n, client);
    hide PanePatched;
    SetsTitle(c6, p, n, client);
  }

  lemma KeepsTitle(g: PaneGroup, c: ClientPane, p: ServerPane, n: ServerPane, client: Option<string>)
    requires !g.TitleChanged?
    ensures PanePatched(g, c, p, n, client).paneTitle == c.paneTitle
  {
    hide PaneDelta, BoundFor;
  }

  lemma SetsTitle(c: ClientPane, p: ServerPane, n: ServerPane, client: Option<string>)
    ensures PanePatched(TitleChanged, c, p, n, client).paneTitle
         == if p.paneTitle != n.paneTitle then Some(OrElse(n.paneTitle, "")) else c.paneTitle
  {
  }

  /** The fields a group compares are the client's own, so no message means no change. */
  predicate Matches(g: PaneGroup, c: ClientPane, p: ServerPane, client: Option<string>) {
    match g
    case Moved => c.windowId == p.windowId
    case Resized => c.cols == p.cols && c.rows == p.rows
    case LabelChanged => c.paneLabel == p.paneLabel
    case PolicyChanged => c.bound == BoundFor(p, client) && c.detach == p.detach && c.icon == p.icon
    case DeadChanged => c.dead == p.dead && c.exitCode == if p.dead then p.exitCode else None
    case ModeChanged => false
    case TitleChanged => false
  }

  lemma PatchedIs(g: PaneGroup, c: ClientPane, p: ServerPane, n: ServerPane, client: Option<string>)
    requires Matches(g, c, p, client)
    ensures PanePatched(g, c, p, n, client) == PanePatch(g, c, n, client)
  {
    hide BoundFor;
    match g
    case Moved =>
    case Resized =>
    case LabelChanged =>
    case PolicyChanged =>
    case DeadChanged =>
  }

  lemma UnseenPatch(g: PaneGroup, c: ClientPane, p: ServerPane, n: ServerPane, client: Option<string>)
    requires g.ModeChanged? || g.TitleChanged?
    ensures ViewOfPane(PanePatched(g, c, p, n, client)) == ViewOfPane(c)
  {
  }

  lemma BornPane(n: ServerPane, client: Option<string>, origin: Option<Origin>)
    ensures ViewOfPane(Born(n, client, origin)) == ServerPaneView(n, client)
  {
    hide BoundFor;
  }

  lemma FinalPane(ps: map<PaneId, ClientPane>, prev: ServerModel, next: ServerModel, client: Option<string>,
          origins: map<PaneId, Origin>, p: PaneId)
    requires Ordered(prev) && Ordered(next) && ps.Keys == prev.panes.Keys
    ensures p in FinalPanes(ps, prev, next, client, origins) <==> p in next.panes
    ensures p in next.panes && p in prev.panes ==>
      FinalPanes(ps, prev, next, client, origins)[p] == AllPatches(ps[p], prev.panes[p], next.panes[p], client)
    ensures p in next.panes && p !in prev.panes ==>
      FinalPanes(ps, prev, next, client, origins)[p] == Born(next.panes[p], client, Lookup(origins, p))
  {
    hide PanePatched, Born;
    assert p in next.panes ==> p in next.paneOrder;
    assert p in prev.panes ==> p in prev.paneOrder;
  }

  function AllWindowPatches(c: ClientWindow, p: Option<ServerWindow>, n: ServerWindow): ClientWindow {
    var c1 := WindowPatched(LayoutChanged, c, p, n);
    var c2 := WindowPatched(Renamed, c1, p, n);
    var c3 := WindowPatched(SyncChanged, c2, p, n);
    var c4 := WindowPatched(ActivityChanged, c3, p, n);
    WindowPatched(SilenceChanged, c4, p, n)
  }

  /** What the deltas make of one window of `next`. */
  function FinalWindowOf(ws: map<WindowId, ClientWindow>, prev: ServerModel, next: ServerModel, w: WindowId): ClientWindow
    requires w in next.windows && (w in prev.windows ==> w in ws)
  {
    var n := next.windows[w];
    var start :=
      if w !in prev.windows then ClientWindow(n.name, next.activeWindowId == Some(w), Placeholder, false, true, 0)
      else if NewlyActive(prev, next) then ws[w].(active := false)
      else ws[w];
    var patched := AllWindowPatches(start, Lookup(prev.windows, w), n);
    if prev.focus != next.focus then patched.(active := next.focus.windowId == Some(w)) else patched
  }

  lemma FinalWindow(ws: map<WindowId, ClientWindow>, prev: ServerModel, next: ServerModel, w: WindowId)
    requires Ordered(prev) && Ordered(next) && ws.Keys == prev.windows.Keys
    ensures w in FinalWindows(ws, prev, next) <==> w in next.windows
    ensures w in next.windows ==> FinalWindows(ws, prev, next)[w] == FinalWindowOf(ws, prev, next, w)
  {
    hide WindowPatched;
    assert w in next.windows ==> w in next.windowOrder;
    assert w in prev.windows ==> w in prev.windowOrder;
    assert NewlyActive(prev, next) <==>
      next.activeWindowId.Some? && next.activeWindowId.value in next.windowOrder && next.activeWindowId.value !in prev.windows;
  }

  /** The conditions, for one window. */
  predicate WindowAnnounced(prev: ServerModel, next: ServerModel, w: WindowId)
    requires w in next.windows
  {
    var n := next.windows[w];
    && AnnouncedActive(prev, next, w) == (next.activeWindowId == Some(w))
    && (w !in prev.windows ==> !n.synchronizePanes && n.monitorActivity && n.monitorSilence == 0)
    && (w in prev.windows && n.layout.None? ==> OrElse(prev.windows[w].layout, Placeholder) == Placeholder)
  }

  lemma WindowAgreesExactly(ws: map<WindowId, ClientWindow>, prev: ServerModel, next: ServerModel, w: WindowId)
    requires w in next.windows
    requires w in prev.windows ==> w in ws && ws[w] == ServerWindowView(prev, w)
    ensures FinalWindowOf(ws, prev, next, w) == ServerWindowView(next, w) <==> WindowAnnounced(prev, next, w)
  {
    if w !in prev.windows {
      NewWindow(next.windows[w], next.activeWindowId == Some(w));
    } else {
      var c := ws[w];
      OldWindow(if NewlyActive(prev, next) then c.(active := false) else c, prev.windows[w], next.windows[w]);
    }
    hide AllWindowPatches;
  }

  lemma NewWindow(n: ServerWindow, active: bool)
    ensures AllWindowPatches(ClientWindow(n.name, active, Placeholder, false, true, 0), None, n)
         == ClientWindow(n.name, active, OrElse(n.layout, Placeholder), false, true, 0)
  {
  }

  lemma OldWindow(c: ClientWindow, p: ServerWindow, n: ServerWindow)
    requires c == ClientWindow(p.name, c.active, OrElse(p.layout, Placeholder), p.synchronizePanes, p.monitorActivity, p.monitorSilence)
    ensures AllWindowPatches(c, Some(p), n)
         == ClientWindow(n.name, c.active, OrElse(n.layout, c.layout), n.synchronizePanes, n.monitorActivity, n.monitorSilence)
  {
    hide WindowPatched;
    WindowPatchedIs(LayoutChanged, c, p, n);
    var c1 := WindowPatch(LayoutChanged, c, n);
    WindowPatchedIs(Renamed, c1, p, n);
    var c2 := WindowPatch(Renamed, c1, n);
    WindowPatchedIs(SyncChanged, c2, p, n);
    var c3 := WindowPatch(SyncChanged, c2, n);
    WindowPatchedIs(ActivityChanged, c3, p, n);
    WindowPatchedIs(SilenceChanged, WindowPatch(ActivityChanged, c3, n), p, n);
  }

  predicate WindowMatches(g: WindowGroup, c: ClientWindow, p: ServerWindow) {
    match g
    case LayoutChanged => c.layout == OrElse(p.layout, Placeholder)
    case Renamed => c.name == p.name
    case SyncChanged => c.synchronizePanes == p.synchronizePanes
    case ActivityChanged => c.monitorActivity == p.monitorActivity
    case SilenceChanged => c.monitorSilence == p.monitorSilence
  }

  lemma WindowPatchedIs(g: WindowGroup, c: ClientWindow, p: ServerWindow, n: ServerWindow)
    requires WindowMatches(g, c, p)
    ensures WindowPatched(g, c, Some(p), n) == WindowPatch(g, c, n)
  {
    match g
    case LayoutChanged =>
    case Renamed =>
    case SyncChanged =>
    case ActivityChanged =>
    case SilenceChanged =>
  }

  lemma AnnounceableByWindow(prev: ServerModel, next: ServerModel)
    ensures AnnounceableButForTitles(prev, next) <==>
      prev.session.sessionId == next.session.sessionId && forall w <- next.windows :: WindowAnnounced(prev, next, w)
  {
    if prev.session.sessionId == next.session.sessionId && forall w <- next.windows :: WindowAnnounced(prev, next, w) {
      forall w <- next.windows ensures AnnouncedActive(prev, next, w) == (next.activeWindowId == Some(w)) {
        assert WindowAnnounced(prev, next, w);
      }
      forall w <- next.windows | w !in prev.windows
        ensures var n := next.windows[w]; !n.synchronizePanes && n.monitorActivity && n.monitorSilence == 0
      {
        assert WindowAnnounced(prev, next, w);
      }
      forall w <- next.windows | w in prev.windows
        ensures next.windows[w].layout.None? ==> OrElse(prev.windows[w].layout, Placeholder) == Placeholder
      {
        assert WindowAnnounced(prev, next, w);
      }
    }
  }

  lemma ButForTitles(m: Model, s: ServerModel, client: Option<string>)
    ensures AgreesButForTitles(m, s, client) <==>
      && m.session == s.session && m.focus == s.focus && m.windows == ServerWindowViews(s)
      && PaneViews(m.panes) == ServerPaneViews(s, client)
    ensures Agrees(m, s, client) <==> AgreesButForTitles(m, s, client) && PaneTitles(m.panes) == ServerTitles(s)
  {
    hide PaneViews, ServerPaneViews, ServerWindowViews, PaneTitles, ServerTitles;
  }

  lemma SameKeys(m: Model, s: ServerModel, client: Option<string>)
    requires m.windows == ServerWindowViews(s) && PaneViews(m.panes) == ServerPaneViews(s, client)
    ensures m.windows.Keys == s.windows.Keys && m.panes.Keys == s.panes.Keys
  {
    hide ServerWindowView, ServerPaneView, ViewOfPane;
    assert PaneViews(m.panes).Keys == m.panes.Keys && ServerPaneViews(s, client).Keys == s.panes.Keys;
  }

  /**
   * The round trip, but for titles. A client that agrees with the server before
   * and applies the diff agrees with it after, if and only if the change is one
   * the deltas can announce. Nothing is assumed of either model beyond its key
   * order.
   */
  lemma DiffAgreesButForTitles(m: Model, prev: ServerModel, next: ServerModel, client: Option<string>, why: Causality)
    requires Ordered(prev) && Ordered(next) && AgreesButForTitles(m, prev, client)
    ensures AgreesButForTitles(ApplyAll(m, DiffModel(prev, next, client, why)), next, client)
       <==> AnnounceableButForTitles(prev, next)
  {
    hide ApplyAll, DiffModel, FinalPanes, FinalWindows, AnnounceableButForTitles, AgreesButForTitles, Agrees, Ordered,
      PaneViews, ServerPaneViews, ServerWindowViews, WindowAnnounced;
    var after := ApplyAll(m, DiffModel(prev, next, client, why));
    ButForTitles(m, prev, client);
    ButForTitles(after, next, client);
    SameKeys(m, prev, client);
    DiffEffect(m, prev, next, client, why);
    PanesAgree(m, prev, next, client, why.origins);
    WindowsAgreeExactly(m.windows, prev, next);
    AnnounceableByWindow(prev, next);
    assert after.focus == next.focus;
    assert after.session == next.session <==> prev.session.sessionId == next.session.sessionId;
  }

  /** The titles after a diff are the server's exactly when every one of them could be announced. */
  lemma TitlesAgreeExactly(ps: map<PaneId, ClientPane>, prev: ServerModel, next: ServerModel, client: Option<string>,
          origins: map<PaneId, Origin>)
    requires Ordered(prev) && Ordered(next) && ps.Keys == prev.panes.Keys && PaneTitles(ps) == ServerTitles(prev)
    ensures PaneTitles(FinalPanes(ps, prev, next, client, origins)) == ServerTitles(next) <==> TitlesAnnounced(prev, next)
  {
    hide FinalPanes, AllPatches, Born, Ordered;
    var after := FinalPanes(ps, prev, next, client, origins);
    var got, want := PaneTitles(after), ServerTitles(next);
    forall p ensures p in got <==> p in want
             ensures p in want ==> (got[p] == want[p] <==> TitleAnnounced(prev, next, p))
    {
      FinalPane(ps, prev, next, client, origins, p);
      if p in next.panes {
        if p in prev.panes {
          assert PaneTitles(ps)[p] == ServerTitles(prev)[p];
          SurvivingTitle(ps[p], prev.panes[p], next.panes[p], client);
        } else {
          BornUntitled(next.panes[p], client, Lookup(origins, p));
        }
      }
    }
    assert got.Keys == want.Keys;
    hide TitleAnnounced;
    TitlesOneByOne(prev, next);
  }

  predicate TitleAnnounced(prev: ServerModel, next: ServerModel, p: PaneId)
    requires p in next.panes
  {
    if p in prev.panes then prev.panes[p].paneTitle.Some? ==> next.panes[p].paneTitle.Some?
    else next.panes[p].paneTitle.None?
  }

  lemma TitlesOneByOne(prev: ServerModel, next: ServerModel)
    ensures TitlesAnnounced(prev, next) <==> forall p <- next.panes :: TitleAnnounced(prev, next, p)
  {
    if forall p <- next.panes :: TitleAnnounced(prev, next, p) {
      forall p <- next.panes | p !in prev.panes ensures next.panes[p].paneTitle.None? {
        assert TitleAnnounced(prev, next, p);
      }
      forall p <- next.panes | p in prev.panes ensures prev.panes[p].paneTitle.Some? ==> next.panes[p].paneTitle.Some? {
        assert TitleAnnounced(prev, next, p);
      }
    }
  }

  lemma BornUntitled(n: ServerPane, client: Option<string>, origin: Option<Origin>)
    ensures Born(n, client, origin).paneTitle == None
  {
  }

  /**
   * The round trip the projection promises. A client that agrees with the
   * server before and applies the diff agrees with it after, if and only if the
   * change is one the deltas can announce.
   */
  lemma DiffAgrees(m: Model, prev: ServerModel, next: ServerModel, client: Option<string>, why: Causality)
    requires Ordered(prev) && Ordered(next) && Agrees(m, prev, client)
    ensures Agrees(ApplyAll(m, DiffModel(prev, next, client, why)), next, client) <==> Announceable(prev, next)
  {
    hide ApplyAll, DiffModel, FinalPanes, FinalWindows, AgreesButForTitles, Agrees, AnnounceableButForTitles, TitlesAnnounced,
      PaneViews, ServerPaneViews, ServerWindowViews, PaneTitles, ServerTitles, Ordered;
    ButForTitles(m, prev, client);
    ButForTitles(ApplyAll(m, DiffModel(prev, next, client, why)), next, client);
    SameKeys(m, prev, client);
    DiffEffect(m, prev, next, client, why);
    DiffAgreesButForTitles(m, prev, next, client, why);
    TitlesAgreeExactly(m.panes, prev, next, client, why.origins);
  }

  lemma PanesAgree(m: Model, prev: ServerModel, next: ServerModel, client: Option<string>, origins: map<PaneId, Origin>)
    requires Ordered(prev) && Ordered(next) && PaneViews(m.panes) == ServerPaneViews(prev, client)
    requires m.panes.Keys == prev.panes.Keys
    ensures PaneViews(FinalPanes(m.panes, prev, next, client, origins)) == ServerPaneViews(next, client)
  {
    hide FinalPanes, ViewOfPane, ServerPaneView, AllPatches, Born;
    var after := FinalPanes(m.panes, prev, next, client, origins);
    forall p ensures p in after <==> p in next.panes
             ensures p in after ==> ViewOfPane(after[p]) == ServerPaneView(next.panes[p], client)
    {
      FinalPane(m.panes, prev, next, client, origins, p);
      if p in next.panes {
        if p in prev.panes {
          assert PaneViews(m.panes)[p] == ServerPaneViews(prev, client)[p];
          SurvivingPane(m.panes[p], prev.panes[p], next.panes[p], client);
        } else {
          BornPane(next.panes[p], client, Lookup(origins, p));
        }
      }
    }
  }

  lemma WindowsAgreeExactly(ws: map<WindowId, ClientWindow>, prev: ServerModel, next: ServerModel)
    requires Ordered(prev) && Ordered(next)
    requires ws == ServerWindowViews(prev)
    ensures FinalWindows(ws, prev, next) == ServerWindowViews(next)
       <==> forall w <- next.windows :: WindowAnnounced(prev, next, w)
  {
    hide FinalWindows, FinalWindowOf, ServerWindowView, WindowAnnounced;
    var after, want := FinalWindows(ws, prev, next), ServerWindowViews(next);
    assert ws.Keys == prev.windows.Keys;
    forall w ensures w in after <==> w in want
             ensures w in want ==> (after[w] == want[w] <==> WindowAnnounced(prev, next, w))
    {
      FinalWindow(ws, prev, next, w);
      if w in next.windows {
        WindowAgreesExactly(ws, prev, next, w);
      }
    }
    assert after.Keys == want.Keys;
  }

  /**
   * The server checks that the focused window is the session's active one.
   * Between two models that keep it, the active flags are always announced.
   */
  predicate FocusFollowsActive(s: ServerModel) {
    s.focus.windowId == s.activeWindowId && (s.activeWindowId.Some? ==> s.activeWindowId.value in s.windows)
  }

  lemma FocusedModelsAnnounceActivity(prev: ServerModel, next: ServerModel)
    requires FocusFollowsActive(prev) && FocusFollowsActive(next)
    ensures ActivityAnnounced(prev, next)
  {
  }

  /** One delta batch per change of the server's model. */
  function Batches(models: seq<ServerModel>, client: Option<string>, why: seq<Causality>): seq<Body>
    requires |models| == |why| + 1
    requires forall k | 0 <= k < |models| :: Ordered(models[k])
  {
    if why == [] then []
    else
      var k := |why| - 1;
      Batches(models[..k + 1], client, why[..k]) + DiffModel(models[k], models[k + 1], client, why[k])
  }

  lemma SnapshotIsAgreement(m: ServerModel, client: Option<string>, count: Option<int>, connection: Option<ConnectionId>)
    requires Ordered(m)
    ensures Agrees(ApplySnapshot(ProjectSnapshot(m, client, count, connection)), m, client)
  {
    SnapshotAgrees(m, client, count, connection);
  }

  /** The server's changes along a run, each one announceable. */
  predicate AnnounceableRun(models: seq<ServerModel>) {
    forall k | 0 <= k < |models| - 1 :: Announceable(models[k], models[k + 1])
  }

  predicate AnnounceableRunButForTitles(models: seq<ServerModel>) {
    forall k | 0 <= k < |models| - 1 :: AnnounceableButForTitles(models[k], models[k + 1])
  }

  /**
   * Over a whole run: a client that starts from the snapshot of the first model
   * and applies every delta after it agrees with the last model.
   */
  lemma {:induction false} RunAgrees(models: seq<ServerModel>, client: Option<string>, why: seq<Causality>,
          count: Option<int>, connection: Option<ConnectionId>)
    requires |models| == |why| + 1
    requires forall k | 0 <= k < |models| :: Ordered(models[k])
    requires AnnounceableRun(models)
    ensures var start := ApplySnapshot(ProjectSnapshot(models[0], client, count, connection));
      Agrees(ApplyAll(start, Batches(models, client, why)), models[|why|], client)
    decreases |why|
  {
    hide DiffModel, Announceable, Agrees, Ordered, ApplySnapshot, ProjectSnapshot;
    var start := ApplySnapshot(ProjectSnapshot(models[0], client, count, connection));
    if why == [] {
      SnapshotIsAgreement(models[0], client, count, connection);
    } else {
      var k := |why| - 1;
      RunAgrees(models[..k + 1], client, why[..k], count, connection);
      ApplyAllConcat(start, Batches(models[..k + 1], client, why[..k]), DiffModel(models[k], models[k + 1], client, why[k]));
      DiffAgrees(ApplyAll(start, Batches(models[..k + 1], client, why[..k])), models[k], models[k + 1], client, why[k]);
    }
  }

  /** And whatever becomes of titles, on everything else it agrees. */
  lemma {:induction false} RunAgreesButForTitles(models: seq<ServerModel>, client: Option<string>, why: seq<Causality>,
          count: Option<int>, connection: Option<ConnectionId>)
    requires |models| == |why| + 1
    requires forall k | 0 <= k < |models| :: Ordered(models[k])
    requires AnnounceableRunButForTitles(models)
    ensures var start := ApplySnapshot(ProjectSnapshot(models[0], client, count, connection));
      AgreesButForTitles(ApplyAll(start, Batches(models, client, why)), models[|why|], client)
    decreases |why|
  {
    hide DiffModel, AnnounceableButForTitles, AgreesButForTitles, Agrees, Ordered, ApplySnapshot, ProjectSnapshot, ViewOf, ServerView;
    var start := ApplySnapshot(ProjectSnapshot(models[0], client, count, connection));
    if why == [] {
      SnapshotIsAgreement(models[0], client, count, connection);
      ButForTitles(start, models[0], client);
    } else {
      var k := |why| - 1;
      RunAgreesButForTitles(models[..k + 1], client, why[..k], count, connection);
      var before := ApplyAll(start, Batches(models[..k + 1], client, why[..k]));
      ApplyAllConcat(start, Batches(models[..k + 1], client, why[..k]), DiffModel(models[k], models[k + 1], client, why[k]));
      DiffAgreesButForTitles(before, models[k], models[k + 1], client, why[k]);
    }
  }

  /** A window born with synchronize-panes on is such a change: the client is left with it off. */
  lemma BornSynchronisedIsLost() returns (prev: ServerModel, next: ServerModel, m: Model)
    ensures Ordered(prev) && Ordered(next) && FocusFollowsActive(prev) && FocusFollowsActive(next)
    ensures Agrees(m, prev, None)
    ensures !Agrees(ApplyAll(m, DiffModel(prev, next, None, Causality(map[], map[]))), next, None)
  {
    prev := ServerModel(Session("s1", "main"), None, map[], [], map[], [], Focus(None, None));
    next := prev.(windows := map["w1" := ServerWindow("sh", None, true, true, 0)], windowOrder := ["w1"]);
    m := ApplySnapshot(ProjectSnapshot(prev, None, None, None));
    SnapshotIsAgreement(prev, None, None, None);
    DiffAgrees(m, prev, next, None, Causality(map[], map[]));
    assert next.windows["w1"].synchronizePanes;
  }

  /** So is a pane born with a title, as tmux gives every pane: the client never hears it. */
  lemma BornTitledIsLost() returns (prev: ServerModel, next: ServerModel, m: Model)
    ensures Ordered(prev) && Ordered(next) && FocusFollowsActive(prev) && FocusFollowsActive(next)
    ensures Agrees(m, prev, None) && AnnounceableButForTitles(prev, next)
    ensures !Agrees(ApplyAll(m, DiffModel(prev, next, None, Causality(map[], map[]))), next, None)
  {
    prev := ServerModel(Session("s1", "main"), Some("w1"), map["w1" := ServerWindow("sh", None, false, true, 0)], ["w1"],
                        map[], [], Focus(None, Some("w1")));
    next := prev.(panes := map["p1" := ServerPane("w1", 80, 24, "normal", false, None, None, {}, None, None, Some("host"))],
                  paneOrder := ["p1"]);
    m := ApplySnapshot(ProjectSnapshot(prev, None, None, None));
    SnapshotIsAgreement(prev, None, None, None);
    DiffAgrees(m, prev, next, None, Causality(map[], map[]));
    assert "p1" in next.panes && "p1" !in prev.panes && next.panes["p1"].paneTitle.Some?;
  }

  /** And a title that is cleared: absent in a snapshot, empty in a delta. */
  lemma ClearedTitleIsEmpty() returns (prev: ServerModel, next: ServerModel, m: Model)
    ensures Ordered(prev) && Ordered(next) && FocusFollowsActive(prev) && FocusFollowsActive(next)
    ensures Agrees(m, prev, None) && AnnounceableButForTitles(prev, next)
    ensures !Agrees(ApplyAll(m, DiffModel(prev, next, None, Causality(map[], map[]))), next, None)
  {
    var titled := ServerPane("w1", 80, 24, "normal", false, None, None, {}, None, None, Some("host"));
    prev := ServerModel(Session("s1", "main"), Some("w1"), map["w1" := ServerWindow("sh", None, false, true, 0)], ["w1"],
                        map["p1" := titled], ["p1"], Focus(None, Some("w1")));
    next := prev.(panes := map["p1" := titled.(paneTitle := None)]);
    m := ApplySnapshot(ProjectSnapshot(prev, None, None, None));
    SnapshotIsAgreement(prev, None, None, None);
    DiffAgrees(m, prev, next, None, Causality(map[], map[]));
    assert prev.panes["p1"].paneTitle.Some? && next.panes["p1"].paneTitle.None?;
  }
}
