/**
 * The messages of one diff (packages/driver/src/state/projection.ts,
 * diffModel): which there are, in what order, and that none speaks of a pane or
 * window that the client has not been told of.
 */
module DeltaOrder {
  import opened Prelude
  import opened ClientModel
  import opened Projection
  import opened Deltas

  // ---------------------------------------------------------------------
  // What is due
  // ---------------------------------------------------------------------

  predicate InBoth<K, V, W>(a: map<K, V>, b: map<K, W>, k: K) {
    k in a && k in b
  }

  /** The difference between the two models that this message is there to tell. */
  predicate IsDue(b: Body, prev: ServerModel, next: ServerModel, client: Option<string>, why: Causality) {
    match b
    case WindowAdded(w, name, active) =>
      && w !in prev.windows && w in next.windows
      && name == next.windows[w].name && (active <==> next.activeWindowId == Some(w))
    case PaneOpened(p, windowId, cols, rows, bornDead, exitCode, paneLabel, bornBound, detach, icon, origin) =>
      && p !in prev.panes && p in next.panes
      && var n := next.panes[p];
      && windowId == n.windowId && cols == n.cols && rows == n.rows
      && bornDead == (if n.dead then Some(true) else None) && exitCode == (if n.dead then n.exitCode else None)
      && paneLabel == n.paneLabel && detach == n.detach && icon == n.icon
      && bornBound == (if BoundFor(n, client) then Some(true) else None)
      && origin == Lookup(why.origins, p)
    case LayoutUpdated(w, layout) =>
      && w in next.windows && next.windows[w].layout == Some(layout)
      && (w in prev.windows ==> prev.windows[w].layout != Some(layout))
    case PaneMoved(p, windowId) =>
      InBoth(prev.panes, next.panes, p) && windowId == next.panes[p].windowId != prev.panes[p].windowId
    case PaneResized(p, cols, rows) =>
      && InBoth(prev.panes, next.panes, p) && cols == next.panes[p].cols && rows == next.panes[p].rows
      && (cols != prev.panes[p].cols || rows != prev.panes[p].rows)
    case PaneModeChanged(p, mode) =>
      InBoth(prev.panes, next.panes, p) && mode == next.panes[p].mode != prev.panes[p].mode
    case PaneLabelChanged(p, paneLabel) =>
      InBoth(prev.panes, next.panes, p) && paneLabel == next.panes[p].paneLabel != prev.panes[p].paneLabel
    case PanePolicyChanged(p, bound, detach, icon) =>
      && InBoth(prev.panes, next.panes, p)
      && var o, n := prev.panes[p], next.panes[p];
      && (bound <==> BoundFor(n, client)) && detach == n.detach && icon == n.icon
      && (bound != BoundFor(o, client) || detach != o.detach || icon != o.icon)
    case PaneDeadChanged(p, dead, exitCode) =>
      && InBoth(prev.panes, next.panes, p)
      && var o, n := prev.panes[p], next.panes[p];
      && dead == n.dead && exitCode == (if dead then n.exitCode else None)
      && (dead != o.dead || (dead && n.exitCode != o.exitCode))
    case PaneTitleChanged(p, title) =>
      && InBoth(prev.panes, next.panes, p) && next.panes[p].paneTitle != prev.panes[p].paneTitle
      && title == OrElse(next.panes[p].paneTitle, "")
    case WindowRenamed(w, name) =>
      InBoth(prev.windows, next.windows, w) && name == next.windows[w].name != prev.windows[w].name
    case WindowSyncChanged(w, on) =>
      InBoth(prev.windows, next.windows, w) && on == next.windows[w].synchronizePanes != prev.windows[w].synchronizePanes
    case WindowMonitorActivityChanged(w, on) =>
      InBoth(prev.windows, next.windows, w) && on == next.windows[w].monitorActivity != prev.windows[w].monitorActivity
    case WindowMonitorSilenceChanged(w, n) =>
      InBoth(prev.windows, next.windows, w) && n == next.windows[w].monitorSilence != prev.windows[w].monitorSilence
    case SessionRenamed(name) => name == next.session.name != prev.session.name
    case FocusChanged(p, w) => Focus(p, w) == next.focus != prev.focus
    case PaneClosed(p, exitCode, cause) =>
      && p in prev.panes && p !in next.panes
      && exitCode == (if prev.panes[p].dead then prev.panes[p].exitCode else None) && cause == Lookup(why.causes, p)
    case WindowClosed(w) => w in prev.windows && w !in next.windows
    case _ => false
  }

  /** The place of each kind of message in the delta ordering rule. */
  function Rank(b: Body): nat {
    match b
    case WindowAdded(_, _, _) => 1
    case PaneOpened(_, _, _, _, _, _, _, _, _, _, _) => 2
    case LayoutUpdated(_, _) => 3
    case PaneMoved(_, _) => 4
    case PaneResized(_, _, _) => 5
    case PaneModeChanged(_, _) => 6
    case PaneLabelChanged(_, _) => 7
    case PanePolicyChanged(_, _, _, _) => 8
    case PaneDeadChanged(_, _, _) => 9
    case PaneTitleChanged(_, _) => 10
    case WindowRenamed(_, _) => 11
    case WindowSyncChanged(_, _) => 12
    case WindowMonitorActivityChanged(_, _) => 13
    case WindowMonitorSilenceChanged(_, _) => 14
    case SessionRenamed(_) => 15
    case FocusChanged(_, _) => 16
    case PaneClosed(_, _, _) => 17
    case WindowClosed(_) => 18
    case _ => 0
  }

  /** The pane or window a message is about. */
  function Subject(b: Body): string {
    match b
    case WindowAdded(w, _, _) => w
    case PaneOpened(p, _, _, _, _, _, _, _, _, _, _) => p
    case LayoutUpdated(w, _) => w
    case PaneMoved(p, _) => p
    case PaneResized(p, _, _) => p
    case PaneModeChanged(p, _) => p
    case PaneLabelChanged(p, _) => p
    case PanePolicyChanged(p, _, _, _) => p
    case PaneDeadChanged(p, _, _) => p
    case PaneTitleChanged(p, _) => p
    case WindowRenamed(w, _) => w
    case WindowSyncChanged(w, _) => w
    case WindowMonitorActivityChanged(w, _) => w
    case WindowMonitorSilenceChanged(w, _) => w
    case PaneClosed(p, _, _) => p
    case WindowClosed(w) => w
    case _ => ""
  }

  function PaneRank(g: PaneGroup): nat {
    match g
    case Moved => 4
    case Resized => 5
    case ModeChanged => 6
    case LabelChanged => 7
    case PolicyChanged => 8
    case DeadChanged => 9
    case TitleChanged => 10
  }

  function WindowRank(g: WindowGroup): nat {
    match g
    case LayoutChanged => 3
    case Renamed => 11
    case SyncChanged => 12
    case ActivityChanged => 13
    case SilenceChanged => 14
  }

  // ---------------------------------------------------------------------
  // Group by group
  // ---------------------------------------------------------------------

  /** The group holds exactly the due messages of its rank about these ids, in the ids' order. */
  ghost predicate IsGroup(group: seq<Body>, rank: nat, ids: seq<string>,
                          prev: ServerModel, next: ServerModel, client: Option<string>, why: Causality)
  {
    && NoRepeats(group)
    && forall b: Body :: b in group <==> Rank(b) == rank && Subject(b) in ids && IsDue(b, prev, next, client, why)
  }

  /** One more id brings its one message, or none. */
  lemma OneMore(group: seq<Body>, rank: nat, ids: seq<string>, id: string, o: Option<Body>,
                prev: ServerModel, next: ServerModel, client: Option<string>, why: Causality)
    requires IsGroup(group, rank, ids, prev, next, client, why) && id !in ids
    requires forall b: Body :: o == Some(b) <==> Rank(b) == rank && Subject(b) == id && IsDue(b, prev, next, client, why)
    ensures IsGroup(group + ToSeq(o), rank, ids + [id], prev, next, client, why)
  {
    hide IsDue, Rank, Subject;
    if o.Some? {
      Appended(group, o.value);
    } else {
      assert group + ToSeq(o) == group;
    }
  }

  lemma NoneYet(rank: nat, prev: ServerModel, next: ServerModel, client: Option<string>, why: Causality)
    ensures IsGroup([], rank, [], prev, next, client, why)
  {
  }

  lemma PaneDeltaIsDue(g: PaneGroup, id: PaneId, prev: ServerModel, next: ServerModel, client: Option<string>, why: Causality,
                       b: Body)
    requires id in next.panes
    ensures (id in prev.panes && PaneDelta(g, id, prev.panes[id], next.panes[id], client) == Some(b))
       <==> Rank(b) == PaneRank(g) && Subject(b) == id && IsDue(b, prev, next, client, why)
  {
  }

  lemma WindowDeltaIsDue(g: WindowGroup, id: WindowId, prev: ServerModel, next: ServerModel, client: Option<string>,
                         why: Causality, b: Body)
    requires id in next.windows
    ensures WindowDelta(g, id, Lookup(prev.windows, id), next.windows[id]) == Some(b)
       <==> Rank(b) == WindowRank(g) && Subject(b) == id && IsDue(b, prev, next, client, why)
  {
  }

  lemma {:induction false} PaneDeltasAreDue(g: PaneGroup, ids: seq<PaneId>,
                                            prev: ServerModel, next: ServerModel, client: Option<string>, why: Causality)
    requires NoRepeats(ids) && forall p <- ids :: p in next.panes
    ensures IsGroup(PaneDeltas(g, prev, next, client, ids), PaneRank(g), ids, prev, next, client, why)
  {
    hide IsDue, IsGroup, PaneDelta;
    NoneYet(PaneRank(g), prev, next, client, why);
    if ids != [] {
      var k := |ids| - 1;
      var id := ids[k];
      PaneDeltasAreDue(g, ids[..k], prev, next, client, why);
      var o := if id in prev.panes then PaneDelta(g, id, prev.panes[id], next.panes[id], client) else None;
      forall b: Body
        ensures o == Some(b) <==> Rank(b) == PaneRank(g) && Subject(b) == id && IsDue(b, prev, next, client, why)
      {
        PaneDeltaIsDue(g, id, prev, next, client, why, b);
      }
      OneMore(PaneDeltas(g, prev, next, client, ids[..k]), PaneRank(g), ids[..k], id, o, prev, next, client, why);
      assert ids[..k] + [id] == ids;
    }
  }

  lemma {:induction false} WindowDeltasAreDue(g: WindowGroup, ids: seq<WindowId>,
                                              prev: ServerModel, next: ServerModel, client: Option<string>, why: Causality)
    requires NoRepeats(ids) && forall w <- ids :: w in next.windows
    ensures IsGroup(WindowDeltas(g, prev, next, ids), WindowRank(g), ids, prev, next, client, why)
  {
    hide IsDue, IsGroup, WindowDelta;
    NoneYet(WindowRank(g), prev, next, client, why);
    if ids != [] {
      var k := |ids| - 1;
      var id := ids[k];
      WindowDeltasAreDue(g, ids[..k], prev, next, client, why);
      var o := WindowDelta(g, id, Lookup(prev.windows, id), next.windows[id]);
      forall b: Body
        ensures o == Some(b) <==> Rank(b) == WindowRank(g) && Subject(b) == id && IsDue(b, prev, next, client, why)
      {
        WindowDeltaIsDue(g, id, prev, next, client, why, b);
      }
      OneMore(WindowDeltas(g, prev, next, ids[..k]), WindowRank(g), ids[..k], id, o, prev, next, client, why);
      assert ids[..k] + [id] == ids;
    }
  }

  lemma {:induction false} WindowsAddedAreDue(ids: seq<WindowId>,
                                              prev: ServerModel, next: ServerModel, client: Option<string>, why: Causality)
    requires NoRepeats(ids) && forall w <- ids :: w in next.windows
    ensures IsGroup(WindowsAdded(prev, next, ids), 1, ids, prev, next, client, why)
  {
    hide IsGroup;
    NoneYet(1, prev, next, client, why);
    if ids != [] {
      var k := |ids| - 1;
      var id := ids[k];
      WindowsAddedAreDue(ids[..k], prev, next, client, why);
      var o := if id in prev.windows then None else Some(WindowAdded(id, next.windows[id].name, next.activeWindowId == Some(id)));
      OneMore(WindowsAdded(prev, next, ids[..k]), 1, ids[..k], id, o, prev, next, client, why);
      assert ids[..k] + [id] == ids;
    }
  }

  lemma {:induction false} PanesOpenedAreDue(ids: seq<PaneId>,
                                             prev: ServerModel, next: ServerModel, client: Option<string>, why: Causality)
    requires NoRepeats(ids) && forall p <- ids :: p in next.panes
    ensures IsGroup(PanesOpened(prev, next, client, why.origins, ids), 2, ids, prev, next, client, why)
  {
    hide IsGroup;
    NoneYet(2, prev, next, client, why);
    if ids != [] {
      var k := |ids| - 1;
      var id := ids[k];
      PanesOpenedAreDue(ids[..k], prev, next, client, why);
      var o := if id in prev.panes then None else Some(Opening(id, next.panes[id], client, Lookup(why.origins, id)));
      OneMore(PanesOpened(prev, next, client, why.origins, ids[..k]), 2, ids[..k], id, o, prev, next, client, why);
      assert ids[..k] + [id] == ids;
    }
  }

  lemma ClosingIsDue(id: PaneId, prev: ServerModel, next: ServerModel, client: Option<string>, why: Causality, b: Body)
    requires id in prev.panes
    ensures (id !in next.panes
             && b == PaneClosed(id, if prev.panes[id].dead then prev.panes[id].exitCode else None, Lookup(why.causes, id)))
       <==> Rank(b) == 17 && Subject(b) == id && IsDue(b, prev, next, client, why)
  {
  }

  lemma {:induction false} PanesClosedAreDue(ids: seq<PaneId>,
                                             prev: ServerModel, next: ServerModel, client: Option<string>, why: Causality)
    requires NoRepeats(ids) && forall p <- ids :: p in prev.panes
    ensures IsGroup(PanesClosed(prev, next, why.causes, ids), 17, ids, prev, next, client, why)
  {
    hide IsGroup, IsDue;
    NoneYet(17, prev, next, client, why);
    if ids != [] {
      var k := |ids| - 1;
      var id := ids[k];
      PanesClosedAreDue(ids[..k], prev, next, client, why);
      var o := if id in next.panes then None
        else Some(PaneClosed(id, if prev.panes[id].dead then prev.panes[id].exitCode else None, Lookup(why.causes, id)));
      forall b: Body ensures o == Some(b) <==> Rank(b) == 17 && Subject(b) == id && IsDue(b, prev, next, client, why) {
        ClosingIsDue(id, prev, next, client, why, b);
      }
      OneMore(PanesClosed(prev, next, why.causes, ids[..k]), 17, ids[..k], id, o, prev, next, client, why);
      assert ids[..k] + [id] == ids;
    }
  }

  lemma {:induction false} WindowsClosedAreDue(ids: seq<WindowId>,
                                               prev: ServerModel, next: ServerModel, client: Option<string>, why: Causality)
    requires NoRepeats(ids) && forall w <- ids :: w in prev.windows
    ensures IsGroup(WindowsClosed(prev, next, ids), 18, ids, prev, next, client, why)
  {
    hide IsGroup;
    NoneYet(18, prev, next, client, why);
    if ids != [] {
      var k := |ids| - 1;
      var id := ids[k];
      WindowsClosedAreDue(ids[..k], prev, next, client, why);
      var o := if id in next.windows then None else Some(WindowClosed(id));
      OneMore(WindowsClosed(prev, next, ids[..k]), 18, ids[..k], id, o, prev, next, client, why);
      assert ids[..k] + [id] == ids;
    }
  }

  // ---------------------------------------------------------------------
  // The whole diff
  // ---------------------------------------------------------------------

  /** Exactly the due messages up to this rank, each once, lower ranks first. */
  ghost predicate InOrder(s: seq<Body>, rank: nat, prev: ServerModel, next: ServerModel, client: Option<string>, why: Causality) {
    && NoRepeats(s)
    && (forall b: Body :: b in s <==> 1 <= Rank(b) <= rank && IsDue(b, prev, next, client, why))
    && (forall i, j | 0 <= i < j < |s| :: Rank(s[i]) <= Rank(s[j]))
  }

  /** A group of all ids that can be meant. */
  ghost predicate WholeGroup(group: seq<Body>, rank: nat,
                             prev: ServerModel, next: ServerModel, client: Option<string>, why: Causality)
  {
    NoRepeats(group) && forall b: Body :: b in group <==> Rank(b) == rank && IsDue(b, prev, next, client, why)
  }

  lemma NextGroup(s: seq<Body>, group: seq<Body>, rank: nat,
                  prev: ServerModel, next: ServerModel, client: Option<string>, why: Causality)
    requires InOrder(s, rank, prev, next, client, why) && WholeGroup(group, rank + 1, prev, next, client, why)
    ensures InOrder(s + group, rank + 1, prev, next, client, why)
  {
    hide IsDue, Rank;
    var all := s + group;
    forall i, j | 0 <= i < j < |all| ensures all[i] != all[j] && Rank(all[i]) <= Rank(all[j]) {
      assert all[i] in all && all[j] in all;
      if i < |s| {
        assert all[i] in s;
      }
      if j >= |s| {
        assert all[j] == group[j - |s|] && group[j - |s|] in group;
        assert i >= |s| ==> all[i] == group[i - |s|] && group[i - |s|] in group;
      }
    }
  }

  /** Every due message is about a listed id. */
  lemma SubjectsListed(prev: ServerModel, next: ServerModel, client: Option<string>, why: Causality, b: Body)
    requires Ordered(prev) && Ordered(next) && IsDue(b, prev, next, client, why)
    ensures Rank(b) in {1, 3, 11, 12, 13, 14} ==> Subject(b) in next.windowOrder
    ensures Rank(b) in {2, 4, 5, 6, 7, 8, 9, 10} ==> Subject(b) in next.paneOrder
    ensures Rank(b) == 17 ==> Subject(b) in prev.paneOrder
    ensures Rank(b) == 18 ==> Subject(b) in prev.windowOrder
    ensures 1 <= Rank(b) <= 18
  {
  }

  lemma Whole(group: seq<Body>, rank: nat, ids: seq<string>,
              prev: ServerModel, next: ServerModel, client: Option<string>, why: Causality)
    requires Ordered(prev) && Ordered(next) && IsGroup(group, rank, ids, prev, next, client, why)
    requires
      || (rank in {1, 3, 11, 12, 13, 14} && ids == next.windowOrder)
      || (rank in {2, 4, 5, 6, 7, 8, 9, 10} && ids == next.paneOrder)
      || (rank == 17 && ids == prev.paneOrder) || (rank == 18 && ids == prev.windowOrder)
    ensures WholeGroup(group, rank, prev, next, client, why)
  {
    forall b: Body ensures b in group <==> Rank(b) == rank && IsDue(b, prev, next, client, why) {
      if Rank(b) == rank && IsDue(b, prev, next, client, why) {
        SubjectsListed(prev, next, client, why, b);
      }
    }
  }

  lemma AllWholePanes(g: PaneGroup, prev: ServerModel, next: ServerModel, client: Option<string>, why: Causality)
    requires Ordered(prev) && Ordered(next)
    ensures WholeGroup(PaneDeltas(g, prev, next, client, next.paneOrder), PaneRank(g), prev, next, client, why)
  {
    hide IsGroup, WholeGroup;
    PaneDeltasAreDue(g, next.paneOrder, prev, next, client, why);
    Whole(PaneDeltas(g, prev, next, client, next.paneOrder), PaneRank(g), next.paneOrder, prev, next, client, why);
  }

  lemma AllWholeWindows(g: WindowGroup, prev: ServerModel, next: ServerModel, client: Option<string>, why: Causality)
    requires Ordered(prev) && Ordered(next)
    ensures WholeGroup(WindowDeltas(g, prev, next, next.windowOrder), WindowRank(g), prev, next, client, why)
  {
    hide IsGroup, WholeGroup;
    WindowDeltasAreDue(g, next.windowOrder, prev, next, client, why);
    Whole(WindowDeltas(g, prev, next, next.windowOrder), WindowRank(g), next.windowOrder, prev, next, client, why);
  }

  lemma SessionAndFocus(prev: ServerModel, next: ServerModel, client: Option<string>, why: Causality)
    ensures WholeGroup(SessionDelta(prev, next), 15, prev, next, client, why)
    ensures WholeGroup(FocusDelta(prev, next), 16, prev, next, client, why)
  {
  }

  lemma Ends(prev: ServerModel, next: ServerModel, client: Option<string>, why: Causality)
    requires Ordered(prev) && Ordered(next)
    ensures WholeGroup(WindowsAdded(prev, next, next.windowOrder), 1, prev, next, client, why)
    ensures WholeGroup(PanesOpened(prev, next, client, why.origins, next.paneOrder), 2, prev, next, client, why)
    ensures WholeGroup(PanesClosed(prev, next, why.causes, prev.paneOrder), 17, prev, next, client, why)
    ensures WholeGroup(WindowsClosed(prev, next, prev.windowOrder), 18, prev, next, client, why)
  {
    hide IsGroup, WholeGroup, IsDue;
    WindowsAddedAreDue(next.windowOrder, prev, next, client, why);
    Whole(WindowsAdded(prev, next, next.windowOrder), 1, next.windowOrder, prev, next, client, why);
    PanesOpenedAreDue(next.paneOrder, prev, next, client, why);
    Whole(PanesOpened(prev, next, client, why.origins, next.paneOrder), 2, next.paneOrder, prev, next, client, why);
    PanesClosedAreDue(prev.paneOrder, prev, next, client, why);
    Whole(PanesClosed(prev, next, why.causes, prev.paneOrder), 17, prev.paneOrder, prev, next, client, why);
    WindowsClosedAreDue(prev.windowOrder, prev, next, client, why);
    Whole(WindowsClosed(prev, next, prev.windowOrder), 18, prev.windowOrder, prev, next, client, why);
  }

  lemma StartsEmpty(prev: ServerModel, next: ServerModel, client: Option<string>, why: Causality)
    ensures InOrder([], 0, prev, next, client, why)
  {
  }

  /**
   * The diff is exactly the messages that are due, each once, in the order of
   * the delta ordering rule.
   */
  lemma DiffIsDue(prev: ServerModel, next: ServerModel, client: Option<string>, why: Causality)
    requires Ordered(prev) && Ordered(next)
    ensures InOrder(DiffModel(prev, next, client, why), 18, prev, next, client, why)
  {
    hide IsDue, Rank, InOrder, WholeGroup, PaneDeltas, WindowDeltas, WindowsAdded, PanesOpened, PanesClosed, WindowsClosed,
         SessionDelta, FocusDelta;
    Ends(prev, next, client, why);
    SessionAndFocus(prev, next, client, why);
    StartsEmpty(prev, next, client, why);
    var s: seq<Body> := [];
    var g := WindowsAdded(prev, next, next.windowOrder);
    NextGroup(s, g, 0, prev, next, client, why);
    assert s + g == g;
    s := g;
    g := PanesOpened(prev, next, client, why.origins, next.paneOrder);
    NextGroup(s, g, 1, prev, next, client, why);
    s := s + g;
    s := AddWindows(LayoutChanged, s, prev, next, client, why);
    s := AddPanes(Moved, s, prev, next, client, why);
    s := AddPanes(Resized, s, prev, next, client, why);
    s := AddPanes(ModeChanged, s, prev, next, client, why);
    s := AddPanes(LabelChanged, s, prev, next, client, why);
    s := AddPanes(PolicyChanged, s, prev, next, client, why);
    s := AddPanes(DeadChanged, s, prev, next, client, why);
    s := AddPanes(TitleChanged, s, prev, next, client, why);
    s := AddWindows(Renamed, s, prev, next, client, why);
    s := AddWindows(SyncChanged, s, prev, next, client, why);
    s := AddWindows(ActivityChanged, s, prev, next, client, why);
    s := AddWindows(SilenceChanged, s, prev, next, client, why);
    NextGroup(s, SessionDelta(prev, next), 14, prev, next, client, why);
    s := s + SessionDelta(prev, next);
    NextGroup(s, FocusDelta(prev, next), 15, prev, next, client, why);
    s := s + FocusDelta(prev, next);
    NextGroup(s, PanesClosed(prev, next, why.causes, prev.paneOrder), 16, prev, next, client, why);
    s := s + PanesClosed(prev, next, why.causes, prev.paneOrder);
    NextGroup(s, WindowsClosed(prev, next, prev.windowOrder), 17, prev, next, client, why);
    s := s + WindowsClosed(prev, next, prev.windowOrder);
    assert s == DiffModel(prev, next, client, why);
  }

  lemma AddPanes(g: PaneGroup, s: seq<Body>, prev: ServerModel, next: ServerModel, client: Option<string>, why: Causality)
    returns (t: seq<Body>)
    requires Ordered(prev) && Ordered(next) && InOrder(s, PaneRank(g) - 1, prev, next, client, why)
    ensures t == s + PaneDeltas(g, prev, next, client, next.paneOrder) && InOrder(t, PaneRank(g), prev, next, client, why)
  {
    hide InOrder, WholeGroup, PaneDeltas;
    AllWholePanes(g, prev, next, client, why);
    t := s + PaneDeltas(g, prev, next, client, next.paneOrder);
    NextGroup(s, PaneDeltas(g, prev, next, client, next.paneOrder), PaneRank(g) - 1, prev, next, client, why);
  }

  lemma AddWindows(g: WindowGroup, s: seq<Body>, prev: ServerModel, next: ServerModel, client: Option<string>, why: Causality)
    returns (t: seq<Body>)
    requires Ordered(prev) && Ordered(next) && InOrder(s, WindowRank(g) - 1, prev, next, client, why)
    ensures t == s + WindowDeltas(g, prev, next, next.windowOrder) && InOrder(t, WindowRank(g), prev, next, client, why)
  {
    hide InOrder, WholeGroup, WindowDeltas;
    AllWholeWindows(g, prev, next, client, why);
    t := s + WindowDeltas(g, prev, next, next.windowOrder);
    NextGroup(s, WindowDeltas(g, prev, next, next.windowOrder), WindowRank(g) - 1, prev, next, client, why);
  }

  // ---------------------------------------------------------------------
  // Nothing is spoken of before it is announced, or after it is gone
  // ---------------------------------------------------------------------

  /** The server's panes are in its windows and its focus is on what it has. */
  predicate Consistent(m: ServerModel) {
    && (forall p <- m.panes :: m.panes[p].windowId in m.windows)
    && (m.focus.paneId.Some? ==> m.focus.paneId.value in m.panes)
    && (m.focus.windowId.Some? ==> m.focus.windowId.value in m.windows)
  }

  predicate SpeaksOfPane(b: Body, p: PaneId) {
    || (4 <= Rank(b) <= 10 && Subject(b) == p) || (b.PaneClosed? && b.paneId == p)
    || (b.FocusChanged? && b.focusPane == Some(p))
  }

  predicate SpeaksOfWindow(b: Body, w: WindowId) {
    || (Rank(b) in {3, 11, 12, 13, 14} && Subject(b) == w) || (b.WindowClosed? && b.windowId == w)
    || (b.FocusChanged? && b.focusWindow == Some(w))
    || ((b.PaneOpened? || b.PaneMoved?) && b.windowId == w)
  }

  predicate PaneKnown(prev: ServerModel, told: seq<Body>, p: PaneId) {
    && (p in prev.panes || exists b :: b in told && b.PaneOpened? && b.paneId == p)
    && !exists b :: b in told && b.PaneClosed? && b.paneId == p
  }

  predicate WindowKnown(prev: ServerModel, told: seq<Body>, w: WindowId) {
    && (w in prev.windows || exists b :: b in told && b.WindowAdded? && b.windowId == w)
    && !exists b :: b in told && b.WindowClosed? && b.windowId == w
  }

  /** A message of lower rank has already been sent; one of higher rank has not. */
  lemma SentBefore(s: seq<Body>, j: nat, a: Body, prev: ServerModel, next: ServerModel, client: Option<string>, why: Causality)
    requires InOrder(s, 18, prev, next, client, why) && j < |s|
    ensures a in s && Rank(a) < Rank(s[j]) ==> a in s[..j]
    ensures a in s[..j] ==> a in s && Rank(a) <= Rank(s[j]) && a != s[j] && IsDue(a, prev, next, client, why)
    ensures IsDue(s[j], prev, next, client, why)
  {
    hide IsDue, Rank;
    assert s[j] in s;
    if a in s && Rank(a) < Rank(s[j]) {
      var i :| 0 <= i < |s| && s[i] == a;
      assert i < j;
      assert s[..j][i] == a;
    }
    if a in s[..j] {
      var i :| 0 <= i < j && s[..j][i] == a;
      assert s[i] == a;
    }
  }

  /** What a due message speaks of was there before or is new, and goes by no other message. */
  lemma PaneSpokenOf(b: Body, a: Body, p: PaneId, prev: ServerModel, next: ServerModel, client: Option<string>, why: Causality)
    requires Consistent(next) && IsDue(b, prev, next, client, why) && SpeaksOfPane(b, p)
    ensures p in prev.panes || (p in next.panes && Rank(b) > 2)
    ensures IsDue(a, prev, next, client, why) && a.PaneClosed? && a.paneId == p ==> a == b
  {
  }

  lemma WindowSpokenOf(b: Body, a: Body, w: WindowId, prev: ServerModel, next: ServerModel, client: Option<string>,
                       why: Causality)
    requires Consistent(next) && IsDue(b, prev, next, client, why) && SpeaksOfWindow(b, w)
    ensures w in prev.windows || (w in next.windows && Rank(b) > 1)
    ensures IsDue(a, prev, next, client, why) && a.WindowClosed? && a.windowId == w ==> a == b
  {
  }

  lemma OpeningIsDue(p: PaneId, prev: ServerModel, next: ServerModel, client: Option<string>, why: Causality)
    requires p !in prev.panes && p in next.panes
    ensures var b := Opening(p, next.panes[p], client, Lookup(why.origins, p));
      IsDue(b, prev, next, client, why) && Rank(b) == 2 && b.PaneOpened? && b.paneId == p
  {
  }

  lemma AddingIsDue(w: WindowId, prev: ServerModel, next: ServerModel, client: Option<string>, why: Causality)
    requires w !in prev.windows && w in next.windows
    ensures var b := WindowAdded(w, next.windows[w].name, next.activeWindowId == Some(w));
      IsDue(b, prev, next, client, why) && Rank(b) == 1
  {
  }

  lemma PanesKnown(s: seq<Body>, prev: ServerModel, next: ServerModel, client: Option<string>, why: Causality,
                   j: nat, p: PaneId)
    requires InOrder(s, 18, prev, next, client, why) && Consistent(next) && j < |s| && SpeaksOfPane(s[j], p)
    ensures PaneKnown(prev, s[..j], p)
  {
    var b := s[j];
    hide IsDue, Rank, SpeaksOfPane, Opening, Consistent, InOrder;
    SentBefore(s, j, b, prev, next, client, why);
    PaneSpokenOf(b, b, p, prev, next, client, why);
    if p !in prev.panes {
      var opening := Opening(p, next.panes[p], client, Lookup(why.origins, p));
      OpeningIsDue(p, prev, next, client, why);
      DueIsIn(s, opening, prev, next, client, why);
      SentBefore(s, j, opening, prev, next, client, why);
    }
    forall a | a in s[..j] ensures !(a.PaneClosed? && a.paneId == p) {
      SentBefore(s, j, a, prev, next, client, why);
      PaneSpokenOf(b, a, p, prev, next, client, why);
    }
  }

  lemma WindowsKnown(s: seq<Body>, prev: ServerModel, next: ServerModel, client: Option<string>, why: Causality,
                     j: nat, w: WindowId)
    requires InOrder(s, 18, prev, next, client, why) && Consistent(next) && j < |s| && SpeaksOfWindow(s[j], w)
    ensures WindowKnown(prev, s[..j], w)
  {
    var b := s[j];
    hide IsDue, Rank, SpeaksOfWindow, Consistent, InOrder;
    SentBefore(s, j, b, prev, next, client, why);
    WindowSpokenOf(b, b, w, prev, next, client, why);
    if w !in prev.windows {
      var adding := WindowAdded(w, next.windows[w].name, next.activeWindowId == Some(w));
      AddingIsDue(w, prev, next, client, why);
      DueIsIn(s, adding, prev, next, client, why);
      SentBefore(s, j, adding, prev, next, client, why);
    }
    forall a | a in s[..j] ensures !(a.WindowClosed? && a.windowId == w) {
      SentBefore(s, j, a, prev, next, client, why);
      WindowSpokenOf(b, a, w, prev, next, client, why);
    }
  }

  lemma DueIsIn(s: seq<Body>, b: Body, prev: ServerModel, next: ServerModel, client: Option<string>, why: Causality)
    requires InOrder(s, 18, prev, next, client, why) && IsDue(b, prev, next, client, why) && 1 <= Rank(b) <= 18
    ensures b in s
  {
  }

  /**
   * The purpose of the ordering rule: no message of a diff speaks of a pane or
   * window that the client was not told of before, or was already told is gone.
   */
  lemma NothingUnannounced(prev: ServerModel, next: ServerModel, client: Option<string>, why: Causality, j: nat, id: string)
    requires Ordered(prev) && Ordered(next) && Consistent(next) && j < |DiffModel(prev, next, client, why)|
    ensures var diff := DiffModel(prev, next, client, why);
      && (SpeaksOfPane(diff[j], id) ==> PaneKnown(prev, diff[..j], id))
      && (SpeaksOfWindow(diff[j], id) ==> WindowKnown(prev, diff[..j], id))
  {
    hide *;
    DiffIsDue(prev, next, client, why);
    var diff := DiffModel(prev, next, client, why);
    if SpeaksOfPane(diff[j], id) {
      PanesKnown(diff, prev, next, client, why, j, id);
    }
    if SpeaksOfWindow(diff[j], id) {
      WindowsKnown(diff, prev, next, client, why, j, id);
    }
  }
}
