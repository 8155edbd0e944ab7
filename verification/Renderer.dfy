/**
 * The render hook: how `attach` turns model changes back into callbacks
 * (clients/ts/src/mirror.ts, attach and applyModelDiff), and the picture a
 * renderer gets by following nothing but those callbacks.
 */
module Renderer {
  import opened Prelude
  import opened ClientModel
  import opened Projection
  import opened Deltas

  /** The callbacks, with the optional fields their arguments carry. */
  datatype HookCall =
    | OnWindowAdded(windowId: WindowId, name: string, active: bool, layout: Layout)
    | OnLayoutChanged(windowId: WindowId, layout: Layout)
    | OnWindowRenamed(windowId: WindowId, name: string)
    | OnWindowClosed(windowId: WindowId)
    | OnPaneOpened(paneId: PaneId, home: WindowId, cols: int, rows: int, active: bool, origin: Option<Origin>,
                   bornDead: Option<bool>, exitCode: Option<int>, paneLabel: Option<string>,
                   bornBound: Option<bool>, detach: Option<Detach>, icon: Option<string>)
    | OnPaneResized(paneId: PaneId, cols: int, rows: int)
    | OnPaneMoved(paneId: PaneId, home: WindowId)
    | OnPaneDeadChanged(paneId: PaneId, dead: bool, exitCode: Option<int>)
    | OnPaneLabelChanged(paneId: PaneId, paneLabel: Option<string>)
    | OnPanePolicyChanged(paneId: PaneId, bound: bool, detach: Option<Detach>, icon: Option<string>)
    | OnPaneTitleChanged(paneId: PaneId, title: Option<string>)
    | OnPaneClosed(paneId: PaneId, exitCode: Option<int>, cause: Option<Origin>)
    | OnFocusChanged(focus: Focus)
    | OnConnected
    | OnDisconnected(reason: string)

  // ---------------------------------------------------------------------
  // The picture
  // ---------------------------------------------------------------------

  datatype ShownWindow = ShownWindow(name: string, layout: Layout)

  datatype Shown = Shown(windows: map<WindowId, ShownWindow>, panes: map<PaneId, PaneView>, focus: Focus)

  const BLANK := Shown(map[], map[], Focus(None, None))

  function ShownWindows(ws: map<WindowId, ClientWindow>): map<WindowId, ShownWindow> {
    map w | w in ws :: ShownWindow(ws[w].name, ws[w].layout)
  }

  /** What a renderer of this model should show. */
  function Shows(m: Model): Shown {
    Shown(ShownWindows(m.windows), PaneViews(m.panes), m.focus)
  }

  function SetShown(s: Shown, id: PaneId, v: PaneView): Shown {
    s.(panes := s.panes[id := v])
  }

  predicate RevisesPane(c: HookCall) {
    c.OnPaneResized? || c.OnPaneMoved? || c.OnPaneDeadChanged? || c.OnPaneLabelChanged?
    || c.OnPanePolicyChanged? || c.OnPaneTitleChanged?
  }

  function Revised(v: PaneView, c: HookCall): PaneView
    requires RevisesPane(c)
  {
    match c
    case OnPaneResized(_, cols, rows) => v.(cols := cols, rows := rows)
    case OnPaneMoved(_, home) => v.(windowId := home)
    case OnPaneDeadChanged(_, dead, exitCode) => v.(dead := dead, exitCode := exitCode)
    case OnPaneLabelChanged(_, paneLabel) => v.(paneLabel := paneLabel)
    case OnPanePolicyChanged(_, bound, detach, icon) => v.(bound := bound, detach := detach, icon := icon)
    case OnPaneTitleChanged(_, _) => v
  }

  function RevisedIf(differs: bool, v: PaneView, c: HookCall): PaneView
    requires RevisesPane(c)
  {
    if differs then Revised(v, c) else v
  }

  /** The comparisons together bring a view up to date. */
  lemma ComparedInTurn(v: PaneView, pane: ClientPane, id: PaneId)
    requires SoundPane(pane)
    ensures
      var v1 := RevisedIf(v.cols != pane.cols || v.rows != pane.rows, v, OnPaneResized(id, pane.cols, pane.rows));
      var v2 := RevisedIf(v.windowId != pane.windowId, v1, OnPaneMoved(id, pane.windowId));
      var v3 := RevisedIf(v.dead != pane.dead || v.exitCode != pane.exitCode, v2,
                          OnPaneDeadChanged(id, pane.dead, if pane.dead then pane.exitCode else None));
      var v4 := RevisedIf(v.paneLabel != pane.paneLabel, v3, OnPaneLabelChanged(id, pane.paneLabel));
      var v5 := RevisedIf(v.bound != pane.bound || v.detach != pane.detach || v.icon != pane.icon, v4,
                          OnPanePolicyChanged(id, pane.bound, pane.detach, pane.icon));
      v5 == ViewOfPane(pane)
  {
  }

  lemma UnrevisedTitle(differs: bool, v: PaneView, id: PaneId, title: Option<string>)
    ensures RevisedIf(differs, v, OnPaneTitleChanged(id, title)) == v
  {
  }

  /** A renderer that believes what it is told, and nothing else. */
  function Draw(s: Shown, c: HookCall): Shown {
    match c
    case OnWindowAdded(w, name, _, layout) => s.(windows := s.windows[w := ShownWindow(name, layout)])
    case OnLayoutChanged(w, layout) =>
      if w !in s.windows then s else s.(windows := s.windows[w := s.windows[w].(layout := layout)])
    case OnWindowRenamed(w, name) =>
      if w !in s.windows then s else s.(windows := s.windows[w := s.windows[w].(name := name)])
    case OnWindowClosed(w) => s.(windows := s.windows - {w})
    case OnPaneOpened(p, home, cols, rows, _, _, bornDead, exitCode, paneLabel, bornBound, detach, icon) =>
      SetShown(s, p, PaneView(home, cols, rows, OrElse(bornDead, false), exitCode,
                              paneLabel, OrElse(bornBound, false), detach, icon))
    case OnPaneClosed(p, _, _) => s.(panes := s.panes - {p})
    case OnFocusChanged(focus) => s.(focus := focus)
    case OnConnected => s
    case OnDisconnected(_) => s
    case _ => if c.paneId !in s.panes then s else SetShown(s, c.paneId, Revised(s.panes[c.paneId], c))
  }

  function Fold(calls: seq<HookCall>): Shown {
    if calls == [] then BLANK else Draw(Fold(calls[..|calls| - 1]), calls[|calls| - 1])
  }

  // ---------------------------------------------------------------------
  // The titles a renderer shows
  // ---------------------------------------------------------------------

  /** A pane is opened without a title and has the last one told since. */
  function Retitle(ts: map<PaneId, Option<string>>, c: HookCall): map<PaneId, Option<string>> {
    match c
    case OnPaneOpened(p, _, _, _, _, _, _, _, _, _, _, _) => ts[p := None]
    case OnPaneTitleChanged(p, title) => if p in ts then ts[p := title] else ts
    case OnPaneClosed(p, _, _) => ts - {p}
    case _ => ts
  }

  function TitlesTold(calls: seq<HookCall>): map<PaneId, Option<string>> {
    if calls == [] then map[] else Retitle(TitlesTold(calls[..|calls| - 1]), calls[|calls| - 1])
  }

  /** Of the models followed, from `k - 1` on all have the pane, and the `k`th gave it another title. */
  predicate MovedAt(history: seq<Model>, k: nat, p: PaneId)
    requires 0 < k < |history|
  {
    && (forall j | k - 1 <= j < |history| :: p in history[j].panes)
    && history[k - 1].panes[p].paneTitle != history[k].panes[p].paneTitle
  }

  /** The pane's title has changed since it was opened. */
  predicate TitleMoved(history: seq<Model>, p: PaneId) {
    exists k :: 0 < k < |history| && MovedAt(history, k, p)
  }

  lemma TitleMovedStep(history: seq<Model>, next: Model, p: PaneId)
    requires history != []
    ensures var last := history[|history| - 1];
      TitleMoved(history + [next], p) <==>
        && p in last.panes && p in next.panes
        && (TitleMoved(history, p) || last.panes[p].paneTitle != next.panes[p].paneTitle)
  {
    var all, n := history + [next], |history|;
    assert forall i | 0 <= i < n :: all[i] == history[i];
    if TitleMoved(history, p) && p in next.panes {
      var k :| 0 < k < n && MovedAt(history, k, p);
      assert MovedAt(all, k, p);
    }
    if TitleMoved(all, p) {
      var k :| 0 < k <= n && MovedAt(all, k, p);
      assert p in all[n - 1].panes && p in all[n].panes;
      assert k < n ==> MovedAt(history, k, p);
    }
    if p in history[n - 1].panes && p in next.panes && history[n - 1].panes[p].paneTitle != next.panes[p].paneTitle {
      assert MovedAt(all, n, p);
    }
  }

  /** What a renderer can know of the titles in the last model. */
  function KnownTitles(history: seq<Model>): map<PaneId, Option<string>>
    requires history != []
  {
    var m := history[|history| - 1];
    map p | p in m.panes :: if TitleMoved(history, p) then m.panes[p].paneTitle else None
  }

  /** A diff opens a new pane without a title and tells one that changed. */
  function NewTitle(ts: map<PaneId, Option<string>>, prev: map<PaneId, Seen>, p: PaneId, pane: ClientPane): Option<string> {
    if p !in prev || p !in ts then None
    else if prev[p].title != pane.paneTitle then pane.paneTitle else ts[p]
  }

  function Retitled(ts: map<PaneId, Option<string>>, prev: map<PaneId, Seen>, curr: map<PaneId, ClientPane>)
    : map<PaneId, Option<string>>
  {
    map p | p in curr :: NewTitle(ts, prev, p, curr[p])
  }

  lemma RetitledAt(ts: map<PaneId, Option<string>>, prev: map<PaneId, Seen>, curr: map<PaneId, ClientPane>)
    ensures Retitled(ts, prev, curr).Keys == curr.Keys
    ensures forall p <- curr ::
      p in Retitled(ts, prev, curr) && Retitled(ts, prev, curr)[p] == NewTitle(ts, prev, p, curr[p])
  {
  }

  lemma RetitledFollows(history: seq<Model>, next: Model)
    requires history != []
    ensures var last := history[|history| - 1];
      && KnownTitles(history).Keys == last.panes.Keys == SeenPanes(last.panes).Keys
      && Retitled(KnownTitles(history), SeenPanes(last.panes), next.panes) == KnownTitles(history + [next])
  {
    hide TitleMoved, ViewOfPane;
    forall p: PaneId
      ensures var last := history[|history| - 1];
        TitleMoved(history + [next], p) <==>
          && p in last.panes && p in next.panes
          && (TitleMoved(history, p) || last.panes[p].paneTitle != next.panes[p].paneTitle)
    {
      TitleMovedStep(history, next, p);
    }
  }

  lemma NothingKnownAtFirst(m: Model)
    ensures KnownTitles([m]) == map p | p in m.panes :: None
  {
  }

  // ---------------------------------------------------------------------
  // Maps visited one key at a time
  // ---------------------------------------------------------------------

  function Restrict<K, V>(m: map<K, V>, keys: set<K>): map<K, V> {
    map k | k in m && k in keys :: m[k]
  }

  lemma RestrictStep<K, V>(before: map<K, V>, m: map<K, V>, done: set<K>, k: K)
    requires k in m
    ensures before + Restrict(m, done + {k}) == (before + Restrict(m, done))[k := m[k]]
  {
  }

  lemma RestrictRest<K, V>(before: map<K, V>, m: map<K, V>, done: set<K>, k: K)
    requires k !in done
    ensures k in before + Restrict(m, done) <==> k in before
    ensures k in before ==> (before + Restrict(m, done))[k] == before[k]
  {
  }

  lemma OneMoreShown(s: Shown, before: map<PaneId, PaneView>, shown: map<PaneId, PaneView>, done: set<PaneId>, p: PaneId)
    requires p in shown
    ensures SetShown(s.(panes := before + Restrict(shown, done)), p, shown[p])
         == s.(panes := before + Restrict(shown, done + {p}))
  {
    RestrictStep(before, shown, done, p);
  }

  lemma RestrictNone<K, V>(before: map<K, V>, m: map<K, V>)
    ensures before + Restrict(m, {}) == before
  {
    assert Restrict(m, {}) == map[];
  }

  lemma RestrictAll<K, V>(m: map<K, V>)
    ensures Restrict(m, m.Keys) == m
  {
  }

  /** Setting every new entry and dropping every stale one gives the new map. */
  lemma Replaced<K, V>(before: map<K, V>, m: map<K, V>)
    ensures before + m - (before.Keys - m.Keys) == m
  {
  }

  /** What is left of `all` when the stale entries outside `todo` are dropped. */
  function Pruned<K, V>(all: map<K, V>, prev: set<K>, todo: set<K>, curr: set<K>): map<K, V> {
    all - (prev - todo - curr)
  }

  lemma PrunedStep<K, V>(all: map<K, V>, prev: set<K>, todo: set<K>, curr: set<K>, k: K)
    requires k in todo && todo <= prev
    ensures Pruned(all, prev, todo - {k}, curr)
         == if k in curr then Pruned(all, prev, todo, curr) else Pruned(all, prev, todo, curr) - {k}
  {
    assert prev - (todo - {k}) - curr == if k in curr then prev - todo - curr else prev - todo - curr + {k};
  }

  lemma PrunedEnds<K, V>(all: map<K, V>, prev: set<K>, curr: set<K>)
    ensures Pruned(all, prev, prev, curr) == all
    ensures Pruned(all, prev, {}, curr) == all - (prev - curr)
  {
    var none: set<K> := {};
    assert (prev - none) - curr == prev - curr;
  }

  // ---------------------------------------------------------------------
  // The closure state of one attach
  // ---------------------------------------------------------------------

  /** What prevModel keeps of a pane: all that is compared. */
  datatype Seen = Seen(view: PaneView, title: Option<string>)

  function SeenPanes(ps: map<PaneId, ClientPane>): map<PaneId, Seen> {
    map p | p in ps :: Seen(ViewOfPane(ps[p]), ps[p].paneTitle)
  }

  lemma SeenViews(ps: map<PaneId, ClientPane>)
    ensures (map p | p in SeenPanes(ps) :: SeenPanes(ps)[p].view) == PaneViews(ps)
    ensures SeenPanes(ps).Keys == ps.Keys
  {
  }

  predicate NoTitles(calls: seq<HookCall>) {
    forall i | 0 <= i < |calls| :: !calls[i].OnPaneTitleChanged?
  }

  // ---------------------------------------------------------------------
  // What justifies a callback
  // ---------------------------------------------------------------------

  /** The news is of this pane, it is news, and it says what the pane now is. */
  predicate TellsPane(c: HookCall, seen: Seen, pane: ClientPane)
    requires RevisesPane(c)
  {
    match c
    case OnPaneResized(_, cols, rows) =>
      cols == pane.cols && rows == pane.rows && (cols != seen.view.cols || rows != seen.view.rows)
    case OnPaneMoved(_, home) => home == pane.windowId != seen.view.windowId
    case OnPaneDeadChanged(_, dead, exitCode) =>
      dead == pane.dead && exitCode == pane.exitCode && (dead != seen.view.dead || exitCode != seen.view.exitCode)
    case OnPaneLabelChanged(_, paneLabel) => paneLabel == pane.paneLabel != seen.view.paneLabel
    case OnPanePolicyChanged(_, bound, detach, icon) =>
      && bound == pane.bound && detach == pane.detach && icon == pane.icon
      && (bound != seen.view.bound || detach != seen.view.detach || icon != seen.view.icon)
    case OnPaneTitleChanged(_, title) => title == pane.paneTitle != seen.title
  }

  /** Between what was seen before and the model now, this callback is due and says what is so. */
  predicate Fits(c: HookCall, windows: map<WindowId, ShownWindow>, panes: map<PaneId, Seen>, m: Model) {
    match c
    case OnWindowAdded(w, name, active, layout) =>
      && w !in windows && w in m.windows
      && name == m.windows[w].name && active == m.windows[w].active && layout == m.windows[w].layout
    case OnLayoutChanged(w, layout) => w in m.windows && layout == m.windows[w].layout
    case OnWindowRenamed(w, name) =>
      w in windows && w in m.windows && name == m.windows[w].name != windows[w].name
    case OnWindowClosed(w) => w in windows && w !in m.windows
    case OnPaneOpened(p, home, cols, rows, active, origin, bornDead, exitCode, paneLabel, bornBound, detach, icon) =>
      && p !in panes && p in m.panes
      && var pane := m.panes[p];
      && home == pane.windowId && cols == pane.cols && rows == pane.rows
      && (active <==> m.focus.paneId == Some(p)) && origin == pane.origin
      && OrElse(bornDead, false) == pane.dead && exitCode == pane.exitCode
      && paneLabel == pane.paneLabel && OrElse(bornBound, false) == pane.bound && detach == pane.detach && icon == pane.icon
    case OnPaneClosed(p, exitCode, cause) =>
      p in panes && p !in m.panes && exitCode == Lookup(m.exitCodes, p) && cause == Lookup(m.closeCauses, p)
    case OnFocusChanged(_) => false
    case OnConnected => false
    case OnDisconnected(_) => false
    case _ => c.paneId in panes && c.paneId in m.panes && TellsPane(c, panes[c.paneId], m.panes[c.paneId])
  }

  /** Each comparison that finds a difference has something due to tell. */
  lemma ComparisonsFit(id: PaneId, prev: Seen, pane: ClientPane,
                       windows: map<WindowId, ShownWindow>, panes: map<PaneId, Seen>, m: Model)
    requires SoundPane(pane) && id in panes && panes[id] == prev && id in m.panes && m.panes[id] == pane
    ensures var v := prev.view;
      && (v.cols != pane.cols || v.rows != pane.rows ==> Fits(OnPaneResized(id, pane.cols, pane.rows), windows, panes, m))
      && (v.windowId != pane.windowId ==> Fits(OnPaneMoved(id, pane.windowId), windows, panes, m))
      && (v.dead != pane.dead || v.exitCode != pane.exitCode ==>
            Fits(OnPaneDeadChanged(id, pane.dead, if pane.dead then pane.exitCode else None), windows, panes, m))
      && (v.paneLabel != pane.paneLabel ==> Fits(OnPaneLabelChanged(id, pane.paneLabel), windows, panes, m))
      && (v.bound != pane.bound || v.detach != pane.detach || v.icon != pane.icon ==>
            Fits(OnPanePolicyChanged(id, pane.bound, pane.detach, pane.icon), windows, panes, m))
      && (prev.title != pane.paneTitle ==> Fits(OnPaneTitleChanged(id, pane.paneTitle), windows, panes, m))
  {
  }

  /** What was told from `from` on: due callbacks, and last the focus if and only if it moved. */
  predicate Reports(calls: seq<HookCall>, from: nat,
                    windows: map<WindowId, ShownWindow>, panes: map<PaneId, Seen>, focus: Focus, m: Model)
  {
    var end := if focus != m.focus then |calls| - 1 else |calls|;
    && from <= end && (end < |calls| ==> calls[end] == OnFocusChanged(m.focus))
    && forall i | from <= i < end :: Fits(calls[i], windows, panes, m)
  }

  /** A catch-up: everything is due to a renderer that has seen nothing; then the focus and the connection. */
  predicate CatchesUp(calls: seq<HookCall>, m: Model) {
    && |calls| >= 2 && calls[|calls| - 1] == OnConnected && calls[|calls| - 2] == OnFocusChanged(m.focus)
    && forall i | 0 <= i < |calls| - 2 :: Fits(calls[i], map[], map[], m)
  }

  lemma CatchUpTellsNoTitle(calls: seq<HookCall>, m: Model)
    requires CatchesUp(calls, m)
    ensures NoTitles(calls)
  {
    forall i | 0 <= i < |calls| ensures !calls[i].OnPaneTitleChanged? {
      if i < |calls| - 2 {
        assert Fits(calls[i], map[], map[], m);
      }
    }
  }

  class HookFeed {
    var prevWindows: map<WindowId, ShownWindow>
    var prevPanes: map<PaneId, Seen>
    var prevFocus: Focus
    var subscribed: set<PaneId>      // keys of byteUnsubs
    var detached: bool
    var calls: seq<HookCall>         // everything the hook was told, in order
    ghost var history: seq<Model>    // the models followed, in order

    ghost function Titles(): map<PaneId, Option<string>>
      reads this`calls
    {
      TitlesTold(calls)
    }

    ghost function Picture(): Shown
      reads this`calls
    {
      Fold(calls)
    }

    /** prevModel is this model, the last one followed. */
    ghost predicate Remembers(m: Model)
      reads this`prevWindows, this`prevPanes, this`prevFocus, this`history
    {
      && history != [] && history[|history| - 1] == m
      && prevWindows == ShownWindows(m.windows) && prevPanes == SeenPanes(m.panes) && prevFocus == m.focus
    }

    /** The renderer holds exactly this model, what it was told of its titles, and listens to exactly its panes. */
    ghost predicate Follows(m: Model)
      reads this
    {
      && !detached
      && Picture() == Shows(m)
      && subscribed == m.panes.Keys
      && Remembers(m)
      && Titles() == KnownTitles(history)
    }

    /** Every callback from `from` on was due for model `m`. */
    ghost predicate Fitting(from: nat, m: Model)
      reads this`calls, this`prevWindows, this`prevPanes
    {
      from <= |calls| && forall i | from <= i < |calls| :: Fits(calls[i], prevWindows, prevPanes, m)
    }

    method EmitFitting(c: HookCall, ghost from: nat, ghost m: Model)
      requires Fitting(from, m) && Fits(c, prevWindows, prevPanes, m)
      modifies this`calls
      ensures calls == old(calls) + [c] && Fitting(from, m)
      ensures Picture() == Draw(old(Picture()), c)
      ensures Titles() == Retitle(old(Titles()), c)
    {
      hide Fits, Fold, TitlesTold, Draw, Retitle;
      Emit(c);
    }

    method Emit(c: HookCall)
      modifies this`calls
      ensures calls == old(calls) + [c]
      ensures Picture() == Draw(old(Picture()), c)
      ensures Titles() == Retitle(old(Titles()), c)
    {
      calls := calls + [c];
      assert calls[..|calls| - 1] == old(calls);
    }

    /** onPaneOpened, then the byte subscription. */
    method OpenPane(id: PaneId, pane: ClientPane, focus: Focus, ghost from: nat, ghost m: Model)
      requires SoundPane(pane)
      requires Fitting(from, m) && id !in prevPanes && id in m.panes && pane == m.panes[id] && focus == m.focus
      modifies this`calls, this`subscribed
      ensures old(calls) <= calls
      ensures Picture() == SetShown(old(Picture()), id, ViewOfPane(pane))
      ensures Titles() == old(Titles())[id := None]
      ensures subscribed == old(subscribed) + {id}
      ensures Fitting(from, m)
    {
      hide Fold, TitlesTold;
      EmitFitting(OnPaneOpened(id, pane.windowId, pane.cols, pane.rows, Some(id) == focus.paneId, pane.origin,
                               if pane.dead then Some(true) else None,
                               if pane.dead then pane.exitCode else None,
                               pane.paneLabel, if pane.bound then Some(true) else None, pane.detach, pane.icon), from, m);
      subscribed := subscribed + {id};
    }

    /** Tell the hook about one compared group of fields if it differs. */
    method EmitIf(differs: bool, c: HookCall, ghost s: Shown, ghost v: PaneView, ghost from: nat, ghost m: Model)
      returns (ghost after: PaneView)
      requires RevisesPane(c) && Picture() == SetShown(s, c.paneId, v)
      requires Fitting(from, m) && (differs ==> Fits(c, prevWindows, prevPanes, m))
      modifies this`calls
      ensures after == RevisedIf(differs, v, c) && Picture() == SetShown(s, c.paneId, after)
      ensures !c.OnPaneTitleChanged? ==> Titles() == old(Titles())
      ensures c.OnPaneTitleChanged? && c.paneId in old(Titles()) ==>
        Titles() == if differs then old(Titles())[c.paneId := c.title] else old(Titles())
      ensures old(calls) <= calls
      ensures Fitting(from, m)
    {
      hide Fold, TitlesTold, Revised;
      after := RevisedIf(differs, v, c);
      if differs {
        EmitFitting(c, from, m);
        assert s.panes[c.paneId := v][c.paneId := Revised(v, c)] == s.panes[c.paneId := Revised(v, c)];
      }
    }

    /** The comparisons of applyModelDiff for a pane seen before ... */
    method ComparePane(id: PaneId, prev: Seen, pane: ClientPane, ghost from: nat, ghost m: Model)
      requires SoundPane(pane) && id in Picture().panes && Picture().panes[id] == prev.view && id in Titles()
      requires Fitting(from, m) && id in prevPanes && prev == prevPanes[id] && id in m.panes && pane == m.panes[id]
      modifies this`calls
      ensures Picture() == SetShown(old(Picture()), id, ViewOfPane(pane))
      ensures Titles()
           == old(Titles())[id := if prev.title != pane.paneTitle then pane.paneTitle else old(Titles())[id]]
      ensures old(calls) <= calls
      ensures Fitting(from, m)
    {
      ghost var s := Picture();
      ComparisonsFit(id, prev, pane, prevWindows, prevPanes, m);
      hide Fold, TitlesTold, Draw, Retitle, SetShown, RevisedIf, ViewOfPane, Fits;
      CompareView(id, prev, pane, from, m);
      ghost var v := EmitIf(prev.title != pane.paneTitle, OnPaneTitleChanged(id, pane.paneTitle), s, ViewOfPane(pane), from, m);
      UnrevisedTitle(prev.title != pane.paneTitle, ViewOfPane(pane), id, pane.paneTitle);
    }

    /** ... all but the last, the title's. */
    method CompareView(id: PaneId, prev: Seen, pane: ClientPane, ghost from: nat, ghost m: Model)
      requires SoundPane(pane) && id in Picture().panes && Picture().panes[id] == prev.view
      requires Fitting(from, m) && id in prevPanes && prev == prevPanes[id] && id in m.panes && pane == m.panes[id]
      modifies this`calls
      ensures Picture() == SetShown(old(Picture()), id, ViewOfPane(pane))
      ensures Titles() == old(Titles())
      ensures old(calls) <= calls
      ensures Fitting(from, m)
    {
      var v := prev.view;
      ghost var s := Picture();
      assert SetShown(s, id, v) == s by {
        assert s.panes[id := v] == s.panes;
      }
      ComparedInTurn(v, pane, id);
      ComparisonsFit(id, prev, pane, prevWindows, prevPanes, m);
      hide Picture, Titles, Fitting, SetShown, RevisedIf, ViewOfPane, Fits, SoundPane;
      ghost var v3 := ComparePlace(id, prev, pane, s, from, m);
      ghost var v4 := EmitIf(v.paneLabel != pane.paneLabel, OnPaneLabelChanged(id, pane.paneLabel), s, v3, from, m);
      ghost var v5 := EmitIf(v.bound != pane.bound || v.detach != pane.detach || v.icon != pane.icon,
                             OnPanePolicyChanged(id, pane.bound, pane.detach, pane.icon), s, v4, from, m);
    }

    /** The first three: size, window, dead or alive. */
    method ComparePlace(id: PaneId, prev: Seen, pane: ClientPane, ghost s: Shown, ghost from: nat, ghost m: Model)
      returns (ghost v3: PaneView)
      requires SoundPane(pane) && Picture() == SetShown(s, id, prev.view)
      requires Fitting(from, m) && id in prevPanes && prev == prevPanes[id] && id in m.panes && pane == m.panes[id]
      modifies this`calls
      ensures Picture() == SetShown(s, id, v3) && Titles() == old(Titles())
      ensures var v := prev.view;
        v3 == RevisedIf(v.dead != pane.dead || v.exitCode != pane.exitCode,
                        RevisedIf(v.windowId != pane.windowId,
                                  RevisedIf(v.cols != pane.cols || v.rows != pane.rows, v, OnPaneResized(id, pane.cols, pane.rows)),
                                  OnPaneMoved(id, pane.windowId)),
                        OnPaneDeadChanged(id, pane.dead, if pane.dead then pane.exitCode else None))
      ensures old(calls) <= calls
      ensures Fitting(from, m)
    {
      ComparisonsFit(id, prev, pane, prevWindows, prevPanes, m);
      hide Picture, Titles, Fitting, SetShown, RevisedIf, ViewOfPane, Fits, SoundPane;
      var v := prev.view;
      ghost var v1 := EmitIf(v.cols != pane.cols || v.rows != pane.rows, OnPaneResized(id, pane.cols, pane.rows), s, v, from, m);
      ghost var v2 := EmitIf(v.windowId != pane.windowId, OnPaneMoved(id, pane.windowId), s, v1, from, m);
      v3 := EmitIf(v.dead != pane.dead || v.exitCode != pane.exitCode,
                   OnPaneDeadChanged(id, pane.dead, if pane.dead then pane.exitCode else None), s, v2, from, m);
    }

    method OpenWindow(w: WindowId, win: ClientWindow, ghost from: nat, ghost m: Model)
      requires Fitting(from, m) && w !in prevWindows && w in m.windows && win == m.windows[w]
      modifies this`calls
      ensures old(calls) <= calls
      ensures Picture() == old(Picture()).(windows := old(Picture().windows)[w := ShownWindow(win.name, win.layout)])
      ensures Titles() == old(Titles())
      ensures Fitting(from, m)
    {
      hide Fold, TitlesTold;
      EmitFitting(OnWindowAdded(w, win.name, win.active, win.layout), from, m);
      EmitFitting(OnLayoutChanged(w, win.layout), from, m);
      ghost var ws := old(Picture().windows);
      ghost var shown := ShownWindow(win.name, win.layout);
      assert ws[w := shown][w := shown] == ws[w := shown];
    }

    /** Layouts are compared by reference: an equal one may be reported again. */
    method CompareWindow(w: WindowId, prev: ShownWindow, win: ClientWindow, ghost from: nat, ghost m: Model)
      requires w in Picture().windows && Picture().windows[w] == prev
      requires Fitting(from, m) && w in prevWindows && prev == prevWindows[w] && w in m.windows && win == m.windows[w]
      modifies this`calls
      ensures old(calls) <= calls
      ensures Picture() == old(Picture()).(windows := old(Picture().windows)[w := ShownWindow(win.name, win.layout)])
      ensures Titles() == old(Titles())
      ensures Fitting(from, m)
    {
      hide Fold, TitlesTold;
      ghost var ws := Picture().windows;
      if prev.name != win.name {
        EmitFitting(OnWindowRenamed(w, win.name), from, m);
      }
      assert Picture().windows == ws[w := prev.(name := win.name)];
      var anotherObject: bool := *;
      if prev.layout != win.layout || anotherObject {
        EmitFitting(OnLayoutChanged(w, win.layout), from, m);
      }
      assert Picture().windows == ws[w := ShownWindow(win.name, win.layout)];
    }

    method DiffWindows(curr: map<WindowId, ClientWindow>, ghost from: nat, ghost m: Model)
      requires Picture().windows == prevWindows
      requires Fitting(from, m) && curr == m.windows
      modifies this`calls
      ensures old(calls) <= calls
      ensures Picture() == old(Picture()).(windows := ShownWindows(curr))
      ensures Titles() == old(Titles())
      ensures Fitting(from, m)
    {
      hide Fold, TitlesTold, Draw, Restrict;
      ghost var start, shown := Picture(), ShownWindows(curr);
      var todo := curr.Keys;
      RestrictNone(prevWindows, shown);
      assert curr.Keys - todo == {};
      while todo != {}
        invariant todo <= curr.Keys
        invariant Picture() == start.(windows := prevWindows + Restrict(shown, curr.Keys - todo))
        invariant Titles() == old(Titles())
        invariant forall k <- todo :: k in Picture().windows <==> k in prevWindows
        invariant forall k <- todo | k in prevWindows :: Picture().windows[k] == prevWindows[k]
        invariant old(calls) <= calls && Fitting(from, m)
        decreases todo
      {
        var w :| w in todo;
        RestrictStep(prevWindows, shown, curr.Keys - todo, w);
        assert curr.Keys - (todo - {w}) == curr.Keys - todo + {w};
        if w in prevWindows {
          CompareWindow(w, prevWindows[w], curr[w], from, m);
        } else {
          OpenWindow(w, curr[w], from, m);
        }
        todo := todo - {w};
      }
      assert curr.Keys - todo == shown.Keys;
      RestrictAll(shown);
      CloseWindows(curr, shown, from, m);
      Replaced(prevWindows, shown);
    }

    method CloseWindows(curr: map<WindowId, ClientWindow>, ghost shown: map<WindowId, ShownWindow>, ghost from: nat, ghost m: Model)
      requires Picture().windows == prevWindows + shown && shown.Keys == curr.Keys
      requires Fitting(from, m) && curr == m.windows
      modifies this`calls
      ensures old(calls) <= calls
      ensures Picture() == old(Picture()).(windows := prevWindows + shown - (prevWindows.Keys - curr.Keys))
      ensures Titles() == old(Titles())
      ensures Fitting(from, m)
    {
      hide Fold, TitlesTold, Pruned;
      ghost var start := Picture();
      var todo := prevWindows.Keys;
      PrunedEnds(prevWindows + shown, prevWindows.Keys, curr.Keys);
      while todo != {}
        invariant todo <= prevWindows.Keys
        invariant Picture() == start.(windows := Pruned(prevWindows + shown, prevWindows.Keys, todo, curr.Keys))
        invariant Titles() == old(Titles())
        invariant old(calls) <= calls && Fitting(from, m)
        decreases todo
      {
        var w :| w in todo;
        PrunedStep(prevWindows + shown, prevWindows.Keys, todo, curr.Keys, w);
        if w !in curr {
          EmitFitting(OnWindowClosed(w), from, m);
        }
        todo := todo - {w};
      }
    }

    ghost function PrevViews(): map<PaneId, PaneView>
      reads this`prevPanes
    {
      map p | p in prevPanes :: prevPanes[p].view
    }

    method ShowPane(id: PaneId, pane: ClientPane, focus: Focus, ghost from: nat, ghost m: Model)
      requires SoundPane(pane)
      requires id in prevPanes ==>
        id in Picture().panes && Picture().panes[id] == prevPanes[id].view && id in Titles()
      requires Fitting(from, m) && id in m.panes && pane == m.panes[id] && focus == m.focus
      modifies this`calls, this`subscribed
      ensures Picture() == SetShown(old(Picture()), id, ViewOfPane(pane))
      ensures Titles() == old(Titles())[id := NewTitle(old(Titles()), prevPanes, id, pane)]
      ensures subscribed == old(subscribed) + {id} || (id in prevPanes && subscribed == old(subscribed))
      ensures old(calls) <= calls
      ensures Fitting(from, m)
    {
      hide Fold, TitlesTold, ViewOfPane;
      if id in prevPanes {
        ComparePane(id, prevPanes[id], pane, from, m);
      } else {
        OpenPane(id, pane, focus, from, m);
      }
    }

    method DiffPanes(curr: Model, ghost from: nat)
      requires WellFormed(curr) && Picture().panes == PrevViews() && subscribed == prevPanes.Keys == Titles().Keys
      requires Fitting(from, curr)
      modifies this`calls, this`subscribed
      ensures old(calls) <= calls
      ensures Picture() == old(Picture()).(panes := PaneViews(curr.panes))
      ensures Titles() == Retitled(old(Titles()), prevPanes, curr.panes)
      ensures subscribed == curr.panes.Keys
      ensures Fitting(from, curr)
    {
      hide Fold, TitlesTold, ViewOfPane, NewTitle;
      ghost var shown, told := PaneViews(curr.panes), Retitled(Titles(), prevPanes, curr.panes);
      Replaced(PrevViews(), shown);
      Replaced(Titles(), told);
      ShowPanes(curr, from, shown, told);
      ClosePanes(curr, from, shown);
    }

    method ShowPanes(curr: Model, ghost from: nat, ghost shown: map<PaneId, PaneView>, ghost told: map<PaneId, Option<string>>)
      requires WellFormed(curr) && Picture().panes == PrevViews() && subscribed == prevPanes.Keys == Titles().Keys
      requires shown == PaneViews(curr.panes) && told == Retitled(Titles(), prevPanes, curr.panes)
      requires Fitting(from, curr)
      modifies this`calls, this`subscribed
      ensures old(calls) <= calls
      ensures Picture() == old(Picture()).(panes := PrevViews() + shown)
      ensures Titles() == old(Titles()) + told
      ensures subscribed == prevPanes.Keys + curr.panes.Keys
      ensures Fitting(from, curr)
    {
      hide Picture, Titles, Fitting, Fits, Retitled, Restrict, ViewOfPane, SetShown;
      ghost var start, before, untold := Picture(), PrevViews(), Titles();
      var todo := curr.panes.Keys;
      RestrictNone(before, shown);
      RestrictNone(untold, told);
      RetitledAt(untold, prevPanes, curr.panes);
      assert curr.panes.Keys - todo == {};
      while todo != {}
        invariant todo <= curr.panes.Keys
        invariant Picture() == start.(panes := before + Restrict(shown, curr.panes.Keys - todo))
        invariant Titles() == untold + Restrict(told, curr.panes.Keys - todo)
        invariant subscribed == prevPanes.Keys + (curr.panes.Keys - todo)
        invariant old(calls) <= calls && Fitting(from, curr)
        decreases todo
      {
        var p :| p in todo;
        ghost var done := curr.panes.Keys - todo;
        assert curr.panes.Keys - (todo - {p}) == done + {p};
        OneMoreShown(start, before, shown, done, p);
        RestrictStep(untold, told, done, p);
        RestrictRest(before, shown, done, p);
        RestrictRest(untold, told, done, p);
        ShowPane(p, curr.panes[p], curr.focus, from, curr);
        todo := todo - {p};
      }
      assert curr.panes.Keys - todo == shown.Keys == told.Keys;
      RestrictAll(shown);
      RestrictAll(told);
    }

    method ClosePane(id: PaneId, exitCode: Option<int>, cause: Option<Origin>, ghost from: nat, ghost m: Model)
      requires Fitting(from, m) && Fits(OnPaneClosed(id, exitCode, cause), prevWindows, prevPanes, m)
      modifies this`calls, this`subscribed
      ensures old(calls) <= calls
      ensures Picture() == old(Picture()).(panes := old(Picture()).panes - {id})
      ensures Titles() == old(Titles()) - {id}
      ensures subscribed == old(subscribed) - {id}
      ensures Fitting(from, m)
    {
      hide Fold, TitlesTold;
      EmitFitting(OnPaneClosed(id, exitCode, cause), from, m);
      subscribed := subscribed - {id};
    }

    method ClosePanes(curr: Model, ghost from: nat, ghost shown: map<PaneId, PaneView>)
      requires Picture().panes == PrevViews() + shown && shown.Keys == curr.panes.Keys
      requires subscribed == prevPanes.Keys + curr.panes.Keys
      requires Fitting(from, curr)
      modifies this`calls, this`subscribed
      ensures old(calls) <= calls
      ensures Picture() == old(Picture()).(panes := PrevViews() + shown - (prevPanes.Keys - curr.panes.Keys))
      ensures Titles() == old(Titles()) - (prevPanes.Keys - curr.panes.Keys)
      ensures subscribed == curr.panes.Keys
      ensures Fitting(from, curr)
    {
      hide Picture, Titles, Fitting, Pruned;
      ghost var start, all := Picture(), PrevViews() + shown;
      var todo := prevPanes.Keys;
      PrunedEnds(all, prevPanes.Keys, curr.panes.Keys);
      ghost var told := Titles();
      PrunedEnds(told, prevPanes.Keys, curr.panes.Keys);
      while todo != {}
        invariant todo <= prevPanes.Keys
        invariant Picture() == start.(panes := Pruned(all, prevPanes.Keys, todo, curr.panes.Keys))
        invariant Titles() == Pruned(told, prevPanes.Keys, todo, curr.panes.Keys)
        invariant subscribed == todo + curr.panes.Keys
        invariant old(calls) <= calls && Fitting(from, curr)
        decreases todo
      {
        var p :| p in todo;
        PrunedStep(all, prevPanes.Keys, todo, curr.panes.Keys, p);
        PrunedStep(told, prevPanes.Keys, todo, curr.panes.Keys, p);
        if p !in curr.panes {
          ClosePane(p, Lookup(curr.exitCodes, p), Lookup(curr.closeCauses, p), from, curr);
        }
        todo := todo - {p};
      }
    }

    method Refocus(focus: Focus)
      modifies this`calls
      ensures Picture() == old(Picture()).(focus := focus)
      ensures Titles() == old(Titles())
      ensures old(calls) <= calls
      ensures calls == old(calls) + [OnFocusChanged(focus)]
    {
      hide Fold, TitlesTold;
      Emit(OnFocusChanged(focus));
    }

    /** The three comparisons of `applyModelDiff`: windows, panes, focus. */
    method Report(curr: Model)
      requires WellFormed(curr)
      requires Picture() == Shown(prevWindows, PrevViews(), prevFocus) && subscribed == prevPanes.Keys == Titles().Keys
      modifies this`calls, this`subscribed
      ensures Picture() == Shows(curr) && subscribed == curr.panes.Keys
      ensures Titles() == Retitled(old(Titles()), prevPanes, curr.panes)
      ensures old(calls) <= calls
      ensures Reports(calls, |old(calls)|, prevWindows, prevPanes, prevFocus, curr)
    {
      hide Fold, TitlesTold, Draw, Retitle, ShownWindows, PaneViews, Retitled, PrevViews, Fits;
      ghost var from := |calls|;
      DiffWindows(curr.windows, from, curr);
      DiffPanes(curr, from);
      if prevFocus != curr.focus {
        Refocus(curr.focus);
      }
    }

    /** prevModel and the models followed after a diff. */
    method Remember(curr: Model)
      modifies this`prevWindows, this`prevPanes, this`prevFocus, this`history
      ensures Remembers(curr) && history == old(history) + [curr]
    {
      prevWindows, prevPanes, prevFocus := ShownWindows(curr.windows), SeenPanes(curr.panes), curr.focus;
      history := history + [curr];
    }

    /** `applyModelDiff`: from following one model to following the next. */
    method ApplyModelDiff(ghost prev: Model, curr: Model)
      requires Follows(prev) && WellFormed(curr)
      modifies this
      ensures Follows(curr) && history == old(history) + [curr]
      ensures old(calls) <= calls
      ensures Reports(calls, |old(calls)|, ShownWindows(prev.windows), SeenPanes(prev.panes), prev.focus, curr)
    {
      hide *;
      WhatIsCompared(this, prev, curr);
      Report(curr);
      Remember(curr);
      NowFollows(this, curr);
    }

    method ReplayWindows(windows: map<WindowId, ClientWindow>, ghost m: Model)
      requires Picture().windows == map[] && windows == m.windows
      requires prevWindows == map[] && Fitting(0, m)
      modifies this`calls
      ensures Picture() == old(Picture()).(windows := ShownWindows(windows))
      ensures Titles() == old(Titles())
      ensures old(calls) <= calls && Fitting(0, m)
    {
      hide Fold, TitlesTold, Draw, Restrict, Fits;
      ghost var start, shown := Picture(), ShownWindows(windows);
      var todo := windows.Keys;
      RestrictNone(map[], shown);
      assert windows.Keys - todo == {};
      while todo != {}
        invariant todo <= windows.Keys
        invariant Picture() == start.(windows := map[] + Restrict(shown, windows.Keys - todo))
        invariant Titles() == old(Titles())
        invariant old(calls) <= calls && Fitting(0, m)
        decreases todo
      {
        var w :| w in todo;
        RestrictStep(map[], shown, windows.Keys - todo, w);
        assert windows.Keys - (todo - {w}) == windows.Keys - todo + {w};
        OpenWindow(w, windows[w], 0, m);
        todo := todo - {w};
      }
      assert windows.Keys - todo == shown.Keys;
      RestrictAll(shown);
      assert map[] + shown == shown;
    }

    method ReplayPanes(panes: map<PaneId, ClientPane>, focus: Focus, ghost m: Model)
      requires Picture().panes == map[] && subscribed == {} && Titles() == map[]
      requires panes == m.panes && focus == m.focus && prevPanes == map[] && Fitting(0, m)
      requires forall p <- panes :: SoundPane(panes[p])
      modifies this`calls, this`subscribed
      ensures Picture() == old(Picture()).(panes := PaneViews(panes))
      ensures Titles() == map p | p in panes :: None
      ensures subscribed == panes.Keys
      ensures old(calls) <= calls && Fitting(0, m)
    {
      hide Fold, TitlesTold, Draw, Restrict, ViewOfPane, Fits;
      ghost var start, shown := Picture(), PaneViews(panes);
      var todo := panes.Keys;
      RestrictNone(map[], shown);
      ghost var told := map p | p in panes :: None;
      RestrictNone(map[], told);
      assert panes.Keys - todo == {};
      while todo != {}
        invariant todo <= panes.Keys
        invariant Picture() == start.(panes := map[] + Restrict(shown, panes.Keys - todo))
        invariant Titles() == map[] + Restrict(told, panes.Keys - todo)
        invariant subscribed == panes.Keys - todo
        invariant old(calls) <= calls && Fitting(0, m)
        decreases todo
      {
        var p :| p in todo;
        RestrictStep(map[], shown, panes.Keys - todo, p);
        RestrictStep(map[], told, panes.Keys - todo, p);
        assert panes.Keys - (todo - {p}) == panes.Keys - todo + {p};
        OpenPane(p, panes[p], focus, 0, m);
        todo := todo - {p};
      }
      assert panes.Keys - todo == shown.Keys == told.Keys;
      RestrictAll(shown);
      RestrictAll(told);
      assert map[] + shown == shown && map[] + told == told;
    }

    method Connect()
      modifies this`calls
      ensures Picture() == old(Picture())
      ensures calls == old(calls) + [OnConnected]
      ensures Titles() == old(Titles())
    {
      hide Fold, TitlesTold;
      Emit(OnConnected);
    }

    /** Replay the model as it stands, to a hook that was told nothing yet. */
    method CatchUp(initial: Model)
      requires WellFormed(initial) && calls == [] && subscribed == {} && prevWindows == map[] && prevPanes == map[]
      modifies this`calls, this`subscribed
      ensures Picture() == Shows(initial) && subscribed == initial.panes.Keys
      ensures Titles() == map p | p in initial.panes :: None
      ensures CatchesUp(calls, initial)
    {
      assert Picture() == BLANK && Titles() == map[];
      hide Fold, TitlesTold, Draw, ShownWindows, PaneViews, Fits;
      ReplayWindows(initial.windows, initial);
      ReplayPanes(initial.panes, initial.focus, initial);
      Refocus(initial.focus);
      Connect();
    }

    /** The catch-up of `attach`: replay the model as it stands, then report the connection. */
    constructor (initial: Model)
      requires WellFormed(initial)
      ensures Follows(initial) && history == [initial]
      ensures CatchesUp(calls, initial)
      ensures NoTitles(calls)   // so the live titles of the panes replayed stay unknown
    {
      prevWindows, prevPanes, prevFocus := map[], map[], initial.focus;
      subscribed, detached, calls, history := {}, false, [], [];
      new;
      NothingKnownAtFirst(initial);
      hide Fold, TitlesTold, ShownWindows, PaneViews, SeenPanes, KnownTitles, CatchesUp, NoTitles, WellFormed;
      CatchUp(initial);
      CatchUpTellsNoTitle(calls, initial);
      Remember(initial);
      assert history == [initial];
    }

    /** The teardown pushed onto attachUnsubs. */
    method Teardown()
      modifies this
      ensures detached && subscribed == {}
      ensures calls == old(calls) + [OnDisconnected("mirror detached")]
      ensures Picture() == old(Picture()) && Titles() == old(Titles()) && history == old(history)
    {
      detached, subscribed := true, {};
      Emit(OnDisconnected("mirror detached"));
    }
  }

  /** A hook that follows a model is ready for the comparisons with the next. */
  lemma WhatIsCompared(feed: HookFeed, prev: Model, curr: Model)
    requires feed.Follows(prev)
    ensures feed.Picture() == Shown(feed.prevWindows, feed.PrevViews(), feed.prevFocus) && !feed.detached
    ensures feed.subscribed == feed.prevPanes.Keys == feed.Titles().Keys && feed.history != []
    ensures feed.prevWindows == ShownWindows(prev.windows) && feed.prevPanes == SeenPanes(prev.panes)
    ensures feed.prevFocus == prev.focus
    ensures Retitled(feed.Titles(), feed.prevPanes, curr.panes) == KnownTitles(feed.history + [curr])
  {
    SeenViews(prev.panes);
    RetitledFollows(feed.history, curr);
  }

  lemma NowFollows(feed: HookFeed, m: Model)
    requires feed.Remembers(m) && !feed.detached && feed.Picture() == Shows(m) && feed.subscribed == m.panes.Keys
    requires feed.Titles() == KnownTitles(feed.history)
    ensures feed.Follows(m)
  {
  }

  /**
   * Titles: a renderer that follows the model shows a pane's live title if and
   * only if the title has changed since the hook opened the pane, or there is
   * none; otherwise it shows none.
   */
  lemma TitleShownExactly(feed: HookFeed, m: Model, p: PaneId)
    requires feed.Follows(m) && p in m.panes
    ensures p in feed.Titles()
    ensures feed.Titles()[p] == m.panes[p].paneTitle <==> TitleMoved(feed.history, p) || m.panes[p].paneTitle.None?
  {
  }

  /** A pane leaves the picture only by onPaneClosed. */
  lemma {:induction false} LeavesByClosing(calls: seq<HookCall>, from: nat, p: PaneId)
    requires from <= |calls| && p in Fold(calls[..from]).panes && p !in Fold(calls).panes
    ensures exists i :: from <= i < |calls| && calls[i].OnPaneClosed? && calls[i].paneId == p
  {
    assert calls[..|calls|] == calls;
    if from < |calls| {
      var k := |calls| - 1;
      if p in Fold(calls[..k]).panes {
        assert calls[k].OnPaneClosed? && calls[k].paneId == p;
      } else {
        assert calls[..k][..from] == calls[..from];
        LeavesByClosing(calls[..k], from, p);
        var i :| from <= i < k && calls[..k][i].OnPaneClosed? && calls[..k][i].paneId == p;
        assert calls[i].OnPaneClosed? && calls[i].paneId == p;
      }
    }
  }

  /**
   * When a pane.closed message takes an open pane out of the model, the hook is
   * told so with the exit code and cause of that message, or, where it has none,
   * with those of an earlier closing of the same id.
   */
  lemma ClosingReported(calls: seq<HookCall>, from: nat, prev: Model, p: PaneId, exitCode: Option<int>, cause: Option<Origin>)
    requires p in prev.panes && from <= |calls| && Fold(calls[..from]) == Shows(prev)
    requires var curr := ApplyDelta(prev, PaneClosed(p, exitCode, cause));
      && Fold(calls) == Shows(curr)
      && Reports(calls, from, ShownWindows(prev.windows), SeenPanes(prev.panes), prev.focus, curr)
    ensures var told := OnPaneClosed(p, if exitCode.Some? then exitCode else Lookup(prev.exitCodes, p),
                                     if cause.Some? then cause else Lookup(prev.closeCauses, p));
      exists i :: from <= i < |calls| && calls[i] == told
  {
    hide Fold, ShownWindows, SeenPanes;
    LeavesByClosing(calls, from, p);
    var i :| from <= i < |calls| && calls[i].OnPaneClosed? && calls[i].paneId == p;
    assert Fits(calls[i], ShownWindows(prev.windows), SeenPanes(prev.panes), ApplyDelta(prev, PaneClosed(p, exitCode, cause)));
  }
}
