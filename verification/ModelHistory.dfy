/**
 * The client's model against the messages it was built from
 * (clients/ts/src/mirror.ts, applySnapshot and applyDelta): what no picture of
 * the panes and windows shows.
 */
module ModelHistory {
  import opened Prelude
  import opened ClientModel

  predicate NoSnapshots(msgs: seq<Body>) {
    forall i | 0 <= i < |msgs| :: !msgs[i].SnapshotBody?
  }

  predicate Listed(s: Snapshot, p: PaneId) {
    exists i :: 0 <= i < |s.panes| && s.panes[i].paneId == p
  }

  /** Opened, or in the snapshot, and not closed since. */
  predicate IsOpen(s: Snapshot, msgs: seq<Body>, p: PaneId) {
    if msgs == [] then Listed(s, p)
    else
      var last := msgs[|msgs| - 1];
      if last.PaneOpened? && last.paneId == p then true
      else if last.PaneClosed? && last.paneId == p then false
      else IsOpen(s, msgs[..|msgs| - 1], p)
  }

  /** The latest message that closed the open pane with an exit code. */
  function LastExit(s: Snapshot, msgs: seq<Body>, p: PaneId): Option<int> {
    if msgs == [] then None
    else
      var front, last := msgs[..|msgs| - 1], msgs[|msgs| - 1];
      if last.PaneClosed? && last.paneId == p && last.exitCode.Some? && IsOpen(s, front, p) then last.exitCode
      else LastExit(s, front, p)
  }

  /** The latest message that closed the open pane with a cause. */
  function LastCause(s: Snapshot, msgs: seq<Body>, p: PaneId): Option<Origin> {
    if msgs == [] then None
    else
      var front, last := msgs[..|msgs| - 1], msgs[|msgs| - 1];
      if last.PaneClosed? && last.paneId == p && last.cause.Some? && IsOpen(s, front, p) then last.cause
      else LastCause(s, front, p)
  }

  /** The origin the pane was last opened with; a snapshot gives none. */
  function OpenedBy(msgs: seq<Body>, p: PaneId): Option<Origin> {
    if msgs == [] then None
    else
      var last := msgs[|msgs| - 1];
      if last.PaneOpened? && last.paneId == p then last.origin else OpenedBy(msgs[..|msgs| - 1], p)
  }

  /** The last mode told since the pane was opened. */
  function LastMode(msgs: seq<Body>, p: PaneId): string {
    if msgs == [] then "normal"
    else
      var last := msgs[|msgs| - 1];
      if last.PaneOpened? && last.paneId == p then "normal"
      else if last.PaneModeChanged? && last.paneId == p then last.mode
      else LastMode(msgs[..|msgs| - 1], p)
  }

  function LastCount(s: Snapshot, msgs: seq<Body>): Option<int> {
    if msgs == [] then s.attachedClientCount
    else
      var last := msgs[|msgs| - 1];
      if last.ClientCountChanged? then Some(last.count) else LastCount(s, msgs[..|msgs| - 1])
  }

  lemma {:induction false} SnapshotPanes(ps: seq<SnapshotPane>, p: PaneId)
    ensures p in PanesOf(ps) <==> exists i :: 0 <= i < |ps| && ps[i].paneId == p
    ensures p in PanesOf(ps) ==> PanesOf(ps)[p].origin.None? && PanesOf(ps)[p].mode == "normal"
  {
    if ps != [] {
      var k := |ps| - 1;
      SnapshotPanes(ps[..k], p);
      if exists i :: 0 <= i < |ps| && ps[i].paneId == p {
        var i :| 0 <= i < |ps| && ps[i].paneId == p;
        assert i < k ==> ps[..k][i].paneId == p;
      }
    }
  }

  predicate OfPanes(b: Body) {
    b.PaneOpened? || b.PaneClosed? || b.PaneDeadChanged? || b.PaneResized? || b.PaneMoved? || b.PaneLabelChanged?
    || b.PanePolicyChanged? || b.PaneTitleChanged? || b.PaneModeChanged?
  }

  lemma OtherPanesStay(m: Model, b: Body)
    requires !OfPanes(b)
    ensures ApplyDelta(m, b).panes == m.panes
  {
    hide Activate;
  }

  /** How one message changes what is remembered of a pane. */
  lemma DeltaRemembers(m: Model, b: Body, p: PaneId)
    requires !b.SnapshotBody?
    ensures var after := ApplyDelta(m, b);
      var about := (b.PaneOpened? || b.PaneClosed? || b.PaneModeChanged?) && b.paneId == p;
      && (p in after.panes <==> (about && b.PaneOpened?) || (p in m.panes && !(about && b.PaneClosed?)))
      && (p in after.panes ==> after.panes[p].origin == if about && b.PaneOpened? then b.origin else m.panes[p].origin)
      && (p in after.panes ==>
            after.panes[p].mode == if !about then m.panes[p].mode else if b.PaneOpened? then "normal" else b.mode)
  {
    if !OfPanes(b) {
      OtherPanesStay(m, b);
      hide ApplyDelta;
    } else {
      PaneRemembers(m, b, p);
      hide ApplyDelta;
    }
  }

  lemma PaneRemembers(m: Model, b: Body, p: PaneId)
    requires OfPanes(b)
    ensures var after := ApplyDelta(m, b);
      var about := (b.PaneOpened? || b.PaneClosed? || b.PaneModeChanged?) && b.paneId == p;
      && (p in after.panes <==> (about && b.PaneOpened?) || (p in m.panes && !(about && b.PaneClosed?)))
      && (p in after.panes ==> after.panes[p].origin == if about && b.PaneOpened? then b.origin else m.panes[p].origin)
      && (p in after.panes ==>
            after.panes[p].mode == if !about then m.panes[p].mode else if b.PaneOpened? then "normal" else b.mode)
  {
    if !b.PaneOpened? && !b.PaneClosed? && !b.PaneModeChanged? {
      RevisionRemembers(m, b, p);
      hide ApplyDelta;
    }
  }

  /** The other pane messages leave membership, origin and mode alone. */
  lemma RevisionRemembers(m: Model, b: Body, p: PaneId)
    requires OfPanes(b) && !b.PaneOpened? && !b.PaneClosed? && !b.PaneModeChanged?
    ensures var after := ApplyDelta(m, b);
      && (p in after.panes <==> p in m.panes)
      && (p in after.panes ==> after.panes[p].origin == m.panes[p].origin && after.panes[p].mode == m.panes[p].mode)
  {
  }

  lemma DeltaRecords(m: Model, b: Body, p: PaneId)
    requires !b.SnapshotBody?
    ensures var after := ApplyDelta(m, b);
      var closes := b.PaneClosed? && b.paneId == p && p in m.panes;
      && Lookup(after.exitCodes, p) == (if closes && b.exitCode.Some? then b.exitCode else Lookup(m.exitCodes, p))
      && Lookup(after.closeCauses, p) == (if closes && b.cause.Some? then b.cause else Lookup(m.closeCauses, p))
      && after.attachedClientCount == (if b.ClientCountChanged? then Some(b.count) else m.attachedClientCount)
      && after.ownConnectionId == m.ownConnectionId
  {
    hide Activate, SetPane, SetWindow;
    if OfPanes(b) {
      SetPaneRecords(m, p);
    } else {
      SetWindowRecords(m);
    }
  }

  lemma SetPaneRecords(m: Model, p: PaneId)
    ensures forall id, pane :: SetPane(m, id, pane) == m.(panes := SetPane(m, id, pane).panes)
  {
  }

  lemma SetWindowRecords(m: Model)
    ensures forall id, w :: SetWindow(m, id, w) == m.(windows := SetWindow(m, id, w).windows)
  {
  }

  /**
   * For a snapshot and any messages after it: the panes are those open; each
   * keeps the origin it was opened with and its last mode; exit codes and close
   * causes are those of the last closing that gave one; the client count is the
   * last told, and the connection id the snapshot's.
   */
  lemma {:induction false} ModelRemembers(s: Snapshot, msgs: seq<Body>, p: PaneId)
    requires NoSnapshots(msgs)
    ensures var m := ApplyAll(ApplySnapshot(s), msgs);
      && (p in m.panes <==> IsOpen(s, msgs, p))
      && (p in m.panes ==> m.panes[p].origin == OpenedBy(msgs, p) && m.panes[p].mode == LastMode(msgs, p))
      && Lookup(m.exitCodes, p) == LastExit(s, msgs, p)
      && Lookup(m.closeCauses, p) == LastCause(s, msgs, p)
      && m.attachedClientCount == LastCount(s, msgs) && m.ownConnectionId == s.connectionId
  {
    if msgs == [] {
      SnapshotPanes(s.panes, p);
    } else {
      hide ApplyDelta, ApplySnapshot, Lookup;
      var k := |msgs| - 1;
      ModelRemembers(s, msgs[..k], p);
      DeltaRemembers(ApplyAll(ApplySnapshot(s), msgs[..k]), msgs[k], p);
      DeltaRecords(ApplyAll(ApplySnapshot(s), msgs[..k]), msgs[k], p);
    }
  }

  /**
   * The exit code on record when a pane closes is the one its closing message
   * gave, if and only if it gave one or none is on record from an earlier life.
   */
  lemma ClosingCode(s: Snapshot, msgs: seq<Body>, p: PaneId, exitCode: Option<int>, cause: Option<Origin>)
    requires NoSnapshots(msgs) && IsOpen(s, msgs, p)
    ensures var closing := PaneClosed(p, exitCode, cause);
      var m := ApplyAll(ApplySnapshot(s), msgs + [closing]);
      && p !in m.panes
      && (Lookup(m.exitCodes, p) == exitCode <==> exitCode.Some? || LastExit(s, msgs, p).None?)
      && (Lookup(m.closeCauses, p) == cause <==> cause.Some? || LastCause(s, msgs, p).None?)
  {
    var all := msgs + [PaneClosed(p, exitCode, cause)];
    assert all[..|msgs|] == msgs;
    ModelRemembers(s, all, p);
    hide ApplyAll, ApplySnapshot, Lookup;
  }
}
