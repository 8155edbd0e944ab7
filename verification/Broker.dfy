/**
 * The broker's session table and its replication to command-plane clients
 * (packages/driver/src/server-proxy.ts). Each method is one segment between
 * awaits; segments interleave freely, so what Valid says holds at every step.
 */
module Broker {
  import opened Prelude

  type SessionId = string
  type ConnectionId = nat

  datatype Entry = Entry(tmuxId: string, name: string)

  /** A row of `tmux list-sessions`. */
  datatype Row = Row(tmuxId: string, name: string)

  datatype Body =
    | Snapshot(table: map<SessionId, string>, available: bool)   // is the tmux binary there?
    | Added(sessionId: SessionId, name: string)
    | Removed(sessionId: SessionId)
    | Renamed(sessionId: SessionId, newName: string)
    | Response(correlationId: string)
    | Exiting(reason: string)

  /** A stamped message; not delivered when the send threw. */
  datatype Sent = Sent(seqNo: nat, body: Body, delivered: bool)

  /**
   * A connection that finished its handshake. `handedOver` is the startSeq of
   * its session.attach, `owed` how many commands were unanswered then or came
   * after it while the broker still listened.
   */
  datatype Connection = Connection(
    nextSeq: nat, wire: seq<Sent>, inFlight: nat, handedOver: Option<nat>, owed: nat, refusal: Option<nat>)

  // ---------------------------------------------------------------------
  // What a client makes of its messages
  // ---------------------------------------------------------------------

  function Apply(m: map<SessionId, string>, b: Body): map<SessionId, string> {
    match b
    case Snapshot(table, _) => table
    case Added(id, name) => m[id := name]
    case Removed(id) => m - {id}
    case Renamed(id, newName) => if id in m then m[id := newName] else m
    case Response(_) => m
    case Exiting(_) => m
  }

  function Fold(wire: seq<Sent>): map<SessionId, string> {
    if wire == [] then map[]
    else
      var m, last := Fold(wire[..|wire| - 1]), wire[|wire| - 1];
      if last.delivered then Apply(m, last.body) else m
  }

  /** The same, had every message arrived. */
  function FoldSent(wire: seq<Sent>): map<SessionId, string> {
    if wire == [] then map[] else Apply(FoldSent(wire[..|wire| - 1]), wire[|wire| - 1].body)
  }

  /** Some snapshot reached the client. */
  predicate Greeted(wire: seq<Sent>) {
    exists k :: 0 <= k < |wire| && wire[k].delivered && wire[k].body.Snapshot?
  }

  function Names(sessions: map<SessionId, Entry>): map<SessionId, string> {
    map id | id in sessions :: sessions[id].name
  }

  /** A client's messages: the snapshot that greets it, then nothing undelivered that changes a table. */
  predicate ClientWire(wire: seq<Sent>) {
    && wire != [] && wire[0].body.Snapshot?
    && forall k | 0 < k < |wire| :: wire[k].delivered || wire[k].body.Response? || wire[k].body.Exiting?
  }

  /** What was sent to a client adds up to the table, and so does what arrived once a snapshot did. */
  predicate Holds(wire: seq<Sent>, table: map<SessionId, string>) {
    ClientWire(wire) && FoldSent(wire) == table && (Greeted(wire) ==> Fold(wire) == table)
  }

  /** Availability as the last snapshot that arrived has it. */
  function Told(wire: seq<Sent>): Option<bool> {
    if wire == [] then None
    else
      var last := wire[|wire| - 1];
      if last.delivered && last.body.Snapshot? then Some(last.body.available) else Told(wire[..|wire| - 1])
  }

  predicate Informed(wire: seq<Sent>, available: bool) {
    Greeted(wire) ==> Told(wire) == Some(available)
  }

  /** The session was announced as added or removed after the greeting. */
  predicate Touched(wire: seq<Sent>, id: SessionId) {
    exists k :: 0 < k < |wire| && Touches(wire[k].body, id)
  }

  predicate Touches(b: Body, id: SessionId) {
    (b.Added? || b.Removed?) && b.sessionId == id
  }

  predicate AgreeOn(a: map<SessionId, string>, b: map<SessionId, string>, id: SessionId) {
    (id in a <==> id in b) && (id in a ==> a[id] == b[id])
  }

  /** Sequence numbers continue the handshake's 1 without a gap. */
  predicate Numbered(c: Connection) {
    c.nextSeq == |c.wire| + 2 && forall k | 0 <= k < |c.wire| :: c.wire[k].seqNo == k + 2
  }

  /** What follows a handover can only be answers to commands that were in flight. */
  predicate HandoverSound(c: Connection) {
    c.handedOver.Some? ==>
      && 2 <= c.handedOver.value <= c.nextSeq
      && c.nextSeq - c.handedOver.value + c.inFlight == c.owed
      && (forall k | c.handedOver.value - 2 <= k < |c.wire| :: c.wire[k].body.Response?)
      && (c.refusal.Some? ==> c.refusal == c.handedOver)
  }

  function Push(c: Connection, b: Body, delivered: bool): Connection {
    c.(nextSeq := c.nextSeq + 1, wire := c.wire + [Sent(c.nextSeq, b, delivered)])
  }

  function Answer(c: Connection, correlationId: string, delivered: bool): Connection
    requires c.inFlight > 0
  {
    Push(c, Response(correlationId), delivered).(inFlight := c.inFlight - 1)
  }

  lemma Pushed(c: Connection, b: Body, delivered: bool)
    requires Numbered(c)
    ensures Numbered(Push(c, b, delivered))
    ensures c.handedOver.None? ==> HandoverSound(Push(c, b, delivered))
    ensures Fold(Push(c, b, delivered).wire) == if delivered then Apply(Fold(c.wire), b) else Fold(c.wire)
    ensures Greeted(Push(c, b, delivered).wire) <==> Greeted(c.wire) || (delivered && b.Snapshot?)
  {
    var t := Push(c, b, delivered);
    assert t.wire[..|t.wire| - 1] == c.wire;
    assert forall k | 0 <= k < |c.wire| :: t.wire[k] == c.wire[k];
    assert t.wire[|c.wire|] == Sent(c.nextSeq, b, delivered);
  }

  lemma InformedPushed(c: Connection, b: Body, delivered: bool, available: bool)
    requires Informed(c.wire, available) || (b.Snapshot? && delivered)
    requires b.Snapshot? && delivered ==> b.available == available
    ensures Informed(Push(c, b, delivered).wire, available)
  {
    var t := Push(c, b, delivered);
    assert t.wire[..|t.wire| - 1] == c.wire;
    if Greeted(t.wire) && !(b.Snapshot? && delivered) {
      var k :| 0 <= k < |t.wire| && t.wire[k].delivered && t.wire[k].body.Snapshot?;
      assert c.wire[k] == t.wire[k];
    }
  }

  /** One more message to a client, delivered unless it says nothing about the table. */
  lemma HoldsPushed(c: Connection, b: Body, delivered: bool, table: map<SessionId, string>)
    requires Numbered(c) && Holds(c.wire, table) && (delivered || b.Response? || b.Exiting?)
    ensures Holds(Push(c, b, delivered).wire, Apply(table, b))
  {
    hide Greeted, Fold, Numbered;
    Pushed(c, b, delivered);
    var t := Push(c, b, delivered);
    assert t.wire[..|t.wire| - 1] == c.wire;
    assert b.Snapshot? ==> Apply(Fold(c.wire), b) == Apply(table, b);
  }

  lemma Greeting(table: map<SessionId, string>, available: bool, delivered: bool)
    ensures var wire := [Sent(2, Snapshot(table, available), delivered)];
      && Holds(wire, table) && Informed(wire, available)
      && Fold(wire) == if delivered then table else map[]
  {
    var wire := [Sent(2, Snapshot(table, available), delivered)];
    assert wire[..0] == [];
    assert Greeted(wire) ==> delivered;
  }

  /** A client whose first snapshot was lost holds nothing, which is right only of an empty table. */
  lemma LostGreeting(table: map<SessionId, string>, available: bool)
    ensures var wire := [Sent(2, Snapshot(table, available), false)];
      !Greeted(wire) && (Fold(wire) == table <==> table == map[])
  {
    Greeting(table, available, false);
  }

  /** Session by session, what an ungreeted client holds against what it was sent. */
  lemma {:induction false} UngreetedAgrees(wire: seq<Sent>, id: SessionId)
    requires ClientWire(wire) && !Greeted(wire)
    ensures if id in wire[0].body.table && !Touched(wire, id)
      then id in FoldSent(wire) && id !in Fold(wire)
      else AgreeOn(FoldSent(wire), Fold(wire), id)
  {
    var k := |wire| - 1;
    var front := wire[..k];
    assert !wire[0].delivered;
    if k == 0 {
      assert front == [];
    } else {
      assert forall i | 0 <= i < k :: front[i] == wire[i];
      assert !Greeted(front);
      UngreetedAgrees(front, id);
      assert !wire[k].body.Snapshot?;
      assert Touched(wire, id) <==> Touched(front, id) || Touches(wire[k].body, id) by {
        if Touched(front, id) {
          var i :| 0 < i < k && Touches(front[i].body, id);
          assert Touches(wire[i].body, id);
        }
      }
    }
  }

  /**
   * From then on it is right of the table if and only if every session of the
   * lost snapshot has been announced as added or removed since.
   */
  lemma UngreetedHolds(wire: seq<Sent>, table: map<SessionId, string>)
    requires Holds(wire, table) && !Greeted(wire)
    ensures Fold(wire) == table <==> forall id <- wire[0].body.table :: Touched(wire, id)
  {
    hide FoldSent, Fold, Touched, Greeted;
    forall id: SessionId
      ensures if id in wire[0].body.table && !Touched(wire, id)
        then id in table && id !in Fold(wire)
        else AgreeOn(table, Fold(wire), id)
    {
      UngreetedAgrees(wire, id);
    }
    if forall id <- wire[0].body.table :: Touched(wire, id) {
      assert forall id :: AgreeOn(table, Fold(wire), id);
      assert Fold(wire) == table;
    }
  }

  /** The table changes and the message that announces it agree. */
  lemma AnnounceAdded(sessions: map<SessionId, Entry>, id: SessionId, e: Entry)
    ensures Names(sessions[id := e]) == Apply(Names(sessions), Added(id, e.name))
  {
  }

  lemma AnnounceRemoved(sessions: map<SessionId, Entry>, id: SessionId)
    ensures Names(sessions - {id}) == Apply(Names(sessions), Removed(id))
  {
  }

  lemma AnnounceRenamed(sessions: map<SessionId, Entry>, id: SessionId, name: string)
    requires id in sessions
    ensures Names(sessions[id := sessions[id].(name := name)]) == Apply(Names(sessions), Renamed(id, name))
  {
  }

  // ---------------------------------------------------------------------
  // The table and the name index, row by row
  // ---------------------------------------------------------------------

  datatype Table = Table(sessions: map<SessionId, Entry>, byName: map<string, SessionId>)

  function WithoutDollar(tmuxId: string): string {
    if tmuxId == "" then ""
    else if tmuxId[0] == '$' then tmuxId[1..]
    else [tmuxId[0]] + WithoutDollar(tmuxId[1..])
  }

  function MintSessionId(tmuxId: string): SessionId {
    "s" + WithoutDollar(tmuxId)
  }

  function Add(t: Table, tmuxId: string, name: string): Table {
    var id := MintSessionId(tmuxId);
    Table(t.sessions[id := Entry(tmuxId, name)], t.byName[name := id])
  }

  /** Delete the old name, then set the new one. */
  function Rename(t: Table, id: SessionId, name: string): Table
    requires id in t.sessions
  {
    Table(t.sessions[id := t.sessions[id].(name := name)], (t.byName - {t.sessions[id].name})[name := id])
  }

  /** `_sessions.delete(id)` and `_byName.delete(name)`. */
  function Drop(t: Table, id: SessionId, name: string): Table {
    Table(t.sessions - {id}, t.byName - {name})
  }

  /** One row against the entries known before the batch, by tmux id. */
  function RowStep(t: Table, known: map<string, SessionId>, row: Row): Table {
    if row.tmuxId !in known then Add(t, row.tmuxId, row.name)
    else
      var id := known[row.tmuxId];
      if id in t.sessions && t.sessions[id].name != row.name then Rename(t, id, row.name) else t
  }

  function ApplyRows(t: Table, known: map<string, SessionId>, rows: seq<Row>): Table {
    if rows == [] then t else RowStep(ApplyRows(t, known, rows[..|rows| - 1]), known, rows[|rows| - 1])
  }

  /** Every entry sits under the id minted for it. */
  predicate MintedIds(sessions: map<SessionId, Entry>) {
    forall id <- sessions :: id == MintSessionId(sessions[id].tmuxId)
  }

  /** knownTmuxIds, for a table whose entries sit under the ids minted for them. */
  predicate KnownFor(known: map<string, SessionId>, sessions: map<SessionId, Entry>) {
    && (forall t <- known :: known[t] == MintSessionId(t) && known[t] in sessions && sessions[known[t]].tmuxId == t)
    && (forall id <- sessions :: sessions[id].tmuxId in known)
  }

  predicate DistinctIds(rows: seq<Row>) {
    forall i, j | 0 <= i < j < |rows| :: MintSessionId(rows[i].tmuxId) != MintSessionId(rows[j].tmuxId)
  }

  predicate Unlisted(rows: seq<Row>, id: SessionId) {
    forall i | 0 <= i < |rows| :: MintSessionId(rows[i].tmuxId) != id
  }

  /** tmux's session ids are "$0", "$1", ...: all start with a dollar sign. */
  predicate TmuxId(id: string) {
    id != "" && id[0] == '$'
  }

  /** For such ids minting is injective, so distinct tmux ids make distinct session ids. */
  lemma MintingDiffers(a: string, b: string)
    requires TmuxId(a) && TmuxId(b) && a != b
    ensures MintSessionId(a) != MintSessionId(b)
  {
    assert a == "$" + a[1..] && b == "$" + b[1..];
    assert MintSessionId(a)[1..] == a[1..] && MintSessionId(b)[1..] == b[1..];
  }

  /** After a batch, a session no row speaks of is as it was ... */
  lemma {:induction false} UnlistedIsKept(t: Table, known: map<string, SessionId>, rows: seq<Row>, id: SessionId)
    requires KnownFor(known, t.sessions) && DistinctIds(rows) && Unlisted(rows, id)
    ensures var after := ApplyRows(t, known, rows).sessions;
      (id in after <==> id in t.sessions) && (id in after ==> after[id] == t.sessions[id])
  {
    if rows != [] {
      hide MintSessionId, RowStep;
      var k := |rows| - 1;
      UnlistedIsKept(t, known, rows[..k], id);
      UnlistedIsKept(t, known, rows[..k], MintSessionId(rows[k].tmuxId));
      RowSets(ApplyRows(t, known, rows[..k]), known, rows[k]);
    }
  }

  /** ... and a session that is listed is what its row says. */
  lemma {:induction false} TableReflectsRow(t: Table, known: map<string, SessionId>, rows: seq<Row>, i: nat)
    requires KnownFor(known, t.sessions) && DistinctIds(rows) && i < |rows|
    ensures var after, id := ApplyRows(t, known, rows).sessions, MintSessionId(rows[i].tmuxId);
      id in after && after[id] == Entry(rows[i].tmuxId, rows[i].name)
  {
    hide MintSessionId, RowStep;
    var k := |rows| - 1;
    UnlistedIsKept(t, known, rows[..k], MintSessionId(rows[k].tmuxId));
    RowSets(ApplyRows(t, known, rows[..k]), known, rows[k]);
    if i < k {
      TableReflectsRow(t, known, rows[..k], i);
    }
  }

  lemma BatchEffect(t: Table, known: map<string, SessionId>, rows: seq<Row>)
    requires KnownFor(known, t.sessions) && DistinctIds(rows)
    ensures var after := ApplyRows(t, known, rows).sessions;
      && (forall i | 0 <= i < |rows| ::
            var id := MintSessionId(rows[i].tmuxId);
            id in after && after[id] == Entry(rows[i].tmuxId, rows[i].name))
      && (forall id | Unlisted(rows, id) ::
            (id in after <==> id in t.sessions) && (id in after ==> after[id] == t.sessions[id]))
  {
    hide MintSessionId, ApplyRows, Unlisted;
    var after := ApplyRows(t, known, rows).sessions;
    forall i | 0 <= i < |rows|
      ensures var id := MintSessionId(rows[i].tmuxId);
        id in after && after[id] == Entry(rows[i].tmuxId, rows[i].name)
    {
      TableReflectsRow(t, known, rows, i);
    }
    forall id | Unlisted(rows, id)
      ensures (id in after <==> id in t.sessions) && (id in after ==> after[id] == t.sessions[id])
    {
      UnlistedIsKept(t, known, rows, id);
    }
  }

  lemma RowSets(t: Table, known: map<string, SessionId>, row: Row)
    requires row.tmuxId in known ==>
      var id := MintSessionId(row.tmuxId); known[row.tmuxId] == id && id in t.sessions && t.sessions[id].tmuxId == row.tmuxId
    ensures RowStep(t, known, row).sessions == t.sessions[MintSessionId(row.tmuxId) := Entry(row.tmuxId, row.name)]
  {
    hide MintSessionId;
    var id := MintSessionId(row.tmuxId);
    if row.tmuxId in known && t.sessions[id].name == row.name {
      assert t.sessions[id := t.sessions[id]] == t.sessions;
    }
  }

  /** The index is the inverse of the table. */
  predicate Indexed(t: Table) {
    && (forall n <- t.byName :: t.byName[n] in t.sessions && t.sessions[t.byName[n]].name == n)
    && (forall id <- t.sessions :: t.sessions[id].name in t.byName && t.byName[t.sessions[id].name] == id)
  }

  predicate HeldByOther(t: Table, id: SessionId, name: string) {
    exists other :: other in t.sessions && other != id && t.sessions[other].name == name
  }

  /** A rename keeps the index right exactly when no other entry still holds the new name. */
  lemma RenameIndexed(t: Table, id: SessionId, name: string)
    requires Indexed(t) && id in t.sessions
    ensures Indexed(Rename(t, id, name)) <==> !HeldByOther(t, id, name)
  {
    var r := Rename(t, id, name);
    assert r.sessions[id].name == name && r.byName[name] == id;
    if HeldByOther(t, id, name) {
      var other :| other in t.sessions && other != id && t.sessions[other].name == name;
      assert other in r.sessions && r.sessions[other].name == name;
    } else {
      forall k <- r.sessions ensures r.sessions[k].name in r.byName && r.byName[r.sessions[k].name] == k {
        if k != id {
          assert k in t.sessions && t.byName[t.sessions[k].name] == k;
        }
      }
    }
  }

  /** The name is free, and the id is new or had that name. */
  predicate AddClean(t: Table, id: SessionId, name: string) {
    !HeldByOther(t, id, name) && (id in t.sessions ==> t.sessions[id].name == name)
  }

  /** The session, if there, goes by the name; the name, if taken, is the session's. */
  predicate DropClean(t: Table, id: SessionId, name: string) {
    (id in t.sessions ==> t.sessions[id].name == name) && (name in t.byName ==> t.byName[name] == id)
  }

  /** And an addition, when the name is free and the id is new or already had that name. */
  lemma AddIndexed(t: Table, tmuxId: string, name: string)
    requires Indexed(t)
    ensures var id := MintSessionId(tmuxId);
      Indexed(Add(t, tmuxId, name)) <==> AddClean(t, id, name)
  {
    hide MintSessionId;
    var id, r := MintSessionId(tmuxId), Add(t, tmuxId, name);
    assert r.sessions[id].name == name && r.byName[name] == id;
    if HeldByOther(t, id, name) {
      var other :| other in t.sessions && other != id && t.sessions[other].name == name;
      assert other in r.sessions && r.sessions[other].name == name;
    } else if id in t.sessions && t.sessions[id].name != name {
      assert t.sessions[id].name in r.byName;
    } else {
      forall k <- r.sessions ensures r.sessions[k].name in r.byName && r.byName[r.sessions[k].name] == k {
        if k != id {
          assert k in t.sessions && t.byName[t.sessions[k].name] == k;
        }
      }
    }
  }

  /** And a removal, when the name is still the removed session's or nobody's. */
  lemma DropIndexed(t: Table, id: SessionId, name: string)
    requires Indexed(t)
    ensures Indexed(Drop(t, id, name)) <==> DropClean(t, id, name)
  {
    var r := Drop(t, id, name);
    if id in t.sessions && t.sessions[id].name != name {
      assert t.sessions[id].name in r.byName && r.byName[t.sessions[id].name] == id;
    } else if name in t.byName && t.byName[name] != id {
      var other := t.byName[name];
      assert other in r.sessions && r.sessions[other].name == name;
    }
  }

  /**
   * A session removed twice, its name taken again in between: the second
   * removal throws the successor out of the index.
   */
  lemma SecondDropEvicts()
    ensures var t := Table(map["s1" := Entry("$1", "a")], map["a" := "s1"]);
      var taken := Add(Drop(t, "s1", "a"), "$2", "a");
      && Indexed(t) && DropClean(t, "s1", "a") && Indexed(taken) && !DropClean(taken, "s1", "a")
      && Drop(taken, "s1", "a") == Table(map["s2" := Entry("$2", "a")], map[])
  {
    assert MintSessionId("$2") == "s2";
    assert "s1"[1] != "s2"[1];
    var t := Table(map["s1" := Entry("$1", "a")], map["a" := "s1"]);
    assert Drop(t, "s1", "a") == Table(map[], map[]);
  }

  // ---------------------------------------------------------------------
  // The index after a whole batch
  // ---------------------------------------------------------------------

  /** The row neither adds nor renames onto a name that another entry holds at this point. */
  predicate RowClean(t: Table, known: map<string, SessionId>, row: Row) {
    if row.tmuxId !in known then AddClean(t, MintSessionId(row.tmuxId), row.name)
    else
      var id := known[row.tmuxId];
      id in t.sessions && t.sessions[id].name != row.name ==> !HeldByOther(t, id, row.name)
  }

  predicate BatchClean(t: Table, known: map<string, SessionId>, rows: seq<Row>) {
    forall k | 0 <= k < |rows| :: RowClean(ApplyRows(t, known, rows[..k]), known, rows[k])
  }

  /** A row whose tmux id is not known makes a session id the table does not have. */
  predicate NewIdsAreNew(known: map<string, SessionId>, sessions: map<SessionId, Entry>, rows: seq<Row>) {
    forall i | 0 <= i < |rows| && rows[i].tmuxId !in known :: MintSessionId(rows[i].tmuxId) !in sessions
  }

  /** The row finds its session where it should be: known and there, or neither. */
  predicate RowFits(t: Table, known: map<string, SessionId>, row: Row) {
    var id := MintSessionId(row.tmuxId);
    if row.tmuxId in known then known[row.tmuxId] == id && id in t.sessions else id !in t.sessions
  }

  lemma RowIndexed(t: Table, known: map<string, SessionId>, row: Row)
    requires Indexed(t)
    ensures Indexed(RowStep(t, known, row)) <==> RowClean(t, known, row)
  {
    hide MintSessionId, Indexed, HeldByOther, AddClean, Rename, Add;
    if row.tmuxId !in known {
      AddIndexed(t, row.tmuxId, row.name);
    } else if known[row.tmuxId] in t.sessions && t.sessions[known[row.tmuxId]].name != row.name {
      RenameIndexed(t, known[row.tmuxId], row.name);
    }
  }

  /** Session `x` is left out of the index, or shares its name. */
  predicate Stuck(t: Table, x: SessionId) {
    x in t.sessions &&
    var n := t.sessions[x].name; n !in t.byName || t.byName[n] != x || HeldByOther(t, x, n)
  }

  lemma StuckIsWrong(t: Table, x: SessionId)
    requires Stuck(t, x)
    ensures !Indexed(t)
  {
  }

  /** A row that collides leaves its own session stuck ... */
  lemma UncleanSticks(t: Table, known: map<string, SessionId>, row: Row)
    requires RowFits(t, known, row) && !RowClean(t, known, row)
    ensures Stuck(RowStep(t, known, row), MintSessionId(row.tmuxId))
  {
    hide MintSessionId;
    var id, after := MintSessionId(row.tmuxId), RowStep(t, known, row);
    var other :| other in t.sessions && other != id && t.sessions[other].name == row.name;
    assert other in after.sessions && after.sessions[other].name == row.name;
  }

  /** ... and no row of another session frees it. */
  lemma StuckStays(t: Table, known: map<string, SessionId>, row: Row, x: SessionId)
    requires Stuck(t, x) && RowFits(t, known, row) && MintSessionId(row.tmuxId) != x
    ensures Stuck(RowStep(t, known, row), x)
  {
    hide MintSessionId;
    var id, after, n := MintSessionId(row.tmuxId), RowStep(t, known, row), t.sessions[x].name;
    assert x in after.sessions && after.sessions[x] == t.sessions[x];
    if n in t.byName && t.byName[n] == x {
      var other :| other in t.sessions && other != x && t.sessions[other].name == n;
      if other != id {
        assert other in after.sessions && after.sessions[other].name == n;
      } else if row.name == n {
        assert id in after.sessions && after.sessions[id].name == n;
      }
    }
  }

  lemma BatchCleanStep(t: Table, known: map<string, SessionId>, front: seq<Row>, row: Row)
    ensures BatchClean(t, known, front + [row])
       <==> BatchClean(t, known, front) && RowClean(ApplyRows(t, known, front), known, row)
  {
    hide RowClean, ApplyRows;
    var rows := front + [row];
    assert rows[..|front|] == front && rows[|front|] == row;
    assert forall i | 0 <= i < |front| :: front[..i] == rows[..i] && front[i] == rows[i];
  }

  lemma LastRow(t: Table, known: map<string, SessionId>, rows: seq<Row>)
    requires rows != []
    ensures ApplyRows(t, known, rows) == RowStep(ApplyRows(t, known, rows[..|rows| - 1]), known, rows[|rows| - 1])
  {
  }

  lemma LastIdDiffers(rows: seq<Row>)
    requires rows != [] && DistinctIds(rows)
    ensures var k := |rows| - 1;
      forall i | 0 <= i < k :: MintSessionId(rows[..k][i].tmuxId) != MintSessionId(rows[k].tmuxId)
  {
    hide MintSessionId;
  }

  lemma {:induction false} BatchIndexedOrStuck(t: Table, known: map<string, SessionId>, rows: seq<Row>)
    requires Indexed(t) && KnownFor(known, t.sessions) && DistinctIds(rows) && NewIdsAreNew(known, t.sessions, rows)
    ensures BatchClean(t, known, rows) ==> Indexed(ApplyRows(t, known, rows))
    ensures !BatchClean(t, known, rows) ==>
      exists k :: 0 <= k < |rows| && Stuck(ApplyRows(t, known, rows), MintSessionId(rows[k].tmuxId))
  {
    if rows != [] {
      hide MintSessionId, RowStep, RowClean, Indexed, Stuck, KnownFor;
      var k := |rows| - 1;
      var front, row := rows[..k], rows[k];
      var before := ApplyRows(t, known, front);
      BatchIndexedOrStuck(t, known, front);
      BatchCleanStep(t, known, front, row);
      assert rows == front + [row];
      LastRowFits(t, known, rows);
      hide ApplyRows, BatchClean, DistinctIds, NewIdsAreNew;
      assert ApplyRows(t, known, rows) == RowStep(before, known, row) by {
        LastRow(t, known, rows);
      }
      assert forall i | 0 <= i < k :: MintSessionId(front[i].tmuxId) != MintSessionId(row.tmuxId) by {
        LastIdDiffers(rows);
      }
      if !BatchClean(t, known, front) {
        var i :| 0 <= i < k && Stuck(before, MintSessionId(front[i].tmuxId));
        assert rows[i] == front[i];
        StuckStays(before, known, row, MintSessionId(rows[i].tmuxId));
      } else if RowClean(before, known, row) {
        RowIndexed(before, known, row);
      } else {
        UncleanSticks(before, known, row);
      }
    }
  }

  lemma LastRowFits(t: Table, known: map<string, SessionId>, rows: seq<Row>)
    requires rows != [] && KnownFor(known, t.sessions) && DistinctIds(rows) && NewIdsAreNew(known, t.sessions, rows)
    ensures RowFits(ApplyRows(t, known, rows[..|rows| - 1]), known, rows[|rows| - 1])
  {
    hide MintSessionId, ApplyRows;
    var k := |rows| - 1;
    UnlistedIsKept(t, known, rows[..k], MintSessionId(rows[k].tmuxId));
  }

  /**
   * After a batch the name index is right if and only if no row added or
   * renamed onto a name that another entry held at that point.
   */
  lemma BatchIndexed(t: Table, known: map<string, SessionId>, rows: seq<Row>)
    requires Indexed(t) && KnownFor(known, t.sessions) && DistinctIds(rows) && NewIdsAreNew(known, t.sessions, rows)
    ensures Indexed(ApplyRows(t, known, rows)) <==> BatchClean(t, known, rows)
  {
    hide Indexed, Stuck, ApplyRows, BatchClean, MintSessionId;
    BatchIndexedOrStuck(t, known, rows);
    if !BatchClean(t, known, rows) {
      var k :| 0 <= k < |rows| && Stuck(ApplyRows(t, known, rows), MintSessionId(rows[k].tmuxId));
      StuckIsWrong(ApplyRows(t, known, rows), MintSessionId(rows[k].tmuxId));
    }
  }

  /** What tmux lists, ids distinct and starting with a dollar sign, meets the two conditions on rows. */
  lemma TmuxRowsFit(known: map<string, SessionId>, sessions: map<SessionId, Entry>, rows: seq<Row>)
    requires KnownFor(known, sessions) && MintedIds(sessions) && forall id <- sessions :: TmuxId(sessions[id].tmuxId)
    requires forall i | 0 <= i < |rows| :: TmuxId(rows[i].tmuxId)
    requires forall i, j | 0 <= i < j < |rows| :: rows[i].tmuxId != rows[j].tmuxId
    ensures DistinctIds(rows) && NewIdsAreNew(known, sessions, rows)
  {
    hide MintSessionId, TmuxId;
    forall i, j | 0 <= i < j < |rows| ensures MintSessionId(rows[i].tmuxId) != MintSessionId(rows[j].tmuxId) {
      MintingDiffers(rows[i].tmuxId, rows[j].tmuxId);
    }
    forall i | 0 <= i < |rows| && rows[i].tmuxId !in known ensures MintSessionId(rows[i].tmuxId) !in sessions {
      var id := MintSessionId(rows[i].tmuxId);
      if id in sessions {
        MintingDiffers(rows[i].tmuxId, sessions[id].tmuxId);
      }
    }
  }

  /** Two sessions that swap names in one batch leave one of them out of the index. */
  lemma SwappedNamesLoseOne()
    ensures var t := Table(map["s1" := Entry("$1", "a"), "s2" := Entry("$2", "b")], map["a" := "s1", "b" := "s2"]);
      var after := ApplyRows(t, map["$1" := "s1", "$2" := "s2"], [Row("$1", "b"), Row("$2", "a")]);
      && Indexed(t)
      && after == Table(map["s1" := Entry("$1", "b"), "s2" := Entry("$2", "a")], map["a" := "s2"])
      && !Indexed(after)
  {
    var t := Table(map["s1" := Entry("$1", "a"), "s2" := Entry("$2", "b")], map["a" := "s1", "b" := "s2"]);
    var known := map["$1" := "s1", "$2" := "s2"];
    var rows := [Row("$1", "b"), Row("$2", "a")];
    assert rows[..1] == [Row("$1", "b")] && rows[..1][..0] == [];
    assert ApplyRows(t, known, rows[..0]) == t;
    assert "s1" != "s2" && "$1" != "$2" && "a" != "b" by {
      assert "s1"[1] != "s2"[1] && "$1"[1] != "$2"[1] && "a"[0] != "b"[0];
    }
    var one := Table(map["s1" := Entry("$1", "b"), "s2" := Entry("$2", "b")], map["b" := "s1"]);
    assert RowStep(t, known, rows[0]) == one;
    var two := Table(map["s1" := Entry("$1", "b"), "s2" := Entry("$2", "a")], map["a" := "s2"]);
    assert RowStep(one, known, rows[1]) == two;
    assert two.sessions["s1"].name == "b";
  }

  // ---------------------------------------------------------------------
  // The broker
  // ---------------------------------------------------------------------

  class ServerProxy {
    var sessions: map<SessionId, Entry>
    var byName: map<string, SessionId>
    var clients: set<ConnectionId>
    var connections: seq<Connection>
    var everReconciled: bool
    var tmuxAvailable: bool
    var started: bool
    var shuttingDown: bool
    /** Some step so far wrote or deleted a name that was another session's. */
    ghost var collided: bool
    /** tmux came or went, with clients there, before the broker counted as started, and none has been told since. */
    ghost var silentFlip: bool

    constructor ()
      ensures Valid() && sessions == map[] && clients == {} && connections == []
      ensures !everReconciled && !started && !shuttingDown && tmuxAvailable && !collided && !silentFlip
    {
      collided, silentFlip := false, false;
      sessions, byName, clients, connections := map[], map[], {}, [];
      everReconciled, tmuxAvailable, started, shuttingDown := false, true, false, false;
    }

    ghost predicate Sound()
      reads this`clients, this`connections, this`everReconciled
    {
      && (forall c <- clients :: c < |connections| && connections[c].handedOver.None?)
      && (forall c | 0 <= c < |connections| :: Numbered(connections[c]) && HandoverSound(connections[c]))
      && (clients != {} ==> everReconciled)
    }

    ghost function Contents(): Table
      reads this`sessions, this`byName
    {
      Table(sessions, byName)
    }

    /** Every client was sent this table, and holds it once a snapshot has reached it. */
    ghost predicate AllHold(table: map<SessionId, string>)
      requires Sound()
      reads this`clients, this`connections, this`everReconciled
    {
      forall c <- clients :: Holds(connections[c].wire, table)
    }

    ghost predicate Valid()
      reads this
    {
      && Sound() && AllHold(Names(sessions)) && MintedIds(sessions)
      && (!collided ==> Indexed(Contents()))
      && (!silentFlip ==> AllInformed())
    }

    /** Every greeted client knows whether the tmux binary is there. */
    ghost predicate AllInformed()
      requires Sound()
      reads this`clients, this`connections, this`everReconciled, this`tmuxAvailable
    {
      forall c <- clients :: Informed(connections[c].wire, tmuxAvailable)
    }

    /** `_broadcastToAll` and `_broadcastSnapshot`: a send that throws drops the client. */
    method Broadcast(b: Body)
      requires Sound() && !b.Response?
      modifies this`clients, this`connections
      ensures Sound() && clients <= old(clients) && |connections| == |old(connections)|
      ensures forall c <- clients :: connections[c] == Push(old(connections)[c], b, true)
      ensures forall c | 0 <= c < |connections| && c !in old(clients) :: connections[c] == old(connections)[c]
    {
      hide Fold, Apply, Greeted, Numbered, HandoverSound;
      var todo := clients;
      while todo != {}
        invariant todo <= clients <= old(clients) && |connections| == |old(connections)|
        invariant Sound()
        invariant forall c <- todo :: connections[c] == old(connections)[c]
        invariant forall c <- clients - todo :: connections[c] == Push(old(connections)[c], b, true)
        invariant forall c | 0 <= c < |connections| && c !in old(clients) :: connections[c] == old(connections)[c]
        decreases todo
      {
        var c :| c in todo;
        var throws: bool := *;
        Pushed(connections[c], b, !throws);
        connections := connections[c := Push(connections[c], b, !throws)];
        if throws {
          clients := clients - {c};
        }
        todo := todo - {c};
      }
    }

    /** Change the table, then announce it: the clients follow. */
    method Announce(b: Body, ghost before: map<SessionId, string>)
      requires Sound() && AllHold(before) && !b.Response? && Names(sessions) == Apply(before, b)
      requires MintedIds(sessions) && (!collided ==> Indexed(Contents()))
      requires if b.Snapshot? then b.available == tmuxAvailable else !silentFlip ==> AllInformed()
      modifies this`clients, this`connections
      ensures Valid() && clients <= old(clients) && (b.Snapshot? ==> AllInformed())
      ensures |connections| == |old(connections)|
      ensures forall c <- clients :: connections[c] == Push(old(connections)[c], b, true)
      ensures forall c | 0 <= c < |connections| && c !in old(clients) :: connections[c] == old(connections)[c]
    {
      hide Holds, Names, Indexed, MintedIds, Informed;
      Broadcast(b);
      forall c <- clients
        ensures Informed(old(connections)[c].wire, tmuxAvailable) || b.Snapshot? ==> Informed(connections[c].wire, tmuxAvailable)
      {
        if Informed(old(connections)[c].wire, tmuxAvailable) || b.Snapshot? {
          InformedPushed(old(connections)[c], b, true, tmuxAvailable);
        }
      }
      forall c <- clients ensures Holds(connections[c].wire, Names(sessions)) {
        HoldsPushed(old(connections)[c], b, true, before);
      }
    }

    /**
     * The end of `_handleConnection`, after its awaits. The client is
     * registered before the first snapshot is sent; should that send throw, it
     * stays registered.
     */
    method FinishHandshake() returns (c: Option<ConnectionId>, throws: bool)
      requires Valid()
      modifies this`clients, this`connections
      ensures Valid()
      ensures c.Some? <==> !shuttingDown && everReconciled
      ensures c.None? ==> clients == old(clients) && connections == old(connections)
      ensures c.Some? ==>
        && c.value == |old(connections)| && clients == old(clients) + {c.value}
        && connections == old(connections) + [
             Connection(3, [Sent(2, Snapshot(Names(sessions), tmuxAvailable), !throws)], 0, None, 0, None)]
        && (throws || Fold(connections[c.value].wire) == Names(sessions))
    {
      throws := *;
      if shuttingDown || !everReconciled {
        return None, throws;
      }
      var wire := [Sent(2, Snapshot(Names(sessions), tmuxAvailable), !throws)];
      c := Some(|connections|);
      connections := connections + [Connection(3, wire, 0, None, 0, None)];
      clients := clients + {c.value};
      Greeting(Names(sessions), tmuxAvailable, !throws);
    }

    /** `_broadcastExiting`: a send that throws is swallowed and the client kept. */
    method BroadcastExiting(reason: string)
      requires Valid()
      modifies this`connections
      ensures Valid() && |connections| == |old(connections)|
      ensures forall c <- clients ::
        exists delivered :: connections[c] == Push(old(connections)[c], Exiting(reason), delivered)
      ensures forall c | 0 <= c < |connections| && c !in clients :: connections[c] == old(connections)[c]
    {
      hide Informed, Holds, Apply, Names, Indexed, Numbered, HandoverSound, MintedIds;
      var todo := clients;
      while todo != {}
        invariant todo <= clients && |connections| == |old(connections)|
        invariant Valid()
        invariant forall c <- todo :: connections[c] == old(connections)[c]
        invariant forall c <- clients - todo ::
          exists delivered :: connections[c] == Push(old(connections)[c], Exiting(reason), delivered)
        invariant forall c | 0 <= c < |connections| && c !in clients :: connections[c] == old(connections)[c]
        decreases todo
      {
        var c :| c in todo;
        var throws: bool := *;
        Pushed(connections[c], Exiting(reason), !throws);
        HoldsPushed(connections[c], Exiting(reason), !throws, Names(sessions));
        if !silentFlip {
          InformedPushed(connections[c], Exiting(reason), !throws, tmuxAvailable);
        }
        ExitingApplied(Names(sessions), reason);
        connections := connections[c := Push(connections[c], Exiting(reason), !throws)];
        todo := todo - {c};
      }
    }

    /** transport.onClose. */
    method OnClose(c: ConnectionId)
      requires Valid()
      modifies this`clients
      ensures Valid() && clients == old(clients) - {c}
    {
      clients := clients - {c};
    }

    /** `shutdown` begins: the sentinel is set at once ... */
    method BeginShutdown()
      requires Valid()
      modifies this`shuttingDown
      ensures Valid() && shuttingDown
    {
      shuttingDown := true;
    }

    /** ... and the clients are forgotten an await later. */
    method SweepClients()
      requires Valid()
      modifies this`clients
      ensures Valid() && clients == {}
    {
      clients := {};
    }

    /** `start` is done. */
    method MarkStarted()
      requires Valid()
      modifies this`started
      ensures Valid() && started
    {
      started := true;
    }

    /**
     * `_doRefreshSessions` after list-sessions: was the answer definitive, is
     * the binary there? When that changes, the table is sent again, to every
     * client and with the news, but only once the broker has started; until
     * then the clients there are have it wrong.
     */
    method RecordReconcile(definitive: bool, available: bool)
      requires Valid()
      modifies this`everReconciled, this`tmuxAvailable, this`clients, this`connections, this`silentFlip
      ensures Valid()
      ensures everReconciled == (old(everReconciled) || definitive)
      ensures tmuxAvailable == available
      ensures var flip := available != old(tmuxAvailable);
        && clients <= old(clients) && |connections| == |old(connections)|
        && (!flip || !started ==> clients == old(clients) && connections == old(connections))
        && (flip && started ==> AllInformed() && !silentFlip && forall c <- clients ::
              connections[c] == Push(old(connections)[c], Snapshot(Names(sessions), available), true))
        && (!flip ==> silentFlip == old(silentFlip))
        && (flip && !started ==> silentFlip == (old(silentFlip) || clients != {}))
        && (flip && !started && !old(silentFlip) ==>
              forall c <- clients | Greeted(connections[c].wire) :: !Informed(connections[c].wire, available))
    {
      hide Holds, Names;
      if definitive {
        everReconciled := true;
      }
      if available != tmuxAvailable {
        tmuxAvailable := available;
        if started {
          SnapshotReplaces(Names(sessions), Names(sessions), available);
          Announce(Snapshot(Names(sessions), available), Names(sessions));
          silentFlip := false;
        } else {
          silentFlip := silentFlip || clients != {};
        }
      }
    }

    /**
     * The tail of `_destroySession` after its await, and of one confirmed
     * absence in `_doRefreshSessions`: the session may be gone already, which
     * is then announced once more.
     */
    method DropSession(id: SessionId, name: string)
      requires Valid()
      modifies this`sessions, this`byName, this`collided, this`clients, this`connections
      ensures Valid() && Contents() == Drop(old(Contents()), id, name)
      ensures collided == (old(collided) || !DropClean(old(Contents()), id, name))
      ensures !old(collided) ==> (collided <==> !Indexed(Contents()))
      ensures clients <= old(clients) && |connections| == |old(connections)|
      ensures forall c <- clients :: connections[c] == Push(old(connections)[c], Removed(id), true)
    {
      hide Informed, Holds, Names, Indexed, DropClean, Numbered, HandoverSound, MintSessionId;
      ghost var before := Names(sessions);
      AnnounceRemoved(sessions, id);
      if !collided {
        DropIndexed(Contents(), id, name);
      }
      collided := collided || !DropClean(Contents(), id, name);
      sessions := sessions - {id};
      byName := byName - {name};
      Announce(Removed(id), before);
    }

    /** `_registerNewSession`, and the same lines of `_doRefreshSessions`. */
    method RegisterNewSession(tmuxId: string, name: string) returns (id: SessionId)
      requires Valid()
      modifies this`sessions, this`byName, this`collided, this`clients, this`connections
      ensures Valid() && id == MintSessionId(tmuxId)
      ensures Contents() == Add(old(Contents()), tmuxId, name)
      ensures collided == (old(collided) || !AddClean(old(Contents()), id, name))
      ensures !old(collided) ==> (collided <==> !Indexed(Contents()))
      ensures clients <= old(clients) && |connections| == |old(connections)|
      ensures forall c <- clients :: connections[c] == Push(old(connections)[c], Added(id, name), true)
    {
      hide Informed, Holds, Names, MintSessionId;
      id := MintSessionId(tmuxId);
      ghost var before := Names(sessions);
      AnnounceAdded(sessions, id, Entry(tmuxId, name));
      if !collided {
        AddIndexed(Contents(), tmuxId, name);
      }
      collided := collided || !AddClean(Contents(), id, name);
      sessions := sessions[id := Entry(tmuxId, name)];
      byName := byName[name := id];
      Announce(Added(id, name), before);
    }

    method RenameSession(id: SessionId, name: string)
      requires Valid() && id in sessions
      modifies this`sessions, this`byName, this`collided, this`clients, this`connections
      ensures Valid()
      ensures Contents() == Rename(old(Contents()), id, name)
      ensures collided == (old(collided) || HeldByOther(old(Contents()), id, name))
      ensures !old(collided) ==> (collided <==> !Indexed(Contents()))
      ensures clients <= old(clients) && |connections| == |old(connections)|
      ensures forall c <- clients :: connections[c] == Push(old(connections)[c], Renamed(id, name), true)
    {
      hide Informed, Holds, Names, Indexed, HeldByOther, Numbered, HandoverSound, MintSessionId;
      ghost var before := Names(sessions);
      AnnounceRenamed(sessions, id, name);
      if !collided {
        RenameIndexed(Contents(), id, name);
      }
      collided := collided || HeldByOther(Contents(), id, name);
      byName := byName - {sessions[id].name};
      sessions := sessions[id := sessions[id].(name := name)];
      byName := byName[name := id];
      Announce(Renamed(id, name), before);
    }

    /** knownTmuxIds: entries by tmux id. */
    method KnownTmuxIds() returns (known: map<string, SessionId>)
      ensures forall t <- known :: known[t] in sessions && sessions[known[t]].tmuxId == t
      ensures forall id <- sessions :: sessions[id].tmuxId in known
    {
      known := map[];
      var todo := sessions.Keys;
      while todo != {}
        invariant todo <= sessions.Keys
        invariant forall t <- known :: known[t] in sessions && sessions[known[t]].tmuxId == t
        invariant forall id <- sessions.Keys - todo :: sessions[id].tmuxId in known
        decreases todo
      {
        var id :| id in todo;
        known := known[sessions[id].tmuxId := id];
        todo := todo - {id};
      }
    }

    /** One row: a new session, a rename, or nothing of its identity changed. */
    method ReconcileRow(row: Row, known: map<string, SessionId>)
      requires Valid() && forall t <- known :: known[t] in sessions
      modifies this`sessions, this`byName, this`collided, this`clients, this`connections
      ensures Valid() && forall t <- known :: known[t] in sessions
      ensures Contents() == RowStep(old(Contents()), known, row)
      ensures collided == (old(collided) || !RowClean(old(Contents()), known, row))
    {
      hide Informed, Holds, Names, Rename, Add, Indexed, AddClean, HeldByOther, Numbered, HandoverSound, MintSessionId;
      KeysKept(Contents(), row.tmuxId, row.name);
      if row.tmuxId !in known {
        var _ := RegisterNewSession(row.tmuxId, row.name);
      } else {
        var id := known[row.tmuxId];
        if sessions[id].name != row.name {
          RenameKeepsKeys(Contents(), id, row.name);
          RenameSession(id, row.name);
        }
      }
    }

    /** The last loop of `_doRefreshSessions`: additions and renames, row by row. */
    method ReconcileRows(rows: seq<Row>) returns (ghost known: map<string, SessionId>)
      requires Valid()
      modifies this`sessions, this`byName, this`collided, this`clients, this`connections
      ensures Valid()
      ensures KnownFor(known, old(sessions))
      ensures DistinctIds(rows) ==>
        && (forall i | 0 <= i < |rows| ::
              var id := MintSessionId(rows[i].tmuxId);
              id in sessions && sessions[id] == Entry(rows[i].tmuxId, rows[i].name))
        && (forall id | Unlisted(rows, id) ::
              (id in sessions <==> id in old(sessions)) && (id in sessions ==> sessions[id] == old(sessions)[id]))
      ensures Contents() == ApplyRows(old(Contents()), known, rows)
      ensures collided == (old(collided) || !BatchClean(old(Contents()), known, rows))
    {
      hide Informed, Holds, Names, RowStep, RowClean, Indexed, MintSessionId, Numbered, HandoverSound;
      var knownIds := KnownTmuxIds();
      known := knownIds;
      ghost var start := Contents();
      for i := 0 to |rows|
        invariant Valid()
        invariant forall t <- knownIds :: knownIds[t] in sessions
        invariant Contents() == ApplyRows(start, known, rows[..i])
        invariant collided == (old(collided) || !BatchClean(start, known, rows[..i]))
      {
        assert rows[..i + 1][..i] == rows[..i];
        var row := rows[i];
        assert rows[..i + 1] == rows[..i] + [row];
        BatchCleanStep(start, known, rows[..i], row);
        ReconcileRow(row, knownIds);
      }
      assert rows[..|rows|] == rows;
      if DistinctIds(rows) {
        BatchEffect(start, known, rows);
      }
    }

    // -------------------------------------------------------------------
    // Commands and attach
    // -------------------------------------------------------------------

    /** A command.request arrives. */
    method BeginCommand(c: ConnectionId)
      requires Valid() && c < |connections|
      modifies this`connections
      ensures Valid()
      ensures var was := old(connections)[c];
        connections == old(connections)[c := was.(
          inFlight := was.inFlight + 1, owed := if was.handedOver.Some? then was.owed + 1 else was.owed)]
    {
      hide Informed, Holds, Indexed;
      var was := connections[c];
      connections := connections[c := was.(
        inFlight := was.inFlight + 1, owed := if was.handedOver.Some? then was.owed + 1 else was.owed)];
    }

    /** `_sendResponse`: a send that throws is swallowed, the number is used up. */
    method SendResponse(c: ConnectionId, correlationId: string)
      requires Valid() && c < |connections| && connections[c].inFlight > 0
      modifies this`connections
      ensures Valid() && |connections| == |old(connections)|
      ensures exists delivered ::
        connections == old(connections)[c := Answer(old(connections)[c], correlationId, delivered)]
    {
      hide Informed, Holds, Indexed;
      var throws: bool := *;
      var before := connections[c];
      Pushed(before, Response(correlationId), !throws);
      if c in clients {
        HoldsPushed(before, Response(correlationId), !throws, Names(sessions));
        if !silentFlip {
          InformedPushed(before, Response(correlationId), !throws, tmuxAvailable);
        }
        ResponseApplied(Names(sessions), correlationId);
      }
      connections := connections[c := Answer(before, correlationId, !throws)];
      assert connections == old(connections)[c := Answer(old(connections)[c], correlationId, !throws)];
    }

    /** `_handleAttach` before its first await. */
    method BeginAttach(c: ConnectionId) returns (startSeq: nat)
      requires Valid() && c < |connections|
      modifies this`connections, this`clients
      ensures Valid() && clients == old(clients) - {c}
      ensures startSeq == old(connections)[c].nextSeq
      ensures connections == old(connections)[c := old(connections)[c].(
        handedOver := Some(startSeq), owed := old(connections)[c].inFlight, refusal := None)]
    {
      hide Informed, Holds, Indexed;
      startSeq := connections[c].nextSeq;
      clients := clients - {c};
      connections := connections[c := connections[c].(
        handedOver := Some(startSeq), owed := connections[c].inFlight, refusal := None)];
    }

    /** `_handleAttach` finds no such session: the error carries startSeq and stamps nothing. */
    method RefuseAttach(c: ConnectionId)
      requires Valid() && c < |connections| && connections[c].handedOver.Some?
      modifies this`connections
      ensures Valid()
      ensures connections == old(connections)[c := old(connections)[c].(refusal := old(connections)[c].handedOver)]
    {
      hide Informed, Holds, Indexed;
      connections := connections[c := connections[c].(refusal := connections[c].handedOver)];
    }
  }

  /** Until some step collides, a name is found if and only if some session has it, and it is then that session. */
  lemma LookupIsRight(b: ServerProxy, name: string)
    requires b.Valid() && !b.collided
    ensures name in b.byName <==> exists id :: id in b.sessions && b.sessions[id].name == name
    ensures forall id <- b.sessions | b.sessions[id].name == name :: name in b.byName && b.byName[name] == id
  {
    assert Indexed(b.Contents());
  }

  /** What an ungreeted client holds, in any state of the broker. */
  lemma UngreetedClient(b: ServerProxy, c: ConnectionId)
    requires b.Valid() && c in b.clients && !Greeted(b.connections[c].wire)
    ensures var wire := b.connections[c].wire;
      && wire[0].body.Snapshot? && !wire[0].delivered
      && (Fold(wire) == Names(b.sessions) <==> forall id <- wire[0].body.table :: Touched(wire, id))
  {
    hide FoldSent, Fold, Touched;
    UngreetedHolds(b.connections[c].wire, Names(b.sessions));
  }

  /** A client that was there before the broker counted as started goes on believing in a tmux that has gone. */
  method FlipBeforeStartIsMissed() returns (b: ServerProxy, c: ConnectionId, throws: bool)
    ensures b.Valid() && c in b.clients && !b.tmuxAvailable
    ensures !throws ==> Greeted(b.connections[c].wire) && Told(b.connections[c].wire) == Some(true)
  {
    b := new ServerProxy();
    b.RecordReconcile(true, true);
    var registered;
    registered, throws := b.FinishHandshake();
    c := registered.value;
    var wire := b.connections[c].wire;
    assert wire[0] == Sent(2, Snapshot(Names(b.sessions), true), !throws);
    b.RecordReconcile(true, false);
    assert b.connections[c].wire == wire;
  }

  lemma SnapshotReplaces(before: map<SessionId, string>, table: map<SessionId, string>, available: bool)
    ensures Apply(before, Snapshot(table, available)) == table
  {
  }

  lemma ResponseApplied(m: map<SessionId, string>, correlationId: string)
    ensures Apply(m, Response(correlationId)) == m
  {
  }

  lemma ExitingApplied(m: map<SessionId, string>, reason: string)
    ensures Apply(m, Exiting(reason)) == m
  {
  }

  lemma KeysKept(t: Table, tmuxId: string, name: string)
    ensures t.sessions.Keys <= Add(t, tmuxId, name).sessions.Keys
  {
  }

  lemma RenameKeepsKeys(t: Table, id: SessionId, name: string)
    requires id in t.sessions
    ensures Rename(t, id, name).sessions.Keys == t.sessions.Keys
  {
  }

  /**
   * The handover is clean, so that startSeq is the very next number on the
   * connection, if and only if no command has been answered since; with none
   * owed an answer it always is.
   */
  lemma CleanHandover(b: ServerProxy, c: ConnectionId)
    requires b.Valid() && c < |b.connections| && b.connections[c].handedOver.Some?
    ensures var conn := b.connections[c];
      && c !in b.clients
      && ((forall k | 0 <= k < |conn.wire| :: conn.wire[k].seqNo < conn.handedOver.value) <==> conn.inFlight == conn.owed)
      && (conn.owed == 0 ==> conn.nextSeq == conn.handedOver.value)
  {
    var conn := b.connections[c];
    assert Numbered(conn) && HandoverSound(conn);
    if conn.nextSeq > conn.handedOver.value {
      assert conn.wire[|conn.wire| - 1].seqNo == |conn.wire| + 1;
    }
  }

  /** One command in flight at the handover: its answer takes the number handed over. */
  lemma AnswerCollides(c: Connection, correlationId: string)
    requires Numbered(c) && c.inFlight == 1 && c.handedOver.None?
    ensures var startSeq := c.nextSeq;
      var later := Push(c.(handedOver := Some(startSeq), owed := 1), Response(correlationId), true);
      later.wire[|later.wire| - 1].seqNo == startSeq
  {
  }
}
