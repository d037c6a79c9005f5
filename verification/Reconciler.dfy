/** The reconcile loop as the actor runs it, proved to be a run of the protocol's steps. */
module Reconciler {
  import opened Domain
  import opened Protocol
  import opened ProtocolInvariant
  import opened Convergence
  import opened Pass

  /** The users, inbounds and user_inbounds tables. Every statement may fail; a failed one changes nothing. */
  class Store {
    var users: map<Id, User>
    var inbounds: map<Id, Inbound>
    var rows: map<Key, SyncStatus>

    constructor (users: map<Id, User>, inbounds: map<Id, Inbound>, rows: map<Key, SyncStatus>)
      ensures this.users == users && this.inbounds == inbounds && this.rows == rows
    {
      this.users, this.inbounds, this.rows := users, inbounds, rows;
    }

    ghost predicate Shows(s: State)
      reads this
    {
      users == s.users && inbounds == s.inbounds && rows == s.rows
    }

    predicate Joined(k: Key, n: Id)
      reads this
    {
      k in rows && k.inbound in inbounds && k.user in users && inbounds[k.inbound].node == n
    }

    function Fetch(k: Key): Target
      requires k in rows && k.inbound in inbounds && k.user in users
      reads this
    {
      Target(k, Entry(inbounds[k.inbound].tag, users[k.user].email), rows[k])
    }

    method RemovalsForNode(n: Id, ok: bool, ghost s: State) returns (out: Option<set<Target>>)
      requires Shows(s)
      ensures out == if ok then Some(RemovalTargets(s, n)) else None
    {
      if !ok { return None; }
      var found := set k | k in rows && Joined(k, n)
                           && (rows[k] == SyncStatus.Removing || users[k.user].status != Active) :: Fetch(k);
      assert forall k :: k in rows && Joined(k, n) ==> OnNode(s, k, n) && Fetch(k) == TargetOf(s, k);
      assert found == RemovalTargets(s, n);
      out := Some(found);
    }

    method DesiredForNode(n: Id, ok: bool, ghost s: State) returns (out: Option<set<Target>>)
      requires Shows(s)
      ensures out == if ok then Some(DesiredTargets(s, n)) else None
    {
      if !ok { return None; }
      var found := set k | k in rows && Joined(k, n)
                           && users[k.user].status == Active && rows[k] != SyncStatus.Removing :: Fetch(k);
      assert forall k :: k in rows && Joined(k, n) ==> OnNode(s, k, n) && Fetch(k) == TargetOf(s, k);
      assert found == DesiredTargets(s, n);
      out := Some(found);
    }

    method DeleteAssignment(k: Key, ok: bool)
      modifies this`rows
      ensures rows == if ok then old(rows) - {k} else old(rows)
    {
      if ok { rows := rows - {k}; }
    }

    method MarkAssignmentSynced(k: Key, status: SyncStatus, ok: bool)
      modifies this`rows
      ensures rows == if ok && k in old(rows) then old(rows)[k := status] else old(rows)
    {
      if ok && k in rows { rows := rows[k := status]; }
    }
  }

  /**
   The node's user set. Success means present or absent; after a failure the call may or may not have taken effect.
   */
  class Xray {
    var entries: set<Entry>

    constructor ()
      ensures entries == {}
    {
      entries := {};
    }

    method RemoveUser(e: Entry, ok: bool) returns (ghost hit: bool)
      modifies this
      ensures entries == if ok || hit then old(entries) - {e} else old(entries)
    {
      var took: bool := *;
      hit := took;
      if ok || took { entries := entries - {e}; }
    }

    method AddUser(e: Entry, ok: bool) returns (ghost hit: bool)
      modifies this
      ensures entries == if ok || hit then old(entries) + {e} else old(entries)
    {
      var took: bool := *;
      hit := took;
      if ok || took { entries := entries + {e}; }
    }
  }

  // ---------------------------------------------------------------- what a pass meets, and what it should come to

  /** Which calls of a pass succeed: the dial, the two reads, and for each target its call and its row's write. */
  datatype Luck = Luck(dial: bool, removals: bool, desired: bool, badRemoves: set<Target>, badAdds: set<Target>,
    badDeletes: set<Key>, badMarks: set<Key>)

  function EntriesIn(ts: set<Target>): set<Entry> { set t | t in ts :: t.entry }

  /** The tombstones among the targets, apart from `bad`. */
  function Tombs(ts: set<Target>, bad: set<Key>): set<Key> {
    set t | t in ts && t.sync == SyncStatus.Removing && t.key !in bad :: t.key
  }

  /** The rows among the targets that are not marked applied yet, apart from `bad`. */
  function Unmarked(ts: set<Target>, bad: set<Key>): set<Key> {
    set t | t in ts && t.sync != Applied && t.key !in bad :: t.key
  }

  function MarkedRows(rows: map<Key, SyncStatus>, ks: set<Key>): map<Key, SyncStatus> {
    map k | k in rows :: if k in ks then Applied else rows[k]
  }

  /** Every call the pass needs in order to get through succeeds. */
  ghost predicate GetsThrough(s: State, n: Id, connected: bool, l: Luck) {
    && (connected || l.dial) && l.removals && RemovalTargets(s, n) !! l.badRemoves
    && l.desired && DesiredTargets(s, n) !! l.badAdds
  }

  /** No remove or add that the pass comes to fails, and it has a client to call with. */
  ghost predicate KeepsClient(s: State, n: Id, connected: bool, l: Luck) {
    && (connected || l.dial)
    && (l.removals ==> RemovalTargets(s, n) !! l.badRemoves && (l.desired ==> DesiredTargets(s, n) !! l.badAdds))
  }

  /** No deletion of a tombstone and no mark fails. */
  ghost predicate WritesSucceed(s: State, n: Id, l: Luck) {
    Tombs(RemovalTargets(s, n), {}) !! l.badDeletes && Unmarked(DesiredTargets(s, n), {}) !! l.badMarks
  }

  /** The rows a pass leaves that gets through: tombstones gone, pushed rows marked, the rest as they were. */
  function PassRows(s: State, n: Id, l: Luck): map<Key, SyncStatus> {
    MarkedRows(s.rows - Tombs(RemovalTargets(s, n), l.badDeletes), Unmarked(DesiredTargets(s, n), l.badMarks))
  }

  /** The push of `t` failed and its row says so, unless that write failed too. */
  predicate NotesFailure(t: Target, l: Luck, rows: map<Key, SyncStatus>) {
    t in l.badAdds && (t.key in l.badMarks || (t.key in rows && rows[t.key] == SyncStatus.Failed))
  }

  ghost predicate RecordsFailure(s: State, n: Id, l: Luck, rows: map<Key, SyncStatus>) {
    exists t :: t in DesiredTargets(s, n) && NotesFailure(t, l, rows)
  }

  /** The node and the rows once the targets `done` are removed. */
  ghost predicate Removed(e0: set<Entry>, r0: map<Key, SyncStatus>, e: set<Entry>, r: map<Key, SyncStatus>,
      done: set<Target>, bad: set<Key>) {
    e == e0 - EntriesIn(done) && r == r0 - Tombs(done, bad)
  }

  lemma RemovedOne(e0: set<Entry>, r0: map<Key, SyncStatus>, e: set<Entry>, r: map<Key, SyncStatus>,
      all: set<Target>, todo: set<Target>, d: Target, bad: set<Key>)
    requires Removed(e0, r0, e, r, all - todo, bad) && d in todo && todo <= all
    ensures Removed(e0, r0, e - {d.entry}, r - Tombs({d}, bad), all - (todo - {d}), bad)
  {
    var done := all - todo;
    assert all - (todo - {d}) == done + {d};
    assert EntriesIn(done + {d}) == EntriesIn(done) + {d.entry};
    assert Tombs(done + {d}, bad) == Tombs(done, bad) + Tombs({d}, bad);
  }

  /** The node and the rows once the targets `done` are pushed. */
  ghost predicate Added(e0: set<Entry>, r0: map<Key, SyncStatus>, e: set<Entry>, r: map<Key, SyncStatus>,
      done: set<Target>, bad: set<Key>) {
    e == e0 + EntriesIn(done) && r == MarkedRows(r0, Unmarked(done, bad))
  }

  lemma AddedOne(e0: set<Entry>, r0: map<Key, SyncStatus>, e: set<Entry>, r: map<Key, SyncStatus>,
      all: set<Target>, todo: set<Target>, d: Target, bad: set<Key>)
    requires Added(e0, r0, e, r, all - todo, bad) && d in todo && todo <= all
    ensures Added(e0, r0, e + {d.entry}, MarkedRows(r, Unmarked({d}, bad)), all - (todo - {d}), bad)
  {
    var done := all - todo;
    assert all - (todo - {d}) == done + {d};
    assert EntriesIn(done + {d}) == EntriesIn(done) + {d.entry};
    assert Unmarked(done + {d}, bad) == Unmarked(done, bad) + Unmarked({d}, bad);
  }

  lemma TombsOne(rows: map<Key, SyncStatus>, d: Target, bad: set<Key>)
    ensures rows - Tombs({d}, bad) == if d.sync == SyncStatus.Removing && d.key !in bad then rows - {d.key} else rows
  {
    assert Tombs({d}, bad) == if d.sync == SyncStatus.Removing && d.key !in bad then {d.key} else {};
  }

  lemma MarkedOne(rows: map<Key, SyncStatus>, d: Target, bad: set<Key>)
    requires d.key in rows
    ensures MarkedRows(rows, Unmarked({d}, bad)) ==
      if d.sync != Applied && d.key !in bad then rows[d.key := Applied] else rows
  {
    assert Unmarked({d}, bad) == if d.sync != Applied && d.key !in bad then {d.key} else {};
  }

  /** Deleting tombstones leaves the desired rows alone. */
  lemma SameDesiredTargets(s: State, t: State, n: Id, gone: set<Key>)
    requires t.users == s.users && t.inbounds == s.inbounds && t.rows == s.rows - gone
    requires forall k :: k in gone && k in s.rows ==> s.rows[k] == SyncStatus.Removing
    ensures DesiredTargets(t, n) == DesiredTargets(s, n)
  {
    forall k ensures OnNode(t, k, n) && Wanted(t, k) <==> OnNode(s, k, n) && Wanted(s, k) {}
    forall k | OnNode(t, k, n) ensures TargetOf(t, k) == TargetOf(s, k) {}
  }

  /** The rows of a pass through which no write failed leave nothing to do. */
  lemma PassRowsSettle(s0: State, s: State, n: Id, l: Luck)
    requires n in s.nodes && s.users == s0.users && s.inbounds == s0.inbounds && s.rows == PassRows(s0, n, l)
    requires InStep(s, n) && WritesSucceed(s0, n, l)
    ensures Settled(s, n)
  {
    forall k | k in s0.rows && OnNode(s0, k, n)
      ensures s0.rows[k] == SyncStatus.Removing ==> k in Tombs(RemovalTargets(s0, n), l.badDeletes)
      ensures Wanted(s0, k) && s0.rows[k] != Applied ==> k in Unmarked(DesiredTargets(s0, n), l.badMarks)
    {
      var x := TargetOf(s0, k);
      if Wanted(s0, k) {
        assert x in DesiredTargets(s0, n);
        assert x.sync != Applied ==> k in Unmarked(DesiredTargets(s0, n), {});
      } else {
        assert x in RemovalTargets(s0, n);
        assert x.sync == SyncStatus.Removing ==> k in Tombs(RemovalTargets(s0, n), {});
      }
    }
    forall k | k in s.rows && OnNode(s, k, n)
      ensures s.rows[k] != SyncStatus.Removing && (Wanted(s, k) ==> s.rows[k] == Applied)
    {
      assert OnNode(s0, k, n);
    }
  }

  /** `trace` is a run of node `n`'s pass steps from `s0` to `s`. */
  ghost predicate Along(s0: State, trace: seq<Action>, s: State, n: Id) {
    Reach(s0, trace) == Some(s) && PassOnly(trace, n) && n in s.nodes
  }

  lemma PassMore(s0: State, trace: seq<Action>, s: State, n: Id, step: Step)
    requires Along(s0, trace, s, n) && Ready(s.nodes[n], step) && !step.Begin?
    ensures Along(s0, trace + [Act(n, step)], Acted(s, n, step), n)
  {
    ReachMore(s0, trace, s, Act(n, step));
  }

  /** What is visible in the tables and on the node. */
  ghost predicate Looks(s: State, n: Id, users: map<Id, User>, inbounds: map<Id, Inbound>, rows: map<Key, SyncStatus>,
      entries: set<Entry>) {
    s.users == users && s.inbounds == inbounds && s.rows == rows && n in s.nodes && s.nodes[n].entries == entries
  }

  lemma ReadRemovalsRuns(s0: State, before: seq<Action>, s: State, n: Id) returns (trace: seq<Action>, t: State)
    requires Along(s0, before, s, n) && s.nodes[n].phase.Started?
    ensures Along(s0, trace, t, n) && Looks(t, n, s.users, s.inbounds, s.rows, s.nodes[n].entries)
    ensures t.nodes[n].phase == Phase.Removing(RemovalTargets(s, n))
  {
    PassMore(s0, before, s, n, ReadRemovals);
    trace, t := before + [Act(n, ReadRemovals)], Acted(s, n, ReadRemovals);
  }

  lemma ReadDesiredRuns(s0: State, before: seq<Action>, s: State, n: Id) returns (trace: seq<Action>, t: State)
    requires Along(s0, before, s, n) && s.nodes[n].phase == Phase.Removing({})
    ensures Along(s0, trace, t, n) && Looks(t, n, s.users, s.inbounds, s.rows, s.nodes[n].entries)
    ensures t.nodes[n].phase == Adding(DesiredTargets(s, n))
  {
    PassMore(s0, before, s, n, ReadDesired);
    trace, t := before + [Act(n, ReadDesired)], Acted(s, n, ReadDesired);
  }

  lemma AbortRuns(s0: State, before: seq<Action>, s: State, n: Id) returns (trace: seq<Action>, t: State)
    requires Along(s0, before, s, n) && (s.nodes[n].phase.Started? || s.nodes[n].phase == Phase.Removing({}))
    ensures Along(s0, trace, t, n) && Looks(t, n, s.users, s.inbounds, s.rows, s.nodes[n].entries)
    ensures t.nodes[n].phase == Idle
  {
    PassMore(s0, before, s, n, Abort);
    trace, t := before + [Act(n, Abort)], Acted(s, n, Abort);
  }

  lemma FinishRuns(s0: State, before: seq<Action>, s: State, n: Id) returns (trace: seq<Action>, t: State)
    requires Along(s0, before, s, n) && s.nodes[n].phase == Adding({})
    ensures Along(s0, trace, t, n) && Looks(t, n, s.users, s.inbounds, s.rows, s.nodes[n].entries)
    ensures t.nodes[n].phase == Idle && trace != [] && trace[|trace| - 1] == Act(n, Finish)
  {
    PassMore(s0, before, s, n, Finish);
    trace, t := before + [Act(n, Finish)], Acted(s, n, Finish);
  }

  lemma RemoveRuns(s0: State, before: seq<Action>, s: State, n: Id, d: Target, ok: bool, hit: bool)
    returns (trace: seq<Action>, t: State)
    requires Along(s0, before, s, n) && s.nodes[n].phase.Removing? && d in s.nodes[n].phase.todo
    ensures Along(s0, trace, t, n)
    ensures Looks(t, n, s.users, s.inbounds, s.rows,
      if ok || hit then s.nodes[n].entries - {d.entry} else s.nodes[n].entries)
    ensures t.nodes[n].phase == 
      if !ok then Idle
      else if d.sync == SyncStatus.Removing then Deleting(d, s.nodes[n].phase.todo - {d})
      else Phase.Removing(s.nodes[n].phase.todo - {d})
  {
    PassMore(s0, before, s, n, Remove(d, ok, hit));
    trace, t := before + [Act(n, Remove(d, ok, hit))], Acted(s, n, Remove(d, ok, hit));
  }

  lemma DeleteRuns(s0: State, before: seq<Action>, s: State, n: Id, gone: bool) returns (trace: seq<Action>, t: State)
    requires Along(s0, before, s, n) && s.nodes[n].phase.Deleting?
    ensures Along(s0, trace, t, n)
    ensures Looks(t, n, s.users, s.inbounds,
      if gone then s.rows - {s.nodes[n].phase.cur.key} else s.rows, s.nodes[n].entries)
    ensures t.nodes[n].phase == Phase.Removing(s.nodes[n].phase.todo)
  {
    PassMore(s0, before, s, n, DeleteRow(gone));
    trace, t := before + [Act(n, DeleteRow(gone))], Acted(s, n, DeleteRow(gone));
  }

  lemma AddRuns(s0: State, before: seq<Action>, s: State, n: Id, d: Target, ok: bool, hit: bool)
    returns (trace: seq<Action>, t: State)
    requires Along(s0, before, s, n) && s.nodes[n].phase.Adding? && d in s.nodes[n].phase.todo
    ensures Along(s0, trace, t, n)
    ensures Looks(t, n, s.users, s.inbounds, s.rows,
      if ok || hit then s.nodes[n].entries + {d.entry} else s.nodes[n].entries)
    ensures t.nodes[n].phase == 
      if !ok then Marking(d, SyncStatus.Failed, {})
      else if d.sync != Applied then Marking(d, Applied, s.nodes[n].phase.todo - {d})
      else Adding(s.nodes[n].phase.todo - {d})
  {
    PassMore(s0, before, s, n, Add(d, ok, hit));
    trace, t := before + [Act(n, Add(d, ok, hit))], Acted(s, n, Add(d, ok, hit));
  }

  lemma MarkRuns(s0: State, before: seq<Action>, s: State, n: Id, noted: bool) returns (trace: seq<Action>, t: State)
    requires Along(s0, before, s, n) && s.nodes[n].phase.Marking?
    ensures Along(s0, trace, t, n) && Looks(t, n, s.users, s.inbounds, t.rows, s.nodes[n].entries)
    ensures var p := s.nodes[n].phase;
      t.rows == if noted && p.cur.key in s.rows then s.rows[p.cur.key := p.sync] else s.rows
    ensures t.nodes[n].phase == if s.nodes[n].phase.sync == Applied then Adding(s.nodes[n].phase.todo) else Idle
  {
    PassMore(s0, before, s, n, Mark(noted));
    trace, t := before + [Act(n, Mark(noted))], Acted(s, n, Mark(noted));
  }

  lemma EndOfPass(s0: State, trace: seq<Action>, s: State, n: Id)
    requires Inv(s0) && n in s0.nodes && s0.nodes[n].phase.Started? && Along(s0, trace, s, n)
    requires trace != [] && trace[|trace| - 1] == Act(n, Finish)
    ensures n in s.nodes && InStep(s, n) && Desired(s, n) <= s.nodes[n].entries <= Desired(s, n) + s.nodes[n].orphans
    ensures AllSucceed(trace) ==> Settled(s, n)
  {
    var before := trace[..|trace| - 1];
    assert trace == before + [Act(n, Finish)];
    FinishedPassInStep(s0, before, s, n);
    if AllSucceed(trace) {
      CleanPassSettles(s0, trace, s, n);
      assert Reach(s0, before).Some?;
    }
  }

  class NodeActor {
    const id: Id
    const store: Store
    const xray: Xray
    var connected: bool   // whether a gRPC client is held

    constructor (id: Id, store: Store, xray: Xray)
      ensures this.id == id && this.store == store && this.xray == xray && !connected
    {
      this.id, this.store, this.xray, connected := id, store, xray, false;
    }

    /** The store and the node look as they do in `s`. */
    ghost predicate Shows(s: State)
      reads store, xray
    {
      Looks(s, id, store.users, store.inbounds, store.rows, xray.entries)
    }

    method EnsureClient(dial: bool) returns (ok: bool)
      modifies this
      ensures ok == connected == (old(connected) || dial)
    {
      if !connected { connected := dial; }
      ok := connected;
    }

    /**
     Removals first, then additions, giving up at the first failed RPC or read. Every outcome is a run of the
     protocol's pass steps, and the gap to the desired set never widens. The pass gets through exactly if the dial,
     both reads and every remove and add succeed; then the node holds what it held without the unwanted and with the
     desired entries, and the rows are deleted and marked save where a write failed. A failed call drops the client, and
     a failed push is recorded on its row.
     */
    method Reconcile(l: Luck, ghost s0: State) returns (finished: bool, ghost trace: seq<Action>, ghost s: State)
      requires Inv(s0) && Shows(s0) && s0.nodes[id].phase.Started?
      modifies this, store`rows, xray
      ensures Shows(s) && s.nodes[id].phase.Idle?
      ensures Reach(s0, trace) == Some(s) && PassOnly(trace, id)
      ensures Gap(s, id) <= Gap(s0, id) && Desired(s, id) == Desired(s0, id)
      ensures finished <==> GetsThrough(s0, id, old(connected), l)
      ensures connected <==> KeepsClient(s0, id, old(connected), l)
      ensures finished ==>
        xray.entries == old(xray.entries) - EntriesIn(RemovalTargets(s0, id)) + EntriesIn(DesiredTargets(s0, id))
      ensures finished ==> store.rows == PassRows(s0, id, l)
      ensures finished ==> InStep(s, id) && Desired(s0, id) <= xray.entries <= Desired(s0, id) + s.nodes[id].orphans
      ensures finished && WritesSucceed(s0, id, l) ==> Settled(s, id)
      ensures GetsThrough(s0, id, old(connected), l.(badAdds := {})) && !finished ==>
        RecordsFailure(s0, id, l, store.rows)
    {
      finished, trace, s := RunPass(l, s0);
      PassNarrows(s0, trace, s, id);
      if finished {
        EndOfPass(s0, trace, s, id);
        if WritesSucceed(s0, id, l) { PassRowsSettle(s0, s, id, l); }
      }
    }

    method RunPass(l: Luck, ghost s0: State) returns (finished: bool, ghost trace: seq<Action>, ghost s: State)
      requires Shows(s0) && s0.nodes[id].phase.Started?
      modifies this, store`rows, xray
      ensures Along(s0, trace, s, id) && Shows(s) && s.nodes[id].phase.Idle?
      ensures finished ==> trace != [] && trace[|trace| - 1] == Act(id, Finish)
      ensures finished <==> GetsThrough(s0, id, old(connected), l)
      ensures connected <==> KeepsClient(s0, id, old(connected), l)
      ensures finished ==>
        xray.entries == old(xray.entries) - EntriesIn(RemovalTargets(s0, id)) + EntriesIn(DesiredTargets(s0, id))
      ensures finished ==> store.rows == PassRows(s0, id, l)
      ensures GetsThrough(s0, id, old(connected), l.(badAdds := {})) && !finished ==>
        RecordsFailure(s0, id, l, store.rows)
    {
      finished := false;
      var ok := EnsureClient(l.dial);
      if !ok {
        trace, s := AbortRuns(s0, [], s0, id);
        return;
      }
      var removals := store.RemovalsForNode(id, l.removals, s0);
      if removals.None? {
        trace, s := AbortRuns(s0, [], s0, id);
        return;
      }
      trace, s := ReadRemovalsRuns(s0, [], s0, id);
      ok, trace, s := RemoveAll(removals.value, l, s0, trace, s);
      if !ok { return; }
      SameDesiredTargets(s0, s, id, Tombs(removals.value, l.badDeletes));
      finished, trace, s := Push(l, s0, trace, s);
    }

    method RemoveAll(removals: set<Target>, l: Luck, ghost s0: State, ghost before: seq<Action>, ghost from: State)
      returns (ok: bool, ghost trace: seq<Action>, ghost s: State)
      requires Along(s0, before, from, id) && Shows(from) && from.nodes[id].phase == Phase.Removing(removals)
      requires connected
      modifies this, store`rows, xray
      ensures Along(s0, trace, s, id) && Shows(s)
      ensures s.nodes[id].phase == if ok then Phase.Removing({}) else Idle
      ensures ok == connected == (removals !! l.badRemoves)
      ensures ok ==> xray.entries == old(xray.entries) - EntriesIn(removals)
      ensures ok ==> store.rows == old(store.rows) - Tombs(removals, l.badDeletes)
    {
      var todo := removals;
      trace, s := before, from;
      while todo != {}
        invariant Along(s0, trace, s, id) && Shows(s) && s.nodes[id].phase == Phase.Removing(todo)
        invariant todo <= removals && connected && (removals - todo) !! l.badRemoves
        invariant Removed(old(xray.entries), old(store.rows), xray.entries, store.rows, removals - todo, l.badDeletes)
        decreases |todo|
      {
        var d :| d in todo;
        ghost var entries, rows := xray.entries, store.rows;
        ok, trace, s := RemoveOne(d, l, s0, trace, s);
        if !ok { return; }
        RemovedOne(old(xray.entries), old(store.rows), entries, rows, removals, todo, d, l.badDeletes);
        todo := todo - {d};
      }
      assert removals - {} == removals;
      ok := true;
    }

    method RemoveOne(d: Target, l: Luck, ghost s0: State, ghost before: seq<Action>, ghost from: State)
      returns (ok: bool, ghost trace: seq<Action>, ghost s: State)
      requires Along(s0, before, from, id) && Shows(from) && from.nodes[id].phase.Removing?
      requires connected && d in from.nodes[id].phase.todo
      modifies this, store`rows, xray
      ensures Along(s0, trace, s, id) && Shows(s) && ok == connected == (d !in l.badRemoves)
      ensures s.nodes[id].phase == if ok then Phase.Removing(from.nodes[id].phase.todo - {d}) else Idle
      ensures ok ==> xray.entries == old(xray.entries) - {d.entry}
      ensures ok ==> store.rows == old(store.rows) - Tombs({d}, l.badDeletes)
    {
      ok := d !in l.badRemoves;
      ghost var hit := xray.RemoveUser(d.entry, ok);
      trace, s := RemoveRuns(s0, before, from, id, d, ok, hit);
      if !ok {
        connected := false;
        return;
      }
      TombsOne(store.rows, d, l.badDeletes);
      if d.sync == SyncStatus.Removing {
        store.DeleteAssignment(d.key, d.key !in l.badDeletes);
        trace, s := DeleteRuns(s0, trace, s, id, d.key !in l.badDeletes);
      }
    }

    method Push(l: Luck, ghost s0: State, ghost before: seq<Action>, ghost from: State)
      returns (finished: bool, ghost trace: seq<Action>, ghost s: State)
      requires Along(s0, before, from, id) && Shows(from) && from.nodes[id].phase == Phase.Removing({})
      requires connected
      modifies this, store`rows, xray
      ensures Along(s0, trace, s, id) && Shows(s) && s.nodes[id].phase.Idle?
      ensures finished ==> trace != [] && trace[|trace| - 1] == Act(id, Finish)
      ensures finished <==> l.desired && DesiredTargets(from, id) !! l.badAdds
      ensures connected <==> (l.desired ==> DesiredTargets(from, id) !! l.badAdds)
      ensures finished ==> xray.entries == old(xray.entries) + EntriesIn(DesiredTargets(from, id))
      ensures finished ==> store.rows == MarkedRows(old(store.rows), Unmarked(DesiredTargets(from, id), l.badMarks))
      ensures l.desired && !finished ==> RecordsFailure(from, id, l, store.rows)
    {
      var desired := store.DesiredForNode(id, l.desired, from);
      if desired.None? {
        trace, s := AbortRuns(s0, before, from, id);
        return false, trace, s;
      }
      trace, s := ReadDesiredRuns(s0, before, from, id);
      finished, trace, s := AddAll(desired.value, l, s0, trace, s);
      if finished { trace, s := FinishRuns(s0, trace, s, id); }
    }

    method AddAll(desired: set<Target>, l: Luck, ghost s0: State, ghost before: seq<Action>, ghost from: State)
      returns (ok: bool, ghost trace: seq<Action>, ghost s: State)
      requires Along(s0, before, from, id) && Shows(from) && from.nodes[id].phase == Adding(desired)
      requires connected && forall t :: t in desired ==> t.key in store.rows
      modifies this, store`rows, xray
      ensures Along(s0, trace, s, id) && Shows(s)
      ensures s.nodes[id].phase == if ok then Adding({}) else Idle
      ensures ok == connected == (desired !! l.badAdds)
      ensures ok ==> xray.entries == old(xray.entries) + EntriesIn(desired)
      ensures ok ==> store.rows == MarkedRows(old(store.rows), Unmarked(desired, l.badMarks))
      ensures !ok ==> exists t :: t in desired && NotesFailure(t, l, store.rows)
    {
      var todo := desired;
      trace, s := before, from;
      while todo != {}
        invariant Along(s0, trace, s, id) && Shows(s) && s.nodes[id].phase == Adding(todo)
        invariant todo <= desired && connected && (desired - todo) !! l.badAdds
        invariant Added(old(xray.entries), old(store.rows), xray.entries, store.rows, desired - todo, l.badMarks)
        decreases |todo|
      {
        var d :| d in todo;
        ghost var entries, rows := xray.entries, store.rows;
        ok, trace, s := AddOne(d, l, s0, trace, s);
        if !ok { return; }
        AddedOne(old(xray.entries), old(store.rows), entries, rows, desired, todo, d, l.badMarks);
        todo := todo - {d};
      }
      assert desired - {} == desired;
      ok := true;
    }

    method AddOne(d: Target, l: Luck, ghost s0: State, ghost before: seq<Action>, ghost from: State)
      returns (ok: bool, ghost trace: seq<Action>, ghost s: State)
      requires Along(s0, before, from, id) && Shows(from) && from.nodes[id].phase.Adding?
      requires connected && d in from.nodes[id].phase.todo && d.key in store.rows
      modifies this, store`rows, xray
      ensures Along(s0, trace, s, id) && Shows(s) && ok == connected == (d !in l.badAdds)
      ensures s.nodes[id].phase == if ok then Adding(from.nodes[id].phase.todo - {d}) else Idle
      ensures ok ==> xray.entries == old(xray.entries) + {d.entry}
      ensures ok ==> store.rows == MarkedRows(old(store.rows), Unmarked({d}, l.badMarks))
      ensures !ok ==> NotesFailure(d, l, store.rows)
    {
      ok := d !in l.badAdds;
      ghost var hit := xray.AddUser(d.entry, ok);
      trace, s := AddRuns(s0, before, from, id, d, ok, hit);
      if !ok {
        store.MarkAssignmentSynced(d.key, SyncStatus.Failed, d.key !in l.badMarks);
        trace, s := MarkRuns(s0, trace, s, id, d.key !in l.badMarks);
        connected := false;
        return;
      }
      if d.sync != Applied {
        store.MarkAssignmentSynced(d.key, Applied, d.key !in l.badMarks);
        trace, s := MarkRuns(s0, trace, s, id, d.key !in l.badMarks);
      }
      MarkedOne(old(store.rows), d, l.badMarks);
    }
  }
}
