/** The inductive invariant of the convergence protocol and its preservation by every action. */
module ProtocolInvariant {
  import opened Domain
  import opened Protocol

  /** The pending operation will still reach node `n` on account of user `u`. */
  predicate Signals(op: Op, n: Id, u: Id) {
    || (op.Lookup? && op.user == u)
    || ((op.Fire? || op.Drop?) && n in op.nodes)
  }

  ghost predicate Pends(s: State, n: Id, u: Id) {
    exists op :: op in s.ops && Signals(op, n, u)
  }

  /** Nothing announces that the rows of `u` on node `n` may be out of step. */
  ghost predicate Silent(s: State, n: Id, u: Id)
    requires n in s.nodes
  {
    var nd := s.nodes[n];
    !nd.token && !nd.dirty && !nd.missed && !Pends(s, n, u)
  }

  predicate Listed(todo: set<Target>, k: Key) { exists t :: t in todo && t.key == k }

  ghost predicate OnePerKey(todo: set<Target>) {
    forall t, t' :: t in todo && t' in todo && t.key == t'.key ==> t == t'
  }

  /** What an unannounced row and its entry satisfy, by the point the pass has reached. */
  ghost predicate RowOk(s: State, n: Id, k: Key)
    requires n in s.nodes && OnNode(s, k, n)
  {
    var nd := s.nodes[n];
    match nd.phase
    case Idle => EntryOf(s, k) in nd.entries <==> Wanted(s, k)
    case Started => true
    case Removing(todo) => !Wanted(s, k) && EntryOf(s, k) in nd.entries ==> Listed(todo, k)
    case Deleting(_, todo) => !Wanted(s, k) && EntryOf(s, k) in nd.entries ==> Listed(todo, k)
    case Adding(todo) => AddOk(s, n, k, todo)
    case Marking(_, _, todo) => AddOk(s, n, k, todo)
  }

  ghost predicate AddOk(s: State, n: Id, k: Key, todo: set<Target>)
    requires n in s.nodes && OnNode(s, k, n)
  {
    && (!Wanted(s, k) ==> EntryOf(s, k) !in s.nodes[n].entries)
    && (Wanted(s, k) && !Listed(todo, k) ==> EntryOf(s, k) in s.nodes[n].entries)
  }

  ghost predicate RowsOk(s: State, n: Id)
    requires n in s.nodes
  {
    forall k :: k in s.rows && OnNode(s, k, n) && Silent(s, n, k.user) ==> RowOk(s, n, k)
  }

  /** A target the actor still holds names its row, unless the row's user has been deleted. */
  ghost predicate Held(s: State, n: Id, t: Target) {
    && t.key.user in s.issued
    && t.key.inbound in s.inbounds && s.inbounds[t.key.inbound].node == n
    && (t.key in s.rows ==> OnNode(s, t.key, n) && EntryOf(s, t.key) == t.entry)
    && (t.key !in s.rows ==> t.key.user !in s.users)
  }

  /** A tombstone the pass has read is still a tombstone. */
  ghost predicate HeldRemoval(s: State, n: Id, t: Target) {
    Held(s, n, t) && (t.sync == SyncStatus.Removing && t.key in s.rows ==> s.rows[t.key] == SyncStatus.Removing)
  }

  ghost predicate HeldAddition(s: State, n: Id, t: Target)
    requires n in s.nodes
  {
    && Held(s, n, t)
    && (t.key !in s.rows ==> t.entry in s.nodes[n].orphans)
    && (t.key in s.rows && t.key.user in s.users && Silent(s, n, t.key.user) ==> Wanted(s, t.key))
    && (forall k :: k in s.rows && OnNode(s, k, n) && EntryOf(s, k) == t.entry && k != t.key ==> !Silent(s, n, k.user))
  }

  ghost predicate PhaseOk(s: State, n: Id)
    requires n in s.nodes
  {
    var nd := s.nodes[n];
    match nd.phase
    case Idle => true
    case Started => true
    case Removing(todo) => OnePerKey(todo) && forall t :: t in todo ==> HeldRemoval(s, n, t)
    case Deleting(cur, todo) =>
      && OnePerKey(todo) && !Listed(todo, cur.key) && (forall t :: t in todo ==> HeldRemoval(s, n, t))
      && HeldRemoval(s, n, cur) && cur.sync == SyncStatus.Removing && cur.entry !in nd.entries
    case Adding(todo) => forall t :: t in todo ==> HeldAddition(s, n, t)
    case Marking(cur, sync, todo) =>
      && (forall t :: t in todo ==> HeldAddition(s, n, t))
      && HeldAddition(s, n, cur)
      && (sync == Applied || (sync == SyncStatus.Failed && nd.dirty))
  }

  /** Wake-ups: the token, or a pass about to read, or a removals read that came after the write. */
  ghost predicate ClockOk(s: State, n: Id)
    requires n in s.nodes
  {
    var nd := s.nodes[n];
    && nd.asked <= s.clock && nd.remRead <= s.clock
    && (nd.token || nd.phase.Started? || nd.asked <= nd.remRead || nd.skipped)
    && (nd.skipped ==> nd.dirty)
    && ((nd.phase.Idle? && !nd.dirty) || Pushing(nd.phase) ==> nd.remRead <= nd.desRead)
  }

  ghost predicate OpsOk(s: State) {
    forall op :: op in s.ops && (op.Lookup? || op.Fire? || op.Drop?) ==> op.at <= s.clock
  }

  ghost predicate NodeInv(s: State, n: Id)
    requires n in s.nodes
  {
    Tracked(s, n) && RowsOk(s, n) && PhaseOk(s, n) && ClockOk(s, n)
  }

  ghost predicate Schema(s: State) { Referential(s) && Unique(s) && OpsOk(s) }

  ghost predicate Inv(s: State) {
    Schema(s) && forall n :: n in s.nodes ==> NodeInv(s, n)
  }

  lemma InitInv(s: State)
    requires Init(s)
    ensures Inv(s)
  {
  }

  // ---------------------------------------------------------------- changes around a node

  ghost predicate Kept(s: State, s': State, n: Id, k: Key)
    requires OnNode(s, k, n)
  {
    && OnNode(s', k, n) && EntryOf(s', k) == EntryOf(s, k)
    && (s.rows[k] == SyncStatus.Removing ==> s'.rows[k] == SyncStatus.Removing)
  }

  ghost predicate Cascaded(s: State, s': State, n: Id, k: Key)
    requires OnNode(s, k, n) && n in s.nodes && n in s'.nodes
  {
    && k !in s'.rows && k.user !in s'.users
    && (EntryOf(s, k) in s'.nodes[n].orphans
        || (EntryOf(s, k) !in s.nodes[n].entries && !Pushing(s.nodes[n].phase)))
  }

  /** A silent row was silent before, and asks for the same thing. */
  ghost predicate Steady(s: State, s': State, n: Id, k: Key)
    requires OnNode(s', k, n) && n in s.nodes && n in s'.nodes
  {
    && OnNode(s, k, n) && Silent(s, n, k.user)
    && EntryOf(s', k) == EntryOf(s, k) && Wanted(s', k) == Wanted(s, k)
  }

  /** The database moved under node `n`, and whatever changed for it is announced. */
  ghost predicate Shift(s: State, s': State, n: Id) {
    && n in s.nodes && n in s'.nodes
    && s'.nodes[n].entries == s.nodes[n].entries && s'.nodes[n].phase == s.nodes[n].phase
    && s'.nodes[n].dirty == s.nodes[n].dirty && s.nodes[n].orphans <= s'.nodes[n].orphans
    && s'.inbounds == s.inbounds && s.issued <= s'.issued
    && (forall k :: k in s.rows && OnNode(s, k, n) ==> Kept(s, s', n, k) || Cascaded(s, s', n, k))
    && (forall k :: k in s'.rows && OnNode(s', k, n) && Silent(s', n, k.user) ==> Steady(s, s', n, k))
    && (forall k: Key :: k.user in s.issued && k !in s.rows && k.user !in s.users ==>
      k !in s'.rows && k.user !in s'.users)
  }

  lemma ShiftTracked(s: State, s': State, n: Id)
    requires Shift(s, s', n) && Tracked(s, n)
    ensures Tracked(s', n)
  {
    forall e | e in s'.nodes[n].entries ensures e in s'.nodes[n].orphans || HasRow(s', n, e) {
      if HasRow(s, n, e) {
        var k :| k in s.rows && OnNode(s, k, n) && EntryOf(s, k) == e;
        assert Kept(s, s', n, k) || Cascaded(s, s', n, k);
      }
    }
  }

  lemma ShiftRows(s: State, s': State, n: Id)
    requires Shift(s, s', n) && RowsOk(s, n)
    ensures RowsOk(s', n)
  {
    forall k | k in s'.rows && OnNode(s', k, n) && Silent(s', n, k.user) ensures RowOk(s', n, k) {
      assert Steady(s, s', n, k);
      assert RowOk(s, n, k);
    }
  }

  lemma ShiftHeld(s: State, s': State, n: Id, t: Target)
    requires Shift(s, s', n)
    ensures HeldRemoval(s, n, t) ==> HeldRemoval(s', n, t)
    ensures HeldAddition(s, n, t) && Pushing(s.nodes[n].phase) ==> HeldAddition(s', n, t)
  {
    if Held(s, n, t) && t.key in s.rows {
      assert Kept(s, s', n, t.key) || Cascaded(s, s', n, t.key);
    }
  }

  lemma ShiftInv(s: State, s': State, n: Id)
    requires Shift(s, s', n) && NodeInv(s, n) && ClockOk(s', n)
    ensures NodeInv(s', n)
  {
    ShiftTracked(s, s', n);
    ShiftRows(s, s', n);
    forall t ensures HeldRemoval(s, n, t) ==> HeldRemoval(s', n, t) { ShiftHeld(s, s', n, t); }
    forall t ensures HeldAddition(s, n, t) && Pushing(s.nodes[n].phase) ==> HeldAddition(s', n, t) {
      ShiftHeld(s, s', n, t);
    }
  }

  // ---------------------------------------------------------------- the actor's own steps

  /** `s'` differs from `s` only in the record of node `m` and in rows of node `m`. */
  ghost predicate OnlyNode(s: State, s': State, m: Id) {
    && s'.(nodes := s.nodes, rows := s.rows) == s && s'.nodes.Keys == s.nodes.Keys
    && (forall n :: n in s.nodes && n != m ==> s'.nodes[n] == s.nodes[n])
    && s'.rows.Keys <= s.rows.Keys
    && (forall k :: k in s.rows && !OnNode(s, k, m) ==> k in s'.rows && s'.rows[k] == s.rows[k])
  }

  lemma ElsewhereInv(s: State, s': State, m: Id, n: Id)
    requires OnlyNode(s, s', m) && n in s.nodes && n != m && NodeInv(s, n)
    ensures NodeInv(s', n)
  {
    forall u ensures Pends(s', n, u) == Pends(s, n, u) {}
    forall k | OnNode(s, k, n) ensures Kept(s, s', n, k) { assert !OnNode(s, k, m); }
    forall k | k in s'.rows && OnNode(s', k, n) && Silent(s', n, k.user) ensures Steady(s, s', n, k) {
      assert OnNode(s, k, n) && !OnNode(s, k, m);
    }
    ShiftInv(s, s', n);
  }

  /** Rows of node `n` and the signals for them as before; only the node record changed. */
  ghost predicate SameRows(s: State, s': State, n: Id) {
    && n in s.nodes && n in s'.nodes
    && s'.(nodes := s.nodes) == s
  }

  lemma SameTracked(s: State, s': State, n: Id)
    requires SameRows(s, s', n)
    ensures forall e :: HasRow(s', n, e) == HasRow(s, n, e)
    ensures forall k :: OnNode(s', k, n) == OnNode(s, k, n)
    ensures forall k :: k in s.rows && k.user in s.users ==> Wanted(s', k) == Wanted(s, k)
    ensures forall u :: Pends(s', n, u) == Pends(s, n, u)
  {
    forall k ensures OnNode(s', k, n) == OnNode(s, k, n) {}
    forall e ensures HasRow(s', n, e) == HasRow(s, n, e) {
      if HasRow(s, n, e) {
        var k :| k in s.rows && OnNode(s, k, n) && EntryOf(s, k) == e;
        assert OnNode(s', k, n);
      }
    }
  }

  lemma BeginInv(s: State, n: Id, byToken: bool)
    requires n in s.nodes && NodeInv(s, n) && Ready(s.nodes[n], Begin(byToken))
    ensures NodeInv(DoBegin(s, n, byToken), n)
  {
    SameTracked(s, DoBegin(s, n, byToken), n);
  }

  lemma AbortInv(s: State, n: Id)
    requires n in s.nodes && NodeInv(s, n) && Ready(s.nodes[n], Abort)
    ensures NodeInv(DoAbort(s, n), n)
  {
    SameTracked(s, DoAbort(s, n), n);
  }

  lemma FinishInv(s: State, n: Id)
    requires n in s.nodes && NodeInv(s, n) && Ready(s.nodes[n], Finish)
    ensures NodeInv(DoFinish(s, n), n)
  {
    var s' := DoFinish(s, n);
    SameTracked(s, s', n);
    forall k | k in s'.rows && OnNode(s', k, n) && Silent(s', n, k.user) ensures RowOk(s', n, k) {
      assert Silent(s, n, k.user) && RowOk(s, n, k) && !Listed({}, k);
    }
  }

  lemma ReadRemovalsInv(s: State, n: Id)
    requires Schema(s) && n in s.nodes && NodeInv(s, n) && Ready(s.nodes[n], ReadRemovals)
    ensures NodeInv(DoReadRemovals(s, n), n)
  {
    var s' := DoReadRemovals(s, n);
    SameTracked(s, s', n);
    forall k | k in s'.rows && OnNode(s', k, n) ensures RowOk(s', n, k) {
      if !Wanted(s', k) { assert TargetOf(s, k) in RemovalTargets(s, n); }
    }
  }

  lemma ReadDesiredInv(s: State, n: Id)
    requires Schema(s) && n in s.nodes && NodeInv(s, n) && Ready(s.nodes[n], ReadDesired)
    ensures NodeInv(DoReadDesired(s, n), n)
  {
    var s' := DoReadDesired(s, n);
    SameTracked(s, s', n);
    forall k | k in s'.rows && OnNode(s', k, n) && Silent(s', n, k.user) ensures RowOk(s', n, k) {
      assert Silent(s, n, k.user) && RowOk(s, n, k) && !Listed({}, k);
      if Wanted(s', k) { assert TargetOf(s, k) in DesiredTargets(s, n); }
    }
    forall t | t in DesiredTargets(s, n) ensures HeldAddition(s', n, t) {
      var k :| k in s.rows && OnNode(s, k, n) && Wanted(s, k) && t == TargetOf(s, k);
      forall j | j in s'.rows && OnNode(s', j, n) && EntryOf(s', j) == t.entry ensures j == k {
        assert s.inbounds[j.inbound] == s.inbounds[k.inbound];
      }
    }
  }

  lemma RemoveInv(s: State, n: Id, t: Target, ok: bool, hit: bool)
    requires n in s.nodes && NodeInv(s, n) && Ready(s.nodes[n], Remove(t, ok, hit))
    ensures NodeInv(DoRemove(s, n, t, ok, hit), n)
  {
    var s' := DoRemove(s, n, t, ok, hit);
    SameTracked(s, s', n);
    RemoveTracked(s, s', n);
    assert HeldRemoval(s, n, t);
    forall t' | HeldRemoval(s, n, t') ensures HeldRemoval(s', n, t') {}
    if ok { RemoveRows(s, s', n, t); }
  }

  lemma RemoveTracked(s: State, s': State, n: Id)
    requires SameRows(s, s', n) && Tracked(s, n) && s'.nodes[n].entries <= s.nodes[n].entries
    requires s'.nodes[n].entries * s.nodes[n].orphans <= s'.nodes[n].orphans
    ensures Tracked(s', n)
  {
    SameTracked(s, s', n);
  }

  lemma RemoveRows(s: State, s': State, n: Id, t: Target)
    requires SameRows(s, s', n) && RowsOk(s, n) && HeldRemoval(s, n, t)
    requires s.nodes[n].phase.Removing? && t in s.nodes[n].phase.todo
    requires (s'.nodes[n].phase.Removing? || s'.nodes[n].phase.Deleting?)
    requires s'.nodes[n].phase.todo == s.nodes[n].phase.todo - {t}
    requires s'.nodes[n].entries == s.nodes[n].entries - {t.entry}
    requires forall u :: Silent(s', n, u) ==> Silent(s, n, u)
    ensures RowsOk(s', n)
  {
    SameTracked(s, s', n);
    forall k | k in s'.rows && OnNode(s', k, n) && Silent(s', n, k.user) ensures RowOk(s', n, k) {
      assert Silent(s, n, k.user) && RowOk(s, n, k);
      if !Wanted(s', k) && EntryOf(s', k) in s'.nodes[n].entries {
        var t' :| t' in s.nodes[n].phase.todo && t'.key == k;
        assert t' in s'.nodes[n].phase.todo;
      }
    }
  }

  lemma AddInv(s: State, n: Id, t: Target, ok: bool, hit: bool)
    requires n in s.nodes && NodeInv(s, n) && Ready(s.nodes[n], Add(t, ok, hit))
    ensures NodeInv(DoAdd(s, n, t, ok, hit), n)
  {
    var s' := DoAdd(s, n, t, ok, hit);
    assert HeldAddition(s, n, t);
    SameTracked(s, s', n);
    assert s'.nodes[n].entries <= s.nodes[n].entries + {t.entry};
    assert s'.nodes[n].phase.todo <= s.nodes[n].phase.todo;
    AddTracked(s, s', n, t);
    AddHeld(s, s', n);
    if ok { AddRows(s, s', n, t); }
  }

  lemma AddTracked(s: State, s': State, n: Id, t: Target)
    requires SameRows(s, s', n) && Tracked(s, n) && HeldAddition(s, n, t)
    requires s'.nodes[n].orphans == s.nodes[n].orphans && s'.nodes[n].entries <= s.nodes[n].entries + {t.entry}
    ensures Tracked(s', n)
  {
    SameTracked(s, s', n);
    assert t.entry in s.nodes[n].orphans || HasRow(s, n, t.entry);
  }

  lemma AddHeld(s: State, s': State, n: Id)
    requires SameRows(s, s', n) && s'.nodes[n].orphans == s.nodes[n].orphans
    requires forall u :: Silent(s', n, u) ==> Silent(s, n, u)
    ensures forall t :: HeldAddition(s, n, t) ==> HeldAddition(s', n, t)
  {
    SameTracked(s, s', n);
  }

  lemma AddRows(s: State, s': State, n: Id, t: Target)
    requires SameRows(s, s', n) && RowsOk(s, n) && HeldAddition(s, n, t)
    requires s.nodes[n].phase.Adding? && t in s.nodes[n].phase.todo
    requires Pushing(s'.nodes[n].phase) && s'.nodes[n].phase.todo == s.nodes[n].phase.todo - {t}
    requires s'.nodes[n].entries == s.nodes[n].entries + {t.entry}
    requires forall u :: Silent(s', n, u) ==> Silent(s, n, u)
    ensures RowsOk(s', n)
  {
    SameTracked(s, s', n);
    forall k | k in s'.rows && OnNode(s', k, n) && Silent(s', n, k.user) ensures RowOk(s', n, k) {
      assert Silent(s, n, k.user) && RowOk(s, n, k);
      if Wanted(s', k) && Listed(s.nodes[n].phase.todo, k) && k != t.key {
        var t' :| t' in s.nodes[n].phase.todo && t'.key == k;
        assert t' in s'.nodes[n].phase.todo;
      }
    }
  }

  lemma DeleteRowInv(s: State, n: Id, ok: bool)
    requires n in s.nodes && NodeInv(s, n) && Ready(s.nodes[n], DeleteRow(ok))
    ensures NodeInv(DoDeleteRow(s, n, ok), n)
  {
    var s', k0 := DoDeleteRow(s, n, ok), s.nodes[n].phase.cur.key;
    assert NodeInv(s, n);
    forall k | OnNode(s', k, n) ensures OnNode(s, k, n) && Wanted(s', k) == Wanted(s, k) {}
    forall e | HasRow(s, n, e) && e in s.nodes[n].entries ensures HasRow(s', n, e) {
      var k :| k in s.rows && OnNode(s, k, n) && EntryOf(s, k) == e;
      assert OnNode(s', k, n);
    }
    assert Tracked(s', n);
    forall u ensures Pends(s', n, u) == Pends(s, n, u) {}
    forall k | k in s'.rows && OnNode(s', k, n) && Silent(s', n, k.user) ensures RowOk(s', n, k) {
      assert Silent(s, n, k.user) && RowOk(s, n, k);
    }
    forall t | t in s.nodes[n].phase.todo ensures HeldRemoval(s', n, t) {
      assert HeldRemoval(s, n, t) && t.key != k0;
    }
  }

  lemma MarkInv(s: State, n: Id, ok: bool)
    requires n in s.nodes && NodeInv(s, n) && Ready(s.nodes[n], Mark(ok))
    ensures NodeInv(DoMark(s, n, ok), n)
  {
    var s', cur := DoMark(s, n, ok), s.nodes[n].phase.cur;
    assert HeldAddition(s, n, cur);
    forall k ensures OnNode(s', k, n) == OnNode(s, k, n) {}
    forall e | HasRow(s, n, e) ensures HasRow(s', n, e) {
      var k :| k in s.rows && OnNode(s, k, n) && EntryOf(s, k) == e;
      assert OnNode(s', k, n);
    }
    forall u ensures Pends(s', n, u) == Pends(s, n, u) {}
    forall k | k in s'.rows && OnNode(s', k, n) && Silent(s', n, k.user)
      ensures Wanted(s', k) == Wanted(s, k) && RowOk(s', n, k)
    {
      assert Silent(s, n, k.user) && RowOk(s, n, k);
    }
    forall t | HeldAddition(s, n, t) ensures HeldAddition(s', n, t) {}
  }

  // ---------------------------------------------------------------- requests, sweeps and triggers

  lemma CreateInv(s: State, u0: Id, r: User, ibs: set<Id>, n: Id)
    requires Schema(s) && n in s.nodes && NodeInv(s, n) && Allowed(s, Create(u0, r, ibs))
    ensures NodeInv(DoCreate(s, u0, r, ibs), n)
  {
    var s' := DoCreate(s, u0, r, ibs);
    forall u | Pends(s, n, u) ensures Pends(s', n, u) {
      var o :| o in s.ops && Signals(o, n, u);
      assert o in s'.ops;
    }
    assert Lookup(u0, s.clock + 1) in s'.ops && Signals(Lookup(u0, s.clock + 1), n, u0);
    forall k | OnNode(s, k, n) ensures Kept(s, s', n, k) {}
    forall k | k in s'.rows && OnNode(s', k, n) && Silent(s', n, k.user) ensures Steady(s, s', n, k) {
      assert k.user != u0;
    }
    ShiftInv(s, s', n);
  }

  lemma WritePends(s: State, us: map<Id, User>, told: set<Id>, n: Id, u: Id)
    requires Pends(s, n, u) || u in told
    ensures Pends(DoWriteUsers(s, us, told), n, u)
  {
    var s' := DoWriteUsers(s, us, told);
    if u in told {
      assert Lookup(u, s.clock + 1) in s'.ops && Signals(Lookup(u, s.clock + 1), n, u);
    } else {
      var o :| o in s.ops && Signals(o, n, u);
      assert o in s'.ops;
    }
  }

  lemma WriteSteady(s: State, us: map<Id, User>, told: set<Id>, n: Id, k: Key)
    requires n in s.nodes && Allowed(s, WriteUsers(us, told))
    requires OnNode(DoWriteUsers(s, us, told), k, n) && Silent(DoWriteUsers(s, us, told), n, k.user)
    ensures Steady(s, DoWriteUsers(s, us, told), n, k)
  {
    if Pends(s, n, k.user) || k.user in told { WritePends(s, us, told, n, k.user); }
    assert k.user in told || !FlipsUntold(s, us, told, n);
  }

  lemma WriteUsersInv(s: State, us: map<Id, User>, told: set<Id>, n: Id)
    requires Schema(s) && n in s.nodes && NodeInv(s, n) && Allowed(s, WriteUsers(us, told))
    ensures NodeInv(DoWriteUsers(s, us, told), n)
  {
    var s' := DoWriteUsers(s, us, told);
    forall k | OnNode(s, k, n) ensures Kept(s, s', n, k) {}
    forall k | k in s'.rows && OnNode(s', k, n) && Silent(s', n, k.user) ensures Steady(s, s', n, k) {
      WriteSteady(s, us, told, n, k);
    }
    ShiftInv(s, s', n);
  }

  lemma RewriteInv(s: State, op: Op, n: Id)
    requires Schema(s) && n in s.nodes && NodeInv(s, n) && Allowed(s, CommitRewrite(op))
    ensures NodeInv(DoRewrite(s, op), n)
  {
    QuietOpInv(s, Take(s, op), n);
    WriteUsersInv(s.(ops := Take(s, op)), Rewritten(s, op), {}, n);
  }

  /** The rows and users stand still: it is enough that rows silent now were silent before. */
  lemma StillInv(s: State, s': State, n: Id)
    requires n in s.nodes && NodeInv(s, n) && n in s'.nodes && s'.(nodes := s.nodes, ops := s.ops) == s
    requires var nd' := s'.nodes[n]; nd' == s.nodes[n].(token := nd'.token, missed := nd'.missed, asked := nd'.asked)
    requires ClockOk(s', n)
    requires forall k :: k in s.rows && OnNode(s, k, n) && Silent(s', n, k.user) ==> Silent(s, n, k.user)
    ensures NodeInv(s', n)
  {
    forall k ensures OnNode(s', k, n) == OnNode(s, k, n) {}
    forall k | OnNode(s, k, n) ensures Kept(s, s', n, k) {}
    forall k | k in s'.rows && OnNode(s', k, n) && Silent(s', n, k.user) ensures Steady(s, s', n, k) {}
    ShiftInv(s, s', n);
  }

  lemma FindTargetsInv(s: State, op: Op, n: Id)
    requires Schema(s) && n in s.nodes && NodeInv(s, n) && Allowed(s, FindTargets(op))
    ensures NodeInv(DoFindTargets(s, op), n)
  {
    var s' := DoFindTargets(s, op);
    var fire := Fire(NodesOf(s, op.user), op.at);
    forall k | k in s.rows && OnNode(s, k, n) && Pends(s, n, k.user) ensures Pends(s', n, k.user) {
      var o :| o in s.ops && Signals(o, n, k.user);
      if o == op { assert fire in s'.ops && Signals(fire, n, k.user); } else { assert o in s'.ops; }
    }
    StillInv(s, s', n);
  }

  lemma FailTargetsInv(s: State, op: Op, n: Id)
    requires Schema(s) && n in s.nodes && NodeInv(s, n) && Allowed(s, FailTargets(op))
    ensures NodeInv(DoFailTargets(s, op), n)
  {
    var s' := DoFailTargets(s, op);
    forall k | k in s.rows && OnNode(s, k, n) && Pends(s, n, k.user)
      ensures Pends(s', n, k.user) || s'.nodes[n].missed
    {
      var o :| o in s.ops && Signals(o, n, k.user);
      if o == op { assert n in NodesOf(s, op.user); } else { assert o in s'.ops; }
    }
    StillInv(s, s', n);
  }

  lemma TriggerInv(s: State, op: Op, m: Id, n: Id)
    requires Schema(s) && n in s.nodes && NodeInv(s, n) && Allowed(s, Trigger(op, m))
    ensures NodeInv(DoTrigger(s, op, m), n)
  {
    var s' := DoTrigger(s, op, m);
    var rest := Without(op, m);
    forall u | Pends(s, n, u) ensures Pends(s', n, u) || n == m {
      var o :| o in s.ops && Signals(o, n, u);
      if o == op { assert rest in s'.ops && (n != m ==> Signals(rest, n, u)); } else { assert o in s'.ops; }
    }
    StillInv(s, s', n);
  }

  /** Operations that signal nobody come and go unnoticed. */
  lemma QuietOpInv(s: State, ops: multiset<Op>, n: Id)
    requires n in s.nodes && NodeInv(s, n)
    requires forall o, u :: o in s.ops && Signals(o, n, u) ==> o in ops
    ensures NodeInv(s.(ops := ops), n)
  {
    var s' := s.(ops := ops);
    forall u | Pends(s, n, u) ensures Pends(s', n, u) {
      var o :| o in s.ops && Signals(o, n, u);
      assert o in s'.ops;
    }
    StillInv(s, s', n);
  }

  /** Tombstoning rows of `u`, told to `told`, with untold losses recorded as missed. */
  lemma RetireInv(s: State, s': State, u: Id, kept: set<Id>, told: set<Id>, n: Id)
    requires Schema(s) && n in s.nodes && NodeInv(s, n)
    requires s'.(nodes := s.nodes, ops := s.ops, rows := s.rows, clock := s.clock) == s && s.clock <= s'.clock
    requires s'.nodes == MissAll(s, u, kept, told)
    requires forall v :: Pends(s, n, v) ==> Pends(s', n, v)
    requires n in told ==> forall v :: Pends(s', n, v)
    requires s.rows.Keys <= s'.rows.Keys
    requires forall k :: k in s.rows ==>
      s'.rows[k] == if k.user == u && k.inbound !in kept then SyncStatus.Removing else s.rows[k]
    requires forall k :: k in s'.rows && k !in s.rows && OnNode(s', k, n) ==> n in told
    requires forall k :: k in s'.rows && k !in s.rows ==> k.user in s.users
    ensures NodeInv(s', n)
  {
    forall k | OnNode(s, k, n) ensures Kept(s, s', n, k) {}
    forall k | k in s.rows && OnNode(s, k, n) && k.user == u && k.inbound !in kept && Wanted(s, k) && n !in told
      ensures LosesUntold(s, u, kept, told, n) {}
    forall k | k in s'.rows && OnNode(s', k, n) && Silent(s', n, k.user) ensures Steady(s, s', n, k) {}
    ShiftInv(s, s', n);
  }

  lemma CommitReplaceInv(s: State, op: Op, n: Id)
    requires Schema(s) && n in s.nodes && NodeInv(s, n) && Allowed(s, CommitReplace(op))
    ensures NodeInv(DoReplace(s, op), n)
  {
    var s' := DoReplace(s, op);
    var told := Told(s, op);
    assert Fire(told, s.clock + 1) in s'.ops;
    forall v ensures n in told ==> Pends(s', n, v) {
      if n in told { assert Signals(Fire(told, s.clock + 1), n, v); }
    }
    forall v | Pends(s, n, v) ensures Pends(s', n, v) {
      var o :| o in s.ops && Signals(o, n, v);
      assert o in s'.ops;
    }
    forall k | k in s'.rows && k !in s.rows ensures k.user in s.users && (OnNode(s', k, n) ==> n in told) {
      assert k in KeysFor(op.user, op.inbounds);
    }
    RetireInv(s, s', op.user, op.inbounds, told, n);
  }

  lemma CommitTombstoneInv(s: State, op: Op, n: Id)
    requires Schema(s) && n in s.nodes && NodeInv(s, n) && Allowed(s, CommitTombstone(op))
    ensures NodeInv(DoTombstone(s, op), n)
  {
    var s' := DoTombstone(s, op);
    var drop := Drop(op.user, op.nodes, s.clock + 1);
    assert drop in s'.ops;
    forall v ensures n in op.nodes ==> Pends(s', n, v) {
      if n in op.nodes { assert Signals(drop, n, v); }
    }
    forall v | Pends(s, n, v) ensures Pends(s', n, v) {
      var o :| o in s.ops && Signals(o, n, v);
      assert o in s'.ops;
    }
    RetireInv(s, s', op.user, {}, op.nodes, n);
  }

  lemma DropCascades(s: State, op: Op, n: Id, k: Key)
    requires Allowed(s, CommitDrop(op)) && n in s.nodes && OnNode(s, k, n) && k.user == op.user
    ensures Cascaded(s, DoDrop(s, op), n, k)
  {
  }

  lemma DropKeeps(s: State, op: Op, n: Id, k: Key)
    requires Allowed(s, CommitDrop(op)) && n in s.nodes
    ensures OnNode(DoDrop(s, op), k, n) <==> OnNode(s, k, n) && k.user != op.user
    ensures OnNode(s, k, n) && k.user != op.user ==>
      Kept(s, DoDrop(s, op), n, k) && Wanted(DoDrop(s, op), k) == Wanted(s, k)
  {
  }

  lemma DropPends(s: State, op: Op, n: Id, u: Id)
    requires Allowed(s, CommitDrop(op)) && n in s.nodes
    ensures Silent(DoDrop(s, op), n, u) ==> Silent(s, n, u)
  {
    if Pends(s, n, u) {
      var o :| o in s.ops && Signals(o, n, u);
      assert o in DoDrop(s, op).ops;
    }
  }

  lemma CommitDropInv(s: State, op: Op, n: Id)
    requires Schema(s) && n in s.nodes && NodeInv(s, n) && Allowed(s, CommitDrop(op))
    ensures NodeInv(DoDrop(s, op), n)
  {
    var s' := DoDrop(s, op);
    forall k ensures OnNode(s, k, n) ==> Kept(s, s', n, k) || Cascaded(s, s', n, k) {
      DropKeeps(s, op, n, k);
      if OnNode(s, k, n) && k.user == op.user { DropCascades(s, op, n, k); }
    }
    forall k | k in s'.rows && OnNode(s', k, n) && Silent(s', n, k.user) ensures Steady(s, s', n, k) {
      DropKeeps(s, op, n, k);
      DropPends(s, op, n, k.user);
    }
    ShiftInv(s, s', n);
  }

  // ---------------------------------------------------------------- restarts

  lemma RestartNodeInv(s: State, n: Id)
    requires n in s.nodes && NodeInv(s, n)
    ensures NodeInv(DoRestartNode(s, n), n)
  {
    SameTracked(s, DoRestartNode(s, n), n);
  }

  lemma RestartServiceInv(s: State, n: Id)
    requires n in s.nodes && NodeInv(s, n)
    ensures NodeInv(DoRestartService(s), n)
  {
    var s' := DoRestartService(s);
    forall e | HasRow(s, n, e) ensures HasRow(s', n, e) {
      var k :| k in s.rows && OnNode(s, k, n) && EntryOf(s, k) == e;
      assert OnNode(s', k, n);
    }
  }

  // ---------------------------------------------------------------- the schema

  lemma OnlyNodeSchema(s: State, s': State, m: Id)
    requires Schema(s) && OnlyNode(s, s', m)
    ensures Schema(s')
  {
  }

  lemma ReplaceSchema(s: State, op: Op)
    requires Schema(s) && Allowed(s, CommitReplace(op))
    ensures Schema(DoReplace(s, op))
  {
    var s' := DoReplace(s, op);
    forall k | k in s'.rows ensures k.user in s'.users && k.inbound in s'.inbounds {
      if k !in s.rows { assert k in KeysFor(op.user, op.inbounds); }
    }
  }

  lemma CreateSchema(s: State, u: Id, r: User, ibs: set<Id>)
    requires Schema(s) && Allowed(s, Create(u, r, ibs))
    ensures Schema(DoCreate(s, u, r, ibs))
  {
  }

  lemma WriteUsersSchema(s: State, us: map<Id, User>, told: set<Id>)
    requires Schema(s) && Allowed(s, WriteUsers(us, told))
    ensures Schema(DoWriteUsers(s, us, told))
  {
  }

  lemma RewriteSchema(s: State, op: Op)
    requires Schema(s) && Allowed(s, CommitRewrite(op))
    ensures Schema(DoRewrite(s, op))
  {
    WriteUsersSchema(s.(ops := Take(s, op)), Rewritten(s, op), {});
  }

  lemma DropSchema(s: State, op: Op)
    requires Schema(s) && Allowed(s, CommitDrop(op))
    ensures Schema(DoDrop(s, op))
  {
  }

  /** Statements that insert no row and change no user. */
  lemma PlainSchema(s: State, s': State)
    requires Schema(s) && s'.(nodes := s.nodes, ops := s.ops, rows := s.rows, clock := s.clock) == s
    requires s'.nodes.Keys == s.nodes.Keys && s'.rows.Keys <= s.rows.Keys && OpsOk(s')
    ensures Schema(s')
  {
  }

  ghost predicate Writes(r: Request) {
    r.Create? || r.WriteUsers? || r.CommitReplace? || r.CommitTombstone? || r.CommitDrop? || r.CommitRewrite?
  }

  lemma WriteSchema(s: State, r: Request)
    requires Schema(s) && Allowed(s, r) && Writes(r)
    ensures Schema(Served(s, r))
  {
    match r
    case Create(u, rec, ibs) => CreateSchema(s, u, rec, ibs);
    case WriteUsers(us, told) => WriteUsersSchema(s, us, told);
    case CommitReplace(op) => ReplaceSchema(s, op);
    case CommitTombstone(op) => PlainSchema(s, DoTombstone(s, op));
    case CommitDrop(op) => DropSchema(s, op);
    case CommitRewrite(op) => RewriteSchema(s, op);
  }

  lemma SignalSchema(s: State, r: Request)
    requires Schema(s) && Allowed(s, r) && !Writes(r)
    ensures Schema(Served(s, r))
  {
    PlainSchema(s, Served(s, r));
  }

  // ---------------------------------------------------------------- every action, every run

  lemma ActedFrame(s: State, n: Id, step: Step)
    requires n in s.nodes && Ready(s.nodes[n], step) && PhaseOk(s, n)
    ensures OnlyNode(s, Acted(s, n, step), n)
  {
  }

  lemma ActedInv(s: State, n: Id, step: Step)
    requires Schema(s) && n in s.nodes && NodeInv(s, n) && Ready(s.nodes[n], step)
    ensures NodeInv(Acted(s, n, step), n)
  {
    match step
    case Begin(b) => BeginInv(s, n, b);
    case ReadRemovals => ReadRemovalsInv(s, n);
    case Remove(t, ok, hit) => RemoveInv(s, n, t, ok, hit);
    case DeleteRow(ok) => DeleteRowInv(s, n, ok);
    case ReadDesired => ReadDesiredInv(s, n);
    case Add(t, ok, hit) => AddInv(s, n, t, ok, hit);
    case Mark(ok) => MarkInv(s, n, ok);
    case Finish => FinishInv(s, n);
    case Abort => AbortInv(s, n);
  }

  lemma WriteInv(s: State, r: Request, n: Id)
    requires Schema(s) && n in s.nodes && NodeInv(s, n) && Allowed(s, r) && Writes(r)
    ensures NodeInv(Served(s, r), n)
  {
    match r
    case Create(u, rec, ibs) => CreateInv(s, u, rec, ibs, n);
    case WriteUsers(us, told) => WriteUsersInv(s, us, told, n);
    case CommitReplace(op) => CommitReplaceInv(s, op, n);
    case CommitTombstone(op) => CommitTombstoneInv(s, op, n);
    case CommitDrop(op) => CommitDropInv(s, op, n);
    case CommitRewrite(op) => RewriteInv(s, op, n);
  }

  lemma OpenInv(s: State, r: Request, n: Id)
    requires n in s.nodes && NodeInv(s, n) && Allowed(s, r)
    requires r.ReadOldTargets? || r.ReadDeleteTargets? || r.ReadRecord? || r.GiveUp?
    ensures NodeInv(Served(s, r), n)
  {
    QuietOpInv(s, Served(s, r).ops, n);
  }

  lemma SignalInv(s: State, r: Request, n: Id)
    requires Schema(s) && n in s.nodes && NodeInv(s, n) && Allowed(s, r) && !Writes(r)
    ensures NodeInv(Served(s, r), n)
  {
    match r
    case FindTargets(op) => FindTargetsInv(s, op, n);
    case FailTargets(op) => FailTargetsInv(s, op, n);
    case Trigger(op, m) => TriggerInv(s, op, m, n);
    case _ => OpenInv(s, r, n);
  }

  lemma OnlyNodeInv(s: State, s': State, m: Id)
    requires Inv(s) && m in s.nodes && OnlyNode(s, s', m) && NodeInv(s', m)
    ensures Inv(s')
  {
    OnlyNodeSchema(s, s', m);
    forall n | n in s'.nodes && n != m ensures NodeInv(s', n) { ElsewhereInv(s, s', m, n); }
  }

  lemma ServeInv(s: State, r: Request)
    requires Inv(s) && Allowed(s, r)
    ensures Inv(Served(s, r))
  {
    if Writes(r) { WriteSchema(s, r); } else { SignalSchema(s, r); }
    forall n | n in s.nodes ensures NodeInv(Served(s, r), n) {
      if Writes(r) { WriteInv(s, r, n); } else { SignalInv(s, r, n); }
    }
  }

  lemma ActInv(s: State, n: Id, step: Step)
    requires Inv(s) && n in s.nodes && Ready(s.nodes[n], step)
    ensures Inv(Acted(s, n, step))
  {
    ActedFrame(s, n, step);
    ActedInv(s, n, step);
    OnlyNodeInv(s, Acted(s, n, step), n);
  }

  lemma NodeRestartInv(s: State, n: Id)
    requires Inv(s) && n in s.nodes
    ensures Inv(DoRestartNode(s, n))
  {
    RestartNodeInv(s, n);
    OnlyNodeInv(s, DoRestartNode(s, n), n);
  }

  lemma ServiceRestartInv(s: State)
    requires Inv(s)
    ensures Inv(DoRestartService(s))
  {
    var s' := DoRestartService(s);
    PlainSchema(s, s');
    forall n | n in s.nodes ensures NodeInv(s', n) { RestartServiceInv(s, n); }
  }

  lemma StepInv(s: State, a: Action)
    requires Inv(s) && Enabled(s, a)
    ensures Inv(Apply(s, a))
  {
    match a
    case Serve(r) => ServeInv(s, r);
    case Act(n, step) => ActInv(s, n, step);
    case RestartNode(n) => NodeRestartInv(s, n);
    case RestartService => ServiceRestartInv(s);
  }

  /** The invariant holds in every state of every run. */
  lemma {:induction false} RunInv(s0: State, actions: seq<Action>, s: State)
    requires Inv(s0) && Reach(s0, actions) == Some(s)
    ensures Inv(s)
    decreases |actions|
  {
    if actions == [] {
    } else {
      var last := |actions| - 1;
      var t := Reach(s0, actions[..last]).value;
      RunInv(s0, actions[..last], t);
      StepInv(t, actions[last]);
    }
  }
}
