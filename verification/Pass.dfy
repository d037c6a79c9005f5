/** One reconcile pass of one node while the database is otherwise left alone. */
module Pass {
  import opened Domain
  import opened Protocol
  import opened ProtocolInvariant
  import opened Convergence

  /** How far node `n` is from what the database asks for. */
  function Gap(s: State, n: Id): set<Entry>
    requires n in s.nodes
  {
    (s.nodes[n].entries - Desired(s, n)) + (Desired(s, n) - s.nodes[n].entries)
  }

  /** The target still describes its row: the database has not moved since it was read. */
  ghost predicate Current(s: State, n: Id, t: Target) {
    OnNode(s, t.key, n) && t == TargetOf(s, t.key)
  }

  /** What holds inside a pass that nobody interferes with. */
  ghost predicate Solo(s: State, n: Id)
    requires n in s.nodes
  {
    var nd := s.nodes[n];
    match nd.phase
    case Idle => false
    case Started => true
    case Removing(todo) => RemoveSolo(s, n, todo)
    case Deleting(cur, todo) =>
      RemoveSolo(s, n, todo) && Current(s, n, cur) && !Wanted(s, cur.key) && cur.sync == SyncStatus.Removing &&
        !Listed(todo, cur.key)
    case Adding(todo) => AddSolo(s, n, todo)
    case Marking(cur, sync, todo) =>
      && Current(s, n, cur) && Wanted(s, cur.key) && sync != SyncStatus.Removing && !Listed(todo, cur.key)
      && (sync == Applied ==> AddSolo(s, n, todo))
  }

  ghost predicate RemoveSolo(s: State, n: Id, todo: set<Target>)
    requires n in s.nodes
  {
    && (forall t :: t in todo ==> Current(s, n, t) && !Wanted(s, t.key))
    && (forall k :: k in s.rows && OnNode(s, k, n) && !Wanted(s, k) && EntryOf(s, k) in s.nodes[n].entries ==>
      Listed(todo, k))
  }

  ghost predicate AddSolo(s: State, n: Id, todo: set<Target>)
    requires n in s.nodes
  {
    && (forall t :: t in todo ==> Current(s, n, t) && Wanted(s, t.key))
    && (forall k :: k in s.rows && OnNode(s, k, n) ==> AddOk(s, n, k, todo))
  }

  /** As long as every write succeeds: tombstones not yet deleted and rows not yet marked are still to come. */
  ghost predicate Tidy(s: State, n: Id)
    requires n in s.nodes
  {
    var p := s.nodes[n].phase;
    (p.Marking? ==> p.sync == Applied) && forall k :: k in s.rows && OnNode(s, k, n) ==>
      && (s.rows[k] == SyncStatus.Removing ==>
        p.Started? || ((p.Removing? || p.Deleting?) && Listed(p.todo, k)) || (p.Deleting? && p.cur.key == k))
      && (Wanted(s, k) && s.rows[k] != Applied ==>
        (!Pushing(p) && !p.Idle?) || (Pushing(p) && Listed(p.todo, k)) || (p.Marking? && p.cur.key == k))
  }

  /** A step whose RPC or write succeeded. */
  predicate Succeeds(step: Step) {
    match step
    case Remove(_, ok, _) => ok
    case DeleteRow(ok) => ok
    case Add(_, ok, _) => ok
    case Mark(ok) => ok
    case Abort => false
    case _ => true
  }

  lemma EntryIsKey(s: State, n: Id, k: Key, j: Key)
    requires Unique(s) && OnNode(s, k, n) && OnNode(s, j, n) && EntryOf(s, k) == EntryOf(s, j)
    ensures k == j
  {
    assert s.inbounds[k.inbound] == s.inbounds[j.inbound];
  }

  lemma UnwantedNotDesired(s: State, n: Id, k: Key)
    requires Unique(s) && OnNode(s, k, n)
    ensures EntryOf(s, k) in Desired(s, n) <==> Wanted(s, k)
  {
    if EntryOf(s, k) in Desired(s, n) {
      var j :| j in s.rows && OnNode(s, j, n) && Wanted(s, j) && EntryOf(s, j) == EntryOf(s, k);
      EntryIsKey(s, n, k, j);
    }
  }

  /** Same wanted rows, same desired entries. */
  lemma SameDesired(s: State, s': State, n: Id)
    requires s'.users == s.users && s'.inbounds == s.inbounds
    requires forall k :: OnNode(s, k, n) && Wanted(s, k) <==> OnNode(s', k, n) && Wanted(s', k)
    ensures Desired(s', n) == Desired(s, n)
  {
    forall e | e in Desired(s, n) ensures e in Desired(s', n) {
      var k :| k in s.rows && OnNode(s, k, n) && Wanted(s, k) && EntryOf(s, k) == e;
      assert OnNode(s', k, n) && Wanted(s', k);
    }
    forall e | e in Desired(s', n) ensures e in Desired(s, n) {
      var k :| k in s'.rows && OnNode(s', k, n) && Wanted(s', k) && EntryOf(s', k) == e;
      assert OnNode(s, k, n) && Wanted(s, k);
    }
  }

  // ---------------------------------------------------------------- no step widens the gap

  lemma RemoveNarrows(s: State, n: Id, t: Target, ok: bool, hit: bool)
    requires Unique(s) && n in s.nodes && Solo(s, n) && Ready(s.nodes[n], Remove(t, ok, hit))
    ensures var s' := DoRemove(s, n, t, ok, hit);
      Desired(s', n) == Desired(s, n) && Gap(s', n) <= Gap(s, n) && (ok ==> Solo(s', n))
  {
    var s' := DoRemove(s, n, t, ok, hit);
    SameTracked(s, s', n);
    SameDesired(s, s', n);
    UnwantedNotDesired(s, n, t.key);
    if ok { RemoveKeepsSolo(s, s', n, t); }
  }

  lemma RemoveKeepsSolo(s: State, s': State, n: Id, t: Target)
    requires SameRows(s, s', n) && s.nodes[n].phase.Removing? && RemoveSolo(s, n, s.nodes[n].phase.todo)
    requires t in s.nodes[n].phase.todo
    requires s'.nodes[n].entries == s.nodes[n].entries - {t.entry}
    ensures RemoveSolo(s', n, s.nodes[n].phase.todo - {t}) && !Listed(s.nodes[n].phase.todo - {t}, t.key)
  {
    SameTracked(s, s', n);
    var todo := s.nodes[n].phase.todo;
    forall k | k in s'.rows && OnNode(s', k, n) && !Wanted(s', k) && EntryOf(s', k) in s'.nodes[n].entries
      ensures Listed(todo - {t}, k)
    {
      var t' :| t' in todo && t'.key == k;
      assert t' in todo - {t};
    }
  }

  lemma DeleteNarrows(s: State, n: Id, ok: bool)
    requires n in s.nodes && Solo(s, n) && Ready(s.nodes[n], DeleteRow(ok))
    ensures var s' := DoDeleteRow(s, n, ok);
      Desired(s', n) == Desired(s, n) && Gap(s', n) <= Gap(s, n) && Solo(s', n)
  {
    var s', cur := DoDeleteRow(s, n, ok), s.nodes[n].phase.cur;
    forall k ensures OnNode(s', k, n) <==> OnNode(s, k, n) && (ok ==> k != cur.key) {}
    SameDesired(s, s', n);
    forall t | t in s.nodes[n].phase.todo ensures Current(s', n, t) && !Wanted(s', t.key) {
      assert Current(s, n, t) && t.key != cur.key;
    }
  }

  lemma AddNarrows(s: State, n: Id, t: Target, ok: bool, hit: bool)
    requires Unique(s) && n in s.nodes && Solo(s, n) && Ready(s.nodes[n], Add(t, ok, hit))
    ensures var s' := DoAdd(s, n, t, ok, hit);
      Desired(s', n) == Desired(s, n) && Gap(s', n) <= Gap(s, n) && Solo(s', n)
  {
    var s' := DoAdd(s, n, t, ok, hit);
    SameTracked(s, s', n);
    SameDesired(s, s', n);
    UnwantedNotDesired(s, n, t.key);
    assert Current(s', n, t);
    if ok { AddKeepsSolo(s, s', n, t); }
  }

  lemma AddKeepsSolo(s: State, s': State, n: Id, t: Target)
    requires Unique(s) && SameRows(s, s', n) && s.nodes[n].phase.Adding? && AddSolo(s, n, s.nodes[n].phase.todo)
    requires t in s.nodes[n].phase.todo
    requires s'.nodes[n].entries == s.nodes[n].entries + {t.entry}
    ensures AddSolo(s', n, s.nodes[n].phase.todo - {t}) && !Listed(s.nodes[n].phase.todo - {t}, t.key)
  {
    SameTracked(s, s', n);
    var todo := s.nodes[n].phase.todo;
    forall k | k in s'.rows && OnNode(s', k, n) ensures AddOk(s', n, k, todo - {t}) {
      assert AddOk(s, n, k, todo);
      if EntryOf(s, k) == t.entry { EntryIsKey(s, n, k, t.key); }
      if Listed(todo, k) && k != t.key {
        var t' :| t' in todo && t'.key == k;
        assert t' in todo - {t};
      }
    }
  }

  lemma MarkNarrows(s: State, n: Id, ok: bool)
    requires n in s.nodes && Solo(s, n) && Ready(s.nodes[n], Mark(ok))
    ensures var s' := DoMark(s, n, ok);
      Desired(s', n) == Desired(s, n) && Gap(s', n) <= Gap(s, n) && (s'.nodes[n].phase.Adding? ==> Solo(s', n))
  {
    var s', cur := DoMark(s, n, ok), s.nodes[n].phase.cur;
    forall k ensures OnNode(s', k, n) == OnNode(s, k, n) && (OnNode(s, k, n) ==> Wanted(s', k) == Wanted(s, k)) {}
    SameDesired(s, s', n);
    if s'.nodes[n].phase.Adding? {
      forall t | t in s.nodes[n].phase.todo ensures Current(s', n, t) && Wanted(s', t.key) {
        assert Current(s, n, t) && t.key != cur.key;
      }
      forall k | k in s'.rows && OnNode(s', k, n) ensures AddOk(s', n, k, s.nodes[n].phase.todo) {
        assert AddOk(s, n, k, s.nodes[n].phase.todo);
      }
    }
  }

  lemma ReadsNarrow(s: State, n: Id, step: Step)
    requires n in s.nodes && Solo(s, n) && Ready(s.nodes[n], step) && (step.ReadRemovals? || step.ReadDesired?)
    ensures var s' := Acted(s, n, step);
      Desired(s', n) == Desired(s, n) && Gap(s', n) == Gap(s, n) && Solo(s', n)
  {
    var s' := Acted(s, n, step);
    SameTracked(s, s', n);
    SameDesired(s, s', n);
    if step.ReadRemovals? {
      forall k | k in s'.rows && OnNode(s', k, n) && !Wanted(s', k) ensures Listed(RemovalTargets(s, n), k) {
        assert TargetOf(s, k) in RemovalTargets(s, n);
      }
    } else {
      forall k | k in s'.rows && OnNode(s', k, n) ensures AddOk(s', n, k, DesiredTargets(s, n)) {
        assert !Listed({}, k);
        if Wanted(s', k) { assert TargetOf(s, k) in DesiredTargets(s, n); }
      }
    }
  }

  /** Whatever an RPC or a write reports, no step of an undisturbed pass widens the gap. */
  lemma StepNarrows(s: State, n: Id, step: Step)
    requires Unique(s) && n in s.nodes && Solo(s, n) && Ready(s.nodes[n], step)
    ensures var s' := Acted(s, n, step);
      && Desired(s', n) == Desired(s, n) && Gap(s', n) <= Gap(s, n)
      && (Solo(s', n) || s'.nodes[n].phase.Idle?)
  {
    match step
    case Remove(t, ok, hit) => RemoveNarrows(s, n, t, ok, hit);
    case DeleteRow(ok) => DeleteNarrows(s, n, ok);
    case Add(t, ok, hit) => AddNarrows(s, n, t, ok, hit);
    case Mark(ok) => MarkNarrows(s, n, ok);
    case ReadRemovals => ReadsNarrow(s, n, step);
    case ReadDesired => ReadsNarrow(s, n, step);
    case Begin(_) =>
    case Finish => SameTracked(s, DoFinish(s, n), n); SameDesired(s, DoFinish(s, n), n);
    case Abort => SameTracked(s, DoAbort(s, n), n); SameDesired(s, DoAbort(s, n), n);
  }

  // ---------------------------------------------------------------- a clean pass

  lemma RestTidy(s: State, s': State, n: Id, t: Target)
    requires SameRows(s, s', n) && Tidy(s, n)
    requires var p, p' := s.nodes[n].phase, s'.nodes[n].phase;
      || (p.Removing? && t in p.todo
          && p' == if t.sync == SyncStatus.Removing then Deleting(t, p.todo - {t}) else Phase.Removing(p.todo - {t}))
      || (p.Adding? && t in p.todo
          && p' == if t.sync != Applied then Marking(t, Applied, p.todo - {t}) else Adding(p.todo - {t}))
    requires Current(s, n, t)
    ensures Tidy(s', n)
  {
    var todo := s.nodes[n].phase.todo;
    forall k | k in s'.rows && Listed(todo, k) && k != t.key ensures Listed(todo - {t}, k) {
      var t' :| t' in todo && t'.key == k;
      assert t' in todo - {t};
    }
    SameTracked(s, s', n);
  }

  lemma StepTidy(s: State, n: Id, step: Step)
    requires Unique(s) && n in s.nodes && Solo(s, n) && Tidy(s, n) && Ready(s.nodes[n], step) && Succeeds(step)
    ensures Tidy(Acted(s, n, step), n)
  {
    var s' := Acted(s, n, step);
    match step
    case Remove(t, _, _) => RestTidy(s, s', n, t);
    case Add(t, _, _) => RestTidy(s, s', n, t);
    case DeleteRow(_) => forall k ensures OnNode(s', k, n) <==> OnNode(s, k, n) && k != s.nodes[n].phase.cur.key {}
    case Mark(_) => forall k ensures OnNode(s', k, n) == OnNode(s, k, n) {}
    case ReadRemovals => ReadTidy(s, s', n);
    case ReadDesired => ReadTidy(s, s', n);
    case Finish => SameTracked(s, s', n);
    case Begin(_) =>
  }

  lemma ReadTidy(s: State, s': State, n: Id)
    requires SameRows(s, s', n) && Tidy(s, n)
    requires var p, p' := s.nodes[n].phase, s'.nodes[n].phase;
      || (p.Started? && p' == Phase.Removing(RemovalTargets(s, n)))
      || (p == Phase.Removing({}) && p' == Adding(DesiredTargets(s, n)))
    ensures Tidy(s', n)
  {
    SameTracked(s, s', n);
    forall k | k in s.rows && OnNode(s, k, n)
      ensures Listed(RemovalTargets(s, n), k) || Wanted(s, k)
      ensures Listed(DesiredTargets(s, n), k) || !Wanted(s, k)
    {
      if Wanted(s, k) {
        assert TargetOf(s, k) in DesiredTargets(s, n);
      } else {
        assert TargetOf(s, k) in RemovalTargets(s, n);
      }
    }
  }

  lemma FinishInStep(s: State, n: Id)
    requires n in s.nodes && Solo(s, n) && s.nodes[n].phase == Adding({})
    ensures InStep(DoFinish(s, n), n)
  {
    var s' := DoFinish(s, n);
    SameTracked(s, s', n);
    forall k | k in s'.rows && OnNode(s', k, n) ensures EntryOf(s', k) in s'.nodes[n].entries <==> Wanted(s', k) {
      assert AddOk(s, n, k, {}) && !Listed({}, k);
    }
  }

  /** Only steps of node `n`'s current pass. */
  predicate PassOnly(actions: seq<Action>, n: Id) {
    forall a :: a in actions ==> a.Act? && a.node == n && !a.step.Begin?
  }

  predicate AllSucceed(actions: seq<Action>) {
    forall a :: a in actions && a.Act? ==> Succeeds(a.step)
  }

  /** Nothing left to do on node `n`: in step, no tombstone, every wanted row marked applied. */
  ghost predicate Settled(s: State, n: Id)
    requires n in s.nodes
  {
    InStep(s, n) && forall k :: k in s.rows && OnNode(s, k, n) ==>
      s.rows[k] != SyncStatus.Removing && (Wanted(s, k) ==> s.rows[k] == Applied)
  }

  /** Every prefix of an undisturbed pass, failing or not, leaves the gap no wider than it found it. */
  lemma {:induction false} PassNarrows(s0: State, actions: seq<Action>, s: State, n: Id)
    requires Inv(s0) && n in s0.nodes && s0.nodes[n].phase.Started?
    requires Reach(s0, actions) == Some(s) && PassOnly(actions, n)
    ensures Inv(s) && n in s.nodes && Desired(s, n) == Desired(s0, n) && Gap(s, n) <= Gap(s0, n)
    ensures Solo(s, n) || s.nodes[n].phase.Idle?
    decreases |actions|
  {
    if actions == [] {
    } else {
      var last := |actions| - 1;
      var t := Reach(s0, actions[..last]).value;
      PassNarrows(s0, actions[..last], t, n);
      assert actions[last] in actions;
      StepInv(t, actions[last]);
      StepNarrows(t, n, actions[last].step);
    }
  }

  lemma CleanFinish(s: State, n: Id)
    requires Inv(s) && n in s.nodes && Solo(s, n) && Tidy(s, n) && s.nodes[n].phase == Adding({})
    ensures var s' := DoFinish(s, n);
      Settled(s', n) && Desired(s', n) <= s'.nodes[n].entries <= Desired(s', n) + s'.nodes[n].orphans
  {
    var s' := DoFinish(s, n);
    FinishInStep(s, n);
    FinishInv(s, n);
    InStepMeansDesired(s', n);
    StepTidy(s, n, Finish);
  }

  /** Among steps that succeed only the last one leaves the pass. */
  lemma OnlyFinishEnds(s: State, n: Id, step: Step)
    requires n in s.nodes && (s.nodes[n].phase.Marking? ==> s.nodes[n].phase.sync == Applied)
    requires Ready(s.nodes[n], step) && Succeeds(step) && !step.Begin?
    ensures Acted(s, n, step).nodes[n].phase.Idle? ==> step.Finish?
  {
  }

  lemma CleanStep(s: State, n: Id, step: Step)
    requires Inv(s) && n in s.nodes && (Solo(s, n) || s.nodes[n].phase.Idle?) && Tidy(s, n)
    requires Ready(s.nodes[n], step) && Succeeds(step) && !step.Begin?
    ensures var s' := Acted(s, n, step);
      && Tidy(s', n)
      && (s'.nodes[n].phase.Idle? ==>
            Settled(s', n) && Desired(s', n) <= s'.nodes[n].entries <= Desired(s', n) + s'.nodes[n].orphans)
  {
    StepTidy(s, n, step);
    OnlyFinishEnds(s, n, step);
    if step.Finish? { CleanFinish(s, n); }
  }

  /**
   A pass in which every RPC and write succeeds ends with the node settled: it holds exactly the desired entries
   (plus leftovers of deleted users), no tombstone remains and every pushed row is marked.
   */
  lemma {:induction false} CleanPassSettles(s0: State, actions: seq<Action>, s: State, n: Id)
    requires Inv(s0) && n in s0.nodes && s0.nodes[n].phase.Started?
    requires Reach(s0, actions) == Some(s) && PassOnly(actions, n) && AllSucceed(actions)
    ensures n in s.nodes && Tidy(s, n)
    ensures s.nodes[n].phase.Idle? ==>
      Settled(s, n) && Desired(s, n) <= s.nodes[n].entries <= Desired(s, n) + s.nodes[n].orphans
    decreases |actions|
  {
    if actions == [] {
    } else {
      var last := |actions| - 1;
      var t := Reach(s0, actions[..last]).value;
      CleanPassSettles(s0, actions[..last], t, n);
      PassNarrows(s0, actions[..last], t, n);
      assert actions[last] in actions;
      CleanStep(t, n, actions[last].step);
    }
  }

  lemma StepIdempotent(s: State, n: Id, step: Step)
    requires n in s.nodes && Solo(s, n) && Settled(s, n) && Ready(s.nodes[n], step) && Succeeds(step)
    requires !s.nodes[n].phase.Deleting? && !s.nodes[n].phase.Marking?
    ensures var s' := Acted(s, n, step);
      && s'.rows == s.rows && s'.nodes[n].entries == s.nodes[n].entries
      && !s'.nodes[n].phase.Deleting? && !s'.nodes[n].phase.Marking? && Settled(s', n)
  {
    var s' := Acted(s, n, step);
    if step.Remove? || step.Add? {
      assert Current(s, n, step.target);
      assert s'.nodes[n].entries == s.nodes[n].entries;
    }
    SameSettled(s, s', n);
  }

  lemma SameSettled(s: State, s': State, n: Id)
    requires SameRows(s, s', n) && s'.nodes[n].entries == s.nodes[n].entries && Settled(s, n)
    ensures Settled(s', n)
  {
    SameTracked(s, s', n);
  }

  /** A second clean pass over a settled node changes neither the node nor a row. */
  lemma {:induction false} SecondPassChangesNothing(s0: State, actions: seq<Action>, s: State, n: Id)
    requires Inv(s0) && n in s0.nodes && s0.nodes[n].phase.Started? && Settled(s0, n)
    requires Reach(s0, actions) == Some(s) && PassOnly(actions, n) && AllSucceed(actions)
    ensures n in s.nodes && s.rows == s0.rows && s.nodes[n].entries == s0.nodes[n].entries
    ensures Settled(s, n) && !s.nodes[n].phase.Deleting? && !s.nodes[n].phase.Marking?
    decreases |actions|
  {
    if actions == [] {
    } else {
      var last := |actions| - 1;
      var t := Reach(s0, actions[..last]).value;
      SecondPassChangesNothing(s0, actions[..last], t, n);
      PassNarrows(s0, actions[..last], t, n);
      assert actions[last] in actions;
      StepIdempotent(t, n, actions[last].step);
    }
  }

  /** A pass that reaches its end, whatever deletes and marks it failed to write, leaves the node in step. */
  lemma FinishedPassInStep(s0: State, actions: seq<Action>, s: State, n: Id)
    requires Inv(s0) && n in s0.nodes && s0.nodes[n].phase.Started? && PassOnly(actions, n)
    requires Reach(s0, actions + [Act(n, Finish)]) == Some(s)
    ensures n in s.nodes && InStep(s, n)
    ensures Desired(s, n) <= s.nodes[n].entries <= Desired(s, n) + s.nodes[n].orphans
  {
    assert (actions + [Act(n, Finish)])[..|actions|] == actions;
    var t := Reach(s0, actions).value;
    PassNarrows(s0, actions, t, n);
    FinishInStep(t, n);
    FinishInv(t, n);
    InStepMeansDesired(s, n);
  }

  // ---------------------------------------------------------------- restarts

  lemma {:induction false} PassAddsNoOrphans(s0: State, actions: seq<Action>, s: State, n: Id)
    requires n in s0.nodes && Reach(s0, actions) == Some(s) && PassOnly(actions, n)
    ensures n in s.nodes && s.nodes[n].orphans <= s0.nodes[n].orphans
    decreases |actions|
  {
    if actions == [] {
    } else {
      var last := |actions| - 1;
      var t := Reach(s0, actions[..last]).value;
      PassAddsNoOrphans(s0, actions[..last], t, n);
      assert actions[last] in actions;
      StepAddsNoHistory(t, n, actions[last].step);
    }
  }

  /** A restart between passes empties the node and with it every leftover. */
  lemma RestartEmpties(s: State, n: Id)
    requires n in s.nodes && s.nodes[n].phase.Idle?
    ensures var nd := DoRestartNode(s, n).nodes[n]; nd.entries == {} && nd.orphans == {} && nd.phase.Idle?
    ensures DoRestartNode(s, n).users == s.users && DoRestartNode(s, n).rows == s.rows
  {
  }

  /**
   A restart heals whatever went wrong before, leaked users and missed signals included: after it, a pass that reaches
   its end leaves the node with exactly the desired entries.
   */
  lemma RestartHeals(s: State, byToken: bool, actions: seq<Action>, t: State, n: Id)
    requires Inv(s) && n in s.nodes && s.nodes[n].phase.Idle? && (byToken ==> s.nodes[n].token)
    requires Reach(DoBegin(DoRestartNode(s, n), n, byToken), actions + [Act(n, Finish)]) == Some(t)
    requires PassOnly(actions, n)
    ensures n in t.nodes && t.nodes[n].entries == Desired(t, n) == Desired(s, n)
  {
    var b := DoBegin(DoRestartNode(s, n), n, byToken);
    BeginsAfresh(s, byToken, n);
    FinishedPassInStep(b, actions, t, n);
    PassNarrows(b, actions + [Act(n, Finish)], t, n);
    PassAddsNoOrphans(b, actions + [Act(n, Finish)], t, n);
  }

  lemma BeginsAfresh(s: State, byToken: bool, n: Id)
    requires Inv(s) && n in s.nodes && s.nodes[n].phase.Idle? && (byToken ==> s.nodes[n].token)
    ensures var b := DoBegin(DoRestartNode(s, n), n, byToken);
      Inv(b) && n in b.nodes && b.nodes[n].phase.Started? && b.nodes[n].orphans == {} && Desired(b, n) == Desired(s, n)
  {
    var r := DoRestartNode(s, n);
    RestartEmpties(s, n);
    NodeRestartInv(s, n);
    BeginAtRest(r, byToken, n);
    SameTracked(s, r, n);
    SameDesired(s, r, n);
  }

  lemma BeginAtRest(s: State, byToken: bool, n: Id)
    requires Inv(s) && n in s.nodes && s.nodes[n].phase.Idle? && (byToken ==> s.nodes[n].token)
    ensures var b := DoBegin(s, n, byToken);
      && Inv(b) && n in b.nodes && b.nodes[n].phase.Started? && b.nodes[n].orphans == s.nodes[n].orphans
      && Desired(b, n) == Desired(s, n)
  {
    var b := DoBegin(s, n, byToken);
    ActInv(s, n, Begin(byToken));
    SameTracked(s, b, n);
    SameDesired(s, b, n);
  }
}
