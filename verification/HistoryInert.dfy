/** The history fields only watch: they decide neither what can happen next nor what it does. */
module HistoryInert {
  import opened Domain
  import opened Protocol

  predicate Twins(a: Node, b: Node) { a.entries == b.entries && a.token == b.token && a.phase == b.phase }

  ghost predicate SameTables(s: State, t: State) {
    s.users == t.users && s.inbounds == t.inbounds && s.rows == t.rows && s.ops == t.ops && s.issued == t.issued &&
      s.clock == t.clock
  }

  /** Equal but for the nodes' history. */
  ghost predicate Alike(s: State, t: State) {
    && SameTables(s, t) && s.nodes.Keys == t.nodes.Keys
    && forall n :: n in s.nodes ==> Twins(s.nodes[n], t.nodes[n])
  }

  lemma QueriesAlike(s: State, t: State, n: Id)
    requires SameTables(s, t)
    ensures RemovalTargets(s, n) == RemovalTargets(t, n) && DesiredTargets(s, n) == DesiredTargets(t, n)
  {
    forall k ensures OnNode(s, k, n) <==> OnNode(t, k, n) {}
  }

  lemma AllowedAlike(s: State, t: State, r: Request)
    requires Alike(s, t) && Allowed(s, r)
    ensures Allowed(t, r)
  {
  }

  lemma TargetsAlike(s: State, t: State, u: Id, ibs: set<Id>)
    requires SameTables(s, t)
    ensures NodesOf(s, u) == NodesOf(t, u) && NodesOfInbounds(s, ibs) == NodesOfInbounds(t, ibs)
  {
  }

  lemma WritesAlike(s: State, t: State, u: Id, ibs: set<Id>)
    requires SameTables(s, t)
    ensures ReplacedRows(s, u, ibs) == ReplacedRows(t, u, ibs) && TombstonedRows(s, u) == TombstonedRows(t, u)
  {
  }

  lemma RetiresAlike(s: State, t: State, r: Request)
    requires SameTables(s, t) && Allowed(s, r) && Allowed(t, r) && (r.CommitReplace? || r.CommitTombstone?)
    ensures SameTables(Served(s, r), Served(t, r))
  {
    WritesAlike(s, t, r.op.user, if r.op.Replace? then r.op.inbounds else {});
    TargetsAlike(s, t, r.op.user, if r.op.Replace? then r.op.inbounds else {});
  }

  lemma WriteAlike(s: State, t: State, us: map<Id, User>, told: set<Id>)
    requires SameTables(s, t)
    ensures SameTables(DoWriteUsers(s, us, told), DoWriteUsers(t, us, told))
  {
  }

  lemma RewriteAlike(s: State, t: State, op: Op)
    requires SameTables(s, t) && op.Rewrite? && op.user in s.users
    ensures SameTables(DoRewrite(s, op), DoRewrite(t, op))
  {
    WriteAlike(s.(ops := Take(s, op)), t.(ops := Take(t, op)), Rewritten(s, op), {});
  }

  lemma DropAlike(s: State, t: State, op: Op)
    requires SameTables(s, t) && op.Drop?
    ensures SameTables(DoDrop(s, op), DoDrop(t, op))
  {
  }

  lemma SendsAlike(s: State, t: State, r: Request)
    requires SameTables(s, t) && Allowed(s, r) && Allowed(t, r)
    requires r.FindTargets? || r.FailTargets? || r.Trigger? || r.GiveUp?
    ensures SameTables(Served(s, r), Served(t, r))
  {
    if !r.Trigger? { TargetsAlike(s, t, r.op.user, {}); }
  }

  lemma OpensAlike(s: State, t: State, r: Request)
    requires SameTables(s, t) && Allowed(s, r) && Allowed(t, r)
    requires r.Create? || r.ReadOldTargets? || r.ReadDeleteTargets? || r.ReadRecord?
    ensures SameTables(Served(s, r), Served(t, r))
  {
    TargetsAlike(s, t, r.user, {});
  }

  lemma TablesAlike(s: State, t: State, r: Request)
    requires SameTables(s, t) && Allowed(s, r) && Allowed(t, r)
    ensures SameTables(Served(s, r), Served(t, r))
  {
    if r.CommitReplace? || r.CommitTombstone? {
      RetiresAlike(s, t, r);
    } else if r.CommitDrop? {
      DropAlike(s, t, r.op);
    } else if r.CommitRewrite? {
      RewriteAlike(s, t, r.op);
    } else if r.WriteUsers? {
      WriteAlike(s, t, r.users, r.notified);
    } else if r.FindTargets? || r.FailTargets? || r.Trigger? || r.GiveUp? {
      SendsAlike(s, t, r);
    } else {
      OpensAlike(s, t, r);
    }
  }

  /** At most the mark of a missed signal is added. */
  predicate Remarked(a: Node, b: Node) { b == a.(missed := b.missed) }

  lemma WatchedNode(s: State, op: Op, n: Id)
    requires n in s.nodes
    ensures op.Replace? ==> Remarked(s.nodes[n], DoReplace(s, op).nodes[n])
    ensures op.Tombstone? ==> Remarked(s.nodes[n], DoTombstone(s, op).nodes[n])
    ensures op.Lookup? ==> Remarked(s.nodes[n], DoFailTargets(s, op).nodes[n])
    ensures op.Drop? ==> DoDrop(s, op).nodes[n] == s.nodes[n].(orphans := DoDrop(s, op).nodes[n].orphans)
  {
  }

  lemma WrittenNode(s: State, us: map<Id, User>, told: set<Id>, n: Id)
    requires n in s.nodes
    ensures Remarked(s.nodes[n], DoWriteUsers(s, us, told).nodes[n])
  {
  }

  lemma QuietRequest(s: State, r: Request)
    requires Allowed(s, r)
    requires r.Create? || r.FindTargets? || r.ReadOldTargets? || r.ReadDeleteTargets? || r.ReadRecord? || r.GiveUp?
    ensures Served(s, r).nodes == s.nodes
  {
  }

  /**
   A request touches a node through its channel only; its stamps move with the channel, and its orphans when a user is
   dropped.
   */
  lemma ServedNode(s: State, r: Request, n: Id)
    requires Allowed(s, r) && n in s.nodes
    ensures var nd, nd' := s.nodes[n], Served(s, r).nodes[n];
      && nd'.entries == nd.entries && nd'.phase == nd.phase && nd'.token == (nd.token || (r.Trigger? && r.node == n))
      && nd'.remRead == nd.remRead && (nd'.asked == nd.asked || (r.Trigger? && r.node == n))
      && (r.CommitDrop? || nd'.orphans == nd.orphans)
  {
    if r.CommitReplace? || r.CommitTombstone? || r.CommitDrop? || r.FailTargets? {
      WatchedNode(s, r.op, n);
    } else if r.WriteUsers? {
      WrittenNode(s, r.users, r.notified, n);
    } else if r.CommitRewrite? {
      WrittenNode(s.(ops := Take(s, r.op)), Rewritten(s, r.op), {}, n);
    } else if !r.Trigger? {
      QuietRequest(s, r);
    }
  }

  lemma ServedAlike(s: State, t: State, r: Request)
    requires Alike(s, t) && Allowed(s, r)
    ensures Allowed(t, r) && Alike(Served(s, r), Served(t, r))
  {
    AllowedAlike(s, t, r);
    TablesAlike(s, t, r);
    forall n | n in s.nodes ensures Twins(Served(s, r).nodes[n], Served(t, r).nodes[n]) {
      ServedNode(s, r, n);
      ServedNode(t, r, n);
    }
  }

  lemma ReadStepAlike(s: State, t: State, n: Id, step: Step)
    requires Alike(s, t) && n in s.nodes && Ready(s.nodes[n], step) && (step.ReadRemovals? || step.ReadDesired?)
    ensures Acted(s, n, step).rows == Acted(t, n, step).rows
    ensures Twins(Acted(s, n, step).nodes[n], Acted(t, n, step).nodes[n])
  {
    QueriesAlike(s, t, n);
  }

  /** A removal as seen without history. */
  lemma RemoveSeen(s: State, n: Id, x: Target, ok: bool, hit: bool)
    requires n in s.nodes && s.nodes[n].phase.Removing?
    ensures var nd, s' := s.nodes[n], DoRemove(s, n, x, ok, hit);
      s'.rows == s.rows && Twins(s'.nodes[n], nd.(
        entries := if ok || hit then nd.entries - {x.entry} else nd.entries,
        phase := if !ok then Idle
                 else if x.sync == SyncStatus.Removing then Deleting(x, nd.phase.todo - {x})
                 else Phase.Removing(nd.phase.todo - {x})))
  {
  }

  lemma AddSeen(s: State, n: Id, x: Target, ok: bool, hit: bool)
    requires n in s.nodes && s.nodes[n].phase.Adding?
    ensures var nd, s' := s.nodes[n], DoAdd(s, n, x, ok, hit);
      s'.rows == s.rows && Twins(s'.nodes[n], nd.(
        entries := if ok || hit then nd.entries + {x.entry} else nd.entries,
        phase := if !ok then Marking(x, SyncStatus.Failed, {})
                 else if x.sync != Applied then Marking(x, Applied, nd.phase.todo - {x})
                 else Adding(nd.phase.todo - {x})))
  {
  }

  lemma RpcStepAlike(s: State, t: State, n: Id, step: Step)
    requires Alike(s, t) && n in s.nodes && Ready(s.nodes[n], step) && (step.Remove? || step.Add?)
    ensures Acted(s, n, step).rows == Acted(t, n, step).rows
    ensures Twins(Acted(s, n, step).nodes[n], Acted(t, n, step).nodes[n])
  {
    match step
    case Remove(x, ok, hit) => RemoveSeen(s, n, x, ok, hit); RemoveSeen(t, n, x, ok, hit);
    case Add(x, ok, hit) => AddSeen(s, n, x, ok, hit); AddSeen(t, n, x, ok, hit);
  }

  lemma RowStepAlike(s: State, t: State, n: Id, step: Step)
    requires Alike(s, t) && n in s.nodes && Ready(s.nodes[n], step) && (step.DeleteRow? || step.Mark?)
    ensures Acted(s, n, step).rows == Acted(t, n, step).rows
    ensures Twins(Acted(s, n, step).nodes[n], Acted(t, n, step).nodes[n])
  {
  }

  lemma EdgeStepAlike(s: State, t: State, n: Id, step: Step)
    requires Alike(s, t) && n in s.nodes && Ready(s.nodes[n], step) && (step.Begin? || step.Finish? || step.Abort?)
    ensures Acted(s, n, step).rows == Acted(t, n, step).rows
    ensures Twins(Acted(s, n, step).nodes[n], Acted(t, n, step).nodes[n])
  {
  }

  lemma StepAlike(s: State, t: State, n: Id, step: Step)
    requires Alike(s, t) && n in s.nodes && Ready(s.nodes[n], step)
    ensures Acted(s, n, step).rows == Acted(t, n, step).rows
    ensures Twins(Acted(s, n, step).nodes[n], Acted(t, n, step).nodes[n])
  {
    if step.ReadRemovals? || step.ReadDesired? {
      ReadStepAlike(s, t, n, step);
    } else if step.Remove? || step.Add? {
      RpcStepAlike(s, t, n, step);
    } else if step.DeleteRow? || step.Mark? {
      RowStepAlike(s, t, n, step);
    } else {
      EdgeStepAlike(s, t, n, step);
    }
  }

  lemma OthersStay(s: State, n: Id, step: Step, m: Id)
    requires n in s.nodes && Ready(s.nodes[n], step) && m in s.nodes && m != n
    ensures Acted(s, n, step).nodes[m] == s.nodes[m]
  {
  }

  lemma ActedAlike(s: State, t: State, n: Id, step: Step)
    requires Alike(s, t) && n in s.nodes && Ready(s.nodes[n], step)
    ensures Ready(t.nodes[n], step) && Alike(Acted(s, n, step), Acted(t, n, step))
  {
    StepAlike(s, t, n, step);
    forall m | m in s.nodes && m != n ensures Twins(Acted(s, n, step).nodes[m], Acted(t, n, step).nodes[m]) {
      OthersStay(s, n, step, m);
      OthersStay(t, n, step, m);
    }
  }

  lemma ApplyAlike(s: State, t: State, a: Action)
    requires Alike(s, t) && Enabled(s, a)
    ensures Enabled(t, a) && Alike(Apply(s, a), Apply(t, a))
  {
    match a
    case Serve(r) => ServedAlike(s, t, r);
    case Act(n, step) => ActedAlike(s, t, n, step);
    case _ =>
  }

  /**
   Whatever the nodes' history says, the same runs are possible and lead to the same tables, entries, tokens and
   phases.
   */
  lemma {:induction false} HistoryIsInert(s0: State, t0: State, actions: seq<Action>)
    requires Alike(s0, t0) && Reach(s0, actions).Some?
    ensures Reach(t0, actions).Some? && Alike(Reach(s0, actions).value, Reach(t0, actions).value)
    decreases |actions|
  {
    if actions == [] {
    } else {
      var last := |actions| - 1;
      HistoryIsInert(s0, t0, actions[..last]);
      ApplyAlike(Reach(s0, actions[..last]).value, Reach(t0, actions[..last]).value, actions[last]);
    }
  }
}
