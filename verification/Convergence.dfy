/** What every run of the convergence protocol guarantees, and where the guarantee ends. */
module Convergence {
  import opened Domain
  import opened Protocol
  import opened ProtocolInvariant
  import HistoryInert

  /** Some request or sweep still has a trigger for node `n` to deliver. */
  ghost predicate Owed(s: State, n: Id) {
    exists op :: op in s.ops && Reaches(s, op, n)
  }

  ghost predicate Reaches(s: State, op: Op, n: Id) {
    || ((op.Fire? || op.Drop?) && n in op.nodes)
    || (op.Lookup? && exists k :: k in s.rows && OnNode(s, k, n) && k.user == op.user)
  }

  /** Something announces that node `n` may be out of step with the database. */
  ghost predicate Announced(s: State, n: Id)
    requires n in s.nodes
  {
    var nd := s.nodes[n];
    !nd.phase.Idle? || nd.token || nd.dirty || Owed(s, n)
  }

  /** Row by row: the entry is on the node exactly when the row asks for it. */
  ghost predicate InStep(s: State, n: Id)
    requires n in s.nodes
  {
    forall k :: k in s.rows && OnNode(s, k, n) ==> (EntryOf(s, k) in s.nodes[n].entries <==> Wanted(s, k))
  }

  lemma QuietIsSilent(s: State, n: Id, k: Key)
    requires n in s.nodes && OnNode(s, k, n) && !Owed(s, n)
    ensures !Pends(s, n, k.user)
  {
    forall op | op in s.ops ensures Signals(op, n, k.user) ==> Reaches(s, op, n) {}
  }

  lemma QuietInStep(s: State, n: Id)
    requires n in s.nodes && NodeInv(s, n) && !Announced(s, n) && !s.nodes[n].missed
    ensures InStep(s, n)
  {
    forall k | k in s.rows && OnNode(s, k, n) ensures EntryOf(s, k) in s.nodes[n].entries <==> Wanted(s, k) {
      QuietIsSilent(s, n, k);
      assert RowOk(s, n, k);
    }
  }

  /** In step and fully tracked: the node holds what the database asks for, plus orphans only. */
  lemma InStepMeansDesired(s: State, n: Id)
    requires n in s.nodes && Unique(s) && Tracked(s, n) && InStep(s, n)
    ensures Desired(s, n) <= s.nodes[n].entries <= Desired(s, n) + s.nodes[n].orphans
  {
    forall e | e in s.nodes[n].entries && e !in s.nodes[n].orphans ensures e in Desired(s, n) {
      var k :| k in s.rows && OnNode(s, k, n) && EntryOf(s, k) == e;
    }
  }

  /**
   Convergence over every run: whenever a node's entries differ from what the database asks for, a trigger is
   pending or owed, a pass is in flight, the last pass aborted or a restart happened since it read, or since then a
   lookup failed or a row came to be wanted or unwanted without a signal; entries beyond the desired ones are orphans.
   */
  lemma Converges(s0: State, actions: seq<Action>, s: State, n: Id)
    requires Init(s0) && Reach(s0, actions) == Some(s) && n in s.nodes
    ensures
      || Announced(s, n)
      || s.nodes[n].missed
      || Desired(s, n) <= s.nodes[n].entries <= Desired(s, n) + s.nodes[n].orphans
  {
    InitInv(s0);
    RunInv(s0, actions, s);
    if !Announced(s, n) && !s.nodes[n].missed {
      QuietInStep(s, n);
      InStepMeansDesired(s, n);
    }
  }

  // ---------------------------------------------------------------- undisturbed runs

  /**
   Nobody is deleted, target lookups succeed, no replacement or tombstoning retires a wanted row on a node outside the
   targets it read, and no untold write takes a user into or out of service: what a service that handles each user's
   requests one at a time does.
   */
  ghost predicate Orderly(s: State, a: Action) {
    a.Serve? ==>
      match a.request
      case FailTargets(_) => false
      case CommitReplace(op) =>
        op.Replace? ==> forall n :: n in s.nodes ==> !LosesUntold(s, op.user, op.inbounds, Told(s, op), n)
      case CommitTombstone(op) =>
        op.Tombstone? ==> forall n :: n in s.nodes ==> !LosesUntold(s, op.user, {}, op.nodes, n)
      case CommitDrop(_) => false
      case WriteUsers(us, told) => forall n :: n in s.nodes ==> !FlipsUntold(s, us, told, n)
      case CommitRewrite(op) =>
        op.Rewrite? && op.user in s.users ==> forall n :: n in s.nodes ==> !FlipsUntold(s, Rewritten(s, op), {}, n)
      case _ => true
  }

  ghost predicate OrderlyRun(s0: State, actions: seq<Action>)
    requires Reach(s0, actions).Some?
    decreases |actions|
  {
    actions == [] || (
      var before := actions[..|actions| - 1];
      OrderlyRun(s0, before) && Orderly(Reach(s0, before).value, actions[|actions| - 1]))
  }

  /** No node was ever skipped by a signal or kept an entry of a deleted user. */
  ghost predicate Pristine(s: State) {
    forall n :: n in s.nodes ==> !s.nodes[n].missed && s.nodes[n].orphans == {}
  }

  lemma ServedPristine(s: State, r: Request)
    requires Pristine(s) && Allowed(s, r) && Orderly(s, Serve(r))
    ensures Pristine(Served(s, r))
  {
  }

  lemma ActedPristine(s: State, n: Id, step: Step)
    requires Pristine(s) && n in s.nodes && Ready(s.nodes[n], step)
    ensures Pristine(Acted(s, n, step))
  {
    StepAddsNoHistory(s, n, step);
    forall m | m in s.nodes && m != n ensures Acted(s, n, step).nodes[m] == s.nodes[m] {
      HistoryInert.OthersStay(s, n, step, m);
    }
  }

  lemma StepAddsNoHistory(s: State, n: Id, step: Step)
    requires n in s.nodes && Ready(s.nodes[n], step)
    ensures var nd, nd' := s.nodes[n], Acted(s, n, step).nodes[n];
      (nd'.missed ==> nd.missed) && nd'.orphans <= nd.orphans
  {
  }

  lemma {:induction false} OrderlyStaysPristine(s0: State, actions: seq<Action>, s: State)
    requires Pristine(s0) && Reach(s0, actions) == Some(s) && OrderlyRun(s0, actions)
    ensures Pristine(s)
    decreases |actions|
  {
    if actions == [] {
    } else {
      var last := |actions| - 1;
      var t := Reach(s0, actions[..last]).value;
      OrderlyStaysPristine(s0, actions[..last], t);
      match actions[last]
      case Serve(r) => ServedPristine(t, r);
      case Act(n, step) => ActedPristine(t, n, step);
      case _ =>
    }
  }

  /**
   On orderly runs the guarantee is exact: a node whose entries are not precisely the desired ones has a trigger
   pending or owed, a pass in flight, or an abort or restart since its last removals read.
   */
  lemma ConvergesExactly(s0: State, actions: seq<Action>, s: State, n: Id)
    requires Init(s0) && Pristine(s0) && Reach(s0, actions) == Some(s) && OrderlyRun(s0, actions) && n in s.nodes
    ensures Announced(s, n) || s.nodes[n].entries == Desired(s, n)
  {
    Converges(s0, actions, s, n);
    OrderlyStaysPristine(s0, actions, s);
  }

  // ---------------------------------------------------------------- wake-ups

  /**
   No wake-up is lost to the one-slot channel: the newest write any trigger stands for is covered by the pending
   token, by a pass that has yet to read, or by a removals read made after it, unless that pass gave up before
   reading; and a pass that went on to push read the desired rows later still.
   */
  lemma NoLostWakeup(s0: State, actions: seq<Action>, s: State, n: Id)
    requires Init(s0) && Reach(s0, actions) == Some(s) && n in s.nodes
    ensures var nd := s.nodes[n];
      && (nd.token || nd.phase.Started? || nd.asked <= nd.remRead || nd.skipped)
      && (Pushing(nd.phase) || (nd.phase.Idle? && !nd.dirty) ==> nd.remRead <= nd.desRead)
  {
    InitInv(s0);
    RunInv(s0, actions, s);
    assert ClockOk(s, n);
  }

  /** The newest write a trigger stands for is, or will be, read: by the token, a pass yet to read, or a read since. */
  predicate Covered(nd: Node) { nd.token || nd.phase.Started? || nd.asked <= nd.remRead }

  /** A pass gives up before its removals read, or the service restarts, and no further trigger is pending. */
  predicate Forgets(nd: Node, a: Action, n: Id) {
    nd.remRead < nd.asked && (a == RestartService || (a == Act(n, Abort) && nd.phase.Started? && !nd.token))
  }

  lemma StepCovers(s: State, n: Id, step: Step)
    requires n in s.nodes && ClockOk(s, n) && Ready(s.nodes[n], step) && Covered(s.nodes[n])
    ensures !Covered(Acted(s, n, step).nodes[n]) <==> Forgets(s.nodes[n], Act(n, step), n)
  {
  }

  lemma ServedCovers(s: State, r: Request, n: Id)
    requires Allowed(s, r) && n in s.nodes && Covered(s.nodes[n])
    ensures Covered(Served(s, r).nodes[n])
  {
    HistoryInert.ServedNode(s, r, n);
  }

  /**
   Exactly when a wake-up is lost: an action leaves the newest trigger of a covered node uncovered if and only if that
   trigger's write has not been read, and either the service restarts or the node's pass gives up before its removals
   read with no further token waiting.
   */
  lemma WakeupLostExactly(s: State, a: Action, n: Id)
    requires Inv(s) && Enabled(s, a) && n in s.nodes && Covered(s.nodes[n])
    ensures !Covered(Apply(s, a).nodes[n]) <==> Forgets(s.nodes[n], a, n)
  {
    match a
    case Serve(r) => ServedCovers(s, r, n);
    case Act(m, step) =>
      assert NodeInv(s, n);
      if m == n { StepCovers(s, n, step); } else { HistoryInert.OthersStay(s, m, step, n); }
    case RestartNode(_) =>
    case RestartService =>
  }

  /** Some action of the run forgets a trigger of node `n`. */
  ghost predicate ForgetsAlong(s0: State, actions: seq<Action>, n: Id)
    requires Reach(s0, actions).Some?
    decreases |actions|
  {
    actions != [] && (
      var before := actions[..|actions| - 1];
      var t := Reach(s0, before).value;
      ForgetsAlong(s0, before, n) || (n in t.nodes && Forgets(t.nodes[n], actions[|actions| - 1], n)))
  }

  /** On every run in which no action does so, every wake-up is covered throughout. */
  lemma {:induction false} WakeupsKept(s0: State, actions: seq<Action>, s: State, n: Id)
    requires Init(s0) && n in s0.nodes && Reach(s0, actions) == Some(s) && !ForgetsAlong(s0, actions, n)
    ensures n in s.nodes && Covered(s.nodes[n])
    decreases |actions|
  {
    if actions == [] {
    } else {
      var last := |actions| - 1;
      var t := Reach(s0, actions[..last]).value;
      WakeupsKept(s0, actions[..last], t, n);
      InitInv(s0);
      RunInv(s0, actions[..last], t);
      WakeupLostExactly(t, actions[last], n);
    }
  }

  // ---------------------------------------------------------------- replacing assignments

  /**
   Exactly when replacing a user's assignments breaks the guarantee: the commit leaves a node that was settled
   out of step and unannounced if and only if it retires a wanted row on a node that is neither in the
   targets read before the transaction nor among the new inbounds' nodes.
   */
  lemma ReplaceMissesExactly(s: State, op: Op, n: Id)
    requires Inv(s) && Allowed(s, CommitReplace(op)) && n in s.nodes
    requires !Announced(s, n) && !s.nodes[n].missed
    ensures var s' := DoReplace(s, op);
      (!Announced(s', n) && !InStep(s', n)) <==> LosesUntold(s, op.user, op.inbounds, Told(s, op), n)
  {
    var s' := DoReplace(s, op);
    if LosesUntold(s, op.user, op.inbounds, Told(s, op), n) {
      ReplaceStrands(s, op, n);
    } else if !Announced(s', n) {
      CommitReplaceInv(s, op, n);
      QuietInStep(s', n);
    }
  }

  lemma InsertsAreTold(s: State, op: Op, k: Key, n: Id)
    requires Allowed(s, CommitReplace(op)) && OnNode(DoReplace(s, op), k, n)
    ensures OnNode(s, k, n) || n in Told(s, op)
  {
    assert k in s.rows || k in KeysFor(op.user, op.inbounds);
  }

  lemma ReplaceOwesNothing(s: State, op: Op, n: Id)
    requires Allowed(s, CommitReplace(op)) && n in s.nodes && n !in Told(s, op) && !Owed(s, n)
    ensures !Owed(DoReplace(s, op), n)
  {
    var s' := DoReplace(s, op);
    forall j | OnNode(s', j, n) ensures OnNode(s, j, n) { InsertsAreTold(s, op, j, n); }
    forall o | o in s'.ops ensures !Reaches(s', o, n) {
      if o in s.ops { assert !Reaches(s, o, n); }
    }
  }

  lemma ReplaceStrands(s: State, op: Op, n: Id)
    requires Inv(s) && Allowed(s, CommitReplace(op)) && n in s.nodes
    requires !Announced(s, n) && !s.nodes[n].missed && LosesUntold(s, op.user, op.inbounds, Told(s, op), n)
    ensures !Announced(DoReplace(s, op), n) && !InStep(DoReplace(s, op), n)
  {
    var s' := DoReplace(s, op);
    QuietInStep(s, n);
    var k :| k in s.rows && k.user == op.user && k.inbound !in op.inbounds && OnNode(s, k, n) && Wanted(s, k);
    assert OnNode(s', k, n) && !Wanted(s', k) && EntryOf(s', k) in s'.nodes[n].entries;
    ReplaceOwesNothing(s, op, n);
  }

  /** A request whose target read is not overtaken by another insert for the same user misses nobody. */
  lemma SerialReplaceMissesNobody(s: State, op: Op, n: Id)
    requires op.Replace? && NodesOf(s, op.user) <= op.nodes
    ensures !LosesUntold(s, op.user, op.inbounds, Told(s, op), n)
  {
    forall k | k in s.rows && k.user == op.user && OnNode(s, k, n) ensures n in NodesOf(s, op.user) {}
  }

  // ---------------------------------------------------------------- tombstoning for a deletion

  lemma TombstoneOwes(s: State, op: Op, n: Id)
    requires Allowed(s, CommitTombstone(op)) && n in s.nodes && !Owed(s, n)
    ensures Owed(DoTombstone(s, op), n) <==> n in op.nodes
  {
    var s' := DoTombstone(s, op);
    var drop := Drop(op.user, op.nodes, s.clock + 1);
    forall k ensures OnNode(s', k, n) <==> OnNode(s, k, n) {}
    assert drop in s'.ops && (Reaches(s', drop, n) <==> n in op.nodes);
    forall o | o in s'.ops && o != drop ensures !Reaches(s', o, n) {
      assert o in s.ops && !Reaches(s, o, n);
    }
  }

  /** The same for a deletion's tombstones: a settled node is stranded if and only if it loses a wanted row untold. */
  lemma TombstoneMissesExactly(s: State, op: Op, n: Id)
    requires Inv(s) && Allowed(s, CommitTombstone(op)) && n in s.nodes
    requires !Announced(s, n) && !s.nodes[n].missed
    ensures var s' := DoTombstone(s, op);
      (!Announced(s', n) && !InStep(s', n)) <==> LosesUntold(s, op.user, {}, op.nodes, n)
  {
    var s' := DoTombstone(s, op);
    TombstoneOwes(s, op, n);
    if LosesUntold(s, op.user, {}, op.nodes, n) {
      QuietInStep(s, n);
      var k :| k in s.rows && k.user == op.user && k.inbound !in {} && OnNode(s, k, n) && Wanted(s, k);
      assert OnNode(s', k, n) && !Wanted(s', k) && EntryOf(s', k) in s'.nodes[n].entries;
    } else if !Announced(s', n) {
      CommitTombstoneInv(s, op, n);
      QuietInStep(s', n);
    }
  }

  // ---------------------------------------------------------------- failed lookups

  /** Row `k` and its entry disagree. */
  predicate Astray(s: State, n: Id, k: Key)
    requires n in s.nodes && OnNode(s, k, n)
  {
    (EntryOf(s, k) in s.nodes[n].entries) != Wanted(s, k)
  }

  /** Apart from the lookup `op` itself, nothing announces node `n`. */
  ghost predicate OnlyAwaits(s: State, op: Op, n: Id)
    requires n in s.nodes
  {
    var nd := s.nodes[n];
    && nd.phase.Idle? && !nd.token && !nd.dirty && !nd.missed
    && forall o :: o in Take(s, op) ==> !Reaches(s, o, n)
  }

  lemma OthersInStep(s: State, op: Op, n: Id, k: Key)
    requires n in s.nodes && NodeInv(s, n) && op.Lookup? && OnlyAwaits(s, op, n) && OnNode(s, k, n) && k.user != op.user
    ensures !Astray(s, n, k)
  {
    forall o | o in s.ops ensures !Signals(o, n, k.user) {
      if o != op {
        assert o in Take(s, op) && !Reaches(s, o, n);
      }
    }
    assert Silent(s, n, k.user);
    assert RowOk(s, n, k);
  }

  /**
   When the lookup after a write fails, a node that waits for nothing else is stranded if and only if a row of the very
   user looked up is astray there: the write changed what the node should hold for that user.
   */
  lemma FailedLookupStrandsExactly(s: State, op: Op, n: Id)
    requires Inv(s) && Allowed(s, FailTargets(op)) && n in s.nodes && OnlyAwaits(s, op, n)
    ensures var s' := DoFailTargets(s, op);
      (!Announced(s', n) && !InStep(s', n)) <==>
        exists k :: k in s.rows && OnNode(s, k, n) && k.user == op.user && Astray(s, n, k)
  {
    var s' := DoFailTargets(s, op);
    forall k ensures OnNode(s', k, n) <==> OnNode(s, k, n) {}
    forall o | o in s'.ops ensures !Reaches(s', o, n) { assert !Reaches(s, o, n); }
    forall k | k in s.rows && OnNode(s, k, n) && k.user != op.user ensures !Astray(s, n, k) {
      OthersInStep(s, op, n, k);
    }
  }

  // ---------------------------------------------------------------- leftovers of deleted users

  /** The run drops a user who carries this email at that moment. */
  ghost predicate DropsAlong(s0: State, actions: seq<Action>, email: string)
    requires Reach(s0, actions).Some?
    decreases |actions|
  {
    actions != [] && (
      var before := actions[..|actions| - 1];
      DropsAlong(s0, before, email) || Drops(Reach(s0, before).value, actions[|actions| - 1], email))
  }

  predicate Drops(s: State, a: Action, email: string) {
    && a.Serve? && a.request.CommitDrop? && a.request.op.Drop? && a.request.op.user in s.users
    && s.users[a.request.op.user].email == email
  }

  lemma ServedOrphans(s: State, r: Request, n: Id, e: Entry)
    requires Allowed(s, r) && n in s.nodes && e in Served(s, r).nodes[n].orphans
    ensures e in s.nodes[n].orphans || Drops(s, Serve(r), e.email)
  {
    HistoryInert.ServedNode(s, r, n);
    if r.CommitDrop? { DropOrphans(s, r.op, n, e); }
  }

  lemma DropOrphans(s: State, op: Op, n: Id, e: Entry)
    requires Allowed(s, CommitDrop(op)) && n in s.nodes && e in DoDrop(s, op).nodes[n].orphans
    ensures e in s.nodes[n].orphans || s.users[op.user].email == e.email
  {
  }

  lemma StepOrphans(s: State, a: Action, n: Id, e: Entry)
    requires Enabled(s, a) && n in s.nodes && e in Apply(s, a).nodes[n].orphans
    ensures e in s.nodes[n].orphans || Drops(s, a, e.email)
  {
    match a
    case Serve(r) => ServedOrphans(s, r, n, e);
    case Act(m, step) =>
      if m == n { StepAddsNoHistory(s, n, step); } else { HistoryInert.OthersStay(s, m, step, n); }
    case RestartNode(_) =>
    case RestartService =>
  }

  lemma {:induction false} OrphansWereDropped(s0: State, actions: seq<Action>, s: State, n: Id, e: Entry)
    requires Reach(s0, actions) == Some(s) && n in s0.nodes && n in s.nodes && e in s.nodes[n].orphans
    ensures e in s0.nodes[n].orphans || DropsAlong(s0, actions, e.email)
    decreases |actions|
  {
    if actions == [] {
    } else {
      var last := |actions| - 1;
      var t := Reach(s0, actions[..last]).value;
      assert n in t.nodes;
      StepOrphans(t, actions[last], n, e);
      if e in t.nodes[n].orphans { OrphansWereDropped(s0, actions[..last], t, n, e); }
    }
  }

  /**
   On a quiet node that was told of every change, an entry the database does not ask for was left over at the start, or
   carries the email of a user dropped during the run.
   */
  lemma SurplusWasDropped(s0: State, actions: seq<Action>, s: State, n: Id, e: Entry)
    requires Init(s0) && Reach(s0, actions) == Some(s) && n in s0.nodes && n in s.nodes
    requires !Announced(s, n) && !s.nodes[n].missed && e in s.nodes[n].entries && e !in Desired(s, n)
    ensures e in s0.nodes[n].orphans || DropsAlong(s0, actions, e.email)
  {
    Converges(s0, actions, s, n);
    OrphansWereDropped(s0, actions, s, n, e);
  }

  // ---------------------------------------------------------------- writing user records

  /** A user whose nodes are looked up after the write has a row on node `n`. */
  ghost predicate ToldHere(s: State, told: set<Id>, n: Id) {
    exists k :: k in s.rows && OnNode(s, k, n) && k.user in told
  }

  /** The operations after the write announce node `n` exactly if they did before or it is told. */
  lemma WriteOwes(s: State, us: map<Id, User>, told: set<Id>, n: Id)
    requires Allowed(s, WriteUsers(us, told))
    ensures Owed(DoWriteUsers(s, us, told), n) <==> Owed(s, n) || ToldHere(s, told, n)
  {
    var s' := DoWriteUsers(s, us, told);
    forall k ensures OnNode(s', k, n) <==> OnNode(s, k, n) {}
    forall op ensures Reaches(s', op, n) <==> Reaches(s, op, n) {}
    if op :| op in s.ops && Reaches(s, op, n) { assert op in s'.ops; }
    if k :| k in s.rows && OnNode(s, k, n) && k.user in told {
      assert Lookup(k.user, s.clock + 1) in s'.ops && Reaches(s', Lookup(k.user, s.clock + 1), n);
    }
  }

  /**
   Exactly when a write to the users table breaks the guarantee: it leaves a node that was settled out of step and
   unannounced if and only if it takes a user with a live row there into or out of service, and neither that user nor
   any other user of the node is told.
   */
  lemma WriteMissesExactly(s: State, us: map<Id, User>, told: set<Id>, n: Id)
    requires Inv(s) && Allowed(s, WriteUsers(us, told)) && n in s.nodes
    requires !Announced(s, n) && !s.nodes[n].missed
    ensures var s' := DoWriteUsers(s, us, told);
      (!Announced(s', n) && !InStep(s', n)) <==> FlipsUntold(s, us, told, n) && !ToldHere(s, told, n)
  {
    var s' := DoWriteUsers(s, us, told);
    WriteOwes(s, us, told, n);
    if FlipsUntold(s, us, told, n) {
      FlipStrands(s, us, told, n);
    } else if !Announced(s', n) {
      WriteUsersInv(s, us, told, n);
      QuietInStep(s', n);
    }
  }

  lemma FlipStrands(s: State, us: map<Id, User>, told: set<Id>, n: Id)
    requires Inv(s) && Allowed(s, WriteUsers(us, told)) && n in s.nodes
    requires !Announced(s, n) && !s.nodes[n].missed && FlipsUntold(s, us, told, n)
    ensures !InStep(DoWriteUsers(s, us, told), n)
  {
    var s' := DoWriteUsers(s, us, told);
    QuietInStep(s, n);
    var k :| k in s.rows && OnNode(s, k, n) && k.user in us && k.user !in told && s.rows[k] != SyncStatus.Removing
      && (s.users[k.user].status == Active) != (us[k.user].status == Active);
    assert OnNode(s', k, n) && EntryOf(s', k) == EntryOf(s, k) && Wanted(s', k) != Wanted(s, k);
  }

  lemma QuietWithout(s: State, op: Op, n: Id)
    requires n in s.nodes && op.Rewrite?
    ensures Owed(s.(ops := Take(s, op)), n) <==> Owed(s, n)
  {
    var s' := s.(ops := Take(s, op));
    forall k ensures OnNode(s', k, n) <==> OnNode(s, k, n) {}
    forall o ensures Reaches(s', o, n) <==> Reaches(s, o, n) {}
    if o :| o in s.ops && Reaches(s, o, n) { assert o in s'.ops; }
  }

  /**
   Rotating a subscription token writes back the whole record it read, and wakes nobody. It strands a settled node if
   and only if the user has a live row there and has gone into or out of service since the record was read.
   */
  lemma RewriteMissesExactly(s: State, op: Op, n: Id)
    requires Inv(s) && Allowed(s, CommitRewrite(op)) && n in s.nodes
    requires !Announced(s, n) && !s.nodes[n].missed
    ensures var s' := DoRewrite(s, op);
      (!Announced(s', n) && !InStep(s', n)) <==>
        && (s.users[op.user].status == Active) != (op.seen.status == Active)
        && exists k :: k in s.rows && OnNode(s, k, n) && k.user == op.user && s.rows[k] != SyncStatus.Removing
  {
    var t := s.(ops := Take(s, op));
    QuietWithout(s, op, n);
    TakenInv(s, op);
    WriteMissesExactly(t, Rewritten(s, op), {}, n);
    RewriteFlips(s, op, n);
  }

  lemma RewriteFlips(s: State, op: Op, n: Id)
    requires op.Rewrite? && op.user in s.users
    ensures FlipsUntold(s.(ops := Take(s, op)), Rewritten(s, op), {}, n) <==>
      && (s.users[op.user].status == Active) != (op.seen.status == Active)
      && exists k :: k in s.rows && OnNode(s, k, n) && k.user == op.user && s.rows[k] != SyncStatus.Removing
  {
    forall k ensures OnNode(s.(ops := Take(s, op)), k, n) <==> OnNode(s, k, n) {}
  }

  lemma TakenInv(s: State, op: Op)
    requires Inv(s) && op.Rewrite?
    ensures Inv(s.(ops := Take(s, op)))
  {
    var t := s.(ops := Take(s, op));
    PlainSchema(s, t);
    forall n | n in s.nodes ensures NodeInv(t, n) { QuietOpInv(s, Take(s, op), n); }
  }
}
