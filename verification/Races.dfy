/** Runs from a starting service, with every call and statement succeeding, in which a guarantee is lost. */
module Races {
  import opened Domain
  import opened Protocol
  import opened ProtocolInvariant
  import opened Convergence
  import opened Retirement
  import opened Deletion
  import opened ReplaceRace
  import HistoryInert

  /** A service at start: active user `u` has one assignment, to inbound `i` on node `n`. */
  ghost predicate OneRow(s0: State, u: Id, i: Id, n: Id) {
    && Init(s0) && s0.rows == map[Key(u, i) := Pending] && n in s0.nodes
    && u in s0.users && s0.users[u].status == Active && i in s0.inbounds && s0.inbounds[i].node == n
  }

  /** A tick starts a pass, which has read what to push and pushed nothing yet. */
  lemma PassReads(s0: State, u: Id, i: Id, n: Id) returns (actions: seq<Action>, s: State)
    requires OneRow(s0, u, i, n)
    ensures Reach(s0, actions) == Some(s) && Inv(s) && n in s.nodes && s.(nodes := s0.nodes) == s0
    ensures s.nodes[n].phase == Adding({TargetOf(s0, Key(u, i))}) && s.nodes[n].entries == s0.nodes[n].entries
  {
    InitInv(s0);
    actions, s := ReadingHalf(s0, [], s0, Key(u, i), n, false);
    RunInv(s0, actions, s);
  }

  lemma NodesOfOne(s: State, u: Id, i: Id, n: Id)
    requires s.rows.Keys == {Key(u, i)} && i in s.inbounds && s.inbounds[i].node == n
    ensures NodesOf(s, u) == {n}
  {
    assert Key(u, i) in s.rows;
  }

  // ---------------------------------------------------------------- a lost retirement

  lemma WithdrawAll(s: State, u: Id, i: Id, n: Id)
    requires s.rows == map[Key(u, i) := Pending] && s.ops == multiset{} && u in s.users && i in s.inbounds
    requires s.inbounds[i].node == n
    ensures var op := Replace(u, {}, {n});
      var s1 := s.(ops := multiset{op});
      && Hop(s, Serve(ReadOldTargets(u, {}, true)), s1) && Hop(s1, Serve(CommitReplace(op)), DoReplace(s1, op))
      && DoReplace(s1, op).rows == map[Key(u, i) := SyncStatus.Removing]
  {
    NodesOfOne(s, u, i, n);
    assert {} <= s.inbounds.Keys;
    assert KeysFor(u, {}) == {};
  }

  lemma WithdrawRuns(s0: State, before: seq<Action>, s: State, u: Id, i: Id, n: Id)
    returns (actions: seq<Action>, s1: State, s2: State)
    requires Reach(s0, before) == Some(s) && n in s.nodes
    requires s.rows == map[Key(u, i) := Pending] && s.ops == multiset{} && u in s.users && i in s.inbounds
    requires s.inbounds[i].node == n
    ensures Reach(s0, actions) == Some(s1) && Hop(s1, Serve(CommitReplace(Replace(u, {}, {n}))), s2)
    ensures s2.rows == map[Key(u, i) := SyncStatus.Removing] && n in s2.nodes && s2.nodes[n].phase == s.nodes[n].phase
  {
    WithdrawAll(s, u, i, n);
    actions, s1 := before + [Serve(ReadOldTargets(u, {}, true))], s.(ops := multiset{Replace(u, {}, {n})});
    ReachMore(s0, before, s, Serve(ReadOldTargets(u, {}, true)));
    s2 := DoReplace(s1, Replace(u, {}, {n}));
    HistoryInert.WatchedNode(s1, Replace(u, {}, {n}), n);
  }

  /** The push in flight finishes: the row is marked applied and the node serves the user. */
  lemma PushOverTombstone(s: State, n: Id, x: Target) returns (s1: State, s2: State)
    requires n in s.nodes && s.nodes[n].phase == Adding({x}) && x.sync == Pending && x.key in s.rows
    ensures Hop(s, Act(n, Add(x, true, true)), s1) && Hop(s1, Act(n, Mark(true)), s2)
    ensures x.key in s2.rows && s2.rows[x.key] == Applied && n in s2.nodes && x.entry in s2.nodes[n].entries
  {
    s1 := DoAdd(s, n, x, true, true);
    s2 := DoMark(s1, n, true);
  }

  /**
   A user's last assignment is withdrawn, told to every node concerned, while a pass holds its push: nothing fails, and
   at the end the assignment is live and served again.
   */
  lemma RetirementLost(s0: State, u: Id, i: Id, n: Id)
    returns (before: seq<Action>, s: State, s1: State, after: seq<Action>, t: State)
    requires OneRow(s0, u, i, n)
    ensures Reach(s0, before) == Some(s) && Hop(s, Serve(CommitReplace(Replace(u, {}, {n}))), s1)
    ensures Retired(s1, Key(u, i))
    ensures var x := TargetOf(s0, Key(u, i));
      && after == before + [Serve(CommitReplace(Replace(u, {}, {n})))] + [Act(n, Add(x, true, true))] +
        [Act(n, Mark(true))]
      && n in t.nodes && x.entry in t.nodes[n].entries
    ensures Reach(s0, after) == Some(t) && Key(u, i) in t.rows && t.rows[Key(u, i)] == Applied
  {
    var commit, add, mark := Serve(CommitReplace(Replace(u, {}, {n}))),
      Act(n, Add(TargetOf(s0, Key(u, i)), true, true)), Act(n, Mark(true));
    var opening, s2 := PassReads(s0, u, i, n);
    before, s, s1 := WithdrawRuns(s0, opening, s2, u, i, n);
    ReachMore(s0, before, s, commit);
    var s3;
    s3, t := PushOverTombstone(s1, n, TargetOf(s0, Key(u, i)));
    TwoHops(s0, before + [commit], s1, add, s3, mark, t);
    after := before + [commit] + [add] + [mark];
  }

  // ---------------------------------------------------------------- a leaked user

  lemma TombstoneOne(s: State, u: Id, i: Id, n: Id) returns (s1: State, s2: State)
    requires s.rows == map[Key(u, i) := Pending] && s.ops == multiset{} && i in s.inbounds && s.inbounds[i].node == n
    requires n in s.nodes
    ensures Hop(s, Serve(ReadDeleteTargets(u)), s1) && Hop(s1, Serve(CommitTombstone(Tombstone(u, {n}))), s2)
    ensures s2.users == s.users && s2.ops == multiset{Drop(u, {n}, s.clock + 1)} && n in s2.nodes
    ensures HistoryInert.Twins(s2.nodes[n], s.nodes[n])
  {
    NodesOfOne(s, u, i, n);
    var tomb := Tombstone(u, {n});
    s1 := s.(ops := multiset{tomb});
    HistoryInert.WatchedNode(s1, tomb, n);
    assert Take(s1, tomb) == multiset{};
    s2 := DoTombstone(s1, tomb);
  }

  lemma TriggerDrop(s: State, u: Id, n: Id, c: nat) returns (s1: State)
    requires n in s.nodes && s.ops == multiset{Drop(u, {n}, c)}
    ensures Hop(s, Serve(Trigger(Drop(u, {n}, c), n)), s1) && s1.users == s.users && Drop(u, {}, c) in s1.ops
    ensures n in s1.nodes && s1.nodes[n].phase == s.nodes[n].phase && s1.nodes[n].entries == s.nodes[n].entries
  {
    assert {n} - {n} == {};
    s1 := DoTrigger(s, Drop(u, {n}, c), n);
  }

  /** Everything a deletion does before it drops the user row. */
  lemma DeleteRuns(s0: State, before: seq<Action>, s: State, u: Id, i: Id, n: Id)
    returns (actions: seq<Action>, t: State, op: Op)
    requires Reach(s0, before) == Some(s)
    requires s.rows == map[Key(u, i) := Pending] && s.ops == multiset{} && u in s.users && i in s.inbounds
    requires s.inbounds[i].node == n && n in s.nodes
    ensures Reach(s0, actions) == Some(t) && Allowed(t, CommitDrop(op)) && op.user == u && t.users == s.users
    ensures n in t.nodes && t.nodes[n].phase == s.nodes[n].phase && t.nodes[n].entries == s.nodes[n].entries
  {
    var c := s.clock + 1;
    var s1, s2 := TombstoneOne(s, u, i, n);
    TwoHops(s0, before, s, Serve(ReadDeleteTargets(u)), s1, Serve(CommitTombstone(Tombstone(u, {n}))), s2);
    actions := before + [Serve(ReadDeleteTargets(u))] + [Serve(CommitTombstone(Tombstone(u, {n})))];
    t := TriggerDrop(s2, u, n, c);
    ReachMore(s0, actions, s2, Serve(Trigger(Drop(u, {n}, c), n)));
    actions, op := actions + [Serve(Trigger(Drop(u, {n}, c), n))], Drop(u, {}, c);
  }

  lemma DropThenPush(s: State, op: Op, n: Id, x: Target) returns (s1: State, s2: State)
    requires Inv(s) && Allowed(s, CommitDrop(op)) && n in s.nodes && s.nodes[n].phase == Adding({x})
    requires s.users[op.user].email == x.entry.email
    ensures Hop(s, Serve(CommitDrop(op)), s1) && Hop(s1, Act(n, Add(x, true, true)), s2) && Leaked(s2, n, x.entry)
  {
    DropFrees(s, op, n, x.entry);
    s1 := DoDrop(s, op);
    PushLeaks(s1, n, x);
    s2 := DoAdd(s1, n, x, true, true);
  }

  /**
   A user is deleted, every node told first, while a pass holds the user's push: nothing fails, and the node serves the
   deleted user for good, even if it did not hold the entry when the user row went.
   */
  lemma DeletedUserServed(s0: State, u: Id, i: Id, n: Id) returns (before: seq<Action>, s: State, op: Op, t: State)
    requires OneRow(s0, u, i, n)
    ensures var x := TargetOf(s0, Key(u, i));
      && Reach(s0, before) == Some(s) && Allowed(s, CommitDrop(op)) && op.user == u
      && n in s.nodes && s.nodes[n].entries == s0.nodes[n].entries
      && Reach(s0, before + [Serve(CommitDrop(op))] + [Act(n, Add(x, true, true))]) == Some(t) && Leaked(t, n, x.entry)
  {
    var x := TargetOf(s0, Key(u, i));
    var opening, s1 := PassReads(s0, u, i, n);
    before, s, op := DeleteRuns(s0, opening, s1, u, i, n);
    InitInv(s0);
    RunInv(s0, before, s);
    var s2;
    s2, t := DropThenPush(s, op, n, x);
    TwoHops(s0, before, s, Serve(CommitDrop(op)), s2, Act(n, Add(x, true, true)), t);
  }

  // ---------------------------------------------------------------- a stale record

  /** The table after user `u` is taken out of service. */
  function Withdrawn(s: State, u: Id, status: UserStatus): map<Id, User>
    requires u in s.users
  {
    s.users[u := s.users[u].(status := status)]
  }

  lemma Withdraw(s: State, u: Id, status: UserStatus, stale: Op)
    requires u in s.users && s.ops == multiset{stale}
    ensures var us, c := Withdrawn(s, u, status), s.clock + 1;
      Hop(s, Serve(WriteUsers(us, {u})), s.(users := us, clock := c, ops := multiset{stale, Lookup(u, c)}))
  {
    var us, c := Withdrawn(s, u, status), s.clock + 1;
    var s' := DoWriteUsers(s, us, {u});
    assert s'.nodes == s.nodes by {
      forall m ensures !FlipsUntold(s, us, {u}, m) {}
    }
    assert s'.ops == multiset{stale, Lookup(u, c)} by {
      assert (set v | v in {u} :: Lookup(v, c)) == {Lookup(u, c)};
    }
  }

  lemma FindOne(s: State, u: Id, i: Id, n: Id, stale: Op, c: nat)
    requires s.rows.Keys == {Key(u, i)} && i in s.inbounds && s.inbounds[i].node == n
    requires s.ops == multiset{stale, Lookup(u, c)}
    ensures Hop(s, Serve(FindTargets(Lookup(u, c))), s.(ops := multiset{stale, Fire({n}, c)}))
  {
    NodesOfOne(s, u, i, n);
    assert Take(s, Lookup(u, c)) == multiset{stale};
  }

  lemma TriggerOne(s: State, stale: Op, c: nat, n: Id)
    requires n in s.nodes && stale.Rewrite? && s.ops == multiset{stale, Fire({n}, c)}
    ensures var s1 := DoTrigger(s, Fire({n}, c), n);
      && Hop(s, Serve(Trigger(Fire({n}, c), n)), s1) && s1.ops == multiset{stale, Fire({}, c)} && s1.nodes[n].token
      && s1.(nodes := s.nodes, ops := s.ops) == s && s1.nodes[n].phase == s.nodes[n].phase
  {
    assert {n} - {n} == {};
    assert Take(s, Fire({n}, c)) == multiset{stale};
  }

  lemma UnwantedReads(s: State, k: Key, n: Id)
    requires s.rows.Keys == {k} && OnNode(s, k, n) && !Wanted(s, k)
    ensures RemovalTargets(s, n) == {TargetOf(s, k)} && DesiredTargets(s, n) == {}
  {
  }

  /** The pass that takes the user off the node, meeting no failure. */
  lemma RemovingPass(s0: State, before: seq<Action>, s: State, k: Key, n: Id) returns (pass: seq<Action>, t: State)
    requires Reach(s0, before) == Some(s)
    requires s.rows == map[k := Pending] && n in s.nodes && OnNode(s, k, n) && !Wanted(s, k)
    requires s.nodes[n].phase.Idle? && s.nodes[n].token
    ensures Reach(s0, pass) == Some(t) && n in t.nodes && t.(nodes := s.nodes) == s
    ensures var nd := t.nodes[n]; nd.phase.Idle? && !nd.token && !nd.dirty && !nd.missed
  {
    var s2, s3 := RemovingHalf(s, k, n);
    var x := TargetOf(s, k);
    var s1 := DoBegin(s, n, true);
    TwoHops(s0, before, s, Act(n, Begin(true)), s1, Act(n, ReadRemovals), s2);
    pass := before + [Act(n, Begin(true))] + [Act(n, ReadRemovals)];
    ReachMore(s0, pass, s2, Act(n, Remove(x, true, true)));
    pass := pass + [Act(n, Remove(x, true, true))];
    NothingToPush(s3, k, n);
    t := DoFinish(DoReadDesired(s3, n), n);
    TwoHops(s0, pass, s3, Act(n, ReadDesired), DoReadDesired(s3, n), Act(n, Finish), t);
    pass := pass + [Act(n, ReadDesired)] + [Act(n, Finish)];
  }

  lemma RemovingHalf(s: State, k: Key, n: Id) returns (s2: State, s3: State)
    requires s.rows == map[k := Pending] && n in s.nodes && OnNode(s, k, n) && !Wanted(s, k)
    requires s.nodes[n].phase.Idle? && s.nodes[n].token
    ensures var s1, x := DoBegin(s, n, true), TargetOf(s, k);
      Hop(s, Act(n, Begin(true)), s1) && Hop(s1, Act(n, ReadRemovals), s2) && Hop(s2, Act(n, Remove(x, true, true)), s3)
    ensures n in s3.nodes && s3.(nodes := s.nodes) == s
    ensures var nd := s3.nodes[n]; nd.phase == Phase.Removing({}) && !nd.token && !nd.dirty && !nd.missed
  {
    var s1, x := DoBegin(s, n, true), TargetOf(s, k);
    UnwantedReads(s1, k, n);
    s2 := DoReadRemovals(s1, n);
    assert {x} - {x} == {};
    s3 := DoRemove(s2, n, x, true, true);
  }

  lemma NothingToPush(s: State, k: Key, n: Id)
    requires s.rows.Keys == {k} && n in s.nodes && OnNode(s, k, n) && !Wanted(s, k)
    requires s.nodes[n].phase == Phase.Removing({})
    ensures var s1 := DoReadDesired(s, n);
      var s2 := DoFinish(s1, n);
      && Hop(s, Act(n, ReadDesired), s1) && Hop(s1, Act(n, Finish), s2) && s2.(nodes := s.nodes) == s
      && var nd, nd' := s.nodes[n], s2.nodes[n];
      nd'.phase.Idle? && nd'.token == nd.token && nd'.dirty == nd.dirty && nd'.missed == nd.missed
  {
    UnwantedReads(s, k, n);
  }

  lemma ReadThenWithdraw(s0: State, u: Id, status: UserStatus) returns (actions: seq<Action>, s: State)
    requires u in s0.users && s0.ops == multiset{}
    ensures Reach(s0, actions) == Some(s)
    ensures var c := s0.clock + 1;
      s == s0.(users := Withdrawn(s0, u, status), clock := c, ops := multiset{Rewrite(u, s0.users[u]), Lookup(u, c)})
  {
    var stale, us := Rewrite(u, s0.users[u]), Withdrawn(s0, u, status);
    var s1 := s0.(ops := multiset{stale});
    Withdraw(s1, u, status, stale);
    s := s1.(users := us, clock := s0.clock + 1, ops := multiset{stale, Lookup(u, s0.clock + 1)});
    TwoHops(s0, [], s0, Serve(ReadRecord(u)), s1, Serve(WriteUsers(us, {u})), s);
    actions := [] + [Serve(ReadRecord(u))] + [Serve(WriteUsers(us, {u}))];
  }

  /**
   A token rotation reads the user; then an administrator or a sweep takes the user out of service and tells the
   node.
   */
  lemma WithdrawnAndTold(s0: State, u: Id, i: Id, n: Id, status: UserStatus) returns (actions: seq<Action>, s: State)
    requires OneRow(s0, u, i, n) && status != Active
    ensures Reach(s0, actions) == Some(s) && n in s.nodes && s.rows == s0.rows && s.inbounds == s0.inbounds
    ensures s.users == Withdrawn(s0, u, status) && s.ops == multiset{Rewrite(u, s0.users[u]), Fire({}, s0.clock + 1)}
    ensures s.nodes[n].phase.Idle? && s.nodes[n].token
  {
    var c, stale := s0.clock + 1, Rewrite(u, s0.users[u]);
    var opening, s1 := ReadThenWithdraw(s0, u, status);
    FindOne(s1, u, i, n, stale, c);
    var s2 := s1.(ops := multiset{stale, Fire({n}, c)});
    TriggerOne(s2, stale, c, n);
    s := DoTrigger(s2, Fire({n}, c), n);
    TwoHops(s0, opening, s1, Serve(FindTargets(Lookup(u, c))), s2, Serve(Trigger(Fire({n}, c), n)), s);
    actions := opening + [Serve(FindTargets(Lookup(u, c)))] + [Serve(Trigger(Fire({n}, c), n))];
  }

  lemma StaleRewriteStrands(s: State, u: Id, i: Id, n: Id, seen: User, c: nat)
    requires Inv(s) && n in s.nodes && s.rows == map[Key(u, i) := Pending] && OnNode(s, Key(u, i), n)
    requires s.users[u].status != Active && seen.status == Active && s.ops == multiset{Rewrite(u, seen), Fire({}, c)}
    requires var nd := s.nodes[n]; nd.phase.Idle? && !nd.token && !nd.dirty && !nd.missed
    ensures Allowed(s, CommitRewrite(Rewrite(u, seen)))
    ensures var s' := DoRewrite(s, Rewrite(u, seen)); !Announced(s', n) && !InStep(s', n)
  {
    forall op | op in s.ops ensures !Reaches(s, op, n) {}
    assert Key(u, i) in s.rows;
    RewriteMissesExactly(s, Rewrite(u, seen), n);
  }

  /**
   Rotating a subscription token brings a user back that was taken out of service meanwhile, and wakes nobody: nothing
   fails, and node `n` is idle and unannounced without the entry the database now asks for.
   */
  lemma RotationStrandsNode(s0: State, u: Id, i: Id, n: Id, status: UserStatus) returns (actions: seq<Action>, s: State)
    requires OneRow(s0, u, i, n) && status != Active
    ensures Reach(s0, actions) == Some(s) && n in s.nodes && !Announced(s, n) && !InStep(s, n)
  {
    var told, s1 := WithdrawnAndTold(s0, u, i, n, status);
    var pass, s2 := RemovingPass(s0, told, s1, Key(u, i), n);
    InitInv(s0);
    RunInv(s0, pass, s2);
    var op := Rewrite(u, s0.users[u]);
    StaleRewriteStrands(s2, u, i, n, s0.users[u], s0.clock + 1);
    ReachMore(s0, pass, s2, Serve(CommitRewrite(op)));
    actions, s := pass + [Serve(CommitRewrite(op))], DoRewrite(s2, op);
  }
}
