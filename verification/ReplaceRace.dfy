/**
 Why `Converges` needs its `missed` disjunct even when every lookup succeeds: SetInbounds reads the user's old
 targets before its transaction, so a second request for the same user can slip in between.
 */
module ReplaceRace {
  import opened Domain
  import opened Protocol
  import opened ProtocolInvariant
  import opened Convergence

  /** A fresh service: user `u` is active and unassigned, inbound `i` lives on node `n`, inbound `j` elsewhere. */
  ghost predicate Setting(s0: State, u: Id, i: Id, j: Id, n: Id) {
    && Init(s0) && s0.rows == map[] && n in s0.nodes && !s0.nodes[n].missed
    && u in s0.users && s0.users[u].status == Active
    && i in s0.inbounds && j in s0.inbounds && s0.inbounds[i].node == n && s0.inbounds[j].node != n
  }

  function Stale(u: Id, j: Id): Op { Replace(u, {j}, {}) }

  function Late(u: Id, i: Id): Op { Replace(u, {i}, {}) }

  /** `s0` with node `n`'s record, the rows, the pending operations and the clock as given. */
  function At(s0: State, n: Id, nd: Node, rows: map<Key, SyncStatus>, ops: multiset<Op>, clock: nat): State {
    s0.(nodes := s0.nodes[n := nd], rows := rows, ops := ops, clock := clock)
  }

  lemma BothRead(s0: State, u: Id, i: Id, j: Id, n: Id)
    requires Setting(s0, u, i, j, n)
    ensures Hop(s0, Serve(ReadOldTargets(u, {j}, true)), s0.(ops := multiset{Stale(u, j)}))
    ensures Hop(s0.(ops := multiset{Stale(u, j)}), Serve(ReadOldTargets(u, {i}, true)),
                At(s0, n, s0.nodes[n], map[], multiset{Stale(u, j), Late(u, i)}, s0.clock))
  {
    assert NodesOf(s0, u) == {} && NodesOf(s0.(ops := multiset{Stale(u, j)}), u) == {};
    assert s0.nodes[n := s0.nodes[n]] == s0.nodes;
    assert {i} <= s0.inbounds.Keys && {j} <= s0.inbounds.Keys;
  }

  lemma LateCommits(s0: State, u: Id, i: Id, j: Id, n: Id)
    requires Setting(s0, u, i, j, n)
    ensures var nd, c := s0.nodes[n], s0.clock + 1;
      Hop(At(s0, n, nd, map[], multiset{Stale(u, j), Late(u, i)}, s0.clock), Serve(CommitReplace(Late(u, i))),
          At(s0, n, nd, map[Key(u, i) := Pending], multiset{Stale(u, j), Fire({n}, c)}, c))
  {
    var s := At(s0, n, s0.nodes[n], map[], multiset{Stale(u, j), Late(u, i)}, s0.clock);
    LateCommitsTo(s, u, i, j, n);
  }

  lemma LateTells(s: State, u: Id, i: Id, n: Id)
    requires s.rows == map[] && i in s.inbounds && s.inbounds[i].node == n
    ensures Told(s, Late(u, i)) == {n} && ReplacedRows(s, u, {i}) == map[Key(u, i) := Pending]
    ensures MissAll(s, u, {i}, {n}) == s.nodes
  {
    assert NodesOfInbounds(s, {i}) == {n};
    assert KeysFor(u, {i}) == {Key(u, i)};
  }

  lemma LateCommitsTo(s: State, u: Id, i: Id, j: Id, n: Id)
    requires s.rows == map[] && s.ops == multiset{Stale(u, j), Late(u, i)}
    requires u in s.users && i in s.inbounds && j in s.inbounds && s.inbounds[i].node == n && s.inbounds[j].node != n
    ensures Hop(s, Serve(CommitReplace(Late(u, i))),
      s.(rows := map[Key(u, i) := Pending], ops := multiset{Stale(u, j), Fire({n}, s.clock + 1)}, clock := s.clock + 1))
  {
    assert {i} <= s.inbounds.Keys;
    assert i in {i} && i !in {j};
    assert Late(u, i) != Stale(u, j);
    LateTells(s, u, i, n);
    assert Take(s, Late(u, i)) == multiset{Stale(u, j)};
  }

  lemma LateTriggers(s0: State, n: Id, nd: Node, stale: Op, rows: map<Key, SyncStatus>, c: nat)
    requires n in s0.nodes && stale.Replace?
    ensures Hop(At(s0, n, nd, rows, multiset{stale, Fire({n}, c)}, c), Serve(Trigger(Fire({n}, c), n)),
                At(s0, n, nd.(token := true, asked := Max(nd.asked, c)), rows, multiset{stale, Fire({}, c)}, c))
  {
    var s := At(s0, n, nd, rows, multiset{stale, Fire({n}, c)}, c);
    assert {n} - {n} == {};
    assert Take(s, Fire({n}, c)) == multiset{stale};
  }

  /** While `k` is the only row, and wanted, a pass of node `n` removes nothing and pushes just that row. */
  lemma OneRowReads(s: State, k: Key, n: Id)
    requires s.rows.Keys == {k} && OnNode(s, k, n) && Wanted(s, k)
    ensures RemovalTargets(s, n) == {} && DesiredTargets(s, n) == {TargetOf(s, k)}
  {
  }

  lemma OneRowPush(s: State, k: Key, n: Id, byToken: bool)
    requires s.rows == map[k := Pending] && n in s.nodes && OnNode(s, k, n) && Wanted(s, k)
    requires s.nodes[n].phase.Idle? && (byToken ==> s.nodes[n].token)
    ensures var s1 := DoBegin(s, n, byToken);
      var s2 := DoReadRemovals(s1, n);
      var s3 := DoReadDesired(s2, n);
      && Hop(s, Act(n, Begin(byToken)), s1) && Hop(s1, Act(n, ReadRemovals), s2) && Hop(s2, Act(n, ReadDesired), s3)
      && s3.(nodes := s.nodes) == s
      && var nd := s3.nodes[n];
      nd.phase == Adding({TargetOf(s, k)}) && (byToken ==> !nd.token) && !nd.dirty && !nd.missed &&
        nd.entries == s.nodes[n].entries
  {
    var s1 := DoBegin(s, n, byToken);
    OneRowReads(s1, k, n);
    OneRowReads(DoReadRemovals(s1, n), k, n);
  }

  lemma OneRowMark(s: State, t: Target, n: Id)
    requires n in s.nodes && s.nodes[n].phase == Adding({t}) && t.sync == Pending && t.key in s.rows
    ensures var s1 := DoAdd(s, n, t, true, true);
      && Hop(s, Act(n, Add(t, true, true)), s1) && s1.nodes[n].phase.Marking?
      && var s2 := DoMark(s1, n, true);
      var s3 := DoFinish(s2, n);
      && Hop(s1, Act(n, Mark(true)), s2) && Hop(s2, Act(n, Finish), s3)
      && s3.(nodes := s.nodes, rows := s.rows) == s && s3.rows == s.rows[t.key := Applied]
      && var nd, nd' := s.nodes[n], s3.nodes[n];
      nd'.phase.Idle? && nd'.token == nd.token && nd'.dirty == nd.dirty && nd'.missed == nd.missed
  {
    assert {t} - {t} == {};
  }

  lemma ReadingHalf(s0: State, before: seq<Action>, s: State, k: Key, n: Id, byToken: bool)
    returns (pass: seq<Action>, s': State)
    requires Reach(s0, before) == Some(s)
    requires s.rows == map[k := Pending] && n in s.nodes && OnNode(s, k, n) && Wanted(s, k)
    requires s.nodes[n].phase.Idle? && (byToken ==> s.nodes[n].token)
    ensures Reach(s0, pass) == Some(s') && n in s'.nodes && s'.(nodes := s.nodes) == s
    ensures var nd := s'.nodes[n];
      nd.phase == Adding({TargetOf(s, k)}) && (byToken ==> !nd.token) && !nd.dirty && !nd.missed &&
        nd.entries == s.nodes[n].entries
  {
    OneRowPush(s, k, n, byToken);
    var s1 := DoBegin(s, n, byToken);
    var s2 := DoReadRemovals(s1, n);
    s' := DoReadDesired(s2, n);
    TwoHops(s0, before, s, Act(n, Begin(byToken)), s1, Act(n, ReadRemovals), s2);
    pass := before + [Act(n, Begin(byToken))] + [Act(n, ReadRemovals)];
    ReachMore(s0, pass, s2, Act(n, ReadDesired));
    pass := pass + [Act(n, ReadDesired)];
  }

  lemma PushingHalf(s0: State, before: seq<Action>, s: State, t: Target, n: Id) returns (pass: seq<Action>, s': State)
    requires Reach(s0, before) == Some(s)
    requires t.key in s.rows && t.sync == Pending && n in s.nodes && s.nodes[n].phase == Adding({t})
    ensures Reach(s0, pass) == Some(s') && n in s'.nodes
    ensures s'.(nodes := s.nodes, rows := s.rows) == s && s'.rows == s.rows[t.key := Applied]
    ensures var nd, nd' := s.nodes[n], s'.nodes[n];
      nd'.phase.Idle? && nd'.token == nd.token && nd'.dirty == nd.dirty && nd'.missed == nd.missed
  {
    OneRowMark(s, t, n);
    var s1 := DoAdd(s, n, t, true, true);
    var s2 := DoMark(s1, n, true);
    s' := DoFinish(s2, n);
    TwoHops(s0, before, s, Act(n, Add(t, true, true)), s1, Act(n, Mark(true)), s2);
    pass := before + [Act(n, Add(t, true, true))] + [Act(n, Mark(true))];
    ReachMore(s0, pass, s2, Act(n, Finish));
    pass := pass + [Act(n, Finish)];
  }

  /** A pass that meets no failure, from the token to the end. */
  lemma OneRowPass(s0: State, before: seq<Action>, s: State, k: Key, n: Id) returns (pass: seq<Action>, s': State)
    requires Reach(s0, before) == Some(s)
    requires s.rows == map[k := Pending] && n in s.nodes && OnNode(s, k, n) && Wanted(s, k)
    requires s.nodes[n].phase.Idle? && s.nodes[n].token
    ensures Reach(s0, pass) == Some(s') && n in s'.nodes
    ensures s'.(nodes := s.nodes, rows := s.rows) == s && s'.rows == map[k := Applied]
    ensures var nd := s'.nodes[n]; nd.phase.Idle? && !nd.token && !nd.dirty && !nd.missed
  {
    var half, s1 := ReadingHalf(s0, before, s, k, n, true);
    pass, s' := PushingHalf(s0, half, s1, TargetOf(s, k), n);
  }

  lemma RaceToToken(s0: State, u: Id, i: Id, j: Id, n: Id) returns (actions: seq<Action>, s: State)
    requires Setting(s0, u, i, j, n)
    ensures Reach(s0, actions) == Some(s)
    ensures var nd, c := s0.nodes[n], s0.clock + 1;
      s == At(s0, n, nd.(token := true, asked := Max(nd.asked, c)), map[Key(u, i) := Pending],
        multiset{Stale(u, j), Fire({}, c)}, c)
  {
    var nd, c := s0.nodes[n], s0.clock + 1;
    BothRead(s0, u, i, j, n);
    LateCommits(s0, u, i, j, n);
    LateTriggers(s0, n, nd, Stale(u, j), map[Key(u, i) := Pending], c);
    var a1, a2 := Serve(ReadOldTargets(u, {j}, true)), Serve(ReadOldTargets(u, {i}, true));
    var a3, a4 := Serve(CommitReplace(Late(u, i))), Serve(Trigger(Fire({n}, c), n));
    var s1 := s0.(ops := multiset{Stale(u, j)});
    var s2 := At(s0, n, nd, map[], multiset{Stale(u, j), Late(u, i)}, s0.clock);
    var s3 := At(s0, n, nd, map[Key(u, i) := Pending], multiset{Stale(u, j), Fire({n}, c)}, c);
    s := At(s0, n, nd.(token := true, asked := Max(nd.asked, c)), map[Key(u, i) := Pending],
      multiset{Stale(u, j), Fire({}, c)}, c);
    TwoHops(s0, [], s0, a1, s1, a2, s2);
    TwoHops(s0, [] + [a1] + [a2], s2, a3, s3, a4, s);
    actions := [] + [a1] + [a2] + [a3] + [a4];
  }

  lemma StaleCommitStrands(s: State, u: Id, i: Id, j: Id, n: Id)
    requires Inv(s) && n in s.nodes && s.rows == map[Key(u, i) := Applied]
    requires u in s.users && s.users[u].status == Active && j in s.inbounds && s.inbounds[j].node != n
    requires OnNode(s, Key(u, i), n) && exists c: nat :: s.ops == multiset{Stale(u, j), Fire({}, c)}
    requires var nd := s.nodes[n]; nd.phase.Idle? && !nd.token && !nd.dirty && !nd.missed
    ensures Allowed(s, CommitReplace(Stale(u, j)))
    ensures var s' := DoReplace(s, Stale(u, j)); !Announced(s', n) && !InStep(s', n)
  {
    forall op | op in s.ops ensures !Reaches(s, op, n) {}
    assert {j} <= s.inbounds.Keys;
    assert NodesOfInbounds(s, {j}) == {s.inbounds[j].node};
    assert i != j && Wanted(s, Key(u, i));
    assert LosesUntold(s, u, {j}, Told(s, Stale(u, j)), n);
    ReplaceStrands(s, Stale(u, j), n);
  }

  /**
   From every fresh service two overlapping replacements of one user's assignments, with every lookup, RPC and
   write succeeding, reach a state where node `n` is idle and unannounced and still serves a retired assignment.
   */
  lemma OverlappingReplacesStrandNode(s0: State, u: Id, i: Id, j: Id, n: Id) returns (actions: seq<Action>, s: State)
    requires Setting(s0, u, i, j, n)
    ensures Reach(s0, actions) == Some(s) && n in s.nodes && !Announced(s, n) && !InStep(s, n)
  {
    var before, s1 := RaceToToken(s0, u, i, j, n);
    var pass, s2 := OneRowPass(s0, before, s1, Key(u, i), n);
    InitInv(s0);
    RunInv(s0, pass, s2);
    assert s2.ops == multiset{Stale(u, j), Fire({}, s0.clock + 1)};
    StaleCommitStrands(s2, u, i, j, n);
    var a := Serve(CommitReplace(Stale(u, j)));
    ReachMore(s0, pass, s2, a);
    actions, s := pass + [a], DoReplace(s2, Stale(u, j));
  }
}
