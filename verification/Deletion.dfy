/** Deleting a user: which entries a live node keeps for good, by what the node's pass was doing at that moment. */
module Deletion {
  import opened Domain
  import opened Protocol
  import opened ProtocolInvariant
  import HistoryInert

  predicate ListedEntry(todo: set<Target>, e: Entry) { exists t :: t in todo && t.entry == e }

  /** The pass is yet to remove `e`. */
  predicate Removes(p: Phase, e: Entry) { (p.Removing? || p.Deleting?) && ListedEntry(p.todo, e) }

  /** The pass is yet to push `e`. */
  predicate Pushes(p: Phase, e: Entry) {
    (p.Adding? || (p.Marking? && p.sync == Applied)) && ListedEntry(p.todo, e)
  }

  ghost predicate Unused(s: State, email: string) { forall u :: u in s.users ==> s.users[u].email != email }

  /** Entry `e` is on node `n`, no user carries its email, and the actor holds no removal for it. */
  ghost predicate Leaked(s: State, n: Id, e: Entry) {
    n in s.nodes && e in s.nodes[n].entries && Unused(s, e.email) && !Removes(s.nodes[n].phase, e)
  }

  /** Held and not about to be removed, or about to be pushed. */
  predicate Destined(nd: Node, e: Entry) {
    (e in nd.entries && !Removes(nd.phase, e)) || Pushes(nd.phase, e)
  }

  /** Neither a restart of the node nor a new user under the same email. */
  predicate Spares(a: Action, n: Id, e: Entry) {
    a != RestartNode(n) && (a.Serve? && a.request.Create? ==> a.request.record.email != e.email)
  }

  /** Moreover the service keeps running and the node's calls succeed. */
  predicate Smooth(a: Action, n: Id, e: Entry) {
    && Spares(a, n, e) && a != RestartService
    && (a.Act? && a.node == n ==> (a.step.Remove? || a.step.Add? ==> a.step.ok))
  }

  // ---------------------------------------------------------------- one action

  lemma EmailStaysUnused(s: State, r: Request, email: string)
    requires Allowed(s, r) && Unused(s, email) && (r.Create? ==> r.record.email != email)
    ensures Unused(Served(s, r), email)
  {
  }

  lemma NothingToRead(s: State, n: Id, e: Entry)
    requires Unused(s, e.email)
    ensures !ListedEntry(RemovalTargets(s, n), e) && !ListedEntry(DesiredTargets(s, n), e)
  {
  }

  lemma RestListed(todo: set<Target>, t: Target, e: Entry)
    requires t in todo
    ensures ListedEntry(todo, e) <==> t.entry == e || ListedEntry(todo - {t}, e)
  {
    if x :| x in todo && x.entry == e && x != t { assert x in todo - {t}; }
  }

  /** Destiny is kept; an entry neither held nor to be pushed stays away; a leaked one stays. */
  ghost predicate Follows(nd: Node, nd': Node, e: Entry, ok: bool) {
    && (e !in nd.entries && !Pushes(nd.phase, e) ==> e !in nd'.entries && !Pushes(nd'.phase, e))
    && (ok ==> (Destined(nd', e) <==> Destined(nd, e)))
    && (e in nd.entries && !Removes(nd.phase, e) ==> e in nd'.entries && !Removes(nd'.phase, e))
  }

  lemma RemovedEntry(s: State, n: Id, t: Target, ok: bool, hit: bool, e: Entry)
    requires n in s.nodes && s.nodes[n].phase.Removing? && t in s.nodes[n].phase.todo
    ensures Follows(s.nodes[n], DoRemove(s, n, t, ok, hit).nodes[n], e, ok)
  {
    HistoryInert.RemoveSeen(s, n, t, ok, hit);
    RestListed(s.nodes[n].phase.todo, t, e);
  }

  lemma AddedEntry(s: State, n: Id, t: Target, ok: bool, hit: bool, e: Entry)
    requires n in s.nodes && s.nodes[n].phase.Adding? && t in s.nodes[n].phase.todo
    ensures Follows(s.nodes[n], DoAdd(s, n, t, ok, hit).nodes[n], e, ok)
  {
    HistoryInert.AddSeen(s, n, t, ok, hit);
    RestListed(s.nodes[n].phase.todo, t, e);
  }

  lemma OtherEntry(s: State, n: Id, step: Step, e: Entry)
    requires n in s.nodes && Ready(s.nodes[n], step) && Unused(s, e.email) && !step.Remove? && !step.Add?
    ensures Follows(s.nodes[n], Acted(s, n, step).nodes[n], e, true)
  {
    NothingToRead(s, n, e);
  }

  lemma ActedEntry(s: State, n: Id, step: Step, e: Entry)
    requires n in s.nodes && Ready(s.nodes[n], step) && Unused(s, e.email)
    ensures Follows(s.nodes[n], Acted(s, n, step).nodes[n], e, step.Remove? || step.Add? ==> step.ok)
  {
    match step
    case Remove(t, ok, hit) => RemovedEntry(s, n, t, ok, hit, e);
    case Add(t, ok, hit) => AddedEntry(s, n, t, ok, hit, e);
    case _ => OtherEntry(s, n, step, e);
  }

  lemma LeakActed(s: State, m: Id, step: Step, n: Id, e: Entry)
    requires Leaked(s, n, e) && m in s.nodes && Ready(s.nodes[m], step)
    ensures Leaked(Acted(s, m, step), n, e)
  {
    if m == n { ActedEntry(s, n, step, e); } else { HistoryInert.OthersStay(s, m, step, n); }
  }

  lemma LeakServed(s: State, r: Request, n: Id, e: Entry)
    requires Leaked(s, n, e) && Allowed(s, r) && Spares(Serve(r), n, e)
    ensures Leaked(Served(s, r), n, e)
  {
    HistoryInert.ServedNode(s, r, n);
    EmailStaysUnused(s, r, e.email);
  }

  lemma LeakStays(s: State, a: Action, n: Id, e: Entry)
    requires Leaked(s, n, e) && Enabled(s, a) && Spares(a, n, e)
    ensures Leaked(Apply(s, a), n, e)
  {
    match a
    case Serve(r) => LeakServed(s, r, n, e);
    case Act(m, step) => LeakActed(s, m, step, n, e);
    case RestartNode(_) =>
    case RestartService =>
  }

  /** What one action does to an entry whose email is unused. */
  lemma StepEntry(s: State, a: Action, n: Id, e: Entry)
    requires n in s.nodes && Unused(s, e.email) && Enabled(s, a) && Spares(a, n, e)
    ensures Unused(Apply(s, a), e.email)
    ensures var nd, nd' := s.nodes[n], Apply(s, a).nodes[n];
      && (e !in nd.entries && !Pushes(nd.phase, e) ==> e !in nd'.entries && !Pushes(nd'.phase, e))
      && (Smooth(a, n, e) ==> (Destined(nd', e) <==> Destined(nd, e)))
  {
    match a
    case Serve(r) =>
      HistoryInert.ServedNode(s, r, n);
      EmailStaysUnused(s, r, e.email);
    case Act(m, step) =>
      if m == n { ActedEntry(s, n, step, e); } else { HistoryInert.OthersStay(s, m, step, n); }
    case RestartNode(_) =>
    case RestartService =>
  }

  // ---------------------------------------------------------------- every run

  /**
   An entry still present when its user's rows are gone survives every run of requests, triggers and passes until the
   node restarts or the email is used again.
   */
  lemma {:induction false} LeakPersists(s0: State, actions: seq<Action>, s: State, n: Id, e: Entry)
    requires Leaked(s0, n, e) && Reach(s0, actions) == Some(s)
    requires forall a :: a in actions ==> Spares(a, n, e)
    ensures Leaked(s, n, e)
    decreases |actions|
  {
    if actions == [] {
    } else {
      var last := |actions| - 1;
      var t := Reach(s0, actions[..last]).value;
      LeakPersists(s0, actions[..last], t, n, e);
      LeakStays(t, actions[last], n, e);
    }
  }

  /** On smooth runs what becomes of the entry is settled at the start. */
  lemma {:induction false} DestinyKept(s0: State, actions: seq<Action>, s: State, n: Id, e: Entry)
    requires n in s0.nodes && Unused(s0, e.email) && Reach(s0, actions) == Some(s)
    requires forall a :: a in actions ==> Smooth(a, n, e)
    ensures n in s.nodes && Unused(s, e.email) && (Destined(s.nodes[n], e) <==> Destined(s0.nodes[n], e))
    decreases |actions|
  {
    if actions == [] {
    } else {
      var last := |actions| - 1;
      var t := Reach(s0, actions[..last]).value;
      DestinyKept(s0, actions[..last], t, n, e);
      assert actions[last] in actions;
      StepEntry(t, actions[last], n, e);
    }
  }

  /** With failures too: an entry neither held nor to be pushed never appears. */
  lemma {:induction false} NeverAppears(s0: State, actions: seq<Action>, s: State, n: Id, e: Entry)
    requires n in s0.nodes && Unused(s0, e.email) && Reach(s0, actions) == Some(s)
    requires e !in s0.nodes[n].entries && !Pushes(s0.nodes[n].phase, e)
    requires forall a :: a in actions ==> Spares(a, n, e)
    ensures n in s.nodes && Unused(s, e.email) && e !in s.nodes[n].entries && !Pushes(s.nodes[n].phase, e)
    decreases |actions|
  {
    if actions == [] {
    } else {
      var last := |actions| - 1;
      var t := Reach(s0, actions[..last]).value;
      NeverAppears(s0, actions[..last], t, n, e);
      assert actions[last] in actions;
      StepEntry(t, actions[last], n, e);
    }
  }

  // ---------------------------------------------------------------- the deletion

  lemma DropFrees(s: State, op: Op, n: Id, e: Entry)
    requires Inv(s) && Allowed(s, CommitDrop(op)) && n in s.nodes && s.users[op.user].email == e.email
    ensures Unused(DoDrop(s, op), e.email) && HistoryInert.Twins(DoDrop(s, op).nodes[n], s.nodes[n])
  {
    HistoryInert.WatchedNode(s, op, n);
  }

  /**
   Dropping the user row leaks an entry at once if and only if the node holds it and its pass is not about to remove it;
   and after every smooth run that finds the node idle, the entry is leaked if and only if at the drop it was held and
   not about to be removed, or about to be pushed.
   */
  lemma DropLeaksExactly(s: State, op: Op, actions: seq<Action>, t: State, n: Id, e: Entry)
    requires Inv(s) && Allowed(s, CommitDrop(op)) && n in s.nodes && s.users[op.user].email == e.email
    requires Reach(DoDrop(s, op), actions) == Some(t) && forall a :: a in actions ==> Smooth(a, n, e)
    ensures Leaked(DoDrop(s, op), n, e) <==> e in s.nodes[n].entries && !Removes(s.nodes[n].phase, e)
    ensures n in t.nodes && (t.nodes[n].phase.Idle? ==> (Leaked(t, n, e) <==> Destined(s.nodes[n], e)))
  {
    DropFrees(s, op, n, e);
    DestinyKept(DoDrop(s, op), actions, t, n, e);
  }

  /** And what is leaked then stays leaked through every further run that spares it. */
  lemma DropLeaksForGood(s: State, op: Op, smooth: seq<Action>, t: State, later: seq<Action>, v: State, n: Id, e: Entry)
    requires Inv(s) && Allowed(s, CommitDrop(op)) && n in s.nodes && s.users[op.user].email == e.email
    requires Destined(s.nodes[n], e) && n in t.nodes && t.nodes[n].phase.Idle?
    requires Reach(DoDrop(s, op), smooth) == Some(t) && (forall a :: a in smooth ==> Smooth(a, n, e))
    requires Reach(t, later) == Some(v) && (forall a :: a in later ==> Spares(a, n, e))
    ensures Leaked(v, n, e)
  {
    DropLeaksExactly(s, op, smooth, t, n, e);
    LeakPersists(t, later, v, n, e);
  }

  /** Some run without a node restart or reuse of the email ends with the entry leaked. */
  ghost predicate MayLeak(s: State, n: Id, e: Entry) {
    exists actions :: LeaksAlong(s, actions, n, e)
  }

  ghost predicate LeaksAlong(s: State, actions: seq<Action>, n: Id, e: Entry) {
    Reach(s, actions).Some? && Leaked(Reach(s, actions).value, n, e) && forall a :: a in actions ==> Spares(a, n, e)
  }

  lemma LeaksInOne(s: State, a: Action, s1: State, n: Id, e: Entry)
    requires Hop(s, a, s1) && Spares(a, n, e) && Leaked(s1, n, e)
    ensures LeaksAlong(s, [] + [a], n, e)
  {
    ReachMore(s, [], s, a);
  }

  lemma LeaksInTwo(s: State, a: Action, s1: State, b: Action, s2: State, n: Id, e: Entry)
    requires Hop(s, a, s1) && Hop(s1, b, s2) && Spares(a, n, e) && Spares(b, n, e) && Leaked(s2, n, e)
    ensures LeaksAlong(s, [] + [a] + [b], n, e)
  {
    TwoHops(s, [], s, a, s1, b, s2);
  }

  /** A failed removal keeps the entry and forgets the list. */
  lemma FailedRemovalLeaks(s: State, n: Id, t: Target)
    requires n in s.nodes && t.entry in s.nodes[n].entries && Unused(s, t.entry.email)
    requires s.nodes[n].phase.Removing? && t in s.nodes[n].phase.todo
    ensures var s1 := DoRemove(s, n, t, false, false);
      Hop(s, Act(n, Remove(t, false, false)), s1) && Leaked(s1, n, t.entry)
  {
  }

  lemma PushLeaks(s: State, n: Id, t: Target)
    requires n in s.nodes && Unused(s, t.entry.email) && s.nodes[n].phase.Adding? && t in s.nodes[n].phase.todo
    ensures var s1 := DoAdd(s, n, t, true, true); Hop(s, Act(n, Add(t, true, true)), s1) && Leaked(s1, n, t.entry)
  {
  }

  lemma RemovedMayLeak(s: State, n: Id, e: Entry)
    requires n in s.nodes && Unused(s, e.email) && e in s.nodes[n].entries && Removes(s.nodes[n].phase, e)
    ensures MayLeak(s, n, e)
  {
    var p := s.nodes[n].phase;
    var t :| t in p.todo && t.entry == e;
    var a := Act(n, Remove(t, false, false));
    if p.Removing? {
      FailedRemovalLeaks(s, n, t);
      LeaksInOne(s, a, DoRemove(s, n, t, false, false), n, e);
    } else {
      var s1 := DoDeleteRow(s, n, false);
      FailedRemovalLeaks(s1, n, t);
      LeaksInTwo(s, Act(n, DeleteRow(false)), s1, a, DoRemove(s1, n, t, false, false), n, e);
    }
  }

  lemma PushedMayLeak(s: State, n: Id, e: Entry)
    requires n in s.nodes && Unused(s, e.email) && Pushes(s.nodes[n].phase, e)
    ensures MayLeak(s, n, e)
  {
    var p := s.nodes[n].phase;
    var t :| t in p.todo && t.entry == e;
    var a := Act(n, Add(t, true, true));
    if p.Adding? {
      PushLeaks(s, n, t);
      LeaksInOne(s, a, DoAdd(s, n, t, true, true), n, e);
    } else {
      var s1 := DoMark(s, n, false);
      PushLeaks(s1, n, t);
      LeaksInTwo(s, Act(n, Mark(false)), s1, a, DoAdd(s1, n, t, true, true), n, e);
    }
  }

  lemma HeldOrPushedLeaks(s: State, n: Id, e: Entry)
    requires n in s.nodes && Unused(s, e.email) && (e in s.nodes[n].entries || Pushes(s.nodes[n].phase, e))
    ensures MayLeak(s, n, e)
  {
    if Pushes(s.nodes[n].phase, e) {
      PushedMayLeak(s, n, e);
    } else if Removes(s.nodes[n].phase, e) {
      RemovedMayLeak(s, n, e);
    } else {
      assert LeaksAlong(s, [], n, e);
    }
  }

  /** Counting failures: the entry may leak if and only if it was held or about to be pushed at the drop. */
  lemma DropMayLeakExactly(s: State, op: Op, n: Id, e: Entry)
    requires Inv(s) && Allowed(s, CommitDrop(op)) && n in s.nodes && s.users[op.user].email == e.email
    ensures MayLeak(DoDrop(s, op), n, e) <==> e in s.nodes[n].entries || Pushes(s.nodes[n].phase, e)
  {
    var s' := DoDrop(s, op);
    DropFrees(s, op, n, e);
    if e in s.nodes[n].entries || Pushes(s.nodes[n].phase, e) {
      HeldOrPushedLeaks(s', n, e);
    } else {
      forall actions ensures !LeaksAlong(s', actions, n, e) {
        if Reach(s', actions).Some? && forall a :: a in actions ==> Spares(a, n, e) {
          NeverAppears(s', actions, Reach(s', actions).value, n, e);
        }
      }
    }
  }
}
