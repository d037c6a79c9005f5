/** Retiring an assignment: the tombstone, the row's end, and when a push in flight takes the retirement back. */
module Retirement {
  import opened Domain
  import opened Protocol
  import opened ProtocolInvariant
  import HistoryInert

  /** A row leaves the table only as a tombstone, or together with its deleted user. */
  lemma OnlyTombstonesVanish(s: State, a: Action, k: Key)
    requires Inv(s) && Enabled(s, a) && k in s.rows && k !in Apply(s, a).rows
    ensures s.rows[k] == SyncStatus.Removing || k.user !in Apply(s, a).users
  {
    match a
    case Act(n, step) => ActedKeepsLive(s, n, step, k);
    case Serve(r) => ServedKeepsLive(s, r, k);
    case _ =>
  }

  lemma ActedKeepsLive(s: State, n: Id, step: Step, k: Key)
    requires n in s.nodes && Ready(s.nodes[n], step) && PhaseOk(s, n) && k in s.rows
    ensures k in Acted(s, n, step).rows || s.rows[k] == SyncStatus.Removing
  {
  }

  lemma ServedKeepsLive(s: State, r: Request, k: Key)
    requires Allowed(s, r) && k in s.rows
    ensures k in Served(s, r).rows || k.user !in Served(s, r).users
  {
  }

  /** A tombstone is taken back by nothing but the mark that ends the push of the very same row. */
  lemma TombstoneUndoneOnlyByMark(s: State, a: Action, k: Key)
    requires Inv(s) && Enabled(s, a) && k in s.rows && s.rows[k] == SyncStatus.Removing && k in Apply(s, a).rows
    ensures Apply(s, a).rows[k] != SyncStatus.Removing <==>
      a.Act? && a.step == Mark(true) && s.nodes[a.node].phase.cur.key == k
  {
    match a
    case Act(n, step) => ActedTombstone(s, n, step, k);
    case Serve(r) => ServedTombstone(s, r, k);
    case _ =>
  }

  lemma ActedTombstone(s: State, n: Id, step: Step, k: Key)
    requires n in s.nodes && Ready(s.nodes[n], step) && PhaseOk(s, n)
    requires k in s.rows && s.rows[k] == SyncStatus.Removing && k in Acted(s, n, step).rows
    ensures Acted(s, n, step).rows[k] != SyncStatus.Removing <==> step == Mark(true) && s.nodes[n].phase.cur.key == k
  {
  }

  lemma ServedTombstone(s: State, r: Request, k: Key)
    requires Referential(s) && Allowed(s, r) && k in s.rows && s.rows[k] == SyncStatus.Removing
    requires k in Served(s, r).rows
    ensures Served(s, r).rows[k] == SyncStatus.Removing
  {
  }

  // ---------------------------------------------------------------- does the retirement last?

  predicate Retired(s: State, k: Key) { k in s.rows && s.rows[k] == SyncStatus.Removing }

  /** The pass will still write to row `k`: it has yet to push it, or has pushed it and not yet marked it. */
  predicate StillWrites(p: Phase, k: Key) {
    || (p.Adding? && Listed(p.todo, k))
    || (p.Marking? && (p.cur.key == k || (p.sync == Applied && Listed(p.todo, k))))
  }

  /** No pass in flight holds a push of row `k`. */
  ghost predicate NotPushed(s: State, k: Key) {
    forall n :: n in s.nodes ==> !StillWrites(s.nodes[n].phase, k)
  }

  lemma ActedNotPushed(s: State, n: Id, step: Step, k: Key)
    requires n in s.nodes && Ready(s.nodes[n], step) && PhaseOk(s, n) && Retired(s, k)
    requires !StillWrites(s.nodes[n].phase, k)
    ensures !StillWrites(Acted(s, n, step).nodes[n].phase, k)
    ensures k in Acted(s, n, step).rows ==> Retired(Acted(s, n, step), k)
  {
    if step.ReadDesired? {
      forall t | t in DesiredTargets(s, n) ensures t.key != k {}
    }
  }

  lemma ServedRetired(s: State, r: Request, k: Key)
    requires Referential(s) && Allowed(s, r) && Retired(s, k) && NotPushed(s, k)
    ensures NotPushed(Served(s, r), k) && (k in Served(s, r).rows ==> Retired(Served(s, r), k))
  {
    if k in Served(s, r).rows { ServedTombstone(s, r, k); }
    forall n | n in s.nodes ensures Served(s, r).nodes[n].phase == s.nodes[n].phase {
      HistoryInert.ServedNode(s, r, n);
    }
  }

  lemma ActedRetired(s: State, n: Id, step: Step, k: Key)
    requires n in s.nodes && Ready(s.nodes[n], step) && PhaseOk(s, n) && Retired(s, k) && NotPushed(s, k)
    ensures NotPushed(Acted(s, n, step), k) && (k in Acted(s, n, step).rows ==> Retired(Acted(s, n, step), k))
  {
    ActedNotPushed(s, n, step, k);
    forall m | m in s.nodes && m != n ensures Acted(s, n, step).nodes[m] == s.nodes[m] {
      HistoryInert.OthersStay(s, n, step, m);
    }
  }

  /** A retired row that no pass holds stays so through any action, unless the action removes it. */
  lemma StepKeepsRetired(s: State, a: Action, k: Key)
    requires Inv(s) && Enabled(s, a) && Retired(s, k) && NotPushed(s, k)
    ensures NotPushed(Apply(s, a), k) && (k in Apply(s, a).rows ==> Retired(Apply(s, a), k))
  {
    match a
    case Serve(r) => ServedRetired(s, r, k);
    case Act(n, step) => ActedRetired(s, n, step, k);
    case RestartNode(_) =>
    case RestartService =>
  }

  /** Along the run the row is a tombstone until it is gone, if it goes at all. */
  ghost predicate Endures(s: State, actions: seq<Action>, k: Key)
    requires Reach(s, actions).Some?
  {
    Retired(Reach(s, actions).value, k) || Gone(s, actions, k)
  }

  /** Some state along the run has no row `k`. */
  ghost predicate Gone(s: State, actions: seq<Action>, k: Key)
    requires Reach(s, actions).Some?
    decreases |actions|
  {
    k !in Reach(s, actions).value.rows || (actions != [] && Gone(s, actions[..|actions| - 1], k))
  }

  /** Whatever happens next, the row stays a tombstone until it is gone. */
  ghost predicate Lasting(s: State, k: Key) {
    forall actions :: Reach(s, actions).Some? ==> Endures(s, actions, k)
  }

  lemma {:induction false} NotPushedEndures(s: State, actions: seq<Action>, k: Key)
    requires Inv(s) && Reach(s, actions).Some? && Retired(s, k) && NotPushed(s, k)
    ensures Gone(s, actions, k) || (Retired(Reach(s, actions).value, k) && NotPushed(Reach(s, actions).value, k))
    decreases |actions|
  {
    if actions == [] {
    } else {
      var last := |actions| - 1;
      NotPushedEndures(s, actions[..last], k);
      if !Gone(s, actions[..last], k) {
        RunInv(s, actions[..last], Reach(s, actions[..last]).value);
        StepKeepsRetired(Reach(s, actions[..last]).value, actions[last], k);
      }
    }
  }

  /** Back to live without ever having been gone. */
  ghost predicate Revived(s: State, actions: seq<Action>, k: Key) {
    Reach(s, actions).Some? && !Gone(s, actions, k) && !Retired(Reach(s, actions).value, k)
  }

  lemma NotGoneMore(s: State, actions: seq<Action>, t: State, a: Action, k: Key)
    requires Reach(s, actions) == Some(t) && Enabled(t, a) && !Gone(s, actions, k) && k in Apply(t, a).rows
    ensures Reach(s, actions + [a]) == Some(Apply(t, a)) && !Gone(s, actions + [a], k)
  {
    ReachMore(s, actions, t, a);
    assert (actions + [a])[..|actions|] == actions;
  }

  /** The mark of a row that is being pushed writes over the tombstone. */
  lemma MarkRevives(s: State, before: seq<Action>, t: State, n: Id, k: Key)
    requires Reach(s, before) == Some(t) && !Gone(s, before, k) && k in t.rows && n in t.nodes
    requires var p := t.nodes[n].phase; p.Marking? && p.cur.key == k && p.sync != SyncStatus.Removing
    ensures Revived(s, before + [Act(n, Mark(true))], k)
  {
    NotGoneMore(s, before, t, Act(n, Mark(true)), k);
  }

  /** So does a push of the row that fails, through the mark of the failure. */
  lemma PushRevives(s: State, before: seq<Action>, t: State, n: Id, x: Target) returns (actions: seq<Action>)
    requires Reach(s, before) == Some(t) && !Gone(s, before, x.key) && x.key in t.rows && n in t.nodes
    requires t.nodes[n].phase.Adding? && x in t.nodes[n].phase.todo
    ensures Revived(s, actions, x.key)
  {
    var a := Act(n, Add(x, false, false));
    NotGoneMore(s, before, t, a, x.key);
    MarkRevives(s, before + [a], Apply(t, a), n, x.key);
    actions := before + [a] + [Act(n, Mark(true))];
  }

  lemma HeldPushRevives(s: State, k: Key, n: Id) returns (actions: seq<Action>)
    requires Inv(s) && Retired(s, k) && n in s.nodes && StillWrites(s.nodes[n].phase, k)
    ensures Revived(s, actions, k)
  {
    var p := s.nodes[n].phase;
    assert PhaseOk(s, n) && Reach(s, []) == Some(s);
    if p.Adding? {
      var x :| x in p.todo && x.key == k;
      actions := PushRevives(s, [], s, n, x);
    } else if p.cur.key == k {
      MarkRevives(s, [], s, n, k);
      actions := [] + [Act(n, Mark(true))];
    } else {
      var x :| x in p.todo && x.key == k;
      var a := Act(n, Mark(true));
      NotGoneMore(s, [], s, a, k);
      actions := PushRevives(s, [] + [a], Apply(s, a), n, x);
    }
  }

  /**
   A retirement lasts, whatever happens next, if and only if no pass holds a push of the row: otherwise finishing that
   push, even unsuccessfully, puts the assignment back without any request.
   */
  lemma RetirementLastsExactly(s: State, k: Key)
    requires Inv(s) && Retired(s, k)
    ensures Lasting(s, k) <==> NotPushed(s, k)
  {
    if NotPushed(s, k) {
      forall actions | Reach(s, actions).Some? ensures Endures(s, actions, k) {
        NotPushedEndures(s, actions, k);
      }
    } else {
      var n :| n in s.nodes && StillWrites(s.nodes[n].phase, k);
      var actions := HeldPushRevives(s, k, n);
      assert !Endures(s, actions, k);
    }
  }

  /**
   At the commit of a replacement or of a deletion's tombstones: the retired rows that last are those not being
   pushed.
   */
  lemma CommitRetiresExactly(s: State, r: Request, k: Key)
    requires Inv(s) && Allowed(s, r) && k in s.rows && (r.CommitTombstone? || r.CommitReplace?)
    requires k.user == r.op.user && (r.CommitReplace? ==> k.inbound !in r.op.inbounds)
    ensures Retired(Served(s, r), k) && (Lasting(Served(s, r), k) <==> NotPushed(s, k))
  {
    var s' := Served(s, r);
    ServeInv(s, r);
    forall n | n in s.nodes ensures s'.nodes[n].phase == s.nodes[n].phase { HistoryInert.ServedNode(s, r, n); }
    RetirementLastsExactly(s', k);
  }
}
