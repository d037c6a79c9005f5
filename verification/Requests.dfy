/** What each lifecycle request accepts, answers and leaves behind, and which request undoes which. */
module Requests {
  import opened Domain
  import opened Sweeps
  import opened Lifecycle

  /** Refused with this error and nothing changed. */
  predicate Refused(d: Done, us: Users, e: Error) { d == Done(us, Err(e)) }

  /** Granted: the record of `id` becomes `u`, which is also the answer, and nobody else changes. */
  predicate Granted(d: Done, us: Users, id: Id, u: User) { d == Done(us[id := u], Ok(u)) }

  // ---------------------------------------------------------------- suspending and resuming

  lemma SuspendMeans(us: Users, id: Id, f: Fault)
    ensures id in us && !f.WriteFails? ==> Granted(Suspend(us, id, f), us, id, us[id].(status := Disabled))
    ensures id !in us && !f.WriteFails? ==> Refused(Suspend(us, id, f), us, NotFound)
    ensures f.WriteFails? ==> Refused(Suspend(us, id, f), us, Failure)
  {
  }

  /** Resuming is granted exactly to an existing user within the limit and before the expiry, if nothing fails. */
  lemma ResumeMeans(us: Users, id: Id, now: int, f: Fault)
    ensures var d := Resume(us, id, now, f);
      var fits := id in us && !us[id].OverQuota() && !us[id].Due(now);
      && (d.result.Ok? <==> fits && !f.ReadFails? && !f.WriteFails?)
      && (d.result.Ok? ==> Granted(d, us, id, us[id].(status := Active)))
      && (f.ReadFails? || (f.WriteFails? && fits) ==> Refused(d, us, Failure))
      && (!f.ReadFails? && id !in us ==> Refused(d, us, NotFound))
      && (!f.ReadFails? && id in us && !fits ==> Refused(d, us, Invalid))
  {
  }

  /**
   Resuming undoes suspending: a user in service is back exactly as before if within the limit and before the expiry,
   and otherwise stays disabled.
   */
  lemma ResumeUndoesSuspend(us: Users, id: Id, now: int)
    requires id in us && us[id].status == Active
    ensures var us' := Resume(Suspend(us, id, NoFault).users, id, now, NoFault).users;
      && (us' == us <==> !Bars(us[id], now))
      && (Bars(us[id], now) ==> us' == us[id := us[id].(status := Disabled)])
  {
    var u := us[id];
    SuspendMeans(us, id, NoFault);
    ResumeMeans(us[id := u.(status := Disabled)], id, now, NoFault);
    assert u.(status := Disabled).(status := Active) == u;
    assert us[id := u.(status := Disabled)][id := u] == us;
    assert Bars(u, now) ==> us[id := u.(status := Disabled)][id].status != u.status;
  }

  // ---------------------------------------------------------------- what takes a user out, and what puts it back

  /** A reset puts back what the quota sweep took out, with empty counters, exactly unless the user has expired. */
  lemma ResetUndoesQuotaSweep(us: Users, id: Id, now: int)
    requires id in us && QuotaHit(us[id])
    ensures var swept := QuotaSwept(us);
      var d := ResetTraffic(swept, id, now, NoFault);
      && swept[id] == us[id].(status := UserStatus.Suspended)
      && (!us[id].Due(now) ==> Granted(d, swept, id, us[id].Emptied()))
      && (us[id].Due(now) ==> Granted(d, swept, id, us[id].Emptied().(status := UserStatus.Suspended)))
  {
    assert us[id].(status := UserStatus.Suspended).Emptied().(status := Active) == us[id].Emptied();
  }

  /** A renewal that buys days puts back what the expiry sweep took out, exactly unless the user is over quota. */
  lemma RenewalUndoesExpirySweep(us: Users, plans: Plans, id: Id, days: int, now: int)
    requires id in us && ExpiryHit(us[id], now) && days > 0
    ensures var swept := ExpirySwept(us, now);
      var d := Renew(swept, plans, id, RenewInput(days, false, None), now, NoFault);
      var u' := us[id].(expiresAt := Some(now + days * DAY));
      && swept[id] == us[id].(status := Expired)
      && (!us[id].OverQuota() ==> Granted(d, swept, id, u'))
      && (us[id].OverQuota() ==> Granted(d, swept, id, u'.(status := Expired)))
  {
    assert days * DAY > 0;
  }

  // ---------------------------------------------------------------- renewals and updates, column by column

  /** Granted exactly if the request asks for something, user and plan exist and no statement it needs fails. */
  lemma RenewAccepts(us: Users, plans: Plans, id: Id, r: RenewInput, now: int, f: Fault)
    ensures var d := Renew(us, plans, id, r, now, f);
      var asks := r.days > 0 || r.resetTraffic || r.planId.Some?;
      var found := id in us && (r.planId.Some? ==> r.planId.value in plans);
      && (d.result.Ok? <==> asks && found && !f.ReadFails? && !f.WriteFails? && !(f.ResetFails? && r.resetTraffic))
      && (!asks ==> Refused(d, us, Invalid))
      && (asks && !f.ReadFails? && !found ==> Refused(d, us, NotFound))
      && (d.result.Err? && asks && (f.ReadFails? || found) ==> d.result.error == Failure)
  {
  }

  /** Plan and limit switch together, counters are kept or emptied together, and the rest stays. */
  lemma RenewedColumns(us: Users, plans: Plans, id: Id, r: RenewInput, now: int, f: Fault)
    requires Renew(us, plans, id, r, now, f).result.Ok?
    ensures id in us && (r.planId.Some? ==> r.planId.value in plans)
    ensures var d, u := Renew(us, plans, id, r, now, f), us[id];
      var u' := d.result.value;
      && Granted(d, us, id, u')
      && u'.planId == (if r.planId.Some? then r.planId else u.planId)
      && u'.dataLimit == (if r.planId.Some? then plans[r.planId.value].dataLimit else u.dataLimit)
      && u'.usedUp == (if r.resetTraffic then 0 else u.usedUp)
      && u'.usedDown == (if r.resetTraffic then 0 else u.usedDown)
      && u'.expiresAt == Extended(u.expiresAt, now, r.days)
      && u'.email == u.email && u'.externalId == u.externalId && u'.note == u.note
      && (u'.status == u.status || u'.status == Active)
  {
  }

  lemma UpdateAccepts(us: Users, plans: Plans, id: Id, p: UpdateInput, now: int, f: Fault)
    ensures var d := Update(us, plans, id, p, now, f);
      var plan := if p.planId.Some? then p.planId else if id in us then us[id].planId else None;
      var known := plan.Some? ==> plan.value in plans;
      && (d.result.Ok? <==> id in us && known && !f.ReadFails? && !f.WriteFails?)
      && (d.result.Err? ==> d.users == us)
      && (!f.ReadFails? && id !in us ==> Refused(d, us, NotFound))
      && (!f.ReadFails? && !f.WriteFails? && id in us && !known ==> Refused(d, us, Invalid))
      && (f.ReadFails? || (f.WriteFails? && id in us) ==> Refused(d, us, Failure))
  {
  }

  /** Named columns are set, the others stay; clearing the expiry wins over setting it. */
  lemma UpdatedColumns(us: Users, plans: Plans, id: Id, p: UpdateInput, now: int, f: Fault)
    requires Update(us, plans, id, p, now, f).result.Ok?
    ensures id in us
    ensures var d, u := Update(us, plans, id, p, now, f), us[id];
      var u' := d.result.value;
      && Granted(d, us, id, u')
      && u'.planId == (if p.planId.Some? then p.planId else u.planId)
      && u'.dataLimit == (if p.dataLimit.Some? then p.dataLimit else u.dataLimit)
      && u'.expiresAt == (if p.clearExpiry then None else if p.expiresAt.Some? then p.expiresAt else u.expiresAt)
      && u'.note == (if p.note.Some? then p.note.value else u.note)
      && u'.email == u.email && u'.externalId == u.externalId && u'.usedUp == u.usedUp && u'.usedDown == u.usedDown
      && (u'.status == Active || u'.status == if p.status.Some? then p.status.value else u.status)
  {
  }

  // ---------------------------------------------------------------- resets

  lemma ResetMeans(us: Users, id: Id, now: int, f: Fault)
    ensures var d := ResetTraffic(us, id, now, f);
      var back := id in us && us[id].status == UserStatus.Suspended && !us[id].Due(now);
      && (d.result.Ok? <==> id in us && !f.ReadFails? && !f.ResetFails? && !(f.WriteFails? && back))
      && (d.result.Ok? ==> Granted(d, us, id, if back then us[id].Emptied().(status := Active) else us[id].Emptied()))
      && (!f.ReadFails? && id !in us ==> Refused(d, us, NotFound))
      && (d.result.Err? && (f.ReadFails? || id in us) ==> d.result.error == Failure)
  {
  }

  /**
   A request that is refused has changed nothing, with one exception: a reset, alone or inside a renewal, stays when the
   write after it fails.
   */
  lemma RefusalsChangeNothing(us: Users, plans: Plans, id: Id, r: RenewInput, p: UpdateInput, now: int, f: Fault)
    ensures Suspend(us, id, f).result.Err? ==> Suspend(us, id, f).users == us
    ensures Resume(us, id, now, f).result.Err? ==> Resume(us, id, now, f).users == us
    ensures Update(us, plans, id, p, now, f).result.Err? ==> Update(us, plans, id, p, now, f).users == us
    ensures var d := ResetTraffic(us, id, now, f);
      d.result.Err? ==> d.users == if f.WriteFails? && id in us then us[id := us[id].Emptied()] else us
    ensures var d := Renew(us, plans, id, r, now, f);
      var found := id in us && (r.planId.Some? ==> r.planId.value in plans);
      d.result.Err? ==> d.users == if f.WriteFails? && found && r.resetTraffic then us[id := us[id].Emptied()] else us
  {
  }
}
