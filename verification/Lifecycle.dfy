/** The subscription lifecycle: what each operation does to the users table, and what holds over every run. */
module Lifecycle {
  import opened Domain
  import opened Sweeps

  type Plans = map<Id, Plan>

  datatype RenewInput = RenewInput(days: int, resetTraffic: bool, planId: Option<Id>)

  datatype UpdateInput = UpdateInput(
    planId: Option<Id>, dataLimit: Option<int>, expiresAt: Option<int>, clearExpiry: bool, note: Option<string>,
    status: Option<UserStatus>)

  /**
   Which database statement of a request fails, if any; statements that already ran stay committed. When the lookup of
   the user's nodes fails, the request succeeds without waking them.
   */
  datatype Fault = NoFault | ReadFails | ResetFails | WriteFails | TargetsFail

  /** The table after a request, and its answer. */
  datatype Done = Done(users: Users, result: Result<User>)

  // ---------------------------------------------------------------- effects on one record

  function Extended(e: Option<int>, now: int, days: int): Option<int> {
    if days <= 0 then e
    else Some((if e.Some? && e.value > now then e.value else now) + days * DAY)
  }

  /** New plan with its data limit, if the renewal switches plans, and the extended expiry. */
  function Prolonged(u: User, r: RenewInput, limit: Option<int>, now: int): User {
    var v := if r.planId.Some? then u.(planId := r.planId, dataLimit := limit) else u;
    v.(expiresAt := Extended(v.expiresAt, now, r.days))
  }

  /** Back in service unless disabled, over quota or expired. */
  function Reactivated(u: User, now: int): User {
    if u.status != Disabled && !u.OverQuota() && !u.Due(now) then u.(status := Active) else u
  }

  function RenewedUser(u: User, r: RenewInput, limit: Option<int>, now: int): User {
    var v := Prolonged(u, r, limit, now);
    Reactivated(if r.resetTraffic then v.Emptied() else v, now)
  }

  function UpdatedUser(u: User, p: UpdateInput, now: int): User {
    var v := u.(planId := if p.planId.Some? then p.planId else u.planId,
                dataLimit := if p.dataLimit.Some? then p.dataLimit else u.dataLimit,
                expiresAt := if p.clearExpiry then None else if p.expiresAt.Some? then p.expiresAt else u.expiresAt,
                note := if p.note.Some? then p.note.value else u.note,
                status := if p.status.Some? then p.status.value else u.status);
    if v.status == Expired && v.expiresAt.Some? && v.expiresAt.value > now then v.(status := Active) else v
  }

  // ---------------------------------------------------------------- operations on the table

  function SetStatus(us: Users, id: Id, status: UserStatus, f: Fault): Done {
    if f.WriteFails? then Done(us, Err(Failure))
    else if id !in us then Done(us, Err(NotFound))
    else Done(us[id := us[id].(status := status)], Ok(us[id].(status := status)))
  }

  function Suspend(us: Users, id: Id, f: Fault): Done { SetStatus(us, id, Disabled, f) }

  function Resume(us: Users, id: Id, now: int, f: Fault): Done {
    if f.ReadFails? then Done(us, Err(Failure))
    else if id !in us then Done(us, Err(NotFound))
    else if us[id].OverQuota() || us[id].Due(now) then Done(us, Err(Invalid))
    else SetStatus(us, id, Active, f)
  }

  function ResetTraffic(us: Users, id: Id, now: int, f: Fault): Done {
    if f.ReadFails? then Done(us, Err(Failure))
    else if id !in us then Done(us, Err(NotFound))
    else if f.ResetFails? then Done(us, Err(Failure))
    else
      var us' := us[id := us[id].Emptied()];
      if us[id].status == UserStatus.Suspended && !us[id].Due(now) then SetStatus(us', id, Active, f)
      else Done(us', Ok(us'[id]))
  }

  /** The writes of a renewal: a traffic reset stays even when the update after it fails. */
  function RenewWith(us: Users, id: Id, r: RenewInput, limit: Option<int>, now: int, f: Fault): Done
    requires id in us
  {
    if r.resetTraffic && f.ResetFails? then Done(us, Err(Failure))
    else if f.WriteFails? then Done(if r.resetTraffic then us[id := us[id].Emptied()] else us, Err(Failure))
    else
      var u' := RenewedUser(us[id], r, limit, now);
      Done(us[id := u'], Ok(u'))
  }

  function Renew(us: Users, plans: Plans, id: Id, r: RenewInput, now: int, f: Fault): Done {
    if r.days <= 0 && !r.resetTraffic && r.planId.None? then Done(us, Err(Invalid))
    else if f.ReadFails? then Done(us, Err(Failure))
    else if id !in us then Done(us, Err(NotFound))
    else if r.planId.Some? && r.planId.value !in plans then Done(us, Err(NotFound))
    else RenewWith(us, id, r, if r.planId.Some? then plans[r.planId.value].dataLimit else None, now, f)
  }

  function Update(us: Users, plans: Plans, id: Id, p: UpdateInput, now: int, f: Fault): Done {
    if f.ReadFails? then Done(us, Err(Failure))
    else if id !in us then Done(us, Err(NotFound))
    else if f.WriteFails? then Done(us, Err(Failure))
    else
      var u' := UpdatedUser(us[id], p, now);
      if u'.planId.Some? && u'.planId.value !in plans then Done(us, Err(Invalid)) else Done(us[id := u'], Ok(u'))
  }

  // ---------------------------------------------------------------- runs

  datatype Event =
    | DoSuspend(id: Id)
    | DoResume(id: Id)
    | DoReset(id: Id)
    | DoRenew(id: Id, input: RenewInput)
    | DoUpdate(id: Id, patch: UpdateInput)
    | Metered(users: Users)
    | QuotaSweep
    | ExpirySweep

  /** One atomic operation at one instant; metering may change counters and nothing else. */
  datatype Moment = Moment(event: Event, now: int, fault: Fault)

  predicate OnlyCounters(us: Users, us': Users) {
    && us'.Keys == us.Keys
    && forall id :: id in us ==> us'[id] == us[id].(usedUp := us'[id].usedUp, usedDown := us'[id].usedDown)
  }

  function Next(us: Users, plans: Plans, m: Moment): Users {
    match m.event
    case DoSuspend(id) => Suspend(us, id, m.fault).users
    case DoResume(id) => Resume(us, id, m.now, m.fault).users
    case DoReset(id) => ResetTraffic(us, id, m.now, m.fault).users
    case DoRenew(id, r) => Renew(us, plans, id, r, m.now, m.fault).users
    case DoUpdate(id, p) => Update(us, plans, id, p, m.now, m.fault).users
    case Metered(us') => if OnlyCounters(us, us') then us' else us
    case QuotaSweep => QuotaSwept(us)
    case ExpirySweep => ExpirySwept(us, m.now)
  }

  function After(us: Users, plans: Plans, ms: seq<Moment>): Users {
    if ms == [] then us else Next(After(us, plans, ms[..|ms| - 1]), plans, ms[|ms| - 1])
  }

  /** The two ways an administrator puts a disabled user back: resuming, or an update that names a status. */
  predicate Reinstates(m: Moment, id: Id) {
    || m.event == DoResume(id)
    || (m.event.DoUpdate? && m.event.id == id && m.event.patch.status.Some?)
  }

  lemma NobodyVanishes(us: Users, plans: Plans, m: Moment)
    ensures Next(us, plans, m).Keys == us.Keys
  {
  }

  /** No sweep, renewal, reset or metering takes a user out of `disabled`. */
  lemma DisabledHolds(us: Users, plans: Plans, m: Moment, id: Id)
    requires id in us && us[id].status == Disabled && !Reinstates(m, id)
    ensures id in Next(us, plans, m) && Next(us, plans, m)[id].status == Disabled
  {
  }

  /** Over every run: a disabled user stays disabled until an administrator reinstates that user. */
  lemma {:induction false} DisabledUntilReinstated(us: Users, plans: Plans, ms: seq<Moment>, id: Id)
    requires id in us && us[id].status == Disabled && forall m :: m in ms ==> !Reinstates(m, id)
    ensures id in After(us, plans, ms) && After(us, plans, ms)[id].status == Disabled
    decreases |ms|
  {
    if ms == [] {
    } else {
      DisabledUntilReinstated(us, plans, ms[..|ms| - 1], id);
      DisabledHolds(After(us, plans, ms[..|ms| - 1]), plans, ms[|ms| - 1], id);
    }
  }

  /** Resuming or renewing a user into service leaves that user within quota and unexpired at that instant. */
  lemma ReactivationIsSound(us: Users, plans: Plans, m: Moment, id: Id)
    requires id in us && us[id].status != Active && (m.event.DoResume? || m.event.DoRenew?)
    ensures var us' := Next(us, plans, m);
      id in us' && (us'[id].status == Active ==> m.event.id == id && !us'[id].OverQuota() && !us'[id].Due(m.now))
  {
  }

  /** Over the data limit that a renewal leaves in force, with the counters it leaves. */
  predicate OverAfter(u: User, plans: Plans, r: RenewInput)
    requires r.planId.Some? ==> r.planId.value in plans
  {
    var limit := if r.planId.Some? then plans[r.planId.value].dataLimit else u.dataLimit;
    limit.Some? && (if r.resetTraffic then 0 else u.UsedTotal()) >= limit.value
  }

  /**
   What a written renewal leaves, told from the record before it and the request: the user is in service exactly if it
   was, or is not disabled, within the limit then in force and either extended or not expired before. So it is in
   service over quota, or in service and expired, exactly if it was in service already and nothing in the request helps.
   */
  lemma RenewedActiveExactly(us: Users, plans: Plans, id: Id, r: RenewInput, now: int, f: Fault)
    requires Renew(us, plans, id, r, now, f).result.Ok?
    ensures id in us && (r.planId.Some? ==> r.planId.value in plans)
    ensures var u, u' := us[id], Renew(us, plans, id, r, now, f).users[id];
      var over, due := OverAfter(u, plans, r), r.days <= 0 && u.Due(now);
      && (u'.status == Active <==> u.status == Active || (u.status != Disabled && !over && !due))
      && (u'.status == Active && u'.OverQuota() <==> u.status == Active && over)
      && (u'.status == Active && u'.Due(now) <==> u.status == Active && due)
  {
    assert r.days > 0 ==> r.days * DAY > 0;
  }

  /**
   What a written reset leaves, told from the record before it: in service exactly if it was, or was suspended and not
   expired; so in service over quota exactly if moreover the limit is zero or less.
   */
  lemma ResetActiveExactly(us: Users, id: Id, now: int, f: Fault)
    requires ResetTraffic(us, id, now, f).result.Ok?
    ensures id in us && var u, u' := us[id], ResetTraffic(us, id, now, f).users[id];
      var active := u.status == Active || (u.status == UserStatus.Suspended && !u.Due(now));
      && (u'.status == Active <==> active)
      && (u'.status == Active && u'.OverQuota() <==> active && u.dataLimit.Some? && u.dataLimit.value <= 0)
      && (u'.status == Active && u'.Due(now) <==> u.status == Active && u.Due(now))
  {
  }

  /**
   What a written update leaves, told from the record before it and the request. Any update, not only one that moves the
   expiry, puts an expired user with a future expiry back, even one the update itself names expired, and none looks at
   the quota.
   */
  lemma UpdatedActiveExactly(us: Users, plans: Plans, id: Id, p: UpdateInput, now: int, f: Fault)
    requires Update(us, plans, id, p, now, f).result.Ok?
    ensures id in us && var u, u' := us[id], Update(us, plans, id, p, now, f).users[id];
      var status := if p.status.Some? then p.status.value else u.status;
      var limit := if p.dataLimit.Some? then p.dataLimit else u.dataLimit;
      var expiry := if p.clearExpiry then None else if p.expiresAt.Some? then p.expiresAt else u.expiresAt;
      var active := status == Active || (status == Expired && expiry.Some? && expiry.value > now);
      && (u'.status == Active <==> active)
      && (u'.status == Active && u'.OverQuota() <==> active && limit.Some? && u.UsedTotal() >= limit.value)
      && (u'.status == Active && u'.Due(now) <==> status == Active && expiry.Some? && expiry.value <= now)
  {
  }

  /**
   An expired user over quota pays for more days and stays expired; a change of the note afterwards puts that user in
   service, over quota.
   */
  lemma NoteRevivesRenewed(us: Users, plans: Plans, id: Id, days: int, note: string, now: int, later: int)
    requires id in us && us[id].status == Expired && us[id].OverQuota() && days > 0 && now <= later < now + days * DAY
    requires us[id].planId.Some? ==> us[id].planId.value in plans
    ensures var renewal := Moment(DoRenew(id, RenewInput(days, false, None)), now, NoFault);
      var edit := Moment(DoUpdate(id, UpdateInput(None, None, None, false, Some(note), None)), later, NoFault);
      && id in After(us, plans, [renewal]) && After(us, plans, [renewal])[id].status == Expired
      && id in After(us, plans, [renewal, edit])
      && After(us, plans, [renewal, edit])[id].status == Active && After(us, plans, [renewal, edit])[id].OverQuota()
  {
    var renewal := Moment(DoRenew(id, RenewInput(days, false, None)), now, NoFault);
    var edit := Moment(DoUpdate(id, UpdateInput(None, None, None, false, Some(note), None)), later, NoFault);
    assert [renewal][..0] == [] && [renewal, edit][..1] == [renewal];
    assert After(us, plans, [renewal]) == Next(us, plans, renewal);
  }

  // ---------------------------------------------------------------- reads and writes that do not meet

  /** ResetTraffic on a row of which `seen` was read before: the counters go to zero, the status by what was seen. */
  function LateReset(row: User, seen: User, now: int): User {
    if seen.status == UserStatus.Suspended && !seen.Due(now) then row.Emptied().(status := Active) else row.Emptied()
  }

  /**
   Renew, Update and RotateSubToken read the row and write all its columns back later; ResetTraffic reads it and writes
   the status later. A user disabled in between stays disabled exactly if it was disabled when it was read (for an
   update that names no status), and for a reset exactly unless it was suspended and not expired then; otherwise the
   write takes the disabling back.
   */
  lemma StaleWriteUndoesDisabling(seen: User, row: User, r: RenewInput, p: UpdateInput, limit: Option<int>, now: int)
    requires row.status == Disabled && p.status.None?
    ensures row.Overwritten(RenewedUser(seen, r, limit, now)).status == Disabled <==> seen.status == Disabled
    ensures row.Overwritten(UpdatedUser(seen, p, now)).status == Disabled <==> seen.status == Disabled
    ensures row.Overwritten(seen).status == Disabled <==> seen.status == Disabled
    ensures LateReset(row, seen, now).status == Disabled <==> !(seen.status == UserStatus.Suspended && !seen.Due(now))
  {
  }

  /** Read and written with nothing in between, the late forms are the requests themselves. */
  lemma LateFormsAgree(us: Users, plans: Plans, id: Id, r: RenewInput, p: UpdateInput, now: int)
    requires id in us
    ensures ResetTraffic(us, id, now, NoFault).users == us[id := LateReset(us[id], us[id], now)]
    ensures Renew(us, plans, id, r, now, NoFault).result.Ok? ==>
      Renew(us, plans, id, r, now, NoFault).users ==
        us[id := (if r.resetTraffic then us[id].Emptied() else us[id]).Overwritten(
                   RenewedUser(us[id], r, if r.planId.Some? then plans[r.planId.value].dataLimit else None, now))]
    ensures Update(us, plans, id, p, now, NoFault).result.Ok? ==>
      Update(us, plans, id, p, now, NoFault).users == us[id := us[id].Overwritten(UpdatedUser(us[id], p, now))]
  {
  }

  /**
   The guards of a renewal look at the counters read, its write leaves the counters of the row. So a renewal that was
   overtaken by traffic puts a user in service over quota exactly if what was read passes, or was in service, while the
   row's counters meet the limit in force.
   */
  lemma StaleRenewalIgnoresTraffic(seen: User, row: User, plans: Plans, r: RenewInput, now: int)
    requires r.planId.Some? ==> r.planId.value in plans
    ensures var inForce := if r.planId.Some? then plans[r.planId.value].dataLimit else seen.dataLimit;
      var u' := row.Overwritten(RenewedUser(seen, r, if r.planId.Some? then inForce else None, now));
      var passes := !OverAfter(seen, plans, r) && !(r.days <= 0 && seen.Due(now));
      u'.status == Active && u'.OverQuota() <==>
        && (seen.status == Active || (seen.status != Disabled && passes))
        && inForce.Some? && row.UsedTotal() >= inForce.value
  {
    assert r.days > 0 ==> r.days * DAY > 0;
  }

  /**
   A token rotation, or an update that leaves the expiry alone, that read the row before a renewal and writes it after
   puts the old expiry back: the renewal survives exactly if it bought no time.
   */
  lemma LateWriteUndoesRenewal(row: User, seen: User, r: RenewInput, p: UpdateInput, limit: Option<int>, now: int,
      later: int)
    requires seen.expiresAt == row.expiresAt && !p.clearExpiry && p.expiresAt.None?
    ensures var renewed := row.Overwritten(RenewedUser(row, r, limit, now));
      && renewed.Overwritten(seen).expiresAt == row.expiresAt
      && renewed.Overwritten(UpdatedUser(seen, p, later)).expiresAt == row.expiresAt
      && (renewed.expiresAt == row.expiresAt <==> r.days <= 0)
  {
    assert r.days > 0 ==> r.days * DAY > 0;
  }

  /**
   Two renewals that read the same record lose the first: the expiry is the second's alone, and it is what both in turn
   would have given exactly if the time bought first had run out before the second came.
   */
  lemma OverlappingRenewalsLoseOne(seen: User, row: User, r1: RenewInput, t1: int, r2: RenewInput, t2: int,
      limit: Option<int>)
    requires r1.days > 0 && r2.days > 0
    ensures var first := Extended(seen.expiresAt, t1, r1.days);
      var row2 := row.Overwritten(RenewedUser(seen, r1, limit, t1)).Overwritten(RenewedUser(seen, r2, limit, t2));
      && row2.expiresAt == Extended(seen.expiresAt, t2, r2.days)
      && (row2.expiresAt == Extended(first, t2, r2.days) <==> first.value <= t2)
  {
    assert r1.days * DAY > 0;
  }

  // ---------------------------------------------------------------- renewal arithmetic

  datatype Renewal = Renewal(at: int, days: int)

  function ExpiryAfter(e0: Option<int>, rs: seq<Renewal>): Option<int> {
    if rs == [] then e0 else Extended(ExpiryAfter(e0, rs[..|rs| - 1]), rs[|rs| - 1].at, rs[|rs| - 1].days)
  }

  /** Time bought from the k-th renewal on. */
  function Bought(rs: seq<Renewal>, k: nat): int
    decreases |rs|
  {
    if |rs| <= k then 0 else Bought(rs[..|rs| - 1], k) + rs[|rs| - 1].days * DAY
  }

  /**
   `e` is the greatest of the old expiry plus everything bought and, for each renewal, its instant plus what was
   bought from it on.
   */
  ghost predicate IsStack(e0: Option<int>, rs: seq<Renewal>, e: int) {
    && (e0.Some? ==> e0.value + Bought(rs, 0) <= e)
    && (forall k :: 0 <= k < |rs| ==> rs[k].at + Bought(rs, k) <= e)
    && ((e0.Some? && e == e0.value + Bought(rs, 0)) || exists k :: 0 <= k < |rs| && e == rs[k].at + Bought(rs, k))
  }

  lemma BoughtMore(rs: seq<Renewal>, k: nat)
    requires rs != [] && k < |rs|
    ensures Bought(rs, k) == Bought(rs[..|rs| - 1], k) + rs[|rs| - 1].days * DAY
  {
  }

  lemma StackMore(e0: Option<int>, h: seq<Renewal>, r: Renewal, e: int, e': int)
    requires r.days > 0 && IsStack(e0, h, e) && Extended(Some(e), r.at, r.days) == Some(e')
    ensures IsStack(e0, h + [r], e')
  {
    var rs := h + [r];
    assert rs[..|rs| - 1] == h;
    assert Bought(h, |h|) == 0;
    forall k | 0 <= k < |rs| ensures Bought(rs, k) == Bought(h, k) + r.days * DAY { BoughtMore(rs, k); }
    if e > r.at {
      if k :| 0 <= k < |h| && e == h[k].at + Bought(h, k) { assert e' == rs[k].at + Bought(rs, k); }
    } else {
      assert e' == rs[|h|].at + Bought(rs, |h|);
    }
  }

  /**
   Renewals stack: after any positive renewals the expiry is the maximum of the old expiry plus all time bought and,
   over all renewals, the renewal's instant plus the time bought from it on; so early renewals add up, late ones
   grant no time for the past.
   */
  lemma {:induction false} RenewalsStack(e0: Option<int>, rs: seq<Renewal>)
    requires forall k :: 0 <= k < |rs| ==> rs[k].days > 0
    ensures rs != [] || e0.Some? ==> ExpiryAfter(e0, rs).Some? && IsStack(e0, rs, ExpiryAfter(e0, rs).value)
    decreases |rs|
  {
    if rs == [] {
    } else {
      var h, r := rs[..|rs| - 1], rs[|rs| - 1];
      assert rs == h + [r];
      RenewalsStack(e0, h);
      if h != [] || e0.Some? {
        StackMore(e0, h, r, ExpiryAfter(e0, h).value, ExpiryAfter(e0, rs).value);
      } else {
        assert Bought(rs[..0], 0) == 0 && rs[..0] == h;
        assert ExpiryAfter(e0, rs).value == rs[0].at + Bought(rs, 0);
      }
    }
  }

  /** Renewing never moves an expiry back. */
  lemma {:induction false} RenewalsNeverShorten(e0: int, rs: seq<Renewal>)
    ensures ExpiryAfter(Some(e0), rs).Some? && ExpiryAfter(Some(e0), rs).value >= e0
    decreases |rs|
  {
    if rs == [] {
    } else {
      RenewalsNeverShorten(e0, rs[..|rs| - 1]);
    }
  }

  /** The renewals of `id` that went through and bought time, in order. */
  function RenewalsIn(us: Users, plans: Plans, ms: seq<Moment>, id: Id): seq<Renewal> {
    if ms == [] then []
    else
      var before, m := ms[..|ms| - 1], ms[|ms| - 1];
      RenewalsIn(us, plans, before, id) +
      if Buys(After(us, plans, before), plans, m, id) then [Renewal(m.now, m.event.input.days)] else []
  }

  predicate Buys(us: Users, plans: Plans, m: Moment, id: Id) {
    && m.event.DoRenew? && m.event.id == id && m.event.input.days > 0
    && Renew(us, plans, id, m.event.input, m.now, m.fault).result.Ok?
  }

  /** An administrator's update that sets or clears the expiry. */
  predicate SetsExpiry(m: Moment, id: Id) {
    m.event.DoUpdate? && m.event.id == id && (m.event.patch.clearExpiry || m.event.patch.expiresAt.Some?)
  }

  lemma NextExpiry(us: Users, plans: Plans, m: Moment, id: Id)
    requires id in us && !SetsExpiry(m, id)
    ensures id in Next(us, plans, m)
    ensures Next(us, plans, m)[id].expiresAt ==
      if Buys(us, plans, m, id) then Extended(us[id].expiresAt, m.now, m.event.input.days) else us[id].expiresAt
  {
  }

  lemma {:induction false} ExpiryFollowsRenewals(us: Users, plans: Plans, ms: seq<Moment>, id: Id)
    requires id in us && forall m :: m in ms ==> !SetsExpiry(m, id)
    ensures var rs := RenewalsIn(us, plans, ms, id);
      && (forall k :: 0 <= k < |rs| ==> rs[k].days > 0)
      && id in After(us, plans, ms) && After(us, plans, ms)[id].expiresAt == ExpiryAfter(us[id].expiresAt, rs)
    decreases |ms|
  {
    if ms == [] {
    } else {
      var before, m := ms[..|ms| - 1], ms[|ms| - 1];
      ExpiryFollowsRenewals(us, plans, before, id);
      assert m in ms;
      NextExpiry(After(us, plans, before), plans, m, id);
      var h, rs := RenewalsIn(us, plans, before, id), RenewalsIn(us, plans, ms, id);
      if rs != h { assert rs[..|h|] == h; }
    }
  }

  /** The stacking law over whole runs of requests, sweeps and metering in which no update sets the expiry. */
  lemma RunsStack(us: Users, plans: Plans, ms: seq<Moment>, id: Id)
    requires id in us && forall m :: m in ms ==> !SetsExpiry(m, id)
    ensures var rs := RenewalsIn(us, plans, ms, id);
      && id in After(us, plans, ms)
      && (rs == [] ==> After(us, plans, ms)[id].expiresAt == us[id].expiresAt)
      && (rs != [] ==>
        After(us, plans, ms)[id].expiresAt.Some? &&
        IsStack(us[id].expiresAt, rs, After(us, plans, ms)[id].expiresAt.value))
  {
    ExpiryFollowsRenewals(us, plans, ms, id);
    RenewalsStack(us[id].expiresAt, RenewalsIn(us, plans, ms, id));
  }
}
