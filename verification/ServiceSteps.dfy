/** The service's database writes are steps of the convergence protocol, with the nodes they owe a signal. */
module ServiceSteps {
  import opened Domain
  import opened Seqs
  import opened Sweeps
  import opened Lifecycle
  import opened UserService
  import P = Protocol
  import C = Convergence

  /**
   The users whose nodes are woken after the write: the one named by a request that succeeded, or those a sweep
   reports.
   */
  function Notified(us: Users, plans: Plans, m: Moment): set<Id> {
    match m.event
    case DoSuspend(id) => if Suspend(us, id, m.fault).result.Ok? then {id} else {}
    case DoResume(id) => if Resume(us, id, m.now, m.fault).result.Ok? then {id} else {}
    case DoReset(id) => if ResetTraffic(us, id, m.now, m.fault).result.Ok? then {id} else {}
    case DoRenew(id, r) => if Renew(us, plans, id, r, m.now, m.fault).result.Ok? then {id} else {}
    case DoUpdate(id, p) => if Update(us, plans, id, p, m.now, m.fault).result.Ok? then {id} else {}
    case Metered(_) => {}
    case QuotaSweep => QuotaHits(us)
    case ExpirySweep => ExpiryHits(us, m.now)
  }

  /** Same users with the same email and external reference, and only users in `told` change status. */
  ghost predicate Tame(us: Users, us': Users, told: set<Id>) {
    us'.Keys == us.Keys && told <= us.Keys
    && forall id :: id in us ==>
         us'[id].email == us[id].email && us'[id].externalId == us[id].externalId &&
           (id in told || us'[id].status == us[id].status)
  }

  lemma SweepsTame(us: Users, now: int)
    ensures Tame(us, QuotaSwept(us), QuotaHits(us)) && Tame(us, ExpirySwept(us, now), ExpiryHits(us, now))
  {
  }

  lemma StatusTame(us: Users, plans: Plans, m: Moment)
    requires m.event.DoSuspend? || m.event.DoResume? || m.event.DoReset?
    ensures Tame(us, Next(us, plans, m), Notified(us, plans, m))
  {
  }

  lemma RenewTame(us: Users, plans: Plans, m: Moment)
    requires m.event.DoRenew?
    ensures Tame(us, Next(us, plans, m), Notified(us, plans, m))
  {
  }

  lemma UpdateTame(us: Users, plans: Plans, m: Moment)
    requires m.event.DoUpdate?
    ensures Tame(us, Next(us, plans, m), Notified(us, plans, m))
  {
  }

  lemma EveryMomentTame(us: Users, plans: Plans, m: Moment)
    ensures Tame(us, Next(us, plans, m), Notified(us, plans, m))
  {
    if m.event.DoSuspend? || m.event.DoResume? || m.event.DoReset? {
      StatusTame(us, plans, m);
    } else if m.event.DoRenew? {
      RenewTame(us, plans, m);
    } else if m.event.DoUpdate? {
      UpdateTame(us, plans, m);
    } else {
      SweepsTame(us, m.now);
    }
  }

  /**
   Whatever the request, the instant and the failing statement: emails never change, nobody appears or vanishes, and
   every user whose status changes is among those whose nodes are woken. So the write is an orderly protocol step.
   */
  lemma EveryStatusChangeIsTold(s: P.State, plans: Plans, m: Moment)
    ensures var step := P.Serve(P.WriteUsers(Next(s.users, plans, m), Notified(s.users, plans, m)));
      P.Enabled(s, step) && C.Orderly(s, step)
  {
    EveryMomentTame(s.users, plans, m);
    TameIsAllowed(s, Next(s.users, plans, m), Notified(s.users, plans, m));
  }

  lemma TameIsAllowed(s: P.State, us': Users, told: set<Id>)
    requires Tame(s.users, us', told)
    ensures P.Allowed(s, P.WriteUsers(us', told)) && C.Orderly(s, P.Serve(P.WriteUsers(us', told)))
  {
  }

  lemma PendingOfNew(rows: map<Key, SyncStatus>, ks: set<Key>)
    requires ks !! rows.Keys
    ensures WithPending(rows, ks) == rows + (map k | k in ks :: Pending)
  {
  }

  /** A creation is the protocol's Create step, provided the drawn identifier was never used. */
  lemma CreationIsAStep(s: P.State, plans: Plans, id: Id, c: CreateInput, now: int)
    requires P.Referential(s) && id !in s.issued
    requires Created(s.users, s.rows, s.inbounds, plans, id, c, now, NoFault).result.Ok?
    ensures var m := Created(s.users, s.rows, s.inbounds, plans, id, c, now, NoFault);
      var step := P.Create(id, m.result.value, Elems(c.inboundIds));
      P.Allowed(s, step) && P.Served(s, step).users == m.users && P.Served(s, step).rows == m.rows
  {
    var m := Created(s.users, s.rows, s.inbounds, plans, id, c, now, NoFault);
    PendingOfNew(s.rows, P.KeysFor(id, Elems(c.inboundIds)));
  }

  /**
   A record as a creation makes it: the columns of the request, both counters at zero, and, where the request sets none,
   the plan's limit and the expiry that buying the plan's days gives a user without one.
   */
  predicate IsNew(u: User, email: string, planId: Option<Id>, limit: Option<int>, expiry: Option<int>, note: string,
      ref: Option<string>, plan: Plan, now: int) {
    && u.email == email && u.planId == planId && u.note == note && u.externalId == ref && u.status == Active
    && u.usedUp == 0 && u.usedDown == 0
    && u.dataLimit == (if limit.Some? then limit else plan.dataLimit)
    && (expiry.Some? ==> u.expiresAt == expiry)
    && (expiry.None? && plan.durationDays.None? ==> u.expiresAt == None)
    && (expiry.None? && plan.durationDays.Some? && plan.durationDays.value > 0 ==>
          u.expiresAt == Extended(None, now, plan.durationDays.value))
    && (expiry.None? && plan.durationDays.Some? && plan.durationDays.value <= 0 ==> u.expiresAt.Some? && u.Due(now))
  }

  lemma NewRecord(c: CreateInput, plans: Plans, now: int)
    requires c.planId.Some? ==> c.planId.value in plans
    ensures IsNew(NewUser(c, if c.planId.Some? then Some(plans[c.planId.value]) else None, now),
      c.email, c.planId, c.dataLimit, c.expiresAt, c.note, c.externalId,
      if c.planId.Some? then plans[c.planId.value] else Plan(None, None), now)
  {
  }

  /** Granted exactly if the request is complete, what it names exists, what it claims is free, and nothing fails. */
  lemma CreationAccepts(us: Users, rows: map<Key, SyncStatus>, inbounds: map<Id, Inbound>, plans: Plans, id: Id,
      c: CreateInput, now: int, f: Fault)
    ensures var m := Created(us, rows, inbounds, plans, id, c, now, f);
      var complete := c.inboundIds != [] && exists x :: x in c.email && x !in " \t\n\r";
      var planned := c.planId.Some? ==> c.planId.value in plans;
      var exist := forall i :: i in c.inboundIds ==> i in inbounds;
      var free := id !in us && forall j :: j in us ==>
        us[j].email != c.email && (c.externalId.Some? ==> us[j].externalId != c.externalId);
      && (m.result.Ok? <==> complete && planned && exist && free && !f.ReadFails? && !f.WriteFails?)
      && (m.result.Err? ==> m.users == us && m.rows == rows)
      && (!complete ==> m.result == Err(Invalid))
      && (complete && f == NoFault && !planned ==> m.result == Err(NotFound))
      && (complete && f == NoFault && planned && !exist ==> m.result == Err(Invalid))
      && (complete && f == NoFault && planned && exist && !free ==> m.result == Err(Conflict))
  {
  }

  /**
   What a creation leaves: nobody else's record or assignment changes, the new user is assigned exactly the listed
   inbounds, and it starts active even if barred: over quota exactly if the limit in force is zero or less, expired
   exactly if the expiry in force has passed; an explicit limit or expiry is in force before the plan's.
   */
  lemma CreationMeans(s: P.State, plans: Plans, id: Id, c: CreateInput, now: int)
    requires P.Referential(s)
    requires Created(s.users, s.rows, s.inbounds, plans, id, c, now, NoFault).result.Ok?
    ensures var m := Created(s.users, s.rows, s.inbounds, plans, id, c, now, NoFault);
      var plan := if c.planId.Some? then plans[c.planId.value] else Plan(None, None);
      var limit := if c.dataLimit.Some? then c.dataLimit else plan.dataLimit;
      && id !in s.users && m.users - {id} == s.users
      && (forall k: Key :: k.user != id ==> (k in m.rows <==> k in s.rows) && (k in s.rows ==> m.rows[k] == s.rows[k]))
      && (forall i :: Key(id, i) in m.rows <==> i in c.inboundIds)
      && (forall i :: i in c.inboundIds ==> m.rows[Key(id, i)] == Pending)
      && id in m.users && m.result.value == m.users[id] && m.users[id].status == Active
      && IsNew(m.users[id], c.email, c.planId, c.dataLimit, c.expiresAt, c.note, c.externalId, plan, now)
      && (m.users[id].OverQuota() <==> limit.Some? && limit.value <= 0)
      && (m.users[id].Due(now) <==>
            if c.expiresAt.Some? then c.expiresAt.value <= now
            else plan.durationDays.Some? && plan.durationDays.value <= 0)
  {
    forall i ensures i in c.inboundIds <==> Key(id, i) in P.KeysFor(id, Elems(c.inboundIds)) {}
    NewRecord(c, plans, now);
    assert DAY > 0;
  }

  /** A node is asked to serve a row exactly if it is live and its user is active, and otherwise to remove it. */
  lemma ServedExactly(s: P.State, k: Key, n: Id)
    requires P.OnNode(s, k, n)
    ensures var x := P.Target(k, P.Entry(s.inbounds[k.inbound].tag, s.users[k.user].email), s.rows[k]);
      && (x in P.DesiredTargets(s, n) <==> s.rows[k] != Removing && s.users[k.user].status == Active)
      && (x in P.RemovalTargets(s, n) <==> s.rows[k] == Removing || s.users[k.user].status != Active)
      && (forall t :: t in P.DesiredTargets(s, n) + P.RemovalTargets(s, n) && t.key == k ==> t == x)
  {
  }

  /**
   What a replacement leaves: a listed inbound is live unless its assignment was already tombstoned, an unlisted one
   is live never, other users keep their rows, and repeating the request changes nothing.
   */
  lemma ReplacementMeans(s: P.State, u: Id, ids: set<Id>)
    ensures var rows := P.ReplacedRows(s, u, ids);
      && (forall i :: Key(u, i) in rows && rows[Key(u, i)] != Removing <==>
            i in ids && (Key(u, i) in s.rows ==> s.rows[Key(u, i)] != Removing))
      && (forall k: Key :: k.user != u ==> (k in rows <==> k in s.rows) && (k in rows ==> rows[k] == s.rows[k]))
      && P.ReplacedRows(s.(rows := rows), u, ids) == rows
  {
    var rows := P.ReplacedRows(s, u, ids);
    forall i ensures Key(u, i) in rows <==> Key(u, i) in s.rows || i in ids {
      assert i in ids <==> Key(u, i) in P.KeysFor(u, ids);
    }
  }

  /** With no request in between, the nodes a replacement does not wake have nothing to do because of it. */
  lemma UntoldNodesUnaffected(s: P.State, u: Id, ids: set<Id>, n: Id)
    requires ids <= s.inbounds.Keys && n !in P.NodesOf(s, u) + P.NodesOfInbounds(s, ids)
    ensures var s' := s.(rows := P.ReplacedRows(s, u, ids));
      P.DesiredTargets(s', n) == P.DesiredTargets(s, n) && P.RemovalTargets(s', n) == P.RemovalTargets(s, n)
  {
    var s' := s.(rows := P.ReplacedRows(s, u, ids));
    forall k: Key ensures P.OnNode(s', k, n) <==> P.OnNode(s, k, n)
             ensures P.OnNode(s, k, n) ==> s'.rows[k] == s.rows[k]
    {
      if k.user == u && k.inbound in s.inbounds && k in s'.rows {
        if k in s.rows {
          assert s.inbounds[k.inbound].node in P.NodesOf(s, u);
        } else {
          assert k in P.KeysFor(u, ids) && k.inbound in ids;
          assert s.inbounds[k.inbound].node in P.NodesOfInbounds(s, ids);
        }
      }
    }
  }
}
