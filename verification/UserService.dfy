/** The user service: each request reads and writes the store statement by statement, then wakes the affected nodes. */
module UserService {
  import opened Domain
  import opened Seqs
  import opened Sweeps
  import opened Lifecycle
  import P = Protocol

  datatype CreateInput = CreateInput(
    email: string, planId: Option<Id>, inboundIds: seq<Id>, dataLimit: Option<int>, expiresAt: Option<int>,
    note: string, externalId: Option<string>)

  /** Users and assignments after a creation, and its answer. */
  datatype Made = Made(users: Users, rows: map<Key, SyncStatus>, result: Result<User>)

  predicate Blank(s: string) { forall c :: c in s ==> c in " \t\n\r" }

  predicate EmailTaken(us: Users, email: string) { exists id :: id in us && us[id].email == email }

  predicate ExternalTaken(us: Users, ext: Option<string>) {
    ext.Some? && exists id :: id in us && us[id].externalId == ext
  }

  /** The new record: plan limits are copied unless overridden. */
  function NewUser(c: CreateInput, plan: Option<Plan>, now: int): User {
    var limit := if c.dataLimit.None? && plan.Some? then plan.value.dataLimit else c.dataLimit;
    var expires :=
      if c.expiresAt.Some? || plan.None? || plan.value.durationDays.None? then c.expiresAt
      else Some(now + plan.value.durationDays.value * DAY);
    User(c.email, c.planId, Active, limit, 0, 0, expires, c.externalId, c.note)
  }

  /** INSERT ... ON CONFLICT DO NOTHING of the keys. */
  function WithPending(rows: map<Key, SyncStatus>, ks: set<Key>): map<Key, SyncStatus> {
    map k | k in rows.Keys + ks :: if k in rows then rows[k] else Pending
  }

  /** UPDATE ... SET sync_status='removing' on the user's rows outside `ids`. */
  function Tombstoned(rows: map<Key, SyncStatus>, u: Id, ids: set<Id>): map<Key, SyncStatus> {
    map k | k in rows :: if k.user == u && k.inbound !in ids then Removing else rows[k]
  }

  lemma ReplaceByStatements(s: P.State, u: Id, ids: set<Id>)
    ensures WithPending(Tombstoned(s.rows, u, ids), P.KeysFor(u, ids)) == P.ReplacedRows(s, u, ids)
  {
  }

  function Created(us: Users, rows: map<Key, SyncStatus>, inbounds: map<Id, Inbound>, plans: Plans, id: Id,
      c: CreateInput, now: int, f: Fault): Made {
    if Blank(c.email) || c.inboundIds == [] then Made(us, rows, Err(Invalid))
    else if f.ReadFails? then Made(us, rows, Err(Failure))
    else if c.planId.Some? && c.planId.value !in plans then Made(us, rows, Err(NotFound))
    else if !(Elems(c.inboundIds) <= inbounds.Keys) then Made(us, rows, Err(Invalid))
    else if f.WriteFails? then Made(us, rows, Err(Failure))
    else if id in us || EmailTaken(us, c.email) || ExternalTaken(us, c.externalId) then Made(us, rows, Err(Conflict))
    else
      var u := NewUser(c, if c.planId.Some? then Some(plans[c.planId.value]) else None, now);
      Made(us[id := u], WithPending(rows, P.KeysFor(id, Elems(c.inboundIds))), Ok(u))
  }

  /** `after` is `before` followed by one trigger for each node of `ns` and no other. */
  ghost predicate Wakes(before: seq<Id>, after: seq<Id>, ns: set<Id>) {
    before <= after && NoDup(after[|before|..]) && Elems(after[|before|..]) == ns
  }

  ghost function NodesOn(inbounds: map<Id, Inbound>, ks: set<Key>): set<Id> {
    set k | k in ks && k.inbound in inbounds :: inbounds[k.inbound].node
  }

  lemma NodesOnMore(inbounds: map<Id, Inbound>, ks: set<Key>, k: Key)
    requires k.inbound in inbounds
    ensures NodesOn(inbounds, ks + {k}) == NodesOn(inbounds, ks) + {inbounds[k.inbound].node}
  {
  }

  lemma NodesOfMore(s: P.State, ids: set<Id>, i: Id)
    requires i in s.inbounds
    ensures P.NodesOfInbounds(s, ids + {i}) == P.NodesOfInbounds(s, ids) + {s.inbounds[i].node}
  {
  }

  lemma PendingMore(rows: map<Key, SyncStatus>, u: Id, ids: set<Id>, i: Id)
    ensures var t := WithPending(rows, P.KeysFor(u, ids));
      WithPending(rows, P.KeysFor(u, ids + {i})) == if Key(u, i) in t then t else t[Key(u, i) := Pending]
  {
    assert P.KeysFor(u, ids + {i}) == P.KeysFor(u, ids) + {Key(u, i)};
  }

  class Manager {
    var sent: seq<Id>   // Reconcile(nodeID) calls, in order

    constructor ()
      ensures sent == []
    {
      sent := [];
    }

    /** Triggers every distinct node once. */
    method ReconcileNodes(targets: seq<Id>)
      modifies this
      ensures Wakes(old(sent), sent, Elems(targets))
    {
      var distinct := Dedup(targets);
      DistinctSound(targets);
      sent := sent + distinct;
      assert sent[|old(sent)|..] == distinct;
    }
  }

  class Store {
    const inbounds: map<Id, Inbound>
    const plans: Plans
    var users: Users
    var rows: map<Key, SyncStatus>

    constructor (inbounds: map<Id, Inbound>, plans: Plans)
      ensures this.inbounds == inbounds && this.plans == plans && users == map[] && rows == map[]
    {
      this.inbounds, this.plans, users, rows := inbounds, plans, map[], map[];
    }

    /** Foreign key of users.plan_id. */
    ghost predicate PlansExist()
      reads this
    {
      forall id :: id in users && users[id].planId.Some? ==> users[id].planId.value in plans
    }

    ghost function View(): P.State
      reads this
    {
      P.State(users, inbounds, rows, map[], multiset{}, {}, 0)
    }

    /** The node of each of the user's assignments, in some order. */
    method AssignmentTargetsForUser(u: Id, f: Fault) returns (nodes: Option<seq<Id>>)
      ensures nodes.None? <==> f.TargetsFail?
      ensures nodes.Some? ==> Elems(nodes.value) == P.NodesOf(View(), u)
    {
      if f.TargetsFail? { return None; }
      var found := NodesOfUser(u);
      nodes := Some(found);
    }

    method NodesOfUser(u: Id) returns (nodes: seq<Id>)
      ensures Elems(nodes) == P.NodesOf(View(), u)
    {
      nodes := [];
      var todo := set k | k in rows && k.user == u && k.inbound in inbounds;
      ghost var all := todo;
      while todo != {}
        invariant todo <= all && Elems(nodes) == NodesOn(inbounds, all - todo)
        decreases |todo|
      {
        var k :| k in todo;
        NodesOnMore(inbounds, all - todo, k);
        assert all - (todo - {k}) == (all - todo) + {k};
        todo := todo - {k};
        ElemsMore(nodes, inbounds[k.inbound].node);
        nodes := nodes + [inbounds[k.inbound].node];
      }
      assert all - {} == all;
      assert NodesOn(inbounds, all) == P.NodesOf(View(), u);
    }

    /** Distinct existing inbounds among the ids. */
    method ListInboundsByIDs(ids: seq<Id>) returns (found: set<Id>)
      ensures found == Elems(ids) * inbounds.Keys
    {
      found := set i | i in ids && i in inbounds;
    }

    /** The node of each of these inbounds, in some order. */
    method NodesOfFound(found: set<Id>) returns (nodes: seq<Id>)
      requires found <= inbounds.Keys
      ensures Elems(nodes) == P.NodesOfInbounds(View(), found)
    {
      nodes := [];
      var todo := found;
      while todo != {}
        invariant todo <= found && Elems(nodes) == P.NodesOfInbounds(View(), found - todo)
        decreases |todo|
      {
        var i :| i in todo;
        assert found - (todo - {i}) == (found - todo) + {i};
        NodesOfMore(View(), found - todo, i);
        todo := todo - {i};
        ElemsMore(nodes, inbounds[i].node);
        nodes := nodes + [inbounds[i].node];
      }
      assert found - {} == found;
    }

    /** One transaction: the user row, then a pending assignment for each inbound. */
    method CreateUser(id: Id, u: User, found: set<Id>, f: Fault) returns (e: Option<Error>)
      modifies this
      ensures e == None ==> users == old(users)[id := u] && rows == WithPending(old(rows), P.KeysFor(id, found))
      ensures e.Some? ==>
        users == old(users) && rows == old(rows) && e.value == (if f.WriteFails? then Failure else Conflict)
      ensures e == None <==>
        !f.WriteFails? && id !in old(users) && !EmailTaken(old(users), u.email) &&
        !ExternalTaken(old(users), u.externalId)
    {
      if f.WriteFails? { return Some(Failure); }
      if id in users || EmailTaken(users, u.email) || ExternalTaken(users, u.externalId) { return Some(Conflict); }
      var tx := rows;
      var todo := found;
      while todo != {}
        invariant todo <= found && tx == WithPending(rows, P.KeysFor(id, found - todo))
        decreases |todo|
        modifies {}
      {
        var i :| i in todo;
        PendingMore(rows, id, found - todo, i);
        assert found - (todo - {i}) == (found - todo) + {i};
        todo := todo - {i};
        if Key(id, i) !in tx { tx := tx[Key(id, i) := Pending]; }
      }
      assert found - {} == found;
      users, rows := users[id := u], tx;
      e := None;
    }

    /** One transaction: tombstone what is not listed, then insert what is missing; a dangling id rolls it all back. */
    method SetAssignmentsForUser(u: Id, ids: seq<Id>, f: Fault) returns (e: Option<Error>)
      modifies this`rows
      ensures e == None ==> rows == P.ReplacedRows(old(View()), u, Elems(ids))
      ensures e.Some? ==> rows == old(rows) && e.value == (if f.WriteFails? then Failure else Invalid)
      ensures e == None <==> !f.WriteFails? && Elems(ids) <= inbounds.Keys && (ids == [] || u in users)
    {
      if f.WriteFails? { return Some(Failure); }
      var kept := Tombstoned(rows, u, Elems(ids));
      var tx := kept;
      for j := 0 to |ids|
        invariant tx == WithPending(kept, P.KeysFor(u, Elems(ids[..j])))
        invariant Elems(ids[..j]) <= inbounds.Keys && (j == 0 || u in users)
        modifies {}
      {
        assert ids[j] in Elems(ids);
        if u !in users || ids[j] !in inbounds { return Some(Invalid); }
        assert ids[..j + 1] == ids[..j] + [ids[j]];
        ElemsMore(ids[..j], ids[j]);
        PendingMore(kept, u, Elems(ids[..j]), ids[j]);
        if Key(u, ids[j]) !in tx { tx := tx[Key(u, ids[j]) := Pending]; }
      }
      assert ids[..|ids|] == ids;
      ReplaceByStatements(View(), u, Elems(ids));
      rows := tx;
      e := None;
    }

    method SetUserStatus(id: Id, status: UserStatus, f: Fault) returns (e: Option<Error>)
      modifies this`users
      ensures e == None ==> id in old(users) && users == old(users)[id := old(users)[id].(status := status)]
      ensures e.Some? ==> users == old(users) && e.value == (if f.WriteFails? then Failure else NotFound)
      ensures e == None <==> !f.WriteFails? && id in old(users)
    {
      if f.WriteFails? { return Some(Failure); }
      if id !in users { return Some(NotFound); }
      users := users[id := users[id].(status := status)];
      e := None;
    }

    /** Active users whose expiry has come become expired; their ids are returned. */
    method ExpireDueUsers(now: int, f: Fault) returns (ids: set<Id>)
      modifies this`users
      ensures f.WriteFails? ==> ids == {} && users == old(users)
      ensures !f.WriteFails? ==> ids == ExpiryHits(old(users), now) && users == ExpirySwept(old(users), now)
    {
      ids := {};
      if f.WriteFails? { return; }
      ids := set id | id in users && users[id].status == Active && users[id].expiresAt.Some? &&
        users[id].expiresAt.value <= now;
      users := map id | id in users :: if id in ids then users[id].(status := Expired) else users[id];
    }

    method ResetTraffic(id: Id, f: Fault) returns (e: Option<Error>)
      modifies this`users
      ensures e == None ==> id in old(users) && users == old(users)[id := old(users)[id].Emptied()]
      ensures e.Some? ==> users == old(users) && e.value == (if f.ResetFails? then Failure else NotFound)
      ensures e == None <==> !f.ResetFails? && id in old(users)
    {
      if f.ResetFails? { return Some(Failure); }
      if id !in users { return Some(NotFound); }
      users := users[id := users[id].Emptied()];
      e := None;
    }

    /** Writes plan, status, limit, expiry, note and external id; never email or counters. */
    method UpdateUser(id: Id, u: User, f: Fault) returns (e: Option<Error>)
      modifies this`users
      ensures e == None ==> id in old(users) && users == old(users)[id := old(users)[id].Overwritten(u)]
      ensures e.Some? ==> users == old(users)
      ensures e.Some? ==> e.value == (if f.WriteFails? then Failure else if id in old(users) then Invalid else NotFound)
      ensures e == None <==> !f.WriteFails? && id in old(users) && (u.planId.Some? ==> u.planId.value in plans)
    {
      if f.WriteFails? { return Some(Failure); }
      if id !in users { return Some(NotFound); }
      if u.planId.Some? && u.planId.value !in plans { return Some(Invalid); }
      users := users[id := users[id].Overwritten(u)];
      e := None;
    }
  }

  class UserService {
    const store: Store
    const mgr: Manager

    constructor (store: Store, mgr: Manager)
      ensures this.store == store && this.mgr == mgr
    {
      this.store, this.mgr := store, mgr;
    }

    /**
     What a lifecycle request promises about triggers: on success each of the user's nodes once, if they can be
     looked up.
     */
    twostate predicate WokeUser(id: Id, new r: Result<User>, f: Fault)
      reads store, mgr
    {
      if r.Ok? && !f.TargetsFail? then Wakes(old(mgr.sent), mgr.sent, P.NodesOf(store.View(), id))
      else mgr.sent == old(mgr.sent)
    }

    method ReconcileForUser(id: Id, f: Fault)
      modifies mgr
      ensures !f.TargetsFail? ==> Wakes(old(mgr.sent), mgr.sent, P.NodesOf(store.View(), id))
      ensures f.TargetsFail? ==> mgr.sent == old(mgr.sent)
    {
      var targets := store.AssignmentTargetsForUser(id, f);
      if targets.None? { return; }
      mgr.ReconcileNodes(targets.value);
    }

    /** Creation; `id` is the freshly drawn identifier. */
    method Create(id: Id, c: CreateInput, now: int, f: Fault) returns (r: Result<User>)
      requires store.PlansExist()
      modifies store, mgr
      ensures Made(store.users, store.rows, r) == Created(old(store.users), old(store.rows), store.inbounds,
        store.plans, id, c, now, f)
      ensures WokeUser(id, r, f) && store.PlansExist()
    {
      if Blank(c.email) { return Err(Invalid); }
      if c.inboundIds == [] { return Err(Invalid); }
      if f.ReadFails? { return Err(Failure); }
      var limit, expires := c.dataLimit, c.expiresAt;
      if c.planId.Some? {
        if c.planId.value !in store.plans { return Err(NotFound); }
        var plan := store.plans[c.planId.value];
        if limit.None? { limit := plan.dataLimit; }
        if expires.None? && plan.durationDays.Some? { expires := Some(now + plan.durationDays.value * DAY); }
      }
      r := CreateWith(id, User(c.email, c.planId, Active, limit, 0, 0, expires, c.externalId, c.note), c.inboundIds, f);
    }

    /** The existence check on the inbounds, the transaction and the triggers. */
    method CreateWith(id: Id, u: User, ids: seq<Id>, f: Fault) returns (r: Result<User>)
      requires store.PlansExist() && (u.planId.Some? ==> u.planId.value in store.plans)
      modifies store, mgr
      ensures Made(store.users, store.rows, r) ==
        if !(Elems(ids) <= store.inbounds.Keys) then Made(old(store.users), old(store.rows), Err(Invalid))
        else if f.WriteFails? then Made(old(store.users), old(store.rows), Err(Failure))
        else if id in old(store.users) || EmailTaken(old(store.users), u.email) ||
          ExternalTaken(old(store.users), u.externalId)
        then Made(old(store.users), old(store.rows), Err(Conflict))
        else Made(old(store.users)[id := u], WithPending(old(store.rows), P.KeysFor(id, Elems(ids))), Ok(u))
      ensures WokeUser(id, r, f) && store.PlansExist()
    {
      var found := store.ListInboundsByIDs(ids);
      var distinct := Dedup(ids);
      CountDecidesExistence(ids, store.inbounds.Keys);
      if |found| != |distinct| { return Err(Invalid); }
      assert found == Elems(ids);
      var e := store.CreateUser(id, u, found, f);
      if e.Some? { return Err(e.value); }
      ReconcileForUser(id, f);
      r := Ok(store.users[id]);
    }

    /** Replaces the user's assignments; if the old targets cannot be read the request goes on without them. */
    method SetInbounds(id: Id, ids: seq<Id>, f: Fault) returns (r: Result<User>)
      modifies store`rows, mgr
      ensures r.Ok? <==> !f.ReadFails? && id in store.users && Elems(ids) <= store.inbounds.Keys && !f.WriteFails?
      ensures r.Ok? ==> store.rows == P.ReplacedRows(old(store.View()), id, Elems(ids)) && r.value == store.users[id]
      ensures r.Ok? ==> Wakes(old(mgr.sent), mgr.sent,
        (if f.TargetsFail? then {} else P.NodesOf(old(store.View()), id)) +
          P.NodesOfInbounds(old(store.View()), Elems(ids)))
      ensures r.Err? ==> store.rows == old(store.rows) && mgr.sent == old(mgr.sent)
      ensures r.Err? && !f.ReadFails? && id !in store.users ==> r.error == NotFound
      ensures r.Err? && !f.ReadFails? && id in store.users && !(Elems(ids) <= store.inbounds.Keys) ==>
        r.error == Invalid
      ensures r.Err? && (f.ReadFails? || (id in store.users && Elems(ids) <= store.inbounds.Keys)) ==>
        r.error == Failure
    {
      if f.ReadFails? { return Err(Failure); }
      if id !in store.users { return Err(NotFound); }
      var found := store.ListInboundsByIDs(ids);
      var distinct := Dedup(ids);
      CountDecidesExistence(ids, store.inbounds.Keys);
      if |found| != |distinct| { return Err(Invalid); }
      r := ReplaceAndWake(id, ids, found, f);
    }

    method ReplaceAndWake(id: Id, ids: seq<Id>, found: set<Id>, f: Fault) returns (r: Result<User>)
      requires id in store.users && found == Elems(ids) && found <= store.inbounds.Keys
      modifies store`rows, mgr
      ensures r == if f.WriteFails? then Err(Failure) else Ok(store.users[id])
      ensures r.Ok? ==> store.rows == P.ReplacedRows(old(store.View()), id, found)
      ensures r.Ok? ==> Wakes(old(mgr.sent), mgr.sent,
        (if f.TargetsFail? then {} else P.NodesOf(old(store.View()), id)) + P.NodesOfInbounds(old(store.View()), found))
      ensures r.Err? ==> store.rows == old(store.rows) && mgr.sent == old(mgr.sent)
    {
      var newTargets := store.NodesOfFound(found);
      var targets := store.AssignmentTargetsForUser(id, f);
      var oldTargets := if targets.Some? then targets.value else [];
      var e := store.SetAssignmentsForUser(id, ids, f);
      if e.Some? { return Err(e.value); }
      ElemsConcat(oldTargets, newTargets);
      mgr.ReconcileNodes(oldTargets + newTargets);
      r := Ok(store.users[id]);
    }

    method SetStatusAndReconcile(id: Id, status: UserStatus, f: Fault) returns (r: Result<User>)
      modifies store`users, mgr
      ensures Done(store.users, r) == SetStatus(old(store.users), id, status, f) && WokeUser(id, r, f)
    {
      var e := store.SetUserStatus(id, status, f);
      if e.Some? { return Err(e.value); }
      ReconcileForUser(id, f);
      r := Ok(store.users[id]);
    }

    method Suspend(id: Id, f: Fault) returns (r: Result<User>)
      modifies store`users, mgr
      ensures Done(store.users, r) == Lifecycle.Suspend(old(store.users), id, f) && WokeUser(id, r, f)
    {
      r := SetStatusAndReconcile(id, Disabled, f);
    }

    method Resume(id: Id, now: int, f: Fault) returns (r: Result<User>)
      modifies store`users, mgr
      ensures Done(store.users, r) == Lifecycle.Resume(old(store.users), id, now, f) && WokeUser(id, r, f)
    {
      if f.ReadFails? { return Err(Failure); }
      if id !in store.users { return Err(NotFound); }
      var u := store.users[id];
      if u.OverQuota() { return Err(Invalid); }
      if u.expiresAt.Some? && !(u.expiresAt.value > now) { return Err(Invalid); }
      r := SetStatusAndReconcile(id, Active, f);
    }

    method ResetTraffic(id: Id, now: int, f: Fault) returns (r: Result<User>)
      modifies store`users, mgr
      ensures Done(store.users, r) == Lifecycle.ResetTraffic(old(store.users), id, now, f) && WokeUser(id, r, f)
    {
      if f.ReadFails? { return Err(Failure); }
      if id !in store.users { return Err(NotFound); }
      var u := store.users[id];
      var e := store.ResetTraffic(id, f);
      if e.Some? { return Err(e.value); }
      if u.status == UserStatus.Suspended && (u.expiresAt.None? || u.expiresAt.value > now) {
        e := store.SetUserStatus(id, Active, f);
        if e.Some? { return Err(e.value); }
      }
      ReconcileForUser(id, f);
      r := Ok(store.users[id]);
    }

    /** Stores the edited record and wakes the user's nodes. */
    method Save(id: Id, u: User, f: Fault) returns (r: Result<User>)
      requires id in store.users
      modifies store`users, mgr
      ensures WokeUser(id, r, f) && (old(store.PlansExist()) ==> store.PlansExist())
      ensures Done(store.users, r) ==
        if f.WriteFails? then Done(old(store.users), Err(Failure))
        else if u.planId.Some? && u.planId.value !in store.plans then Done(old(store.users), Err(Invalid))
        else var v := old(store.users)[id].Overwritten(u); Done(old(store.users)[id := v], Ok(v))
    {
      var e := store.UpdateUser(id, u, f);
      if e.Some? { return Err(e.value); }
      ReconcileForUser(id, f);
      r := Ok(store.users[id]);
    }

    /** Writes the whole record back for the sake of the token, which is not modelled; nobody is woken. */
    method RotateSubToken(id: Id, f: Fault) returns (r: Result<User>)
      requires store.PlansExist()
      modifies store`users
      ensures store.users == old(store.users)
      ensures r == if f.ReadFails? then Err(Failure) else if id !in store.users then Err(NotFound)
                   else if f.WriteFails? then Err(Failure) else Ok(store.users[id])
    {
      if f.ReadFails? { return Err(Failure); }
      if id !in store.users { return Err(NotFound); }
      var u := store.users[id];
      var e := store.UpdateUser(id, u, f);
      if e.Some? { return Err(e.value); }
      r := Ok(store.users[id]);
    }

    method RenewWith(id: Id, input: RenewInput, limit: Option<int>, now: int, f: Fault) returns (r: Result<User>)
      requires id in store.users && store.PlansExist() && (input.planId.Some? ==> input.planId.value in store.plans)
      modifies store`users, mgr
      ensures Done(store.users, r) == Lifecycle.RenewWith(old(store.users), id, input, limit, now, f)
      ensures WokeUser(id, r, f)
      ensures store.PlansExist()
    {
      var u := Prolong(store.users[id], input, limit, now);
      if input.resetTraffic {
        var e := store.ResetTraffic(id, f);
        if e.Some? { return Err(e.value); }
        u := u.Emptied();
      }
      u := Reactivate(u, now);
      assert u == RenewedUser(old(store.users)[id], input, limit, now);
      assert store.users == if input.resetTraffic then old(store.users)[id := old(store.users)[id].Emptied()]
        else old(store.users);
      r := Save(id, u, f);
      assert r.Ok? ==> store.users == old(store.users)[id := u];
    }

    method Renew(id: Id, input: RenewInput, now: int, f: Fault) returns (r: Result<User>)
      requires store.PlansExist()
      modifies store`users, mgr
      ensures Done(store.users, r) == Lifecycle.Renew(old(store.users), store.plans, id, input, now, f)
      ensures WokeUser(id, r, f)
      ensures store.PlansExist()
    {
      if input.days <= 0 && !input.resetTraffic && input.planId.None? { return Err(Invalid); }
      if f.ReadFails? { return Err(Failure); }
      if id !in store.users { return Err(NotFound); }
      var limit := None;
      if input.planId.Some? {
        if input.planId.value !in store.plans { return Err(NotFound); }
        limit := store.plans[input.planId.value].dataLimit;
      }
      r := RenewWith(id, input, limit, now, f);
    }

    method Update(id: Id, p: UpdateInput, now: int, f: Fault) returns (r: Result<User>)
      modifies store`users, mgr
      ensures Done(store.users, r) == Lifecycle.Update(old(store.users), store.plans, id, p, now, f)
      ensures WokeUser(id, r, f)
      ensures old(store.PlansExist()) ==> store.PlansExist()
    {
      if f.ReadFails? { return Err(Failure); }
      if id !in store.users { return Err(NotFound); }
      var u := Patched(store.users[id], p, now);
      r := Save(id, u, f);
    }
  }

  /** The nodes that carry an assignment of any of these users. */
  function NodesOfAll(s: P.State, us: set<Id>): set<Id> {
    set k | k in s.rows && k.user in us && k.inbound in s.inbounds :: s.inbounds[k.inbound].node
  }

  lemma NodesOfAllMore(s: P.State, us: set<Id>, u: Id)
    ensures NodesOfAll(s, us + {u}) == NodesOfAll(s, us) + P.NodesOf(s, u)
  {
  }

  lemma WakesMore(s0: seq<Id>, s1: seq<Id>, s2: seq<Id>, ns: set<Id>)
    requires s0 <= s1 && Wakes(s1, s2, ns)
    ensures s0 <= s2 && Elems(s2[|s0|..]) == Elems(s1[|s0|..]) + ns
  {
    assert s2[|s0|..] == s1[|s0|..] + s2[|s1|..];
    ElemsConcat(s1[|s0|..], s2[|s1|..]);
  }

  /**
   After a sweep: wakes the nodes of each user it took out of service, and no other node; `failing` are the users whose
   nodes cannot be looked up.
   */
  method WakeUsers(service: UserService, ids: set<Id>, failing: set<Id>)
    modifies service.mgr
    ensures old(service.mgr.sent) <= service.mgr.sent
    ensures Elems(service.mgr.sent[|old(service.mgr.sent)|..]) == NodesOfAll(service.store.View(), ids - failing)
  {
    var todo := ids;
    while todo != {}
      invariant todo <= ids && old(service.mgr.sent) <= service.mgr.sent
      invariant Elems(service.mgr.sent[|old(service.mgr.sent)|..]) ==
        NodesOfAll(service.store.View(), ids - todo - failing)
      decreases |todo|
    {
      var u :| u in todo;
      ghost var before := service.mgr.sent;
      service.ReconcileForUser(u, if u in failing then TargetsFail else NoFault);
      if u !in failing {
        WakesMore(old(service.mgr.sent), before, service.mgr.sent, P.NodesOf(service.store.View(), u));
        NodesOfAllMore(service.store.View(), ids - todo - failing, u);
        assert ids - (todo - {u}) - failing == (ids - todo - failing) + {u};
      } else {
        assert ids - (todo - {u}) - failing == ids - todo - failing;
      }
      todo := todo - {u};
    }
    assert ids - {} - failing == ids - failing;
  }

  /** One tick of the expiry sweeper: expire what is due, then wake. */
  method SweepExpired(service: UserService, now: int, f: Fault, failing: set<Id>) returns (ids: set<Id>)
    modifies service.store`users, service.mgr
    ensures f.WriteFails? ==> ids == {} && service.store.users == old(service.store.users)
    ensures !f.WriteFails? ==> ids == ExpiryHits(old(service.store.users), now)
    ensures !f.WriteFails? ==> service.store.users == ExpirySwept(old(service.store.users), now)
    ensures old(service.mgr.sent) <= service.mgr.sent
    ensures Elems(service.mgr.sent[|old(service.mgr.sent)|..]) == NodesOfAll(service.store.View(), ids - failing)
  {
    ids := service.store.ExpireDueUsers(now, f);
    WakeUsers(service, ids, failing);
  }

  method Prolong(u: User, r: RenewInput, limit: Option<int>, now: int) returns (v: User)
    ensures v == Prolonged(u, r, limit, now) && v.email == u.email && v.usedUp == u.usedUp && v.usedDown == u.usedDown
  {
    v := u;
    if r.planId.Some? { v := v.(planId := r.planId, dataLimit := limit); }
    if r.days > 0 {
      var base := now;
      if v.expiresAt.Some? && v.expiresAt.value > base { base := v.expiresAt.value; }
      v := v.(expiresAt := Some(base + r.days * DAY));
    }
  }

  method Reactivate(u: User, now: int) returns (v: User)
    ensures v == Reactivated(u, now) && v == u.(status := v.status)
  {
    v := u;
    if u.status != Disabled && !u.OverQuota() && (u.expiresAt.None? || u.expiresAt.value > now) {
      v := v.(status := Active);
    }
  }

  /** The record an update writes: fields the request leaves out stay as they are. */
  method Patched(u: User, p: UpdateInput, now: int) returns (v: User)
    ensures v == UpdatedUser(u, p, now)
    ensures v.email == u.email && v.usedUp == u.usedUp && v.usedDown == u.usedDown
  {
    v := u;
    v := if p.planId.Some? then v.(planId := p.planId) else v;
    v := if p.dataLimit.Some? then v.(dataLimit := p.dataLimit) else v;
    v := if p.clearExpiry then v.(expiresAt := None) else if p.expiresAt.Some? then v.(expiresAt := p.expiresAt) else v;
    v := if p.note.Some? then v.(note := p.note.value) else v;
    v := if p.status.Some? then v.(status := p.status.value) else v;
    if v.status == Expired && v.expiresAt.Some? && v.expiresAt.value > now { v := v.(status := Active); }
  }
}
