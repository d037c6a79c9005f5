/** Billing webhooks: validation, the record of processed event ids, and the five actions. */
module Billing {
  import opened Domain
  import opened Sweeps
  import opened UserService
  import opened ServiceSteps
  import L = Lifecycle
  import P = Protocol

  datatype Verb = Provision | Renew | Suspend | Resume | Cancel | Unknown(word: string)

  datatype ProvisionPayload = ProvisionPayload(
    email: string, planId: Option<Id>, inboundIds: seq<Id>, dataLimit: Option<int>, expiresAt: Option<int>,
    note: string)

  datatype BillingEvent = BillingEvent(
    eventId: string, verb: Verb, externalId: string, email: string, provision: Option<ProvisionPayload>,
    renew: Option<L.RenewInput>)

  /**
   One POST: the decoded body (None if it is no JSON), the clock, the identifier drawn for a new user, and what
   fails.
   */
  datatype Delivery = Delivery(body: Option<BillingEvent>, now: int, newId: Id, recordFails: bool, fault: L.Fault)

  datatype Answer = Answer(duplicate: bool, verb: Verb, user: Option<User>)

  datatype Db = Db(users: Users, rows: map<Key, SyncStatus>, events: set<string>)

  /** Inbounds and plans, which no webhook writes. */
  datatype Catalog = Catalog(inbounds: map<Id, Inbound>, plans: L.Plans)

  /** The database afterwards, the answer, and the user whose nodes are woken. */
  datatype Outcome = Outcome(db: Db, result: Result<Option<User>>, woken: Option<Id>)

  datatype Reply = Reply(db: Db, result: Result<Answer>, woken: Option<Id>)

  // ---------------------------------------------------------------- specification

  /** UNIQUE (email) and UNIQUE (external_id). */
  ghost predicate UniqueRefs(us: Users) {
    && UniqueEmails(us)
    && (forall a, b :: a in us && b in us && us[a].externalId.Some? && us[a].externalId == us[b].externalId ==> a == b)
  }

  ghost function ByExternal(us: Users, x: string): (r: Option<Id>)
    ensures r.Some? ==> r.value in us && us[r.value].externalId == Some(x)
    ensures r.None? ==> forall id :: id in us ==> us[id].externalId != Some(x)
  {
    if id :| id in us && us[id].externalId == Some(x) then Some(id) else None
  }

  ghost function ByEmail(us: Users, email: string): (r: Option<Id>)
    ensures r.Some? ==> r.value in us && us[r.value].email == email
    ensures r.None? ==> forall id :: id in us ==> us[id].email != email
  {
    if id :| id in us && us[id].email == email then Some(id) else None
  }

  function FoundOr(r: Option<Id>): Result<Id> { if r.Some? then Ok(r.value) else Err(NotFound) }

  /** The event addresses this user: by reference, or by email if it gives no reference. */
  predicate Names(u: User, ev: BillingEvent) {
    if ev.externalId != "" then u.externalId == Some(ev.externalId) else ev.email != "" && u.email == ev.email
  }

  /** The external reference wins; the email is consulted only when there is none. */
  ghost function Resolve(us: Users, ev: BillingEvent, f: L.Fault): Result<Id> {
    if ev.externalId == "" && ev.email == "" then Err(Invalid)
    else if f.ReadFails? then Err(Failure)
    else if ev.externalId != "" then FoundOr(ByExternal(us, ev.externalId))
    else FoundOr(ByEmail(us, ev.email))
  }

  function Input(p: ProvisionPayload, x: string): CreateInput {
    CreateInput(p.email, p.planId, p.inboundIds, p.dataLimit, p.expiresAt, p.note, Some(x))
  }

  function Refuse(db: Db, e: Error): Outcome { Outcome(db, Err(e), None) }

  function FromDone(db: Db, id: Id, d: L.Done): Outcome {
    if d.result.Ok? then Outcome(db.(users := d.users), Ok(Some(d.result.value)), Some(id))
    else Outcome(db.(users := d.users), Err(d.result.error), None)
  }

  ghost function Provisioned(c: Catalog, db: Db, ev: BillingEvent, d: Delivery): Outcome {
    if ev.provision.None? || ev.externalId == "" then Refuse(db, Invalid)
    else if d.fault.ReadFails? then Refuse(db, Failure)
    else
      var known := ByExternal(db.users, ev.externalId);
      if known.Some? then Outcome(db, Ok(Some(db.users[known.value])), None)
      else
        var m := Created(db.users, db.rows, c.inbounds, c.plans, d.newId, Input(ev.provision.value, ev.externalId),
          d.now, d.fault);
        if m.result.Ok? then Outcome(Db(m.users, m.rows, db.events), Ok(Some(m.result.value)), Some(d.newId))
        else Refuse(db, m.result.error)
  }

  /** The lifecycle operation behind each action on an existing user. */
  function OnUser(c: Catalog, us: Users, id: Id, ev: BillingEvent, d: Delivery): L.Done
    requires ev.verb.Renew? ==> ev.renew.Some?
  {
    match ev.verb
    case Renew => L.Renew(us, c.plans, id, ev.renew.value, d.now, d.fault)
    case Resume => L.Resume(us, id, d.now, d.fault)
    case _ => L.Suspend(us, id, d.fault)
  }

  ghost function Executed(c: Catalog, db: Db, ev: BillingEvent, d: Delivery): Outcome {
    if ev.verb.Provision? then Provisioned(c, db, ev, d)
    else if ev.verb.Renew? && ev.renew.None? then Refuse(db, Invalid)
    else
      match Resolve(db.users, ev, d.fault)
      case Err(e) => Refuse(db, e)
      case Ok(id) =>
        var o := FromDone(db, id, OnUser(c, db.users, id, ev, d));
        if ev.verb.Cancel? && o.result.Ok? then o.(result := Ok(None)) else o
  }

  predicate WellFormed(b: Option<BillingEvent>) { b.Some? && b.value.eventId != "" && !b.value.verb.Unknown? }

  /** Reaches the table of event ids. */
  predicate Accepted(d: Delivery) { WellFormed(d.body) && !d.recordFails }

  ghost function Processed(c: Catalog, db: Db, d: Delivery): Reply {
    if !WellFormed(d.body) then Reply(db, Err(Invalid), None)
    else if d.recordFails then Reply(db, Err(Failure), None)
    else
      var ev := d.body.value;
      if ev.eventId in db.events then Reply(db, Ok(Answer(true, ev.verb, None)), None)
      else
        var o := Executed(c, db.(events := db.events + {ev.eventId}), ev, d);
        Reply(o.db, if o.result.Ok? then Ok(Answer(false, ev.verb, o.result.value)) else Err(o.result.error), o.woken)
  }

  // ---------------------------------------------------------------- uniqueness

  lemma CreatedKeepsUnique(db: Db, c: Catalog, id: Id, input: CreateInput, now: int, f: L.Fault)
    requires UniqueRefs(db.users)
    ensures UniqueRefs(Created(db.users, db.rows, c.inbounds, c.plans, id, input, now, f).users)
  {
  }

  lemma EditKeepsUnique(us: Users, plans: L.Plans, m: L.Moment)
    requires UniqueRefs(us)
    ensures UniqueRefs(L.Next(us, plans, m))
  {
    EveryMomentTame(us, plans, m);
  }

  lemma OnUserKeepsUnique(c: Catalog, us: Users, id: Id, ev: BillingEvent, d: Delivery)
    requires UniqueRefs(us) && (ev.verb.Renew? ==> ev.renew.Some?)
    ensures UniqueRefs(OnUser(c, us, id, ev, d).users)
  {
    match ev.verb
    case Renew => EditKeepsUnique(us, c.plans, L.Moment(L.DoRenew(id, ev.renew.value), d.now, d.fault));
    case Resume => EditKeepsUnique(us, c.plans, L.Moment(L.DoResume(id), d.now, d.fault));
    case _ => EditKeepsUnique(us, c.plans, L.Moment(L.DoSuspend(id), d.now, d.fault));
  }

  lemma ProcessKeepsUnique(c: Catalog, db: Db, d: Delivery)
    requires UniqueRefs(db.users)
    ensures UniqueRefs(Processed(c, db, d).db.users)
  {
    if Accepted(d) && d.body.value.eventId !in db.events {
      var ev := d.body.value;
      var db' := db.(events := db.events + {ev.eventId});
      if ev.verb.Provision? {
        if ev.provision.Some? {
          CreatedKeepsUnique(db', c, d.newId, Input(ev.provision.value, ev.externalId), d.now, d.fault);
        }
      } else if !(ev.verb.Renew? && ev.renew.None?) && Resolve(db.users, ev, d.fault).Ok? {
        OnUserKeepsUnique(c, db.users, Resolve(db.users, ev, d.fault).value, ev, d);
      }
    }
  }

  // ---------------------------------------------------------------- the service

  lemma ByExternalIs(us: Users, x: string, id: Id)
    requires UniqueRefs(us) && id in us && us[id].externalId == Some(x)
    ensures ByExternal(us, x) == Some(id)
  {
  }

  lemma ByEmailIs(us: Users, email: string, id: Id)
    requires UniqueRefs(us) && id in us && us[id].email == email
    ensures ByEmail(us, email) == Some(id)
  {
  }

  /** Resolving answers the one user the event names, if there is one. */
  lemma ResolvesNamed(us: Users, ev: BillingEvent, f: L.Fault, id: Id)
    requires UniqueRefs(us)
    ensures Resolve(us, ev, f) == Ok(id) <==> !f.ReadFails? && id in us && Names(us[id], ev)
    ensures Resolve(us, ev, f) == Err(Invalid) <==> ev.externalId == "" && ev.email == ""
    ensures Resolve(us, ev, f) == Err(NotFound) <==>
      !f.ReadFails? && (ev.externalId != "" || ev.email != "") && forall u :: u in us ==> !Names(us[u], ev)
  {
    if id in us && Names(us[id], ev) {
      if ev.externalId != "" { ByExternalIs(us, ev.externalId, id); } else { ByEmailIs(us, ev.email, id); }
    }
  }

  class EventTable {
    var ids: set<string>

    constructor ()
      ensures ids == {}
    {
      ids := {};
    }

    /** INSERT ... ON CONFLICT DO NOTHING; true if the row is new. */
    method RecordWebhookEvent(id: string) returns (isNew: bool)
      modifies this
      ensures ids == old(ids) + {id} && (isNew <==> id !in old(ids))
    {
      isNew := id !in ids;
      ids := ids + {id};
    }
  }

  class BillingService {
    const users: UserService
    const events: EventTable

    constructor (users: UserService, events: EventTable)
      ensures this.users == users && this.events == events
    {
      this.users, this.events := users, events;
    }

    ghost predicate Valid()
      reads users.store
    {
      UniqueRefs(users.store.users) && users.store.PlansExist()
    }

    ghost function State(): Db
      reads users.store, events
    {
      Db(users.store.users, users.store.rows, events.ids)
    }

    ghost function Setting(): Catalog { Catalog(users.store.inbounds, users.store.plans) }

    /** Exactly the nodes of the woken user are triggered, each once, if they can be looked up. */
    twostate predicate Woke(woken: Option<Id>, f: L.Fault)
      reads users.store, users.mgr
    {
      if woken.Some? && !f.TargetsFail? then
        Wakes(old(users.mgr.sent), users.mgr.sent, P.NodesOf(users.store.View(), woken.value))
      else users.mgr.sent == old(users.mgr.sent)
    }

    method ResolveUser(ev: BillingEvent, f: L.Fault) returns (r: Result<Id>)
      requires Valid()
      ensures r == Resolve(users.store.users, ev, f)
    {
      if ev.externalId != "" {
        if f.ReadFails? { return Err(Failure); }
        if id :| id in users.store.users && users.store.users[id].externalId == Some(ev.externalId) {
          ByExternalIs(users.store.users, ev.externalId, id);
          return Ok(id);
        }
        return Err(NotFound);
      }
      if ev.email != "" {
        if f.ReadFails? { return Err(Failure); }
        if id :| id in users.store.users && users.store.users[id].email == ev.email {
          ByEmailIs(users.store.users, ev.email, id);
          return Ok(id);
        }
        return Err(NotFound);
      }
      r := Err(Invalid);
    }

    method ProvisionUser(ev: BillingEvent, d: Delivery) returns (r: Result<User>, ghost woken: Option<Id>)
      requires Valid()
      modifies users.store, users.mgr
      ensures users.store.PlansExist()
      ensures Outcome(State(), if r.Ok? then Ok(Some(r.value)) else Err(r.error), woken) ==
        Provisioned(Setting(), old(State()), ev, d)
      ensures Woke(woken, d.fault)
    {
      woken := None;
      if ev.provision.None? { return Err(Invalid), None; }
      if ev.externalId == "" { return Err(Invalid), None; }
      if d.fault.ReadFails? { return Err(Failure), None; }
      if id :| id in users.store.users && users.store.users[id].externalId == Some(ev.externalId) {
        ByExternalIs(users.store.users, ev.externalId, id);
        return Ok(users.store.users[id]), None;
      }
      r := users.Create(d.newId, Input(ev.provision.value, ev.externalId), d.now, d.fault);
      if r.Ok? { woken := Some(d.newId); }
    }

    /** renew, suspend, resume and cancel once the user is found. */
    method RunOn(id: Id, ev: BillingEvent, d: Delivery) returns (r: Result<User>)
      requires Valid() && (ev.verb.Renew? ==> ev.renew.Some?)
      modifies users.store`users, users.mgr
      ensures users.store.PlansExist()
      ensures L.Done(users.store.users, r) == OnUser(Setting(), old(users.store.users), id, ev, d)
      ensures users.WokeUser(id, r, d.fault)
    {
      match ev.verb
      case Renew => r := users.Renew(id, ev.renew.value, d.now, d.fault);
      case Resume => r := users.Resume(id, d.now, d.fault);
      case _ => r := users.Suspend(id, d.fault);
    }

    method Execute(ev: BillingEvent, d: Delivery) returns (r: Result<Option<User>>, ghost woken: Option<Id>)
      requires Valid()
      modifies users.store, users.mgr
      ensures Outcome(State(), r, woken) == Executed(Setting(), old(State()), ev, d)
      ensures users.store.PlansExist() && Woke(woken, d.fault)
    {
      if ev.verb.Provision? {
        var u: Result<User>;
        u, woken := ProvisionUser(ev, d);
        r := if u.Ok? then Ok(Some(u.value)) else Err(u.error);
        return;
      }
      woken := None;
      if ev.verb.Renew? && ev.renew.None? { return Err(Invalid), None; }
      var found := ResolveUser(ev, d.fault);
      if found.Err? { return Err(found.error), None; }
      var u := RunOn(found.value, ev, d);
      if u.Err? { return Err(u.error), None; }
      woken := Some(found.value);
      r := Ok(if ev.verb.Cancel? then None else Some(u.value));
    }

    method Process(d: Delivery) returns (r: Result<Answer>, ghost woken: Option<Id>)
      requires Valid()
      modifies users.store, users.mgr, events
      ensures Reply(State(), r, woken) == Processed(Setting(), old(State()), d)
      ensures Valid() && Woke(woken, d.fault)
    {
      ProcessKeepsUnique(Setting(), State(), d);
      if d.body.None? { return Err(Invalid), None; }
      var ev := d.body.value;
      if ev.eventId == "" { return Err(Invalid), None; }
      if ev.verb.Unknown? { return Err(Invalid), None; }
      if d.recordFails { return Err(Failure), None; }
      var isNew := events.RecordWebhookEvent(ev.eventId);
      if !isNew {
        assert State() == old(State());
        return Ok(Answer(true, ev.verb, None)), None;
      }
      var o: Result<Option<User>>;
      o, woken := Execute(ev, d);
      r := if o.Ok? then Ok(Answer(false, ev.verb, o.value)) else Err(o.error);
    }
  }
}
