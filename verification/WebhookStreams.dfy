/**
 Webhook deliveries mixed with API requests, sweeps, metering, deletions and any changes to assignments: what holds
 over every such stream.
 */
module WebhookStreams {
  import opened Domain
  import opened Sweeps
  import opened UserService
  import opened ServiceSteps
  import opened Billing
  import opened Seqs
  import opened Requests
  import L = Lifecycle
  import P = Protocol

  datatype Happening =
    | Webhook(delivery: Delivery)
    | Edit(moment: L.Moment)
    | ApiCreate(id: Id, input: CreateInput, now: int, fault: L.Fault)
    | Deleted(id: Id)
    | Reassigned(rows: map<Key, SyncStatus>)   // a replacement of assignments, or a pass deleting and marking rows

  function Creation(c: Catalog, db: Db, id: Id, input: CreateInput, now: int, f: L.Fault): Db {
    var m := Created(db.users, db.rows, c.inbounds, c.plans, id, input, now, f);
    Db(m.users, m.rows, db.events)
  }

  ghost function Step(c: Catalog, db: Db, h: Happening): Db {
    match h
    case Webhook(d) => Processed(c, db, d).db
    case Edit(m) => db.(users := L.Next(db.users, c.plans, m))
    case ApiCreate(id, input, now, f) => Creation(c, db, id, input, now, f)
    case Reassigned(rows) => db.(rows := rows)
    case Deleted(id) => db.(users := db.users - {id}, rows := map k | k in db.rows && k.user != id :: db.rows[k])
  }

  ghost function Run(c: Catalog, db: Db, hs: seq<Happening>): Db
    decreases |hs|
  {
    if hs == [] then db else Step(c, Run(c, db, hs[..|hs| - 1]), hs[|hs| - 1])
  }

  lemma RunMore(c: Catalog, db: Db, hs: seq<Happening>, h: Happening)
    ensures Run(c, db, hs + [h]) == Step(c, Run(c, db, hs), h)
  {
    assert (hs + [h])[..|hs|] == hs;
  }

  // ---------------------------------------------------------------- a webhook is at most one request

  /** The API request a delivery amounts to, if it changes users at all. */
  ghost function Request(c: Catalog, db: Db, d: Delivery): Option<Happening> {
    if !Accepted(d) || d.body.value.eventId in db.events then None
    else
      var ev := d.body.value;
      if ev.verb.Provision? then
        if ev.provision.None? || ev.externalId == "" || d.fault.ReadFails? ||
          ByExternal(db.users, ev.externalId).Some? then None
        else Some(ApiCreate(d.newId, Input(ev.provision.value, ev.externalId), d.now, d.fault))
      else if ev.verb.Renew? && ev.renew.None? then None
      else
        match Resolve(db.users, ev, d.fault)
        case Err(_) => None
        case Ok(id) =>
          Some(Edit(L.Moment(if ev.verb.Renew? then L.DoRenew(id, ev.renew.value)
            else if ev.verb.Resume? then L.DoResume(id) else L.DoSuspend(id), d.now, d.fault)))
  }

  function Recorded(events: set<string>, d: Delivery): set<string> {
    if Accepted(d) then events + {d.body.value.eventId} else events
  }

  lemma ProvisionIsRequest(c: Catalog, db: Db, d: Delivery)
    requires Accepted(d) && d.body.value.eventId !in db.events && d.body.value.verb.Provision?
    ensures Processed(c, db, d).db ==
      (if Request(c, db, d).Some? then Step(c, db, Request(c, db, d).value) else db).(events := Recorded(db.events, d))
  {
  }

  lemma ActionIsRequest(c: Catalog, db: Db, d: Delivery)
    requires Accepted(d) && d.body.value.eventId !in db.events && !d.body.value.verb.Provision?
    ensures Processed(c, db, d).db ==
      (if Request(c, db, d).Some? then Step(c, db, Request(c, db, d).value) else db).(events := Recorded(db.events, d))
  {
  }

  /** Apart from recording its id, a delivery does what one API request does, or nothing. */
  lemma WebhookIsRequest(c: Catalog, db: Db, d: Delivery)
    ensures Processed(c, db, d).db ==
      (if Request(c, db, d).Some? then Step(c, db, Request(c, db, d).value) else db).(events := Recorded(db.events, d))
  {
    if Accepted(d) {
      if d.body.value.eventId in db.events {
        assert Recorded(db.events, d) == db.events;
      } else if d.body.value.verb.Provision? {
        ProvisionIsRequest(c, db, d);
      } else {
        ActionIsRequest(c, db, d);
      }
    }
  }

  // ---------------------------------------------------------------- replays

  /** Event ids on record after the stream. */
  function Seen(events: set<string>, hs: seq<Happening>): set<string> {
    if hs == [] then events
    else
      var before, h := Seen(events, hs[..|hs| - 1]), hs[|hs| - 1];
      if h.Webhook? then Recorded(before, h.delivery) else before
  }

  predicate Repeats(seen: set<string>, h: Happening) {
    h.Webhook? && WellFormed(h.delivery.body) && h.delivery.body.value.eventId in seen
  }

  /** The stream with every repeated delivery struck out. */
  function FirstOnly(events: set<string>, hs: seq<Happening>): seq<Happening> {
    if hs == [] then []
    else
      var before, h := hs[..|hs| - 1], hs[|hs| - 1];
      if Repeats(Seen(events, before), h) then FirstOnly(events, before) else FirstOnly(events, before) + [h]
  }

  lemma {:induction false} EventsAreSeen(c: Catalog, db: Db, hs: seq<Happening>)
    ensures Run(c, db, hs).events == Seen(db.events, hs)
    decreases |hs|
  {
    if hs == [] {
    } else {
      EventsAreSeen(c, db, hs[..|hs| - 1]);
      if hs[|hs| - 1].Webhook? { WebhookIsRequest(c, Run(c, db, hs[..|hs| - 1]), hs[|hs| - 1].delivery); }
    }
  }

  /**
   Replays are harmless: whatever else happens in between, whatever failed, and even if the first delivery of an id
   ended in an error, striking out every later delivery of that id leaves the same database.
   */
  lemma {:induction false} ReplaysErase(c: Catalog, db: Db, hs: seq<Happening>)
    ensures Run(c, db, FirstOnly(db.events, hs)) == Run(c, db, hs)
    decreases |hs|
  {
    if hs == [] {
    } else {
      var before, h := hs[..|hs| - 1], hs[|hs| - 1];
      ReplaysErase(c, db, before);
      EventsAreSeen(c, db, before);
      if !Repeats(Seen(db.events, before), h) { RunMore(c, db, FirstOnly(db.events, before), h); }
    }
  }

  /** The event id a happening puts on record. */
  function Puts(h: Happening): Option<string> {
    if h.Webhook? && Accepted(h.delivery) then Some(h.delivery.body.value.eventId) else None
  }

  /** The happenings put each id on record at most once, all of them in `seen` and none in `events`. */
  ghost predicate Once(hs: seq<Happening>, seen: set<string>, events: set<string>) {
    && (forall i :: 0 <= i < |hs| && Puts(hs[i]).Some? ==> Puts(hs[i]).value in seen && Puts(hs[i]).value !in events)
    && (forall i, j :: 0 <= i < j < |hs| && Puts(hs[i]).Some? ==> Puts(hs[i]) != Puts(hs[j]))
  }

  lemma OnceMore(hs: seq<Happening>, h: Happening, seen: set<string>, seen': set<string>, events: set<string>)
    requires Once(hs, seen, events) && events <= seen <= seen'
    requires Puts(h).Some? ==> Puts(h).value in seen' - seen
    ensures Once(hs + [h], seen', events)
  {
  }

  /** What remains executes no id twice, and none that was on record before. */
  lemma {:induction false} ExecutedAtMostOnce(events: set<string>, hs: seq<Happening>)
    ensures Once(FirstOnly(events, hs), Seen(events, hs), events)
    decreases |hs|
  {
    if hs == [] {
    } else {
      var before, h := hs[..|hs| - 1], hs[|hs| - 1];
      ExecutedAtMostOnce(events, before);
      SeenGrows(events, before);
      if !Repeats(Seen(events, before), h) {
        OnceMore(FirstOnly(events, before), h, Seen(events, before), Seen(events, hs), events);
      }
    }
  }

  lemma {:induction false} SeenGrows(events: set<string>, hs: seq<Happening>)
    ensures events <= Seen(events, hs)
    decreases |hs|
  {
    if hs == [] {
    } else {
      SeenGrows(events, hs[..|hs| - 1]);
    }
  }

  /**
   A retry after an error: acknowledged as a duplicate and not executed exactly if the failed attempt had already
   recorded the id; otherwise it is processed as if the failed attempt had never been made.
   */
  lemma RetryAfterError(c: Catalog, db: Db, d: Delivery, retry: Delivery)
    requires Processed(c, db, d).result.Err? && retry.body == d.body && Accepted(retry)
    ensures var db' := Processed(c, db, d).db;
      && (Accepted(d) <==> retry.body.value.eventId !in db.events && retry.body.value.eventId in db'.events)
      && (Accepted(d) ==> Processed(c, db', retry) == Reply(db', Ok(Answer(true, retry.body.value.verb, None)), None))
      && (!Accepted(d) ==> Processed(c, db', retry) == Processed(c, db, retry))
  {
    WebhookIsRequest(c, db, d);
  }

  /** A renewal lost this way: the update fails once, the provider retries in good order, the expiry never moves. */
  lemma LostRenewal(c: Catalog, db: Db, id: Id, eventId: string, days: int, now: int, newId: Id)
    requires UniqueRefs(db.users) && id in db.users && db.users[id].externalId.Some?
    requires db.users[id].externalId.value != ""
    requires eventId != "" && eventId !in db.events && days > 0
    ensures var ev := BillingEvent(eventId, Renew, db.users[id].externalId.value, "", None,
      Some(L.RenewInput(days, false, None)));
      var first := Processed(c, db, Delivery(Some(ev), now, newId, false, L.WriteFails));
      var second := Processed(c, first.db, Delivery(Some(ev), now, newId, false, L.NoFault));
      first.result == Err(Failure) && second.result == Ok(Answer(true, Renew, None)) && second.db.users == db.users
  {
    ByExternalIs(db.users, db.users[id].externalId.value, id);
  }

  // ---------------------------------------------------------------- identities

  lemma StepKeepsUnique(c: Catalog, db: Db, h: Happening)
    requires UniqueRefs(db.users)
    ensures UniqueRefs(Step(c, db, h).users)
  {
    match h
    case Webhook(d) => ProcessKeepsUnique(c, db, d);
    case Edit(m) => EditKeepsUnique(db.users, c.plans, m);
    case ApiCreate(id, input, now, f) => CreatedKeepsUnique(db, c, id, input, now, f);
    case Deleted(_) =>
    case Reassigned(_) =>
  }

  /** Over every stream no two users share an email or an external reference: a purchase has at most one account. */
  lemma {:induction false} OneAccountPerReference(c: Catalog, db: Db, hs: seq<Happening>)
    requires UniqueRefs(db.users)
    ensures UniqueRefs(Run(c, db, hs).users)
    decreases |hs|
  {
    if hs == [] {
    } else {
      OneAccountPerReference(c, db, hs[..|hs| - 1]);
      StepKeepsUnique(c, Run(c, db, hs[..|hs| - 1]), hs[|hs| - 1]);
    }
  }

  /** Unless deleted, a user keeps its id, email and external reference through any step. */
  lemma StepKeepsIdentity(c: Catalog, db: Db, h: Happening, id: Id)
    requires id in db.users && h != Deleted(id)
    ensures id in Step(c, db, h).users
    ensures Step(c, db, h).users[id].email == db.users[id].email
    ensures Step(c, db, h).users[id].externalId == db.users[id].externalId
    decreases if h.Webhook? then 1 else 0
  {
    match h
    case Webhook(d) =>
      WebhookIsRequest(c, db, d);
      if Request(c, db, d).Some? { StepKeepsIdentity(c, db, Request(c, db, d).value, id); }
    case Edit(m) => EveryMomentTame(db.users, c.plans, m);
    case ApiCreate(_, _, _, _) =>
    case Deleted(_) =>
    case Reassigned(_) =>
  }

  lemma {:induction false} IdentityKept(c: Catalog, db: Db, hs: seq<Happening>, id: Id)
    requires id in db.users && Deleted(id) !in hs
    ensures id in Run(c, db, hs).users
    ensures Run(c, db, hs).users[id].email == db.users[id].email
    ensures Run(c, db, hs).users[id].externalId == db.users[id].externalId
    decreases |hs|
  {
    if hs == [] {
    } else {
      IdentityKept(c, db, hs[..|hs| - 1], id);
      StepKeepsIdentity(c, Run(c, db, hs[..|hs| - 1]), hs[|hs| - 1], id);
    }
  }

  // ---------------------------------------------------------------- provisioning

  /** A provision that succeeded leaves a holder of the external reference, and answers with that user's record. */
  lemma ProvisionMakesHolder(c: Catalog, db: Db, d: Delivery)
    requires UniqueRefs(db.users) && Accepted(d) && d.body.value.verb.Provision? && d.body.value.eventId !in db.events
    requires Processed(c, db, d).result.Ok?
    ensures var r := Processed(c, db, d);
      var holder := ByExternal(r.db.users, d.body.value.externalId);
      holder.Some? && r.result.value == Answer(false, Provision, Some(r.db.users[holder.value]))
  {
    var r := Processed(c, db, d);
    var x := d.body.value.externalId;
    StepKeepsUnique(c, db, Webhook(d));
    if ByExternal(db.users, x).None? {
      assert r.db.users[d.newId].externalId == Some(x);
      ByExternalIs(r.db.users, x, d.newId);
    }
  }

  /**
   Provisioning is idempotent on the external reference: after one success, and whatever follows short of deleting
   that user, a further provision under a new event id answers with the same user as it then stands, creates nothing,
   changes no user and no assignment, and wakes no node.
   */
  lemma ProvisionOnce(c: Catalog, db: Db, first: Delivery, hs: seq<Happening>, again: Delivery, u: Id)
    requires UniqueRefs(db.users) && Accepted(first) && first.body.value.verb.Provision?
    requires first.body.value.eventId !in db.events
    requires Processed(c, db, first).result.Ok?
    requires ByExternal(Processed(c, db, first).db.users, first.body.value.externalId) == Some(u) && Deleted(u) !in hs
    requires Accepted(again) && again.body.value.verb.Provision? && again.body.value.provision.Some?
    requires !again.fault.ReadFails?
    requires again.body.value.externalId == first.body.value.externalId
    requires again.body.value.eventId !in Run(c, Processed(c, db, first).db, hs).events
    ensures var now := Run(c, Processed(c, db, first).db, hs);
      && u in now.users
      && Processed(c, now, again) ==
           Reply(now.(events := now.events + {again.body.value.eventId}),
             Ok(Answer(false, Provision, Some(now.users[u]))), None)
  {
    var db1 := Processed(c, db, first).db;
    var x := first.body.value.externalId;
    StepKeepsUnique(c, db, Webhook(first));
    OneAccountPerReference(c, db1, hs);
    IdentityKept(c, db1, hs, u);
    ByExternalIs(Run(c, db1, hs).users, x, u);
    assert x != "" by { ProvisionMakesHolder(c, db, first); }
  }

  /** The record and the assignments a provision makes, from its payload. */
  lemma ProvisionMeans(c: Catalog, db: Db, d: Delivery)
    requires Accepted(d) && d.body.value.verb.Provision? && d.body.value.eventId !in db.events
    requires Processed(c, db, d).result.Ok? && ByExternal(db.users, d.body.value.externalId).None?
    ensures d.body.value.provision.Some? && d.newId !in db.users && d.newId in Processed(c, db, d).db.users
    ensures var p, r := d.body.value.provision.value, Processed(c, db, d);
      var u := r.db.users[d.newId];
      && (p.planId.Some? ==> p.planId.value in c.plans)
      && IsNew(u, p.email, p.planId, p.dataLimit, p.expiresAt, p.note, Some(d.body.value.externalId),
               if p.planId.Some? then c.plans[p.planId.value] else Plan(None, None), d.now)
      && r.db.users == db.users[d.newId := u] && r.woken == Some(d.newId)
      && r.result == Ok(Answer(false, Provision, Some(u)))
      && (forall k: Key :: k.user != d.newId ==> (k in r.db.rows <==> k in db.rows))
      && (forall i :: i in p.inboundIds ==> Key(d.newId, i) in r.db.rows)
  {
    var p := d.body.value.provision.value;
    NewRecord(Input(p, d.body.value.externalId), c.plans, d.now);
    forall i | i in p.inboundIds ensures Key(d.newId, i) in P.KeysFor(d.newId, Elems(p.inboundIds)) {}
  }

  // ---------------------------------------------------------------- the actions on an existing user

  /** The operation each action stands for. */
  function Operation(c: Catalog, us: Users, id: Id, ev: BillingEvent, d: Delivery): L.Done {
    if ev.verb.Renew? && ev.renew.Some? then L.Renew(us, c.plans, id, ev.renew.value, d.now, d.fault)
    else if ev.verb.Resume? then L.Resume(us, id, d.now, d.fault)
    else L.Suspend(us, id, d.fault)
  }

  /**
   A first delivery of renew, suspend, resume or cancel that names a user does to the users table what the operation on
   that user does, touches no assignment, answers its outcome (a cancel without the record), and wakes that user's nodes
   exactly if it succeeded.
   */
  lemma ActionMeans(c: Catalog, db: Db, d: Delivery, id: Id)
    requires UniqueRefs(db.users) && Accepted(d) && d.body.value.eventId !in db.events && !d.fault.ReadFails?
    requires !d.body.value.verb.Provision? && (d.body.value.verb.Renew? ==> d.body.value.renew.Some?)
    requires id in db.users && Names(db.users[id], d.body.value)
    ensures var ev, r := d.body.value, Processed(c, db, d);
      var o := Operation(c, db.users, id, ev, d);
      && r.db == Db(o.users, db.rows, db.events + {ev.eventId})
      && (o.result.Ok? ==> r.woken == Some(id))
      && (o.result.Ok? ==>
            r.result == Ok(Answer(false, ev.verb, if ev.verb.Cancel? then None else Some(o.result.value))))
      && (o.result.Err? ==> r.result == Err(o.result.error) && r.woken == None)
  {
    ResolvesNamed(db.users, d.body.value, d.fault, id);
  }

  /** A first delivery that names nobody is refused and only its id is recorded. */
  lemma NobodyNamed(c: Catalog, db: Db, d: Delivery)
    requires UniqueRefs(db.users) && Accepted(d) && d.body.value.eventId !in db.events && !d.fault.ReadFails?
    requires !d.body.value.verb.Provision? && (d.body.value.verb.Renew? ==> d.body.value.renew.Some?)
    requires forall id :: id in db.users ==> !Names(db.users[id], d.body.value)
    ensures var ev, r := d.body.value, Processed(c, db, d);
      && r.db == db.(events := db.events + {ev.eventId}) && r.woken == None
      && r.result == Err(if ev.externalId == "" && ev.email == "" then Invalid else NotFound)
  {
    ResolvesNamed(db.users, d.body.value, d.fault, "");
  }

  // ---------------------------------------------------------------- cancellation

  /** The tables as the reconciler reads them. */
  function View(c: Catalog, db: Db): P.State { P.State(db.users, c.inbounds, db.rows, map[], multiset{}, {}, 0) }

  /** The ways back from `disabled`: a resume webhook for the user, an administrator's reinstatement, or deletion. */
  predicate Revives(u: User, id: Id, h: Happening) {
    match h
    case Webhook(d) => d.body.Some? && d.body.value.verb.Resume? && Names(u, d.body.value)
    case Edit(m) => L.Reinstates(m, id)
    case ApiCreate(_, _, _, _) => false
    case Deleted(i) => i == id
    case Reassigned(_) => false
  }

  lemma StepKeepsDisabled(c: Catalog, db: Db, h: Happening, id: Id)
    requires id in db.users && db.users[id].status == Disabled && !Revives(db.users[id], id, h)
    ensures id in Step(c, db, h).users && Step(c, db, h).users[id].status == Disabled
    decreases if h.Webhook? then 1 else 0
  {
    match h
    case Webhook(d) =>
      WebhookIsRequest(c, db, d);
      if Request(c, db, d).Some? { StepKeepsDisabled(c, db, Request(c, db, d).value, id); }
    case Edit(m) => L.DisabledHolds(db.users, c.plans, m, id);
    case ApiCreate(_, _, _, _) =>
    case Deleted(_) =>
    case Reassigned(_) =>
  }

  /**
   A cancelled user stays out of service over every stream until resumed or reinstated; in particular no renewal,
   by webhook or otherwise, brings the user back.
   */
  lemma {:induction false} CancelledUntilResumed(c: Catalog, db: Db, hs: seq<Happening>, id: Id)
    requires id in db.users && db.users[id].status == Disabled && forall h :: h in hs ==> !Revives(db.users[id], id, h)
    ensures id in Run(c, db, hs).users && Run(c, db, hs).users[id].status == Disabled
    decreases |hs|
  {
    if hs == [] {
    } else {
      var before, h := hs[..|hs| - 1], hs[|hs| - 1];
      CancelledUntilResumed(c, db, before, id);
      IdentityKept(c, db, before, id);
      assert h in hs;
      StepKeepsDisabled(c, Run(c, db, before), h, id);
    }
  }

  /**
   A suspension or cancellation that is answered takes effect and lasts: the user it names is disabled, its nodes are
   woken, and after every stream that does not revive it no node is asked to serve it, and every assignment of it is up
   for removal.
   */
  lemma CancelTakesOut(c: Catalog, db: Db, d: Delivery, hs: seq<Happening>, id: Id, n: Id)
    requires UniqueRefs(db.users) && Accepted(d) && d.body.value.eventId !in db.events
    requires (d.body.value.verb.Suspend? || d.body.value.verb.Cancel?) && Processed(c, db, d).result.Ok?
    requires id in db.users && Names(db.users[id], d.body.value)
    requires forall h :: h in hs ==> !Revives(db.users[id], id, h)
    ensures Processed(c, db, d).db.users == db.users[id := db.users[id].(status := Disabled)]
    ensures Processed(c, db, d).woken == Some(id)
    ensures var db' := Run(c, Processed(c, db, d).db, hs);
      && id in db'.users && db'.users[id].status == Disabled
      && (forall t :: t in P.DesiredTargets(View(c, db'), n) ==> t.key.user != id)
      && (forall k :: k in db'.rows && k.user == id && P.OnNode(View(c, db'), k, n) ==>
            P.TargetOf(View(c, db'), k) in P.RemovalTargets(View(c, db'), n))
  {
    ResolvesNamed(db.users, d.body.value, d.fault, id);
    ActionMeans(c, db, d, id);
    SuspendMeans(db.users, id, d.fault);
    CancelledUntilResumed(c, Processed(c, db, d).db, hs, id);
    var s := View(c, Run(c, Processed(c, db, d).db, hs));
    forall k | P.OnNode(s, k, n) { ServedExactly(s, k, n); }
  }
}
