/** Several actors, one store: every byte a user moves is accounted for, across resets and new users. */
module Fleet {
  import opened Domain
  import opened Sweeps
  import opened TrafficStore
  import opened Collector

  /** One meter per actor, the users' totals, and what resets have forgiven. */
  datatype Fleet = Fleet(meters: seq<Meter>, users: Users, forgiven: map<Id, Traffic>)

  /** Where bytes can be, and all there ever were. */
  datatype Part = Generated | OnNode | Buffered | Posted | Dropped

  function Amount(m: Meter, part: Part, e: string, dir: Direction): int {
    match part
    case Generated => PostSum(m.generated, e, dir)
    case OnNode => CounterOf(m.counters, e, dir)
    case Buffered => Held(m.pending, e, dir)
    case Posted => PostSum(m.posted, e, dir)
    case Dropped => PostSum(m.dropped, e, dir)
  }

  function Total(ms: seq<Meter>, part: Part, e: string, dir: Direction): int {
    if ms == [] then 0 else Total(ms[..|ms| - 1], part, e, dir) + Amount(ms[|ms| - 1], part, e, dir)
  }

  lemma {:induction false} TotalMoves(ms: seq<Meter>, i: nat, m: Meter, part: Part, e: string, dir: Direction)
    requires i < |ms|
    ensures Total(ms[i := m], part, e, dir) ==
      Total(ms, part, e, dir) - Amount(ms[i], part, e, dir) + Amount(m, part, e, dir)
    decreases |ms|
  {
    var last := |ms| - 1;
    if i == last {
      assert ms[i := m][..last] == ms[..last];
    } else {
      assert ms[i := m][..last] == ms[..last][i := m];
      TotalMoves(ms[..last], i, m, part, e, dir);
    }
  }

  lemma {:induction false} TotalsConserved(ms: seq<Meter>, e: string, dir: Direction)
    requires e != "" && forall i :: 0 <= i < |ms| ==> Conserved(ms[i])
    ensures Total(ms, Generated, e, dir) ==
      Total(ms, OnNode, e, dir) + Total(ms, Buffered, e, dir) + Total(ms, Posted, e, dir) + Total(ms, Dropped, e, dir)
    decreases |ms|
  {
    if ms == [] {
    } else {
      TotalsConserved(ms[..|ms| - 1], e, dir);
      assert Conserved(ms[|ms| - 1]);
      assert Account(ms[|ms| - 1], e, dir) == PostSum(ms[|ms| - 1].generated, e, dir);
    }
  }

  // ---------------------------------------------------------------- steps

  /** What the actors have posted for an email is what its user was credited, and nothing if it is nobody's. */
  ghost predicate Booked(f: Fleet) {
    && f.forgiven.Keys == f.users.Keys && UniqueEmails(f.users) && "" !in Emails(f.users)
    && (forall id, dir :: id in f.users ==>
          Used(f.users, id, dir) + f.forgiven[id].Of(dir) == Total(f.meters, Posted, f.users[id].email, dir))
    && (forall e, dir :: e !in Emails(f.users) ==> Total(f.meters, Posted, e, dir) == 0)
  }

  ghost predicate Sound(f: Fleet) {
    Booked(f) && forall i :: 0 <= i < |f.meters| ==> Conserved(f.meters[i])
  }

  /** Only meter `i` and the users change. */
  ghost predicate Touches(f: Fleet, f': Fleet, i: nat) {
    i < |f.meters| && |f'.meters| == |f.meters| && f' == f.(meters := f.meters[i := f'.meters[i]], users := f'.users)
  }

  /** A user moves bytes through the node of actor `i`. */
  ghost predicate Grows(f: Fleet, f': Fleet, i: nat, e: string, dir: Direction, n: nat) {
    Touches(f, f', i) && f'.users == f.users && GrowStep(f.meters[i], f'.meters[i], e, dir, n)
  }

  /** Actor `i` runs a whole collection: what `NodeActor.Collect` promises. */
  ghost predicate Collects(f: Fleet, f': Fleet, i: nat, o: Outcome, stats: seq<Stat>, deltas: seq<Delta>) {
    && Touches(f, f', i) && CollectStep(f.meters[i], f'.meters[i], o, stats, Emails(f.users))
    && if o.Stored? then Credits(f.users, f'.users, deltas, f.meters[i].pending, stats, Emails(f.users))
       else f'.users == f.users
  }

  /**
   Actor `i` stores what it has buffered: what `NodeActor.Persist` promises, except that other actors, new users and
   resets may have come between its resolving the emails and its commit, so it knows some of the emails in use.
   */
  ghost predicate Flushes(f: Fleet, f': Fleet, i: nat, known: set<string>, deltas: seq<Delta>) {
    && Touches(f, f', i) && known <= Emails(f.users) && FlushStep(f.meters[i], f'.meters[i], known)
    && Credits(f.users, f'.users, deltas, f.meters[i].pending, [], known)
  }

  ghost predicate Resets(f: Fleet, f': Fleet, id: Id) {
    && id in f.users && id in f.forgiven
    && f' == f.(users := f.users[id := f.users[id].Emptied()],
                forgiven := f.forgiven[id := Forgive(f.forgiven[id], f.users[id])])
  }

  /** A new user under an email nobody has. */
  ghost predicate Enrolls(f: Fleet, f': Fleet, id: Id, u: User) {
    && id !in f.users && u.usedUp == u.usedDown == 0 && u.email != "" && u.email !in Emails(f.users)
    && f' == f.(users := f.users[id := u], forgiven := f.forgiven[id := Nothing])
  }

  /** Any other change to users: suspending, expiring, renewing, editing. */
  ghost predicate Edits(f: Fleet, f': Fleet) {
    && f' == f.(users := f'.users) && f'.users.Keys == f.users.Keys
    && forall id :: id in f.users ==> SameCounts(f.users[id], f'.users[id])
  }

  predicate SameCounts(u: User, v: User) { v.email == u.email && v.usedUp == u.usedUp && v.usedDown == u.usedDown }

  ghost predicate FleetStep(f: Fleet, f': Fleet) {
    || (exists i: nat, e, dir, n: nat :: Grows(f, f', i, e, dir, n))
    || (exists i: nat, o, stats, deltas :: Collects(f, f', i, o, stats, deltas))
    || (exists i: nat, known, deltas :: Flushes(f, f', i, known, deltas))
    || (exists id :: Resets(f, f', id))
    || (exists id, u :: Enrolls(f, f', id, u))
    || Edits(f, f')
  }

  // ---------------------------------------------------------------- every step keeps the books

  lemma StoredGain(m: Meter, m': Meter, stats: seq<Stat>, known: set<string>, e: string, dir: Direction)
    requires CollectStep(m, m', Stored, stats, known)
    ensures PostSum(m'.posted, e, dir) ==
      PostSum(m.posted, e, dir) + if e in known then Held(m.pending, e, dir) + StatSum(stats, e, dir) else 0
  {
    PrefixSum(m.posted, m'.posted, e, dir);
  }

  lemma FlushGain(m: Meter, m': Meter, known: set<string>, e: string, dir: Direction)
    requires FlushStep(m, m', known)
    ensures PostSum(m'.posted, e, dir) == PostSum(m.posted, e, dir) + if e in known then Held(m.pending, e, dir) else 0
  {
    PrefixSum(m.posted, m'.posted, e, dir);
  }

  lemma CreditedKeeps(us: Users, deltas: seq<Delta>)
    ensures var us' := QuotaSwept(Credited(us, deltas));
      us'.Keys == us.Keys && forall id :: id in us ==> us'[id].email == us[id].email
  {
    CreditedFrame(us, deltas, "");
    forall id | id in us ensures QuotaSwept(Credited(us, deltas))[id].email == us[id].email {
      CreditedFrame(us, deltas, id);
    }
  }

  /** Crediting moves the totals of each user by what the actor posts for that user's email. */
  lemma CreditsUsed(us: Users, us': Users, deltas: seq<Delta>, pending: Tally, stats: seq<Stat>, known: set<string>,
      id: Id, dir: Direction)
    requires Credits(us, us', deltas, pending, stats, known) && id in us
    ensures us'.Keys == us.Keys && us'[id].email == us[id].email
    ensures Used(us', id, dir) == Used(us, id, dir) +
      if us[id].email in known then Held(pending, us[id].email, dir) + StatSum(stats, us[id].email, dir) else 0
  {
    CreditedKeeps(us, deltas);
    CreditedSum(us, deltas, id, dir);
  }

  lemma SameEmails(us: Users, us': Users)
    requires us'.Keys == us.Keys && forall id :: id in us ==> us'[id].email == us[id].email
    ensures Emails(us') == Emails(us) && (UniqueEmails(us) ==> UniqueEmails(us'))
  {
    forall e ensures e in Emails(us') <==> e in Emails(us) {
      if e in Emails(us) {
        var id :| id in us && us[id].email == e;
        assert us'[id].email == e;
      }
    }
  }

  /** The gain of actor `i`'s postings for an email. */
  ghost predicate Gains(f: Fleet, f': Fleet, i: nat, stats: seq<Stat>, known: set<string>)
    requires i < |f.meters| && i < |f'.meters|
  {
    forall e, dir :: Amount(f'.meters[i], Posted, e, dir) == Amount(f.meters[i], Posted, e, dir) +
      if e in known then Held(f.meters[i].pending, e, dir) + StatSum(stats, e, dir) else 0
  }

  /** Postings and credits move together. */
  lemma CreditsBooked(f: Fleet, f': Fleet, i: nat, stats: seq<Stat>, known: set<string>, deltas: seq<Delta>)
    requires Booked(f) && Touches(f, f', i) && known <= Emails(f.users) && Gains(f, f', i, stats, known)
    requires Credits(f.users, f'.users, deltas, f.meters[i].pending, stats, known)
    ensures Booked(f')
  {
    CreditedKeeps(f.users, deltas);
    SameEmails(f.users, f'.users);
    forall id, dir | id in f.users
      ensures Used(f'.users, id, dir) + f'.forgiven[id].Of(dir) == Total(f'.meters, Posted, f'.users[id].email, dir)
    {
      CreditsUsed(f.users, f'.users, deltas, f.meters[i].pending, stats, known, id, dir);
      TotalMoves(f.meters, i, f'.meters[i], Posted, f.users[id].email, dir);
    }
    forall e, dir | e !in Emails(f'.users) ensures Total(f'.meters, Posted, e, dir) == 0 {
      TotalMoves(f.meters, i, f'.meters[i], Posted, e, dir);
    }
  }

  /** A step that posts nothing and credits nobody. */
  lemma QuietBooked(f: Fleet, f': Fleet, i: nat)
    requires Booked(f) && Touches(f, f', i) && f'.users == f.users && f'.meters[i].posted == f.meters[i].posted
    ensures Booked(f')
  {
    forall x, d ensures Total(f'.meters, Posted, x, d) == Total(f.meters, Posted, x, d) {
      TotalMoves(f.meters, i, f'.meters[i], Posted, x, d);
    }
  }

  lemma CollectsBooked(f: Fleet, f': Fleet, i: nat, o: Outcome, stats: seq<Stat>, deltas: seq<Delta>)
    requires Booked(f) && Collects(f, f', i, o, stats, deltas)
    ensures Booked(f')
  {
    if o.Stored? {
      forall e, dir { StoredGain(f.meters[i], f'.meters[i], stats, Emails(f.users), e, dir); }
      CreditsBooked(f, f', i, stats, Emails(f.users), deltas);
    } else {
      QuietBooked(f, f', i);
    }
  }

  lemma FlushesBooked(f: Fleet, f': Fleet, i: nat, known: set<string>, deltas: seq<Delta>)
    requires Booked(f) && Flushes(f, f', i, known, deltas)
    ensures Booked(f')
  {
    forall e, dir { FlushGain(f.meters[i], f'.meters[i], known, e, dir); }
    CreditsBooked(f, f', i, [], known, deltas);
  }

  lemma ResetsBooked(f: Fleet, f': Fleet, id: Id)
    requires Booked(f) && Resets(f, f', id)
    ensures Booked(f')
  {
    SameEmails(f.users, f'.users);
    forall j, dir | j in f'.users
      ensures Used(f'.users, j, dir) + f'.forgiven[j].Of(dir) == Total(f'.meters, Posted, f'.users[j].email, dir)
    {
      assert Used(f.users, j, dir) + f.forgiven[j].Of(dir) == Total(f.meters, Posted, f.users[j].email, dir);
    }
  }

  lemma EnrollsBooked(f: Fleet, f': Fleet, id: Id, u: User)
    requires Booked(f) && Enrolls(f, f', id, u)
    ensures Booked(f')
  {
    forall e ensures e in Emails(f'.users) <==> e in Emails(f.users) || e == u.email {
      if e in Emails(f.users) {
        var j :| j in f.users && f.users[j].email == e;
        assert f'.users[j].email == e;
      }
      assert f'.users[id].email == u.email;
    }
    forall j | j in f.users ensures f.users[j].email in Emails(f.users) {}
    forall j, dir | j in f'.users
      ensures Used(f'.users, j, dir) + f'.forgiven[j].Of(dir) == Total(f'.meters, Posted, f'.users[j].email, dir)
    {
      if j != id {
        assert Used(f.users, j, dir) + f.forgiven[j].Of(dir) == Total(f.meters, Posted, f.users[j].email, dir);
      }
    }
  }

  lemma EditsBooked(f: Fleet, f': Fleet)
    requires Booked(f) && Edits(f, f')
    ensures Booked(f')
  {
    forall id | id in f.users ensures f'.users[id].email == f.users[id].email {
      assert SameCounts(f.users[id], f'.users[id]);
    }
    SameEmails(f.users, f'.users);
    forall id, dir | id in f'.users
      ensures Used(f'.users, id, dir) + f'.forgiven[id].Of(dir) == Total(f'.meters, Posted, f'.users[id].email, dir)
    {
      assert SameCounts(f.users[id], f'.users[id]);
      assert Used(f.users, id, dir) + f.forgiven[id].Of(dir) == Total(f.meters, Posted, f.users[id].email, dir);
    }
  }

  lemma FleetStepSound(f: Fleet, f': Fleet)
    requires Sound(f) && FleetStep(f, f')
    ensures Sound(f')
  {
    if i: nat, e, dir, n: nat :| Grows(f, f', i, e, dir, n) {
      QuietBooked(f, f', i);
      GrowConserves(f.meters[i], f'.meters[i], e, dir, n);
    } else if i: nat, o, stats, deltas :| Collects(f, f', i, o, stats, deltas) {
      CollectsBooked(f, f', i, o, stats, deltas);
      CollectConserves(f.meters[i], f'.meters[i], o, stats, Emails(f.users));
    } else if i: nat, known, deltas :| Flushes(f, f', i, known, deltas) {
      FlushesBooked(f, f', i, known, deltas);
      FlushConserves(f.meters[i], f'.meters[i], known);
    } else if id :| Resets(f, f', id) {
      ResetsBooked(f, f', id);
    } else if id, u :| Enrolls(f, f', id, u) {
      EnrollsBooked(f, f', id, u);
    } else {
      EditsBooked(f, f');
    }
  }

  lemma {:induction false} RunSound(fs: seq<Fleet>, k: nat)
    requires k < |fs| && Sound(fs[0]) && forall i :: 0 <= i < |fs| - 1 ==> FleetStep(fs[i], fs[i + 1])
    ensures Sound(fs[k])
    decreases k
  {
    if k == 0 {
    } else {
      RunSound(fs, k - 1);
      assert FleetStep(fs[k - 1], fs[k - 1 + 1]);
      FleetStepSound(fs[k - 1], fs[k]);
    }
  }

  /**
   Over every run of any number of actors, with collections failing anywhere, resets, new users and edits: the bytes a
   user has moved through all nodes are those still on the nodes, those buffered, those counted against the quota,
   those forgiven by resets, and those dropped because the email was nobody's when it was resolved.
   */
  lemma EveryByteAccounted(fs: seq<Fleet>, k: nat, id: Id, dir: Direction)
    requires k < |fs| && Sound(fs[0]) && forall i :: 0 <= i < |fs| - 1 ==> FleetStep(fs[i], fs[i + 1])
    requires id in fs[k].users
    ensures id in fs[k].forgiven
    ensures var f, e := fs[k], fs[k].users[id].email;
      Total(f.meters, Generated, e, dir) ==
        Total(f.meters, OnNode, e, dir) + Total(f.meters, Buffered, e, dir)
        + Used(f.users, id, dir) + f.forgiven[id].Of(dir) + Total(f.meters, Dropped, e, dir)
  {
    RunSound(fs, k);
    var f := fs[k];
    assert f.users[id].email in Emails(f.users);
    TotalsConserved(f.meters, f.users[id].email, dir);
  }

  /** An email that is nobody's is never credited to anybody. */
  lemma StrangersAccounted(fs: seq<Fleet>, k: nat, e: string, dir: Direction)
    requires k < |fs| && Sound(fs[0]) && forall i :: 0 <= i < |fs| - 1 ==> FleetStep(fs[i], fs[i + 1])
    requires e != "" && e !in Emails(fs[k].users)
    ensures var f := fs[k];
      Total(f.meters, Generated, e, dir) ==
        Total(f.meters, OnNode, e, dir) + Total(f.meters, Buffered, e, dir) + Total(f.meters, Dropped, e, dir)
  {
    RunSound(fs, k);
    TotalsConserved(fs[k].meters, e, dir);
  }
}
