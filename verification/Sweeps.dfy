/** The two statements that take users out of service on their own: the quota sweep and the expiry sweep. */
module Sweeps {
  import opened Domain

  type Users = map<Id, User>

  predicate QuotaHit(u: User) { u.status == Active && u.OverQuota() }

  predicate ExpiryHit(u: User, now: int) { u.status == Active && u.Due(now) }

  function QuotaUser(u: User): User { if QuotaHit(u) then u.(status := Suspended) else u }

  function ExpiryUser(u: User, now: int): User { if ExpiryHit(u, now) then u.(status := Expired) else u }

  function QuotaHits(us: Users): set<Id> { set id | id in us && QuotaHit(us[id]) }

  function QuotaSwept(us: Users): Users { map id | id in us :: QuotaUser(us[id]) }

  function ExpiryHits(us: Users, now: int): set<Id> { set id | id in us && ExpiryHit(us[id], now) }

  function ExpirySwept(us: Users, now: int): Users { map id | id in us :: ExpiryUser(us[id], now) }

  function ActiveIds(us: Users): set<Id> { set id | id in us && us[id].status == Active }

  /** The ids whose record differs. */
  function Changed(us: Users, us': Users): set<Id> { set id | id in us && id in us' && us'[id] != us[id] }

  /** Users that should be out of service at `now`. */
  predicate Bars(u: User, now: int) { u.OverQuota() || u.Due(now) }

  function Barred(us: Users, now: int): set<Id> { set id | id in us && Bars(us[id], now) }

  lemma FlipShows(u: User, now: int)
    ensures QuotaHit(u) <==> QuotaUser(u) != u
    ensures ExpiryHit(u, now) <==> ExpiryUser(u, now) != u
  {
    assert u.status == Active ==>
      u.(status := Suspended).status != u.status && u.(status := Expired).status != u.status;
  }

  /** Each sweep reports exactly the ids it flipped, and touches nobody who was not active. */
  lemma SweepsReportExactly(us: Users, now: int)
    ensures QuotaHits(us) == Changed(us, QuotaSwept(us)) && ExpiryHits(us, now) == Changed(us, ExpirySwept(us, now))
    ensures forall id :: id in us && us[id].status != Active ==>
      QuotaSwept(us)[id] == us[id] == ExpirySwept(us, now)[id]
  {
    forall id | id in us ensures QuotaHit(us[id]) <==> QuotaUser(us[id]) != us[id] { FlipShows(us[id], now); }
    forall id | id in us ensures ExpiryHit(us[id], now) <==> ExpiryUser(us[id], now) != us[id] {
      FlipShows(us[id], now);
    }
  }

  /** One user under both sweeps: in service afterwards exactly if active and not barred, whichever came first. */
  lemma BothOrders(u: User, now: int)
    ensures var a, b := ExpiryUser(QuotaUser(u), now), QuotaUser(ExpiryUser(u, now));
      && (a.status == Active <==> u.status == Active && !Bars(u, now))
      && (b.status == Active <==> u.status == Active && !Bars(u, now))
      && (u.status != Active ==> a == u == b)
      && (QuotaHit(u) || ExpiryHit(QuotaUser(u), now) <==> u.status == Active && Bars(u, now))
      && (ExpiryHit(u, now) || QuotaHit(ExpiryUser(u, now)) <==> u.status == Active && Bars(u, now))
  {
  }

  lemma SweptPointwise(us: Users, now: int)
    ensures forall id :: id in us ==>
      QuotaSwept(us)[id] == QuotaUser(us[id]) && ExpirySwept(us, now)[id] == ExpiryUser(us[id], now)
    ensures QuotaSwept(us).Keys == us.Keys == ExpirySwept(us, now).Keys
  {
  }

  /** Quota sweep first, then expiry. */
  lemma QuotaFirst(us: Users, now: int)
    ensures ActiveIds(ExpirySwept(QuotaSwept(us), now)) == ActiveIds(us) - Barred(us, now)
    ensures QuotaHits(us) + ExpiryHits(QuotaSwept(us), now) == ActiveIds(us) * Barred(us, now)
  {
    var q := QuotaSwept(us);
    SweptPointwise(us, now);
    SweptPointwise(q, now);
    forall id ensures id in ActiveIds(ExpirySwept(q, now)) <==> id in ActiveIds(us) - Barred(us, now) {
      if id in us { BothOrders(us[id], now); }
    }
    forall id ensures id in QuotaHits(us) + ExpiryHits(q, now) <==> id in ActiveIds(us) * Barred(us, now) {
      if id in us { BothOrders(us[id], now); }
    }
  }

  /** Expiry sweep first, then quota. */
  lemma ExpiryFirst(us: Users, now: int)
    ensures ActiveIds(QuotaSwept(ExpirySwept(us, now))) == ActiveIds(us) - Barred(us, now)
    ensures ExpiryHits(us, now) + QuotaHits(ExpirySwept(us, now)) == ActiveIds(us) * Barred(us, now)
  {
    var e := ExpirySwept(us, now);
    SweptPointwise(us, now);
    SweptPointwise(e, now);
    forall id ensures id in ActiveIds(QuotaSwept(e)) <==> id in ActiveIds(us) - Barred(us, now) {
      if id in us { BothOrders(us[id], now); }
    }
    forall id ensures id in ExpiryHits(us, now) + QuotaHits(e) <==> id in ActiveIds(us) * Barred(us, now) {
      if id in us { BothOrders(us[id], now); }
    }
  }

  /**
   The sweeps commute on service: in either order the active users that remain are the active ones within quota and
   unexpired, nobody else is touched, and the two reports together name exactly the users taken out.
   */
  lemma SweepsConfluent(us: Users, now: int)
    ensures ActiveIds(ExpirySwept(QuotaSwept(us), now)) == ActiveIds(QuotaSwept(ExpirySwept(us, now))) ==
      ActiveIds(us) - Barred(us, now)
    ensures QuotaHits(us) + ExpiryHits(QuotaSwept(us), now) == ExpiryHits(us, now) + QuotaHits(ExpirySwept(us, now))
         == ActiveIds(us) * Barred(us, now)
  {
    QuotaFirst(us, now);
    ExpiryFirst(us, now);
  }
}
