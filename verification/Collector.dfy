/** Metering: reset-on-read counters flow through a carry-over buffer into the store, and no byte is lost or doubled. */
module Collector {
  import opened Domain
  import opened StatNames
  import opened Sweeps
  import TrafficStore

  datatype Stat = Stat(name: string, value: nat)

  /** Traffic by email. */
  type Tally = map<string, Traffic>

  function Held(m: Tally, email: string, dir: Direction): int { if email in m then m[email].Of(dir) else 0 }

  /** Bytes the counters listed in `stats` attribute to one email and direction. */
  function StatSum(stats: seq<Stat>, email: string, dir: Direction): int {
    if stats == [] then 0
    else
      var s := stats[|stats| - 1];
      StatSum(stats[..|stats| - 1], email, dir) + if ParseStat(s.name) == Some((email, dir)) then s.value else 0
  }

  function Grown(t: Traffic, dir: Direction, n: int): Traffic {
    if dir.Uplink? then Traffic(t.up + n, t.down) else Traffic(t.up, t.down + n)
  }

  /** One counter added to the aggregate. */
  function Counted(m: Tally, email: string, dir: Direction, n: int): Tally {
    m[email := Grown(if email in m then m[email] else Traffic(0, 0), dir, n)]
  }

  lemma CountedHolds(m: Tally, email: string, dir: Direction, n: int, e: string, d: Direction)
    ensures Held(Counted(m, email, dir, n), e, d) == Held(m, e, d) + if e == email && d == dir then n else 0
  {
  }

  lemma StatSumMore(stats: seq<Stat>, i: nat, e: string, d: Direction)
    requires i < |stats|
    ensures StatSum(stats[..i + 1], e, d) ==
      StatSum(stats[..i], e, d) + if ParseStat(stats[i].name) == Some((e, d)) then stats[i].value else 0
  {
    assert stats[..i + 1][..i] == stats[..i];
  }

  /** The aggregation of QueryUserTraffic: names that do not parse are skipped, the rest add up per email. */
  method QueryUserTraffic(stats: seq<Stat>) returns (byEmail: Tally)
    ensures forall e, dir :: Held(byEmail, e, dir) == StatSum(stats, e, dir)
  {
    byEmail := map[];
    for i := 0 to |stats|
      invariant forall e, dir :: Held(byEmail, e, dir) == StatSum(stats[..i], e, dir)
    {
      ghost var before := byEmail;
      var parsed := ParseStat(stats[i].name);
      if parsed.Some? {
        byEmail := Counted(byEmail, parsed.value.0, parsed.value.1, stats[i].value);
      }
      forall e, dir ensures Held(byEmail, e, dir) == StatSum(stats[..i + 1], e, dir) {
        StatSumMore(stats, i, e, dir);
        if parsed.Some? { CountedHolds(before, parsed.value.0, parsed.value.1, stats[i].value, e, dir); }
      }
    }
    assert stats[..|stats|] == stats;
  }

  // ---------------------------------------------------------------- the node's counters

  predicate Matches(name: string) { exists i :: 0 <= i <= |name| && OccursAt(name, PREFIX, i) }

  /** What a stats query answers: every counter whose name contains the pattern, once, with its value. */
  ghost predicate Reports(stats: seq<Stat>, counters: map<string, nat>) {
    && (forall i, j :: 0 <= i < j < |stats| ==> stats[i].name != stats[j].name)
    && (forall i :: 0 <= i < |stats| ==> stats[i].name in counters && counters[stats[i].name] == stats[i].value)
    && (forall name :: name in counters && Matches(name) ==> Lists(stats, name))
  }

  predicate Lists(stats: seq<Stat>, name: string) { exists i :: 0 <= i < |stats| && stats[i].name == name }

  /** The query zeroes what it reports. */
  function Zeroed(counters: map<string, nat>, stats: seq<Stat>): map<string, nat> {
    map name | name in counters :: if Lists(stats, name) then 0 else counters[name]
  }

  function CounterOf(counters: map<string, nat>, email: string, dir: Direction): int {
    var name := RenderStat(email, dir);
    if name in counters then counters[name] else 0
  }

  lemma RenderedMatches(email: string, dir: Direction)
    ensures Matches(RenderStat(email, dir))
  {
    assert RenderStat(email, dir)[0..|PREFIX|] == PREFIX;
    assert OccursAt(RenderStat(email, dir), PREFIX, 0);
  }

  /** Bytes listed under one counter name. */
  function NameSum(stats: seq<Stat>, name: string): int {
    if stats == [] then 0
    else
      var s := stats[|stats| - 1];
      NameSum(stats[..|stats| - 1], name) + if s.name == name then s.value else 0
  }

  lemma {:induction false} StatSumIsNameSum(stats: seq<Stat>, email: string, dir: Direction, name: string)
    requires email != "" && name == RenderStat(email, dir)
    ensures StatSum(stats, email, dir) == NameSum(stats, name)
    decreases |stats|
  {
    if stats == [] {
    } else {
      ParseIsInverse(stats[|stats| - 1].name, email, dir);
      StatSumIsNameSum(stats[..|stats| - 1], email, dir, name);
    }
  }

  /** With distinct names, a name's sum is its own entry's value, or nothing. */
  lemma {:induction false} NameSumOnce(stats: seq<Stat>, name: string, i: int)
    requires forall a, b :: 0 <= a < b < |stats| ==> stats[a].name != stats[b].name
    ensures 0 <= i < |stats| && stats[i].name == name ==> NameSum(stats, name) == stats[i].value
    ensures !Lists(stats, name) ==> NameSum(stats, name) == 0
    decreases |stats|
  {
    if stats == [] {
    } else {
      var last := |stats| - 1;
      var h := stats[..last];
      NameSumOnce(h, name, i);
      if Lists(h, name) {
        var j :| 0 <= j < |h| && h[j].name == name;
        assert stats[j].name == name;
      }
      assert stats[last].name == name ==> !Lists(h, name);
    }
  }

  /** A successful query hands over exactly what the node held for the email, and leaves it nothing. */
  lemma QueryMovesCounter(stats: seq<Stat>, counters: map<string, nat>, email: string, dir: Direction)
    requires email != "" && Reports(stats, counters)
    ensures StatSum(stats, email, dir) == CounterOf(counters, email, dir)
    ensures CounterOf(Zeroed(counters, stats), email, dir) == 0
  {
    var name := RenderStat(email, dir);
    StatSumIsNameSum(stats, email, dir, name);
    RenderedMatches(email, dir);
    if name in counters {
      assert Lists(stats, name);
      var i :| 0 <= i < |stats| && stats[i].name == name;
      NameSumOnce(stats, name, i);
    } else {
      NameSumOnce(stats, name, -1);
    }
  }

  // ---------------------------------------------------------------- the flow of bytes

  datatype Posting = Posting(email: string, traffic: Traffic)

  function PostSum(ps: seq<Posting>, email: string, dir: Direction): int {
    if ps == [] then 0
    else PostSum(ps[..|ps| - 1], email, dir) + if ps[|ps| - 1].email == email then ps[|ps| - 1].traffic.Of(dir) else 0
  }

  lemma {:induction false} PostSumAppend(a: seq<Posting>, b: seq<Posting>, email: string, dir: Direction)
    ensures PostSum(a + b, email, dir) == PostSum(a, email, dir) + PostSum(b, email, dir)
    decreases |b|
  {
    if b == [] {
      assert a + b == a;
    } else {
      assert (a + b)[..|a + b| - 1] == a + b[..|b| - 1];
      PostSumAppend(a, b[..|b| - 1], email, dir);
    }
  }

  /**
   Where the bytes of one actor's node are: on the node, in the buffer, in the store, or dropped; and all ever
   generated.
   */
  datatype Meter = Meter(counters: map<string, nat>, pending: Tally, posted: seq<Posting>, dropped: seq<Posting>,
    generated: seq<Posting>)

  ghost predicate Conserved(m: Meter) {
    forall email, dir :: email != "" ==> Account(m, email, dir) == PostSum(m.generated, email, dir)
  }

  function Account(m: Meter, email: string, dir: Direction): int {
    CounterOf(m.counters, email, dir) + Held(m.pending, email, dir) + PostSum(m.posted, email, dir) +
      PostSum(m.dropped, email, dir)
  }

  /** A user moves `n` bytes through the node. */
  ghost predicate GrowStep(m: Meter, m': Meter, email: string, dir: Direction, n: nat) {
    && email != ""
    && m' == m.(counters := m.counters[RenderStat(email, dir) := CounterOf(m.counters, email, dir) + n],
                generated := m.generated + [Posting(email, Grown(Traffic(0, 0), dir, n))])
  }

  /** How far one collection got: not read, read but not stored, or stored. */
  datatype Outcome = Unread | Kept | Stored

  ghost predicate CollectStep(m: Meter, m': Meter, o: Outcome, stats: seq<Stat>, known: set<string>) {
    match o
    case Unread => m' == m
    case Kept =>
      && Reports(stats, m.counters) && m' == m.(counters := Zeroed(m.counters, stats), pending := m'.pending)
      && forall e, dir :: Held(m'.pending, e, dir) == Held(m.pending, e, dir) + StatSum(stats, e, dir)
    case Stored =>
      && Reports(stats, m.counters) && m'.counters == Zeroed(m.counters, stats)
      && m'.pending == map[] && m'.generated == m.generated
      && m.posted <= m'.posted && m.dropped <= m'.dropped
      && forall e, dir ::
           var total := Held(m.pending, e, dir) + StatSum(stats, e, dir);
           && PostSum(m'.posted[|m.posted|..], e, dir) == (if e in known then total else 0)
           && PostSum(m'.dropped[|m.dropped|..], e, dir) == (if e in known then 0 else total)
  }

  /** The emails in use. */
  function Emails(us: Users): set<string> { set id | id in us :: us[id].email }

  /** Storing what is buffered, for the emails known when they were resolved; the rest is dropped. */
  ghost predicate FlushStep(m: Meter, m': Meter, known: set<string>) {
    && m' == m.(pending := map[], posted := m'.posted, dropped := m'.dropped)
    && m.posted <= m'.posted && m.dropped <= m'.dropped
    && forall e, dir ::
         && PostSum(m'.posted[|m.posted|..], e, dir) == (if e in known then Held(m.pending, e, dir) else 0)
         && PostSum(m'.dropped[|m.dropped|..], e, dir) == (if e in known then 0 else Held(m.pending, e, dir))
  }

  /** The commit beside it: each user whose email was known is credited what was buffered and read for that email. */
  ghost predicate Credits(us: Users, us': Users, deltas: seq<TrafficStore.Delta>, pending: Tally, stats: seq<Stat>,
      known: set<string>)
  {
    && us' == QuotaSwept(TrafficStore.Credited(us, deltas))
    && forall id, dir :: id in us ==>
         TrafficStore.DeltaSum(deltas, id, dir) ==
           if us[id].email in known then Held(pending, us[id].email, dir) + StatSum(stats, us[id].email, dir) else 0
  }

  lemma RenderInjective(e: string, d: Direction, e': string, d': Direction)
    requires e != "" && e' != "" && RenderStat(e, d) == RenderStat(e', d')
    ensures e == e' && d == d'
  {
    RenderThenParse(e, d);
    RenderThenParse(e', d');
  }

  lemma GrowConserves(m: Meter, m': Meter, email: string, dir: Direction, n: nat)
    requires Conserved(m) && GrowStep(m, m', email, dir, n)
    ensures Conserved(m')
  {
    var p := Posting(email, Grown(Traffic(0, 0), dir, n));
    forall e, d | e != "" ensures Account(m', e, d) == PostSum(m'.generated, e, d) {
      assert Account(m, e, d) == PostSum(m.generated, e, d);
      assert (m.generated + [p])[..|m.generated|] == m.generated;
      if RenderStat(e, d) == RenderStat(email, dir) { RenderInjective(e, d, email, dir); }
    }
  }

  lemma PrefixSum(a: seq<Posting>, b: seq<Posting>, e: string, d: Direction)
    requires a <= b
    ensures PostSum(b, e, d) == PostSum(a, e, d) + PostSum(b[|a|..], e, d)
  {
    assert b == a + b[|a|..];
    PostSumAppend(a, b[|a|..], e, d);
  }

  lemma CollectKeepsAccount(m: Meter, m': Meter, o: Outcome, stats: seq<Stat>, known: set<string>, e: string,
      d: Direction)
    requires CollectStep(m, m', o, stats, known) && e != ""
    ensures Account(m', e, d) == Account(m, e, d) && m'.generated == m.generated
  {
    if !o.Unread? { QueryMovesCounter(stats, m.counters, e, d); }
    if o.Stored? {
      PrefixSum(m.posted, m'.posted, e, d);
      PrefixSum(m.dropped, m'.dropped, e, d);
    }
  }

  /** Collecting, wherever it stops, moves bytes along and neither loses nor doubles any. */
  lemma CollectConserves(m: Meter, m': Meter, o: Outcome, stats: seq<Stat>, known: set<string>)
    requires Conserved(m) && CollectStep(m, m', o, stats, known)
    ensures Conserved(m')
  {
    forall e, d | e != "" ensures Account(m', e, d) == PostSum(m'.generated, e, d) {
      assert Account(m, e, d) == PostSum(m.generated, e, d);
      CollectKeepsAccount(m, m', o, stats, known, e, d);
    }
  }

  lemma FlushKeepsAccount(m: Meter, m': Meter, known: set<string>, e: string, d: Direction)
    requires FlushStep(m, m', known)
    ensures Account(m', e, d) == Account(m, e, d) && m'.generated == m.generated
  {
    PrefixSum(m.posted, m'.posted, e, d);
    PrefixSum(m.dropped, m'.dropped, e, d);
  }

  lemma FlushConserves(m: Meter, m': Meter, known: set<string>)
    requires Conserved(m) && FlushStep(m, m', known)
    ensures Conserved(m')
  {
    forall e, d | e != "" ensures Account(m', e, d) == PostSum(m'.generated, e, d) {
      assert Account(m, e, d) == PostSum(m.generated, e, d);
      FlushKeepsAccount(m, m', known, e, d);
    }
  }

  ghost predicate MeterStep(m: Meter, m': Meter) {
    || (exists email, dir, n: nat :: GrowStep(m, m', email, dir, n))
    || (exists o, stats, known :: CollectStep(m, m', o, stats, known))
  }

  /**
   Conservation over every run: bytes generated = still on the node + buffered + stored + dropped for unknown emails,
   per email and direction, after any growth and any collections failing at any stage.
   */
  lemma {:induction false} RunConserves(ms: seq<Meter>, k: nat)
    requires k < |ms| && Conserved(ms[0]) && forall i :: 0 <= i < |ms| - 1 ==> MeterStep(ms[i], ms[i + 1])
    ensures Conserved(ms[k])
  {
    if k > 0 {
      RunConserves(ms, k - 1);
      var m, m' := ms[k - 1], ms[k];
      assert MeterStep(ms[k - 1], ms[k - 1 + 1]);
      if email, dir, n: nat :| GrowStep(m, m', email, dir, n) {
        GrowConserves(m, m', email, dir, n);
      } else {
        var o, stats, known :| CollectStep(m, m', o, stats, known);
        CollectConserves(m, m', o, stats, known);
      }
    }
  }

  // ---------------------------------------------------------------- the collector as the actor runs it

  /** The node's stats service. A failed query resets nothing. */
  class XrayStats {
    var counters: map<string, nat>

    constructor ()
      ensures counters == map[]
    {
      counters := map[];
    }

    method QueryStats(ok: bool) returns (stats: seq<Stat>)
      modifies this
      ensures ok ==> Reports(stats, old(counters)) && counters == Zeroed(old(counters), stats)
      ensures !ok ==> counters == old(counters)
    {
      stats := [];
      if !ok { return; }
      var todo := counters.Keys;
      while todo != {}
        invariant todo <= counters.Keys && counters == old(counters)
        invariant forall i, j :: 0 <= i < j < |stats| ==> stats[i].name != stats[j].name
        invariant forall i :: 0 <= i < |stats| ==>
          stats[i].name in counters && counters[stats[i].name] == stats[i].value && stats[i].name !in todo
        invariant forall name :: name in counters && Matches(name) ==> name in todo || Lists(stats, name)
        decreases |todo|
      {
        var name :| name in todo;
        todo := todo - {name};
        if Matches(name) {
          ghost var before := stats;
          stats := stats + [Stat(name, counters[name])];
          assert stats[|before|].name == name;
          forall other | Lists(before, other) ensures Lists(stats, other) {
            var i :| 0 <= i < |before| && before[i].name == other;
            assert stats[i].name == other;
          }
        }
      }
      counters := map name | name in counters :: if Lists(stats, name) then 0 else counters[name];
    }
  }

  /** Which calls of a collection succeed. */
  datatype Luck = Luck(dial: bool, query: bool, lookup: bool, commit: bool)

  /** UserIDsByEmail, for the emails asked about. */
  ghost predicate Resolves(ids: map<string, Id>, us: Users, emails: set<string>) {
    && (forall e :: e in ids ==> e in emails && ids[e] in us && us[ids[e]].email == e)
    && (forall id :: id in us && us[id].email in emails ==> us[id].email in ids)
  }

  method UserIDsByEmail(us: Users, emails: set<string>) returns (ids: map<string, Id>)
    ensures Resolves(ids, us, emails)
  {
    ids := map[];
    var todo := us.Keys;
    while todo != {}
      invariant todo <= us.Keys
      invariant forall e :: e in ids ==> e in emails && ids[e] in us && us[ids[e]].email == e
      invariant forall id :: id in us && id !in todo && us[id].email in emails ==> us[id].email in ids
      decreases |todo|
    {
      var id :| id in todo;
      todo := todo - {id};
      if us[id].email in emails { ids := ids[us[id].email := id]; }
    }
  }

  /** Fresh counters are merged into whatever an earlier failed write left behind. */
  method Merge(pending: Tally, incoming: Tally) returns (merged: Tally)
    ensures forall e, dir :: Held(merged, e, dir) == Held(pending, e, dir) + Held(incoming, e, dir)
  {
    merged := pending;
    var todo := incoming.Keys;
    while todo != {}
      invariant todo <= incoming.Keys
      invariant forall e, dir ::
        Held(merged, e, dir) == Held(pending, e, dir) + if e in todo then 0 else Held(incoming, e, dir)
      invariant forall e :: e in todo ==> (e in merged <==> e in pending)
      decreases |todo|
    {
      var e :| e in todo;
      todo := todo - {e};
      var t := incoming[e];
      if e in merged {
        merged := merged[e := Traffic(merged[e].up + t.up, merged[e].down + t.down)];
      } else {
        merged := merged[e := t];
      }
    }
  }

  /** Split the buffer into store deltas for known emails and a rest that is dropped. */
  method BuildDeltas(pending: Tally, ids: map<string, Id>, ghost us: Users)
    returns (deltas: seq<TrafficStore.Delta>, ghost posted: seq<Posting>, ghost dropped: seq<Posting>)
    requires UniqueEmails(us) && Resolves(ids, us, pending.Keys)
    ensures forall e, dir :: PostSum(posted, e, dir) == if e in ids then Held(pending, e, dir) else 0
    ensures forall e, dir :: PostSum(dropped, e, dir) == if e in ids then 0 else Held(pending, e, dir)
    ensures forall id, dir :: id in us ==> TrafficStore.DeltaSum(deltas, id, dir) == Held(pending, us[id].email, dir)
    ensures forall d :: d in deltas ==> d.user in us
  {
    deltas, posted, dropped := [], [], [];
    var todo := pending.Keys;
    while todo != {}
      invariant todo <= pending.Keys
      invariant forall e, dir :: PostSum(posted, e, dir) == if e in ids && e !in todo then Held(pending, e, dir) else 0
      invariant forall e, dir :: PostSum(dropped, e, dir) == if e in ids || e in todo then 0 else Held(pending, e, dir)
      invariant forall d :: d in deltas ==> d.user in us
      invariant forall id, dir :: id in us ==>
        TrafficStore.DeltaSum(deltas, id, dir) == if us[id].email in todo then 0 else Held(pending, us[id].email, dir)
      decreases |todo|
    {
      var e :| e in todo;
      todo := todo - {e};
      ghost var p := [Posting(e, pending[e])];
      ghost var d0, p0, q0 := deltas, posted, dropped;
      if e in ids {
        deltas, posted := deltas + [TrafficStore.Delta(ids[e], pending[e])], posted + p;
        assert deltas[..|d0|] == d0 && posted[..|p0|] == p0;
        forall id, dir | id in us
          ensures TrafficStore.DeltaSum(deltas, id, dir) ==
            if us[id].email in todo then 0 else Held(pending, us[id].email, dir)
        {
          assert TrafficStore.DeltaSum(d0, id, dir) ==
            if us[id].email in todo + {e} then 0 else Held(pending, us[id].email, dir);
          assert us[id].email == e <==> id == ids[e];
        }
      } else {
        dropped := dropped + p;
        assert dropped[..|q0|] == q0;
      }
    }
  }

  class NodeActor {
    const node: Id
    const xray: XrayStats
    const store: TrafficStore.Store
    var connected: bool
    var pendingDeltas: Tally
    ghost var posted: seq<Posting>
    ghost var dropped: seq<Posting>

    constructor (node: Id, xray: XrayStats, store: TrafficStore.Store)
      ensures this.node == node && this.xray == xray && this.store == store && !connected
      ensures pendingDeltas == map[] && posted == [] && dropped == []
    {
      this.node, this.xray, this.store, connected := node, xray, store, false;
      pendingDeltas, posted, dropped := map[], [], [];
    }

    ghost function View(generated: seq<Posting>): Meter
      reads this, xray
    {
      Meter(xray.counters, pendingDeltas, posted, dropped, generated)
    }

    /**
     Read and reset, merge, resolve, persist, clear. Each call is one step of the metering run. Nothing is read exactly
     if the node cannot be reached or the query fails; what was read is stored at once unless the lookup or the commit
     fails, and then every user is credited what was pending for that user's email, the buffer is empty, and the users
     suspended are reported.
     */
    method Collect(at: int, l: Luck, ghost generated: seq<Posting>)
      returns (o: Outcome, suspended: set<Id>, ghost stats: seq<Stat>, ghost deltas: seq<TrafficStore.Delta>)
      requires store.Balanced() && UniqueEmails(store.users) && xray as object != store
      modifies this, xray, store
      ensures store.Balanced() && CollectStep(old(View(generated)), View(generated), o, stats, Emails(old(store.users)))
      ensures o.Unread? <==> !((old(connected) || l.dial) && l.query)
      ensures o.Stored? ==> l.lookup && l.commit
      ensures !o.Unread? && l.lookup && l.commit ==> pendingDeltas == map[]
      ensures connected <==> (old(connected) || l.dial) && l.query
      ensures o.Stored? ==>
        Credits(old(store.users), store.users, deltas, old(pendingDeltas), stats, Emails(old(store.users)))
      ensures o.Stored? ==> suspended == QuotaHits(TrafficStore.Credited(old(store.users), deltas))
      ensures !o.Stored? ==> store.users == old(store.users) && suspended == {}
      ensures store.forgiven == old(store.forgiven)
    {
      o, suspended, stats, deltas := Unread, {}, [], [];
      if !connected { connected := l.dial; }
      if !connected { return; }
      var answer := xray.QueryStats(l.query);
      stats := answer;
      if !l.query {
        connected := false;
        return;
      }
      var traffic := QueryUserTraffic(answer);
      pendingDeltas := Merge(pendingDeltas, traffic);
      o := Kept;
      var stored;
      stored, suspended, deltas := Persist(at, l);
      if stored { o := Stored; }
    }

    /** Resolve the buffered emails and commit; only a commit clears the buffer. */
    method Persist(at: int, l: Luck) returns (stored: bool, suspended: set<Id>, ghost deltas: seq<TrafficStore.Delta>)
      requires store.Balanced() && UniqueEmails(store.users)
      modifies this`pendingDeltas, this`posted, this`dropped, store
      ensures store.Balanced()
      ensures !stored ==> pendingDeltas == old(pendingDeltas) && posted == old(posted) && dropped == old(dropped)
      ensures !stored ==> store.users == old(store.users) && suspended == {}
      ensures stored <==> old(pendingDeltas) != map[] && l.lookup && l.commit
      ensures stored ==> FlushStep(old(View([])), View([]), Emails(old(store.users)))
      ensures stored ==>
        Credits(old(store.users), store.users, deltas, old(pendingDeltas), [], Emails(old(store.users)))
      ensures stored ==> suspended == QuotaHits(TrafficStore.Credited(old(store.users), deltas))
      ensures store.forgiven == old(store.forgiven)
    {
      stored, suspended, deltas := false, {}, [];
      if |pendingDeltas| == 0 { return; }
      if !l.lookup { return; }
      var ids := UserIDsByEmail(store.users, pendingDeltas.Keys);
      var ds;
      ghost var ps, qs;
      ds, ps, qs := BuildDeltas(pendingDeltas, ids, store.users);
      var ok;
      ok, suspended := store.ApplyTrafficDeltas(node, ds, at, l.commit);
      if !ok { return; }
      deltas := ds;
      assert forall e :: e in old(pendingDeltas) ==> (e in ids <==> e in Emails(old(store.users)));
      assert (posted + ps)[|posted|..] == ps && (dropped + qs)[|dropped|..] == qs;
      pendingDeltas, posted, dropped, stored := map[], posted + ps, dropped + qs, true;
    }
  }
}
