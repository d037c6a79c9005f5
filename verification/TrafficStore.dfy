/** traffic_snapshots and the users' running totals: committing deltas, resetting, pruning and reporting usage. */
module TrafficStore {
  import opened Domain
  import opened Sweeps

  const Nothing := Traffic(0, 0)

  /** One user's increment for a collection cycle. */
  datatype Delta = Delta(user: Id, traffic: Traffic)

  datatype Snapshot = Snapshot(user: Id, node: Id, traffic: Traffic, at: int)

  // ---------------------------------------------------------------- committing deltas

  function Credit(us: Users, d: Delta): Users {
    if d.user !in us then us
    else
      var u := us[d.user];
      us[d.user := u.(usedUp := u.usedUp + d.traffic.up, usedDown := u.usedDown + d.traffic.down)]
  }

  function Credited(us: Users, ds: seq<Delta>): Users {
    if ds == [] then us else Credit(Credited(us, ds[..|ds| - 1]), ds[|ds| - 1])
  }

  /** The snapshot row for one delta: none for an idle user. */
  function RowFor(d: Delta, node: Id, at: int): seq<Snapshot> {
    if d.traffic == Nothing then [] else [Snapshot(d.user, node, d.traffic, at)]
  }

  function RowsFor(ds: seq<Delta>, node: Id, at: int): seq<Snapshot> {
    if ds == [] then [] else RowsFor(ds[..|ds| - 1], node, at) + RowFor(ds[|ds| - 1], node, at)
  }

  /** Foreign key of traffic_snapshots: a row for an unknown user aborts the transaction. */
  predicate Insertable(us: Users, ds: seq<Delta>) {
    forall d :: d in ds && d.traffic != Nothing ==> d.user in us
  }

  function Used(us: Users, id: Id, dir: Direction): int
    requires id in us
  {
    if dir.Uplink? then us[id].usedUp else us[id].usedDown
  }

  function DeltaSum(ds: seq<Delta>, id: Id, dir: Direction): int {
    if ds == [] then 0
    else DeltaSum(ds[..|ds| - 1], id, dir) + if ds[|ds| - 1].user == id then ds[|ds| - 1].traffic.Of(dir) else 0
  }

  function SnapSum(ss: seq<Snapshot>, id: Id, dir: Direction): int {
    if ss == [] then 0
    else SnapSum(ss[..|ss| - 1], id, dir) + if ss[|ss| - 1].user == id then ss[|ss| - 1].traffic.Of(dir) else 0
  }

  lemma {:induction false} SnapSumAppend(a: seq<Snapshot>, b: seq<Snapshot>, id: Id, dir: Direction)
    ensures SnapSum(a + b, id, dir) == SnapSum(a, id, dir) + SnapSum(b, id, dir)
    decreases |b|
  {
    if b == [] {
      assert a + b == a;
    } else {
      assert (a + b)[..|a + b| - 1] == a + b[..|b| - 1];
      SnapSumAppend(a, b[..|b| - 1], id, dir);
    }
  }

  lemma {:induction false} NoRowsNoBytes(ss: seq<Snapshot>, id: Id, dir: Direction)
    requires forall s :: s in ss ==> s.user != id
    ensures SnapSum(ss, id, dir) == 0
    decreases |ss|
  {
    if ss == [] {
    } else {
      NoRowsNoBytes(ss[..|ss| - 1], id, dir);
    }
  }

  /** Crediting touches nothing but the counters. */
  lemma {:induction false} CreditedFrame(us: Users, ds: seq<Delta>, id: Id)
    ensures Credited(us, ds).Keys == us.Keys
    ensures id in us ==> var u' := Credited(us, ds)[id]; u' == us[id].(usedUp := u'.usedUp, usedDown := u'.usedDown)
    decreases |ds|
  {
    if ds == [] {
    } else {
      CreditedFrame(us, ds[..|ds| - 1], id);
    }
  }

  lemma {:induction false} CreditedSum(us: Users, ds: seq<Delta>, id: Id, dir: Direction)
    requires id in us
    ensures id in Credited(us, ds) && Used(Credited(us, ds), id, dir) == Used(us, id, dir) + DeltaSum(ds, id, dir)
    decreases |ds|
  {
    if ds == [] {
    } else {
      CreditedSum(us, ds[..|ds| - 1], id, dir);
    }
  }

  lemma RowSum(d: Delta, node: Id, at: int, id: Id, dir: Direction)
    ensures SnapSum(RowFor(d, node, at), id, dir) == if d.user == id then d.traffic.Of(dir) else 0
  {
    var row := RowFor(d, node, at);
    if d.traffic != Nothing { assert row[..|row| - 1] == []; }
  }

  lemma {:induction false} RowsSum(ds: seq<Delta>, node: Id, at: int, id: Id, dir: Direction)
    ensures SnapSum(RowsFor(ds, node, at), id, dir) == DeltaSum(ds, id, dir)
    decreases |ds|
  {
    if ds == [] {
    } else {
      var h, d := ds[..|ds| - 1], ds[|ds| - 1];
      RowsSum(h, node, at, id, dir);
      SnapSumAppend(RowsFor(h, node, at), RowFor(d, node, at), id, dir);
      RowSum(d, node, at, id, dir);
    }
  }

  /** What a user's totals gain in a commit is what the commit's snapshots record for that user. */
  lemma CreditsMatchSnapshots(us: Users, ds: seq<Delta>, node: Id, at: int, id: Id, dir: Direction)
    requires id in us
    ensures id in Credited(us, ds)
    ensures Used(Credited(us, ds), id, dir) == Used(us, id, dir) + SnapSum(RowsFor(ds, node, at), id, dir)
  {
    CreditedSum(us, ds, id, dir);
    RowsSum(ds, node, at, id, dir);
  }

  ghost predicate Balance(us: Users, forgiven: map<Id, Traffic>, inserted: seq<Snapshot>) {
    && forgiven.Keys == us.Keys
    && forall id, dir :: id in us ==> Used(us, id, dir) + forgiven[id].Of(dir) == SnapSum(inserted, id, dir)
  }

  lemma CommitBalances(us: Users, forgiven: map<Id, Traffic>, inserted: seq<Snapshot>, ds: seq<Delta>, node: Id,
      at: int)
    requires Balance(us, forgiven, inserted)
    ensures Balance(QuotaSwept(Credited(us, ds)), forgiven, inserted + RowsFor(ds, node, at))
  {
    var us', rows := QuotaSwept(Credited(us, ds)), RowsFor(ds, node, at);
    CreditedFrame(us, ds, "");
    forall id, dir | id in us ensures Used(us', id, dir) + forgiven[id].Of(dir) == SnapSum(inserted + rows, id, dir) {
      CreditsMatchSnapshots(us, ds, node, at, id, dir);
      SnapSumAppend(inserted, rows, id, dir);
    }
  }

  function Forgive(f: Traffic, u: User): Traffic { Traffic(f.up + u.usedUp, f.down + u.usedDown) }

  lemma ResetBalances(us: Users, forgiven: map<Id, Traffic>, inserted: seq<Snapshot>, id: Id)
    requires Balance(us, forgiven, inserted) && id in us
    ensures Balance(us[id := us[id].Emptied()], forgiven[id := Forgive(forgiven[id], us[id])],
      inserted)
  {
    var us', f' := us[id := us[id].Emptied()], forgiven[id := Forgive(forgiven[id], us[id])];
    forall j, dir | j in us' ensures Used(us', j, dir) + f'[j].Of(dir) == SnapSum(inserted, j, dir) {
      assert Used(us, j, dir) + forgiven[j].Of(dir) == SnapSum(inserted, j, dir);
    }
  }

  /** The users, users' totals and snapshots, with everything ever inserted and every byte a reset has forgiven. */
  class Store {
    var users: Users
    var snapshots: seq<Snapshot>
    ghost var inserted: seq<Snapshot>
    ghost var forgiven: map<Id, Traffic>

    constructor ()
      ensures Balanced() && users == map[] && snapshots == [] && inserted == []
    {
      users, snapshots, inserted, forgiven := map[], [], [], map[];
    }

    /** A new user under an id never used before starts with empty counters. */
    method Enroll(id: Id, u: User)
      requires Balanced() && id !in users && u.usedUp == u.usedDown == 0
      requires forall s :: s in inserted ==> s.user != id
      modifies this`users, this`forgiven
      ensures Balanced() && users == old(users)[id := u]
    {
      forall dir ensures SnapSum(inserted, id, dir) == 0 { NoRowsNoBytes(inserted, id, dir); }
      users, forgiven := users[id := u], forgiven[id := Nothing];
    }

    /** Totals plus forgiven bytes are all the bytes ever recorded for the user. */
    ghost predicate Balanced()
      reads this
    {
      Balance(users, forgiven, inserted)
    }

    /**
     In one transaction: record the deltas, raise the totals, then suspend every active user now over quota and
     report exactly those. A failed transaction changes nothing.
     */
    method ApplyTrafficDeltas(node: Id, deltas: seq<Delta>, at: int, commits: bool)
      returns (ok: bool, overQuota: set<Id>)
      requires Balanced()
      modifies this`users, this`snapshots, this`inserted
      ensures Balanced() && (ok <==> commits && Insertable(old(users), deltas))
      ensures users == if ok then QuotaSwept(Credited(old(users), deltas)) else old(users)
      ensures overQuota == if ok then QuotaHits(Credited(old(users), deltas)) else {}
      ensures snapshots == if ok then old(snapshots) + RowsFor(deltas, node, at) else old(snapshots)
      ensures inserted == if ok then old(inserted) + RowsFor(deltas, node, at) else old(inserted)
      ensures ok ==> forall id, dir :: id in old(users) ==>
        id in users && Used(users, id, dir) == Used(old(users), id, dir) + DeltaSum(deltas, id, dir)
      ensures forall id, from, to, g, key, dir ::
        InBucket(Usage(snapshots, id, from, to, g), key, dir) ==
          InBucket(Usage(old(snapshots), id, from, to, g), key, dir)
          + if ok && ShowsIn(from, to, g, key, node, at) then DeltaSum(deltas, id, dir) else 0
    {
      ok, overQuota := commits, {};
      if !ok { return; }
      var us, rows;
      ok, us, rows := Accumulate(users, node, deltas, at);
      if !ok { return; }
      CommitBalances(users, forgiven, inserted, deltas, node, at);
      forall id, dir | id in users
        ensures id in us && Used(us, id, dir) == Used(users, id, dir) + DeltaSum(deltas, id, dir)
      {
        CreditedSum(users, deltas, id, dir);
      }
      forall id, from, to, g, key, dir
        ensures InBucket(Usage(snapshots + rows, id, from, to, g), key, dir) ==
          InBucket(Usage(snapshots, id, from, to, g), key, dir)
          + if ShowsIn(from, to, g, key, node, at) then DeltaSum(deltas, id, dir) else 0
      {
        CommitShowsInReports(snapshots, deltas, node, at, id, from, to, g, key, dir);
      }
      overQuota, users := SuspendOverQuota(us);
      snapshots, inserted := snapshots + rows, inserted + rows;
    }

    /** ResetTraffic: zero the totals; the bytes so far are forgiven, not forgotten. */
    method ResetTraffic(id: Id) returns (found: bool)
      requires Balanced()
      modifies this`users, this`forgiven
      ensures Balanced() && found == (id in old(users))
      ensures users == if found then old(users)[id := old(users)[id].Emptied()] else old(users)
    {
      found := id in users;
      if !found { return; }
      ResetBalances(users, forgiven, inserted, id);
      forgiven := forgiven[id := Forgive(forgiven[id], users[id])];
      users := users[id := users[id].Emptied()];
    }

    method PruneSnapshots(before: int) returns (removed: nat)
      requires Balanced()
      modifies this`snapshots
      ensures Balanced() && snapshots == Since(old(snapshots), before) && removed == |old(snapshots)| - |snapshots|
    {
      var kept := [];
      var i := 0;
      while i < |snapshots|
        invariant 0 <= i <= |snapshots| && kept == Since(snapshots[..i], before) && |kept| <= i
      {
        assert snapshots[..i + 1][..i] == snapshots[..i];
        if !(snapshots[i].at < before) { kept := kept + [snapshots[i]]; }
        i := i + 1;
      }
      assert snapshots[..i] == snapshots;
      removed := |snapshots| - |kept|;
      snapshots := kept;
    }
  }

  /** One more delta: idle ones are skipped, the rest leave a row and raise the totals. */
  lemma OneMoreDelta(us: Users, ds: seq<Delta>, i: nat, node: Id, at: int)
    requires i < |ds|
    ensures Credited(us, ds[..i + 1]) == Credit(Credited(us, ds[..i]), ds[i])
    ensures RowsFor(ds[..i + 1], node, at) == RowsFor(ds[..i], node, at) + RowFor(ds[i], node, at)
    ensures Insertable(us, ds[..i + 1]) <==> Insertable(us, ds[..i]) && (ds[i].traffic != Nothing ==> ds[i].user in us)
  {
    assert ds[..i + 1][..i] == ds[..i] && ds[..i + 1] == ds[..i] + [ds[i]];
  }

  /** The loop of the transaction, on its own copy of the totals; a delta for an unknown user aborts it. */
  method Accumulate(users: Users, node: Id, deltas: seq<Delta>, at: int)
    returns (ok: bool, us: Users, rows: seq<Snapshot>)
    ensures ok <==> Insertable(users, deltas)
    ensures ok ==> us == Credited(users, deltas) && rows == RowsFor(deltas, node, at)
  {
    ok, us, rows := true, users, [];
    for i := 0 to |deltas|
      invariant ok && us == Credited(users, deltas[..i]) && rows == RowsFor(deltas[..i], node, at)
      invariant us.Keys == users.Keys && Insertable(users, deltas[..i])
    {
      var d := deltas[i];
      OneMoreDelta(users, deltas, i, node, at);
      if d.traffic.up == 0 && d.traffic.down == 0 {
        IdleDelta(us, d);
      } else {
        if d.user !in us {
          assert d in deltas;
          return false, us, rows;
        }
        rows := rows + [Snapshot(d.user, node, d.traffic, at)];
        us := Credit(us, d);
      }
    }
    assert deltas[..|deltas|] == deltas;
  }

  /** UPDATE users SET status = 'suspended' ... RETURNING id. */
  method SuspendOverQuota(us: Users) returns (hits: set<Id>, us': Users)
    ensures hits == QuotaHits(us) && us' == QuotaSwept(us)
  {
    hits := set id | id in us && us[id].status == Active && us[id].dataLimit.Some?
                     && us[id].usedUp + us[id].usedDown >= us[id].dataLimit.value;
    us' := map id | id in us :: if id in hits then us[id].(status := Suspended) else us[id];
  }

  lemma IdleDelta(us: Users, d: Delta)
    requires d.traffic == Nothing
    ensures Credit(us, d) == us
  {
  }

  function Since(ss: seq<Snapshot>, t: int): seq<Snapshot> {
    if ss == [] then []
    else Since(ss[..|ss| - 1], t) + if ss[|ss| - 1].at < t then [] else [ss[|ss| - 1]]
  }

  // ---------------------------------------------------------------- usage reports

  datatype Grouping = ByDay | ByNode

  /** The UTC day number stands for its date. */
  datatype BucketKey = OfDay(day: int) | OfNode(node: Id)

  datatype Bucket = Bucket(key: BucketKey, traffic: Traffic)

  function KeyOf(s: Snapshot, g: Grouping): BucketKey { if g.ByNode? then OfNode(s.node) else OfDay(s.at / DAY) }

  predicate InRange(s: Snapshot, user: Id, from: int, to: int) { s.user == user && from <= s.at < to }

  /** Add to the bucket of that key, or open it. */
  function Pour(bs: seq<Bucket>, key: BucketKey, t: Traffic): seq<Bucket> {
    if bs == [] then [Bucket(key, t)]
    else if bs[0].key == key then [Bucket(key, Traffic(bs[0].traffic.up + t.up, bs[0].traffic.down + t.down))] + bs[1..]
    else [bs[0]] + Pour(bs[1..], key, t)
  }

  /** UserUsage: snapshots of the user with from <= collected_at < to, summed per day or per node. */
  function Usage(ss: seq<Snapshot>, user: Id, from: int, to: int, g: Grouping): seq<Bucket> {
    if ss == [] then []
    else
      var s, rest := ss[|ss| - 1], Usage(ss[..|ss| - 1], user, from, to, g);
      if InRange(s, user, from, to) then Pour(rest, KeyOf(s, g), s.traffic) else rest
  }

  function BucketTotal(bs: seq<Bucket>, dir: Direction): int {
    if bs == [] then 0 else bs[0].traffic.Of(dir) + BucketTotal(bs[1..], dir)
  }

  /** Bytes in the bucket of `key`, 0 if the report has none. */
  function InBucket(bs: seq<Bucket>, key: BucketKey, dir: Direction): int {
    if bs == [] then 0 else (if bs[0].key == key then bs[0].traffic.Of(dir) else 0) + InBucket(bs[1..], key, dir)
  }

  /** Bytes of the snapshots in range, all of them or those of one bucket key. */
  function RangeTotal(ss: seq<Snapshot>, user: Id, from: int, to: int, dir: Direction): int {
    if ss == [] then 0
    else
      var s, rest := ss[|ss| - 1], RangeTotal(ss[..|ss| - 1], user, from, to, dir);
      if InRange(s, user, from, to) then rest + s.traffic.Of(dir) else rest
  }

  function KeyTotal(ss: seq<Snapshot>, user: Id, from: int, to: int, g: Grouping, key: BucketKey, dir: Direction): int {
    if ss == [] then 0
    else
      var s, rest := ss[|ss| - 1], KeyTotal(ss[..|ss| - 1], user, from, to, g, key, dir);
      if InRange(s, user, from, to) && KeyOf(s, g) == key then rest + s.traffic.Of(dir) else rest
  }

  lemma {:induction false} PourTotal(bs: seq<Bucket>, key: BucketKey, t: Traffic, other: BucketKey, dir: Direction)
    ensures BucketTotal(Pour(bs, key, t), dir) == BucketTotal(bs, dir) + t.Of(dir)
    ensures InBucket(Pour(bs, key, t), other, dir) == InBucket(bs, other, dir) + if other == key then t.Of(dir) else 0
  {
    var p := Pour(bs, key, t);
    if bs == [] {
      assert p[1..] == [];
    } else if bs[0].key == key {
      assert p[1..] == bs[1..];
    } else {
      PourTotal(bs[1..], key, t, other, dir);
      assert p[1..] == Pour(bs[1..], key, t);
    }
  }

  /** Every bucket holds its key's bytes, and day report and node report both add up to the snapshots in range. */
  lemma {:induction false} ReportsAgree(ss: seq<Snapshot>, user: Id, from: int, to: int, g: Grouping, key: BucketKey,
      dir: Direction)
    ensures BucketTotal(Usage(ss, user, from, to, g), dir) == RangeTotal(ss, user, from, to, dir)
    ensures InBucket(Usage(ss, user, from, to, g), key, dir) == KeyTotal(ss, user, from, to, g, key, dir)
    decreases |ss|
  {
    if ss == [] {
    } else {
      var s, h := ss[|ss| - 1], ss[..|ss| - 1];
      ReportsAgree(h, user, from, to, g, key, dir);
      if InRange(s, user, from, to) { PourTotal(Usage(h, user, from, to, g), KeyOf(s, g), s.traffic, key, dir); }
    }
  }

  predicate HasKey(bs: seq<Bucket>, key: BucketKey) { exists i :: 0 <= i < |bs| && bs[i].key == key }

  ghost predicate OneEach(bs: seq<Bucket>) { forall i, j :: 0 <= i < j < |bs| ==> bs[i].key != bs[j].key }

  lemma {:induction false} PourKeys(bs: seq<Bucket>, key: BucketKey, t: Traffic)
    requires OneEach(bs)
    ensures OneEach(Pour(bs, key, t)) && forall k :: HasKey(Pour(bs, key, t), k) <==> HasKey(bs, k) || k == key
  {
    var p := Pour(bs, key, t);
    if bs == [] {
      assert p[0].key == key;
    } else if bs[0].key == key {
      assert forall i :: 0 <= i < |bs| ==> p[i].key == bs[i].key;
    } else {
      PourKeys(bs[1..], key, t);
      var q := Pour(bs[1..], key, t);
      assert p == [bs[0]] + q;
      forall k ensures HasKey(bs, k) <==> bs[0].key == k || HasKey(bs[1..], k) { KeysSplit(bs, k); }
      forall k ensures HasKey(p, k) <==> p[0].key == k || HasKey(q, k) { assert p[1..] == q; KeysSplit(p, k); }
      assert !HasKey(q, bs[0].key);
    }
  }

  lemma KeysSplit(bs: seq<Bucket>, k: BucketKey)
    requires bs != []
    ensures HasKey(bs, k) <==> bs[0].key == k || HasKey(bs[1..], k)
  {
    if i :| 0 <= i < |bs| && bs[i].key == k {
      assert i > 0 ==> bs[1..][i - 1].key == k;
    }
    if i :| 0 <= i < |bs[1..]| && bs[1..][i].key == k {
      assert bs[i + 1].key == k;
    }
  }

  /** A report has one bucket per key, and one exactly for the keys that occur in range. */
  lemma {:induction false} OneBucketPerKey(ss: seq<Snapshot>, user: Id, from: int, to: int, g: Grouping)
    ensures OneEach(Usage(ss, user, from, to, g))
    ensures forall k :: HasKey(Usage(ss, user, from, to, g), k) <==>
      exists s :: s in ss && InRange(s, user, from, to) && KeyOf(s, g) == k
    decreases |ss|
  {
    if ss == [] {
    } else {
      var s, h := ss[|ss| - 1], ss[..|ss| - 1];
      assert ss == h + [s];
      OneBucketPerKey(h, user, from, to, g);
      if InRange(s, user, from, to) { PourKeys(Usage(h, user, from, to, g), KeyOf(s, g), s.traffic); }
    }
  }

  /** Adjacent ranges add up. */
  lemma {:induction false} RangesAdd(ss: seq<Snapshot>, user: Id, from: int, mid: int, to: int, dir: Direction)
    requires from <= mid <= to
    ensures RangeTotal(ss, user, from, to, dir) == RangeTotal(ss, user, from, mid, dir) +
      RangeTotal(ss, user, mid, to, dir)
    decreases |ss|
  {
    if ss == [] {
    } else {
      RangesAdd(ss[..|ss| - 1], user, from, mid, to, dir);
    }
  }

  /** Whether a commit at `at` on `node` shows in this bucket of this report. */
  predicate ShowsIn(from: int, to: int, g: Grouping, key: BucketKey, node: Id, at: int) {
    from <= at < to && key == if g.ByNode? then OfNode(node) else OfDay(at / DAY)
  }

  lemma {:induction false} KeyTotalAppend(a: seq<Snapshot>, b: seq<Snapshot>, user: Id, from: int, to: int, g: Grouping,
      key: BucketKey, dir: Direction)
    ensures KeyTotal(a + b, user, from, to, g, key, dir) ==
      KeyTotal(a, user, from, to, g, key, dir) + KeyTotal(b, user, from, to, g, key, dir)
    decreases |b|
  {
    if b == [] {
      assert a + b == a;
    } else {
      assert (a + b)[..|a + b| - 1] == a + b[..|b| - 1];
      KeyTotalAppend(a, b[..|b| - 1], user, from, to, g, key, dir);
    }
  }

  lemma RowShows(d: Delta, node: Id, at: int, user: Id, from: int, to: int, g: Grouping, key: BucketKey, dir: Direction)
    ensures KeyTotal(RowFor(d, node, at), user, from, to, g, key, dir) ==
      if ShowsIn(from, to, g, key, node, at) && d.user == user then d.traffic.Of(dir) else 0
  {
    var row := RowFor(d, node, at);
    if d.traffic != Nothing { assert row[..|row| - 1] == []; }
  }

  lemma {:induction false} RowsShow(ds: seq<Delta>, node: Id, at: int, user: Id, from: int, to: int, g: Grouping,
      key: BucketKey, dir: Direction)
    ensures KeyTotal(RowsFor(ds, node, at), user, from, to, g, key, dir) ==
      if ShowsIn(from, to, g, key, node, at) then DeltaSum(ds, user, dir) else 0
    decreases |ds|
  {
    if ds == [] {
    } else {
      var h, d := ds[..|ds| - 1], ds[|ds| - 1];
      RowsShow(h, node, at, user, from, to, g, key, dir);
      KeyTotalAppend(RowsFor(h, node, at), RowFor(d, node, at), user, from, to, g, key, dir);
      RowShows(d, node, at, user, from, to, g, key, dir);
    }
  }

  /**
   A commit shows in the reports exactly where it belongs: in every report of a user over a range that includes its
   instant, the bucket of its node or of its day gains that user's deltas; every other bucket of every report is as
   before.
   */
  lemma CommitShowsInReports(ss: seq<Snapshot>, ds: seq<Delta>, node: Id, at: int, user: Id, from: int, to: int,
      g: Grouping, key: BucketKey, dir: Direction)
    ensures InBucket(Usage(ss + RowsFor(ds, node, at), user, from, to, g), key, dir) ==
      InBucket(Usage(ss, user, from, to, g), key, dir)
      + if ShowsIn(from, to, g, key, node, at) then DeltaSum(ds, user, dir) else 0
  {
    ReportsAgree(ss, user, from, to, g, key, dir);
    ReportsAgree(ss + RowsFor(ds, node, at), user, from, to, g, key, dir);
    KeyTotalAppend(ss, RowsFor(ds, node, at), user, from, to, g, key, dir);
    RowsShow(ds, node, at, user, from, to, g, key, dir);
  }

  /** Pruning takes every snapshot before the cutoff, as often as it occurs, and no other. */
  lemma {:induction false} PruningTakesExactly(ss: seq<Snapshot>, before: int, s: Snapshot)
    ensures multiset(Since(ss, before))[s] == if s.at < before then 0 else multiset(ss)[s]
    decreases |ss|
  {
    if ss == [] {
    } else {
      var h, x := ss[..|ss| - 1], ss[|ss| - 1];
      assert ss == h + [x];
      PruningTakesExactly(h, before, s);
    }
  }

  /** So a report that ends at or before the cutoff is empty. */
  lemma PruningEmptiesReports(ss: seq<Snapshot>, before: int, user: Id, from: int, to: int, g: Grouping)
    requires to <= before
    ensures Usage(Since(ss, before), user, from, to, g) == []
  {
    var kept := Since(ss, before);
    forall s | s in kept ensures s.at >= before {
      PruningTakesExactly(ss, before, s);
      assert multiset(kept)[s] > 0;
    }
    NothingInRange(kept, user, from, to, g);
  }

  lemma {:induction false} NothingInRange(ss: seq<Snapshot>, user: Id, from: int, to: int, g: Grouping)
    requires forall s :: s in ss ==> s.at >= to
    ensures Usage(ss, user, from, to, g) == []
    decreases |ss|
  {
    if ss == [] {
    } else {
      NothingInRange(ss[..|ss| - 1], user, from, to, g);
    }
  }

  /** Pruning changes no report that starts at or after the cutoff. */
  lemma {:induction false} PruningKeepsReports(ss: seq<Snapshot>, before: int, user: Id, from: int, to: int,
      g: Grouping)
    requires before <= from
    ensures Usage(Since(ss, before), user, from, to, g) == Usage(ss, user, from, to, g)
    decreases |ss|
  {
    if ss == [] {
    } else {
      var s, h := ss[|ss| - 1], ss[..|ss| - 1];
      PruningKeepsReports(h, before, user, from, to, g);
      var kept := Since(h, before);
      if s.at >= before {
        assert Since(ss, before) == kept + [s] && (kept + [s])[..|kept|] == kept;
      } else {
        assert Since(ss, before) == kept;
      }
    }
  }
}
