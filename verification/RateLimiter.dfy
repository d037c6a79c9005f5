/**
 The per-IP limiter of the public endpoints. Token levels are counted in 1/(60*10^9) of a token, so that the rate of
 perMinute/60 tokens per second is exactly `perMinute` units per nanosecond and all arithmetic is exact.
 */
module RateLimiter {
  import opened Domain

  type Ip = string

  const COST := 60_000_000_000          // one token; also the nanoseconds in a minute
  const TTL := 600_000_000_000          // ten minutes
  const SLACK := 540_000_000_000        // TTL minus the minute an empty bucket needs to fill up
  const MAX_BUCKETS := 10_000

  /** rate.Limiter: the level it had at `last`, the instant of its last granted request. */
  datatype Bucket = Bucket(level: int, last: int)

  datatype Entry = Entry(lim: Bucket, lastSeen: int)

  type Buckets = map<Ip, Entry>

  /** One request, with the instants at which the bucket is stamped, pruning is dated, and a token is asked for. */
  datatype Call = Call(ip: Ip, seen: int, cut: int, use: int)

  function Full(perMinute: nat): nat { perMinute * COST }

  function Min(a: int, b: int): int { if a <= b then a else b }

  function NewBucket(perMinute: nat): Bucket { Bucket(Full(perMinute), 0) }

  /** Level at `now`, refilled since `last` and capped at the burst. */
  function LevelAt(perMinute: nat, b: Bucket, now: int): int {
    Min(Full(perMinute), b.level + perMinute * (if b.last <= now then now - b.last else 0))
  }

  predicate Grants(perMinute: nat, b: Bucket, now: int) { LevelAt(perMinute, b, now) >= COST }

  function Taken(perMinute: nat, b: Bucket, now: int): Bucket {
    if Grants(perMinute, b, now) then Bucket(LevelAt(perMinute, b, now) - COST, now) else b
  }

  // ---------------------------------------------------------------- the limiter

  function Stamped(perMinute: nat, bs: Buckets, c: Call): Buckets {
    bs[c.ip := Entry(if c.ip in bs then bs[c.ip].lim else NewBucket(perMinute), c.seen)]
  }

  function Pruned(bs: Buckets, cut: int): Buckets {
    map ip | ip in bs && bs[ip].lastSeen >= cut - TTL :: bs[ip]
  }

  /** The bucket table after one request; a bucket pruned under its own request is answered from and forgotten. */
  function Next(perMinute: nat, bs: Buckets, c: Call): Buckets {
    var stamped := Stamped(perMinute, bs, c);
    var kept := if |stamped| > MAX_BUCKETS then Pruned(stamped, c.cut) else stamped;
    var e := stamped[c.ip];
    if c.ip in kept then kept[c.ip := e.(lim := Taken(perMinute, e.lim, c.use))] else kept
  }

  predicate Answer(perMinute: nat, bs: Buckets, c: Call) {
    Grants(perMinute, Stamped(perMinute, bs, c)[c.ip].lim, c.use)
  }

  function After(perMinute: nat, calls: seq<Call>): Buckets {
    if calls == [] then map[] else Next(perMinute, After(perMinute, calls[..|calls| - 1]), calls[|calls| - 1])
  }

  /** No limiter at all when the configured rate is not positive. */
  method NewIpLimiter(perMinute: int) returns (l: IpLimiter?)
    ensures l == null <==> perMinute <= 0
    ensures l != null ==> l.perMinute == perMinute && l.buckets == map[] && fresh(l)
  {
    if perMinute <= 0 { return null; }
    l := new IpLimiter(perMinute);
  }

  class IpLimiter {
    const perMinute: nat
    var buckets: Buckets

    constructor (perMinute: nat)
      requires perMinute > 0
      ensures this.perMinute == perMinute && buckets == After(perMinute, [])
    {
      this.perMinute, buckets := perMinute, map[];
    }

    method Allow(c: Call) returns (ok: bool)
      modifies this
      ensures buckets == Next(perMinute, old(buckets), c) && ok == Answer(perMinute, old(buckets), c)
    {
      if c.ip !in buckets {
        buckets := buckets[c.ip := Entry(NewBucket(perMinute), c.seen)];
      }
      var b := buckets[c.ip].(lastSeen := c.seen);
      buckets := buckets[c.ip := b];
      assert buckets == Stamped(perMinute, old(buckets), c);
      if |buckets| > MAX_BUCKETS {
        PruneLocked(c.cut);
      }
      ok := Grants(perMinute, b.lim, c.use);
      b := b.(lim := Taken(perMinute, b.lim, c.use));
      if c.ip in buckets {
        buckets := buckets[c.ip := b];
      }
    }

    method PruneLocked(cut: int)
      modifies this
      ensures buckets == Pruned(old(buckets), cut)
    {
      var cutoff := cut - TTL;
      var todo := buckets.Keys;
      while todo != {}
        invariant todo <= old(buckets).Keys && buckets.Keys <= old(buckets).Keys
        invariant forall ip :: ip in buckets ==> buckets[ip] == old(buckets)[ip]
        invariant forall ip :: ip in old(buckets) ==>
          (ip in buckets <==> ip in todo || old(buckets)[ip].lastSeen >= cutoff)
        decreases |todo|
      {
        var ip :| ip in todo;
        todo := todo - {ip};
        if buckets[ip].lastSeen < cutoff {
          buckets := buckets - {ip};
        }
      }
    }
  }

  // ---------------------------------------------------------------- the reference: one bucket per IP, never pruned

  /** The bucket of `ip` had it alone been kept from the start. */
  function Own(perMinute: nat, calls: seq<Call>, ip: Ip): Bucket {
    if calls == [] then NewBucket(perMinute)
    else
      var c, b := calls[|calls| - 1], Own(perMinute, calls[..|calls| - 1], ip);
      if c.ip == ip then Taken(perMinute, b, c.use) else b
  }

  function Clock(calls: seq<Call>): int { if calls == [] then 0 else calls[|calls| - 1].use }

  /** Time does not run backwards, and no request takes more than nine minutes inside the lock. */
  ghost predicate Timely(calls: seq<Call>) {
    calls == [] || (
      var c, h := calls[|calls| - 1], calls[..|calls| - 1];
      Timely(h) && Clock(h) <= c.seen <= c.cut <= c.use <= c.seen + SLACK)
  }

  /** A kept entry is the reference bucket; an absent one is full by now, like a new one. */
  ghost predicate Mirrors(perMinute: nat, bs: Buckets, calls: seq<Call>, ip: Ip) {
    var own := Own(perMinute, calls, ip);
    && 0 <= own.level <= Full(perMinute) && 0 <= own.last <= Clock(calls)
    && (ip in bs ==> bs[ip].lim == own && own.last <= bs[ip].lastSeen + SLACK)
    && (ip !in bs ==> LevelAt(perMinute, own, Clock(calls)) == Full(perMinute))
  }

  lemma MulMono(p: nat, a: int, b: int)
    requires a <= b
    ensures p * a <= p * b && p * b - p * a == p * (b - a)
  {
  }

  lemma LevelGrows(p: nat, b: Bucket, t: int, t': int)
    requires t <= t'
    ensures LevelAt(p, b, t) <= LevelAt(p, b, t')
    ensures b.last <= t ==> LevelAt(p, b, t') <= LevelAt(p, b, t) + p * (t' - t)
  {
    if b.last <= t {
      MulMono(p, t - b.last, t' - b.last);
      assert t' - b.last - (t - b.last) == t' - t;
    } else if b.last <= t' {
      MulMono(p, 0, t' - b.last);
    }
    MulMono(p, 0, t' - t);
  }

  lemma PrunedIsFull(p: nat, b: Bucket, lastSeen: int, cut: int, use: int)
    requires 0 <= b.level <= Full(p) && b.last <= lastSeen + SLACK && lastSeen < cut - TTL && cut <= use
    ensures LevelAt(p, b, use) == Full(p)
  {
    MulMono(p, COST, use - b.last);
  }

  lemma TakenBounds(p: nat, b: Bucket, use: int)
    requires p > 0 && 0 <= b.level <= Full(p)
    ensures 0 <= Taken(p, b, use).level <= Full(p)
  {
  }

  /** The requester's own bucket: found or made anew, it answers and ends as the reference one. */
  lemma OwnCall(p: nat, bs: Buckets, calls: seq<Call>, c: Call)
    requires p > 0 && Mirrors(p, bs, calls, c.ip) && Clock(calls) <= c.seen <= c.cut <= c.use <= c.seen + SLACK
    ensures Answer(p, bs, c) <==> Grants(p, Own(p, calls, c.ip), c.use)
    ensures Mirrors(p, Next(p, bs, c), calls + [c], c.ip)
  {
    var own := Own(p, calls, c.ip);
    assert (calls + [c])[..|calls|] == calls;
    TakenBounds(p, own, c.use);
    if c.ip !in bs {
      LevelGrows(p, own, Clock(calls), c.use);
      assert LevelAt(p, own, c.use) == Full(p) == LevelAt(p, NewBucket(p), c.use);
    }
  }

  /** Everybody else's bucket: untouched, or pruned once it is full again. */
  lemma OtherCall(p: nat, bs: Buckets, calls: seq<Call>, c: Call, ip: Ip)
    requires p > 0 && ip != c.ip && Mirrors(p, bs, calls, ip)
    requires Clock(calls) <= c.seen <= c.cut <= c.use <= c.seen + SLACK
    ensures Mirrors(p, Next(p, bs, c), calls + [c], ip)
  {
    var own := Own(p, calls, ip);
    assert (calls + [c])[..|calls|] == calls;
    LevelGrows(p, own, Clock(calls), c.use);
    if ip in bs && bs[ip].lastSeen < c.cut - TTL { PrunedIsFull(p, own, bs[ip].lastSeen, c.cut, c.use); }
  }

  lemma {:induction false} TableMirrors(p: nat, calls: seq<Call>, ip: Ip)
    requires p > 0 && Timely(calls)
    ensures Mirrors(p, After(p, calls), calls, ip)
    decreases |calls|
  {
    if calls == [] {
    } else {
      var h, c := calls[..|calls| - 1], calls[|calls| - 1];
      TableMirrors(p, h, ip);
      assert h + [c] == calls;
      if c.ip == ip { OwnCall(p, After(p, h), h, c); } else { OtherCall(p, After(p, h), h, c, ip); }
    }
  }

  /**
   Pruning and other clients are invisible: after any requests, the limiter answers the next one exactly as a
   single bucket fed with this client's requests alone and never dropped.
   */
  lemma PruningIsInvisible(p: nat, calls: seq<Call>, c: Call)
    requires p > 0 && Timely(calls + [c])
    ensures Answer(p, After(p, calls), c) <==> Grants(p, Own(p, calls, c.ip), c.use)
  {
    assert (calls + [c])[..|calls|] == calls;
    TableMirrors(p, calls, c.ip);
    OwnCall(p, After(p, calls), calls, c);
  }

  // ---------------------------------------------------------------- the bound

  /** Requests of `ip` the limiter granted among `calls[from..]`. */
  function Granted(p: nat, calls: seq<Call>, from: nat, ip: Ip): nat
    decreases |calls|
  {
    if |calls| <= from then 0
    else
      var h, c := calls[..|calls| - 1], calls[|calls| - 1];
      Granted(p, h, from, ip) + if c.ip == ip && Answer(p, After(p, h), c) then 1 else 0
  }

  /** What is granted and what is left never exceeds what was there plus what flowed in. */
  lemma {:induction false} TokensAccounted(p: nat, calls: seq<Call>, from: nat, ip: Ip, start: int, now: int)
    requires p > 0 && Timely(calls) && from <= |calls| && Clock(calls) <= now
    requires Clock(calls[..from]) <= start <= now && forall k :: from <= k < |calls| ==> start <= calls[k].use
    ensures Granted(p, calls, from, ip) * COST + LevelAt(p, Own(p, calls, ip), now)
         <= LevelAt(p, Own(p, calls[..from], ip), start) + p * (now - start)
    decreases |calls|
  {
    if |calls| == from {
      assert calls[..from] == calls;
      TableMirrors(p, calls, ip);
      LevelGrows(p, Own(p, calls, ip), start, now);
    } else {
      var h, c := calls[..|calls| - 1], calls[|calls| - 1];
      assert h[..from] == calls[..from];
      TokensAccounted(p, h, from, ip, start, c.use);
      assert h + [c] == calls;
      CallAccounted(p, h, c, ip, Granted(p, h, from, ip), now);
      MulMono(p, c.use - start, now - start);
      assert now - start - (c.use - start) == now - c.use;
    }
  }

  lemma CallAccounted(p: nat, h: seq<Call>, c: Call, ip: Ip, granted: nat, now: int)
    requires p > 0 && Timely(h + [c]) && c.use <= now
    ensures (granted + if c.ip == ip && Answer(p, After(p, h), c) then 1 else 0) * COST +
      LevelAt(p, Own(p, h + [c], ip), now)
         <= granted * COST + LevelAt(p, Own(p, h, ip), c.use) + p * (now - c.use)
  {
    assert (h + [c])[..|h|] == h;
    PruningIsInvisible(p, h, c);
    TableMirrors(p, h, ip);
    if c.ip == ip { TakeAccounted(p, Own(p, h, ip), c.use, now); } else { LevelGrows(p, Own(p, h, ip), c.use, now); }
  }

  lemma TakeAccounted(p: nat, b: Bucket, use: int, now: int)
    requires b.last <= use <= now
    ensures (if Grants(p, b, use) then COST else 0) + LevelAt(p, Taken(p, b, use), now) <=
      LevelAt(p, b, use) + p * (now - use)
  {
    if Grants(p, b, use) { MulMono(p, 0, now - use); } else { LevelGrows(p, b, use, now); }
  }

  /** In any window of `width` nanoseconds a client is granted at most perMinute * (1 + width / minute) requests. */
  lemma WindowBound(p: nat, calls: seq<Call>, from: nat, ip: Ip, start: int, width: nat)
    requires p > 0 && Timely(calls) && from <= |calls| && Clock(calls[..from]) <= start
    requires forall k :: from <= k < |calls| ==> start <= calls[k].use <= start + width
    ensures Granted(p, calls, from, ip) * COST <= p * COST + p * width
  {
    if from < |calls| || Clock(calls) <= start + width {
      TokensAccounted(p, calls, from, ip, start, start + width);
      TableMirrors(p, calls, ip);
      assert start + width - start == width;
      MulMono(p, 0, start + width - Own(p, calls, ip).last);
    }
  }

  // ---------------------------------------------------------------- and its converse

  /** One more request of `ip` at `now` would exceed the allowance of the window that starts with `calls[from]`. */
  ghost predicate Exceeds(p: nat, calls: seq<Call>, from: nat, ip: Ip, now: int)
    requires from < |calls|
  {
    (Granted(p, calls, from, ip) + 1) * COST > p * COST + p * (now - calls[from].use)
  }

  /** The level is full, or is what some window leaves of its allowance. */
  ghost predicate Drained(p: nat, calls: seq<Call>, from: nat, ip: Ip, now: int)
    requires from < |calls|
  {
    LevelAt(p, Own(p, calls, ip), now) == p * COST + p * (now - calls[from].use) - Granted(p, calls, from, ip) * COST
  }

  lemma {:induction false} UsesAscend(calls: seq<Call>, k: nat)
    requires Timely(calls) && k < |calls|
    ensures Clock(calls[..k]) <= calls[k].use <= Clock(calls)
    decreases |calls|
  {
    var last := |calls| - 1;
    if k < last {
      UsesAscend(calls[..last], k);
      assert calls[..last][..k] == calls[..k];
    }
  }

  lemma {:induction false} TimelyPrefix(calls: seq<Call>, k: nat)
    requires Timely(calls) && k <= |calls|
    ensures Timely(calls[..k])
    decreases |calls|
  {
    if k == |calls| {
      assert calls[..k] == calls;
    } else {
      TimelyPrefix(calls[..|calls| - 1], k);
      assert calls[..|calls| - 1][..k] == calls[..k];
    }
  }

  /** Nothing of a window's calls happens before it starts. */
  lemma WindowAhead(calls: seq<Call>, from: nat)
    requires Timely(calls) && from < |calls|
    ensures forall k :: from <= k < |calls| ==> calls[from].use <= calls[k].use
  {
    forall k | from < k < |calls| ensures calls[from].use <= calls[k].use {
      UsesAscend(calls, k);
      TimelyPrefix(calls, k);
      UsesAscend(calls[..k], from);
    }
  }

  lemma GrantDrains(p: nat, h: seq<Call>, c: Call, ip: Ip, from: nat, now: int)
    requires p > 0 && Timely(h + [c]) && c.ip == ip && c.use <= now && Grants(p, Own(p, h, ip), c.use)
    requires LevelAt(p, Own(p, h + [c], ip), now) < Full(p)
    requires from == |h| || (from < |h| && Drained(p, h, from, ip, c.use))
    requires from == |h| ==> LevelAt(p, Own(p, h, ip), c.use) == Full(p)
    ensures Drained(p, h + [c], from, ip, now)
  {
    var calls := h + [c];
    assert calls[..|h|] == h;
    PruningIsInvisible(p, h, c);
    assert Granted(p, calls, from, ip) == Granted(p, h, from, ip) + 1;
    if from < |h| {
      assert calls[from] == h[from];
      MulMono(p, c.use - h[from].use, now - h[from].use);
      assert now - h[from].use - (c.use - h[from].use) == now - c.use;
    }
  }

  /** Unless it is full, the level is exactly what the tightest window leaves. */
  lemma {:induction false} LevelIsDrained(p: nat, calls: seq<Call>, ip: Ip, now: int) returns (from: nat)
    requires p > 0 && Timely(calls) && Clock(calls) <= now && LevelAt(p, Own(p, calls, ip), now) < Full(p)
    ensures from < |calls| && Drained(p, calls, from, ip, now)
    decreases |calls|
  {
    if calls == [] {
      MulMono(p, 0, now);
      assert false;
    }
    var h, c := calls[..|calls| - 1], calls[|calls| - 1];
    assert calls == h + [c];
    PruningIsInvisible(p, h, c);
    if c.ip == ip && Grants(p, Own(p, h, ip), c.use) {
      if LevelAt(p, Own(p, h, ip), c.use) < Full(p) {
        from := LevelIsDrained(p, h, ip, c.use);
      } else {
        from := |h|;
      }
      GrantDrains(p, h, c, ip, from, now);
    } else {
      from := LevelIsDrained(p, h, ip, now);
      assert Granted(p, calls, from, ip) == Granted(p, h, from, ip);
    }
  }

  /**
   The limiter refuses nobody within the allowance: a request is refused if and only if, for the window that starts with
   some earlier request, granting it would make more than perMinute plus perMinute per minute of that window.
   */
  lemma RefusedExactly(p: nat, calls: seq<Call>, c: Call)
    requires p > 0 && Timely(calls + [c])
    ensures !Answer(p, After(p, calls), c) <==>
      exists from :: 0 <= from < |calls| && Exceeds(p, calls, from, c.ip, c.use)
  {
    assert (calls + [c])[..|calls|] == calls;
    var own := Own(p, calls, c.ip);
    PruningIsInvisible(p, calls, c);
    if !Grants(p, own, c.use) {
      var from := LevelIsDrained(p, calls, c.ip, c.use);
      assert Exceeds(p, calls, from, c.ip, c.use);
    }
    forall from | 0 <= from < |calls| && Grants(p, own, c.use) ensures !Exceeds(p, calls, from, c.ip, c.use) {
      UsesAscend(calls, from);
      WindowAhead(calls, from);
      TokensAccounted(p, calls, from, c.ip, calls[from].use, c.use);
    }
  }

  function Requests(calls: seq<Call>, ip: Ip): nat {
    if calls == [] then 0 else Requests(calls[..|calls| - 1], ip) + if calls[|calls| - 1].ip == ip then 1 else 0
  }

  lemma {:induction false} GrantedAmongRequests(p: nat, calls: seq<Call>, from: nat, ip: Ip)
    ensures Granted(p, calls, from, ip) <= Requests(calls, ip)
    decreases |calls|
  {
    if |calls| <= from {
    } else {
      GrantedAmongRequests(p, calls[..|calls| - 1], from, ip);
    }
  }

  /** A client can spend the whole minute's allowance at once: its first perMinute requests are all granted. */
  lemma BurstGranted(p: nat, calls: seq<Call>, c: Call)
    requires p > 0 && Timely(calls + [c]) && Requests(calls, c.ip) < p
    ensures Answer(p, After(p, calls), c)
  {
    RefusedExactly(p, calls, c);
    assert (calls + [c])[..|calls|] == calls;
    forall from | 0 <= from < |calls| ensures !Exceeds(p, calls, from, c.ip, c.use) {
      GrantedAmongRequests(p, calls, from, c.ip);
      UsesAscend(calls, from);
      MulMono(p, 0, c.use - calls[from].use);
    }
  }

  // ---------------------------------------------------------------- the size of the table

  /** The instant of the latest request of `ip`. */
  function LastSeen(calls: seq<Call>, ip: Ip): Option<int> {
    if calls == [] then None
    else if calls[|calls| - 1].ip == ip then Some(calls[|calls| - 1].seen)
    else LastSeen(calls[..|calls| - 1], ip)
  }

  lemma {:induction false} StampsAreLatest(p: nat, calls: seq<Call>, ip: Ip)
    requires ip in After(p, calls)
    ensures LastSeen(calls, ip) == Some(After(p, calls)[ip].lastSeen)
    decreases |calls|
  {
    if calls == [] {
    } else {
      var h := calls[..|calls| - 1];
      if calls[|calls| - 1].ip != ip { StampsAreLatest(p, h, ip); }
    }
  }

  /**
   The table stays small: once it holds more than ten thousand clients, each of them has asked within the ten minutes
   before the latest pruning.
   */
  lemma TableBounded(p: nat, calls: seq<Call>, ip: Ip)
    requires calls != [] && Timely(calls) && |After(p, calls)| > 10_000 && ip in After(p, calls)
    ensures LastSeen(calls, ip).Some?
    ensures LastSeen(calls, ip).value >= calls[|calls| - 1].cut - 600_000_000_000
  {
    StampsAreLatest(p, calls, ip);
  }
}
