/** The health probe of one node actor: its fields are a function of the probe history. */
module Health {
  import opened Domain

  datatype NodeStatus = Online | Offline | Other(word: string)

  /** What one probe saw: a failed dial or ping, or the node's uptime in seconds. */
  datatype Probe = Lost | Up(uptime: nat)

  const FAIL_THRESHOLD := 3

  /** Probes failed since the last success (or since the start). */
  function Failures(h: seq<Probe>): nat {
    if h == [] || h[|h| - 1].Up? then 0 else 1 + Failures(h[..|h| - 1])
  }

  /** Uptime at the last success; 0 before the first. */
  function LastUptime(h: seq<Probe>): nat {
    if h == [] then 0
    else if h[|h| - 1].Up? then h[|h| - 1].uptime
    else LastUptime(h[..|h| - 1])
  }

  predicate Succeeded(h: seq<Probe>) { exists i :: 0 <= i < |h| && h[i].Up? }

  predicate Reachable(h: seq<Probe>) { Succeeded(h) && Failures(h) < FAIL_THRESHOLD }

  /** A success with this uptime, after history `h`, calls for a reconcile pass. */
  predicate CallsForPass(h: seq<Probe>, uptime: nat) {
    || !Succeeded(h)
    || Failures(h) >= FAIL_THRESHOLD
    || (LastUptime(h) > 0 && uptime < LastUptime(h))
  }

  lemma SucceededMore(h: seq<Probe>, p: Probe)
    ensures Succeeded(h + [p]) <==> Succeeded(h) || p.Up?
    ensures (h + [p])[..|h|] == h && (h + [p])[|h|] == p
  {
    if Succeeded(h) {
      var i :| 0 <= i < |h| && h[i].Up?;
      assert (h + [p])[i].Up?;
    }
    if p.Up? { assert (h + [p])[|h|].Up?; }
  }

  class Monitor {
    var failCount: nat
    var online: bool
    var lastUptime: nat
    var status: NodeStatus

    constructor (initial: NodeStatus)
      ensures Reflects([], initial)
    {
      failCount, online, lastUptime, status := 0, false, 0, initial;
    }

    /** The fields are what the probes `h` since the actor started determine. */
    ghost predicate Reflects(h: seq<Probe>, initial: NodeStatus)
      reads this
    {
      && failCount == Failures(h)
      && lastUptime == LastUptime(h)
      && online == Reachable(h)
      && status == if !Succeeded(h) then initial else if Reachable(h) then Online else Offline
    }

    /** `recorded` is the status written to the nodes table, if the probe writes one. */
    method CheckHealth(p: Probe, ghost h: seq<Probe>, ghost initial: NodeStatus)
      returns (pass: bool, recorded: Option<NodeStatus>)
      requires Reflects(h, initial)
      modifies this
      ensures Reflects(h + [p], initial)
      ensures pass <==> p.Up? && CallsForPass(h, p.uptime)
      ensures recorded == None <==> !Reachable(h) && Failures(h + [p]) >= FAIL_THRESHOLD
      ensures recorded.Some? ==> recorded.value == status
      ensures recorded == None ==> status == old(status)
    {
      SucceededMore(h, p);
      pass, recorded := false, None;
      if p.Lost? {
        failCount := failCount + 1;
        if failCount >= FAIL_THRESHOLD && online {
          online := false;
          status := Offline;
          recorded := Some(Offline);
        } else if failCount < FAIL_THRESHOLD {
          recorded := Some(status);
        }
        return;
      }
      failCount := 0;
      var wasOffline := !online;
      var restarted := lastUptime > 0 && p.uptime < lastUptime;
      lastUptime := p.uptime;
      online := true;
      status := Online;
      recorded := Some(Online);
      pass := wasOffline || restarted;
    }
  }

  // ---------------------------------------------------------------- restarts seen through uptimes

  const SECOND := 1_000_000_000

  /** Whole seconds a process booted at `boot` has been up at `now`. */
  function UptimeAt(boot: int, now: int): nat
    requires boot <= now
  {
    (now - boot) / SECOND
  }

  lemma {:induction false} LostKeepsUptime(h: seq<Probe>, k: nat)
    ensures LastUptime(h + seq(k, _ => Lost)) == LastUptime(h)
  {
    var t := h + seq(k, _ => Lost);
    if k == 0 {
      assert t == h;
    } else {
      assert t[..|t| - 1] == h + seq(k - 1, _ => Lost);
      LostKeepsUptime(h, k - 1);
    }
  }

  /**
   Two successful probes with any number of failed ones between them. If the node restarted in between and had
   been up at least as long as the gap, the later probe calls for a pass.
   */
  lemma RestartIsDetected(h: seq<Probe>, boot1: int, at1: int, lost: nat, boot2: int, at2: int)
    requires boot1 <= at1 < boot2 <= at2
    requires UptimeAt(boot1, at1) * SECOND >= at2 - at1
    ensures var h' := h + [Up(UptimeAt(boot1, at1))] + seq(lost, _ => Lost);
      CallsForPass(h', UptimeAt(boot2, at2))
  {
    var u := UptimeAt(boot1, at1);
    LostKeepsUptime(h + [Up(u)], lost);
    SucceededMore(h, Up(u));
    assert LastUptime(h + [Up(u)]) == u;
  }

  /** Without a restart the comparison stays quiet: only a first success or an outage calls for a pass. */
  lemma NoFalseRestart(h: seq<Probe>, boot: int, at1: int, lost: nat, at2: int)
    requires boot <= at1 <= at2
    ensures var h' := h + [Up(UptimeAt(boot, at1))] + seq(lost, _ => Lost);
      CallsForPass(h', UptimeAt(boot, at2)) <==> lost >= FAIL_THRESHOLD
  {
    var u := UptimeAt(boot, at1);
    LostKeepsUptime(h + [Up(u)], lost);
    SucceededMore(h, Up(u));
    assert LastUptime(h + [Up(u)]) == u;
    assert UptimeAt(boot, at2) >= u;
    LostCounts(h + [Up(u)], lost);
    var i :| 0 <= i < |h + [Up(u)]| && (h + [Up(u)])[i].Up?;
    assert (h + [Up(u)] + seq(lost, _ => Lost))[i].Up?;
  }

  lemma {:induction false} LostCounts(h: seq<Probe>, k: nat)
    ensures Failures(h + seq(k, _ => Lost)) == Failures(h) + k
  {
    var t := h + seq(k, _ => Lost);
    if k == 0 {
      assert t == h;
    } else {
      assert t[..|t| - 1] == h + seq(k - 1, _ => Lost);
      LostCounts(h, k - 1);
    }
  }

  // ---------------------------------------------------------------- the same, read off the history

  /** The last `k` probes, or all if there were fewer, failed. */
  ghost predicate AllLost(h: seq<Probe>, k: nat) { forall i :: 0 <= i < |h| && |h| - k <= i ==> h[i].Lost? }

  lemma {:induction false} FailuresCount(h: seq<Probe>, k: nat)
    ensures Failures(h) <= |h|
    ensures k <= |h| ==> (Failures(h) >= k <==> AllLost(h, k))
    decreases |h|
  {
    if h == [] {
    } else {
      var before := h[..|h| - 1];
      FailuresCount(before, if k == 0 then 0 else k - 1);
      if h[|h| - 1].Lost? && 0 < k <= |h| {
        assert forall i :: 0 <= i < |before| ==> h[i] == before[i];
        assert AllLost(h, k) <==> AllLost(before, k - 1);
      }
    }
  }

  /** Online exactly when one of the last three probes succeeded. */
  lemma OnlineExactly(h: seq<Probe>)
    ensures Reachable(h) <==> exists i :: 0 <= i < |h| && |h| - 3 <= i && h[i].Up?
  {
    if |h| >= 3 {
      FailuresCount(h, 3);
    } else {
      FailuresCount(h, 0);
    }
  }

  lemma {:induction false} LastUptimeIs(h: seq<Probe>, i: nat)
    requires i < |h| && h[i].Up? && forall j :: i < j < |h| ==> h[j].Lost?
    ensures LastUptime(h) == h[i].uptime
    decreases |h|
  {
    if i == |h| - 1 {
    } else {
      LastUptimeIs(h[..|h| - 1], i);
    }
  }

  /** With probe `i` the latest success, a new one calls for a pass exactly if three failed since or the uptime fell. */
  lemma PassExactly(h: seq<Probe>, i: nat, uptime: nat)
    requires i < |h| && h[i].Up? && forall j :: i < j < |h| ==> h[j].Lost?
    ensures CallsForPass(h, uptime) <==> |h| - 1 - i >= 3 || uptime < h[i].uptime
  {
    LastUptimeIs(h, i);
    if |h| >= 3 {
      FailuresCount(h, 3);
    } else {
      FailuresCount(h, 0);
    }
  }

  /** And the first success always does. */
  lemma FirstSuccessCalls(h: seq<Probe>, uptime: nat)
    requires AllLost(h, |h|)
    ensures CallsForPass(h, uptime)
  {
  }
}
