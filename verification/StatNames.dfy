/** Names of Xray's per-user counters: rendering and parsing are inverse to each other. */
module StatNames {
  import opened Domain

  const PREFIX := "user>>>"
  const MIDDLE := ">>>traffic>>>"

  function Word(d: Direction): string { if d.Uplink? then "uplink" else "downlink" }

  function RenderStat(email: string, d: Direction): string { PREFIX + email + MIDDLE + Word(d) }

  predicate OccursAt(s: string, sub: string, i: int) { 0 <= i <= |s| - |sub| && s[i..i + |sub|] == sub }

  /** strings.LastIndex: the greatest position at which `sub` occurs, or -1. */
  function LastIndex(s: string, sub: string): (i: int)
    ensures i >= 0 ==> OccursAt(s, sub, i)
    ensures forall j :: OccursAt(s, sub, j) ==> j <= i
  {
    LastIndexUpTo(s, sub, |s| - |sub|)
  }

  function LastIndexUpTo(s: string, sub: string, hi: int): (i: int)
    requires hi <= |s| - |sub|
    ensures i >= -1 && (i >= 0 ==> OccursAt(s, sub, i))
    ensures forall j :: OccursAt(s, sub, j) && j <= hi ==> j <= i
    decreases hi + 1
  {
    if hi < 0 then -1 else if OccursAt(s, sub, hi) then hi else LastIndexUpTo(s, sub, hi - 1)
  }

  /** Cut `s` around the last occurrence of `sep`. */
  function CutLast(s: string, sep: string): Option<(string, string)> {
    var i := LastIndex(s, sep);
    if i < 0 then None else Some((s[..i], s[i + |sep|..]))
  }

  /** parseUserStatName. */
  function ParseStat(name: string): Option<(string, Direction)> {
    if !(PREFIX <= name) then None
    else
      match CutLast(name[|PREFIX|..], MIDDLE)
      case None => None
      case Some((email, dir)) =>
        if email == "" then None
        else if dir == Word(Uplink) then Some((email, Uplink))
        else if dir == Word(Downlink) then Some((email, Downlink))
        else None
  }

  lemma MismatchAt(s: string, sub: string, k: int, i: nat)
    requires i < |sub| && (0 <= k && k + i < |s| ==> s[k + i] != sub[i])
    ensures !OccursAt(s, sub, k)
  {
    if 0 <= k <= |s| - |sub| { assert s[k..k + |sub|][i] == s[k + i]; }
  }

  /** `sep` does not occur in `sep + tail` except at the front. */
  ghost predicate Clean(sep: string, tail: string) {
    forall k :: OccursAt(sep + tail, sep, k) ==> k <= 0
  }

  lemma JoinThenCut(head: string, sep: string, tail: string)
    requires Clean(sep, tail)
    ensures CutLast(head + sep + tail, sep) == Some((head, tail))
  {
    var s := head + sep + tail;
    assert s[|head|..|head| + |sep|] == sep;
    assert OccursAt(s, sep, |head|);
    forall j | OccursAt(s, sep, j) ensures j <= |head| {
      var k := j - |head|;
      if k > 0 {
        assert s[j..j + |sep|] == (sep + tail)[k..k + |sep|];
        assert OccursAt(sep + tail, sep, k);
      }
    }
    var i := LastIndex(s, sep);
    assert s[..i] == head && s[i + |sep|..] == tail;
  }

  lemma CutThenJoin(s: string, sep: string)
    requires CutLast(s, sep).Some?
    ensures var (head, tail) := CutLast(s, sep).value; s == head + sep + tail
  {
    var i := LastIndex(s, sep);
    assert s == s[..i] + s[i..i + |sep|] + s[i + |sep|..];
  }

  /** No direction word can make the separator reappear across the join. */
  lemma DirectionsAreClean(d: Direction)
    ensures Clean(MIDDLE, Word(d))
  {
    var s := MIDDLE + Word(d);
    assert MIDDLE[3..9] == "traffi";
    assert forall i :: 0 <= i < 3 ==> MIDDLE[i] == '>';
    forall k | k > 0 ensures !OccursAt(s, MIDDLE, k) {
      if k <= 8 {
        var i := if k == 1 then 2 else if k == 2 then 1 else 0;
        assert s[k + i] == MIDDLE[3..9][k + i - 3] != '>';
        MismatchAt(s, MIDDLE, k, i);
      }
    }
  }

  /** Parsing a rendered name returns its email, whatever the email contains. */
  lemma RenderThenParse(email: string, d: Direction)
    requires email != ""
    ensures ParseStat(RenderStat(email, d)) == Some((email, d))
  {
    DirectionsAreClean(d);
    PrefixDrops(PREFIX, email, MIDDLE, Word(d));
    JoinThenCut(email, MIDDLE, Word(d));
    assert |Word(Uplink)| == 6 && |Word(Downlink)| == 8;
  }

  lemma PrefixDrops(a: string, b: string, c: string, d: string)
    ensures a <= a + b + c + d && (a + b + c + d)[|a|..] == b + c + d
  {
  }

  /** Every accepted name is the rendering of what it parses to. */
  lemma ParseThenRender(name: string)
    requires ParseStat(name).Some?
    ensures var (email, d) := ParseStat(name).value; email != "" && RenderStat(email, d) == name
  {
    CutThenJoin(name[|PREFIX|..], MIDDLE);
    var (email, dir) := CutLast(name[|PREFIX|..], MIDDLE).value;
    Rejoins(name, PREFIX, email, MIDDLE, dir);
  }

  lemma Rejoins(name: string, a: string, b: string, c: string, d: string)
    requires a <= name && name[|a|..] == b + c + d
    ensures name == a + b + c + d
  {
    assert name == a + name[|a|..];
  }

  /** So a name parses to (email, direction) exactly when it is that rendering. */
  lemma ParseIsInverse(name: string, email: string, d: Direction)
    requires email != ""
    ensures ParseStat(name) == Some((email, d)) <==> name == RenderStat(email, d)
  {
    RenderThenParse(email, d);
    if ParseStat(name) == Some((email, d)) { ParseThenRender(name); }
  }

  /** The two names Xray uses for a user. */
  lemma XrayNames(email: string)
    requires email != ""
    ensures ParseStat("user>>>" + email + ">>>traffic>>>" + "uplink") == Some((email, Uplink))
    ensures ParseStat("user>>>" + email + ">>>traffic>>>" + "downlink") == Some((email, Downlink))
  {
    RenderThenParse(email, Uplink);
    RenderThenParse(email, Downlink);
  }
}
