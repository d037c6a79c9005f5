/** Lists without repetition, as the seen-map loops of the source produce them. */
module Seqs {
  function Elems<T>(s: seq<T>): set<T> { set x | x in s }

  predicate NoDup<T(==)>(s: seq<T>) { forall i, j :: 0 <= i < j < |s| ==> s[i] != s[j] }

  /** First occurrences, in order. */
  function Distinct<T(==)>(s: seq<T>): seq<T> {
    if s == [] then []
    else
      var h, x := s[..|s| - 1], s[|s| - 1];
      if x in h then Distinct(h) else Distinct(h) + [x]
  }

  lemma ElemsMore<T>(s: seq<T>, x: T)
    ensures Elems(s + [x]) == Elems(s) + {x}
  {
  }

  lemma ElemsConcat<T>(a: seq<T>, b: seq<T>)
    ensures Elems(a + b) == Elems(a) + Elems(b)
  {
  }

  lemma {:induction false} DistinctSound<T>(s: seq<T>)
    ensures NoDup(Distinct(s)) && Elems(Distinct(s)) == Elems(s) && |Distinct(s)| == |Elems(s)|
    decreases |s|
  {
    if s == [] {
    } else {
      var h, x := s[..|s| - 1], s[|s| - 1];
      assert s == h + [x];
      ElemsMore(h, x);
      DistinctSound(h);
      if x in h {
        assert Elems(s) == Elems(h);
      } else {
        ElemsMore(Distinct(h), x);
        assert x !in Elems(Distinct(h));
      }
    }
  }

  /** Order is that of first occurrence: what comes later only adds at the end. */
  lemma {:induction false} DistinctGrows<T>(h: seq<T>, t: seq<T>)
    ensures Distinct(h) <= Distinct(h + t)
    decreases |t|
  {
    if t == [] {
      assert h + t == h;
    } else {
      assert (h + t)[..|h + t| - 1] == h + t[..|t| - 1];
      DistinctGrows(h, t[..|t| - 1]);
    }
  }

  /** The loop of dedup, distinctNodes, reconcileNodes and ReconcileForUser. */
  method Dedup<T(==)>(s: seq<T>) returns (out: seq<T>)
    ensures out == Distinct(s)
  {
    var seen: set<T> := {};
    out := [];
    for i := 0 to |s|
      invariant seen == Elems(s[..i]) && out == Distinct(s[..i])
    {
      assert s[..i + 1][..i] == s[..i] && s[..i + 1] == s[..i] + [s[i]];
      if s[i] !in seen {
        out := out + [s[i]];
      }
      seen := seen + {s[i]};
    }
    assert s[..|s|] == s;
  }

  /** Comparing the number of rows found with the number of distinct ids asked for decides that all exist. */
  lemma CountDecidesExistence<T>(ids: seq<T>, existing: set<T>)
    ensures |Elems(ids) * existing| == |Distinct(ids)| <==> Elems(ids) <= existing
  {
    DistinctSound(ids);
    var found := Elems(ids) * existing;
    if |found| == |Elems(ids)| {
      SubsetOfSameSize(found, Elems(ids));
    } else {
      assert Elems(ids) <= existing ==> found == Elems(ids);
    }
  }

  lemma SubsetOfSameSize<T>(a: set<T>, b: set<T>)
    requires a <= b && |a| == |b|
    ensures a == b
  {
    assert |b - a| == |b| - |a|;
  }
}
