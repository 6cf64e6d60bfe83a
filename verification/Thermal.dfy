/** Distinct labels for thermal zones (src/metrics/collector.rs:397-419): zone types
    that occur more than once get a 0-based index appended. */
module Thermal {
  import opened Prelude
  import opened Decimal

  function Indexed(t: string, i: nat): string { t + "_" + Digits(i) }

  /** The label of the i-th zone. */
  function LabelAt(types: seq<string>, i: nat): string
    requires i < |types|
  {
    if Count(types, types[i]) > 1 then Indexed(types[i], Count(types[..i], types[i])) else types[i]
  }

  // ---- indices ---------------------------------------------------------------------------

  lemma {:induction false} NoUnderscore(n: nat)
    ensures '_' !in Digits(n)
  {
    assert forall i :: 0 <= i < |Digits(n)| ==> IsDigit(Digits(n)[i]);
  }

  lemma IndexedInjective(t: string, i: nat, u: string, j: nat)
    requires Indexed(t, i) == Indexed(u, j)
    ensures t == u && i == j
  {
    NoUnderscore(i);
    NoUnderscore(j);
    var s, d, e := Indexed(t, i), Digits(i), Digits(j);
    hide Digits;
    assert s[|t|] == '_' && s[|u|] == '_';
    assert s[|t| + 1..] == d && s[|u| + 1..] == e;
    assert forall k :: |t| < k < |s| ==> s[k] == d[k - |t| - 1];
    assert forall k :: |u| < k < |s| ==> s[k] == e[k - |u| - 1];
    assert s[..|t|] == t && s[..|u|] == u;
    DigitsInjective(i, j);
  }

  lemma {:induction false} CountPositive(s: seq<string>, i: nat)
    requires i < |s|
    ensures Count(s, s[i]) > 0
  {
    if i > 0 {
      CountPositive(s[1..], i - 1);
    }
  }

  /** Occurrences before position i, counting i itself. */
  lemma CountUpTo(s: seq<string>, i: nat, x: string)
    requires i < |s|
    ensures Count(s[..i + 1], x) == Count(s[..i], x) + (if s[i] == x then 1 else 0)
  {
    assert s[..i + 1] == s[..i] + [s[i]];
    CountConcat(s[..i], [s[i]], x);
    assert [s[i]][1..] == [];
  }

  lemma {:induction false} CountMonotone(s: seq<string>, i: nat, j: nat, x: string)
    requires i <= j <= |s|
    ensures Count(s[..i], x) <= Count(s[..j], x) <= Count(s, x)
    decreases j - i
  {
    if i < j {
      CountMonotone(s, i, j - 1, x);
      CountUpTo(s, j - 1, x);
    }
    CountSplit(s, j, x);
  }

  /** Equal types at two positions get different indices. */
  lemma SameTypeDifferentIndex(types: seq<string>, i: nat, j: nat)
    requires i < j < |types| && types[i] == types[j]
    ensures Count(types[..i], types[i]) < Count(types[..j], types[j]) < Count(types, types[j])
  {
    CountUpTo(types, i, types[i]);
    CountMonotone(types, i + 1, j, types[i]);
    CountUpTo(types, j, types[j]);
    CountMonotone(types, j + 1, |types|, types[j]);
    assert types[..|types|] == types;
  }

  /** A duplicated type gets each index below its count exactly once. */
  lemma {:induction false} IndexAssigned(types: seq<string>, t: string, idx: nat) returns (i: nat)
    requires idx < Count(types, t)
    ensures i < |types| && types[i] == t && Count(types[..i], t) == idx
    ensures forall j :: 0 <= j < |types| && types[j] == t && Count(types[..j], t) == idx ==> j == i
  {
    assert types[..|types|] == types;
    i := FindIndex(types, |types|, t, idx);
    forall j | 0 <= j < |types| && types[j] == t && Count(types[..j], t) == idx ensures j == i {
      if j < i {
        SameTypeDifferentIndex(types, j, i);
      } else if i < j {
        SameTypeDifferentIndex(types, i, j);
      }
    }
  }

  lemma {:induction false} FindIndex(types: seq<string>, n: nat, t: string, idx: nat) returns (i: nat)
    requires n <= |types| && idx < Count(types[..n], t)
    ensures i < n && types[i] == t && Count(types[..i], t) == idx
    decreases n
  {
    CountUpTo(types, n - 1, t);
    if idx < Count(types[..n - 1], t) {
      i := FindIndex(types, n - 1, t, idx);
    } else {
      i := n - 1;
    }
  }

  // ---- distinctness ------------------------------------------------------------------------

  ghost predicate Distinct(types: seq<string>)
  {
    forall i, j :: 0 <= i < j < |types| ==> LabelAt(types, i) != LabelAt(types, j)
  }

  /** A type that occurs once looks like an index given to a duplicated type. */
  ghost predicate Collides(types: seq<string>, i: nat, t: string, idx: nat)
  {
    i < |types| && Count(types, types[i]) == 1 && Count(types, t) > 1 && idx < Count(types, t)
    && types[i] == Indexed(t, idx)
  }

  lemma EqualLabelsCollide(types: seq<string>, i: nat, j: nat)
    requires i < j < |types| && LabelAt(types, i) == LabelAt(types, j)
    ensures exists k, t, idx :: Collides(types, k, t, idx)
  {
    var u, v := types[i], types[j];
    CountPositive(types, i);
    CountPositive(types, j);
    BelowCount(types, i);
    BelowCount(types, j);
    if u == v {
      SameTypeDifferentIndex(types, i, j);
      hide Indexed;
      if Count(types, u) > 1 {
        IndexedInjective(u, Count(types[..i], u), v, Count(types[..j], v));
      }
    } else if Count(types, u) > 1 && Count(types, v) > 1 {
      IndexedInjective(u, Count(types[..i], u), v, Count(types[..j], v));
    } else if Count(types, u) > 1 {
      assert Collides(types, j, u, Count(types[..i], u));
    } else if Count(types, v) > 1 {
      assert Collides(types, i, v, Count(types[..j], v));
    }
  }

  lemma BelowCount(types: seq<string>, i: nat)
    requires i < |types|
    ensures Count(types[..i], types[i]) < Count(types, types[i])
  {
    CountUpTo(types, i, types[i]);
    CountMonotone(types, i + 1, |types|, types[i]);
  }

  /** The two passes give pairwise distinct labels exactly when no type that occurs once
      equals t_k for a duplicated type t and an index k below its count. */
  lemma DistinctIff(types: seq<string>)
    ensures Distinct(types) <==> !exists i, t, idx :: Collides(types, i, t, idx)
  {
    if !Distinct(types) {
      var i, j :| 0 <= i < j < |types| && LabelAt(types, i) == LabelAt(types, j);
      EqualLabelsCollide(types, i, j);
    }
    if i: nat, t, idx: nat :| Collides(types, i, t, idx) {
      var k := IndexAssigned(types, t, idx);
      assert LabelAt(types, i) == LabelAt(types, k);
      assert k != i;
    }
  }

  /** The type occurs at another position too. */
  ghost predicate Repeated(types: seq<string>, i: nat)
    requires i < |types|
  {
    exists j :: 0 <= j < |types| && j != i && types[j] == types[i]
  }

  /** A type is counted more than once when it occurs at another position. */
  lemma RepeatedIff(types: seq<string>, i: nat)
    requires i < |types|
    ensures Count(types, types[i]) > 1 <==> Repeated(types, i)
  {
    BelowCount(types, i);
    if j :| 0 <= j < |types| && j != i && types[j] == types[i] {
      SameTypeDifferentIndex(types, if i < j then i else j, if i < j then j else i);
    }
    if Count(types, types[i]) > 1 {
      var k := IndexAssigned(types, types[i], 0);
      var m := IndexAssigned(types, types[i], 1);
      assert k != m;
    }
  }

  lemma LabelsSpelled(types: seq<string>)
    ensures forall i :: (0 <= i < |types| ==>
      LabelAt(types, i) == types[i] + if Repeated(types, i) then "_" + Digits(Count(types[..i], types[i])) else "")
  {
    forall i | 0 <= i < |types|
      ensures LabelAt(types, i) == types[i] + if Repeated(types, i) then "_" + Digits(Count(types[..i], types[i])) else ""
    {
      RepeatedIff(types, i);
      CountPositive(types, i);
    }
  }

  // ---- the two passes --------------------------------------------------------------------------

  method LabelZones(raw: seq<(string, real)>) returns (zones: seq<(string, real)>)
    ensures |zones| == |raw|
    ensures forall i :: 0 <= i < |raw| ==> zones[i] == (LabelAt(Types(raw), i), raw[i].1)
    ensures forall i :: (0 <= i < |raw| ==>
      zones[i].0 == raw[i].0 + if Repeated(Types(raw), i) then "_" + Digits(Count(Types(raw)[..i], raw[i].0)) else "")
  {
    hide Count, Digits, Repeated;
    var types := Types(raw);
    NoneBefore(types);
    var typeCount := CountTypes(types);
    var typeSeen: map<string, nat> := map[];
    zones := [];
    for i := 0 to |raw|
      invariant |zones| == i
      invariant forall t :: (if t in typeSeen then typeSeen[t] else 0) == if Count(types, t) > 1 then Count(types[..i], t) else 0
      invariant forall j :: 0 <= j < i ==> zones[j] == (LabelAt(types, j), raw[j].1)
    {
      var t := raw[i].0;
      var name := t;
      CountPositive(types, i);
      forall u ensures Count(types[..i + 1], u) == Count(types[..i], u) + (if types[i] == u then 1 else 0) {
        CountUpTo(types, i, u);
      }
      if t in typeCount && typeCount[t] > 1 {
        var idx := if t in typeSeen then typeSeen[t] else 0;
        name := t + "_" + Digits(idx);
        typeSeen := typeSeen[t := idx + 1];
      }
      zones := zones + [(name, raw[i].1)];
    }
    LabelsSpelled(types);
    hide LabelAt;
  }

  lemma NoneBefore(types: seq<string>)
    ensures forall t :: Count(types[..0], t) == 0
  {
  }

  function Types(raw: seq<(string, real)>): (r: seq<string>)
    ensures |r| == |raw| && forall i :: 0 <= i < |r| ==> r[i] == raw[i].0
  {
    seq(|raw|, i requires 0 <= i < |raw| => raw[i].0)
  }

  method CountTypes(types: seq<string>) returns (counts: map<string, nat>)
    ensures forall t :: (if t in counts then counts[t] else 0) == Count(types, t)
  {
    counts := map[];
    for i := 0 to |types|
      invariant forall t :: (if t in counts then counts[t] else 0) == Count(types[..i], t)
    {
      forall u ensures Count(types[..i + 1], u) == Count(types[..i], u) + (if types[i] == u then 1 else 0) {
        CountUpTo(types, i, u);
      }
      var t := types[i];
      counts := counts[t := (if t in counts then counts[t] else 0) + 1];
    }
    assert types[..|types|] == types;
  }
}
