/** Canonical stream keys (src/metrics/aggregator.rs:202-226): "name" or
    "name|k=v|k=v" with the labels sorted by key. */
module StreamKey {
  import opened Prelude
  import opened Decimal

  datatype Label = Label(k: string, v: string)

  // ---- the stable sort by key -----------------------------------------------------------------

  function Insert(l: Label, sorted: seq<Label>): seq<Label>
  {
    if sorted == [] || !LexLt(sorted[0].k, l.k) then [l] + sorted
    else [sorted[0]] + Insert(l, sorted[1..])
  }

  /** `sort_by_key`: stable. */
  function Sort(labels: seq<Label>): seq<Label>
  {
    if labels == [] then [] else Insert(labels[0], Sort(labels[1..]))
  }

  ghost predicate Sorted(ls: seq<Label>)
  {
    forall i, j :: 0 <= i < j < |ls| ==> !LexLt(ls[j].k, ls[i].k)
  }

  lemma {:induction false} InsertMultiset(l: Label, s: seq<Label>)
    ensures multiset(Insert(l, s)) == multiset(s) + multiset{l}
  {
    if !(s == [] || !LexLt(s[0].k, l.k)) {
      InsertMultiset(l, s[1..]);
      assert s == [s[0]] + s[1..];
    }
  }

  lemma {:induction false} InsertSorted(l: Label, s: seq<Label>)
    requires Sorted(s)
    ensures Sorted(Insert(l, s))
  {
    if s == [] {
    } else if !LexLt(s[0].k, l.k) {
      forall j | 0 <= j < |s| ensures !LexLt(s[j].k, l.k) {
        if LexLt(s[j].k, l.k) {
          LexTotal(s[0].k, s[j].k);
          if s[0].k != s[j].k {
            LexTransitive(s[0].k, s[j].k, l.k);
          }
        }
      }
    } else {
      InsertSorted(l, s[1..]);
      var r := Insert(l, s[1..]);
      InsertMultiset(l, s[1..]);
      LexTotal(l.k, s[0].k);
      forall j | 0 <= j < |r| ensures !LexLt(r[j].k, s[0].k) {
        assert r[j] in multiset(r);
        assert r[j] == l || r[j] in s[1..];
      }
    }
  }

  lemma {:induction false} SortCorrect(ls: seq<Label>)
    ensures Sorted(Sort(ls)) && multiset(Sort(ls)) == multiset(ls)
  {
    if ls != [] {
      SortCorrect(ls[1..]);
      InsertSorted(ls[0], Sort(ls[1..]));
      InsertMultiset(ls[0], Sort(ls[1..]));
      assert ls == [ls[0]] + ls[1..];
    }
  }

  // ---- the key ----------------------------------------------------------------------------------

  function Render(ls: seq<Label>): string
  {
    if ls == [] then "" else "|" + (ls[0].k + ("=" + (ls[0].v + Render(ls[1..]))))
  }

  function KeyOf(name: string, labels: seq<Label>): string { name + Render(Sort(labels)) }

  /** `stream_key`: a local string grows label by label. */
  method ComputeKey(name: string, labels: seq<Label>) returns (key: string)
    ensures key == KeyOf(name, labels)
  {
    if labels == [] {
      return name;
    }
    var sorted := Sort(labels);
    key := name;
    var i := 0;
    while i < |sorted|
      invariant 0 <= i <= |sorted|
      invariant key + Render(sorted[i..]) == KeyOf(name, labels)
    {
      assert sorted[i..][1..] == sorted[i + 1..];
      RenderStep(key, sorted[i..]);
      key := key + "|";
      key := key + (sorted[i].k + "=" + sorted[i].v);
      i := i + 1;
    }
  }

  lemma RenderStep(key: string, ls: seq<Label>)
    requires ls != []
    ensures key + Render(ls) == (key + "|") + (ls[0].k + "=" + ls[0].v) + Render(ls[1..])
  {
    hide Render;
    assert Render(ls) == "|" + (ls[0].k + ("=" + (ls[0].v + Render(ls[1..])))) by { RenderUnfold(ls); }
  }

  lemma RenderUnfold(ls: seq<Label>)
    requires ls != []
    ensures Render(ls) == "|" + (ls[0].k + ("=" + (ls[0].v + Render(ls[1..]))))
  {
  }

  // ---- order of the labels ---------------------------------------------------------------------------

  /** Labels that share a key are equal; in particular, distinct keys. */
  ghost predicate Functional(ls: seq<Label>)
  {
    forall a, b :: a in ls && b in ls && a.k == b.k ==> a == b
  }

  lemma SameHead(a: seq<Label>, b: seq<Label>)
    requires Sorted(a) && Sorted(b) && multiset(a) == multiset(b) && Functional(a) && a != []
    ensures b != [] && a[0] == b[0]
  {
    assert a[0] in multiset(b);
    assert b[0] in multiset(a);
    LexTotal(a[0].k, b[0].k);
  }

  lemma SameTail(a: seq<Label>, b: seq<Label>)
    requires multiset(a) == multiset(b) && a != [] && b != [] && a[0] == b[0]
    ensures multiset(a[1..]) == multiset(b[1..])
  {
    assert a == [a[0]] + a[1..] && b == [b[0]] + b[1..];
    assert multiset(a[1..]) == multiset(a) - multiset{a[0]} && multiset(b[1..]) == multiset(b) - multiset{a[0]};
  }

  lemma {:induction false} SortedUnique(a: seq<Label>, b: seq<Label>)
    requires Sorted(a) && Sorted(b) && multiset(a) == multiset(b) && Functional(a)
    ensures a == b
    decreases |a|
  {
    if a == [] {
      assert |multiset(b)| == |b|;
    } else {
      SameHead(a, b);
      SameTail(a, b);
      SortedUnique(a[1..], b[1..]);
      assert a == [a[0]] + a[1..] && b == [b[0]] + b[1..];
    }
  }

  /** Any permutation of the labels gives the same key. */
  lemma PermutedLabelsSameKey(name: string, a: seq<Label>, b: seq<Label>)
    requires multiset(a) == multiset(b) && Functional(a)
    ensures KeyOf(name, a) == KeyOf(name, b)
  {
    SortCorrect(a);
    SortCorrect(b);
    forall x, y | x in Sort(a) && y in Sort(a) && x.k == y.k ensures x == y {
      assert x in multiset(Sort(a)) && y in multiset(Sort(a));
    }
    SortedUnique(Sort(a), Sort(b));
  }

  // ---- injectivity --------------------------------------------------------------------------------------

  ghost predicate CleanLabels(ls: seq<Label>)
  {
    forall l :: l in ls ==> '|' !in l.k && '=' !in l.k && '|' !in l.v
  }

  /** Two strings that agree up to the first occurrence of c split the same way. */
  lemma {:induction false} SameSplit(a: string, r: string, b: string, s: string, c: char)
    requires a + r == b + s && c !in a && c !in b
    requires (r == "" || r[0] == c) && (s == "" || s[0] == c)
    ensures a == b && r == s
  {
    assert a == "" ==> a + r == r;
    assert b == "" ==> b + s == s;
    assert a != "" ==> (a + r)[0] == a[0] && a[0] != c;
    assert b != "" ==> (b + s)[0] == b[0] && b[0] != c;
    if a != "" && b != "" {
      assert (a + r)[1..] == a[1..] + r && (b + s)[1..] == b[1..] + s;
      SameSplit(a[1..], r, b[1..], s, c);
      assert a == [a[0]] + a[1..] && b == [b[0]] + b[1..];
    }
  }

  lemma RenderStart(ls: seq<Label>)
    ensures Render(ls) == "" <==> ls == []
    ensures Render(ls) == "" || Render(ls)[0] == '|'
  {
  }

  lemma {:induction false} RenderInjective(a: seq<Label>, b: seq<Label>)
    requires CleanLabels(a) && CleanLabels(b) && Render(a) == Render(b)
    ensures a == b
    decreases |a|
  {
    RenderStart(a);
    RenderStart(b);
    if a != [] {
      RenderUnfold(a);
      RenderUnfold(b);
      hide Render;
      var ra, rb := a[0].v + Render(a[1..]), b[0].v + Render(b[1..]);
      assert Render(a)[1..] == a[0].k + ("=" + ra) && Render(b)[1..] == b[0].k + ("=" + rb);
      SameSplit(a[0].k, "=" + ra, b[0].k, "=" + rb, '=');
      assert ("=" + ra)[1..] == ra && ("=" + rb)[1..] == rb;
      RenderStart(a[1..]);
      RenderStart(b[1..]);
      SameSplit(a[0].v, Render(a[1..]), b[0].v, Render(b[1..]), '|');
      RenderInjective(a[1..], b[1..]);
      assert a == [a[0]] + a[1..] && b == [b[0]] + b[1..];
    }
  }

  lemma SortClean(ls: seq<Label>)
    requires CleanLabels(ls)
    ensures CleanLabels(Sort(ls))
  {
    SortCorrect(ls);
    forall l | l in Sort(ls) ensures l in ls {
      assert l in multiset(Sort(ls));
    }
  }

  /** One label as the key shows it. */
  function LabelText(l: Label): string { "|" + (l.k + ("=" + l.v)) }

  lemma Regroup(k: string, v: string, rest: string)
    ensures "|" + (k + ("=" + (v + rest))) == ("|" + (k + ("=" + v))) + rest
  {
  }

  lemma RenderHead(ls: seq<Label>)
    requires ls != []
    ensures Render(ls) == LabelText(ls[0]) + Render(ls[1..])
  {
    RenderUnfold(ls);
    hide Render;
    Regroup(ls[0].k, ls[0].v, Render(ls[1..]));
  }

  lemma {:induction false} RenderConcat(a: seq<Label>, b: seq<Label>)
    ensures Render(a + b) == Render(a) + Render(b)
  {
    if a == [] {
      assert a + b == b;
      assert Render(a) == "" && "" + Render(b) == Render(b);
    } else {
      hide Render, LabelText;
      assert (a + b)[1..] == a[1..] + b;
      RenderConcat(a[1..], b);
      RenderHead(a);
      RenderHead(a + b);
      ConcatAssoc(LabelText(a[0]), Render(a[1..]), Render(b));
    }
  }

  lemma LabelTextClean(l: Label)
    requires CleanLabels([l])
    ensures LabelText(l)[0] == '|' && forall i :: 0 < i < |LabelText(l)| ==> LabelText(l)[i] != '|'
  {
    assert l in [l];
  }

  /** A text that starts with a label and is cut before a separator: the label is on the
      left of the cut. */
  lemma HeadCut(head: string, rest: string, x: string, r: string) returns (x': string)
    requires head + rest == x + r && x != "" && (r == "" || r[0] == '|')
    requires forall i :: 0 < i < |head| ==> head[i] != '|'
    ensures x == head + x' && rest == x' + r
  {
    var all := x + r;
    assert r != "" ==> all[|x|] == r[0];
    assert forall i :: 0 < i < |head| ==> all[i] == head[i];
    assert |x| >= |head|;
    x' := x[|head|..];
    assert x[..|head|] == all[..|head|] == head;
    assert x == x[..|head|] + x[|head|..];
    assert all[|head|..] == rest && all[|head|..] == x[|head|..] + r;
  }

  /** A rendering cut before a separator, or at its end, is cut between two labels. */
  lemma {:induction false} RenderCut(ls: seq<Label>, x: string, r: string) returns (j: nat)
    requires CleanLabels(ls) && Render(ls) == x + r && (r == "" || r[0] == '|')
    ensures j <= |ls| && x == Render(ls[..j]) && r == Render(ls[j..])
    decreases |ls|
  {
    RenderStart(ls);
    assert Render([]) == "" && ls[..0] == [] && ls[0..] == ls;
    hide Render;
    if x == "" {
      j := 0;
      assert x + r == r;
    } else {
      assert (x + r)[0] == x[0];
      RenderHead(ls);
      assert ls[0] in ls;
      LabelTextClean(ls[0]);
      hide LabelText;
      var x' := HeadCut(LabelText(ls[0]), Render(ls[1..]), x, r);
      var i := RenderCut(ls[1..], x', r);
      j := i + 1;
      RenderHead(ls[..j]);
      assert ls[..j][0] == ls[0] && ls[..j][1..] == ls[1..][..i] && ls[1..][i..] == ls[j..];
    }
  }

  /** The name n2 is n1 followed by the first j of the sorted labels s1, and the rest of
      them is s2. */
  ghost predicate Splits(n1: string, s1: seq<Label>, n2: string, s2: seq<Label>, j: int)
  {
    0 <= j <= |s1| && n2 == n1 + Render(s1[..j]) && s2 == s1[j..]
  }

  lemma SplitsShare(n1: string, s1: seq<Label>, n2: string, s2: seq<Label>, j: int)
    requires Splits(n1, s1, n2, s2, j)
    ensures n1 + Render(s1) == n2 + Render(s2)
  {
    hide Render;
    RenderConcat(s1[..j], s1[j..]);
    assert s1[..j] + s1[j..] == s1;
    ConcatAssoc(n1, Render(s1[..j]), Render(s2));
  }

  lemma CommonStart(a: string, r: string, b: string, s: string) returns (x: string)
    requires a + r == b + s && |a| <= |b|
    ensures b == a + x && r == x + s
  {
    x := b[|a|..];
    assert (a + r)[..|a|] == a && (b + s)[..|a|] == b[..|a|];
    assert (a + r)[|a|..] == r && (b + s)[|a|..] == x + s;
  }

  lemma SharesSplit(n1: string, s1: seq<Label>, n2: string, s2: seq<Label>) returns (j: nat)
    requires CleanLabels(s1) && CleanLabels(s2) && |n1| <= |n2|
    requires n1 + Render(s1) == n2 + Render(s2)
    ensures Splits(n1, s1, n2, s2, j)
  {
    RenderStart(s2);
    hide Render;
    var x := CommonStart(n1, Render(s1), n2, Render(s2));
    j := RenderCut(s1, x, Render(s2));
    assert CleanLabels(s1[j..]);
    RenderInjective(s2, s1[j..]);
  }

  /** Two streams with clean labels share a key exactly when the longer name is the shorter
      one followed by the first of its stream's sorted labels, as a key shows them, and the
      remaining ones are the labels of the stream with the longer name. */
  lemma SameKeyIff(n1: string, l1: seq<Label>, n2: string, l2: seq<Label>)
    requires CleanLabels(l1) && CleanLabels(l2) && |n1| <= |n2|
    ensures KeyOf(n1, l1) == KeyOf(n2, l2) <==> exists j :: Splits(n1, Sort(l1), n2, Sort(l2), j)
  {
    SortClean(l1);
    SortClean(l2);
    hide Sort, Render, Splits;
    if KeyOf(n1, l1) == KeyOf(n2, l2) {
      var j := SharesSplit(n1, Sort(l1), n2, Sort(l2));
      assert Splits(n1, Sort(l1), n2, Sort(l2), j as int);
    }
    if exists j :: Splits(n1, Sort(l1), n2, Sort(l2), j) {
      var j :| Splits(n1, Sort(l1), n2, Sort(l2), j);
      SplitsShare(n1, Sort(l1), n2, Sort(l2), j);
    }
  }

  /** A name that cannot end in a rendered label. */
  predicate PlainName(name: string) { '|' !in name || '=' !in name }

  lemma RenderHasSeparators(ls: seq<Label>)
    requires ls != []
    ensures '|' in Render(ls) && '=' in Render(ls)
  {
    RenderUnfold(ls);
    hide Render;
    var r := Render(ls);
    assert r[0] == '|' && r[1 + |ls[0].k|] == '=';
  }

  /** So with clean labels and names that lack one of the two separators, a key determines
      the stream: equal keys mean equal names and equal label sets. */
  lemma KeyDeterminesStream(n1: string, l1: seq<Label>, n2: string, l2: seq<Label>)
    requires PlainName(n1) && PlainName(n2) && CleanLabels(l1) && CleanLabels(l2)
    requires KeyOf(n1, l1) == KeyOf(n2, l2)
    ensures n1 == n2 && multiset(l1) == multiset(l2)
  {
    if |n1| > |n2| {
      LongerNameDetermines(n2, l2, n1, l1);
    } else {
      LongerNameDetermines(n1, l1, n2, l2);
    }
  }

  lemma LongerNameDetermines(n1: string, l1: seq<Label>, n2: string, l2: seq<Label>)
    requires PlainName(n2) && CleanLabels(l1) && CleanLabels(l2) && |n1| <= |n2|
    requires KeyOf(n1, l1) == KeyOf(n2, l2)
    ensures n1 == n2 && multiset(l1) == multiset(l2)
  {
    SortCorrect(l1);
    SortCorrect(l2);
    SameKeyIff(n1, l1, n2, l2);
    var s1 := Sort(l1);
    var j :| Splits(n1, s1, n2, Sort(l2), j);
    assert Render([]) == "" && s1[..0] == [] && s1[0..] == s1 && n1 + "" == n1;
    hide Render, Sort;
    PlainSplit(n1, s1, n2, Sort(l2), j);
  }

  lemma PlainSplit(n1: string, s1: seq<Label>, n2: string, s2: seq<Label>, j: int)
    requires Splits(n1, s1, n2, s2, j) && PlainName(n2)
    ensures j == 0
  {
    hide Render;
    var front := s1[..j];
    if front != [] {
      RenderHasSeparators(front);
    }
  }

  lemma LabelInName(name: string, l: Label, rest: seq<Label>)
    requires CleanLabels([l] + rest) && forall m :: m in rest ==> !LexLt(m.k, l.k)
    ensures KeyOf(name + LabelText(l), rest) == KeyOf(name, [l] + rest)
  {
    var all := [l] + rest;
    assert all[1..] == rest && all[0] == l;
    SortCorrect(rest);
    forall m | m in Sort(rest) ensures m in rest {
      assert m in multiset(Sort(rest));
    }
    assert Sort(all) == [l] + Sort(rest) by {
      if Sort(rest) != [] {
        assert Sort(rest)[0] in Sort(rest);
      }
    }
    SortClean(rest);
    hide Sort, Render;
    RenderHead(Sort(all));
    assert Sort(all)[1..] == Sort(rest);
    ConcatAssoc(name, LabelText(l), Render(Sort(rest)));
  }

  lemma FlatText(name: string, l: Label)
    ensures name + LabelText(l) == name + "|" + l.k + "=" + l.v
  {
  }

  /** Any other name can be confused: the stream with one more label, smaller than the
      rest, has the key of the stream whose name ends in that label. */
  lemma SeparatorsConfuse(name: string, l: Label, rest: seq<Label>)
    requires CleanLabels([l] + rest) && forall m :: m in rest ==> !LexLt(m.k, l.k)
    ensures KeyOf(name + "|" + l.k + "=" + l.v, rest) == KeyOf(name, [l] + rest)
  {
    FlatText(name, l);
    LabelInName(name, l, rest);
    hide *;
  }

  // ---- what every key is --------------------------------------------------------------------------------

  lemma {:induction false} SortedStays(ls: seq<Label>)
    requires Sorted(ls)
    ensures Sort(ls) == ls
  {
    if ls != [] {
      SortedStays(ls[1..]);
    }
  }

  lemma {:induction false} RenderLast(ls: seq<Label>, l: Label)
    ensures Render(ls + [l]) == Render(ls) + "|" + l.k + "=" + l.v
  {
    RenderConcat(ls, [l]);
    assert Render([l]) == "|" + (l.k + ("=" + l.v)) by { assert [l][1..] == [] && l.v + "" == l.v; }
    hide Render;
  }

  lemma {:induction false} InsertsCommute(l: Label, m: Label, s: seq<Label>)
    requires l.k != m.k && Sorted(s)
    ensures Insert(l, Insert(m, s)) == Insert(m, Insert(l, s))
  {
    LexTotal(l.k, m.k);
    if s != [] {
      if LexLt(s[0].k, l.k) && LexLt(s[0].k, m.k) {
        InsertsCommute(l, m, s[1..]);
      }
      if LexLt(s[0].k, l.k) && LexLt(l.k, m.k) {
        LexTransitive(s[0].k, l.k, m.k);
      }
      if LexLt(s[0].k, m.k) && LexLt(m.k, l.k) {
        LexTransitive(s[0].k, m.k, l.k);
      }
    }
  }

  lemma SortHead(l: Label, s: seq<Label>)
    ensures Sort([l] + s) == Insert(l, Sort(s))
  {
    assert ([l] + s)[1..] == s;
  }

  lemma {:induction false} SwapSorts(a: seq<Label>, l: Label, m: Label, b: seq<Label>)
    requires l.k != m.k
    ensures Sort(a + ([l, m] + b)) == Sort(a + ([m, l] + b))
    decreases |a|
  {
    hide Sort, Insert;
    if a == [] {
      assert a + ([l, m] + b) == [l] + ([m] + b) && a + ([m, l] + b) == [m] + ([l] + b);
      SortHead(m, b);
      SortHead(l, b);
      SortHead(l, [m] + b);
      SortHead(m, [l] + b);
      SortCorrect(b);
      InsertsCommute(l, m, Sort(b));
    } else {
      assert a + ([l, m] + b) == [a[0]] + (a[1..] + ([l, m] + b)) && a + ([m, l] + b) == [a[0]] + (a[1..] + ([m, l] + b));
      SortHead(a[0], a[1..] + ([l, m] + b));
      SortHead(a[0], a[1..] + ([m, l] + b));
      SwapSorts(a[1..], l, m, b);
    }
  }

  lemma NoLabels(name: string)
    ensures KeyOf(name, []) == name
  {
  }

  lemma LastLabel(name: string, ls: seq<Label>, l: Label)
    requires Sorted(ls) && forall i :: 0 <= i < |ls| ==> !LexLt(l.k, ls[i].k)
    ensures KeyOf(name, ls + [l]) == KeyOf(name, ls) + "|" + l.k + "=" + l.v
  {
    SortedMore(ls, l);
    SortedStays(ls);
    SortedStays(ls + [l]);
    RenderLast(ls, l);
    hide Sort, Render, LexLt, Sorted;
    ConcatAssoc(name, Render(ls), "|" + l.k + "=" + l.v);
  }

  lemma SortedMore(ls: seq<Label>, l: Label)
    requires Sorted(ls) && forall i :: 0 <= i < |ls| ==> !LexLt(l.k, ls[i].k)
    ensures Sorted(ls + [l])
  {
  }

  lemma NeighboursSwap(name: string, ls: seq<Label>, l: Label, m: Label, after: seq<Label>)
    requires l.k != m.k
    ensures KeyOf(name, ls + ([l, m] + after)) == KeyOf(name, ls + ([m, l] + after))
  {
    SwapSorts(ls, l, m, after);
    hide Sort, Render;
  }

  /** The key of no labels is the name; a label that belongs last adds "|k=v" at the end; and
      neighbours with different keys can change places. Together these fix the key of every
      list, labels that share a key included. */
  lemma KeyLaws(name: string, ls: seq<Label>, l: Label, m: Label, after: seq<Label>)
    ensures KeyOf(name, []) == name
    ensures (forall i, j :: 0 <= i < j < |ls| ==> !LexLt(ls[j].k, ls[i].k)) && (forall i :: 0 <= i < |ls| ==> !LexLt(l.k, ls[i].k))
        ==> KeyOf(name, ls + [l]) == KeyOf(name, ls) + "|" + l.k + "=" + l.v
    ensures l.k != m.k ==> KeyOf(name, ls + ([l, m] + after)) == KeyOf(name, ls + ([m, l] + after))
  {
    NoLabels(name);
    hide KeyOf, LexLt;
    if Sorted(ls) && forall i :: 0 <= i < |ls| ==> !LexLt(l.k, ls[i].k) {
      LastLabel(name, ls, l);
    }
    if l.k != m.k {
      NeighboursSwap(name, ls, l, m, after);
    }
  }

  // ---- exactly when order does not matter -----------------------------------------------------------------

  function WithKey(ls: seq<Label>, k: string): seq<Label>
  {
    if ls == [] then [] else (if ls[0].k == k then [ls[0]] else []) + WithKey(ls[1..], k)
  }

  lemma WithKeyHead(l: Label, s: seq<Label>, k: string)
    ensures WithKey([l] + s, k) == (if l.k == k then [l] else []) + WithKey(s, k)
  {
    assert ([l] + s)[1..] == s;
  }

  lemma {:induction false} InsertStable(l: Label, s: seq<Label>, k: string)
    requires Sorted(s)
    ensures WithKey(Insert(l, s), k) == (if l.k == k then [l] else []) + WithKey(s, k)
  {
    if s == [] || !LexLt(s[0].k, l.k) {
      WithKeyHead(l, s, k);
    } else {
      LexTotal(s[0].k, l.k);
      InsertStable(l, s[1..], k);
      WithKeyHead(s[0], Insert(l, s[1..]), k);
      WithKeyHead(s[0], s[1..], k);
      assert s == [s[0]] + s[1..];
      hide WithKey, LexLt;
    }
  }

  /** Labels with equal keys keep their order. */
  lemma {:induction false} SortStable(ls: seq<Label>, k: string)
    ensures WithKey(Sort(ls), k) == WithKey(ls, k)
  {
    if ls != [] {
      SortStable(ls[1..], k);
      SortCorrect(ls[1..]);
      InsertStable(ls[0], Sort(ls[1..]), k);
    }
  }

  ghost predicate OrderIrrelevant(name: string, ls: seq<Label>)
  {
    forall p :: multiset(p) == multiset(ls) ==> KeyOf(name, p) == KeyOf(name, ls)
  }

  lemma MoveToFront(ls: seq<Label>, i: nat) returns (p: seq<Label>)
    requires i < |ls|
    ensures multiset(p) == multiset(ls) && p != [] && p[0] == ls[i]
  {
    p := [ls[i]] + ls[..i] + ls[i + 1..];
    assert ls == ls[..i] + [ls[i]] + ls[i + 1..];
  }

  /** For clean labels, every ordering gives the same key exactly when no key occurs
      with two different values. */
  lemma OrderIrrelevantIff(name: string, ls: seq<Label>)
    requires CleanLabels(ls)
    ensures OrderIrrelevant(name, ls) <==> Functional(ls)
  {
    if Functional(ls) {
      forall p | multiset(p) == multiset(ls) ensures KeyOf(name, p) == KeyOf(name, ls) {
        PermutedLabelsSameKey(name, ls, p);
      }
    } else {
      var a, b :| a in ls && b in ls && a.k == b.k && a != b;
      var i :| 0 <= i < |ls| && ls[i] == a;
      var j :| 0 <= j < |ls| && ls[j] == b;
      var p := MoveToFront(ls, i);
      var q := MoveToFront(ls, j);
      SameElementsClean(ls, p);
      SameElementsClean(ls, q);
      SortClean(p);
      SortClean(q);
      SortStable(p, a.k);
      SortStable(q, a.k);
      assert WithKey(p, a.k)[0] == a && WithKey(q, a.k)[0] == b;
      if Render(Sort(p)) == Render(Sort(q)) {
        RenderInjective(Sort(p), Sort(q));
      }
      assert KeyOf(name, p)[|name|..] == Render(Sort(p)) && KeyOf(name, q)[|name|..] == Render(Sort(q));
    }
  }

  lemma SameElementsClean(ls: seq<Label>, p: seq<Label>)
    requires CleanLabels(ls) && multiset(p) == multiset(ls)
    ensures CleanLabels(p)
  {
    forall l | l in p ensures l in ls {
      assert l in multiset(p);
    }
  }
}
