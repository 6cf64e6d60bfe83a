/** Shared vocabulary: optional values, bytes, and the splitting of a sequence
    into runs of at most k elements (Rust's `slice::chunks`). */
module Prelude {

  datatype Option<+T> = None | Some(value: T)

  type Byte = x: int | 0 <= x < 0x100

  lemma ConcatAssoc<T>(a: seq<T>, b: seq<T>, c: seq<T>)
    ensures (a + b) + c == a + (b + c)
  {
  }

  /** `s.chunks(k)`: consecutive pieces of length k, the last one possibly shorter. */
  function Chunks<T>(s: seq<T>, k: nat): (r: seq<seq<T>>)
    requires k > 0
  {
    if s == [] then []
    else if |s| <= k then [s]
    else [s[..k]] + Chunks(s[k..], k)
  }

  function Flatten<T>(ss: seq<seq<T>>): seq<T>
  {
    if ss == [] then [] else ss[0] + Flatten(ss[1..])
  }

  lemma FlattenCons<T>(a: seq<T>, rest: seq<seq<T>>)
    ensures Flatten([a] + rest) == a + Flatten(rest)
  {
    assert ([a] + rest)[1..] == rest;
  }

  lemma {:induction false} FlattenAppend<T>(a: seq<seq<T>>, b: seq<seq<T>>)
    ensures Flatten(a + b) == Flatten(a) + Flatten(b)
  {
    if a == [] {
      assert a + b == b;
    } else {
      assert (a + b)[1..] == a[1..] + b;
      FlattenAppend(a[1..], b);
      ConcatAssoc(a[0], Flatten(a[1..]), Flatten(b));
    }
  }

  lemma {:induction false} ChunksFlatten<T>(s: seq<T>, k: nat)
    requires k > 0
    ensures Flatten(Chunks(s, k)) == s
  {
    hide Flatten;
    assert Flatten<T>([]) == [] by { EmptyFlattens<T>(); }
    if |s| > k {
      ChunksFlatten(s[k..], k);
      FlattenCons(s[..k], Chunks(s[k..], k));
      assert s[..k] + s[k..] == s;
    } else if s != [] {
      FlattenCons(s, []);
      assert [s] + [] == [s] && s + [] == s;
    }
  }

  lemma EmptyFlattens<T>()
    ensures Flatten<T>([]) == []
  {
  }

  lemma {:induction false} ChunksNotEmpty<T>(s: seq<T>, k: nat)
    requires k > 0
    ensures s != [] ==> Chunks(s, k) != []
    ensures forall i :: 0 <= i < |Chunks(s, k)| ==> Chunks(s, k)[i] != []
  {
    if |s| > k {
      ChunksNotEmpty(s[k..], k);
      assert Chunks(s, k) == [s[..k]] + Chunks(s[k..], k);
    }
  }

  /** How often x occurs in s. */
  function Count<T(==)>(s: seq<T>, x: T): nat
  {
    if s == [] then 0 else (if s[0] == x then 1 else 0) + Count(s[1..], x)
  }

  lemma {:induction false} CountConcat<T>(a: seq<T>, b: seq<T>, x: T)
    ensures Count(a + b, x) == Count(a, x) + Count(b, x)
  {
    if a == [] {
      assert a + b == b;
    } else {
      assert (a + b)[1..] == a[1..] + b;
      CountConcat(a[1..], b, x);
    }
  }

  lemma CountSplit<T>(s: seq<T>, n: nat, x: T)
    requires n <= |s|
    ensures Count(s, x) == Count(s[..n], x) + Count(s[n..], x)
  {
    assert s == s[..n] + s[n..];
    CountConcat(s[..n], s[n..], x);
  }

  /** n divided by k, rounded up. */
  function Ceiling(n: nat, k: nat): nat
    requires k > 0
  {
    (n + k - 1) / k
  }

  lemma CeilingSteps(n: nat, k: nat)
    requires k > 0
    ensures n == 0 ==> Ceiling(n, k) == 0
    ensures 0 < n <= k ==> Ceiling(n, k) == 1
    ensures n > k ==> Ceiling(n, k) == 1 + Ceiling(n - k, k)
  {
    if n == 0 {
      QuotientStep(k - 1, k);
    } else {
      QuotientStep(n - 1, k);
      assert (n - 1) + k == n + k - 1;
      if n > k {
        assert (n - k) + k - 1 == n - 1;
      }
    }
  }

  lemma {:induction false} ChunksCount<T>(s: seq<T>, k: nat)
    requires k > 0
    ensures |Chunks(s, k)| == Ceiling(|s|, k)
  {
    hide Ceiling;
    CeilingSteps(|s|, k);
    if |s| > k {
      ChunksCount(s[k..], k);
    }
  }

  lemma Product(k: nat, a: int, b: int)
    requires a <= b
    ensures k * a <= k * b
    ensures k * (a + 1) == k * a + k
  {
  }

  lemma DivisionUnique(x: nat, k: nat, q: nat, r: nat)
    requires x == k * q + r && r < k
    ensures x / k == q
  {
    var p := x / k;
    assert x == k * p + x % k;
    if p < q {
      Product(k, p + 1, q);
      Product(k, p, p);
    } else if q < p {
      Product(k, q + 1, p);
      Product(k, q, q);
    }
  }

  lemma QuotientStep(a: nat, k: nat)
    requires k > 0
    ensures (a + k) / k == a / k + 1
    ensures a < k ==> a / k == 0
  {
    Product(k, a / k, a / k);
    assert a == k * (a / k) + a % k;
    DivisionUnique(a + k, k, a / k + 1, a % k);
    if a < k {
      DivisionUnique(a, k, 0, a);
    }
  }

  /** Piece i is the slice that starts at i * k; only the last piece can be short. */
  lemma {:induction false} ChunkAt<T>(s: seq<T>, k: nat, i: nat)
    requires k > 0 && i < |Chunks(s, k)|
    ensures 0 < |Chunks(s, k)[i]| <= k
    ensures i < |Chunks(s, k)| - 1 ==> |Chunks(s, k)[i]| == k
    ensures 0 <= i * k && i * k + |Chunks(s, k)[i]| <= |s|
    ensures i == |Chunks(s, k)| - 1 ==> i * k + |Chunks(s, k)[i]| == |s|
    ensures Chunks(s, k)[i] == s[i * k..i * k + |Chunks(s, k)[i]|]
  {
    if |s| > k && i > 0 {
      ChunkAt(s[k..], k, i - 1);
      assert (i - 1) * k + k == i * k;
      assert Chunks(s, k)[i] == Chunks(s[k..], k)[i - 1];
    }
  }
}
