/** Sums, subsequences and filters that several components share. */
module Collections {

  datatype Option<+T> = None | Some(value: T)

  lemma ConcatIsAssociative<T>(a: seq<T>, b: seq<T>, c: seq<T>)
    ensures a + (b + c) == a + b + c
  {
  }

  lemma ConcatDropLast<T>(a: seq<T>, b: seq<T>)
    requires b != []
    ensures (a + b)[..|a + b| - 1] == a + b[..|b| - 1] && (a + b)[|a + b| - 1] == b[|b| - 1]
  {
  }

  lemma SixOn<T>(s: seq<T>, a: T, b: T, c: T, d: T, e: T, f: T)
    ensures s + [a, b, c, d, e, f] == s + [a] + [b] + [c] + [d] + [e] + [f]
  {
  }

  lemma ConcatTail<T>(a: seq<T>, b: seq<T>)
    requires a != []
    ensures (a + b)[1..] == a[1..] + b
  {
  }

  lemma ConcatTake<T>(a: seq<T>, b: seq<T>, k: nat)
    requires k < |b|
    ensures (a + b)[..|a| + k] == a + b[..k] && (a + b)[|a| + k] == b[k]
  {
  }

  /** The sum of a measure over the elements of a sequence. */
  function SumOf<T>(s: seq<T>, f: T -> int): int {
    if s == [] then 0 else SumOf(s[..|s| - 1], f) + f(s[|s| - 1])
  }

  /** Replacing one element moves the sum by the difference of the two. */
  lemma {:induction false} SumOfUpdate<T>(s: seq<T>, i: nat, x: T, f: T -> int)
    requires i < |s|
    ensures SumOf(s[i := x], f) == SumOf(s, f) - f(s[i]) + f(x)
  {
    var t := s[i := x];
    if i == |s| - 1 {
      assert t[..|t| - 1] == s[..|s| - 1];
    } else {
      assert t[..|t| - 1] == s[..|s| - 1][i := x];
      SumOfUpdate(s[..|s| - 1], i, x, f);
    }
  }

  /** A measure bounded by m on every element, and zero at i, sums to at most (|s| - 1) * m. */
  lemma {:induction false} SumOfBound<T>(s: seq<T>, f: T -> int, m: nat)
    requires forall x <- s :: 0 <= f(x) <= m
    ensures 0 <= SumOf(s, f) <= |s| * m
  {
    if s != [] {
      SumOfBound(s[..|s| - 1], f, m);
      assert |s| * m == (|s| - 1) * m + m;
    }
  }

  lemma {:induction false} SumOfBoundExcept<T>(s: seq<T>, i: nat, f: T -> int, m: nat)
    requires i < |s|
    requires forall x <- s :: 0 <= f(x) <= m
    requires f(s[i]) == 0
    ensures 0 <= SumOf(s, f) <= (|s| - 1) * m
  {
    var rest := s[..|s| - 1];
    if i == |s| - 1 {
      SumOfBound(rest, f, m);
    } else {
      SumOfBoundExcept(rest, i, f, m);
      assert (|s| - 1) * m == (|rest| - 1) * m + m;
    }
  }

  lemma {:induction false} SumOfZero<T>(s: seq<T>, f: T -> int)
    requires forall x <- s :: f(x) == 0
    ensures SumOf(s, f) == 0
  {
    if s != [] {
      SumOfZero(s[..|s| - 1], f);
    }
  }

  /** a is b with some elements left out, in the same order. */
  ghost predicate Subsequence<T>(a: seq<T>, b: seq<T>) {
    if a == [] then true
    else if b == [] then false
    else
      || (a[|a| - 1] == b[|b| - 1] && Subsequence(a[..|a| - 1], b[..|b| - 1]))
      || Subsequence(a, b[..|b| - 1])
  }

  lemma SubsequenceSkip<T>(a: seq<T>, b: seq<T>, x: T)
    requires Subsequence(a, b)
    ensures Subsequence(a, b + [x])
  {
    assert (b + [x])[..|b + [x]| - 1] == b;
  }

  lemma SubsequenceSnoc<T>(a: seq<T>, b: seq<T>, x: T)
    requires Subsequence(a, b)
    ensures Subsequence(a + [x], b + [x])
  {
    assert (b + [x])[..|b + [x]| - 1] == b;
    assert (a + [x])[..|a + [x]| - 1] == a;
  }

  lemma {:induction false} SubsequenceDropLast<T>(a: seq<T>, x: T, b: seq<T>)
    requires Subsequence(a + [x], b)
    ensures Subsequence(a, b)
    decreases |b|
  {
    assert (a + [x])[..|a + [x]| - 1] == a;
    assert b[..|b| - 1] + [b[|b| - 1]] == b;
    if !((a + [x])[|a|] == b[|b| - 1] && Subsequence(a, b[..|b| - 1])) {
      SubsequenceDropLast(a, x, b[..|b| - 1]);
    }
    SubsequenceSkip(a, b[..|b| - 1], b[|b| - 1]);
  }

  lemma {:induction false} SubsequenceConcat<T>(a: seq<T>, b: seq<T>, tail: seq<T>)
    requires Subsequence(a, b)
    ensures Subsequence(a + tail, b + tail)
    decreases |tail|
  {
    if tail == [] {
      assert a + tail == a && b + tail == b;
    } else {
      var init, last := tail[..|tail| - 1], tail[|tail| - 1];
      SubsequenceConcat(a, b, init);
      SubsequenceSnoc(a + init, b + init, last);
      assert a + tail == (a + init) + [last] && b + tail == (b + init) + [last];
    }
  }

  lemma {:induction false} SubsequenceTrans<T>(a: seq<T>, b: seq<T>, c: seq<T>)
    requires Subsequence(a, b) && Subsequence(b, c)
    ensures Subsequence(a, c)
    decreases |c|
  {
    if a != [] {
      var c' := c[..|c| - 1];
      if Subsequence(b, c') {
        SubsequenceTrans(a, b, c');
      } else if Subsequence(a, b[..|b| - 1]) {
        SubsequenceTrans(a, b[..|b| - 1], c');
      } else {
        SubsequenceTrans(a[..|a| - 1], b[..|b| - 1], c');
      }
      assert c' + [c[|c| - 1]] == c;
    }
  }

  lemma {:induction false} SubsequenceRefl<T>(a: seq<T>)
    ensures Subsequence(a, a)
  {
    if a != [] {
      SubsequenceRefl(a[..|a| - 1]);
    }
  }

  /** How many elements of a sequence satisfy p. */
  function CountIf<T>(s: seq<T>, p: T -> bool): nat {
    if s == [] then 0 else CountIf(s[..|s| - 1], p) + if p(s[|s| - 1]) then 1 else 0
  }

  lemma {:induction false} CountIfConcat<T>(a: seq<T>, b: seq<T>, p: T -> bool)
    ensures CountIf(a + b, p) == CountIf(a, p) + CountIf(b, p)
    decreases |b|
  {
    if b == [] {
      assert a + b == a;
    } else {
      assert (a + b)[..|a + b| - 1] == a + b[..|b| - 1];
      CountIfConcat(a, b[..|b| - 1], p);
    }
  }

  function RemoveAt<T>(s: seq<T>, i: nat): seq<T>
    requires i < |s|
  {
    s[..i] + s[i + 1..]
  }

  lemma {:induction false} CountIfRemoveAt<T>(s: seq<T>, i: nat, p: T -> bool)
    requires i < |s|
    ensures CountIf(s, p) == CountIf(RemoveAt(s, i), p) + if p(s[i]) then 1 else 0
  {
    var init, rest := s[..|s| - 1], RemoveAt(s, i);
    if i == |s| - 1 {
      assert rest == init;
    } else {
      CountIfRemoveAt(init, i, p);
      assert rest[..|rest| - 1] == RemoveAt(init, i);
    }
  }

  lemma {:induction false} CountIfAll<T>(s: seq<T>, p: T -> bool)
    ensures CountIf(s, p) <= |s|
    ensures (forall x <- s :: p(x)) ==> CountIf(s, p) == |s|
    ensures (forall x <- s :: !p(x)) <==> CountIf(s, p) == 0
  {
    if s != [] {
      CountIfAll(s[..|s| - 1], p);
      assert s == s[..|s| - 1] + [s[|s| - 1]];
    }
  }

  /** Every element once. */
  predicate NoDuplicates<T(==)>(s: seq<T>) {
    s == [] || (s[|s| - 1] !in s[..|s| - 1] && NoDuplicates(s[..|s| - 1]))
  }

  /** The keys of a map in whatever order the runtime hands them over. */
  method Enumerate<K(==), V>(m: map<K, V>) returns (ks: seq<K>)
    ensures NoDuplicates(ks)
    ensures forall k :: k in ks <==> k in m
  {
    ks := [];
    var left := m.Keys;
    while left != {}
      invariant left <= m.Keys
      invariant NoDuplicates(ks)
      invariant forall k :: k in ks <==> k in m && k !in left
    {
      var k :| k in left;
      assert (ks + [k])[..|ks|] == ks;
      ks := ks + [k];
      left := left - {k};
    }
  }

  lemma {:induction false} NotSeenBefore<T>(s: seq<T>, i: nat)
    requires NoDuplicates(s) && i < |s|
    ensures s[i] !in s[..i] && forall k | 0 <= k < i :: s[k] != s[i]
  {
    if i < |s| - 1 {
      var init := s[..|s| - 1];
      NotSeenBefore(init, i);
      assert init[..i] == s[..i];
    }
  }

  /** A loop over an enumeration has seen every key once it is over. */
  lemma AllSeen<T>(ks: seq<T>, keys: set<T>, seen: set<T>)
    requires (forall k :: k in ks <==> k in keys) && seen == set j | 0 <= j < |ks| :: ks[j]
    ensures seen == keys
  {
    forall k <- seen
      ensures k in keys
    {
      assert k in ks;
    }
    forall k <- keys
      ensures k in seen
    {
      assert k in ks;
    }
  }
}
