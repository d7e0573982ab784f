// Lists and their sums, shared by the other modules.

module Sequences {

  // ---------- sums ----------

  function SumOf<T>(f: T -> int, s: seq<T>): (n: int)
    ensures (forall i :: 0 <= i < |s| ==> f(s[i]) >= 0) ==> n >= 0
  {
    if s == [] then 0 else f(s[0]) + SumOf(f, s[1..])
  }

  function Sum(s: seq<int>): int {
    if s == [] then 0 else s[0] + Sum(s[1..])
  }

  lemma {:induction false} SumOfConcat<T>(f: T -> int, a: seq<T>, b: seq<T>)
    ensures SumOf(f, a + b) == SumOf(f, a) + SumOf(f, b)
  {
    if a == [] {
      assert a + b == b;
    } else {
      assert (a + b)[1..] == a[1..] + b;
      SumOfConcat(f, a[1..], b);
    }
  }

  lemma {:induction false} SumIsSumOf(s: seq<int>)
    ensures Sum(s) == SumOf((x: int) => x, s)
  {
    if s != [] { SumIsSumOf(s[1..]); }
  }

  // ---------- order ----------

  function Without<T>(s: seq<T>, i: nat): seq<T>
    requires i < |s|
  {
    s[..i] + s[i + 1..]
  }

  lemma WithoutOne<T>(s: seq<T>, i: nat)
    requires i < |s|
    ensures multiset(Without(s, i)) == multiset(s) - multiset{s[i]}
  {
    assert s == s[..i] + ([s[i]] + s[i + 1..]);
    assert multiset(s) == multiset(s[..i]) + (multiset{s[i]} + multiset(s[i + 1..]));
  }

  lemma SumOfWithout<T>(f: T -> int, s: seq<T>, i: nat)
    requires i < |s|
    ensures SumOf(f, s) == f(s[i]) + SumOf(f, Without(s, i))
  {
    SumOfConcat(f, s[..i], s[i + 1..]);
    SumOfConcat(f, s[..i], [s[i]] + s[i + 1..]);
    assert s == s[..i] + ([s[i]] + s[i + 1..]);
    assert ([s[i]] + s[i + 1..])[1..] == s[i + 1..];
  }

  /** A sum does not depend on the order of its terms. */
  lemma {:induction false} SumOfIgnoresOrder<T>(f: T -> int, a: seq<T>, b: seq<T>)
    requires multiset(a) == multiset(b)
    ensures SumOf(f, a) == SumOf(f, b)
  {
    if a == [] {
      assert |multiset(b)| == 0;
    } else {
      assert a[0] in multiset(b);
      var i :| 0 <= i < |b| && b[i] == a[0];
      WithoutOne(a, 0);
      WithoutOne(b, i);
      SumOfIgnoresOrder(f, Without(a, 0), Without(b, i));
      SumOfWithout(f, a, 0);
      SumOfWithout(f, b, i);
    }
  }

  lemma SumIgnoresOrder(a: seq<int>, b: seq<int>)
    requires multiset(a) == multiset(b)
    ensures Sum(a) == Sum(b)
  {
    SumIsSumOf(a);
    SumIsSumOf(b);
    SumOfIgnoresOrder((x: int) => x, a, b);
  }

  lemma PermutedMembers<T>(a: seq<T>, b: seq<T>)
    requires multiset(a) == multiset(b)
    ensures |a| == |b| && forall x :: x in a <==> x in b
  {
    assert |a| == |multiset(a)| && |b| == |multiset(b)|;
    forall x ensures x in a <==> x in b {
      assert x in a <==> x in multiset(a);
    }
  }

  // ---------- bounds ----------

  function Max(s: seq<int>): (m: int)
    requires s != []
    ensures m in s && forall x :: x in s ==> x <= m
  {
    if |s| == 1 then s[0] else var r := Max(s[1..]); assert s == [s[0]] + s[1..]; if s[0] >= r then s[0] else r
  }

  function Min(s: seq<int>): (m: int)
    requires s != []
    ensures m in s && forall x :: x in s ==> m <= x
  {
    if |s| == 1 then s[0] else var r := Min(s[1..]); assert s == [s[0]] + s[1..]; if s[0] <= r then s[0] else r
  }

  // ---------- repetitions ----------

  predicate Distinct<T(==)>(s: seq<T>) {
    forall i, j :: 0 <= i < j < |s| ==> s[i] != s[j]
  }

  /** As many different elements as places means no repetition. */
  lemma {:induction false} DistinctCounted<T>(s: seq<T>)
    ensures Distinct(s) <==> |set x | x in s| == |s|
    ensures |set x | x in s| <= |s|
  {
    if s != [] {
      var all, tail := set x | x in s, set x | x in s[1..];
      DistinctCounted(s[1..]);
      assert s == [s[0]] + s[1..] && all == {s[0]} + tail;
      if Distinct(s) {
        assert s[0] !in tail && Distinct(s[1..]);
      } else if s[0] !in tail {
        assert !Distinct(s[1..]);
      }
    }
  }

  // ---------- sets ----------

  lemma AddOne<T>(a: set<T>, x: T)
    ensures |a + {x}| == |a| + if x in a then 0 else 1
  {
    if x in a { assert a + {x} == a; }
  }

  lemma {:induction false} SubsetSize<T>(a: set<T>, b: set<T>)
    requires a <= b
    ensures |a| <= |b|
  {
    if x :| x in a { SubsetSize(a - {x}, b - {x}); }
  }

  lemma {:induction false} SameSize<T>(a: set<T>, b: set<T>)
    requires a <= b && |a| == |b|
    ensures a == b
  {
    if x :| x in a { SameSize(a - {x}, b - {x}); }
  }
}
