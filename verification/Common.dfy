/** Definitions shared by the models of the delivery engine. */
module Common {

  datatype Option<+T> = None | Some(value: T)

  /** The largest value of a Rust `u64` (and of `usize` on the supported targets). */
  const U64_MAX: nat := 0xFFFF_FFFF_FFFF_FFFF

  /** `a.wrapping_add(b)` on 64-bit counters. */
  function WrappingAdd(a: nat, b: nat): nat
    requires a <= U64_MAX && b <= U64_MAX
  {
    if a + b <= U64_MAX then a + b else a + b - (U64_MAX + 1)
  }

  /** `a.wrapping_sub(b)` on 64-bit counters. */
  function WrappingSub(a: nat, b: nat): nat
    requires a <= U64_MAX && b <= U64_MAX
  {
    if b <= a then a - b else a + (U64_MAX + 1) - b
  }

  /** `x << n`. */
  function ShiftLeft(x: nat, n: nat): nat
    decreases n
  {
    if n == 0 then x else ShiftLeft(2 * x, n - 1)
  }

  function Pow2(n: nat): nat { if n == 0 then 1 else 2 * Pow2(n - 1) }

  lemma {:induction false} ShiftIsPower(x: nat, n: nat)
    ensures ShiftLeft(x, n) == x * Pow2(n)
    decreases n
  {
    if n > 0 {
      ShiftIsPower(2 * x, n - 1);
    }
  }

  lemma AppendOne<T>(a: seq<T>, x: T, b: seq<T>)
    ensures a + [x] + b == a + ([x] + b)
  {
  }

  lemma Associative<T>(a: seq<T>, b: seq<T>, c: seq<T>)
    ensures a + (b + c) == (a + b) + c
  {
  }

  ghost predicate Distinct<T>(s: seq<T>) {
    forall i, j :: 0 <= i < j < |s| ==> s[i] != s[j]
  }

  /** The elements of `s` other than `x`, in order: `VecDeque::retain(|y| y != x)`. */
  function Without<T(==)>(s: seq<T>, x: T): seq<T> {
    if s == [] then []
    else if s[0] == x then Without(s[1..], x)
    else [s[0]] + Without(s[1..], x)
  }

  lemma {:induction false} WithoutMembers<T>(s: seq<T>, x: T)
    ensures forall y :: y in Without(s, x) <==> y in s && y != x
    ensures |Without(s, x)| <= |s|
    ensures x !in s ==> Without(s, x) == s
  {
    if s != [] {
      assert s == [s[0]] + s[1..];
      WithoutMembers(s[1..], x);
    }
  }

  lemma {:induction false} WithoutDistinct<T>(s: seq<T>, x: T)
    requires Distinct(s)
    ensures Distinct(Without(s, x))
  {
    if s != [] {
      var tail := Without(s[1..], x);
      WithoutDistinct(s[1..], x);
      WithoutMembers(s[1..], x);
      assert s[0] !in s[1..];
      assert s[0] !in tail;
    }
  }

  lemma {:induction false} WithoutAppend<T>(a: seq<T>, b: seq<T>, x: T)
    ensures Without(a + b, x) == Without(a, x) + Without(b, x)
  {
    if a == [] {
      assert a + b == b;
    } else {
      assert (a + b)[1..] == a[1..] + b;
      WithoutAppend(a[1..], b, x);
    }
  }

  lemma {:induction false} DistinctCardinality<T>(s: seq<T>, elements: set<T>)
    requires Distinct(s)
    requires forall x :: x in elements <==> x in s
    ensures |elements| == |s|
  {
    if s == [] {
      assert elements == {};
    } else {
      assert s == [s[0]] + s[1..];
      DistinctCardinality(s[1..], elements - {s[0]});
    }
  }
}
