/** Shared vocabulary: an option type, and sums over a sequence. */
module Base {

  datatype Option<+T> = None | Some(value: T)

  /** The sum of `f` over every element. */
  ghost function Sum<T>(f: T -> int, s: seq<T>): int {
    if s == [] then 0 else f(s[0]) + Sum(f, s[1..])
  }

  /** Replacing one element moves the sum by the difference of that element alone. */
  lemma {:induction false} SumUpdate<T>(f: T -> int, s: seq<T>, i: nat, x: T)
    requires i < |s|
    ensures Sum(f, s[i := x]) == Sum(f, s) - f(s[i]) + f(x)
  {
    if i == 0 {
      assert s[0 := x][1..] == s[1..];
    } else {
      assert s[i := x][1..] == s[1..][i - 1 := x];
      SumUpdate(f, s[1..], i - 1, x);
    }
  }

  /** A sum of non-negative terms bounds each of its terms. */
  lemma {:induction false} SumBound<T>(f: T -> int, s: seq<T>, i: nat)
    requires i < |s|
    requires forall k :: 0 <= k < |s| ==> f(s[k]) >= 0
    ensures Sum(f, s) >= f(s[i])
  {
    SumNonNegative(f, s[1..]);
    if i > 0 {
      SumBound(f, s[1..], i - 1);
    }
  }

  lemma {:induction false} SumNonNegative<T>(f: T -> int, s: seq<T>)
    requires forall k :: 0 <= k < |s| ==> f(s[k]) >= 0
    ensures Sum(f, s) >= 0
  {
    if s != [] {
      SumNonNegative(f, s[1..]);
    }
  }

  /** When every other term vanishes the sum is the remaining one. */
  lemma {:induction false} SumSingle<T>(f: T -> int, s: seq<T>, i: nat)
    requires i < |s|
    requires forall k :: 0 <= k < |s| && k != i ==> f(s[k]) == 0
    ensures Sum(f, s) == f(s[i])
  {
    if i == 0 {
      SumAllZero(f, s[1..]);
    } else {
      SumSingle(f, s[1..], i - 1);
    }
  }

  lemma {:induction false} SumAllZero<T>(f: T -> int, s: seq<T>)
    requires forall k :: 0 <= k < |s| ==> f(s[k]) == 0
    ensures Sum(f, s) == 0
  {
    if s != [] {
      SumAllZero(f, s[1..]);
    }
  }

  /** `p` holds of every element. */
  ghost predicate All<T>(p: T -> bool, s: seq<T>) {
    forall k :: 0 <= k < |s| ==> p(s[k])
  }

  lemma AllUpdate<T>(p: T -> bool, s: seq<T>, i: nat, x: T)
    requires All(p, s) && i < |s| && p(x)
    ensures All(p, s[i := x])
  {}
}
