/** Helpers shared by the models: an optional value (Ruby's nil) and
    Ruby's integer division, which rounds toward negative infinity. */
module Util {

  /** A value that may be absent, for the places where the Ruby code
      returns or stores nil. */
  datatype Option<+T> = None | Some(value: T)

  /** Ruby's Integer#/ : the quotient rounded toward negative infinity.
      Dafny's own / is Euclidean, so a negative divisor needs a correction. */
  function FloorDiv(a: int, b: int): (q: int)
    requires b != 0
    ensures b > 0 ==> b * q <= a < b * q + b
    ensures b < 0 ==> b * q + b < a <= b * q
  {
    if b > 0 || a % b == 0 then a / b else a / b - 1
  }

  /** Ruby's Integer#% : the remainder that goes with FloorDiv; it has the
      sign of the divisor. */
  function FloorMod(a: int, b: int): (r: int)
    requires b != 0
    ensures a == b * FloorDiv(a, b) + r
    ensures b > 0 ==> 0 <= r < b
    ensures b < 0 ==> b < r <= 0
  {
    a - b * FloorDiv(a, b)
  }

  /** The number of occurrences of x in s (Ruby's Array#count(x)). */
  function Count<T(==)>(s: seq<T>, x: T): nat
  {
    if |s| == 0 then 0 else (if s[0] == x then 1 else 0) + Count(s[1..], x)
  }

  /** x is counted at most |s| times, and not at all exactly when it does
      not occur. */
  lemma {:induction false} CountBounds<T>(s: seq<T>, x: T)
    ensures Count(s, x) <= |s|
    ensures Count(s, x) == 0 <==> x !in s
  {
    if s != [] {
      CountBounds(s[1..], x);
      assert s == [s[0]] + s[1..];
    }
  }

  /** Count distributes over concatenation. */
  lemma {:induction false} CountAppend<T>(s: seq<T>, t: seq<T>, x: T)
    ensures Count(s + t, x) == Count(s, x) + Count(t, x)
  {
    if s == [] {
      assert s + t == t;
    } else {
      assert (s + t)[1..] == s[1..] + t;
      CountAppend(s[1..], t, x);
    }
  }

  /** No element occurs twice. */
  predicate Distinct<T(==)>(s: seq<T>) {
    forall i, j :: 0 <= i < j < |s| ==> s[i] != s[j]
  }

  /** Dropping the last element of a sequence without repeats leaves one
      without repeats, and the element dropped is not among the rest. */
  lemma DistinctInit<T>(s: seq<T>)
    requires Distinct(s) && |s| > 0
    ensures Distinct(s[..|s| - 1]) && s[|s| - 1] !in s[..|s| - 1]
  {
    var init := s[..|s| - 1];
    forall i, j | 0 <= i < j < |init|
      ensures init[i] != init[j]
    {
      assert init[i] == s[i] && init[j] == s[j];
    }
    forall i | 0 <= i < |init|
      ensures init[i] != s[|s| - 1]
    {
      assert init[i] == s[i];
    }
  }

  /** Ruby's `Array#sample` on a non-empty array: some element, chosen
      arbitrarily (the random choice is left unspecified). */
  method Sample<T(==)>(xs: seq<T>) returns (x: T)
    requires xs != []
    ensures x in xs
  {
    assert xs[0] in xs;
    x :| x in xs;
  }

  /** Ruby's `shuffle!`: the same elements in an order chosen at random
      (Fisher-Yates, with each swap partner left unspecified). */
  method Shuffle<T>(s: seq<T>) returns (r: seq<T>)
    ensures |r| == |s| && multiset(r) == multiset(s)
  {
    r := s;
    var i := |r|;
    while i > 1
      invariant 0 <= i <= |r| == |s|
      invariant multiset(r) == multiset(s)
    {
      i := i - 1;
      var j :| 0 <= j <= i;
      r := r[i := r[j]][j := r[i]];
    }
  }
}
