/**
 * Counting the elements of a sequence that satisfy a test: the vectorised
 * `(condition).sum()` of pandas and the explicit counting loop of the
 * validation pass.
 */
module Counting {

  /** Number of elements of `s` satisfying `p`. */
  function Count<T>(s: seq<T>, p: T -> bool): (n: nat)
    ensures n <= |s|
  {
    if s == [] then 0
    else Count(s[..|s| - 1], p) + (if p(s[|s| - 1]) then 1 else 0)
  }

  /** The positions of `s` whose element satisfies `p`. */
  ghost function Positions<T>(s: seq<T>, p: T -> bool): set<int>
  {
    set i | 0 <= i < |s| && p(s[i])
  }

  /** `Count` is the number of positions whose element satisfies the test. */
  lemma {:induction false} CountIsPositions<T>(s: seq<T>, p: T -> bool)
    ensures Count(s, p) == |Positions(s, p)|
    decreases |s|
  {
    if s == [] {
      assert Positions(s, p) == {};
    } else {
      var n := |s| - 1;
      var front := s[..n];
      CountIsPositions(front, p);
      assert forall i :: 0 <= i < n ==> front[i] == s[i];
      if p(s[n]) {
        assert Positions(s, p) == Positions(front, p) + {n};
      } else {
        assert Positions(s, p) == Positions(front, p);
      }
    }
  }

  /** A count is zero exactly when no element passes the test. */
  lemma {:induction false} CountZeroIff<T>(s: seq<T>, p: T -> bool)
    ensures Count(s, p) == 0 <==> forall i :: 0 <= i < |s| ==> !p(s[i])
  {
    CountIsPositions(s, p);
    if Count(s, p) == 0 {
      forall i | 0 <= i < |s| ensures !p(s[i]) {
        assert p(s[i]) ==> i in Positions(s, p);
      }
    } else {
      var i :| i in Positions(s, p);
    }
  }

  /** Counting a prefix one element longer. */
  lemma CountPrefix<T>(s: seq<T>, i: nat, p: T -> bool)
    requires i < |s|
    ensures Count(s[..i + 1], p) == Count(s[..i], p) + (if p(s[i]) then 1 else 0)
  {
    assert s[..i + 1][..i] == s[..i];
  }

  /** Counting from the front: the first element, then the rest. */
  lemma {:induction false} CountCons<T>(x: T, s: seq<T>, p: T -> bool)
    ensures Count([x] + s, p) == (if p(x) then 1 else 0) + Count(s, p)
    decreases |s|
  {
    if s != [] {
      var front := s[..|s| - 1];
      assert ([x] + s)[..|s|] == [x] + front;
      CountCons(x, front, p);
    }
  }
}
