/** Sequence vocabulary shared by the cleaning, counting and table modules. */
module Seqs {

  /** The optional result of a parse or a lookup. */
  datatype Option<+T> = None | Some(value: T)

  /** No element occurs twice (column names of a table, a column selection). */
  predicate Distinct<T(==)>(s: seq<T>)
  {
    forall i, j :: 0 <= i < j < |s| ==> s[i] != s[j]
  }

  /** `a` can be obtained from `b` by deleting elements, keeping the order of the rest. */
  predicate IsSubsequence<T(==)>(a: seq<T>, b: seq<T>)
    decreases |b|
  {
    |a| <= |b| &&
    (a == [] ||
     (b != [] &&
      ((a[0] == b[0] && IsSubsequence(a[1..], b[1..])) || IsSubsequence(a, b[1..]))))
  }

  /** Every contiguous slice of `s` is a subsequence of `s`. */
  lemma {:induction false} SliceIsSubsequence<T>(s: seq<T>, i: nat, j: nat)
    requires i <= j <= |s|
    ensures IsSubsequence(s[i..j], s)
    decreases |s|
  {
    if i > 0 {
      assert s[1..][i - 1..j - 1] == s[i..j];
      SliceIsSubsequence(s[1..], i - 1, j - 1);
    } else if j > 0 {
      assert s[1..][0..j - 1] == s[i..j][1..];
      SliceIsSubsequence(s[1..], 0, j - 1);
    }
  }

  lemma {:induction false} SubsequenceTransitive<T>(a: seq<T>, b: seq<T>, c: seq<T>)
    requires IsSubsequence(a, b) && IsSubsequence(b, c)
    ensures IsSubsequence(a, c)
    decreases |c|
  {
    if a != [] {
      if IsSubsequence(b, c[1..]) {
        SubsequenceTransitive(a, b, c[1..]);
      } else if a[0] == b[0] && IsSubsequence(a[1..], b[1..]) {
        SubsequenceTransitive(a[1..], b[1..], c[1..]);
      } else {
        SubsequenceTransitive(a, b[1..], c[1..]);
      }
    }
  }

  /** Extending the larger sequence at the front keeps a subsequence a subsequence. */
  lemma {:induction false} SubsequenceOfLonger<T>(a: seq<T>, b: seq<T>, d: seq<T>)
    requires IsSubsequence(a, d)
    ensures IsSubsequence(a, b + d)
    decreases |b|
  {
    if b == [] {
      assert b + d == d;
    } else {
      SubsequenceOfLonger(a, b[1..], d);
      assert (b + d)[1..] == b[1..] + d;
    }
  }

  /** Subsequences concatenate. */
  lemma {:induction false} SubsequenceConcat<T>(a: seq<T>, b: seq<T>, c: seq<T>, d: seq<T>)
    requires IsSubsequence(a, b) && IsSubsequence(c, d)
    ensures IsSubsequence(a + c, b + d)
    decreases |b|
  {
    if a == [] {
      assert a + c == c;
      SubsequenceOfLonger(c, b, d);
    } else {
      assert (a + c)[0] == a[0] && (a + c)[1..] == a[1..] + c;
      assert (b + d)[0] == b[0] && (b + d)[1..] == b[1..] + d;
      if a[0] == b[0] && IsSubsequence(a[1..], b[1..]) {
        SubsequenceConcat(a[1..], b[1..], c, d);
      } else {
        SubsequenceConcat(a, b[1..], c, d);
      }
    }
  }
}
