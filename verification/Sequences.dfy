/** Rearranging concatenations. */
module Sequences {

  lemma Concat3<T>(a: seq<T>, b: seq<T>, c: seq<T>)
    ensures a + b + c == a + (b + c)
  {
  }

  lemma Concat4<T>(a: seq<T>, b: seq<T>, c: seq<T>, d: seq<T>)
    ensures a + b + c + d == a + (b + c + d)
    ensures a + b + c + d == a + b + (c + d)
  {
  }

  lemma Concat5<T>(a: seq<T>, b: seq<T>, c: seq<T>, d: seq<T>, e: seq<T>)
    ensures a + b + c + d + e == a + b + (c + d + e)
    ensures a + b + (c + d) + e == a + (b + c + d + e)
  {
  }

  lemma CutAt<T>(s: seq<T>, i: nat)
    requires i <= |s|
    ensures s == s[..i] + s[i..]
    ensures i < |s| ==> s == s[..i] + [s[i]] + s[i + 1..]
  {
  }

  /** Slices of a slice; `n` is the length of the first part. */
  lemma Slice<T>(s: seq<T>, lo: nat, mid: nat, hi: nat, n: nat)
    requires lo <= mid <= hi <= |s| && n == mid - lo
    ensures s[lo..hi][..n] == s[lo..mid]
    ensures s[lo..hi][n..] == s[mid..hi]
    ensures mid < hi ==> s[lo..hi][n + 1..] == s[mid + 1..hi]
  {
  }

  lemma DropSlice<T>(s: seq<T>, lo: nat, mid: nat, n: nat)
    requires lo <= mid <= |s| && n == mid - lo
    ensures s[lo..][..n] == s[lo..mid]
    ensures s[lo..][n..] == s[mid..]
    ensures mid < |s| ==> s[lo..][n + 1..] == s[mid + 1..]
  {
  }

  lemma TailOfCons<T>(x: T, s: seq<T>)
    ensures ([x] + s)[0] == x && ([x] + s)[1..] == s
  {
  }

  lemma TailOfConcat<T>(a: seq<T>, b: seq<T>)
    requires a != []
    ensures (a + b)[0] == a[0] && (a + b)[1..] == a[1..] + b
  {
  }

  /** What follows the same elements is the same. */
  lemma SameRest<T>(head: seq<T>, a: seq<T>, b: seq<T>)
    requires head + a == head + b
    ensures a == b
  {
    assert (head + a)[|head|..] == a && (head + b)[|head|..] == b;
  }

}
