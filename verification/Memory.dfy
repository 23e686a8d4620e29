/** Byte buffers: overwriting part of one, and bounded substring search. */
module Memory {
  import opened Wrappers
  import opened Text

  /** The buffer content `buf` with `src` written over it from position `at`. */
  ghost function Patched(buf: string, at: nat, src: string): (r: string)
    requires at + |src| <= |buf|
    ensures |r| == |buf|
  {
    buf[..at] + src + buf[at + |src|..]
  }

  /** Two writes, the second starting where the first ended, are one write. */
  lemma PatchedTwice(buf: string, at: nat, s: string, mid: nat, t: string, st: string)
    requires mid == at + |s| && st == s + t && mid + |t| <= |buf|
    ensures Patched(Patched(buf, at, s), mid, t) == Patched(buf, at, st)
  {
  }

  lemma PatchedByElements(buf: string, at: nat, src: string, r: string)
    requires at + |src| <= |buf| == |r|
    requires forall i :: 0 <= i < |r| ==> r[i] == if at <= i < at + |src| then src[i - at] else buf[i]
    ensures r == Patched(buf, at, src)
  {
  }

  lemma PatchedByNothing(buf: string, at: nat)
    requires at <= |buf|
    ensures Patched(buf, at, "") == buf
  {
  }

  lemma PatchedByOne(buf: string, at: nat, c: char)
    requires at < |buf|
    ensures Patched(buf, at, [c]) == buf[at := c]
  {
  }

  /** `memcpy(dst + at, src, |src|)`; returns the position after the copy. */
  method MemCpy(dst: array<char>, at: nat, src: string) returns (end: nat)
    requires at + |src| <= dst.Length
    modifies dst
    ensures end == at + |src|
    ensures dst[..] == Patched(old(dst[..]), at, src)
  {
    forall i | 0 <= i < |src| {
      dst[at + i] := src[i];
    }
    end := at + |src|;
  }

  method PutChar(dst: array<char>, at: nat, c: char) returns (end: nat)
    requires at < dst.Length
    modifies dst
    ensures end == at + 1
    ensures dst[..] == Patched(old(dst[..]), at, [c])
  {
    PatchedByOne(dst[..], at, c);
    dst[at] := c;
    end := at + 1;
  }

  predicate MatchAt(haystack: string, needle: string, i: nat) {
    i + |needle| <= |haystack| && haystack[i..i + |needle|] == needle
  }

  /** The first place at or after `from` where `needle` occurs. */
  function FirstMatch(haystack: string, needle: string, from: nat): (r: Option<nat>)
    ensures r.Some? ==> from <= r.value && r.value + |needle| <= |haystack|
    decreases |haystack| - from
  {
    if from + |needle| > |haystack| then None
    else if MatchAt(haystack, needle, from) then Some(from)
    else if from == |haystack| then None
    else FirstMatch(haystack, needle, from + 1)
  }

  lemma {:induction false} FirstMatchMeans(haystack: string, needle: string, from: nat)
    ensures var r := FirstMatch(haystack, needle, from);
            && (r.Some? ==> MatchAt(haystack, needle, r.value))
            && (forall j :: from <= j && (r.None? || j < r.value) ==> !MatchAt(haystack, needle, j))
    decreases |haystack| - from
  {
    if from < |haystack| {
      FirstMatchMeans(haystack, needle, from + 1);
    }
  }

  lemma {:induction false} FirstMatchSkip(haystack: string, needle: string, from: nat, upTo: nat)
    requires from <= upTo
    requires forall j :: from <= j < upTo ==> !MatchAt(haystack, needle, j)
    ensures FirstMatch(haystack, needle, from) == FirstMatch(haystack, needle, upTo)
    decreases upTo - from
  {
    if from < upTo {
      FirstMatchSkip(haystack, needle, from + 1, upTo);
      if from + |needle| <= |haystack| {
        assert !MatchAt(haystack, needle, from);
      }
    }
  }

  /**
   * Bounded substring search: jump to the next occurrence of the needle's first byte, give up when the needle
   * no longer fits, else compare the remaining bytes.
   */
  method MemNMem(haystack: string, needle: string) returns (r: Option<nat>)
    ensures needle == "" ==> r.None?
    ensures needle != "" ==> r == FirstMatch(haystack, needle, 0)
  {
    if |haystack| == 0 || |needle| == 0 {
      return None;
    }
    var searchStart := 0;
    while true
      invariant searchStart <= |haystack|
      invariant forall j :: 0 <= j < searchStart ==> !MatchAt(haystack, needle, j)
      decreases |haystack| - searchStart
    {
      var candidate := MemChr(haystack, searchStart, |haystack| - searchStart, needle[0]);
      if candidate.None? {
        forall j | searchStart <= j ensures !MatchAt(haystack, needle, j) {
          NoMatchWithoutFirst(haystack, needle, searchStart, |haystack|, j);
        }
        FirstMatchMeans(haystack, needle, 0);
        return None;
      }
      var c := candidate.value;
      forall j | searchStart <= j < c ensures !MatchAt(haystack, needle, j) {
        NoMatchWithoutFirst(haystack, needle, searchStart, c, j);
      }
      if c + |needle| > |haystack| {
        FirstMatchSkip(haystack, needle, 0, c);
        return None;
      }
      if haystack[c + 1..c + |needle|] == needle[1..] {
        assert haystack[c..c + |needle|] == [haystack[c]] + haystack[c + 1..c + |needle|];
        assert MatchAt(haystack, needle, c);
        FirstMatchSkip(haystack, needle, 0, c);
        return Some(c);
      }
      assert !MatchAt(haystack, needle, c) by {
        assert haystack[c + 1..c + |needle|] == haystack[c..c + |needle|][1..];
      }
      searchStart := c + 1;
    }
  }

  lemma NoMatchWithoutFirst(haystack: string, needle: string, lo: nat, hi: nat, j: nat)
    requires needle != "" && lo <= j && hi <= |haystack| && lo <= hi
    requires forall i :: lo <= i < hi ==> haystack[i] != needle[0]
    requires j < hi || hi == |haystack|
    ensures !MatchAt(haystack, needle, j)
  {
    if j < hi {
      assert j + |needle| <= |haystack| ==> haystack[j..j + |needle|][0] == haystack[j];
    }
  }

}
