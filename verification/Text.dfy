/** Byte strings: searching for one byte, and splitting on a separator. */
module Text {
  import opened Wrappers
  import opened Sequences

  /** The position of the first `c` in `s`, or `|s|` when there is none. */
  function IndexOf(s: string, c: char): (i: nat)
    ensures i <= |s|
    ensures i < |s| ==> s[i] == c
    ensures forall k :: 0 <= k < i ==> s[k] != c
  {
    if s == [] then 0 else if s[0] == c then 0 else 1 + IndexOf(s[1..], c)
  }

  /** `memchr(data + start, c, size)`, as an index into `data`; the range read must lie inside `data`. */
  method MemChr(data: string, start: nat, size: nat, c: char) returns (r: Option<nat>)
    requires start + size <= |data|
    ensures r.Some? ==> start <= r.value < start + size && data[r.value] == c
    ensures r.Some? ==> forall i :: start <= i < r.value ==> data[i] != c
    ensures r.None? ==> forall i :: start <= i < start + size ==> data[i] != c
  {
    for i := start to start + size
      invariant forall k :: start <= k < i ==> data[k] != c
    {
      if data[i] == c {
        return Some(i);
      }
    }
    return None;
  }

  /** The pieces of `s` between separators; always at least one piece. */
  function Split(s: string, c: char): (parts: seq<string>)
    ensures |parts| > 0
    decreases |s|
  {
    var i := IndexOf(s, c);
    if i == |s| then
      assert s[..i] == s;
      [s]
    else
      [s[..i]] + Split(s[i + 1..], c)
  }

  lemma {:induction false} SplitPieces(s: string, c: char)
    ensures forall k :: 0 <= k < |Split(s, c)| ==> c !in Split(s, c)[k]
    decreases |s|
  {
    var i := IndexOf(s, c);
    if i < |s| {
      SplitPieces(s[i + 1..], c);
    }
  }

  /** The first separator is the one the caller can point at. */
  lemma IndexOfAt(s: string, c: char, i: nat)
    requires i < |s| && s[i] == c
    requires forall k :: 0 <= k < i ==> s[k] != c
    ensures IndexOf(s, c) == i
  {
    var k := IndexOf(s, c);
    assert k <= i;
  }

  lemma IndexOfNone(s: string, c: char)
    requires c !in s
    ensures IndexOf(s, c) == |s|
  {
  }

  lemma SplitFree(s: string, c: char)
    requires c !in s
    ensures Split(s, c) == [s]
  {
    IndexOfNone(s, c);
  }

  lemma SplitHead(head: string, c: char, rest: string)
    requires c !in head
    ensures Split(head + [c] + rest, c) == [head] + Split(rest, c)
  {
    var s := head + [c] + rest;
    IndexOfAt(s, c, |head|);
    assert s[..|head|] == head;
    assert s[|head| + 1..] == rest;
  }

  /** The first piece, and the pieces of what follows it. */
  lemma SplitStep(s: string, c: char)
    ensures var i := IndexOf(s, c);
            && c !in s[..i]
            && Split(s, c) == [s[..i]] + (if i < |s| then Split(s[i + 1..], c) else [])
            && (i < |s| ==> s == s[..i] + [c] + s[i + 1..])
  {
    var i := IndexOf(s, c);
    if i < |s| {
      CutAt(s, i);
    } else {
      assert s[..i] == s;
    }
  }

  /** A separator between two strings separates their pieces. */
  lemma {:induction false} SplitConcat(a: string, c: char, b: string)
    ensures Split(a + [c] + b, c) == Split(a, c) + Split(b, c)
    decreases |a|
  {
    SplitStep(a, c);
    var i := IndexOf(a, c);
    var h := a[..i];
    if i == |a| {
      assert h == a;
      SplitHead(a, c, b);
    } else {
      var rest := a[i + 1..];
      SplitConcat(rest, c, b);
      Concat5(h, [c], rest, [c], b);
      SplitHead(h, c, rest + [c] + b);
      Concat3([h], Split(rest, c), Split(b, c));
    }
  }

  /** All pieces but the last, and the last. */
  lemma LastPiece(parts: seq<string>)
    requires |parts| > 0
    ensures parts == parts[..|parts| - 1] + [parts[|parts| - 1]]
  {
  }

  /** Text without a separator, put at the end, extends the last piece. */
  lemma {:induction false} SplitExtend(a: string, c: char, t: string)
    requires c !in t
    ensures var parts := Split(a, c);
            Split(a + t, c) == parts[..|parts| - 1] + [parts[|parts| - 1] + t]
    decreases |a|
  {
    SplitStep(a, c);
    var i := IndexOf(a, c);
    var h := a[..i];
    if i == |a| {
      assert h == a;
      SplitFree(a + t, c);
      assert Split(a, c)[..0] == [];
    } else {
      var rest := a[i + 1..];
      SplitExtend(rest, c, t);
      Concat4(h, [c], rest, t);
      SplitHead(h, c, rest + t);
      ExtendTail(h, Split(rest, c), t);
    }
  }

  lemma ExtendTail(h: string, parts: seq<string>, t: string)
    requires |parts| > 0
    ensures var all := [h] + parts;
            [h] + (parts[..|parts| - 1] + [parts[|parts| - 1] + t]) == all[..|all| - 1] + [all[|all| - 1] + t]
  {
    var all := [h] + parts;
    assert all[..|all| - 1] == [h] + parts[..|parts| - 1];
    Concat3([h], parts[..|parts| - 1], [parts[|parts| - 1] + t]);
  }

  // ---- Folding over the pieces of a text

  function Fold<R>(step: (R, string) -> R, r: R, parts: seq<string>): R
    decreases |parts|
  {
    if parts == [] then r else Fold(step, step(r, parts[0]), parts[1..])
  }

  lemma FoldNext<R>(step: (R, string) -> R, r: R, part: string, rest: seq<string>)
    ensures Fold(step, r, [part] + rest) == Fold(step, step(r, part), rest)
  {
    TailOfCons(part, rest);
  }

  /** One step of the same fold over the pieces of `data[from..]`, the first of which ends at `end`. */
  lemma FoldSplitStep<R>(step: (R, string) -> R, r: R, data: string, from: nat, end: nat, c: char)
    requires from <= end <= |data|
    requires forall k :: from <= k < end ==> data[k] != c
    requires end < |data| ==> data[end] == c
    ensures end == |data| ==> Fold(step, r, Split(data[from..], c)) == step(r, data[from..end])
    ensures end < |data| ==>
              Fold(step, r, Split(data[from..], c)) ==
              Fold(step, step(r, data[from..end]), Split(data[end + 1..], c))
  {
    var n := end - from;
    var rest := data[from..];
    PieceEnd(rest, c, n);
    SplitStep(rest, c);
    DropSlice(data, from, end, n);
    if end == |data| {
      FoldNext(step, r, data[from..end], []);
    } else {
      FoldNext(step, r, data[from..end], Split(data[end + 1..], c));
    }
  }

  lemma PieceEnd(s: string, c: char, i: nat)
    requires i <= |s|
    requires forall k :: 0 <= k < i ==> s[k] != c
    requires i < |s| ==> s[i] == c
    ensures IndexOf(s, c) == i
  {
    if i < |s| {
      IndexOfAt(s, c, i);
    } else {
      IndexOfNone(s, c);
    }
  }

}
