/** A pool of integers in a fixed range, each of which is handed out to at most one user at a time. */
module RangePool {
  import opened Wrappers

  /**
   * The values `start..end` and those of them in use. `fatal` is set when a value comes back that was not handed
   * out, which the program treats as a fatal error.
   */
  datatype Pool = Pool(start: nat, end: nat, used: set<nat>, fatal: bool)

  predicate InRange(p: Pool, v: nat) {
    p.start <= v <= p.end
  }

  /** The smallest unused value from `v` on. */
  function FirstFree(p: Pool, v: nat): Option<nat>
    decreases p.end + 1 - v
  {
    if v > p.end then None else if v !in p.used then Some(v) else FirstFree(p, v + 1)
  }

  function Taken(p: Pool): (Pool, Option<nat>) {
    var v := FirstFree(p, p.start);
    if v.Some? then (p.(used := p.used + {v.value}), v) else (p, None)
  }

  function Got(p: Pool, v: nat): (Pool, Option<nat>) {
    if InRange(p, v) && v !in p.used then (p.(used := p.used + {v}), Some(v)) else (p, None)
  }

  function Returned(p: Pool, v: nat): Pool {
    if InRange(p, v) && v in p.used then p.(used := p.used - {v}) else p.(fatal := true)
  }

  lemma {:induction false} FirstFreeMeans(p: Pool, v: nat)
    ensures var r := FirstFree(p, v);
            && (r.Some? ==> v <= r.value <= p.end && r.value !in p.used && forall u :: v <= u < r.value ==> u in p.used)
            && (r.None? ==> forall u :: v <= u <= p.end ==> u in p.used)
    decreases p.end + 1 - v
  {
    if v <= p.end && v in p.used {
      FirstFreeMeans(p, v + 1);
    }
  }

  /** A value in use can be returned, and taken again; returning any other is fatal and frees nothing. */
  lemma ReturnedMeans(p: Pool, v: nat)
    ensures var q := Returned(p, v);
            if p.start <= v <= p.end && v in p.used then
              v !in q.used && q.fatal == p.fatal && Got(q, v) == (p, Some(v))
            else q.fatal && q.used == p.used
  {
    if p.start <= v <= p.end && v in p.used {
      assert p.used - {v} + {v} == p.used;
    }
  }

  /** Every value of the range is in use. */
  ghost predicate Depleted(p: Pool) {
    forall v :: p.start <= v <= p.end ==> v in p.used
  }

  predicate Within(lo: nat, v: nat, hi: nat) {
    lo <= v < hi
  }

  function Range(lo: nat, hi: nat): set<nat> {
    set v: nat | lo <= v < hi && Within(lo, v, hi)
  }

  lemma {:induction false} RangeSize(lo: nat, hi: nat)
    requires lo <= hi
    ensures |Range(lo, hi)| == hi - lo
    decreases hi - lo
  {
    if lo < hi {
      RangeSize(lo, hi - 1);
      assert Range(lo, hi) == Range(lo, hi - 1) + {hi - 1};
    } else {
      assert Range(lo, hi) == {};
    }
  }

  /** `take` fails exactly when every value of the range is in use. */
  lemma TakeFailsWhenDepleted(p: Pool)
    requires p.start <= p.end + 1 && p.used <= Range(p.start, p.end + 1)
    ensures Taken(p).1.None? <==> |p.used| == p.end + 1 - p.start
  {
    var range := Range(p.start, p.end + 1);
    FirstFreeMeans(p, p.start);
    RangeSize(p.start, p.end + 1);
    if Taken(p).1.None? {
      assert p.used == range;
    } else {
      var v := FirstFree(p, p.start).value;
      SubsetSize(p.used, range, v);
    }
  }

  lemma SubsetSize<T>(small: set<T>, large: set<T>, x: T)
    requires small <= large && x in large && x !in small
    ensures |small| < |large|
  {
    SubsetSizes(small, large - {x});
  }

  lemma {:induction false} SubsetSizes<T>(small: set<T>, large: set<T>)
    requires small <= large
    ensures |small| <= |large|
    decreases small
  {
    if small != {} {
      var x :| x in small;
      SubsetSizes(small - {x}, large - {x});
    }
  }

  /** The values marked in a bit vector whose first bit stands for `start`. */
  function Marked(start: nat, flags: seq<bool>): set<nat> {
    set v: nat | start <= v < start + |flags| && IsMarked(start, flags, v)
  }

  predicate IsMarked(start: nat, flags: seq<bool>, v: nat) {
    start <= v < start + |flags| && flags[v - start]
  }

  lemma MarkedAt(start: nat, flags: seq<bool>, i: nat)
    requires i < |flags|
    ensures start + i in Marked(start, flags) <==> flags[i]
    ensures flags[i] ==> Marked(start, flags[i := false]) == Marked(start, flags) - {start + i}
    ensures !flags[i] ==> Marked(start, flags[i := true]) == Marked(start, flags) + {start + i}
  {
    assert start + i - start == i;
  }

  class RangePool {
    const start: nat
    const used: array<bool>

    ghost predicate Valid() {
      used.Length > 0
    }

    ghost function View(): Pool
      requires Valid()
      reads used
    {
      Pool(start, start + used.Length - 1, Marked(start, used[..]), false)
    }

    /** The program only builds pools with `start < end`. */
    constructor (start: nat, end: nat)
      requires start < end
      ensures Valid() && fresh(used)
      ensures View() == Pool(start, end, {}, false)
    {
      this.start := start;
      used := new bool[end + 1 - start](_ => false);
    }

    method Take() returns (value: Option<nat>)
      requires Valid()
      modifies used
      ensures (View(), value) == Taken(old(View()))
    {
      var i := 0;
      while i < used.Length
        invariant 0 <= i <= used.Length
        invariant used[..] == old(used[..])
        invariant FirstFree(View(), start) == FirstFree(View(), start + i)
      {
        MarkedAt(start, used[..], i);
        if !used[i] {
          used[i] := true;
          assert used[..] == old(used[..])[i := true];
          return Some(start + i);
        }
        i := i + 1;
      }
      return None;
    }

    method Get(value: nat) returns (got: Option<nat>)
      requires Valid()
      modifies used
      ensures (View(), got) == Got(old(View()), value)
    {
      if value < start {
        return None;
      }
      var idx := value - start;
      if idx >= used.Length {
        return None;
      }
      MarkedAt(start, used[..], idx);
      if used[idx] {
        return None;
      }
      used[idx] := true;
      assert used[..] == old(used[..])[idx := true];
      return Some(value);
    }

    /** Returning a value that is not in use is a fatal error, reported here as `false`. */
    method Put(value: nat) returns (ok: bool)
      requires Valid()
      modifies used
      ensures ok == !Returned(old(View()), value).fatal
      ensures View() == Returned(old(View()), value).(fatal := false)
    {
      if value < start {
        return false;
      }
      var idx := value - start;
      if idx >= used.Length {
        return false;
      }
      MarkedAt(start, used[..], idx);
      if !used[idx] {
        return false;
      }
      used[idx] := false;
      assert used[..] == old(used[..])[idx := false];
      return true;
    }
  }

}
