/** Assigning each container its own port out of a fixed range. */
module PortRange {
  import opened Wrappers
  import opened RangePool

  /** A reader listening on `port`; `live` says that it can still name its endpoint. */
  datatype Reader = Reader(port: nat, live: bool)

  datatype Strategy = Strategy(pool: Pool, readers: map<string, Reader>)

  datatype Event =
    | Register(id: string, opens: nat -> bool)
    | Insert(id: string, port: nat, opens: nat -> bool)
    | Unregister(id: string)
    | Lose(id: string)                              // the reader loses its endpoint

  /** `opens` tells for which ports a socket can be opened at the time of the call. */
  function Registered(s: Strategy, id: string, opens: nat -> bool): (Strategy, Option<nat>) {
    if id in s.readers then
      (s, if s.readers[id].live then Some(s.readers[id].port) else None)
    else
      var (pool, port) := Taken(s.pool);
      if port.None? then (s, None)
      else if !opens(port.value) then (s.(pool := Returned(pool, port.value)), None)
      else (Strategy(pool, s.readers[id := Reader(port.value, true)]), port)
  }

  function Inserted(s: Strategy, id: string, port: nat, opens: nat -> bool): Strategy {
    var (pool, got) := Got(s.pool, port);
    if got.None? then s
    else if !opens(port) then s.(pool := Returned(pool, port))
    else Strategy(pool, s.readers[id := Reader(port, true)])
  }

  function Unregistered(s: Strategy, id: string): Strategy {
    if id !in s.readers then s
    else Strategy(if s.readers[id].live then Returned(s.pool, s.readers[id].port) else s.pool, s.readers - {id})
  }

  function Do(s: Strategy, e: Event): Strategy {
    match e
    case Register(id, opens) => Registered(s, id, opens).0
    case Insert(id, port, opens) => Inserted(s, id, port, opens)
    case Unregister(id) => Unregistered(s, id)
    case Lose(id) => if id in s.readers then s.(readers := s.readers[id := s.readers[id].(live := false)]) else s
  }

  function Run(s: Strategy, events: seq<Event>): Strategy
    decreases |events|
  {
    if events == [] then s else Run(Do(s, events[0]), events[1..])
  }

  function Start(start: nat, end: nat): Strategy {
    Strategy(Pool(start, end, {}, false), map[])
  }

  /** The ports some container holds. */
  function Held(readers: map<string, Reader>): set<nat> {
    set id | id in readers :: readers[id].port
  }

  /** The ports marked as used that no container holds. */
  function Leaked(s: Strategy): set<nat> {
    s.pool.used - Held(s.readers)
  }

  /** Every container has its own port, every held port is marked, and no `put` has been refused. */
  ghost predicate Ok(s: Strategy) {
    && s.pool.start < s.pool.end && !s.pool.fatal
    && s.pool.used <= Range(s.pool.start, s.pool.end + 1)
    && (forall id :: id in s.readers ==> s.readers[id].port in s.pool.used)
    && OwnPorts(s.readers)
  }

  /** No two containers hold the same port. */
  ghost predicate OwnPorts(readers: map<string, Reader>) {
    forall a, b :: a in readers && b in readers && readers[a].port == readers[b].port ==> a == b
  }

  lemma TakenMeans(p: Pool)
    ensures var (q, port) := Taken(p);
            && (port.None? ==> q == p && Depleted(p))
            && (port.Some? ==>
                  && InRange(p, port.value) && port.value !in p.used
                  && q == p.(used := p.used + {port.value}) && Returned(q, port.value) == p)
  {
    FirstFreeMeans(p, p.start);
    var v := FirstFree(p, p.start);
    if v.Some? {
      assert p.used + {v.value} - {v.value} == p.used;
    }
  }

  lemma GotMeans(p: Pool, v: nat)
    ensures var (q, port) := Got(p, v);
            && (port.None? ==> q == p)
            && (port.Some? ==> InRange(p, v) && v !in p.used && q == p.(used := p.used + {v}) && Returned(q, v) == p)
  {
    if v !in p.used {
      assert p.used + {v} - {v} == p.used;
    }
  }

  /** Giving a port that was free to a container; what it held before stays marked. */
  lemma Assigned(s: Strategy, id: string, port: nat)
    requires Ok(s) && InRange(s.pool, port) && port !in s.pool.used
    ensures var t := Strategy(s.pool.(used := s.pool.used + {port}), s.readers[id := Reader(port, true)]);
            && Ok(t)
            && Leaked(t) == Leaked(s) + (if id in s.readers then {s.readers[id].port} else {})
  {
    var t := Strategy(s.pool.(used := s.pool.used + {port}), s.readers[id := Reader(port, true)]);
    assert Within(s.pool.start, port, s.pool.end + 1);
    HeldByOthers(s, id);
    assert Held(t.readers) == HeldBy(s, s.readers.Keys - {id}) + {port} by {
      assert t.readers[id].port == port;
      forall v | v in HeldBy(s, s.readers.Keys - {id})
        ensures v in Held(t.readers)
      {
        var a :| a in s.readers && a != id && s.readers[a].port == v;
        assert a in t.readers && t.readers[a].port == v;
      }
    }
  }

  function HeldBy(s: Strategy, ids: set<string>): set<nat> {
    set id | id in ids && id in s.readers :: s.readers[id].port
  }

  lemma HeldByOthers(s: Strategy, id: string)
    requires Ok(s)
    ensures HeldBy(s, s.readers.Keys - {id}) == Held(s.readers) - (if id in s.readers then {s.readers[id].port} else {})
    ensures Held(s.readers - {id}) == HeldBy(s, s.readers.Keys - {id})
  {
    var others, rest := HeldBy(s, s.readers.Keys - {id}), s.readers - {id};
    forall v | v in Held(s.readers) && (id in s.readers ==> v != s.readers[id].port)
      ensures v in others
    {
      var a :| a in s.readers && s.readers[a].port == v;
    }
    forall v | v in others
      ensures v in Held(rest)
    {
      var a :| a in s.readers && a != id && s.readers[a].port == v;
      assert a in rest && rest[a].port == v;
    }
    forall v | v in Held(rest)
      ensures v in others
    {
      var a :| a in rest && rest[a].port == v;
      assert a in s.readers && a != id && s.readers[a].port == v;
    }
  }

  /** The events after which a port stays marked although nobody holds it any more. */
  predicate Leaks(s: Strategy, e: Event) {
    match e
    case Insert(id, port, opens) => id in s.readers && InRange(s.pool, port) && port !in s.pool.used && opens(port)
    case Unregister(id) => id in s.readers && !s.readers[id].live
    case _ => false
  }

  predicate SameRange(s: Strategy, t: Strategy) {
    t.pool.start == s.pool.start && t.pool.end == s.pool.end
  }

  lemma RegisterKeepsOk(s: Strategy, id: string, opens: nat -> bool)
    requires Ok(s)
    ensures var t := Registered(s, id, opens).0; Ok(t) && Leaked(t) == Leaked(s) && SameRange(s, t)
  {
    TakenMeans(s.pool);
    var port := Taken(s.pool).1;
    if id !in s.readers && port.Some? && opens(port.value) {
      Assigned(s, id, port.value);
    }
  }

  /** The smallest free port of the range. */
  ghost predicate SmallestFree(p: Pool, port: nat) {
    p.start <= port <= p.end && port !in p.used && forall v :: p.start <= v < port ==> v in p.used
  }

  /**
   * What registering returns: the port of a reader that is there, if it can name it, and no change; otherwise the smallest
   * free port, if it opens, and a reader on it; otherwise nothing, and no change.
   */
  lemma RegisteredEndpoint(s: Strategy, id: string, opens: nat -> bool)
    requires Ok(s)
    ensures var (t, endpoint) := Registered(s, id, opens);
            && (id in s.readers ==> t == s && endpoint == if s.readers[id].live then Some(s.readers[id].port) else None)
            && (id !in s.readers && endpoint.Some? ==>
                  && SmallestFree(s.pool, endpoint.value) && opens(endpoint.value)
                  && t == Strategy(s.pool.(used := s.pool.used + {endpoint.value}),
                                   s.readers[id := Reader(endpoint.value, true)]))
            && (id !in s.readers && endpoint.None? ==>
                  && t == s
                  && forall port :: SmallestFree(s.pool, port) ==> !opens(port))
  {
    TakenMeans(s.pool);
    FirstFreeMeans(s.pool, s.pool.start);
  }

  lemma InsertKeepsOk(s: Strategy, id: string, port: nat, opens: nat -> bool)
    requires Ok(s)
    ensures var t := Inserted(s, id, port, opens);
            && Ok(t) && SameRange(s, t)
            && Leaked(t) == Leaked(s) + (if Leaks(s, Insert(id, port, opens)) then {s.readers[id].port} else {})
  {
    GotMeans(s.pool, port);
    if Got(s.pool, port).1.Some? && opens(port) {
      Assigned(s, id, port);
    }
  }

  lemma UnregisterKeepsOk(s: Strategy, id: string)
    requires Ok(s)
    ensures var t := Unregistered(s, id);
            && Ok(t) && SameRange(s, t)
            && Leaked(t) == Leaked(s) + (if Leaks(s, Unregister(id)) then {s.readers[id].port} else {})
  {
    HeldByOthers(s, id);
  }

  lemma StepKeepsOk(s: Strategy, e: Event)
    requires Ok(s)
    ensures Ok(Do(s, e)) && SameRange(s, Do(s, e))
    ensures Leaked(Do(s, e)) == Leaked(s) + (if Leaks(s, e) then {s.readers[e.id].port} else {})
  {
    match e {
      case Register(id, opens) => RegisterKeepsOk(s, id, opens);
      case Insert(id, port, opens) => InsertKeepsOk(s, id, port, opens);
      case Unregister(id) => UnregisterKeepsOk(s, id);
      case Lose(id) =>
        var t := Do(s, e);
        assert Held(t.readers) == Held(s.readers) by {
          assert t.readers.Keys == s.readers.Keys;
          assert forall a :: a in s.readers ==> t.readers[a].port == s.readers[a].port;
        }
    }
  }

  /** Over any run, containers hold different ports, all of them marked, and every `put` returns a marked port. */
  lemma {:induction false} RunKeepsOk(s: Strategy, events: seq<Event>)
    requires Ok(s)
    ensures Ok(Run(s, events)) && SameRange(s, Run(s, events))
    decreases |events|
  {
    if events != [] {
      StepKeepsOk(s, events[0]);
      RunKeepsOk(Do(s, events[0]), events[1..]);
    }
  }

  function LeakCount(s: Strategy, events: seq<Event>): nat
    decreases |events|
  {
    if events == [] then 0 else (if Leaks(s, events[0]) then 1 else 0) + LeakCount(Do(s, events[0]), events[1..])
  }

  /** Exactly the leaking events of a run leave a port marked that nobody holds, one port each. */
  lemma {:induction false} RunLeaks(s: Strategy, events: seq<Event>)
    requires Ok(s)
    ensures |Leaked(Run(s, events))| == |Leaked(s)| + LeakCount(s, events)
    ensures Leaked(s) <= Leaked(Run(s, events))
    decreases |events|
  {
    if events != [] {
      var e := events[0];
      StepKeepsOk(s, e);
      RunLeaks(Do(s, e), events[1..]);
      if Leaks(s, e) {
        assert s.readers[e.id].port in Held(s.readers);
        assert s.readers[e.id].port !in Leaked(s);
      }
    }
  }

  lemma HeldWithout(readers: map<string, Reader>, id: string)
    requires id in readers && OwnPorts(readers)
    ensures var rest := readers - {id};
            && OwnPorts(rest) && |readers| == |rest| + 1
            && readers[id].port !in Held(rest) && Held(readers) == Held(rest) + {readers[id].port}
  {
    var rest := readers - {id};
    assert readers.Keys == rest.Keys + {id};
    assert |readers| == |readers.Keys| && |rest| == |rest.Keys|;
    assert forall a :: a in rest ==> rest[a] == readers[a];
    forall v | v in Held(readers) && v != readers[id].port
      ensures v in Held(rest)
    {
      var a :| a in readers && readers[a].port == v;
      assert a in rest && rest[a].port == v;
    }
  }

  lemma {:induction false} HeldSize(readers: map<string, Reader>)
    requires OwnPorts(readers)
    ensures |Held(readers)| == |readers|
    decreases |readers|
  {
    if readers.Keys != {} {
      var id :| id in readers;
      HeldWithout(readers, id);
      HeldSize(readers - {id});
    } else {
      assert |readers| == |readers.Keys|;
      assert Held(readers) == {};
    }
  }

  lemma SplitSize<T>(whole: set<T>, part: set<T>)
    requires part <= whole
    ensures |whole| == |part| + |whole - part|
  {
    assert whole == part + (whole - part);
  }

  lemma UsedSize(s: Strategy)
    requires Ok(s)
    ensures |s.pool.used| == |s.readers| + |Leaked(s)| <= s.pool.end + 1 - s.pool.start
  {
    var held := Held(s.readers);
    HeldSize(s.readers);
    assert held <= s.pool.used;
    SplitSize(s.pool.used, held);
    RangeSize(s.pool.start, s.pool.end + 1);
    SubsetSizes(s.pool.used, Range(s.pool.start, s.pool.end + 1));
  }

  lemma TakenWhenDepleted(s: Strategy)
    requires Ok(s)
    ensures |s.readers| + |Leaked(s)| <= s.pool.end + 1 - s.pool.start
    ensures Taken(s.pool).1.None? <==> |s.readers| + |Leaked(s)| == s.pool.end + 1 - s.pool.start
  {
    UsedSize(s);
    TakeFailsWhenDepleted(s.pool);
  }

  /**
   * From the start, a new container is refused a port exactly when the ports held by containers and those lost to
   * leaking events make up the whole range, or a socket cannot be opened on the smallest free port.
   */
  lemma RefusedOnlyWhenDepleted(start: nat, end: nat, events: seq<Event>, id: string, opens: nat -> bool)
    requires start < end && id !in Run(Start(start, end), events).readers
    ensures var s, leaks := Run(Start(start, end), events), LeakCount(Start(start, end), events);
            && |s.readers| + leaks <= end + 1 - start
            && (Taken(s.pool).1.None? <==> |s.readers| + leaks == end + 1 - start)
            && (Registered(s, id, opens).1.None? <==> Taken(s.pool).1.None? || !opens(Taken(s.pool).1.value))
  {
    var s0 := Start(start, end);
    RunKeepsOk(s0, events);
    RunLeaks(s0, events);
    assert Leaked(s0) == {};
    TakenWhenDepleted(Run(s0, events));
  }

  /** An event that is not about a container leaves its reader alone. */
  lemma {:induction false} OthersKeepTheirPort(s: Strategy, events: seq<Event>, id: string)
    requires id in s.readers && forall k :: 0 <= k < |events| ==> events[k].id != id
    ensures id in Run(s, events).readers && Run(s, events).readers[id] == s.readers[id]
    decreases |events|
  {
    if events != [] {
      assert events[0].id != id;
      OthersKeepTheirPort(Do(s, events[0]), events[1..], id);
    }
  }

  /** Unregistering a container that has just been given a port leaves no trace of it. */
  lemma UnregisterUndoesRegister(s: Strategy, id: string, opens: nat -> bool)
    requires Ok(s) && id !in s.readers && Registered(s, id, opens).1.Some?
    ensures Unregistered(Registered(s, id, opens).0, id) == s
  {
    var t := Registered(s, id, opens).0;
    TakenMeans(s.pool);
    assert t.readers - {id} == s.readers;
  }

  lemma UnregisterFrees(s: Strategy, id: string)
    requires Ok(s) && id in s.readers && s.readers[id].live
    ensures var t := Unregistered(s, id); Ok(t) && id !in t.readers && s.readers[id].port !in t.pool.used
  {
    UnregisterKeepsOk(s, id);
  }

  /** Whatever happens to others while a container holds its port, unregistering it frees that port. */
  lemma UnregisterFreesItsPort(s: Strategy, id: string, opens: nat -> bool, events: seq<Event>)
    requires Ok(s) && id !in s.readers && Registered(s, id, opens).1.Some?
    requires forall k :: 0 <= k < |events| ==> events[k].id != id
    ensures var (registered, port) := Registered(s, id, opens);
            var t := Unregistered(Run(registered, events), id);
            port.value !in s.pool.used && port.value !in t.pool.used && id !in t.readers && Ok(t)
  {
    var (registered, port) := Registered(s, id, opens);
    TakenMeans(s.pool);
    RegisterKeepsOk(s, id, opens);
    OthersKeepTheirPort(registered, events, id);
    RunKeepsOk(registered, events);
    UnregisterFrees(Run(registered, events), id);
  }

  class PortRangeStrategy {
    var containerToReader: map<string, Reader>
    const rangePool: RangePool

    ghost predicate Valid()
      reads this, rangePool.used
    {
      rangePool.Valid() && Ok(View())
    }

    ghost function View(): Strategy
      requires rangePool.Valid()
      reads this, rangePool.used
    {
      Strategy(rangePool.View(), containerToReader)
    }

    constructor (start: nat, end: nat)
      requires start < end
      ensures Valid() && fresh(rangePool.used)
      ensures View() == Start(start, end)
    {
      containerToReader := map[];
      rangePool := new RangePool(start, end);
    }

    method RegisterContainer(id: string, opens: nat -> bool) returns (endpoint: Option<nat>)
      requires Valid()
      modifies this, rangePool.used
      ensures Valid()
      ensures (View(), endpoint) == Registered(old(View()), id, opens)
    {
      RegisterKeepsOk(View(), id, opens);
      TakenMeans(View().pool);
      if id in containerToReader {
        return if containerToReader[id].live then Some(containerToReader[id].port) else None;
      }
      var port := rangePool.Take();
      if port.None? {
        return None;
      }
      if !opens(port.value) {
        var ok := rangePool.Put(port.value);
        assert ok;
        return None;
      }
      containerToReader := containerToReader[id := Reader(port.value, true)];
      return port;
    }

    method InsertContainer(id: string, port: nat, opens: nat -> bool)
      requires Valid()
      modifies this, rangePool.used
      ensures Valid()
      ensures View() == Inserted(old(View()), id, port, opens)
    {
      InsertKeepsOk(View(), id, port, opens);
      GotMeans(View().pool, port);
      var got := rangePool.Get(port);
      if got.None? {
        return;
      }
      if !opens(port) {
        var ok := rangePool.Put(got.value);
        assert ok;
        return;
      }
      containerToReader := containerToReader[id := Reader(got.value, true)];
    }

    method UnregisterContainer(id: string)
      requires Valid()
      modifies this, rangePool.used
      ensures Valid()
      ensures View() == Unregistered(old(View()), id)
    {
      UnregisterKeepsOk(View(), id);
      if id !in containerToReader {
        return;
      }
      if containerToReader[id].live {
        var ok := rangePool.Put(containerToReader[id].port);
        assert ok;
      }
      containerToReader := containerToReader - {id};
    }
  }

}
