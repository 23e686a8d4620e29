/** Keeping the port strategy and the on-disk cache in step, and reconciling them with the agent at start-up. */
module ContainerAssigner {
  import opened Wrappers
  import opened StringOrder
  import opened RangePool
  import opened PortRange
  import opened StateCache

  /** The strategy and the files of the cache. */
  datatype State = State(ports: Strategy, files: map<string, File>)

  /** Which sockets can be opened, for which container and port, while a job runs. */
  type Opens = (string, nat) -> bool

  function OpensFor(opens: Opens, id: string): nat -> bool {
    (port: nat) => opens(id, port)
  }

  function RegisterAndUpdate(a: State, id: string, opens: Opens): (State, Option<nat>) {
    var (ports, endpoint) := Registered(a.ports, id, OpensFor(opens, id));
    (State(ports, if endpoint.Some? then Added(a.files, id, endpoint.value) else a.files), endpoint)
  }

  function UnregisterAndUpdate(a: State, id: string): State {
    State(Unregistered(a.ports, id), Removed(a.files, id))
  }

  function Kept(list: seq<string>, ids: set<string>): seq<string> {
    if list == [] then []
    else if list[0] in ids then [list[0]] + Kept(list[1..], ids)
    else Kept(list[1..], ids)
  }

  function InsertAll(s: Strategy, list: seq<string>, cache: map<string, nat>, opens: Opens): Strategy
    requires forall id :: id in list ==> id in cache
    decreases |list|
  {
    if list == [] then s
    else
      var id := list[0];
      InsertAll(Inserted(s, id, cache[id], OpensFor(opens, id)), list[1..], cache, opens)
  }

  function UnregisterAll(a: State, list: seq<string>): State
    decreases |list|
  {
    if list == [] then a else UnregisterAll(UnregisterAndUpdate(a, list[0]), list[1..])
  }

  function RegisterAll(a: State, list: seq<string>, opens: Opens): State
    decreases |list|
  {
    if list == [] then a else RegisterAll(RegisterAndUpdate(a, list[0], opens).0, list[1..], opens)
  }

  ghost function ToInsert(cache: map<string, nat>, recovered: set<string>): seq<string> {
    Kept(InOrder(cache.Keys), cache.Keys * recovered)
  }

  ghost function ToRemove(cache: map<string, nat>, recovered: set<string>): seq<string> {
    Kept(InOrder(cache.Keys), cache.Keys - recovered)
  }

  ghost function ToRegister(cache: map<string, nat>, recovered: set<string>): seq<string> {
    Kept(InOrder(recovered), recovered - cache.Keys)
  }

  lemma {:induction false} KeptElements(list: seq<string>, ids: set<string>)
    ensures Elements(Kept(list, ids)) == Elements(list) * ids
  {
    if list != [] {
      KeptElements(list[1..], ids);
      ElementsOfTail(list);
      if list[0] in ids {
        ElementsOfCons(list[0], Kept(list[1..], ids));
      }
    }
  }

  lemma {:induction false} KeptAscending(list: seq<string>, ids: set<string>)
    requires Ascending(list)
    ensures Ascending(Kept(list, ids))
  {
    if list != [] {
      var rest := Kept(list[1..], ids);
      KeptAscending(list[1..], ids);
      if list[0] in ids {
        KeptElements(list[1..], ids);
        assert forall y :: y in rest ==> y in Elements(rest);
        AscendingCons(list[0], rest);
      }
    }
  }

  lemma KeptInOrder(keys: set<string>, ids: set<string>)
    requires ids <= keys
    ensures Ascending(Kept(InOrder(keys), ids)) && Elements(Kept(InOrder(keys), ids)) == ids
  {
    InOrderMeans(keys);
    KeptElements(InOrder(keys), ids);
    KeptAscending(InOrder(keys), ids);
  }

  /** The three work lists, each in order, split the ids that the cache or the agent knows. */
  lemma WorkListsPartition(cache: map<string, nat>, recovered: set<string>)
    ensures var inserts, removes := ToInsert(cache, recovered), ToRemove(cache, recovered);
            var registers := ToRegister(cache, recovered);
            && Ascending(inserts) && Ascending(removes) && Ascending(registers)
            && Elements(inserts) == cache.Keys * recovered
            && Elements(removes) == cache.Keys - recovered
            && Elements(registers) == recovered - cache.Keys
  {
    KeptInOrder(cache.Keys, cache.Keys * recovered);
    KeptInOrder(cache.Keys, cache.Keys - recovered);
    KeptInOrder(recovered, recovered - cache.Keys);
  }

  /** The whole reconciliation of `cache`, as read from the files, with the containers the agent says are alive. */
  ghost function RecoveredFrom(a: State, cache: map<string, nat>, recovered: set<string>, opens: Opens): State {
    RegisterAll(AfterRemoves(a, cache, recovered, opens), ToRegister(cache, recovered), opens)
  }

  ghost function AfterRemoves(a: State, cache: map<string, nat>, recovered: set<string>, opens: Opens): State {
    UnregisterAll(AfterInserts(a, cache, recovered, opens), ToRemove(cache, recovered))
  }

  ghost function AfterInserts(a: State, cache: map<string, nat>, recovered: set<string>, opens: Opens): State {
    WorkListsPartition(cache, recovered);
    assert forall id :: id in ToInsert(cache, recovered) ==> id in Elements(ToInsert(cache, recovered));
    State(InsertAll(a.ports, ToInsert(cache, recovered), cache, opens), a.files)
  }

  ghost function Recovered(a: State, recovered: set<string>, opens: Opens): State {
    RecoveredFrom(a, Cached(a.files), recovered, opens)
  }

  // ---- Binding containers to their cached ports

  predicate Free(s: Strategy, id: string, port: nat, opens: Opens) {
    InRange(s.pool, port) && port !in s.pool.used && opens(id, port)
  }

  ghost predicate AgreeOn(s: Strategy, cache: map<string, nat>) {
    forall id :: id in s.readers && id in cache ==> s.readers[id].port == cache[id]
  }

  lemma InsertOne(s: Strategy, id: string, port: nat, opens: Opens)
    requires Ok(s) && (id in s.readers ==> s.readers[id].port == port)
    ensures var t := Inserted(s, id, port, OpensFor(opens, id));
            && Ok(t) && SameRange(s, t) && Leaked(t) == Leaked(s)
            && (Free(s, id, port, opens) ==>
                  && id !in s.readers && t.readers == s.readers[id := Reader(port, true)]
                  && t.pool.used == s.pool.used + {port})
            && (!Free(s, id, port, opens) ==> t == s)
  {
    GotMeans(s.pool, port);
    InsertKeepsOk(s, id, port, OpensFor(opens, id));
  }

  /** No container of `ids` before `id` has the same cached port and opens it. */
  ghost predicate FirstToOpen(ids: set<string>, cache: map<string, nat>, opens: Opens, id: string)
    requires id in cache
  {
    forall k :: k in ids && k in cache && Below(k, id) && cache[k] == cache[id] ==> !opens(k, cache[k])
  }

  lemma {:induction false} InsertAllKeepsOk(s: Strategy, list: seq<string>, cache: map<string, nat>, opens: Opens)
    requires Ok(s) && AgreeOn(s, cache) && forall id :: id in list ==> id in cache
    ensures var t := InsertAll(s, list, cache, opens);
            Ok(t) && SameRange(s, t) && Leaked(t) == Leaked(s) && AgreeOn(t, cache)
    decreases |list|
  {
    if list != [] {
      var id := list[0];
      InsertOne(s, id, cache[id], opens);
      InsertAllKeepsOk(Inserted(s, id, cache[id], OpensFor(opens, id)), list[1..], cache, opens);
    }
  }

  /** Which containers of the list get a reader: those that have one, and those that are first to open a free port. */
  lemma {:induction false} InsertAllAt(s: Strategy, list: seq<string>, cache: map<string, nat>, opens: Opens, id: string)
    requires Ok(s) && AgreeOn(s, cache) && Ascending(list) && forall k :: k in list ==> k in cache
    ensures var t := InsertAll(s, list, cache, opens);
            && (id in s.readers ==> id in t.readers && t.readers[id] == s.readers[id])
            && (id in list && id !in s.readers ==>
                  && (id in t.readers <==> Free(s, id, cache[id], opens) && FirstToOpen(Elements(list), cache, opens, id))
                  && (id in t.readers ==> t.readers[id] == Reader(cache[id], true)))
            && (id !in list && id !in s.readers ==> id !in t.readers)
    decreases |list|
  {
    if list != [] {
      var head, tail := list[0], list[1..];
      var next := Inserted(s, head, cache[head], OpensFor(opens, head));
      InsertOne(s, head, cache[head], opens);
      InsertAllAt(next, tail, cache, opens, id);
      assert list == [head] + tail;
      if id == head {
        BelowIsStrict(head, head);
        forall k | k in list
          ensures !Below(k, head)
        {
          if k != head {
            BelowIsStrict(head, k);
          }
        }
        if !Free(s, id, cache[id], opens) {
          assert id !in tail;
        }
      } else if id in tail {
        assert Below(head, id);
      }
    }
  }

  // ---- What each step does to one container

  function ReaderOf(a: State, id: string): Option<Reader> {
    if id in a.ports.readers then Some(a.ports.readers[id]) else None
  }

  function CachedPort(a: State, id: string): Option<nat> {
    if InFile(a.files, id) then Some(a.files[Sanitized(id)].port) else None
  }

  predicate Absent(a: State, id: string) {
    ReaderOf(a, id).None? && CachedPort(a, id).None?
  }

  /** The container has a reader exactly when the cache has an entry for it, and they name the same port. */
  predicate Matched(a: State, id: string) {
    && ReaderOf(a, id).Some? == CachedPort(a, id).Some?
    && (ReaderOf(a, id).Some? ==> ReaderOf(a, id).value.port == CachedPort(a, id).value)
  }

  predicate AgreeAt(a: State, id: string) {
    ReaderOf(a, id).Some? && CachedPort(a, id).Some? ==> ReaderOf(a, id).value.port == CachedPort(a, id).value
  }

  predicate SameFor(a: State, t: State, id: string) {
    ReaderOf(t, id) == ReaderOf(a, id) && CachedPort(t, id) == CachedPort(a, id)
  }

  /** Every container has a file name, and one that no other has. */
  ghost predicate OwnFiles(ids: set<string>) {
    && (forall a :: a in ids ==> IsFileName(Sanitized(a)))
    && (forall a, b :: a in ids && b in ids && Sanitized(a) == Sanitized(b) ==> a == b)
  }

  /** No other container of `ids` shares the file of `id`. */
  ghost predicate Alone(ids: set<string>, id: string) {
    IsFileName(Sanitized(id)) && forall other :: other in ids && other != id ==> Sanitized(other) != Sanitized(id)
  }

  lemma OwnFilesAlone(all: set<string>, ids: set<string>, id: string)
    requires OwnFiles(all) && ids <= all && id in all
    ensures Alone(ids, id)
  {
  }

  ghost predicate Sound(a: State) {
    Ok(a.ports) && WellFormed(a.files)
  }

  /** `t` comes from `a` without any port being lost. */
  ghost predicate Follows(a: State, t: State) {
    Sound(t) && SameRange(a.ports, t.ports) && Leaked(t.ports) == Leaked(a.ports)
  }

  ghost predicate AllLive(s: Strategy) {
    forall id :: id in s.readers ==> s.readers[id].live
  }

  lemma RegisterOne(a: State, id: string, opens: Opens)
    requires Sound(a)
    ensures var (t, endpoint) := RegisterAndUpdate(a, id, opens);
            && Follows(a, t)
            && (AllLive(a.ports) ==> AllLive(t.ports))
            && (AgreeAt(a, id) ==> AgreeAt(t, id))
            && (endpoint.Some? ==>
                  && ReaderOf(t, id) == Some(Reader(endpoint.value, true))
                  && (ReaderOf(a, id).Some? ==> t.ports == a.ports)
                  && (IsFileName(Sanitized(id)) ==> CachedPort(t, id) == endpoint))
            && (endpoint.None? ==> t == a)
  {
    RegisterKeepsOk(a.ports, id, OpensFor(opens, id));
    TakenMeans(a.ports.pool);
  }

  lemma RegisterOther(a: State, id: string, opens: Opens, other: string)
    requires Sound(a) && other != id
    ensures var t := RegisterAndUpdate(a, id, opens).0;
            && ReaderOf(t, other) == ReaderOf(a, other)
            && (CachedPort(t, other).Some? ==> CachedPort(t, other) == CachedPort(a, other))
            && (Sanitized(other) != Sanitized(id) ==> SameFor(a, t, other))
  {
  }

  lemma UnregisterOne(a: State, id: string, other: string)
    requires Sound(a) && AllLive(a.ports)
    ensures var t := UnregisterAndUpdate(a, id);
            && Follows(a, t) && AllLive(t.ports)
            && Absent(t, id)
            && (other != id ==> ReaderOf(t, other) == ReaderOf(a, other))
            && (CachedPort(t, other).Some? ==> CachedPort(t, other) == CachedPort(a, other))
            && (Sanitized(other) != Sanitized(id) ==> SameFor(a, t, other))
  {
    UnregisterKeepsOk(a.ports, id);
  }

  lemma {:induction false} UnregisterAllAt(a: State, list: seq<string>, id: string)
    requires Sound(a) && AllLive(a.ports)
    ensures var t := UnregisterAll(a, list);
            && Follows(a, t) && AllLive(t.ports)
            && (id in list || Absent(a, id) ==> Absent(t, id))
            && (AgreeAt(a, id) ==> AgreeAt(t, id))
            && (id !in list ==> ReaderOf(t, id) == ReaderOf(a, id))
            && (CachedPort(t, id).Some? ==> CachedPort(t, id) == CachedPort(a, id))
            && (id !in list && Alone(Elements(list), id) ==> SameFor(a, t, id))
    decreases |list|
  {
    if list != [] {
      UnregisterOne(a, list[0], id);
      UnregisterAllAt(UnregisterAndUpdate(a, list[0]), list[1..], id);
      ElementsOfTail(list);
      assert id in list <==> id == list[0] || id in list[1..] by {
        assert list == [list[0]] + list[1..];
      }
    }
  }

  lemma {:induction false} RegisterAllAt(a: State, list: seq<string>, opens: Opens, id: string)
    requires Sound(a) && AllLive(a.ports) && Ascending(list)
    ensures var t := RegisterAll(a, list, opens);
            && Follows(a, t) && AllLive(t.ports)
            && (AgreeAt(a, id) ==> AgreeAt(t, id))
            && (id !in list && Absent(a, id) ==> Absent(t, id))
            && (id !in list ==> ReaderOf(t, id) == ReaderOf(a, id))
            && (id !in list && Alone(Elements(list), id) ==> SameFor(a, t, id))
            && (id in list && Absent(a, id) && Alone(Elements(list), id) ==> Matched(t, id))
    decreases |list|
  {
    if list != [] {
      var head, tail := list[0], list[1..];
      var (next, endpoint) := RegisterAndUpdate(a, head, opens);
      RegisterOne(a, head, opens);
      if id != head {
        RegisterOther(a, head, opens, id);
      }
      RegisterAllAt(next, tail, opens, id);
      ElementsOfTail(list);
      assert list == [head] + tail;
      if id == head {
        BelowIsStrict(head, head);
        assert id !in tail;
      }
    }
  }

  // ---- Start-up

  /** Some port of the range does not open for the container. */
  ghost predicate Unopenable(p: Pool, opens: Opens, id: string) {
    exists port :: InRange(p, port) && !opens(id, port)
  }

  lemma RegisterServes(a: State, id: string, opens: Opens)
    requires Sound(a)
    ensures var t := RegisterAndUpdate(a, id, opens).0;
            && Sound(t) && SameRange(a.ports, t.ports)
            && a.ports.pool.used <= t.ports.pool.used && a.ports.readers.Keys <= t.ports.readers.Keys
            && (id in t.ports.readers || Depleted(t.ports.pool) || Unopenable(t.ports.pool, opens, id))
  {
    TakenMeans(a.ports.pool);
    RegisterKeepsOk(a.ports, id, OpensFor(opens, id));
    var port := Taken(a.ports.pool).1;
    if port.Some? && !opens(id, port.value) {
      assert InRange(a.ports.pool, port.value);
    }
  }

  lemma {:induction false} RegisterAllGrows(a: State, list: seq<string>, opens: Opens)
    requires Sound(a)
    ensures var t := RegisterAll(a, list, opens);
            && Sound(t) && SameRange(a.ports, t.ports)
            && a.ports.pool.used <= t.ports.pool.used && a.ports.readers.Keys <= t.ports.readers.Keys
    decreases |list|
  {
    if list != [] {
      RegisterServes(a, list[0], opens);
      RegisterAllGrows(RegisterAndUpdate(a, list[0], opens).0, list[1..], opens);
    }
  }

  /** A container that is registered goes without a reader only if no port is left, or one does not open for it. */
  lemma {:induction false} RegisterAllServes(a: State, list: seq<string>, opens: Opens, id: string)
    requires Sound(a) && id in list
    ensures var t := RegisterAll(a, list, opens).ports;
            id in t.readers || Depleted(t.pool) || Unopenable(t.pool, opens, id)
    decreases |list|
  {
    var next := RegisterAndUpdate(a, list[0], opens).0;
    RegisterServes(a, list[0], opens);
    if id == list[0] {
      RegisterAllGrows(next, list[1..], opens);
      var t := RegisterAll(a, list, opens).ports;
      if Unopenable(next.ports.pool, opens, id) {
        var port :| InRange(next.ports.pool, port) && !opens(id, port);
        assert InRange(t.pool, port);
      }
    } else {
      assert list == [list[0]] + list[1..];
      RegisterAllServes(next, list[1..], opens, id);
    }
  }

  lemma {:induction false} InsertAllLive(s: Strategy, list: seq<string>, cache: map<string, nat>, opens: Opens)
    requires AllLive(s) && forall k :: k in list ==> k in cache
    ensures AllLive(InsertAll(s, list, cache, opens))
    decreases |list|
  {
    if list != [] {
      InsertAllLive(Inserted(s, list[0], cache[list[0]], OpensFor(opens, list[0])), list[1..], cache, opens);
    }
  }

  ghost predicate CanRecover(a: State) {
    Sound(a) && AllLive(a.ports) && AgreeOn(a.ports, Cached(a.files))
  }

  lemma {:induction false} InsertsAt(a: State, recovered: set<string>, opens: Opens, id: string)
    requires CanRecover(a)
    ensures var cache, t := Cached(a.files), AfterInserts(a, Cached(a.files), recovered, opens);
            && Follows(a, t) && AllLive(t.ports)
            && CachedPort(t, id) == CachedPort(a, id) && AgreeAt(t, id)
            && (ReaderOf(a, id).Some? || id !in recovered || id !in cache ==> ReaderOf(t, id) == ReaderOf(a, id))
            && (ReaderOf(a, id).None? && id in recovered && id in cache ==>
                  ReaderOf(t, id) ==
                  if Free(a.ports, id, cache[id], opens) && FirstToOpen(recovered, cache, opens, id)
                  then Some(Reader(cache[id], true)) else None)
  {
    var cache := Cached(a.files);
    var list := ToInsert(cache, recovered);
    WorkListsPartition(cache, recovered);
    assert forall k :: k in list ==> k in Elements(list);
    InsertAllKeepsOk(a.ports, list, cache, opens);
    InsertAllAt(a.ports, list, cache, opens, id);
    InsertAllLive(a.ports, list, cache, opens);
    assert id in list <==> id in Elements(list);
  }

  lemma {:induction false} RemovesAt(a: State, recovered: set<string>, opens: Opens, id: string)
    requires CanRecover(a)
    ensures var cache := Cached(a.files);
            var was, t := AfterInserts(a, cache, recovered, opens), AfterRemoves(a, cache, recovered, opens);
            && Follows(a, t) && AllLive(t.ports)
            && AgreeAt(t, id)
            && ((id in cache && id !in recovered) || Absent(was, id) ==> Absent(t, id))
            && (id in recovered || id !in cache ==> ReaderOf(t, id) == ReaderOf(was, id))
  {
    var cache := Cached(a.files);
    var list := ToRemove(cache, recovered);
    WorkListsPartition(cache, recovered);
    InsertsAt(a, recovered, opens, id);
    UnregisterAllAt(AfterInserts(a, Cached(a.files), recovered, opens), list, id);
    assert id in list <==> id in Elements(list);
  }

  lemma {:induction false} RegistersAt(a: State, recovered: set<string>, opens: Opens, id: string)
    requires CanRecover(a)
    ensures var cache := Cached(a.files);
            var was, t := AfterRemoves(a, cache, recovered, opens), Recovered(a, recovered, opens);
            && Follows(a, t) && AllLive(t.ports)
            && AgreeAt(t, id)
            && (id !in recovered && Absent(was, id) ==> Absent(t, id))
            && (id !in recovered || id in cache ==> ReaderOf(t, id) == ReaderOf(was, id))
            && (id in recovered && id in cache && OwnFiles(recovered + cache.Keys) ==> SameFor(was, t, id))
            && (id in recovered && id !in cache && Absent(was, id) && OwnFiles(recovered + cache.Keys) ==> Matched(t, id))
  {
    var cache := Cached(a.files);
    var list := ToRegister(cache, recovered);
    WorkListsPartition(cache, recovered);
    RemovesAt(a, recovered, opens, id);
    RegisterAllAt(AfterRemoves(a, Cached(a.files), recovered, opens), list, opens, id);
    assert id in list <==> id in Elements(list);
    if OwnFiles(recovered + cache.Keys) && id in recovered {
      OwnFilesAlone(recovered + cache.Keys, Elements(list), id);
    }
  }

  /** Nothing is kept for a container that the agent does not know. */
  lemma {:induction false} RecoveredForgets(a: State, recovered: set<string>, opens: Opens, id: string)
    requires CanRecover(a) && id !in recovered && (ReaderOf(a, id).Some? ==> CachedPort(a, id).Some?)
    ensures Absent(Recovered(a, recovered, opens), id)
  {
    CachedAt(a.files, id);
    InsertsAt(a, recovered, opens, id);
    RemovesAt(a, recovered, opens, id);
    RegistersAt(a, recovered, opens, id);
  }

  /**
   * A container that the agent and the cache know keeps its entry, and its reader if it has one; otherwise it is bound
   * to its cached port exactly when that port is free, opens, and is not opened first for another such container.
   */
  lemma {:induction false} RecoveredKeeps(a: State, recovered: set<string>, opens: Opens, id: string)
    requires CanRecover(a) && OwnFiles(recovered + Cached(a.files).Keys)
    requires id in recovered && id in Cached(a.files)
    ensures var cache, t := Cached(a.files), Recovered(a, recovered, opens);
            && CachedPort(t, id) == Some(cache[id])
            && ReaderOf(t, id) ==
               if ReaderOf(a, id).Some? then ReaderOf(a, id)
               else if Free(a.ports, id, cache[id], opens) && FirstToOpen(recovered, cache, opens, id)
               then Some(Reader(cache[id], true))
               else None
  {
    CachedAt(a.files, id);
    InsertsAt(a, recovered, opens, id);
    RemovesAt(a, recovered, opens, id);
    RemovesKeepEntry(a, recovered, opens, id);
    RegistersAt(a, recovered, opens, id);
  }

  /**
   * A container that only the agent knows gets a reader and an entry for the same port, or neither; neither only if in
   * the end no port is left, or one does not open for it.
   */
  lemma {:induction false} RecoveredRepairs(a: State, recovered: set<string>, opens: Opens, id: string)
    requires CanRecover(a) && OwnFiles(recovered + Cached(a.files).Keys)
    requires id in recovered && Absent(a, id)
    ensures var t := Recovered(a, recovered, opens);
            && Matched(t, id)
            && (ReaderOf(t, id).Some? || Depleted(t.ports.pool) || Unopenable(t.ports.pool, opens, id))
  {
    CachedAt(a.files, id);
    InsertsAt(a, recovered, opens, id);
    RemovesAt(a, recovered, opens, id);
    RegistersAt(a, recovered, opens, id);
    var cache := Cached(a.files);
    var list := ToRegister(cache, recovered);
    WorkListsPartition(cache, recovered);
    assert id in Elements(list);
    RegisterAllServes(AfterRemoves(a, cache, recovered, opens), list, opens, id);
  }

  lemma {:induction false} RegisterAllKeepsReader(a: State, list: seq<string>, opens: Opens, id: string)
    requires ReaderOf(a, id).Some?
    ensures ReaderOf(RegisterAll(a, list, opens), id) == ReaderOf(a, id)
    decreases |list|
  {
    if list != [] {
      RegisterAllKeepsReader(RegisterAndUpdate(a, list[0], opens).0, list[1..], opens, id);
    }
  }

  /** No other container of `ids` has the file name of `id`. */
  ghost predicate FileNotIn(ids: set<string>, id: string) {
    forall other :: other in ids && other != id ==> Sanitized(other) != Sanitized(id)
  }

  lemma EntryAlone(a: State, ids: set<string>, id: string)
    requires Sound(a) && CachedPort(a, id).Some? && ids <= Cached(a.files).Keys
    ensures Alone(ids, id)
  {
    forall other | other in ids && other != id
      ensures Sanitized(other) != Sanitized(id)
    {
      CachedAt(a.files, other);
    }
  }

  lemma {:induction false} RemovesKeepEntry(a: State, recovered: set<string>, opens: Opens, id: string)
    requires CanRecover(a) && id in recovered && CachedPort(a, id).Some?
    ensures CachedPort(AfterRemoves(a, Cached(a.files), recovered, opens), id) == CachedPort(a, id)
  {
    var cache := Cached(a.files);
    var list := ToRemove(cache, recovered);
    WorkListsPartition(cache, recovered);
    InsertsAt(a, recovered, opens, id);
    EntryAlone(a, Elements(list), id);
    UnregisterAllAt(AfterInserts(a, cache, recovered, opens), list, id);
    assert id in list <==> id in Elements(list);
  }

  lemma {:induction false} RecoveredKeepsEntry(a: State, recovered: set<string>, opens: Opens, id: string)
    requires CanRecover(a) && id in recovered && CachedPort(a, id).Some? && FileNotIn(recovered, id)
    ensures CachedPort(Recovered(a, recovered, opens), id) == CachedPort(a, id)
  {
    var cache := Cached(a.files);
    var list := ToRegister(cache, recovered);
    WorkListsPartition(cache, recovered);
    CachedAt(a.files, id);
    RemovesAt(a, recovered, opens, id);
    RemovesKeepEntry(a, recovered, opens, id);
    RegisterAllAt(AfterRemoves(a, cache, recovered, opens), list, opens, id);
    assert id in list <==> id in Elements(list);
  }

  /** A reader of a container that the agent knows stays, whatever the cache says. */
  lemma {:induction false} RecoveredKeepsReader(a: State, recovered: set<string>, opens: Opens, id: string)
    requires CanRecover(a) && id in recovered && ReaderOf(a, id).Some?
    ensures ReaderOf(Recovered(a, recovered, opens), id) == ReaderOf(a, id)
  {
    var cache := Cached(a.files);
    InsertsAt(a, recovered, opens, id);
    RemovesAt(a, recovered, opens, id);
    RegisterAllKeepsReader(AfterRemoves(a, cache, recovered, opens), ToRegister(cache, recovered), opens, id);
  }

  /** What recovery from an empty strategy promises one container. */
  ghost predicate Restored(
      range: Pool, cache: map<string, nat>, recovered: set<string>, opens: Opens, t: State, id: string)
  {
    && (ReaderOf(t, id).Some? ==> CachedPort(t, id) == Some(ReaderOf(t, id).value.port))
    && (CachedPort(t, id).Some? ==> id in recovered)
    && (id in recovered && id in cache ==>
          && CachedPort(t, id) == Some(cache[id])
          && (ReaderOf(t, id).Some? <==>
              InRange(range, cache[id]) && opens(id, cache[id]) && FirstToOpen(recovered, cache, opens, id)))
    && (id in recovered && id !in cache ==>
          && Matched(t, id)
          && (ReaderOf(t, id).Some? || Depleted(t.ports.pool) || Unopenable(t.ports.pool, opens, id)))
  }

  lemma {:induction false} RestoredAt(a: State, recovered: set<string>, opens: Opens, id: string)
    requires CanRecover(a) && a.ports.readers == map[] && a.ports.pool.used == {}
    requires OwnFiles(recovered + Cached(a.files).Keys)
    ensures Restored(a.ports.pool, Cached(a.files), recovered, opens, Recovered(a, recovered, opens), id)
  {
    CachedAt(a.files, id);
    if id !in recovered {
      RecoveredForgets(a, recovered, opens, id);
    } else if id in Cached(a.files) {
      RecoveredKeeps(a, recovered, opens, id);
    } else {
      RecoveredRepairs(a, recovered, opens, id);
    }
  }

  /**
   * Recovery into an empty strategy, for every container at once. The ports of the strategy are `Ok`, so nothing, in
   * particular no container registered without a cached port, is given the port of another.
   */
  lemma {:induction false} RecoveryRestoresPorts(start: nat, end: nat, files: map<string, File>, recovered: set<string>, opens: Opens)
    requires start < end && WellFormed(files) && OwnFiles(recovered + Cached(files).Keys)
    ensures var a := State(Start(start, end), files);
            var t := Recovered(a, recovered, opens);
            && Ok(t.ports) && Leaked(t.ports) == {}
            && forall id :: Restored(a.ports.pool, Cached(files), recovered, opens, t, id)
  {
    var a := State(Start(start, end), files);
    assert Leaked(a.ports) == {};
    assert CanRecover(a);
    RegistersAt(a, recovered, opens, "");
    forall id
      ensures Restored(a.ports.pool, Cached(files), recovered, opens, Recovered(a, recovered, opens), id)
    {
      RestoredAt(a, recovered, opens, id);
    }
  }

  class ContainerAssigner {
    const strategy: PortRangeStrategy
    const stateCache: ContainerStateCacheImpl

    ghost predicate Valid()
      reads strategy, strategy.rangePool.used
    {
      strategy.Valid()
    }

    ghost function View(): State
      requires Valid()
      reads strategy, strategy.rangePool.used, stateCache
    {
      State(strategy.View(), stateCache.files)
    }

    constructor (strategy: PortRangeStrategy, stateCache: ContainerStateCacheImpl)
      requires strategy.Valid()
      ensures this.strategy == strategy && this.stateCache == stateCache
      ensures Valid()
    {
      this.strategy, this.stateCache := strategy, stateCache;
    }

    method RegisterAndUpdateCache(id: string, opens: Opens) returns (endpoint: Option<nat>)
      requires Valid()
      modifies strategy, strategy.rangePool.used, stateCache
      ensures Valid()
      ensures (View(), endpoint) == RegisterAndUpdate(old(View()), id, opens)
    {
      endpoint := strategy.RegisterContainer(id, OpensFor(opens, id));
      if endpoint.Some? {
        stateCache.AddContainer(id, endpoint.value);
      }
    }

    method UnregisterAndUpdateCache(id: string)
      requires Valid()
      modifies strategy, strategy.rangePool.used, stateCache
      ensures Valid()
      ensures View() == UnregisterAndUpdate(old(View()), id)
    {
      strategy.UnregisterContainer(id);
      stateCache.RemoveContainer(id);
    }

    /** `containers`: the ids of the recovered containers; `listing`: the files of the cache. */
    method RecoverContainersImp(containers: seq<string>, listing: seq<string>, opens: Opens)
      requires Valid()
      requires forall f :: f in listing <==> f in stateCache.files
      modifies strategy, strategy.rangePool.used, stateCache
      ensures Valid()
      ensures View() == RecoveredFrom(old(View()), ReadFrom(old(stateCache.files), listing), Elements(containers), opens)
      ensures WellFormed(old(stateCache.files)) ==> View() == Recovered(old(View()), Elements(containers), opens)
    {
      var recovered := Elements(containers);
      var disk := stateCache.GetContainers(listing);
      var inserts, removes, registers := SortContainers(disk, recovered);
      WorkListsPartition(disk, recovered);
      assert forall id :: id in inserts ==> id in Elements(inserts);
      InsertContainers(inserts, disk, opens);
      RemoveContainers(removes);
      RegisterContainers(registers, opens);
    }

    method SortContainers(disk: map<string, nat>, recovered: set<string>)
      returns (inserts: seq<string>, removes: seq<string>, registers: seq<string>)
      ensures inserts == ToInsert(disk, recovered)
      ensures removes == ToRemove(disk, recovered)
      ensures registers == ToRegister(disk, recovered)
    {
      inserts, removes, registers := [], [], [];
      var onDisk := ListInOrder(disk.Keys);
      InOrderMeans(disk.Keys);
      assert forall id :: id in onDisk ==> id in Elements(onDisk);
      for i := 0 to |onDisk|
        invariant inserts == Kept(onDisk[..i], disk.Keys * recovered)
        invariant removes == Kept(onDisk[..i], disk.Keys - recovered)
      {
        KeptNext(onDisk, i, disk.Keys * recovered);
        KeptNext(onDisk, i, disk.Keys - recovered);
        assert onDisk[i] in disk.Keys;
        if onDisk[i] in recovered {
          inserts := inserts + [onDisk[i]];
        } else {
          removes := removes + [onDisk[i]];
        }
      }
      assert onDisk[..|onDisk|] == onDisk;
      var alive := ListInOrder(recovered);
      InOrderMeans(recovered);
      assert forall id :: id in alive ==> id in Elements(alive);
      for i := 0 to |alive|
        invariant registers == Kept(alive[..i], recovered - disk.Keys)
      {
        KeptNext(alive, i, recovered - disk.Keys);
        assert alive[i] in recovered;
        if alive[i] !in disk {
          registers := registers + [alive[i]];
        }
      }
      assert alive[..|alive|] == alive;
    }

    method InsertContainers(list: seq<string>, disk: map<string, nat>, opens: Opens)
      requires Valid() && forall id :: id in list ==> id in disk
      modifies strategy, strategy.rangePool.used
      ensures Valid()
      ensures View() == State(InsertAll(old(View()).ports, list, disk, opens), old(View()).files)
    {
      for i := 0 to |list|
        invariant Valid() && View().files == old(View()).files
        invariant InsertAll(View().ports, list[i..], disk, opens) == InsertAll(old(View()).ports, list, disk, opens)
      {
        TailFrom(list, i);
        strategy.InsertContainer(list[i], disk[list[i]], OpensFor(opens, list[i]));
      }
      assert list[|list|..] == [];
    }

    method RemoveContainers(list: seq<string>)
      requires Valid()
      modifies strategy, strategy.rangePool.used, stateCache
      ensures Valid()
      ensures View() == UnregisterAll(old(View()), list)
    {
      for i := 0 to |list|
        invariant Valid()
        invariant UnregisterAll(View(), list[i..]) == UnregisterAll(old(View()), list)
      {
        TailFrom(list, i);
        UnregisterAndUpdateCache(list[i]);
      }
      assert list[|list|..] == [];
    }

    method RegisterContainers(list: seq<string>, opens: Opens)
      requires Valid()
      modifies strategy, strategy.rangePool.used, stateCache
      ensures Valid()
      ensures View() == RegisterAll(old(View()), list, opens)
    {
      for i := 0 to |list|
        invariant Valid()
        invariant RegisterAll(View(), list[i..], opens) == RegisterAll(old(View()), list, opens)
      {
        TailFrom(list, i);
        var _ := RegisterAndUpdateCache(list[i], opens);
      }
      assert list[|list|..] == [];
    }
  }

  lemma TailFrom<T>(list: seq<T>, i: nat)
    requires i < |list|
    ensures list[i..] != [] && list[i..][0] == list[i] && list[i..][1..] == list[i + 1..]
    ensures list[0..] == list
  {
  }

  lemma KeptNext(list: seq<string>, i: nat, ids: set<string>)
    requires i < |list|
    ensures Kept(list[..i + 1], ids) == Kept(list[..i], ids) + (if list[i] in ids then [list[i]] else [])
  {
    assert list[..i + 1] == list[..i] + [list[i]];
    KeptSnoc(list[..i], list[i], ids);
  }

  lemma {:induction false} KeptSnoc(list: seq<string>, x: string, ids: set<string>)
    ensures Kept(list + [x], ids) == Kept(list, ids) + (if x in ids then [x] else [])
  {
    if list == [] {
      assert [] + [x] == [x];
    } else {
      assert (list + [x])[1..] == list[1..] + [x];
      KeptSnoc(list[1..], x, ids);
    }
  }

}
