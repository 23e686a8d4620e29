/** The isolator's calls from the agent, and the queue of jobs they leave for the IO thread. */
module Isolator {
  import opened Wrappers
  import opened StringOrder
  import opened RangePool
  import opened PortRange
  import opened StateCache
  import opened ContainerAssigner

  /** The IO thread runs jobs in the order in which they were dispatched; `opens` are the sockets a job can open. */
  datatype Job =
    | RegisterJob(id: string, opens: Opens)
    | UnregisterJob(id: string)
    | RecoverJob(ids: set<string>, opens: Opens)

  ghost function Ran(a: State, job: Job): State {
    match job
    case RegisterJob(id, opens) => RegisterAndUpdate(a, id, opens).0
    case UnregisterJob(id) => UnregisterAndUpdate(a, id)
    case RecoverJob(ids, opens) => Recovered(a, ids, opens)
  }

  ghost function Drained(a: State, queue: seq<Job>): State
    decreases |queue|
  {
    if queue == [] then a else Drained(Ran(a, queue[0]), queue[1..])
  }

  /** The state of the isolator, the jobs waiting for the IO thread, and what the IO thread has done. */
  datatype System = System(registered: set<string>, queue: seq<Job>, assigner: State)

  datatype Event =
    | Recover(ids: set<string>, opens: Opens)
    | Prepare(id: string, nested: bool, debugClass: bool, opens: Opens)
    | Cleanup(id: string)
    | RunJob

  /**
   * `Prepare` waits for its job, or until a timeout; whether it waited in vain makes no difference to the state, since
   * the job stays in the queue, so the wait is not an event of its own.
   */
  ghost function Step(s: System, e: Event): System {
    match e
    case Recover(ids, opens) => s.(registered := s.registered + ids, queue := s.queue + [RecoverJob(ids, opens)])
    case Prepare(id, nested, debugClass, opens) =>
      if nested && debugClass then s
      else s.(registered := s.registered + {id}, queue := s.queue + [RegisterJob(id, opens)])
    case Cleanup(id) =>
      if id in s.registered then s.(registered := s.registered - {id}, queue := s.queue + [UnregisterJob(id)]) else s
    case RunJob =>
      if s.queue == [] then s else s.(queue := s.queue[1..], assigner := Ran(s.assigner, s.queue[0]))
  }

  ghost function Steps(s: System, events: seq<Event>): System
    decreases |events|
  {
    if events == [] then s else Steps(Step(s, events[0]), events[1..])
  }

  ghost function Boot(start: nat, end: nat, files: map<string, File>): System {
    System({}, [], State(Start(start, end), files))
  }

  // ---- Jobs

  lemma AgreeOnEach(a: State)
    ensures AgreeOn(a.ports, Cached(a.files)) <==> forall id :: AgreeAt(a, id)
  {
    forall id
      ensures AgreeAt(a, id) <==>
              (id in a.ports.readers && id in Cached(a.files) ==> a.ports.readers[id].port == Cached(a.files)[id])
    {
      CachedAt(a.files, id);
    }
  }

  lemma {:induction false} RanAt(a: State, job: Job, id: string)
    requires CanRecover(a)
    ensures var t := Ran(a, job); Follows(a, t) && AllLive(t.ports) && AgreeAt(t, id)
  {
    AgreeOnEach(a);
    match job {
      case RegisterJob(other, opens) =>
        RegisterOne(a, other, opens);
        if other != id {
          RegisterOther(a, other, opens, id);
        }
      case UnregisterJob(other) => UnregisterOne(a, other, id);
      case RecoverJob(ids, opens) => RegistersAt(a, ids, opens, id);
    }
  }

  /** No job lets a reader and its cache entry disagree, and no job loses a port. */
  lemma {:induction false} RanKeeps(a: State, job: Job)
    requires CanRecover(a)
    ensures CanRecover(Ran(a, job)) && Follows(a, Ran(a, job))
  {
    var t := Ran(a, job);
    RanAt(a, job, "");
    forall id
      ensures AgreeAt(t, id)
    {
      RanAt(a, job, id);
    }
    AgreeOnEach(t);
  }

  predicate Mentions(job: Job, id: string) {
    if job.RecoverJob? then id in job.ids else job.id == id
  }

  lemma {:induction false} RanAbsent(a: State, job: Job, id: string)
    requires CanRecover(a)
    requires || job == UnregisterJob(id)
             || (!Mentions(job, id) && Absent(a, id))
             || (!Mentions(job, id) && job.RecoverJob? && ReaderOf(a, id).None?)
    ensures Absent(Ran(a, job), id)
  {
    if job.RegisterJob? {
      RegisterOther(a, job.id, job.opens, id);
    } else if job.UnregisterJob? {
      UnregisterOne(a, job.id, id);
    } else {
      RecoveredForgets(a, job.ids, job.opens, id);
    }
  }

  lemma {:induction false} DrainedKeeps(a: State, queue: seq<Job>)
    requires CanRecover(a)
    ensures CanRecover(Drained(a, queue)) && Follows(a, Drained(a, queue))
    decreases |queue|
  {
    if queue != [] {
      RanKeeps(a, queue[0]);
      DrainedKeeps(Ran(a, queue[0]), queue[1..]);
    }
  }

  lemma {:induction false} DrainedThen(a: State, queue: seq<Job>, job: Job)
    ensures Drained(a, queue + [job]) == Ran(Drained(a, queue), job)
    decreases |queue|
  {
    if queue == [] {
      assert [] + [job] == [job];
      assert Drained(Ran(a, job), []) == Ran(a, job);
    } else {
      assert (queue + [job])[0] == queue[0] && (queue + [job])[1..] == queue[1..] + [job];
      DrainedThen(Ran(a, queue[0]), queue[1..], job);
    }
  }

  // ---- Abandoned registrations do not leak

  /** The system once the IO thread has caught up. */
  ghost function Settled(s: System): State {
    Drained(s.assigner, s.queue)
  }

  ghost predicate Consistent(s: System) {
    CanRecover(s.assigner)
  }

  predicate Touches(e: Event, id: string) {
    match e
    case Recover(ids, _) => id in ids
    case Prepare(other, nested, debugClass, _) => id == other && !(nested && debugClass)
    case _ => false
  }

  lemma {:induction false} DrainedThenAbsent(a: State, queue: seq<Job>, job: Job, id: string)
    requires CanRecover(a)
    requires job == UnregisterJob(id) || (Absent(Drained(a, queue), id) && !Mentions(job, id))
    ensures Absent(Drained(a, queue + [job]), id)
  {
    DrainedKeeps(a, queue);
    DrainedThen(a, queue, job);
    RanAbsent(Drained(a, queue), job, id);
  }

  lemma {:induction false} StepKeepsAbsent(s: System, e: Event, id: string)
    requires Consistent(s) && !Touches(e, id)
    requires Absent(Settled(s), id)
    ensures Absent(Settled(Step(s, e)), id)
  {
    match e {
      case Recover(ids, opens) => DrainedThenAbsent(s.assigner, s.queue, RecoverJob(ids, opens), id);
      case Prepare(other, nested, debugClass, opens) =>
        if !(nested && debugClass) {
          DrainedThenAbsent(s.assigner, s.queue, RegisterJob(other, opens), id);
        }
      case Cleanup(other) =>
        if other in s.registered {
          DrainedThenAbsent(s.assigner, s.queue, UnregisterJob(other), id);
        }
      case RunJob =>
    }
  }

  lemma {:induction false} StepsKeepAbsent(s: System, events: seq<Event>, id: string)
    requires Consistent(s) && forall k :: 0 <= k < |events| ==> !Touches(events[k], id)
    requires Absent(Settled(s), id)
    ensures Absent(Settled(Steps(s, events)), id)
    decreases |events|
  {
    if events != [] {
      assert !Touches(events[0], id);
      if events[0].RunJob? && s.queue != [] {
        RanKeeps(s.assigner, s.queue[0]);
      }
      StepKeepsAbsent(s, events[0], id);
      StepsKeepAbsent(Step(s, events[0]), events[1..], id);
    }
  }

  /**
   * A container that was prepared or recovered and then cleaned up, with no later prepare or recovery, has neither a
   * reader nor a cache entry once the queue is empty, whatever was still in the queue when it was cleaned up.
   */
  lemma {:induction false} CleanedUpIsGone(s: System, id: string, events: seq<Event>)
    requires Consistent(s) && id in s.registered
    requires forall k :: 0 <= k < |events| ==> !Touches(events[k], id)
    ensures var t := Steps(Step(s, Cleanup(id)), events);
            t.queue == [] ==> Absent(t.assigner, id)
  {
    var cleaned := Step(s, Cleanup(id));
    DrainedThenAbsent(s.assigner, s.queue, UnregisterJob(id), id);
    StepsKeepAbsent(cleaned, events, id);
  }

  /** No container outside `registered` is left with a reader or a cache entry once the queue is empty. */
  ghost predicate OnlyRegistered(s: System) {
    Consistent(s) && forall id :: id !in s.registered ==> Absent(Settled(s), id)
  }

  lemma {:induction false} StepsKeepOnlyRegistered(s: System, events: seq<Event>)
    requires OnlyRegistered(s)
    ensures OnlyRegistered(Steps(s, events)) && Follows(s.assigner, Steps(s, events).assigner)
    decreases |events|
  {
    if events != [] {
      var e, t := events[0], Step(s, events[0]);
      if e.RunJob? && s.queue != [] {
        RanKeeps(s.assigner, s.queue[0]);
      }
      forall id | id !in t.registered
        ensures Absent(Settled(t), id)
      {
        if id in s.registered {
          assert e == Cleanup(id);
          DrainedThenAbsent(s.assigner, s.queue, UnregisterJob(id), id);
        } else {
          StepKeepsAbsent(s, e, id);
        }
      }
      StepsKeepOnlyRegistered(t, events[1..]);
    }
  }

  /** A recovery before anything else forgets all containers that it is not about. */
  lemma {:induction false} FirstRecovery(s: System, ids: set<string>, opens: Opens)
    requires Consistent(s) && s.registered == {} && s.queue == [] && s.assigner.ports.readers == map[]
    ensures OnlyRegistered(Step(s, Recover(ids, opens)))
  {
    var job := RecoverJob(ids, opens);
    var t := Step(s, Recover(ids, opens));
    DrainedThen(s.assigner, [], job);
    assert t.queue == [] + [job];
    forall id | id !in t.registered
      ensures Absent(Settled(t), id)
    {
      RanAbsent(s.assigner, job, id);
    }
  }

  /**
   * From start-up, which recovers first, over every run: containers hold different ports of the range, no port is
   * lost, and whenever the queue is empty only registered containers have a reader or a cache entry.
   */
  lemma {:induction false} WholeRunHoldsOnlyRegistered(
      start: nat, end: nat, files: map<string, File>, ids: set<string>, opens: Opens, events: seq<Event>)
    requires start < end && WellFormed(files)
    ensures var t := Steps(Step(Boot(start, end, files), Recover(ids, opens)), events);
            && Ok(t.assigner.ports) && Leaked(t.assigner.ports) == {}
            && OnlyRegistered(t)
            && (t.queue == [] ==> Settled(t) == t.assigner)
  {
    var booted := Step(Boot(start, end, files), Recover(ids, opens));
    assert Leaked(booted.assigner.ports) == {};
    FirstRecovery(Boot(start, end, files), ids, opens);
    StepsKeepOnlyRegistered(booted, events);
  }

  // ---- Prepared containers are served

  /** What each call comes to once the IO thread has caught up, whatever was still queued before it. */
  lemma {:induction false} CallSettles(s: System, e: Event)
    ensures var t := Step(s, e);
            match e
            case Recover(ids, opens) =>
              t.registered == s.registered + ids && Settled(t) == Recovered(Settled(s), ids, opens)
            case Prepare(id, nested, debugClass, opens) =>
              if nested && debugClass then t == s
              else t.registered == s.registered + {id} && Settled(t) == RegisterAndUpdate(Settled(s), id, opens).0
            case Cleanup(id) =>
              if id !in s.registered then t == s
              else t.registered == s.registered - {id} && Settled(t) == UnregisterAndUpdate(Settled(s), id)
            case RunJob =>
              t.registered == s.registered && Settled(t) == Settled(s)
  {
    match e {
      case Recover(ids, opens) => DrainedThen(s.assigner, s.queue, RecoverJob(ids, opens));
      case Prepare(id, _, _, opens) => DrainedThen(s.assigner, s.queue, RegisterJob(id, opens));
      case Cleanup(id) => DrainedThen(s.assigner, s.queue, UnregisterJob(id));
      case RunJob =>
    }
  }

  /** The calls that take a container's reader away. */
  predicate Releases(e: Event, id: string) {
    e == Cleanup(id) || (e.Recover? && id !in e.ids)
  }

  /** The calls about another container with the same file name. */
  ghost predicate SharesFile(e: Event, id: string) {
    match e
    case Recover(ids, _) => !FileNotIn(ids, id)
    case Prepare(other, _, _, _) => other != id && Sanitized(other) == Sanitized(id)
    case Cleanup(other) => other != id && Sanitized(other) == Sanitized(id)
    case RunJob => false
  }

  lemma {:induction false} StepKeepsConsistent(s: System, e: Event)
    requires Consistent(s)
    ensures Consistent(Step(s, e))
  {
    if e.RunJob? && s.queue != [] {
      RanKeeps(s.assigner, s.queue[0]);
    }
  }

  lemma {:induction false} StepKeepsReader(s: System, e: Event, id: string)
    requires Consistent(s) && !Releases(e, id) && ReaderOf(Settled(s), id).Some?
    ensures ReaderOf(Settled(Step(s, e)), id) == ReaderOf(Settled(s), id)
    ensures CachedPort(Settled(s), id).Some? && !SharesFile(e, id) ==>
              CachedPort(Settled(Step(s, e)), id) == CachedPort(Settled(s), id)
  {
    var a := Settled(s);
    DrainedKeeps(s.assigner, s.queue);
    CallSettles(s, e);
    match e {
      case Recover(ids, opens) =>
        RecoveredKeepsReader(a, ids, opens, id);
        if CachedPort(a, id).Some? && !SharesFile(e, id) {
          RecoveredKeepsEntry(a, ids, opens, id);
        }
      case Prepare(other, _, _, opens) =>
        AgreeOnEach(a);
        RegisterOne(a, other, opens);
        if other != id {
          RegisterOther(a, other, opens, id);
        }
      case Cleanup(other) => UnregisterOne(a, other, id);
      case RunJob =>
    }
  }

  lemma {:induction false} StepsKeepReader(s: System, events: seq<Event>, id: string)
    requires Consistent(s) && ReaderOf(Settled(s), id).Some?
    requires forall k :: 0 <= k < |events| ==> !Releases(events[k], id)
    ensures ReaderOf(Settled(Steps(s, events)), id) == ReaderOf(Settled(s), id)
    ensures CachedPort(Settled(s), id).Some? && (forall k :: 0 <= k < |events| ==> !SharesFile(events[k], id)) ==>
              CachedPort(Settled(Steps(s, events)), id) == CachedPort(Settled(s), id)
    decreases |events|
  {
    if events != [] {
      var t := Step(s, events[0]);
      StepKeepsReader(s, events[0], id);
      StepKeepsConsistent(s, events[0]);
      StepsKeepReader(t, events[1..], id);
      assert forall k :: 0 <= k < |events| - 1 ==> events[1..][k] == events[k + 1];
    }
  }

  lemma {:induction false} StepsKeepRegistered(s: System, events: seq<Event>, id: string)
    requires id in s.registered && forall k :: 0 <= k < |events| ==> events[k] != Cleanup(id)
    ensures id in Steps(s, events).registered
    decreases |events|
  {
    if events != [] {
      assert events[0] != Cleanup(id);
      StepsKeepRegistered(Step(s, events[0]), events[1..], id);
    }
  }

  /** A container just prepared has a reader, once its job has run, unless no port is left or one does not open for it. */
  lemma {:induction false} PreparedIsServed(s: System, id: string, nested: bool, debugClass: bool, opens: Opens)
    requires Consistent(s) && !(nested && debugClass)
    ensures var p := Step(s, Prepare(id, nested, debugClass, opens));
            var a := Settled(p);
            && id in p.registered && Consistent(p)
            && (ReaderOf(a, id).Some? || Depleted(a.ports.pool) || Unopenable(a.ports.pool, opens, id))
            && (ReaderOf(a, id).Some? && IsFileName(Sanitized(id)) ==>
                  CachedPort(a, id) == Some(ReaderOf(a, id).value.port))
            && (ReaderOf(Settled(s), id).Some? ==> ReaderOf(a, id) == ReaderOf(Settled(s), id))
  {
    CallSettles(s, Prepare(id, nested, debugClass, opens));
    DrainedKeeps(s.assigner, s.queue);
    RegisterServes(Settled(s), id, opens);
    RegisterOne(Settled(s), id, opens);
  }

  /**
   * A prepared container over any run that neither cleans it up nor recovers without it. It stays registered. If it gets
   * a reader at all, it has that one whenever the queue is empty, and its entry names the same port unless a call is about
   * another container with its file name. It gets none only if no port is left or one does not open for it.
   */
  lemma {:induction false} PreparedStaysServed(
      s: System, id: string, nested: bool, debugClass: bool, opens: Opens, events: seq<Event>)
    requires Consistent(s) && !(nested && debugClass)
    requires forall k :: 0 <= k < |events| ==> !Releases(events[k], id)
    ensures var p := Step(s, Prepare(id, nested, debugClass, opens));
            var a, t := Settled(p), Steps(p, events);
            && id in t.registered
            && (ReaderOf(a, id).Some? || Depleted(a.ports.pool) || Unopenable(a.ports.pool, opens, id))
            && (ReaderOf(a, id).Some? && t.queue == [] ==> ReaderOf(t.assigner, id) == ReaderOf(a, id))
            && (ReaderOf(a, id).Some? && t.queue == [] && IsFileName(Sanitized(id))
                && (forall k :: 0 <= k < |events| ==> !SharesFile(events[k], id)) ==>
                  CachedPort(t.assigner, id) == Some(ReaderOf(a, id).value.port))
  {
    var p := Step(s, Prepare(id, nested, debugClass, opens));
    PreparedIsServed(s, id, nested, debugClass, opens);
    StepsKeepRegistered(p, events, id);
    if ReaderOf(Settled(p), id).Some? {
      StepsKeepReader(p, events, id);
    }
  }

  // ---- Restarting the agent

  /** Exactly the containers with a reader are in the cache, with the reader's port. */
  ghost predicate AllMatched(a: State) {
    forall id :: Matched(a, id)
  }

  predicate OnlyAbout(job: Job, known: set<string>) {
    if job.RecoverJob? then job.ids <= known else job.id in known
  }

  lemma CachedAreKnown(a: State, known: set<string>)
    requires AllMatched(a) && a.ports.readers.Keys <= known
    ensures Cached(a.files).Keys <= known
  {
    forall k | k in Cached(a.files)
      ensures k in known
    {
      CachedAt(a.files, k);
      assert Matched(a, k);
    }
  }

  lemma OwnFilesOf(all: set<string>, ids: set<string>)
    requires OwnFiles(all) && ids <= all
    ensures OwnFiles(ids)
  {
  }

  lemma {:induction false} RanMatchedAt(a: State, job: Job, known: set<string>, id: string)
    requires CanRecover(a) && AllMatched(a) && OwnFiles(known)
    requires a.ports.readers.Keys <= known && OnlyAbout(job, known)
    ensures Matched(Ran(a, job), id)
    ensures ReaderOf(Ran(a, job), id).Some? ==> id in known
  {
    assert Matched(a, id);
    if job.RecoverJob? {
      CachedAt(a.files, id);
      if id !in job.ids {
        RecoveredForgets(a, job.ids, job.opens, id);
      } else {
        CachedAreKnown(a, known);
        OwnFilesOf(known, job.ids + Cached(a.files).Keys);
        if id in Cached(a.files) {
          RecoveredKeeps(a, job.ids, job.opens, id);
        } else {
          RecoveredRepairs(a, job.ids, job.opens, id);
        }
      }
    } else if !Mentions(job, id) && Absent(a, id) {
      RanAbsent(a, job, id);
    } else {
      OwnFilesAlone(known, known, job.id);
      OneMatched(a, job, id);
    }
  }

  lemma {:induction false} OneMatched(a: State, job: Job, id: string)
    requires CanRecover(a) && Matched(a, id) && !job.RecoverJob?
    requires IsFileName(Sanitized(job.id)) && (id != job.id ==> Sanitized(id) != Sanitized(job.id))
    ensures Matched(Ran(a, job), id)
    ensures ReaderOf(Ran(a, job), id).Some? ==> id == job.id || ReaderOf(a, id).Some?
  {
    if job.UnregisterJob? {
      UnregisterOne(a, job.id, id);
    } else {
      RegisterOne(a, job.id, job.opens);
      if id != job.id {
        RegisterOther(a, job.id, job.opens, id);
      }
    }
  }

  /** Over any jobs about containers with files of their own, exactly those with a reader stay in the cache. */
  lemma {:induction false} DrainedKeepsMatched(a: State, queue: seq<Job>, known: set<string>)
    requires CanRecover(a) && AllMatched(a) && OwnFiles(known) && a.ports.readers.Keys <= known
    requires forall k :: 0 <= k < |queue| ==> OnlyAbout(queue[k], known)
    ensures var t := Drained(a, queue); AllMatched(t) && t.ports.readers.Keys <= known
    decreases |queue|
  {
    if queue != [] {
      var job, t := queue[0], Ran(a, queue[0]);
      assert OnlyAbout(job, known);
      RanKeeps(a, job);
      forall id
        ensures Matched(t, id) && (id in t.ports.readers ==> id in known)
      {
        RanMatchedAt(a, job, known, id);
      }
      DrainedKeepsMatched(t, queue[1..], known);
    }
  }

  /** The state in which the agent starts anew, before it recovers. */
  function Booted(a: State): State {
    State(Start(a.ports.pool.start, a.ports.pool.end), a.files)
  }

  /** The agent started anew on the same range and files, finding the containers in `alive` still there. */
  ghost function Restarted(a: State, alive: set<string>, opens: Opens): State {
    Recovered(Booted(a), alive, opens)
  }

  lemma CachedAreHeld(a: State)
    requires AllMatched(a)
    ensures Cached(a.files).Keys == a.ports.readers.Keys
    ensures forall id :: id in a.ports.readers ==> id in Cached(a.files) && Cached(a.files)[id] == a.ports.readers[id].port
  {
    forall k
      ensures k in Cached(a.files) <==> k in a.ports.readers
      ensures k in a.ports.readers ==> k in Cached(a.files) && Cached(a.files)[k] == a.ports.readers[k].port
    {
      CachedAt(a.files, k);
      assert Matched(a, k);
    }
  }

  lemma HeldPortIsFirst(a: State, alive: set<string>, opens: Opens, id: string)
    requires Ok(a.ports) && AllMatched(a) && id in a.ports.readers
    ensures id in Cached(a.files) && FirstToOpen(alive, Cached(a.files), opens, id)
    ensures InRange(a.ports.pool, Cached(a.files)[id])
  {
    CachedAreHeld(a);
    assert Within(a.ports.pool.start, a.ports.readers[id].port, a.ports.pool.end + 1);
    BelowIsStrict(id, id);
  }

  /**
   * What a restart means for one container. One that is gone is forgotten. One that is alive and had a reader has it
   * again, on the same port, exactly if that opens. One that is alive and had none gets a reader and a cache entry for
   * the same port, unless no port is left or one does not open for it.
   */
  ghost predicate AfterRestart(a: State, t: State, alive: set<string>, opens: Opens, id: string) {
    && (id !in alive ==> Absent(t, id))
    && (id in alive && id in a.ports.readers ==>
          ReaderOf(t, id) == if opens(id, a.ports.readers[id].port) then ReaderOf(a, id) else None)
    && (id in alive && id !in a.ports.readers ==>
          && Matched(t, id)
          && (ReaderOf(t, id).Some? || Depleted(t.ports.pool) || Unopenable(t.ports.pool, opens, id)))
  }

  lemma {:induction false} RestartedHeld(a: State, alive: set<string>, opens: Opens, id: string)
    requires CanRecover(a) && AllMatched(a) && OwnFiles(alive + Cached(a.files).Keys)
    requires id in alive && id in a.ports.readers
    ensures ReaderOf(Restarted(a, alive, opens), id)
            == if opens(id, a.ports.readers[id].port) then ReaderOf(a, id) else None
  {
    CachedAreHeld(a);
    HeldPortIsFirst(a, alive, opens, id);
    RecoveredKeeps(Booted(a), alive, opens, id);
  }

  lemma {:induction false} RestartedNew(a: State, alive: set<string>, opens: Opens, id: string)
    requires CanRecover(a) && AllMatched(a) && OwnFiles(alive + Cached(a.files).Keys)
    requires id in alive && id !in a.ports.readers
    ensures var t := Restarted(a, alive, opens);
            && Matched(t, id)
            && (ReaderOf(t, id).Some? || Depleted(t.ports.pool) || Unopenable(t.ports.pool, opens, id))
  {
    assert Matched(a, id);
    RecoveredRepairs(Booted(a), alive, opens, id);
  }

  lemma {:induction false} RestartedKeeps(a: State, alive: set<string>, opens: Opens)
    requires CanRecover(a)
    ensures CanRecover(Restarted(a, alive, opens))
  {
    RanKeeps(Booted(a), RecoverJob(alive, opens));
  }

  lemma {:induction false} RestartedAll(a: State, alive: set<string>, opens: Opens, known: set<string>)
    requires CanRecover(a) && AllMatched(a) && OwnFiles(known)
    requires a.ports.readers.Keys <= known && alive <= known
    ensures forall id :: AfterRestart(a, Restarted(a, alive, opens), alive, opens, id)
  {
    CachedAreHeld(a);
    OwnFilesOf(known, alive + Cached(a.files).Keys);
    forall id
      ensures AfterRestart(a, Restarted(a, alive, opens), alive, opens, id)
    {
      if id !in alive {
        RecoveredForgets(Booted(a), alive, opens, id);
      } else if id in a.ports.readers {
        RestartedHeld(a, alive, opens, id);
      } else {
        RestartedNew(a, alive, opens, id);
      }
    }
  }

  /**
   * After any jobs from an empty start, for any containers still alive and any sockets that can be opened, every
   * container fares as `AfterRestart` says, no two share a port, and the cache agrees with the readers.
   */
  lemma {:induction false} RestartRestores(
      start: nat, end: nat, queue: seq<Job>, known: set<string>, alive: set<string>, opens: Opens)
    requires start < end && OwnFiles(known) && alive <= known
    requires forall k :: 0 <= k < |queue| ==> OnlyAbout(queue[k], known)
    ensures var a := Drained(State(Start(start, end), map[]), queue);
            && CanRecover(Restarted(a, alive, opens))
            && forall id :: AfterRestart(a, Restarted(a, alive, opens), alive, opens, id)
  {
    var empty := State(Start(start, end), map[]);
    DrainedKeepsMatched(empty, queue, known);
    DrainedKeeps(empty, queue);
    var a := Drained(empty, queue);
    RestartedAll(a, alive, opens, known);
    RestartedKeeps(a, alive, opens);
  }

  class IsolatorProcess {
    var registered: set<string>
    var dispatched: seq<Job>

    /** The isolator as part of the system whose IO thread has not run any job since. */
    ghost function View(assigner: State): System
      reads this
    {
      System(registered, dispatched, assigner)
    }

    constructor ()
      ensures registered == {} && dispatched == []
    {
      registered, dispatched := {}, [];
    }

    method Recover(states: seq<string>, opens: Opens)
      modifies this
      ensures forall a :: View(a) == Step(old(View(a)), Event.Recover(Elements(states), opens))
    {
      var ids := {};
      for i := 0 to |states|
        invariant registered == old(registered) + ids
        invariant ids == Elements(states[..i]) && dispatched == old(dispatched)
      {
        assert Elements(states[..i + 1]) == Elements(states[..i]) + {states[i]};
        registered, ids := registered + {states[i]}, ids + {states[i]};
      }
      assert states[..|states|] == states;
      dispatched := dispatched + [RecoverJob(ids, opens)];
    }

    /** `endpoint` is what registering the container returned: nothing if it failed or timed out. */
    method Prepare(id: string, nested: bool, debugClass: bool, endpoint: Option<nat>, opens: Opens)
      returns (statsdPort: Option<nat>)
      modifies this
      ensures forall a :: View(a) == Step(old(View(a)), Event.Prepare(id, nested, debugClass, opens))
      ensures statsdPort == if nested && debugClass then None else endpoint
    {
      if nested && debugClass {
        return None;
      }
      registered := registered + {id};
      dispatched := dispatched + [RegisterJob(id, opens)];
      return endpoint;
    }

    method Cleanup(id: string)
      modifies this
      ensures forall a :: View(a) == Step(old(View(a)), Event.Cleanup(id))
    {
      if id in registered {
        registered := registered - {id};
        dispatched := dispatched + [UnregisterJob(id)];
      }
    }
  }

}
