/**
 * Every interleaving of callers that dispatch work and may give up waiting with workers that hold pointers into
 * the callers' stack frames. The mutex is part of the state; each action is what a thread does between two points
 * where another thread could interfere.
 */
module TicketProtocol {
  import opened Wrappers
  import opened SyncUtil

  /** Where a caller is in `dispatch_get`. Its stack frame exists until it has returned. */
  datatype CallerAt<V> =
    | NotStarted
    | TakingTicket             // holds the mutex
    | Dispatching
    | InDispatch               // the dispatcher may be running the job in this very thread
    | Dispatched
    | Checking                 // holds the mutex, about to look at `out` for the first time
    | Waiting                  // on the condition variable, mutex released
    | Woken(timedOut: bool)    // holds the mutex again
    | Clearing                 // holds the mutex, about to clear the ticket
    | Testing                  // mutex released, about to test `out`
    | Reading                  // mutex released, about to copy `out`
    | Returned(result: Option<V>)

  /** Where the worker that runs the call's job is in `_exec_and_pass_result_cb`. */
  datatype WorkerAt<V> =
    | NoJob
    | Queued
    | HasResult(v: V)
    | Looking(v: V)            // holds the mutex, about to look for the ticket
    | Passing(v: V)            // holds the mutex, ticket found, about to write `out`
    | Notifying                // holds the mutex, `out` written, about to signal the condition variable
    | Discarding(v: V)         // holds the mutex, ticket missing
    | Done(passed: bool)

  datatype Call<V> = Call(
    caller: CallerAt<V>, worker: WorkerAt<V>, ticket: nat,
    out: Option<V>,            // in the caller's frame
    timeoutSecs: nat,          // 0: wait for ever
    signalled: bool,           // the condition variable was signalled during the present wait
    own: Option<V>,            // what the call's function returned
    passed: nat, discarded: nat)

  datatype Thread = Caller(call: nat) | Worker(call: nat)

  datatype State<V> = State(mutex: Option<Thread>, tickets: TicketState, calls: seq<Call<V>>)

  datatype Action<V> =
    | LockForTicket(i: nat) | TakeTicket(i: nat) | EnterDispatch(i: nat) | LeaveDispatch(i: nat)
    | LockForOut(i: nat) | CheckOut(i: nat) | Wake(i: nat, timedOut: bool) | RecheckOut(i: nat)
    | ClearTicket(i: nat) | TestOut(i: nat) | ReadOut(i: nat)
    | Compute(i: nat, v: V) | LockForResult(i: nat) | FindTicket(i: nat)
    | PassResult(i: nat) | Notify(i: nat) | Discard(i: nat)

  predicate Enabled<V>(s: State<V>, a: Action<V>) {
    a.i < |s.calls| &&
    var c := s.calls[a.i];
    match a
    case LockForTicket(_) => c.caller.NotStarted? && s.mutex.None?
    case TakeTicket(_) => c.caller.TakingTicket?
    case EnterDispatch(_) => c.caller.Dispatching?
    case LeaveDispatch(_) => c.caller.InDispatch?
    case LockForOut(_) => c.caller.Dispatched? && s.mutex.None?
    case CheckOut(_) => c.caller.Checking?
    case Wake(_, timedOut) => c.caller.Waiting? && s.mutex.None? && (timedOut ==> c.timeoutSecs != 0)
    case RecheckOut(_) => c.caller.Woken?
    case ClearTicket(_) => c.caller.Clearing?
    case TestOut(_) => c.caller.Testing?
    case ReadOut(_) => c.caller.Reading?
    case Compute(_, _) => c.worker.Queued?
    case LockForResult(_) => c.worker.HasResult? && s.mutex.None?
    case FindTicket(_) => c.worker.Looking?
    case PassResult(_) => c.worker.Passing?
    case Notify(_) => c.worker.Notifying?
    case Discard(_) => c.worker.Discarding?
  }

  function Do<V>(s: State<V>, a: Action<V>): State<V>
    requires Enabled(s, a)
  {
    var i, c := a.i, s.calls[a.i];
    match a
    case LockForTicket(_) => s.(mutex := Some(Caller(i)), calls := s.calls[i := c.(caller := TakingTicket)])
    case TakeTicket(_) =>
      var (tickets, ticket) := NextTicket(s.tickets);
      State(None, tickets, s.calls[i := c.(caller := Dispatching, ticket := ticket)])
    case EnterDispatch(_) => s.(calls := s.calls[i := c.(caller := InDispatch, worker := Queued)])
    case LeaveDispatch(_) => s.(calls := s.calls[i := c.(caller := Dispatched)])
    case LockForOut(_) => s.(mutex := Some(Caller(i)), calls := s.calls[i := c.(caller := Checking)])
    case CheckOut(_) =>
      if c.out.Some? then s.(calls := s.calls[i := c.(caller := Clearing)])
      else s.(mutex := None, calls := s.calls[i := c.(caller := Waiting, signalled := false)])
    case Wake(_, timedOut) => s.(mutex := Some(Caller(i)), calls := s.calls[i := c.(caller := Woken(timedOut))])
    case RecheckOut(_) =>
      if c.out.Some? || c.caller.timedOut then s.(calls := s.calls[i := c.(caller := Clearing)])
      else s.(mutex := None, calls := s.calls[i := c.(caller := Waiting, signalled := false)])
    case ClearTicket(_) =>
      State(None, Cleared(s.tickets, c.ticket), s.calls[i := c.(caller := Testing)])
    case TestOut(_) =>
      s.(calls := s.calls[i := c.(caller := if c.out.Some? then Reading else Returned(None))])
    case ReadOut(_) => s.(calls := s.calls[i := c.(caller := Returned(c.out))])
    case Compute(_, v) => s.(calls := s.calls[i := c.(worker := HasResult(v), own := Some(v))])
    case LockForResult(_) =>
      s.(mutex := Some(Worker(i)), calls := s.calls[i := c.(worker := Looking(c.worker.v))])
    case FindTicket(_) =>
      var next := if c.ticket in s.tickets.outstanding then Passing(c.worker.v) else Discarding(c.worker.v);
      s.(calls := s.calls[i := c.(worker := next)])
    case PassResult(_) =>
      s.(calls := s.calls[i := c.(worker := Notifying, out := Some(c.worker.v), passed := c.passed + 1)])
    case Notify(_) => s.(mutex := None, calls := s.calls[i := c.(worker := Done(true), signalled := true)])
    case Discard(_) =>
      s.(mutex := None, calls := s.calls[i := c.(worker := Done(false), discarded := c.discarded + 1)])
  }

  ghost predicate Initial<V>(s: State<V>) {
    && s.mutex.None?
    && s.tickets == TicketState(0, {})
    && forall i :: 0 <= i < |s.calls| ==>
         && s.calls[i].caller.NotStarted? && s.calls[i].worker.NoJob? && s.calls[i].ticket == 0
         && s.calls[i].out.None? && s.calls[i].own.None? && s.calls[i].passed == 0 == s.calls[i].discarded
  }

  /** `trace` leads from `s` to `t`. */
  ghost predicate Leads<V>(s: State<V>, trace: seq<Action<V>>, t: State<V>)
    decreases |trace|
  {
    if trace == [] then s == t else Enabled(s, trace[0]) && Leads(Do(s, trace[0]), trace[1..], t)
  }

  // ---- The invariant

  ghost predicate CallerHoldsMutex<V>(c: Call<V>) {
    c.caller.TakingTicket? || c.caller.Checking? || c.caller.Woken? || c.caller.Clearing?
  }

  ghost predicate WorkerHoldsMutex<V>(c: Call<V>) {
    c.worker.Looking? || c.worker.Passing? || c.worker.Notifying? || c.worker.Discarding?
  }

  /** Before its ticket is taken. */
  ghost predicate Early<V>(c: Call<V>) {
    c.caller.NotStarted? || c.caller.TakingTicket?
  }

  /** After its ticket was cleared: the unlocked part, and after the return. */
  ghost predicate Late<V>(c: Call<V>) {
    c.caller.Testing? || c.caller.Reading? || c.caller.Returned?
  }

  ghost predicate WrittenOut<V>(c: Call<V>) {
    c.worker.Notifying? || (c.worker.Done? && c.worker.passed)
  }

  /** What holds of one call, whatever the others do. */
  ghost predicate CallOk<V>(c: Call<V>) {
    && (c.worker.NoJob? <==> Early(c) || c.caller.Dispatching?)
    && (c.out.Some? <==> WrittenOut(c))
    && (c.out.Some? ==> c.out == c.own)
    && (c.worker.HasResult? || c.worker.Looking? || c.worker.Passing? || c.worker.Discarding? ==> c.own == Some(c.worker.v))
    && (c.worker.Passing? || c.worker.Notifying? ==> !Late(c))
    && (c.worker.Discarding? ==> Late(c))
    && (c.worker.Done? && !c.worker.passed ==> Late(c))
    && c.passed == (if WrittenOut(c) then 1 else 0)
    && c.discarded == (if c.worker.Done? && !c.worker.passed then 1 else 0)
    && (c.caller.Woken? && c.caller.timedOut ==> c.timeoutSecs != 0)
    && ((c.caller.Clearing? || Late(c)) && c.out.None? ==> c.timeoutSecs != 0)
    && (c.caller.Waiting? && c.out.Some? ==> c.worker.Notifying? || c.signalled)
    && (c.caller.Waiting? || c.caller.Woken? ==> (c.signalled ==> c.out.Some?))
    && (c.caller.Reading? ==> c.out.Some?)
    && (c.caller.Returned? ==> c.caller.result == c.out)
  }

  ghost predicate Inv<V>(s: State<V>) {
    && (forall i :: 0 <= i < |s.calls| ==> CallOk(s.calls[i]))
    && (forall i :: 0 <= i < |s.calls| ==> (CallerHoldsMutex(s.calls[i]) <==> s.mutex == Some(Caller(i))))
    && (forall i :: 0 <= i < |s.calls| ==> (WorkerHoldsMutex(s.calls[i]) <==> s.mutex == Some(Worker(i))))
    && (forall i :: 0 <= i < |s.calls| && !Early(s.calls[i]) ==> 0 < s.calls[i].ticket <= s.tickets.nextTicket)
    && (forall i :: 0 <= i < |s.calls| && !Early(s.calls[i]) ==>
          (s.calls[i].ticket in s.tickets.outstanding <==> !Late(s.calls[i])))
    && (forall i, j :: 0 <= i < j < |s.calls| && !Early(s.calls[i]) && !Early(s.calls[j]) ==>
          s.calls[i].ticket != s.calls[j].ticket)
    && (s.mutex.Some? ==> s.mutex.value.call < |s.calls|)
  }

  lemma InitialInv<V>(s: State<V>)
    requires Initial(s)
    ensures Inv(s)
  {
  }

  /** One call changes, neither the mutex nor the tickets do. */
  lemma LocalStep<V>(s: State<V>, i: nat, c: Call<V>)
    requires Inv(s) && i < |s.calls|
    requires CallOk(c) && c.ticket == s.calls[i].ticket
    requires CallerHoldsMutex(c) == CallerHoldsMutex(s.calls[i]) && WorkerHoldsMutex(c) == WorkerHoldsMutex(s.calls[i])
    requires Early(c) == Early(s.calls[i]) && Late(c) == Late(s.calls[i])
    ensures Inv(s.(calls := s.calls[i := c]))
  {
  }

  /** One call changes and takes or releases the mutex. */
  lemma MutexStep<V>(s: State<V>, i: nat, c: Call<V>, mutex: Option<Thread>)
    requires Inv(s) && i < |s.calls|
    requires CallOk(c) && c.ticket == s.calls[i].ticket
    requires s.mutex.None? || s.mutex == Some(Caller(i)) || s.mutex == Some(Worker(i))
    requires mutex == if CallerHoldsMutex(c) then Some(Caller(i)) else if WorkerHoldsMutex(c) then Some(Worker(i)) else None
    requires !(CallerHoldsMutex(c) && WorkerHoldsMutex(c))
    requires Early(c) == Early(s.calls[i]) && Late(c) == Late(s.calls[i])
    ensures Inv(s.(mutex := mutex, calls := s.calls[i := c]))
  {
  }

  predicate ChangesTickets<V>(a: Action<V>) {
    a.TakeTicket? || a.ClearTicket?
  }

  predicate ByWorker<V>(a: Action<V>) {
    a.Compute? || a.LockForResult? || a.FindTicket? || a.PassResult? || a.Notify? || a.Discard?
  }

  /** One call changes, to one that is all right and in the same phase. */
  ghost predicate ChangesOnly<V>(s: State<V>, t: State<V>, i: nat) {
    && i < |s.calls| == |t.calls| && t.tickets == s.tickets
    && t.calls == s.calls[i := t.calls[i]]
    && CallOk(t.calls[i]) && t.calls[i].ticket == s.calls[i].ticket
    && Early(t.calls[i]) == Early(s.calls[i]) && Late(t.calls[i]) == Late(s.calls[i])
  }

  lemma WorkerKeepsCallOk<V>(s: State<V>, a: Action<V>)
    requires Inv(s) && Enabled(s, a) && ByWorker(a)
    ensures ChangesOnly(s, Do(s, a), a.i)
  {
    assert CallOk(s.calls[a.i]);
  }

  predicate ByWaiter<V>(a: Action<V>) {
    a.CheckOut? || a.Wake? || a.RecheckOut?
  }

  lemma WaiterKeepsCallOk<V>(s: State<V>, a: Action<V>)
    requires Inv(s) && Enabled(s, a) && ByWaiter(a)
    ensures ChangesOnly(s, Do(s, a), a.i)
  {
    assert CallOk(s.calls[a.i]);
  }

  lemma CallerKeepsCallOk<V>(s: State<V>, a: Action<V>)
    requires Inv(s) && Enabled(s, a) && !ByWorker(a) && !ByWaiter(a) && !ChangesTickets(a)
    ensures ChangesOnly(s, Do(s, a), a.i)
  {
    assert CallOk(s.calls[a.i]);
  }

  lemma StepKeepsMutex<V>(s: State<V>, a: Action<V>)
    requires Inv(s) && Enabled(s, a) && !ChangesTickets(a)
    ensures var c, was := Do(s, a).calls[a.i], s.calls[a.i];
            || (&& Do(s, a).mutex == s.mutex
                && CallerHoldsMutex(c) == CallerHoldsMutex(was) && WorkerHoldsMutex(c) == WorkerHoldsMutex(was))
            || (&& (s.mutex.None? || s.mutex == Some(Caller(a.i)) || s.mutex == Some(Worker(a.i)))
                && !(CallerHoldsMutex(c) && WorkerHoldsMutex(c))
                && Do(s, a).mutex == (if CallerHoldsMutex(c) then Some(Caller(a.i))
                                      else if WorkerHoldsMutex(c) then Some(Worker(a.i)) else None))
  {
    assert CallOk(s.calls[a.i]);
    assert CallerHoldsMutex(s.calls[a.i]) <==> s.mutex == Some(Caller(a.i));
    assert WorkerHoldsMutex(s.calls[a.i]) <==> s.mutex == Some(Worker(a.i));
  }

  lemma TakeTicketStep<V>(s: State<V>, i: nat)
    requires Inv(s) && Enabled(s, TakeTicket(i))
    ensures Inv(Do(s, TakeTicket(i)))
  {
    assert CallOk(s.calls[i]);
    var c := s.calls[i].(caller := Dispatching, ticket := s.tickets.nextTicket + 1);
    assert CallOk(c) && !Early(c) && !Late(c) && !CallerHoldsMutex(c) && !WorkerHoldsMutex(c);
    assert Do(s, TakeTicket(i)).calls == s.calls[i := c];
  }

  lemma ClearTicketStep<V>(s: State<V>, i: nat)
    requires Inv(s) && Enabled(s, ClearTicket(i))
    ensures Inv(Do(s, ClearTicket(i)))
  {
    assert CallOk(s.calls[i]);
    var c := s.calls[i].(caller := Testing);
    assert CallOk(c) && !Early(c) && Late(c) && !CallerHoldsMutex(c) && !WorkerHoldsMutex(c);
    assert Do(s, ClearTicket(i)).calls == s.calls[i := c];
  }

  lemma StepKeepsInv<V>(s: State<V>, a: Action<V>)
    requires Inv(s) && Enabled(s, a)
    ensures Inv(Do(s, a))
  {
    if ChangesTickets(a) {
      if a.TakeTicket? {
        TakeTicketStep(s, a.i);
      } else {
        ClearTicketStep(s, a.i);
      }
    } else {
      if ByWorker(a) {
        WorkerKeepsCallOk(s, a);
      } else if ByWaiter(a) {
        WaiterKeepsCallOk(s, a);
      } else {
        CallerKeepsCallOk(s, a);
      }
      StepKeepsMutex(s, a);
      var t := Do(s, a);
      var c, was := t.calls[a.i], s.calls[a.i];
      if && t.mutex == s.mutex
         && CallerHoldsMutex(c) == CallerHoldsMutex(was) && WorkerHoldsMutex(c) == WorkerHoldsMutex(was)
      {
        LocalStep(s, a.i, c);
        assert t == s.(calls := s.calls[a.i := c]);
      } else {
        MutexStep(s, a.i, c, t.mutex);
        assert t == s.(mutex := t.mutex, calls := s.calls[a.i := c]);
      }
    }
  }

  lemma {:induction false} LeadsKeepsInv<V>(s: State<V>, trace: seq<Action<V>>, t: State<V>)
    requires Inv(s) && Leads(s, trace, t)
    ensures Inv(t) && |t.calls| == |s.calls|
    decreases |trace|
  {
    if trace != [] {
      StepKeepsInv(s, trace[0]);
      LeadsKeepsInv(Do(s, trace[0]), trace[1..], t);
    }
  }

  // ---- What it guarantees

  /** The actions of a worker that go through its pointers into the caller's frame. */
  ghost predicate TouchesFrame<V>(a: Action<V>) {
    a.PassResult? || a.Notify?
  }

  /** A worker writes `out` or signals the condition variable only while the caller that owns them has not returned. */
  lemma FrameAlive<V>(s: State<V>, trace: seq<Action<V>>, t: State<V>, a: Action<V>)
    requires Initial(s) && Leads(s, trace, t) && Enabled(t, a) && TouchesFrame(a)
    ensures !Late(t.calls[a.i])
  {
    InitialInv(s);
    LeadsKeepsInv(s, trace, t);
    assert CallOk(t.calls[a.i]);
  }

  /** A call whose ticket is cleared keeps its `out`, and all of its caller's side once it has returned. */
  ghost predicate KeepsLate<V>(s: State<V>, t: State<V>, i: nat) {
    && i < |s.calls| && i < |t.calls| && t.calls[i].out == s.calls[i].out && Late(t.calls[i])
    && t.calls[i].passed == s.calls[i].passed
    && (s.calls[i].caller.Returned? ==> t.calls[i].caller == s.calls[i].caller)
  }

  lemma OtherLateStep<V>(s: State<V>, a: Action<V>, i: nat)
    requires Inv(s) && Enabled(s, a) && i < |s.calls| && Late(s.calls[i]) && a.i != i
    ensures KeepsLate(s, Do(s, a), i)
  {
    assert i < |Do(s, a).calls| && Do(s, a).calls[i] == s.calls[i];
  }

  lemma LateStep<V>(s: State<V>, a: Action<V>, i: nat)
    requires Inv(s) && Enabled(s, a) && i < |s.calls| && Late(s.calls[i])
    ensures KeepsLate(s, Do(s, a), i)
    ensures a.PassResult? ==> a.i != i
  {
    assert CallOk(s.calls[i]);
    if a.i != i {
      OtherLateStep(s, a, i);
    }
  }

  /** Once the ticket is cleared no action changes `out`: the unlocked reads race with no write. */
  lemma UnlockedReadsAreStable<V>(s: State<V>, trace: seq<Action<V>>, t: State<V>, a: Action<V>, i: nat)
    requires Initial(s) && Leads(s, trace, t) && Enabled(t, a)
    requires i < |t.calls| && Late(t.calls[i])
    ensures i < |Do(t, a).calls| && Do(t, a).calls[i].out == t.calls[i].out && Late(Do(t, a).calls[i])
    ensures a.PassResult? ==> a.i != i
  {
    InitialInv(s);
    LeadsKeepsInv(s, trace, t);
    LateStep(t, a, i);
  }

  /** No two threads are ever inside the locked sections. */
  lemma MutualExclusion<V>(s: State<V>, trace: seq<Action<V>>, t: State<V>, i: nat, j: nat)
    requires Initial(s) && Leads(s, trace, t) && i < |t.calls| && j < |t.calls|
    ensures CallerHoldsMutex(t.calls[i]) && CallerHoldsMutex(t.calls[j]) ==> i == j
    ensures WorkerHoldsMutex(t.calls[i]) && WorkerHoldsMutex(t.calls[j]) ==> i == j
    ensures !(CallerHoldsMutex(t.calls[i]) && WorkerHoldsMutex(t.calls[j]))
  {
    InitialInv(s);
    LeadsKeepsInv(s, trace, t);
  }

  /**
   * Each result is passed or discarded, once, and a call that returns something returns its own result; it returns
   * nothing only if it was allowed to time out, and then its result never reaches it.
   */
  lemma ResultsExactlyOnce<V>(s: State<V>, trace: seq<Action<V>>, t: State<V>, i: nat)
    requires Initial(s) && Leads(s, trace, t) && i < |t.calls|
    ensures var c := t.calls[i];
            && c.passed + c.discarded <= 1
            && (c.worker.Done? ==> c.passed + c.discarded == 1)
            && (c.caller.Returned? && c.caller.result.Some? ==> c.caller.result == c.own && c.passed == 1)
            && (c.caller.Returned? && c.caller.result.None? ==> c.timeoutSecs != 0 && c.passed == 0)
            && (c.caller.Returned? && c.worker.Done? ==> (c.caller.result.Some? <==> c.worker.passed))
  {
    InitialInv(s);
    LeadsKeepsInv(s, trace, t);
    assert CallOk(t.calls[i]);
  }

  /** No wake-up is lost: a caller still waiting although its result is there has been, or is just being, signalled. */
  lemma NoLostWakeup<V>(s: State<V>, trace: seq<Action<V>>, t: State<V>, i: nat)
    requires Initial(s) && Leads(s, trace, t) && i < |t.calls|
    requires t.calls[i].caller.Waiting? && t.calls[i].worker.Done?
    ensures t.calls[i].out.Some? && t.calls[i].signalled
    ensures t.calls[i].out == t.calls[i].own
  {
    InitialInv(s);
    LeadsKeepsInv(s, trace, t);
    assert CallOk(t.calls[i]);
  }

  /** Once a call has returned, nothing that happens later changes what it returned or its abandoned frame. */
  lemma {:induction false} ReturnIsFinal<V>(s: State<V>, trace: seq<Action<V>>, t: State<V>, i: nat)
    requires Inv(s) && Leads(s, trace, t) && i < |s.calls| && s.calls[i].caller.Returned?
    ensures i < |t.calls| && t.calls[i].caller == s.calls[i].caller && t.calls[i].out == s.calls[i].out
    ensures t.calls[i].passed == s.calls[i].passed
    decreases |trace|
  {
    if trace != [] {
      LateStep(s, trace[0], i);
      StepKeepsInv(s, trace[0]);
      ReturnIsFinal(Do(s, trace[0]), trace[1..], t, i);
    }
  }

  // ---- Progress

  /** A wake-up that nobody asked for: neither a signal nor a time-out. */
  predicate Spurious<V>(s: State<V>, a: Action<V>)
    requires Enabled(s, a)
  {
    a.Wake? && !a.timedOut && !s.calls[a.i].signalled
  }

  predicate Finished<V>(c: Call<V>) {
    c.caller.Returned? && c.worker.Done?
  }

  /** What the holder of the mutex does next. */
  function HolderAction<V>(s: State<V>): Action<V>
    requires s.mutex.Some? && s.mutex.value.call < |s.calls|
  {
    var i := s.mutex.value.call;
    var c := s.calls[i];
    if s.mutex.value.Caller? then
      if c.caller.TakingTicket? then TakeTicket(i)
      else if c.caller.Checking? then CheckOut(i)
      else if c.caller.Woken? then RecheckOut(i)
      else ClearTicket(i)
    else
      if c.worker.Looking? then FindTicket(i)
      else if c.worker.Passing? then PassResult(i)
      else if c.worker.Notifying? then Notify(i)
      else Discard(i)
  }

  /** What an unfinished call can do when the mutex is free; `v` is what its function would return. */
  function NextAction<V>(c: Call<V>, i: nat, v: V): Action<V> {
    if c.worker.Queued? then Compute(i, v)
    else if c.worker.HasResult? then LockForResult(i)
    else if c.caller.NotStarted? then LockForTicket(i)
    else if c.caller.Dispatching? then EnterDispatch(i)
    else if c.caller.InDispatch? then LeaveDispatch(i)
    else if c.caller.Dispatched? then LockForOut(i)
    else if c.caller.Waiting? then Wake(i, false)
    else if c.caller.Testing? then TestOut(i)
    else ReadOut(i)
  }

  /** No deadlock: while some call is unfinished, some action other than a spurious wake-up is possible. */
  lemma NoDeadlock<V>(s: State<V>, trace: seq<Action<V>>, t: State<V>, i: nat, v: V)
    requires Initial(s) && Leads(s, trace, t) && i < |t.calls| && !Finished(t.calls[i])
    ensures exists a :: Enabled(t, a) && !Spurious(t, a)
  {
    InitialInv(s);
    LeadsKeepsInv(s, trace, t);
    if t.mutex.Some? {
      HolderCanGoOn(t);
    } else {
      UnfinishedCanGoOn(t, i, v);
    }
  }

  lemma HolderCanGoOn<V>(s: State<V>)
    requires Inv(s) && s.mutex.Some?
    ensures Enabled(s, HolderAction(s)) && !Spurious(s, HolderAction(s))
  {
    var i := s.mutex.value.call;
    assert CallerHoldsMutex(s.calls[i]) <==> s.mutex == Some(Caller(i));
    assert WorkerHoldsMutex(s.calls[i]) <==> s.mutex == Some(Worker(i));
  }

  lemma UnfinishedCanGoOn<V>(s: State<V>, i: nat, v: V)
    requires Inv(s) && s.mutex.None? && i < |s.calls| && !Finished(s.calls[i])
    ensures Enabled(s, NextAction(s.calls[i], i, v)) && !Spurious(s, NextAction(s.calls[i], i, v))
  {
    assert CallOk(s.calls[i]);
    assert !CallerHoldsMutex(s.calls[i]) && !WorkerHoldsMutex(s.calls[i]);
  }

  /** How far a call is from its end; a wake-up that finds nothing takes it one step back. */
  function CallerRank<V>(c: Call<V>): nat {
    match c.caller
    case NotStarted => 11
    case TakingTicket => 10
    case Dispatching => 9
    case InDispatch => 8
    case Dispatched => 7
    case Checking => 6
    case Waiting => 5
    case Woken(timedOut) => if timedOut || c.signalled then 4 else 6
    case Clearing => 3
    case Testing => 2
    case Reading => 1
    case Returned(_) => 0
  }

  function WorkerRank<V>(c: Call<V>): nat {
    match c.worker
    case NoJob => 6
    case Queued => 5
    case HasResult(_) => 4
    case Looking(_) => 3
    case Passing(_) => 2
    case Notifying => 1
    case Discarding(_) => 1
    case Done(_) => 0
  }

  function Rank<V>(c: Call<V>): nat {
    CallerRank(c) + WorkerRank(c)
  }

  function TotalRank<V>(calls: seq<Call<V>>): nat {
    if calls == [] then 0 else Rank(calls[0]) + TotalRank(calls[1..])
  }

  lemma {:induction false} TotalRankUpdate<V>(calls: seq<Call<V>>, i: nat, c: Call<V>)
    requires i < |calls|
    ensures TotalRank(calls[i := c]) + Rank(calls[i]) == TotalRank(calls) + Rank(c)
  {
    if i == 0 {
      assert calls[0 := c][1..] == calls[1..];
    } else {
      assert calls[i := c][1..] == calls[1..][i - 1 := c];
      TotalRankUpdate(calls[1..], i - 1, c);
    }
  }

  /** One call changes, and comes closer to its end, or one step back by a spurious wake-up. */
  ghost predicate LowersRank<V>(s: State<V>, t: State<V>, i: nat, spurious: bool) {
    && i < |s.calls| == |t.calls| && t.calls == s.calls[i := t.calls[i]]
    && (if spurious then Rank(t.calls[i]) == Rank(s.calls[i]) + 1 else Rank(t.calls[i]) < Rank(s.calls[i]))
  }

  lemma WorkerLowersRank<V>(s: State<V>, a: Action<V>)
    requires Inv(s) && Enabled(s, a) && ByWorker(a)
    ensures LowersRank(s, Do(s, a), a.i, false)
  {
    assert CallerHoldsMutex(s.calls[a.i]) <==> s.mutex == Some(Caller(a.i));
    assert WorkerHoldsMutex(s.calls[a.i]) <==> s.mutex == Some(Worker(a.i));
  }

  lemma WaiterLowersRank<V>(s: State<V>, a: Action<V>)
    requires Inv(s) && Enabled(s, a) && ByWaiter(a)
    ensures LowersRank(s, Do(s, a), a.i, Spurious(s, a))
  {
    assert CallOk(s.calls[a.i]);
  }

  lemma CallerLowersRank<V>(s: State<V>, a: Action<V>)
    requires Inv(s) && Enabled(s, a) && !ByWorker(a) && !ByWaiter(a)
    ensures LowersRank(s, Do(s, a), a.i, false)
  {
    assert CallOk(s.calls[a.i]);
  }

  /** Every action but a spurious wake-up brings its call closer to its end. */
  lemma StepLowersRank<V>(s: State<V>, a: Action<V>)
    requires Inv(s) && Enabled(s, a)
    ensures LowersRank(s, Do(s, a), a.i, Spurious(s, a))
  {
    if ByWorker(a) {
      WorkerLowersRank(s, a);
    } else if ByWaiter(a) {
      WaiterLowersRank(s, a);
    } else {
      CallerLowersRank(s, a);
    }
  }

  function SpuriousIn<V>(s: State<V>, trace: seq<Action<V>>): nat
    decreases |trace|
  {
    if trace == [] || !Enabled(s, trace[0]) then 0
    else (if Spurious(s, trace[0]) then 1 else 0) + SpuriousIn(Do(s, trace[0]), trace[1..])
  }

  /**
   * A run is no longer than the work to do and twice its spurious wake-ups. So a run with finitely many of these ends,
   * and, since there is no deadlock, with every call returned and every worker done.
   */
  lemma {:induction false} RunsAreBounded<V>(s: State<V>, trace: seq<Action<V>>, t: State<V>)
    requires Inv(s) && Leads(s, trace, t)
    ensures |trace| + TotalRank(t.calls) <= TotalRank(s.calls) + 2 * SpuriousIn(s, trace)
    decreases |trace|
  {
    if trace != [] {
      var a, next := trace[0], Do(s, trace[0]);
      StepKeepsInv(s, a);
      StepLowersRank(s, a);
      TotalRankUpdate(s.calls, a.i, next.calls[a.i]);
      RunsAreBounded(next, trace[1..], t);
    }
  }

}
