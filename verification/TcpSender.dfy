/** A TCP sender that starts every session with a header, bounds its unsent bytes, and backs off between connects. */
module TcpSender {
  import opened Wrappers

  datatype State = NotStarted | Disconnected | ConnectPending | ConnectInProgress | NotReady | Ready | Shutdown

  /** The socket; `Opened` by an attempt to connect that has not succeeded. */
  datatype Socket = Closed | Opened | Connected(session: nat)

  /** A connection: the buffers queued on it, and how many of them have had their callback. */
  datatype Session = Session(queued: seq<string>, called: nat)

  const MAX_RECONNECT_DELAY := 60

  datatype Config = Config(header: string, pendingLimit: nat)

  /**
   * The sender's fields, what the IO library still holds for it (timers waiting, connects in flight, a start job,
   * the writes of every session), and a record of what happened: `accepted` are the buffers that were not dropped,
   * `retries` the reconnects scheduled since a connect last succeeded.
   */
  datatype Sender = Sender(
    state: State, reconnectDelay: nat,
    pendingBytes: nat, sentBytes: nat, droppedBytes: nat, failedBytes: nat,
    socket: Socket, sessions: seq<Session>,
    retryWaits: nat, retryAfter: nat, connects: nat, startJobs: nat,
    accepted: seq<string>, retries: nat)

  function Init(): Sender {
    Sender(NotStarted, 1, 0, 0, 0, 0, Closed, [], 0, 0, 0, 0, [], 0)
  }

  function Queued(s: Sender, session: nat, buf: string): Sender
    requires session < |s.sessions|
  {
    var was := s.sessions[session];
    s.(sessions := s.sessions[session := was.(queued := was.queued + [buf])])
  }

  function Sent(s: Sender, config: Config, buf: Option<string>): Sender
    requires s.state.Ready? ==> s.socket.Connected? && s.socket.session < |s.sessions|
  {
    if s.state.Shutdown? || buf.None? || |buf.value| == 0 then s
    else if !s.state.Ready? then s.(droppedBytes := s.droppedBytes + |buf.value|)
    else if s.pendingBytes + |buf.value| > config.pendingLimit then s.(droppedBytes := s.droppedBytes + |buf.value|)
    else
      Queued(s, s.socket.session, buf.value).(pendingBytes := s.pendingBytes + |buf.value|, accepted := s.accepted + [buf.value])
  }

  function Scheduled(s: Sender): Sender {
    if s.state.ConnectPending? || s.state.ConnectInProgress? then s
    else
      var doubled := s.reconnectDelay * 2;
      s.(state := ConnectPending, retryWaits := s.retryWaits + 1, retryAfter := s.reconnectDelay, retries := s.retries + 1,
         reconnectDelay := if doubled > MAX_RECONNECT_DELAY then MAX_RECONNECT_DELAY else doubled)
  }

  function ConnectStarted(s: Sender): Sender {
    if s.state.Shutdown? then s
    else s.(state := ConnectInProgress, connects := s.connects + 1, socket := if s.socket.Closed? then Opened else s.socket)
  }

  /** `expired`: the deadline had really passed, rather than being moved. */
  function DeadlineSeen(s: Sender, expired: bool): Sender {
    if s.state.Shutdown? || s.state.NotReady? || s.state.Ready? || !expired then s else s.(socket := Closed)
  }

  function ConnectEnded(s: Sender, config: Config, ok: bool): Sender {
    if s.state.Shutdown? then s
    else if s.socket.Closed? || !ok then Scheduled(s.(state := Disconnected))
    else
      s.(state := NotReady, reconnectDelay := 1, retries := 0,
         socket := Connected(|s.sessions|), sessions := s.sessions + [Session([config.header], 0)])
  }

  function WriteEnded(s: Sender, ok: bool, transferred: nat): Sender {
    if s.state.Shutdown? then s
    else if !ok then
      Scheduled(s.(pendingBytes := 0, failedBytes := s.failedBytes + transferred, socket := Closed))
    else if s.socket.Closed? then
      Scheduled(s.(pendingBytes := 0, failedBytes := s.failedBytes + transferred))
    else
      s.(state := if s.state.NotReady? then Ready else s.state,
         pendingBytes := if transferred > s.pendingBytes then 0 else s.pendingBytes - transferred,
         sentBytes := s.sentBytes + transferred)
  }

  // ---- Runs

  datatype Event =
    | Start
    | StartJob
    | Send(buf: Option<string>)
    | Retry
    | Deadline(expired: bool)
    | ConnectOutcome(ok: bool)
    | WriteOutcome(session: nat, ok: bool, transferred: nat)   // of the session's oldest write still without callback
    | Report
    | Destroy                                                  // from any thread, at any moment
    | ShutdownJob

  predicate Enabled(s: Sender, e: Event) {
    match e
    case Start => s.state.NotStarted?
    case StartJob => s.startJobs > 0
    case Retry => s.retryWaits > 0
    case ConnectOutcome(_) => s.connects > 0
    case WriteOutcome(k, ok, transferred) =>
      && k < |s.sessions| && s.sessions[k].called < |s.sessions[k].queued|
      && var size := |s.sessions[k].queued[s.sessions[k].called]|;
         if ok then transferred == size else transferred <= size
    case ShutdownJob => s.state.Shutdown?
    case _ => true
  }

  function Called(s: Sender, k: nat): Sender
    requires k < |s.sessions|
  {
    s.(sessions := s.sessions[k := s.sessions[k].(called := s.sessions[k].called + 1)])
  }

  function Step(s: Sender, config: Config, e: Event): Sender
    requires Enabled(s, e) && Inv(s, config)
  {
    match e
    case Start => s.(state := Disconnected, startJobs := s.startJobs + 1)
    case StartJob => ConnectStarted(s.(startJobs := s.startJobs - 1))
    case Send(buf) => Sent(s, config, buf)
    case Retry => ConnectStarted(s.(retryWaits := s.retryWaits - 1))
    case Deadline(expired) => DeadlineSeen(s, expired)
    case ConnectOutcome(ok) => ConnectEnded(s.(connects := s.connects - 1), config, ok)
    case WriteOutcome(k, ok, transferred) => WriteEnded(Called(s, k), ok, transferred)
    case Report => if s.state.Shutdown? then s else s.(sentBytes := 0, droppedBytes := 0, failedBytes := 0)
    case Destroy => s.(state := Shutdown)
    case ShutdownJob => s.(socket := Closed)
  }

  predicate Live(s: Sender) {
    s.state.NotReady? || s.state.Ready?
  }

  /** The header, then whole non-empty buffers. */
  ghost predicate Framed(session: Session, config: Config) {
    && session.queued != [] && session.queued[0] == config.header
    && (forall i :: 1 <= i < |session.queued| ==> session.queued[i] != "")
    && session.called <= |session.queued|
  }

  /** The buffers sent after the headers, session after session. */
  function Payload(sessions: seq<Session>): seq<string> {
    if sessions == [] then []
    else
      var last := sessions[|sessions| - 1];
      Payload(sessions[..|sessions| - 1]) + (if last.queued == [] then [] else last.queued[1..])
  }

  /** The delay after `k` retries in a row: doubled each time, up to the maximum. */
  function Backoff(k: nat): nat {
    if Power(k) > MAX_RECONNECT_DELAY then MAX_RECONNECT_DELAY else Power(k)
  }

  function Power(k: nat): nat {
    if k == 0 then 1 else 2 * Power(k - 1)
  }

  predicate TimersOk(s: Sender) {
    && s.retryWaits == (if s.state.ConnectPending? then 1 else 0)
    && s.connects == (if s.state.ConnectInProgress? then 1 else 0)
    && s.startJobs == (if s.state.Disconnected? then 1 else 0)
  }

  /** Every connection carries the header and then whole buffers; together they carry what was accepted, in order. */
  ghost predicate StreamsOk(sessions: seq<Session>, accepted: seq<string>, config: Config) {
    && (forall k :: 0 <= k < |sessions| ==> Framed(sessions[k], config))
    && Payload(sessions) == accepted
  }

  ghost predicate Inv(s: Sender, config: Config) {
    && StreamsOk(s.sessions, s.accepted, config)
    && (s.state.NotStarted? || s.state.Disconnected? ==> s.sessions == [])
    && (s.socket.Connected? ==> (Live(s) || s.state.Shutdown?) && s.socket.session + 1 == |s.sessions|)
    && (Live(s) ==> s.socket.Connected?)
    && s.pendingBytes <= config.pendingLimit
    && s.reconnectDelay == Backoff(s.retries)
    && (s.state.ConnectPending? ==> s.retries > 0 && s.retryAfter == Backoff(s.retries - 1))
    && (!s.state.Shutdown? ==> TimersOk(s))
  }

  lemma InitInv(config: Config)
    ensures Inv(Init(), config)
  {
    assert Power(0) == 1;
  }

  lemma BackoffNext(k: nat)
    ensures Backoff(k + 1) == if Backoff(k) * 2 > MAX_RECONNECT_DELAY then MAX_RECONNECT_DELAY else Backoff(k) * 2
  {
    assert Power(k + 1) == 2 * Power(k);
  }

  lemma PayloadQueued(sessions: seq<Session>, buf: string)
    requires sessions != [] && sessions[|sessions| - 1].queued != []
    ensures var last := sessions[|sessions| - 1];
            Payload(sessions[|sessions| - 1 := last.(queued := last.queued + [buf])]) == Payload(sessions) + [buf]
  {
    var n, last := |sessions| - 1, sessions[|sessions| - 1];
    var after := sessions[n := last.(queued := last.queued + [buf])];
    assert after[..n] == sessions[..n];
    assert (last.queued + [buf])[1..] == last.queued[1..] + [buf];
    assert Payload(sessions[..n]) + (last.queued[1..] + [buf]) == Payload(sessions[..n]) + last.queued[1..] + [buf];
  }

  lemma PayloadNewSession(sessions: seq<Session>, header: string)
    ensures Payload(sessions + [Session([header], 0)]) == Payload(sessions)
  {
    var after := sessions + [Session([header], 0)];
    assert after[..|after| - 1] == sessions;
    assert [header][1..] == [];
    assert Payload(sessions) + [] == Payload(sessions);
  }

  lemma {:induction false} PayloadCalled(sessions: seq<Session>, k: nat, called: nat)
    requires k < |sessions|
    ensures Payload(sessions[k := sessions[k].(called := called)]) == Payload(sessions)
  {
    var n := |sessions| - 1;
    var after := sessions[k := sessions[k].(called := called)];
    if k < n {
      assert after[..n] == sessions[..n][k := sessions[..n][k].(called := called)];
      PayloadCalled(sessions[..n], k, called);
    } else {
      assert after[..n] == sessions[..n];
    }
  }

  lemma QueuedKeepsStreams(sessions: seq<Session>, accepted: seq<string>, config: Config, buf: string)
    requires StreamsOk(sessions, accepted, config) && sessions != [] && buf != ""
    ensures var last := sessions[|sessions| - 1];
            StreamsOk(sessions[|sessions| - 1 := last.(queued := last.queued + [buf])], accepted + [buf], config)
  {
    assert Framed(sessions[|sessions| - 1], config);
    PayloadQueued(sessions, buf);
  }

  lemma NewKeepsStreams(sessions: seq<Session>, accepted: seq<string>, config: Config)
    requires StreamsOk(sessions, accepted, config)
    ensures StreamsOk(sessions + [Session([config.header], 0)], accepted, config)
  {
    PayloadNewSession(sessions, config.header);
  }

  lemma CalledKeepsStreams(sessions: seq<Session>, accepted: seq<string>, config: Config, k: nat)
    requires StreamsOk(sessions, accepted, config) && k < |sessions| && sessions[k].called < |sessions[k].queued|
    ensures StreamsOk(sessions[k := sessions[k].(called := sessions[k].called + 1)], accepted, config)
  {
    PayloadCalled(sessions, k, sessions[k].called + 1);
    assert Framed(sessions[k], config);
  }

  lemma SentKeepsInv(s: Sender, config: Config, buf: Option<string>)
    requires Inv(s, config)
    ensures Inv(Sent(s, config, buf), config)
  {
    if s.state.Ready? && buf.Some? && buf.value != "" {
      QueuedKeepsStreams(s.sessions, s.accepted, config, buf.value);
    }
  }

  /** What holds when a reconnect is about to be scheduled, or is already under way. */
  ghost predicate BeforeSchedule(s: Sender, config: Config) {
    && StreamsOk(s.sessions, s.accepted, config)
    && !s.socket.Connected? && !s.state.Shutdown? && s.pendingBytes <= config.pendingLimit
    && s.reconnectDelay == Backoff(s.retries)
    && (s.state.ConnectPending? ==> s.retries > 0 && s.retryAfter == Backoff(s.retries - 1))
    && s.retryWaits == (if s.state.ConnectPending? then 1 else 0)
    && s.connects == (if s.state.ConnectInProgress? then 1 else 0)
    && s.startJobs == 0
  }

  lemma ScheduledKeepsInv(s: Sender, config: Config)
    requires BeforeSchedule(s, config)
    ensures Inv(Scheduled(s), config)
  {
    BackoffNext(s.retries);
  }

  lemma OutcomeKeepsInv(s: Sender, config: Config, ok: bool)
    requires Inv(s, config) && s.connects > 0
    ensures Inv(ConnectEnded(s.(connects := s.connects - 1), config, ok), config)
  {
    var was := s.(connects := s.connects - 1);
    if s.state.Shutdown? {
    } else if s.socket.Closed? || !ok {
      ScheduledKeepsInv(was.(state := Disconnected), config);
    } else {
      NewKeepsStreams(s.sessions, s.accepted, config);
      assert Power(0) == 1;
    }
  }

  lemma CalledKeepsInv(s: Sender, config: Config, k: nat)
    requires Inv(s, config) && k < |s.sessions| && s.sessions[k].called < |s.sessions[k].queued|
    ensures Inv(Called(s, k), config)
  {
    CalledKeepsStreams(s.sessions, s.accepted, config, k);
  }

  lemma FailedKeepsInv(s: Sender, config: Config, transferred: nat)
    requires Inv(s, config) && !s.state.Shutdown? && s.sessions != []
    ensures Inv(Scheduled(s.(pendingBytes := 0, failedBytes := s.failedBytes + transferred, socket := Closed)), config)
  {
    ScheduledKeepsInv(s.(pendingBytes := 0, failedBytes := s.failedBytes + transferred, socket := Closed), config);
  }

  lemma WriteKeepsInv(s: Sender, config: Config, k: nat, ok: bool, transferred: nat)
    requires Inv(s, config) && Enabled(s, WriteOutcome(k, ok, transferred))
    ensures Inv(WriteEnded(Called(s, k), ok, transferred), config)
  {
    CalledKeepsInv(s, config, k);
    if !s.state.Shutdown? && (!ok || s.socket.Closed?) {
      var called := Called(s, k);
      FailedKeepsInv(called, config, transferred);
      assert s.socket.Closed? ==> called.(socket := Closed) == called;
    }
  }

  lemma StepKeepsInv(s: Sender, config: Config, e: Event)
    requires Inv(s, config) && Enabled(s, e)
    ensures Inv(Step(s, config, e), config)
  {
    match e {
      case Send(buf) => SentKeepsInv(s, config, buf);
      case ConnectOutcome(ok) => OutcomeKeepsInv(s, config, ok);
      case WriteOutcome(k, ok, transferred) => WriteKeepsInv(s, config, k, ok, transferred);
      case _ =>
    }
  }

  /** `t` can be reached from `s` by `events`. */
  ghost predicate Leads(s: Sender, config: Config, events: seq<Event>, t: Sender)
    requires Inv(s, config)
    decreases |events|
  {
    if events == [] then s == t
    else
      && Enabled(s, events[0])
      && (StepKeepsInv(s, config, events[0]); Leads(Step(s, config, events[0]), config, events[1..], t))
  }

  lemma {:induction false} LeadsKeepsInv(s: Sender, config: Config, events: seq<Event>, t: Sender)
    requires Inv(s, config) && Leads(s, config, events, t)
    ensures Inv(t, config)
    decreases |events|
  {
    if events != [] {
      StepKeepsInv(s, config, events[0]);
      LeadsKeepsInv(Step(s, config, events[0]), config, events[1..], t);
    }
  }

  ghost predicate Reachable(config: Config, events: seq<Event>, t: Sender) {
    InitInv(config);
    Leads(Init(), config, events, t)
  }

  lemma ReachableInv(config: Config, events: seq<Event>, t: Sender)
    requires Reachable(config, events, t)
    ensures Inv(t, config)
  {
    InitInv(config);
    LeadsKeepsInv(Init(), config, events, t);
  }

  // ---- What every run guarantees

  /** Header first, whole buffers, in order, even with late callbacks; data is accepted only behind a queued header. */
  lemma SessionsAreFramed(config: Config, events: seq<Event>, t: Sender)
    requires Reachable(config, events, t)
    ensures StreamsOk(t.sessions, t.accepted, config)
    ensures t.state.Ready? ==>
              && t.socket.Connected? && t.socket.session < |t.sessions|
              && t.sessions[t.socket.session].queued != []
              && t.sessions[t.socket.session].queued[0] == config.header
  {
    ReachableInv(config, events, t);
    if t.state.Ready? {
      assert Framed(t.sessions[t.socket.session], config);
    }
  }

  /** One timer, connect or start job, exactly in the state that waits for it; bounded bytes; bounded backoff. */
  lemma SenderIsBounded(config: Config, events: seq<Event>, t: Sender)
    requires Reachable(config, events, t)
    ensures t.pendingBytes <= config.pendingLimit
    ensures 1 <= t.reconnectDelay == (if Power(t.retries) > 60 then 60 else Power(t.retries))
    ensures t.state.ConnectPending? ==> t.retries > 0 && t.retryAfter == Backoff(t.retries - 1)
    ensures !t.state.Shutdown? ==> TimersOk(t) && (Live(t) <==> t.socket.Connected?)
  {
    ReachableInv(config, events, t);
    PowerPositive(t.retries);
  }

  lemma {:induction false} PowerPositive(k: nat)
    ensures Power(k) >= 1
  {
    if k > 0 {
      PowerPositive(k - 1);
    }
  }

  /** In every reachable state a buffer is accepted exactly if the session is ready and has room for it. */
  lemma SendAccepts(config: Config, events: seq<Event>, t: Sender, buf: string)
    requires Reachable(config, events, t) && buf != ""
    ensures Inv(t, config)
    ensures var u, fits := Step(t, config, Send(Some(buf))), t.state.Ready? && t.pendingBytes + |buf| <= config.pendingLimit;
            && (u.accepted == t.accepted + [buf] <==> fits)
            && (fits ==> t.socket.Connected? && t.socket.session < |t.sessions| == |u.sessions|)
            && (fits ==> u.sessions[t.socket.session].queued == t.sessions[t.socket.session].queued + [buf])
            && (fits ==> u.pendingBytes == t.pendingBytes + |buf| && u.droppedBytes == t.droppedBytes)
            && (!fits ==> u == t.(droppedBytes := u.droppedBytes))
            && (!fits ==> u.droppedBytes == if t.state.Shutdown? then t.droppedBytes else t.droppedBytes + |buf|)
  {
    ReachableInv(config, events, t);
    assert |t.accepted + [buf]| == |t.accepted| + 1;
  }

  /** A connect opens a session exactly if it succeeded before its deadline; otherwise one retry is waiting. */
  lemma ConnectOpens(config: Config, events: seq<Event>, t: Sender, ok: bool)
    requires Reachable(config, events, t) && t.connects > 0 && !t.state.Shutdown?
    ensures Inv(t, config)
    ensures var u := Step(t, config, ConnectOutcome(ok));
            if ok && !t.socket.Closed? then
              && u.state.NotReady? && u.socket == Connected(|t.sessions|)
              && u.sessions == t.sessions + [Session([config.header], 0)] && u.reconnectDelay == 1
            else
              && u.state.ConnectPending? && u.retryWaits == 1 && u.connects == 0 && u.sessions == t.sessions
              && u.retryAfter == t.reconnectDelay
              && u.reconnectDelay == if t.reconnectDelay <= 30 then 2 * t.reconnectDelay else 60
  {
    ReachableInv(config, events, t);
  }

  /**
   * A failed write, or any on a closed socket, ends the session and counts as failed; a good one counts as sent, and the
   * session is ready from then on.
   */
  lemma WriteCounts(config: Config, events: seq<Event>, t: Sender, k: nat, ok: bool, n: nat)
    requires Reachable(config, events, t) && Enabled(t, WriteOutcome(k, ok, n)) && !t.state.Shutdown?
    ensures Inv(t, config)
    ensures var u := Step(t, config, WriteOutcome(k, ok, n));
            && u.sentBytes + u.failedBytes == t.sentBytes + t.failedBytes + n
            && u.failedBytes == (if ok && !t.socket.Closed? then t.failedBytes else t.failedBytes + n)
            && u.droppedBytes == t.droppedBytes && u.accepted == t.accepted
            && (ok && !t.socket.Closed? ==>
                  && u.socket == t.socket && (Live(t) ==> u.state.Ready?)
                  && u.pendingBytes == if n < t.pendingBytes then t.pendingBytes - n else 0)
            && (!ok || t.socket.Closed? ==>
                  && u.socket.Closed? && u.pendingBytes == 0
                  && (if t.state.ConnectInProgress? then u.state == t.state && u.connects == 1
                      else u.state.ConnectPending? && u.retryWaits == 1))
  {
    ReachableInv(config, events, t);
    WriteKeepsInv(t, config, k, ok, n);
  }

  /** A deadline that was moved, or that comes while a session is live, changes nothing; a report resets the counters. */
  lemma QuietEvents(config: Config, events: seq<Event>, t: Sender, expired: bool)
    requires Reachable(config, events, t)
    ensures Inv(t, config)
    ensures !expired || Live(t) ==> Step(t, config, Deadline(expired)) == t
    ensures Step(t, config, Send(None)) == t && Step(t, config, Send(Some(""))) == t
    ensures Step(t, config, Report)
            == if t.state.Shutdown? then t else t.(sentBytes := 0, droppedBytes := 0, failedBytes := 0)
  {
    ReachableInv(config, events, t);
  }

  /** A connect is only ever started on a socket that no session is using. */
  lemma ConnectsOnFreeSocket(config: Config, events: seq<Event>, t: Sender, e: Event)
    requires Reachable(config, events, t) && Enabled(t, e)
    ensures (ReachableInv(config, events, t); Step(t, config, e).connects > t.connects) ==> !t.socket.Connected?
  {
    ReachableInv(config, events, t);
  }

  /** A connect whose deadline has passed is retried, even if it turns out to have succeeded after all. */
  lemma DeadlineForcesRetry(config: Config, events: seq<Event>, t: Sender, ok: bool)
    requires Reachable(config, events, t) && t.state.ConnectInProgress?
    ensures Inv(t, config) && Inv(Step(t, config, Deadline(true)), config)
    ensures Enabled(Step(t, config, Deadline(true)), ConnectOutcome(ok))
    ensures var after := Step(Step(t, config, Deadline(true)), config, ConnectOutcome(ok));
            && after.state.ConnectPending? && after.retryWaits == 1
            && after.sessions == t.sessions && after.retryAfter == Backoff(t.retries)
  {
    ReachableInv(config, events, t);
    StepKeepsInv(t, config, Deadline(true));
  }

  // ---- When the pending count is exact

  function Total(bufs: seq<string>): nat {
    if bufs == [] then 0 else |bufs[0]| + Total(bufs[1..])
  }

  /** The bytes queued on a connection whose writes have had no callback yet. */
  function InFlight(session: Session): nat
    requires session.called <= |session.queued|
  {
    Total(session.queued[session.called..])
  }

  /** The pending count is the data in flight on the live session, and the header is not counted in it. */
  ghost predicate Exact(s: Sender, config: Config)
    requires Inv(s, config)
  {
    match s.state
    case Ready =>
      var live := s.sessions[s.socket.session];
      assert Framed(live, config);
      live.called > 0 && s.pendingBytes == InFlight(live)
    case NotReady =>
      var live := s.sessions[s.socket.session];
      live.called == 0 && |live.queued| == 1 && s.pendingBytes == 0
    case Shutdown => true
    case _ => s.pendingBytes == 0
  }

  /** A write of an earlier session reports success while a later session is live, and there is a count to spoil. */
  predicate Late(s: Sender, e: Event)
  {
    && e.WriteOutcome? && e.ok && Live(s) && s.socket.Connected? && e.session != s.socket.session
    && (s.state.NotReady? || (e.transferred > 0 && s.pendingBytes > 0))
  }

  lemma {:induction false} TotalSnoc(bufs: seq<string>, buf: string)
    ensures Total(bufs + [buf]) == Total(bufs) + |buf|
  {
    if bufs == [] {
      assert [] + [buf] == [buf];
      assert Total([]) == 0;
    } else {
      assert (bufs + [buf])[1..] == bufs[1..] + [buf];
      TotalSnoc(bufs[1..], buf);
    }
  }

  lemma InFlightQueued(session: Session, buf: string)
    requires session.called <= |session.queued|
    ensures InFlight(session.(queued := session.queued + [buf])) == InFlight(session) + |buf|
  {
    assert (session.queued + [buf])[session.called..] == session.queued[session.called..] + [buf];
    TotalSnoc(session.queued[session.called..], buf);
  }

  lemma InFlightCalled(session: Session)
    requires session.called < |session.queued|
    ensures InFlight(session.(called := session.called + 1)) + |session.queued[session.called]| == InFlight(session)
  {
    assert session.queued[session.called..][1..] == session.queued[session.called + 1..];
  }

  lemma SendExact(s: Sender, config: Config, buf: Option<string>)
    requires Inv(s, config) && Exact(s, config)
    ensures Inv(Sent(s, config, buf), config) && Exact(Sent(s, config, buf), config)
  {
    SentKeepsInv(s, config, buf);
    if s.state.Ready? && buf.Some? {
      var live := s.sessions[s.socket.session];
      assert Framed(live, config);
      InFlightQueued(live, buf.value);
    }
  }

  lemma WriteExact(s: Sender, config: Config, k: nat, transferred: nat)
    requires Inv(s, config) && Exact(s, config) && Live(s) && Enabled(s, WriteOutcome(k, true, transferred))
    ensures var t := WriteEnded(Called(s, k), true, transferred);
            Inv(t, config) && (Exact(t, config) <==> !Late(s, WriteOutcome(k, true, transferred)))
  {
    WriteKeepsInv(s, config, k, true, transferred);
    var live := s.sessions[s.socket.session];
    assert Framed(live, config);
    if k == s.socket.session {
      InFlightCalled(live);
      if s.state.NotReady? {
        assert live.queued[1..] == [];
      }
    }
  }

  /** The count stays exact in every step but one: when an earlier session's write succeeds late. */
  lemma StaysExact(s: Sender, config: Config, e: Event)
    requires Inv(s, config) && Exact(s, config) && Enabled(s, e)
    ensures Inv(Step(s, config, e), config)
    ensures Exact(Step(s, config, e), config) <==> !Late(s, e)
  {
    StepKeepsInv(s, config, e);
    match e {
      case Send(buf) => SendExact(s, config, buf);
      case WriteOutcome(k, ok, transferred) =>
        if Live(s) && ok {
          WriteExact(s, config, k, transferred);
        }
      case _ =>
    }
  }

  /** The writes of every session, or of every session but the last, have had their callbacks. */
  predicate AllCalled(sessions: seq<Session>, count: nat) {
    count <= |sessions| && forall k :: 0 <= k < count ==> sessions[k].called == |sessions[k].queued|
  }

  /** In this run a connect succeeds only when the writes of the sessions before have all had their callbacks. */
  ghost predicate DrainsFirst(s: Sender, config: Config, events: seq<Event>)
    requires Inv(s, config)
    decreases |events|
  {
    events == [] ||
      (Enabled(s, events[0]) ==>
         && (events[0] == ConnectOutcome(true) ==> AllCalled(s.sessions, |s.sessions|))
         && (StepKeepsInv(s, config, events[0]); DrainsFirst(Step(s, config, events[0]), config, events[1..])))
  }

  /** The number of sessions before the last. */
  function Earlier(s: Sender): nat {
    if s.sessions == [] then 0 else |s.sessions| - 1
  }

  lemma DrainedIsNotLate(s: Sender, config: Config, e: Event)
    requires Inv(s, config) && Enabled(s, e) && AllCalled(s.sessions, Earlier(s))
    ensures !Late(s, e)
  {
  }

  lemma StepDrained(s: Sender, config: Config, e: Event)
    requires Inv(s, config) && Enabled(s, e) && AllCalled(s.sessions, Earlier(s))
    requires e == ConnectOutcome(true) ==> AllCalled(s.sessions, |s.sessions|)
    ensures AllCalled(Step(s, config, e).sessions, Earlier(Step(s, config, e)))
  {
    match e {
      case WriteOutcome(k, ok, transferred) =>
        assert Step(s, config, e).sessions == Called(s, k).sessions;
      case _ =>
    }
  }

  /** If old callbacks drain before the next connect, the pending count is exact throughout. */
  lemma {:induction false} DrainedRunsAreExact(s: Sender, config: Config, events: seq<Event>, t: Sender)
    requires Inv(s, config) && Exact(s, config) && AllCalled(s.sessions, Earlier(s))
    requires Leads(s, config, events, t) && DrainsFirst(s, config, events)
    ensures Inv(t, config) && Exact(t, config)
    decreases |events|
  {
    if events != [] {
      DrainedIsNotLate(s, config, events[0]);
      StepDrained(s, config, events[0]);
      StaysExact(s, config, events[0]);
      DrainedRunsAreExact(Step(s, config, events[0]), config, events[1..], t);
    }
  }

  // ---- How much can be in flight

  /**
   * The bytes by which the pending count can fall short of the data in flight: those of the writes of earlier sessions
   * that succeed while a later one is live, and its header if such a write makes it ready before the header is out.
   */
  function LateAfter(s: Sender, config: Config, e: Event, late: nat): nat {
    match e
    case ConnectOutcome(ok) => if ok then 0 else late
    case WriteOutcome(k, ok, transferred) =>
      if ok && Live(s) && s.socket.Connected? && k != s.socket.session then
        late + transferred + (if s.state.NotReady? then |config.header| else 0)
      else late
    case _ => late
  }

  ghost function LateInRun(s: Sender, config: Config, events: seq<Event>, late: nat): nat
    requires Inv(s, config)
    decreases |events|
  {
    if events == [] || !Enabled(s, events[0]) then late
    else
      StepKeepsInv(s, config, events[0]);
      LateInRun(Step(s, config, events[0]), config, events[1..], LateAfter(s, config, events[0], late))
  }

  /** The data in flight is covered by the pending count and the late bytes. */
  ghost predicate Covered(s: Sender, config: Config, late: nat)
    requires Inv(s, config)
  {
    match s.state
    case Ready =>
      var live := s.sessions[s.socket.session];
      assert Framed(live, config);
      InFlight(live) <= s.pendingBytes + late
    case NotReady =>
      s.sessions[s.socket.session] == Session([config.header], 0) && s.pendingBytes == 0
    case Shutdown => true
    case _ => s.pendingBytes == 0
  }

  lemma SendCovered(s: Sender, config: Config, buf: Option<string>, late: nat)
    requires Inv(s, config) && Covered(s, config, late)
    ensures Inv(Sent(s, config, buf), config) && Covered(Sent(s, config, buf), config, late)
  {
    SentKeepsInv(s, config, buf);
    if s.state.Ready? && buf.Some? {
      var live := s.sessions[s.socket.session];
      assert Framed(live, config);
      InFlightQueued(live, buf.value);
    }
  }

  lemma WriteCovered(s: Sender, config: Config, k: nat, transferred: nat, late: nat)
    requires Inv(s, config) && Covered(s, config, late) && Live(s) && Enabled(s, WriteOutcome(k, true, transferred))
    ensures var t := WriteEnded(Called(s, k), true, transferred);
            Inv(t, config) && Covered(t, config, LateAfter(s, config, WriteOutcome(k, true, transferred), late))
  {
    WriteKeepsInv(s, config, k, true, transferred);
    var live := s.sessions[s.socket.session];
    assert Framed(live, config);
    if k == s.socket.session {
      InFlightCalled(live);
    }
    if s.state.NotReady? {
      assert live.queued[live.called..] == [config.header];
      assert Total([config.header]) == |config.header| + Total([]);
    }
  }

  lemma StepCovered(s: Sender, config: Config, e: Event, late: nat)
    requires Inv(s, config) && Covered(s, config, late) && Enabled(s, e)
    ensures Inv(Step(s, config, e), config) && Covered(Step(s, config, e), config, LateAfter(s, config, e, late))
  {
    StepKeepsInv(s, config, e);
    match e {
      case Send(buf) => SendCovered(s, config, buf, late);
      case WriteOutcome(k, ok, transferred) =>
        if Live(s) && ok {
          WriteCovered(s, config, k, transferred, late);
        }
      case _ =>
    }
  }

  lemma {:induction false} LeadsCovered(s: Sender, config: Config, events: seq<Event>, t: Sender, late: nat)
    requires Inv(s, config) && Covered(s, config, late) && Leads(s, config, events, t)
    ensures Inv(t, config) && Covered(t, config, LateInRun(s, config, events, late))
    decreases |events|
  {
    if events != [] {
      StepCovered(s, config, events[0], late);
      LeadsCovered(Step(s, config, events[0]), config, events[1..], t, LateAfter(s, config, events[0], late));
    }
  }

  /** A ready session never holds more unsent bytes than the limit and the late bytes since it was opened. */
  lemma InFlightIsBounded(config: Config, events: seq<Event>, t: Sender)
    requires Reachable(config, events, t) && t.state.Ready?
    ensures Inv(Init(), config) && Inv(t, config)
    ensures var live := t.sessions[t.socket.session];
            && live.called <= |live.queued|
            && InFlight(live) <= config.pendingLimit + LateInRun(Init(), config, events, 0)
  {
    InitInv(config);
    LeadsCovered(Init(), config, events, t, 0);
    assert Framed(t.sessions[t.socket.session], config);
  }

  lemma {:induction false} LeadsThen(s: Sender, config: Config, events: seq<Event>, t: Sender, e: Event)
    requires Inv(s, config) && Leads(s, config, events, t) && Inv(t, config) && Enabled(t, e)
    ensures Leads(s, config, events + [e], Step(t, config, e))
    decreases |events|
  {
    if events == [] {
      assert [] + [e] == [e];
      StepKeepsInv(s, config, e);
      assert Leads(Step(s, config, e), config, [], Step(t, config, e));
    } else {
      assert (events + [e])[0] == events[0] && (events + [e])[1..] == events[1..] + [e];
      StepKeepsInv(s, config, events[0]);
      LeadsThen(Step(s, config, events[0]), config, events[1..], t, e);
    }
  }

  lemma ReachableThen(config: Config, events: seq<Event>, t: Sender, e: Event)
    requires Reachable(config, events, t) && Enabled(t, e)
    ensures Inv(t, config) && Reachable(config, events + [e], Step(t, config, e))
  {
    ReachableInv(config, events, t);
    InitInv(config);
    LeadsThen(Init(), config, events, t, e);
  }

  lemma Begin(config: Config) returns (events: seq<Event>, t: Sender)
    ensures Reachable(config, events, t) && t == Init()
  {
    events, t := [], Init();
    InitInv(config);
  }

  lemma Connecting(config: Config) returns (events: seq<Event>, t: Sender)
    ensures Reachable(config, events, t)
    ensures t.state.ConnectInProgress? && t.connects == 1 && t.sessions == [] && t.socket == Opened && t.pendingBytes == 0
  {
    events, t := Begin(config);
    events, t := Advance(config, events, t, Start);
    events, t := Advance(config, events, t, StartJob);
  }

  lemma JustConnected(config: Config) returns (events: seq<Event>, t: Sender)
    ensures Reachable(config, events, t)
    ensures t.state.NotReady? && t.socket == Connected(0) && t.sessions == [Session([config.header], 0)]
    ensures t.pendingBytes == 0
  {
    events, t := Connecting(config);
    events, t := Advance(config, events, t, ConnectOutcome(true));
    assert [] + [Session([config.header], 0)] == [Session([config.header], 0)];
  }

  lemma FirstSession(config: Config) returns (events: seq<Event>, t: Sender)
    ensures Reachable(config, events, t)
    ensures t.state.Ready? && t.socket == Connected(0) && t.sessions == [Session([config.header], 1)] && t.pendingBytes == 0
  {
    events, t := JustConnected(config);
    events, t := Advance(config, events, t, WriteOutcome(0, true, |config.header|));
    assert t.sessions[0] == Session([config.header], 1);
  }

  /** A session with header `H` whose two writes are in flight. */
  lemma TwoInFlight(config: Config) returns (events: seq<Event>, t: Sender)
    requires config == Config("H", 10)
    ensures Reachable(config, events, t)
    ensures t.state.Ready? && t.socket == Connected(0) && t.sessions == [Session(["H", "ab", "cd"], 1)] && t.pendingBytes == 4
  {
    events, t := FirstSession(config);
    events, t := Advance(config, events, t, Send(Some("ab")));
    assert ["H"] + ["ab"] == ["H", "ab"];
    assert t.sessions[0].queued == ["H", "ab"];
    events, t := Advance(config, events, t, Send(Some("cd")));
    assert ["H", "ab"] + ["cd"] == ["H", "ab", "cd"];
    assert t.sessions[0].queued == ["H", "ab", "cd"];
  }

  lemma Advance(config: Config, events: seq<Event>, s: Sender, e: Event) returns (longer: seq<Event>, t: Sender)
    requires Reachable(config, events, s) && Enabled(s, e)
    ensures Inv(s, config) && t == Step(s, config, e) && Reachable(config, longer, t)
  {
    ReachableThen(config, events, s, e);
    longer, t := events + [e], Step(s, config, e);
  }

  /** The first write fails, a new connection is made, and the second write reports success after all. */
  lemma LateWrite(config: Config) returns (events: seq<Event>, t: Sender)
    requires config == Config("H", 10)
    ensures Reachable(config, events, t)
    ensures t.state.Ready? && t.socket == Connected(1) && t.pendingBytes == 0
    ensures |t.sessions| == 2 && t.sessions[1] == Session(["H"], 0)
  {
    events, t := TwoInFlight(config);
    events, t := Advance(config, events, t, WriteOutcome(0, false, 0));
    assert t.sessions[0] == Session(["H", "ab", "cd"], 2);
    events, t := Advance(config, events, t, Retry);
    events, t := Advance(config, events, t, ConnectOutcome(true));
    events, t := Advance(config, events, t, WriteOutcome(0, true, 2));
  }

  /** From there, the count ends up at 1 with 2 bytes in flight. */
  lemma LateWriteSpoilsCount(config: Config) returns (events: seq<Event>, t: Sender)
    requires config == Config("H", 10)
    ensures Reachable(config, events, t)
    ensures t.state.Ready? && t.socket == Connected(1) && t.pendingBytes == 1
    ensures |t.sessions| == 2 && t.sessions[1] == Session(["H", "ef"], 1) && InFlight(t.sessions[1]) == 2
  {
    events, t := LateWrite(config);
    events, t := Advance(config, events, t, Send(Some("ef")));
    assert ["H"] + ["ef"] == ["H", "ef"];
    assert t.sessions[1] == Session(["H", "ef"], 0);
    events, t := Advance(config, events, t, WriteOutcome(1, true, 1));
    var live := t.sessions[1];
    assert live.queued[1..] == ["ef"];
    assert Total(["ef"]) == 2 + Total([]);
  }

  /** What the IO library holds for a sender. */
  datatype Io = Io(
    socket: Socket, sessions: seq<Session>, retryWaits: nat, retryAfter: nat, connects: nat, startJobs: nat)

  class MetricsTCPSender {
    const config: Config
    var socketState: State
    var reconnectDelay: nat
    var pendingBytes: nat
    var sentBytes: nat
    var droppedBytes: nat
    var failedBytes: nat
    ghost var accepted: seq<string>
    ghost var retries: nat
    var io: Io

    ghost function View(): Sender
      reads this
    {
      Sender(socketState, reconnectDelay, pendingBytes, sentBytes, droppedBytes, failedBytes,
             io.socket, io.sessions, io.retryWaits, io.retryAfter, io.connects, io.startJobs, accepted, retries)
    }

    ghost predicate Valid()
      reads this
    {
      Inv(View(), config)
    }

    constructor (config: Config)
      ensures this.config == config && View() == Init() && Valid()
    {
      this.config := config;
      socketState, reconnectDelay := NotStarted, 1;
      pendingBytes, sentBytes, droppedBytes, failedBytes := 0, 0, 0, 0;
      accepted, retries := [], 0;
      io := Io(Closed, [], 0, 0, 0, 0);
      new;
      InitInv(config);
    }

    method Start()
      requires Valid() && socketState.NotStarted?
      modifies this
      ensures Valid() && View() == Step(old(View()), config, Event.Start)
    {
      StepKeepsInv(View(), config, Event.Start);
      socketState := Disconnected;
      io := io.(startJobs := io.startJobs + 1);
    }

    method Send(buf: Option<string>)
      requires Valid()
      modifies this
      ensures Valid() && View() == Step(old(View()), config, Event.Send(buf))
    {
      StepKeepsInv(View(), config, Event.Send(buf));
      if socketState.Shutdown? || buf.None? || |buf.value| == 0 {
        return;
      }
      if !socketState.Ready? {
        droppedBytes := droppedBytes + |buf.value|;
        return;
      } else if pendingBytes + |buf.value| > config.pendingLimit {
        droppedBytes := droppedBytes + |buf.value|;
        return;
      }
      pendingBytes := pendingBytes + |buf.value|;
      AsyncWrite(buf.value);
      accepted := accepted + [buf.value];
    }

    method AsyncWrite(bytes: string)
      requires io.socket.Connected? && io.socket.session < |io.sessions|
      modifies this`io
      ensures io == old(io).(sessions := io.sessions)
      ensures View() == Queued(old(View()), old(io).socket.session, bytes)
    {
      var session := io.sessions[io.socket.session];
      io := io.(sessions := io.sessions[io.socket.session := session.(queued := session.queued + [bytes])]);
    }

    method SetStateScheduleConnect()
      modifies this
      ensures View() == Scheduled(old(View()))
    {
      if socketState.ConnectPending? || socketState.ConnectInProgress? {
        return;
      }
      socketState := ConnectPending;
      io := io.(retryWaits := io.retryWaits + 1, retryAfter := reconnectDelay);
      retries := retries + 1;
      reconnectDelay := reconnectDelay * 2;
      if reconnectDelay > MAX_RECONNECT_DELAY {
        reconnectDelay := MAX_RECONNECT_DELAY;
      }
    }

    method StartConnect()
      modifies this
      ensures View() == ConnectStarted(old(View()))
    {
      if socketState.Shutdown? {
        return;
      }
      socketState := ConnectInProgress;
      io := io.(connects := io.connects + 1, socket := if io.socket.Closed? then Opened else io.socket);
    }

    method ConnectDeadlineCb(expired: bool)
      modifies this
      ensures View() == DeadlineSeen(old(View()), expired)
    {
      if socketState.Shutdown? || socketState.NotReady? || socketState.Ready? {
        return;
      }
      if expired {
        io := io.(socket := Closed);
      }
    }

    method ConnectOutcomeCb(ok: bool)
      modifies this
      ensures View() == ConnectEnded(old(View()), config, ok)
    {
      if socketState.Shutdown? {
        return;
      }
      if io.socket.Closed? || !ok {
        socketState := Disconnected;
        SetStateScheduleConnect();
        return;
      }
      reconnectDelay := 1;
      socketState := NotReady;
      retries := 0;
      io := io.(socket := Connected(|io.sessions|), sessions := io.sessions + [Session([], 0)]);
      AsyncWrite(config.header);
      assert [] + [config.header] == [config.header];
      assert io.sessions == old(io).sessions + [Session([config.header], 0)];
    }

    method SendCb(ok: bool, transferred: nat)
      modifies this
      ensures View() == WriteEnded(old(View()), ok, transferred)
    {
      if socketState.Shutdown? {
        return;
      }
      if !ok {
        pendingBytes, failedBytes := 0, failedBytes + transferred;
        io := io.(socket := Closed);
        SetStateScheduleConnect();
      } else if io.socket.Closed? {
        pendingBytes, failedBytes := 0, failedBytes + transferred;
        SetStateScheduleConnect();
      } else {
        if socketState.NotReady? {
          socketState := Ready;
        }
        if transferred > pendingBytes {
          pendingBytes := 0;
        } else {
          pendingBytes := pendingBytes - transferred;
        }
        sentBytes := sentBytes + transferred;
      }
    }
  }

}
