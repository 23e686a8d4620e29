/** Gathering datapoints and sending them to the collector in blocks. */
module CollectorWriter {
  import opened Wrappers
  import opened Sequences
  import opened StatsdTagger
  import opened StatsdParser
  import opened AvroEncoder

  datatype Config = Config(chunking: bool, capacity: nat, codec: Codec, stod: Stod)

  /** `sent` are the buffers passed to the TCP sender; `timer` says that the flush timer is still running. */
  datatype Writer = Writer(datapointCount: nat, containerMap: MetricMap, sent: seq<string>, timer: bool)

  datatype Event = Write(w: AvroEncoder.Write) | Timer(error: bool) | Shutdown

  /** The count is taken to start at 0; the program's constructor leaves it unset. */
  function Open(config: Config): Writer {
    Writer(0, map[], [], config.chunking)
  }

  ghost function Flushed(s: Writer, config: Config): Writer {
    if s.containerMap == map[] then s.(datapointCount := 0)
    else
      var buf := Framed(Block(s.containerMap), config.codec);
      s.(datapointCount := 0, containerMap := map[], sent := s.sent + if buf != "" then [buf] else [])
  }

  ghost function Received(s: Writer, config: Config, w: AvroEncoder.Write): Writer {
    var filled := s.(datapointCount := s.datapointCount + 1, containerMap := Added(s.containerMap, w, config.stod));
    if !config.chunking || filled.datapointCount >= config.capacity then Flushed(filled, config) else filled
  }

  /** Any error of the timer, not only its cancellation, ends the timer loop. */
  ghost function TimerFired(s: Writer, config: Config, error: bool): Writer {
    if error then s.(timer := false)
    else if s.datapointCount > 0 then Flushed(s, config)
    else s
  }

  ghost function Step(s: Writer, config: Config, e: Event): Writer {
    match e
    case Write(w) => Received(s, config, w)
    case Timer(error) => if s.timer then TimerFired(s, config, error) else s
    case Shutdown => Flushed(s, config).(timer := false)
  }

  ghost function Run(config: Config, events: seq<Event>): Writer {
    if events == [] then Open(config)
    else Step(Run(config, events[..|events| - 1]), config, events[|events| - 1])
  }

  function WritesIn(events: seq<Event>): seq<AvroEncoder.Write> {
    if events == [] then []
    else
      var last := events[|events| - 1];
      WritesIn(events[..|events| - 1]) + if last.Write? then [last.w] else []
  }

  // ---- Batches

  /** The most messages a block can hold. */
  function BatchLimit(config: Config): nat {
    if config.chunking && config.capacity > 1 then config.capacity else 1
  }

  function Concat(batches: seq<seq<AvroEncoder.Write>>): seq<AvroEncoder.Write> {
    if batches == [] then [] else Concat(batches[..|batches| - 1]) + batches[|batches| - 1]
  }

  lemma {:induction false} InConcat(batches: seq<seq<AvroEncoder.Write>>, i: nat, w: AvroEncoder.Write)
    requires i < |batches| && w in batches[i]
    ensures w in Concat(batches)
  {
    if i < |batches| - 1 {
      InConcat(batches[..|batches| - 1], i, w);
    }
  }

  ghost function BlockOf(batch: seq<AvroEncoder.Write>, config: Config): string {
    Framed(Block(MapAfter(batch, config.stod)), config.codec)
  }

  ghost predicate Sent(sent: seq<string>, batches: seq<seq<AvroEncoder.Write>>, config: Config) {
    && |sent| == |batches|
    && forall i :: 0 <= i < |sent| ==> 0 < |batches[i]| <= BatchLimit(config) && sent[i] == BlockOf(batches[i], config)
  }

  /** The writer has sent a block for each batch and holds the pending messages. */
  ghost predicate Explains(s: Writer, config: Config, batches: seq<seq<AvroEncoder.Write>>, pending: seq<AvroEncoder.Write>) {
    && Sent(s.sent, batches, config)
    && s.containerMap == MapAfter(pending, config.stod)
    && s.datapointCount == |pending| < BatchLimit(config)
  }

  lemma BlockNotEmpty(batch: seq<AvroEncoder.Write>, config: Config)
    requires NumbersShow(config.codec) && batch != []
    ensures BlockOf(batch, config) != "" && MapAfter(batch, config.stod) != map[]
  {
    var lists := Block(MapAfter(batch, config.stod));
    BlockHoldsEachPoint(batch, config.stod);
    assert AllPoints([]) == multiset{};
    assert lists != [];
  }

  lemma SentNext(sent: seq<string>, batches: seq<seq<AvroEncoder.Write>>, batch: seq<AvroEncoder.Write>, config: Config)
    requires Sent(sent, batches, config) && 0 < |batch| <= BatchLimit(config)
    ensures Sent(sent + [BlockOf(batch, config)], batches + [batch], config)
  {
    var sent', all := sent + [BlockOf(batch, config)], batches + [batch];
    forall i | 0 <= i < |sent'|
      ensures 0 < |all[i]| <= BatchLimit(config) && sent'[i] == BlockOf(all[i], config)
    {
      if i < |sent| {
        assert sent[i] == BlockOf(batches[i], config);
      }
    }
  }

  lemma ConcatNext(batches: seq<seq<AvroEncoder.Write>>, batch: seq<AvroEncoder.Write>)
    ensures Concat(batches + [batch]) == Concat(batches) + batch
  {
    assert (batches + [batch])[..|batches|] == batches;
  }

  lemma FlushExplains(s: Writer, config: Config, batches: seq<seq<AvroEncoder.Write>>, pending: seq<AvroEncoder.Write>)
    returns (batches': seq<seq<AvroEncoder.Write>>)
    requires NumbersShow(config.codec) && Sent(s.sent, batches, config) && |pending| <= BatchLimit(config)
    requires s.containerMap == MapAfter(pending, config.stod)
    ensures Explains(Flushed(s, config), config, batches', [])
    ensures Concat(batches') + [] == Concat(batches) + pending
  {
    if pending == [] {
      batches' := batches;
    } else {
      BlockNotEmpty(pending, config);
      SentNext(s.sent, batches, pending, config);
      ConcatNext(batches, pending);
      batches' := batches + [pending];
      assert Concat(batches') + [] == Concat(batches');
    }
  }

  lemma WriteExplains(
      s: Writer, config: Config, w: AvroEncoder.Write,
      batches: seq<seq<AvroEncoder.Write>>, pending: seq<AvroEncoder.Write>)
    returns (batches': seq<seq<AvroEncoder.Write>>, pending': seq<AvroEncoder.Write>)
    requires NumbersShow(config.codec) && Explains(s, config, batches, pending)
    ensures Explains(Received(s, config, w), config, batches', pending')
    ensures Concat(batches') + pending' == Concat(batches) + (pending + [w])
  {
    batches', pending' := batches, pending + [w];
    MapNext(pending, w, config.stod);
    var filled := s.(datapointCount := s.datapointCount + 1, containerMap := Added(s.containerMap, w, config.stod));
    if !config.chunking || filled.datapointCount >= config.capacity {
      batches' := FlushExplains(filled, config, batches, pending');
      pending' := [];
    }
  }

  lemma StepExplains(
      s: Writer, config: Config, e: Event, batches: seq<seq<AvroEncoder.Write>>, pending: seq<AvroEncoder.Write>)
    returns (batches': seq<seq<AvroEncoder.Write>>, pending': seq<AvroEncoder.Write>)
    requires NumbersShow(config.codec) && Explains(s, config, batches, pending)
    ensures Explains(Step(s, config, e), config, batches', pending')
    ensures Concat(batches') + pending' == Concat(batches) + (pending + if e.Write? then [e.w] else [])
  {
    batches', pending' := batches, pending;
    assert pending + [] == pending;
    if e.Write? {
      batches', pending' := WriteExplains(s, config, e.w, batches, pending);
    } else if e.Shutdown? || (s.timer && !e.error && s.datapointCount > 0) {
      batches' := FlushExplains(s, config, batches, pending);
      pending' := [];
    }
  }

  /** Every message is in exactly one block, in order, or still pending, and no block holds more than the limit. */
  lemma {:induction false} RunBatches(config: Config, events: seq<Event>)
    returns (batches: seq<seq<AvroEncoder.Write>>, pending: seq<AvroEncoder.Write>)
    requires NumbersShow(config.codec)
    ensures Explains(Run(config, events), config, batches, pending)
    ensures Concat(batches) + pending == WritesIn(events)
  {
    if events == [] {
      batches, pending := [], [];
    } else {
      var before, last := events[..|events| - 1], events[|events| - 1];
      batches, pending := RunBatches(config, before);
      Concat3(Concat(batches), pending, if last.Write? then [last.w] else []);
      batches, pending := StepExplains(Run(config, before), config, last, batches, pending);
    }
  }

  // ---- When blocks go out

  /** A write sends a block exactly when it fills it; until then the points wait. */
  lemma {:induction false} WriteSendsWhenFull(config: Config, events: seq<Event>, w: AvroEncoder.Write)
    requires NumbersShow(config.codec)
    ensures var s, t := Run(config, events), Step(Run(config, events), config, Event.Write(w));
            var limit := if config.chunking && config.capacity > 1 then config.capacity else 1;
            && s.datapointCount < limit
            && t.timer == s.timer
            && (if s.datapointCount + 1 < limit then t.sent == s.sent && t.datapointCount == s.datapointCount + 1
                else |t.sent| == |s.sent| + 1 && s.sent < t.sent && t.datapointCount == 0 && t.containerMap == map[])
  {
    var s := Run(config, events);
    var batches, pending := RunBatches(config, events);
    MapNext(pending, w, config.stod);
    BlockNotEmpty(pending + [w], config);
  }

  /** The events that end the timer. */
  predicate Ends(e: Event) {
    e == Timer(true) || e.Shutdown?
  }

  /** The timer runs if chunking is on, until an error or the shutdown. */
  lemma {:induction false} TimerRuns(config: Config, events: seq<Event>)
    ensures Run(config, events).timer <==> config.chunking && forall e :: e in events ==> !Ends(e)
  {
    if events != [] {
      var before, last := events[..|events| - 1], events[|events| - 1];
      assert events == before + [last];
      TimerRuns(config, before);
      assert forall e :: e in events <==> e in before || e == last;
      assert last in events;
    }
  }

  /** After a tick of the running timer, and after the shutdown, nothing is pending: what was has gone out in one block. */
  lemma {:induction false} NothingLeftPending(config: Config, events: seq<Event>, e: Event)
    requires NumbersShow(config.codec)
    requires e.Shutdown? || (e == Timer(false) && Run(config, events).timer)
    ensures var s, t := Run(config, events), Step(Run(config, events), config, e);
            && t.datapointCount == 0 && t.containerMap == map[]
            && (s.datapointCount == 0 ==> t.sent == s.sent)
            && (s.datapointCount > 0 ==> |t.sent| == |s.sent| + 1 && s.sent < t.sent)
  {
    var batches, pending := RunBatches(config, events);
    if pending != [] {
      BlockNotEmpty(pending, config);
    }
  }

  // ---- Points

  /** All points of all blocks. */
  ghost function BatchPoints(batches: seq<seq<AvroEncoder.Write>>, stod: Stod): multiset<Datapoint> {
    if batches == [] then multiset{}
    else BatchPoints(batches[..|batches| - 1], stod) + AllPoints(Block(MapAfter(batches[|batches| - 1], stod)))
  }

  lemma PointsNext(writes: seq<AvroEncoder.Write>, w: AvroEncoder.Write, stod: Stod)
    ensures PointsOf(writes + [w], stod) == PointsOf(writes, stod) + [PointOf(w, stod)]
  {
    assert (writes + [w])[..|writes|] == writes;
  }

  lemma {:induction false} PointsOfConcat(a: seq<AvroEncoder.Write>, b: seq<AvroEncoder.Write>, stod: Stod)
    ensures PointsOf(a + b, stod) == PointsOf(a, stod) + PointsOf(b, stod)
  {
    if b == [] {
      assert a + [] == a && PointsOf(a, stod) + [] == PointsOf(a, stod);
    } else {
      var before, last := b[..|b| - 1], b[|b| - 1];
      assert b == before + [last];
      Concat3(a, before, [last]);
      PointsNext(a + before, last, stod);
      PointsOfConcat(a, before, stod);
      Concat3(PointsOf(a, stod), PointsOf(before, stod), [PointOf(last, stod)]);
    }
  }

  lemma {:induction false} BatchesHoldEachPoint(batches: seq<seq<AvroEncoder.Write>>, stod: Stod)
    ensures BatchPoints(batches, stod) == multiset(PointsOf(Concat(batches), stod))
  {
    if batches != [] {
      var before, last := batches[..|batches| - 1], batches[|batches| - 1];
      BatchesHoldEachPoint(before, stod);
      BlockHoldsEachPoint(last, stod);
      PointsOfConcat(Concat(before), last, stod);
    }
  }

  /**
   * After any run, the buffers sent are blocks of at most `BatchLimit` points, and these with the pending map hold
   * the point of every message exactly once; the count is the number of points pending.
   */
  lemma EveryPointOnce(config: Config, events: seq<Event>) returns (batches: seq<seq<AvroEncoder.Write>>)
    requires NumbersShow(config.codec)
    ensures var s := Run(config, events);
            && Sent(s.sent, batches, config)
            && BatchPoints(batches, config.stod) + AllPoints(Block(s.containerMap))
               == multiset(PointsOf(WritesIn(events), config.stod))
            && s.datapointCount == |AllPoints(Block(s.containerMap))| < BatchLimit(config)
  {
    var pending;
    batches, pending := RunBatches(config, events);
    BatchesHoldEachPoint(batches, config.stod);
    BlockHoldsEachPoint(pending, config.stod);
    PointsOfConcat(Concat(batches), pending, config.stod);
  }

  lemma {:induction false} BatchReadsBack(batch: seq<AvroEncoder.Write>, config: Config, following: string)
    requires Decodes(config.codec) && NumbersShow(config.codec) && batch != []
    requires Holds(Block(MapAfter(batch, config.stod)), config.codec)
    ensures ReadBlock(BlockOf(batch, config) + following, config.codec)
            == Some((Block(MapAfter(batch, config.stod)), following))
  {
    BlockNotEmpty(batch, config);
    BlockRoundTrip(Block(MapAfter(batch, config.stod)), config.codec, following);
  }

  /** Reading back what was sent, whatever follows it, gives the lists of each batch the encoding can hold. */
  lemma {:induction false} SentReadsBack(config: Config, events: seq<Event>)
    returns (batches: seq<seq<AvroEncoder.Write>>, pending: seq<AvroEncoder.Write>)
    requires Decodes(config.codec) && NumbersShow(config.codec)
    ensures Explains(Run(config, events), config, batches, pending)
    ensures Concat(batches) + pending == WritesIn(events)
    ensures forall i, following ::
              0 <= i < |batches| && Holds(Block(MapAfter(batches[i], config.stod)), config.codec) ==>
                ReadBlock(Run(config, events).sent[i] + following, config.codec)
                == Some((Block(MapAfter(batches[i], config.stod)), following))
  {
    batches, pending := RunBatches(config, events);
    var sent := Run(config, events).sent;
    forall i, following | 0 <= i < |batches| && Holds(Block(MapAfter(batches[i], config.stod)), config.codec)
      ensures ReadBlock(sent[i] + following, config.codec) == Some((Block(MapAfter(batches[i], config.stod)), following))
    {
      assert sent[i] == BlockOf(batches[i], config);
      BatchReadsBack(batches[i], config, following);
    }
  }

  class CollectorOutputWriter {
    const config: Config
    var datapointCount: nat
    var containerMap: MetricMap
    var sent: seq<string>
    var timer: bool

    ghost function View(): Writer
      reads this
    {
      Writer(datapointCount, containerMap, sent, timer)
    }

    constructor (config: Config)
      ensures this.config == config && View() == Open(config)
    {
      this.config := config;
      datapointCount, containerMap, sent, timer := 0, map[], [], config.chunking;
    }

    method WriteContainerStatsd(containerId: Option<string>, executorInfo: Option<ExecutorInfo>, data: string, timeMs: int)
      modifies this
      ensures View() == Step(old(View()), config, Event.Write(AvroEncoder.Write(containerId, executorInfo, data, timeMs)))
    {
      var added;
      added, containerMap := StatsdToMap(containerId, executorInfo, data, timeMs, config.stod, containerMap);
      datapointCount := datapointCount + added;
      if !config.chunking || datapointCount >= config.capacity {
        Flush();
      }
    }

    method Flush()
      modifies this
      ensures View() == Flushed(old(View()), config)
    {
      datapointCount := 0;
      if |containerMap| == 0 {
        return;
      }
      var buf := EncodeMetricsBlock(containerMap, config.codec);
      containerMap := map[];
      if |buf| != 0 {
        sent := sent + [buf];
      }
    }

    method ChunkFlushCb(error: bool)
      requires timer
      modifies this
      ensures View() == Step(old(View()), config, Timer(error))
    {
      if error {
        timer := false;
        return;
      }
      if datapointCount > 0 {
        Flush();
      }
    }

    method ShutdownCb()
      modifies this
      ensures View() == Step(old(View()), config, Shutdown)
    {
      timer := false;
      Flush();
    }
  }

}
