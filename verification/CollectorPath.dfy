/** From the messages written to what the collector makes of the blocks it reads. */
module CollectorPath {
  import opened Wrappers
  import opened Sequences
  import opened StringOrder
  import opened StatsdParser
  import opened AvroEncoder
  import Collector = CollectorWriter
  import opened Framework

  type Tasks = map<string, TaskInfo>

  /** What becomes of each list; nothing where it yields no datapoint. */
  function Received(lists: seq<MetricList>, tasks: Tasks): seq<Option<Message>> {
    if lists == [] then [] else [Transformed(lists[0], tasks)] + Received(lists[1..], tasks)
  }

  lemma {:induction false} ReceivedConcat(a: seq<MetricList>, b: seq<MetricList>, tasks: Tasks)
    ensures Received(a + b, tasks) == Received(a, tasks) + Received(b, tasks)
  {
    if a == [] {
      assert a + b == b && [] + Received(b, tasks) == Received(b, tasks);
    } else {
      TailOfConcat(a, b);
      ReceivedConcat(a[1..], b, tasks);
      Concat3([Transformed(a[0], tasks)], Received(a[1..], tasks), Received(b, tasks));
    }
  }

  // ---- What should arrive

  /** One message for all of a container's messages without tags, and none if the container is unknown. */
  function PlainArrival(plain: seq<Write>, stod: Stod, tasks: Tasks): seq<Option<Message>> {
    if plain == [] then []
    else if Sender(plain[0]).Unknown? then [None]
    else [Some(MessageOf(Sender(plain[0]), PointsOf(plain, stod), [], tasks))]
  }

  /** One message for each with tags of its own. */
  function TaggedArrivals(tagged: seq<Write>, stod: Stod, tasks: Tasks): seq<Option<Message>> {
    if tagged == [] then []
    else
      var w := tagged[|tagged| - 1];
      TaggedArrivals(tagged[..|tagged| - 1], stod, tasks)
      + [Some(MessageOf(Sender(w), [PointOf(w, stod)], CustomTags(w, stod), tasks))]
  }

  function ArrivalsFor(writes: seq<Write>, key: string, stod: Stod, tasks: Tasks): seq<Option<Message>> {
    PlainArrival(About(writes, key, false, stod), stod, tasks) + TaggedArrivals(About(writes, key, true, stod), stod, tasks)
  }

  function Arrivals(writes: seq<Write>, keys: seq<string>, stod: Stod, tasks: Tasks): seq<Option<Message>> {
    if keys == [] then []
    else ArrivalsFor(writes, keys[0], stod, tasks) + Arrivals(writes, keys[1..], stod, tasks)
  }

  /** The container ids under which messages are filed. */
  function KeysOf(writes: seq<Write>): set<string> {
    set w | w in writes :: KeyOf(w)
  }

  /** Senders as they should be, and no custom tag under a reserved key. */
  ghost predicate Orderly(writes: seq<Write>, stod: Stod) {
    forall w :: w in writes ==> Attributed(w) && NoneReserved(CustomTags(w, stod))
  }

  // ---- What does arrive

  lemma {:induction false} AboutMeans(writes: seq<Write>, key: string, custom: bool, stod: Stod, w: Write)
    ensures w in About(writes, key, custom, stod)
            <==> w in writes && KeyOf(w) == key && (CustomTags(w, stod) != []) == custom
  {
    if writes != [] {
      var before, last := writes[..|writes| - 1], writes[|writes| - 1];
      assert writes == before + [last];
      AboutMeans(before, key, custom, stod, w);
      AboutNext(before, last, key, custom, stod);
    }
  }

  lemma {:induction false} TaggedArrive(tagged: seq<Write>, stod: Stod, tasks: Tasks)
    requires forall w :: w in tagged ==> NoneReserved(CustomTags(w, stod)) && CustomTags(w, stod) != []
    ensures Received(TaggedLists(tagged, stod), tasks) == TaggedArrivals(tagged, stod, tasks)
  {
    if tagged != [] {
      var before, w := tagged[..|tagged| - 1], tagged[|tagged| - 1];
      assert w in tagged;
      TaggedArrive(before, stod, tasks);
      ReceivedConcat(TaggedLists(before, stod), [TaggedList(w, stod)], tasks);
      ReceivedOne(TaggedList(w, stod), tasks);
      CustomTagsSurvive(w, stod, tasks);
    }
  }

  lemma ReceivedOne(list: MetricList, tasks: Tasks)
    ensures Received([list], tasks) == [Transformed(list, tasks)]
  {
    assert [list][1..] == [];
    assert [Transformed(list, tasks)] + [] == [Transformed(list, tasks)];
  }

  lemma {:induction false} NoneEmpty(lists: seq<MetricList>)
    requires forall i :: 0 <= i < |lists| ==> !Empty(lists[i])
    ensures NonEmpty(lists) == lists
  {
    if lists != [] {
      assert !Empty(lists[0]);
      NoneEmpty(lists[1..]);
      assert lists == [lists[0]] + lists[1..];
    }
  }

  /** The lists written for a container: the untagged one unless it has no message, then those with custom tags. */
  lemma {:induction false} WrittenFor(plain: seq<Write>, tagged: seq<Write>, stod: Stod)
    ensures Written(EntryFor(plain, tagged, stod))
            == (if plain == [] then [] else [UntaggedList(plain, stod)]) + TaggedLists(tagged, stod)
  {
    var first, more := UntaggedList(plain, stod), TaggedLists(tagged, stod);
    PointsLength(plain, stod);
    PointsLength(tagged, stod);
    forall i | 0 <= i < |more|
      ensures !Empty(more[i])
    {
      TaggedListsAt(tagged, i, stod);
    }
    NoneEmpty(more);
    TailOfCons(first, more);
    assert [] + more == more;
  }

  lemma {:induction false} ContainerArrives(writes: seq<Write>, key: string, stod: Stod, tasks: Tasks)
    requires Orderly(writes, stod)
    ensures Received(Written(MetricsFor(MapAfter(writes, stod), key)), tasks) == ArrivalsFor(writes, key, stod, tasks)
  {
    var plain, tagged := About(writes, key, false, stod), About(writes, key, true, stod);
    MapMeans(writes, key, stod);
    WrittenFor(plain, tagged, stod);
    forall w | w in tagged
      ensures NoneReserved(CustomTags(w, stod)) && CustomTags(w, stod) != []
    {
      AboutMeans(writes, key, true, stod, w);
    }
    TaggedArrive(tagged, stod, tasks);
    if plain != [] {
      PlainArrives(plain, stod, tasks);
      ReceivedConcat([UntaggedList(plain, stod)], TaggedLists(tagged, stod), tasks);
    } else {
      assert [] + TaggedLists(tagged, stod) == TaggedLists(tagged, stod);
      assert [] + TaggedArrivals(tagged, stod, tasks) == TaggedArrivals(tagged, stod, tasks);
    }
  }

  lemma {:induction false} PlainArrives(plain: seq<Write>, stod: Stod, tasks: Tasks)
    requires plain != []
    ensures Received([UntaggedList(plain, stod)], tasks) == PlainArrival(plain, stod, tasks)
  {
    ReceivedOne(UntaggedList(plain, stod), tasks);
    if Sender(plain[0]).Unknown? {
      UnknownUntaggedRefused(plain, stod, tasks);
    } else {
      UntaggedPointsSurvive(plain, stod, tasks);
    }
  }

  lemma {:induction false} KeysArrive(writes: seq<Write>, keys: seq<string>, stod: Stod, tasks: Tasks)
    requires Orderly(writes, stod)
    ensures Received(WrittenOf(MapAfter(writes, stod), keys), tasks) == Arrivals(writes, keys, stod, tasks)
  {
    if keys != [] {
      var m := MapAfter(writes, stod);
      ContainerArrives(writes, keys[0], stod, tasks);
      KeysArrive(writes, keys[1..], stod, tasks);
      ReceivedConcat(Written(MetricsFor(m, keys[0])), WrittenOf(m, keys[1..]), tasks);
    }
  }

  lemma {:induction false} MapKeys(writes: seq<Write>, stod: Stod)
    ensures MapAfter(writes, stod).Keys == KeysOf(writes)
  {
    if writes != [] {
      var before, w := writes[..|writes| - 1], writes[|writes| - 1];
      assert writes == before + [w];
      MapKeys(before, stod);
      assert KeysOf(writes) == KeysOf(before) + {KeyOf(w)};
    }
  }

  /** What arrives of a block: container by container in the order of their ids, exactly what should. */
  lemma {:induction false} BlockArrives(writes: seq<Write>, stod: Stod, tasks: Tasks)
    requires Orderly(writes, stod)
    ensures Received(Block(MapAfter(writes, stod)), tasks) == Arrivals(writes, InOrder(KeysOf(writes)), stod, tasks)
  {
    MapKeys(writes, stod);
    KeysArrive(writes, InOrder(KeysOf(writes)), stod, tasks);
  }

  lemma {:induction false} BatchArrives(
      batches: seq<seq<Write>>, pending: seq<Write>, writes: seq<Write>, i: nat, stod: Stod, tasks: Tasks)
    requires i < |batches| && Collector.Concat(batches) + pending == writes && Orderly(writes, stod)
    ensures Received(Block(MapAfter(batches[i], stod)), tasks)
            == Arrivals(batches[i], InOrder(KeysOf(batches[i])), stod, tasks)
  {
    forall w | w in batches[i]
      ensures w in writes
    {
      Collector.InConcat(batches, i, w);
    }
    BlockArrives(batches[i], stod, tasks);
  }

  /**
   * From a run of the writer to the collector: every buffer sent reads back as a block, if the encoding can hold it, and
   * of each block exactly what should arrive for its messages does; the batches and the pending messages are all that
   * was written, in order.
   */
  lemma {:induction false} CollectorDelivers(config: Collector.Config, events: seq<Collector.Event>, tasks: Tasks)
    returns (batches: seq<seq<Write>>, pending: seq<Write>)
    requires Decodes(config.codec) && NumbersShow(config.codec)
    requires Orderly(Collector.WritesIn(events), config.stod)
    ensures Collector.Explains(Collector.Run(config, events), config, batches, pending)
    ensures Collector.Concat(batches) + pending == Collector.WritesIn(events)
    ensures forall i, following ::
              0 <= i < |batches| && Holds(Block(MapAfter(batches[i], config.stod)), config.codec) ==>
                ReadBlock(Collector.Run(config, events).sent[i] + following, config.codec)
                == Some((Block(MapAfter(batches[i], config.stod)), following))
    ensures forall i :: 0 <= i < |batches| ==>
              Received(Block(MapAfter(batches[i], config.stod)), tasks)
              == Arrivals(batches[i], InOrder(KeysOf(batches[i])), config.stod, tasks)
  {
    batches, pending := Collector.SentReadsBack(config, events);
    forall i | 0 <= i < |batches|
      ensures Received(Block(MapAfter(batches[i], config.stod)), tasks)
              == Arrivals(batches[i], InOrder(KeysOf(batches[i])), config.stod, tasks)
    {
      BatchArrives(batches, pending, Collector.WritesIn(events), i, config.stod, tasks);
    }
  }

  // ---- Every message

  /** The labels of the task whose container sent the message, if that is known, with the tags of the message laid over. */
  function LabelsFor(w: Write, stod: Stod, tasks: Tasks): Labels {
    var task := if w.containerId.Some? && w.executorInfo.Some? && w.containerId.value in tasks
                then TaskLabels(tasks[w.containerId.value].labels) else map[];
    Overridden(task, Parse(w.data, stod).tags)
  }

  /** The sender as `namer` gives it, with the task of the container; nothing for an unknown sender. */
  predicate NamesSender(d: Dimensions, namer: Write, tasks: Tasks) {
    if namer.containerId.Some? && namer.executorInfo.Some? then
      && d.containerId == namer.containerId.value
      && d.executorId == namer.executorInfo.value.executorId && d.frameworkId == namer.executorInfo.value.frameworkId
      && (d.containerId in tasks ==> d.taskId == tasks[d.containerId].id && d.taskName == tasks[d.containerId].name)
    else d == NoDimensions()
  }

  /** A datapoint with the name and value read from the message and its labels, in a message from its sender. */
  predicate Carries(m: Option<Message>, w: Write, namer: Write, stod: Stod, tasks: Tasks) {
    && m.Some?
    && Framework.Datapoint(Parse(w.data, stod).name, Parse(w.data, stod).value, LabelsFor(w, stod, tasks))
       in m.value.datapoints
    && NamesSender(m.value.dimensions, namer, tasks)
  }

  lemma {:induction false} PointAmong(plain: seq<Write>, w: Write, stod: Stod)
    requires w in plain
    ensures PointOf(w, stod) in PointsOf(plain, stod)
  {
    if w != plain[|plain| - 1] {
      PointAmong(plain[..|plain| - 1], w, stod);
    }
  }

  lemma {:induction false} PlainCarries(plain: seq<Write>, w: Write, stod: Stod, tasks: Tasks)
    requires w in plain && CustomTags(w, stod) == []
    requires Sender(w).Known? && Sender(plain[0]).Known? && Sender(w).containerId == Sender(plain[0]).containerId
    ensures Carries(PlainArrival(plain, stod, tasks)[0], w, plain[0], stod, tasks)
  {
    var labels, points := LabelsOf(Sender(w), tasks), PointsOf(plain, stod);
    PointAmong(plain, w, stod);
    var k :| 0 <= k < |points| && points[k] == PointOf(w, stod);
    assert TaggedPoints(points, labels)[k]
           == Framework.Datapoint(Parse(w.data, stod).name, Parse(w.data, stod).value, LabelsFor(w, stod, tasks));
  }

  lemma {:induction false} TaggedCarries(tagged: seq<Write>, w: Write, stod: Stod, tasks: Tasks) returns (m: Option<Message>)
    requires w in tagged
    ensures m in TaggedArrivals(tagged, stod, tasks) && Carries(m, w, w, stod, tasks)
  {
    var before, last := tagged[..|tagged| - 1], tagged[|tagged| - 1];
    if w == last {
      m := Some(MessageOf(Sender(w), [PointOf(w, stod)], CustomTags(w, stod), tasks));
      assert m.value.datapoints[0]
             == Framework.Datapoint(Parse(w.data, stod).name, Parse(w.data, stod).value, LabelsFor(w, stod, tasks));
    } else {
      m := TaggedCarries(before, w, stod, tasks);
    }
  }

  lemma {:induction false} ArrivesAmong(
      writes: seq<Write>, keys: seq<string>, key: string, m: Option<Message>, stod: Stod, tasks: Tasks)
    requires key in keys && m in ArrivalsFor(writes, key, stod, tasks)
    ensures m in Arrivals(writes, keys, stod, tasks)
  {
    if key != keys[0] {
      ArrivesAmong(writes, keys[1..], key, m, stod, tasks);
    }
  }

  lemma {:induction false} UntaggedAmong(writes: seq<Write>, w: Write, plain: seq<Write>, stod: Stod, tasks: Tasks)
    requires Orderly(writes, stod) && w in writes && Sender(w).Known? && CustomTags(w, stod) == []
    requires plain == About(writes, KeyOf(w), false, stod)
    ensures plain != [] && plain[0].containerId == w.containerId
    ensures Carries(PlainArrival(plain, stod, tasks)[0], w, plain[0], stod, tasks)
  {
    AboutMeans(writes, KeyOf(w), false, stod, w);
    AboutMeans(writes, KeyOf(w), false, stod, plain[0]);
    assert Attributed(plain[0]) && Attributed(w);
    PlainCarries(plain, w, stod, tasks);
  }

  lemma {:induction false} MessageAmong(writes: seq<Write>, w: Write, stod: Stod, tasks: Tasks)
    returns (m: Option<Message>, namer: Write)
    requires Orderly(writes, stod) && w in writes
    requires Sender(w).Known? || CustomTags(w, stod) != []
    ensures m in ArrivalsFor(writes, KeyOf(w), stod, tasks) && Carries(m, w, namer, stod, tasks)
    ensures namer.containerId == w.containerId
    ensures if CustomTags(w, stod) != [] then namer == w else [namer] <= About(writes, KeyOf(w), false, stod)
  {
    if CustomTags(w, stod) != [] {
      AboutMeans(writes, KeyOf(w), true, stod, w);
      m := TaggedCarries(About(writes, KeyOf(w), true, stod), w, stod, tasks);
      namer := w;
    } else {
      var plain := About(writes, KeyOf(w), false, stod);
      UntaggedAmong(writes, w, plain, stod, tasks);
      m, namer := PlainArrival(plain, stod, tasks)[0], plain[0];
    }
  }

  /**
   * Every message of a known container, and every one with tags of its own, arrives with its name, value and labels. The
   * sender is the one that it names itself, or, if it has no tags, the one that the first message in its list names.
   */
  lemma {:induction false} EveryMessageArrives(writes: seq<Write>, w: Write, stod: Stod, tasks: Tasks)
    returns (m: Option<Message>, namer: Write)
    requires Orderly(writes, stod) && w in writes
    requires Sender(w).Known? || Parse(w.data, stod).tags != []
    ensures m in Received(Block(MapAfter(writes, stod)), tasks) && Carries(m, w, namer, stod, tasks)
    ensures namer.containerId == w.containerId
    ensures if Parse(w.data, stod).tags != [] then namer == w else [namer] <= About(writes, KeyOf(w), false, stod)
  {
    m, namer := MessageAmong(writes, w, stod, tasks);
    BlockArrives(writes, stod, tasks);
    InOrderMeans(KeysOf(writes));
    assert KeyOf(w) in Elements(InOrder(KeysOf(writes)));
    ArrivesAmong(writes, InOrder(KeysOf(writes)), KeyOf(w), m, stod, tasks);
  }

}
