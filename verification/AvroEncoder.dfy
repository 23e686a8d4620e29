/** Collecting statsd messages into lists of datapoints, one for each container and one for each message with tags. */
module AvroEncoder {
  import opened Wrappers
  import opened Sequences
  import opened StringOrder
  import opened StatsdTagger
  import opened StatsdParser

  datatype Datapoint = Datapoint(timeMs: int, name: string, value: real)

  datatype MetricList = MetricList(topic: string, tags: seq<Tag>, datapoints: seq<Datapoint>)

  datatype ContainerMetrics = ContainerMetrics(withoutCustomTags: MetricList, withCustomTags: seq<MetricList>)

  type MetricMap = map<string, ContainerMetrics>

  const EMPTY_LIST: MetricList := MetricList("", [], [])
  const NO_METRICS: ContainerMetrics := ContainerMetrics(EMPTY_LIST, [])

  /** One call of `statsd_to_map`. */
  datatype Write = Write(containerId: Option<string>, executorInfo: Option<ExecutorInfo>, data: string, timeMs: int)

  predicate Empty(list: MetricList) {
    list.datapoints == [] && list.tags == [] && list.topic == ""
  }

  predicate HasKey(tags: seq<Tag>, key: string) {
    exists i :: 0 <= i < |tags| && tags[i].key == key
  }

  function MissingTag(tags: seq<Tag>, key: string, value: string): seq<Tag> {
    if HasKey(tags, key) then [] else [Tag(key, value)]
  }

  /** The topic and the tags that name the sender, where the list lacks them. */
  function Initialized(list: MetricList, owner: Owner): MetricList {
    match owner
    case Unknown => list.(topic := UNKNOWN_CONTAINER_TAG)
    case Known(containerId, frameworkId, executorId) =>
      list.(topic := if list.topic == "" then frameworkId else list.topic,
            tags := list.tags
                    + MissingTag(list.tags, FRAMEWORK_ID_DATADOG_KEY, frameworkId)
                    + MissingTag(list.tags, EXECUTOR_ID_DATADOG_KEY, executorId)
                    + MissingTag(list.tags, CONTAINER_ID_DATADOG_KEY, containerId))
  }

  function KeyOf(w: Write): string {
    if w.containerId.None? then UNKNOWN_CONTAINER_TAG else w.containerId.value
  }

  function Sender(w: Write): Owner {
    OwnerOf(w.containerId, w.executorInfo)
  }

  function PointOf(w: Write, stod: Stod): Datapoint {
    Datapoint(w.timeMs, Parse(w.data, stod).name, Parse(w.data, stod).value)
  }

  function CustomTags(w: Write, stod: Stod): seq<Tag> {
    Parse(w.data, stod).tags
  }

  function MetricsFor(m: MetricMap, key: string): ContainerMetrics {
    if key in m then m[key] else NO_METRICS
  }

  function TaggedList(w: Write, stod: Stod): MetricList {
    var dedicated := Initialized(EMPTY_LIST, Sender(w));
    dedicated.(datapoints := [PointOf(w, stod)], tags := dedicated.tags + CustomTags(w, stod))
  }

  function Extended(cm: ContainerMetrics, w: Write, stod: Stod): ContainerMetrics {
    if CustomTags(w, stod) == [] then
      var longer := cm.withoutCustomTags.(datapoints := cm.withoutCustomTags.datapoints + [PointOf(w, stod)]);
      cm.(withoutCustomTags := Initialized(longer, Sender(w)))
    else
      cm.(withCustomTags := cm.withCustomTags + [TaggedList(w, stod)])
  }

  function Added(m: MetricMap, w: Write, stod: Stod): MetricMap {
    m[KeyOf(w) := Extended(MetricsFor(m, KeyOf(w)), w, stod)]
  }

  // ---- The step-by-step encoder

  method AddTag(key: string, value: string, tags: seq<Tag>) returns (r: seq<Tag>)
    ensures r == StatsdParser.AddTag(tags, Tag(key, value))
  {
    r := tags;
    if |key| != 0 || |value| != 0 {
      r := r + [Tag(key, value)];
    }
  }

  method InitList(list: MetricList, containerId: Option<string>, executorInfo: Option<ExecutorInfo>) returns (r: MetricList)
    ensures r == Initialized(list, OwnerOf(containerId, executorInfo))
  {
    r := list;
    if containerId.None? || executorInfo.None? {
      r := r.(topic := UNKNOWN_CONTAINER_TAG);
      return;
    }
    if r.topic == "" {
      r := r.(topic := executorInfo.value.frameworkId);
    }
    var foundFrameworkId, foundExecutorId, foundContainerId := false, false, false;
    for i := 0 to |list.tags|
      invariant foundFrameworkId <==> HasKey(list.tags[..i], FRAMEWORK_ID_DATADOG_KEY)
      invariant foundExecutorId <==> HasKey(list.tags[..i], EXECUTOR_ID_DATADOG_KEY)
      invariant foundContainerId <==> HasKey(list.tags[..i], CONTAINER_ID_DATADOG_KEY)
    {
      HasKeyNext(list.tags, i, FRAMEWORK_ID_DATADOG_KEY);
      HasKeyNext(list.tags, i, EXECUTOR_ID_DATADOG_KEY);
      HasKeyNext(list.tags, i, CONTAINER_ID_DATADOG_KEY);
      KeysDiffer();
      if list.tags[i].key == FRAMEWORK_ID_DATADOG_KEY {
        foundFrameworkId := true;
      } else if list.tags[i].key == EXECUTOR_ID_DATADOG_KEY {
        foundExecutorId := true;
      } else if list.tags[i].key == CONTAINER_ID_DATADOG_KEY {
        foundContainerId := true;
      }
    }
    assert list.tags[..|list.tags|] == list.tags;
    var tags := list.tags;
    if !foundFrameworkId {
      tags := AddTag(FRAMEWORK_ID_DATADOG_KEY, executorInfo.value.frameworkId, tags);
    }
    if !foundExecutorId {
      tags := AddTag(EXECUTOR_ID_DATADOG_KEY, executorInfo.value.executorId, tags);
    }
    if !foundContainerId {
      tags := AddTag(CONTAINER_ID_DATADOG_KEY, containerId.value, tags);
    }
    r := r.(tags := tags);
  }

  lemma HasKeyNext(tags: seq<Tag>, i: nat, key: string)
    requires i < |tags|
    ensures HasKey(tags[..i + 1], key) <==> HasKey(tags[..i], key) || tags[i].key == key
  {
    var now, next := tags[..i], tags[..i + 1];
    assert next == now + [tags[i]];
    if HasKey(now, key) {
      var k :| 0 <= k < |now| && now[k].key == key;
      assert next[k].key == key;
    }
    if tags[i].key == key {
      assert next[i].key == key;
    }
  }

  lemma KeysDiffer()
    ensures FRAMEWORK_ID_DATADOG_KEY != EXECUTOR_ID_DATADOG_KEY
    ensures FRAMEWORK_ID_DATADOG_KEY != CONTAINER_ID_DATADOG_KEY
    ensures EXECUTOR_ID_DATADOG_KEY != CONTAINER_ID_DATADOG_KEY
  {
    assert FRAMEWORK_ID_DATADOG_KEY[0] == 'f' && EXECUTOR_ID_DATADOG_KEY[0] == 'e' && CONTAINER_ID_DATADOG_KEY[0] == 'c';
  }

  /** Moves the last datapoint and the tags from `oldTagCount` on to a list of their own. */
  method MoveToOwnList(
      list: MetricList, oldTagCount: nat, containerId: Option<string>, executorInfo: Option<ExecutorInfo>,
      ghost before: MetricList, ghost point: Datapoint, ghost custom: seq<Tag>)
    returns (rest: MetricList, dedicated: MetricList)
    requires list == before.(datapoints := before.datapoints + [point], tags := before.tags + custom)
    requires oldTagCount == |before.tags|
    ensures rest == before
    ensures var own := Initialized(EMPTY_LIST, OwnerOf(containerId, executorInfo));
            dedicated == own.(datapoints := [point], tags := own.tags + custom)
  {
    dedicated := InitList(EMPTY_LIST, containerId, executorInfo);
    var last := |list.datapoints| - 1;
    dedicated := dedicated.(datapoints := dedicated.datapoints + [list.datapoints[last]]);
    rest := list.(datapoints := list.datapoints[..last]);
    dedicated := dedicated.(tags := dedicated.tags + rest.tags[oldTagCount..]);
    rest := rest.(tags := rest.tags[..oldTagCount]);
  }

  /** Adds one message to its container's lists. */
  method AddPoint(
      cm: ContainerMetrics, containerId: Option<string>, executorInfo: Option<ExecutorInfo>, data: string, timeMs: int,
      stod: Stod)
    returns (r: ContainerMetrics)
    ensures r == Extended(cm, Write(containerId, executorInfo, data, timeMs), stod)
  {
    var before := cm.withoutCustomTags;
    var list := before.(datapoints := before.datapoints + [Datapoint(timeMs, "", 0.0)]);
    var oldTagCount := |list.tags|;
    var name, value, tags := ParseStatsdNameValTags(data, stod, list.tags);
    var point := Datapoint(timeMs, name, value);
    list := list.(datapoints := list.datapoints[|before.datapoints| := point], tags := tags);
    ghost var custom := Parse(data, stod).tags;
    assert list.datapoints == before.datapoints + [point];
    assert tags == before.tags + custom;
    var newTagCount := |list.tags|;
    if newTagCount - oldTagCount != 0 {
      var dedicated;
      list, dedicated := MoveToOwnList(list, oldTagCount, containerId, executorInfo, before, point, custom);
      r := ContainerMetrics(list, cm.withCustomTags + [dedicated]);
    } else {
      assert tags == before.tags;
      list := InitList(list, containerId, executorInfo);
      r := cm.(withoutCustomTags := list);
    }
  }

  method StatsdToMap(
      containerId: Option<string>, executorInfo: Option<ExecutorInfo>, data: string, timeMs: int, stod: Stod, m: MetricMap)
    returns (added: nat, metricMap: MetricMap)
    ensures added == 1
    ensures metricMap == Added(m, Write(containerId, executorInfo, data, timeMs), stod)
    ensures PointFiled(m, metricMap, if containerId.None? then "unknown_container" else containerId.value,
                       Datapoint(timeMs, Parse(data, stod).name, Parse(data, stod).value), Parse(data, stod).tags)
  {
    AddedFiles(m, Write(containerId, executorInfo, data, timeMs), stod);
    var key := if containerId.None? then UNKNOWN_CONTAINER_TAG else containerId.value;
    var cm := AddPoint(if key in m then m[key] else NO_METRICS, containerId, executorInfo, data, timeMs, stod);
    metricMap := m[key := cm];
    added := 1;
  }

  /**
   * From `m` to `after`, the point was put under the key, without tags of its own last in the list of such points, with
   * tags alone in a new list that ends in these; nothing else changed.
   */
  predicate PointFiled(m: MetricMap, after: MetricMap, key: string, point: Datapoint, custom: seq<Tag>) {
    && key in after && after == m[key := after[key]]
    && var was, now := MetricsFor(m, key), after[key];
       if custom == [] then
         && now.withCustomTags == was.withCustomTags
         && now.withoutCustomTags.datapoints == was.withoutCustomTags.datapoints + [point]
         && was.withoutCustomTags.tags <= now.withoutCustomTags.tags
       else
         && now.withoutCustomTags == was.withoutCustomTags
         && |now.withCustomTags| == |was.withCustomTags| + 1
         && now.withCustomTags[..|was.withCustomTags|] == was.withCustomTags
         && var own := now.withCustomTags[|was.withCustomTags|];
            && own.datapoints == [point]
            && |custom| <= |own.tags| && own.tags[|own.tags| - |custom|..] == custom
  }

  /** Where the datapoint read from a message goes. */
  lemma AddedFiles(m: MetricMap, w: Write, stod: Stod)
    ensures PointFiled(m, Added(m, w, stod), if w.containerId.None? then "unknown_container" else w.containerId.value,
                       Datapoint(w.timeMs, Parse(w.data, stod).name, Parse(w.data, stod).value), Parse(w.data, stod).tags)
  {
    InitializedTags(MetricsFor(m, KeyOf(w)).withoutCustomTags, Sender(w));
  }

  lemma InitializedTags(list: MetricList, owner: Owner)
    ensures list.tags <= Initialized(list, owner).tags
  {
  }

  /** The topic and the tags of the list that a message with tags of its own gets. */
  lemma OwnList(w: Write, stod: Stod)
    requires Parse(w.data, stod).tags != []
    ensures var list := TaggedList(w, stod);
            if w.containerId.Some? && w.executorInfo.Some? then
              && list.topic == w.executorInfo.value.frameworkId
              && list.tags == [Tag("framework_id", w.executorInfo.value.frameworkId),
                               Tag("executor_id", w.executorInfo.value.executorId),
                               Tag("container_id", w.containerId.value)] + Parse(w.data, stod).tags
            else list.topic == "unknown_container" && list.tags == Parse(w.data, stod).tags
  {
    FreshInitialized(Sender(w));
  }

  // ---- What the map holds after any messages

  function MapAfter(writes: seq<Write>, stod: Stod): MetricMap {
    if writes == [] then map[] else Added(MapAfter(writes[..|writes| - 1], stod), writes[|writes| - 1], stod)
  }

  /** The messages for a container that carry, or that do not carry, tags of their own. */
  function About(writes: seq<Write>, key: string, custom: bool, stod: Stod): seq<Write> {
    if writes == [] then []
    else
      var last := writes[|writes| - 1];
      About(writes[..|writes| - 1], key, custom, stod)
      + if KeyOf(last) == key && (CustomTags(last, stod) != []) == custom then [last] else []
  }

  function PointsOf(writes: seq<Write>, stod: Stod): seq<Datapoint> {
    if writes == [] then []
    else PointsOf(writes[..|writes| - 1], stod) + [PointOf(writes[|writes| - 1], stod)]
  }

  function TaggedLists(writes: seq<Write>, stod: Stod): seq<MetricList> {
    if writes == [] then []
    else TaggedLists(writes[..|writes| - 1], stod) + [TaggedList(writes[|writes| - 1], stod)]
  }

  function IdTags(owner: Owner): seq<Tag> {
    match owner
    case Unknown => []
    case Known(containerId, frameworkId, executorId) =>
      [Tag(FRAMEWORK_ID_DATADOG_KEY, frameworkId), Tag(EXECUTOR_ID_DATADOG_KEY, executorId),
       Tag(CONTAINER_ID_DATADOG_KEY, containerId)]
  }

  /** The framework of a container: that of the first message whose framework id is not empty. */
  function TopicOf(writes: seq<Write>): string {
    if writes == [] then ""
    else
      var before, owner := TopicOf(writes[..|writes| - 1]), Sender(writes[|writes| - 1]);
      if owner.Unknown? then UNKNOWN_CONTAINER_TAG else if before == "" then owner.frameworkId else before
  }

  /** All untagged points of a container in one list, in order, with each id once and no other tag. */
  function UntaggedList(writes: seq<Write>, stod: Stod): MetricList {
    if writes == [] then EMPTY_LIST
    else MetricList(TopicOf(writes), IdTags(Sender(writes[0])), PointsOf(writes, stod))
  }

  /** The executor is known whenever the container is, and no container is called as the stand-in for unknown ones. */
  predicate Attributed(w: Write) {
    w.containerId.Some? ==> w.executorInfo.Some? && w.containerId.value != UNKNOWN_CONTAINER_TAG
  }

  lemma FreshInitialized(owner: Owner)
    ensures Initialized(EMPTY_LIST, owner).tags == IdTags(owner)
  {
  }

  lemma InitializedAgain(list: MetricList, owner: Owner, next: Owner)
    requires list.tags == IdTags(owner) && (owner.Known? <==> next.Known?)
    ensures Initialized(list, next).tags == list.tags
  {
    if owner.Known? {
      assert list.tags[0].key == FRAMEWORK_ID_DATADOG_KEY;
      assert list.tags[1].key == EXECUTOR_ID_DATADOG_KEY;
      assert list.tags[2].key == CONTAINER_ID_DATADOG_KEY;
    }
  }

  /** Messages for one container, all of them from a known sender or all of them not. */
  ghost predicate SameKind(writes: seq<Write>, known: bool) {
    forall w :: w in writes ==> (Sender(w).Known? <==> known)
  }

  lemma UntaggedListNext(writes: seq<Write>, w: Write, known: bool, stod: Stod)
    requires SameKind(writes, known) && (Sender(w).Known? <==> known)
    ensures var list := UntaggedList(writes, stod);
            Initialized(list.(datapoints := list.datapoints + [PointOf(w, stod)]), Sender(w)) == UntaggedList(writes + [w], stod)
  {
    var list, all := UntaggedList(writes, stod), writes + [w];
    assert all[..|all| - 1] == writes;
    if writes == [] {
      FreshInitialized(Sender(w));
      assert all[0] == w;
    } else {
      assert all[0] == writes[0] && writes[0] in writes;
      InitializedAgain(list, Sender(writes[0]), Sender(w));
    }
  }

  lemma {:induction false} AboutKind(writes: seq<Write>, key: string, custom: bool, stod: Stod)
    requires forall w :: w in writes ==> Attributed(w)
    ensures SameKind(About(writes, key, custom, stod), key != UNKNOWN_CONTAINER_TAG)
  {
    if writes != [] {
      AboutKind(writes[..|writes| - 1], key, custom, stod);
      assert Attributed(writes[|writes| - 1]);
    }
  }

  /** The entry for a container whose messages are these, those without tags of their own first. */
  function EntryFor(plain: seq<Write>, tagged: seq<Write>, stod: Stod): ContainerMetrics {
    ContainerMetrics(UntaggedList(plain, stod), TaggedLists(tagged, stod))
  }

  lemma EntryNext(plain: seq<Write>, tagged: seq<Write>, w: Write, known: bool, stod: Stod)
    requires SameKind(plain, known) && (Sender(w).Known? <==> known)
    ensures Extended(EntryFor(plain, tagged, stod), w, stod)
            == if CustomTags(w, stod) == [] then EntryFor(plain + [w], tagged, stod) else EntryFor(plain, tagged + [w], stod)
  {
    if CustomTags(w, stod) == [] {
      UntaggedListNext(plain, w, known, stod);
    } else {
      assert (tagged + [w])[..|tagged|] == tagged;
    }
  }

  lemma AboutNext(writes: seq<Write>, w: Write, key: string, custom: bool, stod: Stod)
    ensures About(writes + [w], key, custom, stod) == About(writes, key, custom, stod)
            + if KeyOf(w) == key && (CustomTags(w, stod) != []) == custom then [w] else []
  {
    assert (writes + [w])[..|writes|] == writes;
  }

  lemma MapNext(writes: seq<Write>, w: Write, stod: Stod)
    ensures MapAfter(writes + [w], stod) == Added(MapAfter(writes, stod), w, stod)
  {
    assert (writes + [w])[..|writes|] == writes;
  }

  /** The map has exactly these messages for a container. */
  ghost predicate HasExactly(m: MetricMap, key: string, plain: seq<Write>, tagged: seq<Write>, stod: Stod) {
    && (key in m <==> plain != [] || tagged != [])
    && MetricsFor(m, key) == EntryFor(plain, tagged, stod)
  }

  lemma {:induction false} HasExactlyNext(
      m: MetricMap, w: Write, plain: seq<Write>, tagged: seq<Write>, known: bool, stod: Stod)
    requires HasExactly(m, KeyOf(w), plain, tagged, stod)
    requires SameKind(plain, known) && (Sender(w).Known? <==> known)
    ensures if CustomTags(w, stod) == [] then HasExactly(Added(m, w, stod), KeyOf(w), plain + [w], tagged, stod)
            else HasExactly(Added(m, w, stod), KeyOf(w), plain, tagged + [w], stod)
  {
    EntryNext(plain, tagged, w, known, stod);
  }

  /** The lists of every container are exactly those of its messages. */
  lemma {:induction false} MapMeans(writes: seq<Write>, key: string, stod: Stod)
    requires forall w :: w in writes ==> Attributed(w)
    ensures HasExactly(MapAfter(writes, stod), key, About(writes, key, false, stod), About(writes, key, true, stod), stod)
  {
    if writes != [] {
      var before, w := writes[..|writes| - 1], writes[|writes| - 1];
      var plain, tagged := About(before, key, false, stod), About(before, key, true, stod);
      assert writes == before + [w];
      assert Attributed(w);
      MapMeans(before, key, stod);
      MapNext(before, w, stod);
      AboutNext(before, w, key, false, stod);
      AboutNext(before, w, key, true, stod);
      assert plain + [] == plain && tagged + [] == tagged;
      if KeyOf(w) == key {
        AboutKind(before, key, false, stod);
        HasExactlyNext(MapAfter(before, stod), w, plain, tagged, key != UNKNOWN_CONTAINER_TAG, stod);
      }
    }
  }

  lemma {:induction false} TaggedListsAt(writes: seq<Write>, i: nat, stod: Stod)
    requires i < |writes|
    ensures |TaggedLists(writes, stod)| == |writes| && TaggedLists(writes, stod)[i] == TaggedList(writes[i], stod)
  {
    var before, n := writes[..|writes| - 1], |writes| - 1;
    var lists := TaggedLists(before, stod);
    PointsLength(before, stod);
    assert TaggedLists(writes, stod) == lists + [TaggedList(writes[n], stod)];
    if i < n {
      TaggedListsAt(before, i, stod);
      assert before[i] == writes[i];
    }
  }

  lemma {:induction false} PointsLength(writes: seq<Write>, stod: Stod)
    ensures |PointsOf(writes, stod)| == |writes|
    ensures |TaggedLists(writes, stod)| == |writes|
  {
    if writes != [] {
      PointsLength(writes[..|writes| - 1], stod);
    }
  }

  /** `empty` holds of exactly the lists without datapoints. */
  lemma EmptyMeansNoPoints(writes: seq<Write>, key: string, stod: Stod)
    requires forall w :: w in writes ==> Attributed(w)
    ensures var cm := MetricsFor(MapAfter(writes, stod), key);
            && (Empty(cm.withoutCustomTags) <==> cm.withoutCustomTags.datapoints == [])
            && (forall i :: 0 <= i < |cm.withCustomTags| ==>
                  !Empty(cm.withCustomTags[i]) && |cm.withCustomTags[i].datapoints| == 1)
  {
    MapMeans(writes, key, stod);
    var plain, tagged := About(writes, key, false, stod), About(writes, key, true, stod);
    PointsLength(plain, stod);
    PointsLength(tagged, stod);
    var lists := TaggedLists(tagged, stod);
    forall i | 0 <= i < |lists|
      ensures |lists[i].datapoints| == 1
    {
      TaggedListsAt(tagged, i, stod);
    }
  }

  // ---- Blocks

  function NonEmpty(lists: seq<MetricList>): seq<MetricList> {
    if lists == [] then []
    else if Empty(lists[0]) then NonEmpty(lists[1..])
    else [lists[0]] + NonEmpty(lists[1..])
  }

  /** The lists of a container that are written: the untagged one first. */
  function Written(cm: ContainerMetrics): seq<MetricList> {
    NonEmpty([cm.withoutCustomTags] + cm.withCustomTags)
  }

  function WrittenOf(m: MetricMap, keys: seq<string>): seq<MetricList> {
    if keys == [] then [] else Written(MetricsFor(m, keys[0])) + WrittenOf(m, keys[1..])
  }

  /** The lists of a block, container by container in the order of their ids. */
  ghost function Block(m: MetricMap): seq<MetricList> {
    WrittenOf(m, InOrder(m.Keys))
  }

  /**
   * The byte encoding of numbers and lists, of which it can hold some: a real encoding has integers and floating-point
   * numbers of a fixed size.
   */
  datatype Codec = Codec(
    number: int -> string, list: MetricList -> string, sync: string,
    readNumber: string -> (int, string), readList: string -> (MetricList, string),
    fits: int -> bool, holds: MetricList -> bool)

  /** Decoding what the encoding can hold gives it back and leaves what follows. */
  ghost predicate Decodes(codec: Codec) {
    && (forall n, rest :: codec.fits(n) ==> codec.readNumber(codec.number(n) + rest) == (n, rest))
    && (forall l, rest :: codec.holds(l) ==> codec.readList(codec.list(l) + rest) == (l, rest))
  }

  /** No number is encoded as nothing, so that a block with any list has bytes. */
  ghost predicate NumbersShow(codec: Codec) {
    forall n :: codec.number(n) != ""
  }

  /** The encoding can hold these lists and the two counts of their block. */
  ghost predicate Holds(lists: seq<MetricList>, codec: Codec) {
    && (forall i :: 0 <= i < |lists| ==> codec.holds(lists[i]))
    && codec.fits(|lists|) && codec.fits(|Encoded(lists, codec)|)
  }

  function Encoded(lists: seq<MetricList>, codec: Codec): string {
    if lists == [] then "" else codec.list(lists[0]) + Encoded(lists[1..], codec)
  }

  /** A block: how many lists, how many bytes, the lists, and the sync marker; nothing at all without lists. */
  function Framed(lists: seq<MetricList>, codec: Codec): string {
    if lists == [] then ""
    else codec.number(|lists|) + codec.number(|Encoded(lists, codec)|) + Encoded(lists, codec) + codec.sync
  }

  lemma {:induction false} EncodedConcat(a: seq<MetricList>, b: seq<MetricList>, codec: Codec)
    ensures Encoded(a + b, codec) == Encoded(a, codec) + Encoded(b, codec)
  {
    if a == [] {
      assert [] + b == b;
      assert "" + Encoded(b, codec) == Encoded(b, codec);
    } else {
      TailOfConcat(a, b);
      EncodedConcat(a[1..], b, codec);
      Concat3(codec.list(a[0]), Encoded(a[1..], codec), Encoded(b, codec));
    }
  }

  method EncodeLists(lists: seq<MetricList>, codec: Codec) returns (objCount: nat, data: string)
    ensures objCount == |NonEmpty(lists)| && data == Encoded(NonEmpty(lists), codec)
  {
    objCount, data := 0, "";
    ProgressStart(NonEmpty(lists), codec);
    assert lists[0..] == lists;
    for i := 0 to |lists|
      invariant Progress(objCount, data, NonEmpty(lists[i..]), NonEmpty(lists), codec)
    {
      DropSlice(lists, i, i, 0);
      if !Empty(lists[i]) {
        ProgressStep(objCount, data, [lists[i]], NonEmpty(lists[i + 1..]), NonEmpty(lists), codec);
        EncodedOne(lists[i], codec);
        objCount := objCount + 1;
        data := data + codec.list(lists[i]);
      }
    }
    ProgressEnd(objCount, data, NonEmpty(lists), codec);
  }

  lemma EncodedOne(list: MetricList, codec: Codec)
    ensures Encoded([list], codec) == codec.list(list)
  {
    assert codec.list(list) + "" == codec.list(list);
  }

  /** `count` lists encoded as `data` so far, out of `all`, with `rest` to come. */
  ghost predicate Progress(count: nat, data: string, rest: seq<MetricList>, all: seq<MetricList>, codec: Codec) {
    exists done :: done + rest == all && count == |done| && data == Encoded(done, codec)
  }

  lemma ProgressStep(
      count: nat, data: string, first: seq<MetricList>, rest: seq<MetricList>, all: seq<MetricList>, codec: Codec)
    requires Progress(count, data, first + rest, all, codec)
    ensures Progress(count + |first|, data + Encoded(first, codec), rest, all, codec)
  {
    var done :| done + (first + rest) == all && count == |done| && data == Encoded(done, codec);
    EncodedConcat(done, first, codec);
    Concat3(done, first, rest);
    var longer := done + first;
    assert longer + rest == all && count + |first| == |longer|;
  }

  lemma ProgressStart(all: seq<MetricList>, codec: Codec)
    ensures Progress(0, "", all, all, codec)
  {
    assert [] + all == all;
    assert Encoded([], codec) == "";
  }

  lemma WrittenNext(m: MetricMap, keys: seq<string>, i: nat)
    requires i < |keys| && keys[i] in m
    ensures WrittenOf(m, keys[i..]) == Written(m[keys[i]]) + WrittenOf(m, keys[i + 1..])
  {
    DropSlice(keys, i, i, 0);
  }

  method EncodeContainers(m: MetricMap, keys: seq<string>, codec: Codec) returns (objCount: nat, data: string)
    requires forall i :: 0 <= i < |keys| ==> keys[i] in m
    ensures objCount == |WrittenOf(m, keys)| && data == Encoded(WrittenOf(m, keys), codec)
  {
    objCount, data := 0, "";
    ghost var all := WrittenOf(m, keys);
    ProgressStart(all, codec);
    assert keys[0..] == keys;
    for i := 0 to |keys|
      invariant Progress(objCount, data, WrittenOf(m, keys[i..]), all, codec)
    {
      WrittenNext(m, keys, i);
      var cm := m[keys[i]];
      var count, encoded := EncodeLists([cm.withoutCustomTags] + cm.withCustomTags, codec);
      ProgressStep(objCount, data, Written(cm), WrittenOf(m, keys[i + 1..]), all, codec);
      objCount, data := objCount + count, data + encoded;
    }
    ProgressEnd(objCount, data, all, codec);
  }

  method EncodeMetricsBlock(m: MetricMap, codec: Codec) returns (bytes: string)
    ensures bytes == Framed(Block(m), codec)
  {
    var keys := ListInOrder(m.Keys);
    InOrderMeans(m.Keys);
    assert forall i :: 0 <= i < |keys| ==> keys[i] in Elements(keys);
    var objCount, data := EncodeContainers(m, keys, codec);
    if objCount == 0 {
      return "";
    }
    bytes := codec.number(objCount) + codec.number(|data|) + data + codec.sync;
  }

  lemma ProgressEnd(count: nat, data: string, all: seq<MetricList>, codec: Codec)
    requires Progress(count, data, [], all, codec)
    ensures count == |all| && data == Encoded(all, codec)
  {
    var done :| done + [] == all && count == |done| && data == Encoded(done, codec);
    assert done + [] == done;
  }

  function ReadLists(bytes: string, count: nat, codec: Codec): (seq<MetricList>, string)
    decreases count
  {
    if count == 0 then ([], bytes)
    else
      var (first, rest) := codec.readList(bytes);
      var (more, left) := ReadLists(rest, count - 1, codec);
      ([first] + more, left)
  }

  /** Reads a block and returns its lists and what follows it. */
  function ReadBlock(bytes: string, codec: Codec): Option<(seq<MetricList>, string)> {
    var (count, rest) := codec.readNumber(bytes);
    var (size, data) := codec.readNumber(rest);
    if count < 0 || size < 0 || size > |data| then None
    else
      var (lists, left) := ReadLists(data[..size], count, codec);
      var n, after := |codec.sync|, data[size..];
      if left != "" || n > |after| || after[..n] != codec.sync then None else Some((lists, after[n..]))
  }

  lemma {:induction false} ReadEncoded(lists: seq<MetricList>, codec: Codec)
    requires Decodes(codec) && forall i :: 0 <= i < |lists| ==> codec.holds(lists[i])
    ensures ReadLists(Encoded(lists, codec), |lists|, codec) == (lists, "")
  {
    if lists != [] {
      assert codec.holds(lists[0]);
      ReadEncoded(lists[1..], codec);
      assert codec.readList(codec.list(lists[0]) + Encoded(lists[1..], codec)) == (lists[0], Encoded(lists[1..], codec));
      assert lists == [lists[0]] + lists[1..];
    }
  }

  /** A block in a stream reads back as the lists that were written, whatever follows it. */
  lemma BlockRoundTrip(lists: seq<MetricList>, codec: Codec, following: string)
    requires Decodes(codec) && Holds(lists, codec) && lists != []
    ensures ReadBlock(Framed(lists, codec) + following, codec) == Some((lists, following))
  {
    var data := Encoded(lists, codec);
    var n, size, sync := codec.number(|lists|), codec.number(|data|), codec.sync;
    var tail := data + (sync + following);
    Concat5(n, size, data, sync, following);
    assert n + size + data + sync + following == n + (size + tail) by {
      Concat4(size, data, sync, following);
      Concat3(data, sync, following);
      Concat3(size, data, sync + following);
    }
    assert codec.readNumber(n + (size + tail)) == (|lists|, size + tail);
    assert codec.readNumber(size + tail) == (|data|, tail);
    ReadEncoded(lists, codec);
    assert tail[..|data|] == data && tail[|data|..] == sync + following;
    assert (sync + following)[..|sync|] == sync && (sync + following)[|sync|..] == following;
  }

  // ---- Every point is written exactly once

  function AllPoints(lists: seq<MetricList>): multiset<Datapoint> {
    if lists == [] then multiset{} else multiset(lists[0].datapoints) + AllPoints(lists[1..])
  }

  function Bag(m: MetricMap, keys: seq<string>): multiset<Datapoint> {
    if keys == [] then multiset{} else PointsFor(m, keys[0]) + Bag(m, keys[1..])
  }

  function PointsFor(m: MetricMap, key: string): multiset<Datapoint> {
    EntryPoints(MetricsFor(m, key))
  }

  function EntryPoints(cm: ContainerMetrics): multiset<Datapoint> {
    AllPoints([cm.withoutCustomTags] + cm.withCustomTags)
  }

  lemma {:induction false} AllPointsConcat(a: seq<MetricList>, b: seq<MetricList>)
    ensures AllPoints(a + b) == AllPoints(a) + AllPoints(b)
  {
    if a == [] {
      assert [] + b == b;
    } else {
      TailOfConcat(a, b);
      AllPointsConcat(a[1..], b);
    }
  }

  lemma {:induction false} NonEmptyPoints(lists: seq<MetricList>)
    ensures AllPoints(NonEmpty(lists)) == AllPoints(lists)
  {
    if lists != [] {
      NonEmptyPoints(lists[1..]);
      if !Empty(lists[0]) {
        TailOfCons(lists[0], NonEmpty(lists[1..]));
      }
    }
  }

  lemma {:induction false} WrittenPoints(m: MetricMap, keys: seq<string>)
    ensures AllPoints(WrittenOf(m, keys)) == Bag(m, keys)
  {
    if keys != [] {
      var cm := MetricsFor(m, keys[0]);
      WrittenPoints(m, keys[1..]);
      AllPointsConcat(Written(cm), WrittenOf(m, keys[1..]));
      NonEmptyPoints([cm.withoutCustomTags] + cm.withCustomTags);
    }
  }

  lemma PointsOfEntry(first: MetricList, more: seq<MetricList>)
    ensures AllPoints([first] + more) == multiset(first.datapoints) + AllPoints(more)
  {
    TailOfCons(first, more);
  }

  lemma {:induction false} ExtendedPlain(cm: ContainerMetrics, w: Write, stod: Stod)
    requires CustomTags(w, stod) == []
    ensures EntryPoints(Extended(cm, w, stod)) == EntryPoints(cm) + multiset{PointOf(w, stod)}
  {
    var points, p, more := cm.withoutCustomTags.datapoints, PointOf(w, stod), AllPoints(cm.withCustomTags);
    PointsOfEntry(cm.withoutCustomTags, cm.withCustomTags);
    PointsOfEntry(Extended(cm, w, stod).withoutCustomTags, cm.withCustomTags);
    assert multiset(points + [p]) + more == multiset(points) + more + multiset{p};
  }

  lemma {:induction false} ExtendedTagged(cm: ContainerMetrics, w: Write, stod: Stod)
    requires CustomTags(w, stod) != []
    ensures EntryPoints(Extended(cm, w, stod)) == EntryPoints(cm) + multiset{PointOf(w, stod)}
  {
    var list := TaggedList(w, stod);
    PointsOfEntry(cm.withoutCustomTags, cm.withCustomTags);
    PointsOfEntry(cm.withoutCustomTags, cm.withCustomTags + [list]);
    AllPointsConcat(cm.withCustomTags, [list]);
    PointsOfEntry(list, []);
    assert [list] + [] == [list];
  }

  lemma {:induction false} ExtendedPoints(m: MetricMap, w: Write, stod: Stod)
    ensures PointsFor(Added(m, w, stod), KeyOf(w)) == PointsFor(m, KeyOf(w)) + multiset{PointOf(w, stod)}
  {
    if CustomTags(w, stod) == [] {
      ExtendedPlain(MetricsFor(m, KeyOf(w)), w, stod);
    } else {
      ExtendedTagged(MetricsFor(m, KeyOf(w)), w, stod);
    }
  }

  lemma {:induction false} BagElsewhere(m: MetricMap, w: Write, keys: seq<string>, stod: Stod)
    requires KeyOf(w) !in keys
    ensures Bag(Added(m, w, stod), keys) == Bag(m, keys)
  {
    if keys != [] {
      BagElsewhere(m, w, keys[1..], stod);
      PointsElsewhere(m, w, keys[0], stod);
    }
  }

  lemma PointsElsewhere(m: MetricMap, w: Write, key: string, stod: Stod)
    requires key != KeyOf(w)
    ensures PointsFor(Added(m, w, stod), key) == PointsFor(m, key)
  {
  }

  lemma {:induction false} BagUpdated(m: MetricMap, w: Write, keys: seq<string>, stod: Stod)
    requires Ascending(keys) && KeyOf(w) in keys
    ensures Bag(Added(m, w, stod), keys) == Bag(m, keys) + multiset{PointOf(w, stod)}
  {
    var after, x := Added(m, w, stod), multiset{PointOf(w, stod)};
    var head, rest := keys[0], keys[1..];
    if head == KeyOf(w) {
      BelowIsStrict(head, head);
      BagElsewhere(m, w, rest, stod);
      ExtendedPoints(m, w, stod);
      assert PointsFor(m, head) + x + Bag(m, rest) == PointsFor(m, head) + Bag(m, rest) + x;
    } else {
      BagUpdated(m, w, rest, stod);
      PointsElsewhere(m, w, head, stod);
      assert PointsFor(m, head) + (Bag(m, rest) + x) == PointsFor(m, head) + Bag(m, rest) + x;
    }
  }

  lemma {:induction false} BagInserted(m: MetricMap, keys: seq<string>, x: string)
    requires x !in keys && x !in m
    ensures Bag(m, Insert(keys, x)) == Bag(m, keys)
  {
    NothingFor(m, x);
    if keys == [] {
      assert Bag(m, [x]) == PointsFor(m, x) + Bag(m, []);
    } else if Below(x, keys[0]) {
      TailOfCons(x, keys);
    } else {
      TailOfCons(keys[0], Insert(keys[1..], x));
      BagInserted(m, keys[1..], x);
    }
  }

  lemma NothingFor(m: MetricMap, x: string)
    requires x !in m
    ensures PointsFor(m, x) == multiset{}
  {
    assert [EMPTY_LIST] + [] == [EMPTY_LIST];
    assert AllPoints([EMPTY_LIST]) == multiset(EMPTY_LIST.datapoints) + AllPoints([]);
  }

  lemma InOrderOneMore(keys: set<string>, x: string)
    requires x !in keys
    ensures InOrder(keys + {x}) == Insert(InOrder(keys), x) && x !in InOrder(keys)
  {
    InOrderMeans(keys);
    InOrderMeans(keys + {x});
    InsertElements(InOrder(keys), x);
    InsertKeepsOrder(InOrder(keys), x);
    OrderIsUnique(InOrder(keys + {x}), Insert(InOrder(keys), x));
    assert x !in Elements(InOrder(keys));
  }

  lemma AddedPoints(m: MetricMap, w: Write, stod: Stod)
    ensures AllPoints(Block(Added(m, w, stod))) == AllPoints(Block(m)) + multiset{PointOf(w, stod)}
  {
    var key, after := KeyOf(w), Added(m, w, stod);
    InOrderMeans(m.Keys);
    InOrderMeans(after.Keys);
    WrittenPoints(m, InOrder(m.Keys));
    WrittenPoints(after, InOrder(after.Keys));
    assert key in Elements(InOrder(after.Keys));
    if key in m {
      assert after.Keys == m.Keys;
      BagUpdated(m, w, InOrder(m.Keys), stod);
    } else {
      assert after.Keys == m.Keys + {key};
      InOrderOneMore(m.Keys, key);
      BagUpdated(m, w, InOrder(after.Keys), stod);
      BagInserted(m, InOrder(m.Keys), key);
    }
  }

  /** A block holds the point of every message exactly once. */
  lemma {:induction false} BlockHoldsEachPoint(writes: seq<Write>, stod: Stod)
    ensures AllPoints(Block(MapAfter(writes, stod))) == multiset(PointsOf(writes, stod))
    ensures |AllPoints(Block(MapAfter(writes, stod)))| == |writes|
  {
    PointsLength(writes, stod);
    if writes == [] {
      InOrderMeans({});
      assert InOrder({}) == [];
    } else {
      var before, w := writes[..|writes| - 1], writes[|writes| - 1];
      BlockHoldsEachPoint(before, stod);
      AddedPoints(MapAfter(before, stod), w, stod);
      var points, point := PointsOf(before, stod), PointOf(w, stod);
      assert multiset(points + [point]) == multiset(points) + multiset{point};
    }
  }

  lemma {:induction false} ListPoints(lists: seq<MetricList>, i: nat, p: Datapoint)
    requires i < |lists| && p in lists[i].datapoints
    ensures p in AllPoints(lists)
  {
    if i > 0 {
      ListPoints(lists[1..], i - 1, p);
    }
  }

  lemma {:induction false} PointWritten(writes: seq<Write>, p: Datapoint, stod: Stod) returns (w: Write)
    requires p in PointsOf(writes, stod)
    ensures w in writes && p == PointOf(w, stod)
  {
    var before, last := writes[..|writes| - 1], writes[|writes| - 1];
    if p == PointOf(last, stod) {
      w := last;
    } else {
      w := PointWritten(before, p, stod);
    }
  }

  /** Every datapoint of a block is that of one of its messages. */
  lemma {:induction false} BlockPoint(writes: seq<Write>, i: nat, p: Datapoint, stod: Stod) returns (w: Write)
    requires i < |Block(MapAfter(writes, stod))| && p in Block(MapAfter(writes, stod))[i].datapoints
    ensures w in writes && p == PointOf(w, stod)
  {
    ListPoints(Block(MapAfter(writes, stod)), i, p);
    BlockHoldsEachPoint(writes, stod);
    w := PointWritten(writes, p, stod);
  }

}
