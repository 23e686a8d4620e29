/** The collector's reading of a list of datapoints: whose it is, and the tags that each datapoint ends up with. */
module Framework {
  import opened Wrappers
  import opened StatsdTagger
  import opened StatsdParser
  import Avro = AvroEncoder

  type Labels = map<string, string>

  datatype TaskInfo = TaskInfo(id: string, name: string, labels: seq<Tag>)

  datatype Dimensions = Dimensions(
    containerId: string, executorId: string, frameworkId: string, taskId: string, taskName: string, labels: Labels)

  datatype Datapoint = Datapoint(name: string, value: real, tags: Labels)

  datatype Message = Message(dimensions: Dimensions, datapoints: seq<Datapoint>)

  /** Labels that the package manager sets and nobody wants to see. */
  function CosmosLabels(): set<string> {
    {"DCOS_PACKAGE_DEFINITION", "DCOS_PACKAGE_FRAMEWORK_NAME", "DCOS_PACKAGE_METADATA", "DCOS_PACKAGE_OPTIONS",
     "DCOS_PACKAGE_SOURCE", "DCOS_SERVICE_PORT_INDEX", "DCOS_SERVICE_SCHEME", "MARATHON_SINGLE_INSTANCE_APP"}
  }

  predicate Reserved(key: string) {
    key == CONTAINER_ID_DATADOG_KEY || key == FRAMEWORK_ID_DATADOG_KEY || key == EXECUTOR_ID_DATADOG_KEY
  }

  /** Labels with further ones set in order, so that the last value for a key stays. */
  function Overridden(labels: Labels, tags: seq<Tag>): Labels {
    if tags == [] then labels
    else
      var last := tags[|tags| - 1];
      Overridden(labels, tags[..|tags| - 1])[last.key := last.value]
  }

  function Visible(labels: seq<Tag>): seq<Tag> {
    if labels == [] then []
    else
      var last := labels[|labels| - 1];
      Visible(labels[..|labels| - 1]) + if last.key in CosmosLabels() then [] else [last]
  }

  /** The labels of a task. */
  function TaskLabels(labels: seq<Tag>): Labels {
    Overridden(map[], Visible(labels))
  }

  function TagExtracted(d: Dimensions, tag: Tag, tasks: map<string, TaskInfo>): Dimensions {
    if tag.key == CONTAINER_ID_DATADOG_KEY then
      var named := d.(containerId := tag.value);
      if tag.value in tasks then
        var info := tasks[tag.value];
        named.(taskId := info.id, taskName := info.name, labels := TaskLabels(info.labels))
      else named
    else if tag.key == FRAMEWORK_ID_DATADOG_KEY then d.(frameworkId := tag.value)
    else if tag.key == EXECUTOR_ID_DATADOG_KEY then d.(executorId := tag.value)
    else d.(labels := d.labels[tag.key := tag.value])
  }

  function Extracted(d: Dimensions, tags: seq<Tag>, tasks: map<string, TaskInfo>): Dimensions {
    if tags == [] then d
    else TagExtracted(Extracted(d, tags[..|tags| - 1], tasks), tags[|tags| - 1], tasks)
  }

  function NoDimensions(): Dimensions {
    Dimensions("", "", "", "", "", map[])
  }

  function TaggedPoints(points: seq<Avro.Datapoint>, labels: Labels): seq<Datapoint> {
    seq(|points|, i requires 0 <= i < |points| => Datapoint(points[i].name, points[i].value, labels))
  }

  /** A list without tags, or without datapoints, is an error: it yields no datapoint. */
  function Transformed(list: Avro.MetricList, tasks: map<string, TaskInfo>): Option<Message> {
    if list.tags == [] || list.datapoints == [] then None
    else
      var d := Extracted(NoDimensions(), list.tags, tasks);
      Some(Message(d.(labels := map[]), TaggedPoints(list.datapoints, d.labels)))
  }

  // ---- Which label a key ends up with

  function Lookup(labels: Labels, key: string): Option<string> {
    if key in labels then Some(labels[key]) else None
  }

  /** A key has the value of the tag that is the last one to set it. */
  lemma {:induction false} LastTagStays(labels: Labels, tags: seq<Tag>, i: nat)
    requires i < |tags| && forall j :: i < j < |tags| ==> tags[j].key != tags[i].key
    ensures Lookup(Overridden(labels, tags), tags[i].key) == Some(tags[i].value)
  {
    var before, n := tags[..|tags| - 1], |tags| - 1;
    if i < n {
      assert tags[n].key != tags[i].key && before[i] == tags[i];
      LastTagStays(labels, before, i);
    }
  }

  /** A key that no tag sets has the value it had. */
  lemma {:induction false} UnsetLabelStays(labels: Labels, tags: seq<Tag>, key: string)
    requires forall i :: 0 <= i < |tags| ==> tags[i].key != key
    ensures Lookup(Overridden(labels, tags), key) == Lookup(labels, key)
  {
    if tags != [] {
      assert tags[|tags| - 1].key != key;
      UnsetLabelStays(labels, tags[..|tags| - 1], key);
    }
  }

  /** The labels of the package manager. */
  predicate Hidden(key: string) {
    || key == "DCOS_PACKAGE_DEFINITION" || key == "DCOS_PACKAGE_FRAMEWORK_NAME" || key == "DCOS_PACKAGE_METADATA"
    || key == "DCOS_PACKAGE_OPTIONS" || key == "DCOS_PACKAGE_SOURCE" || key == "DCOS_SERVICE_PORT_INDEX"
    || key == "DCOS_SERVICE_SCHEME" || key == "MARATHON_SINGLE_INSTANCE_APP"
  }

  /** Of the labels of a task, those of the package manager are left out, and all others have their last value. */
  lemma {:induction false} TaskLabelAt(labels: seq<Tag>, key: string)
    ensures Lookup(TaskLabels(labels), key) == if Hidden(key) then None else Lookup(Overridden(map[], labels), key)
  {
    if labels != [] {
      var before, last := labels[..|labels| - 1], labels[|labels| - 1];
      TaskLabelAt(before, key);
      HiddenLabels(last.key);
      OverriddenNext(map[], Visible(before), last);
      assert Visible(before) + [] == Visible(before);
    }
  }

  lemma HiddenLabels(key: string)
    ensures Hidden(key) <==> key in CosmosLabels()
  {
  }

  // ---- The step-by-step reading

  lemma OverriddenNext(labels: Labels, tags: seq<Tag>, tag: Tag)
    ensures Overridden(labels, tags + [tag]) == Overridden(labels, tags)[tag.key := tag.value]
  {
    assert (tags + [tag])[..|tags|] == tags;
  }

  method ConvertLabels(newLabels: seq<Tag>) returns (result: Labels)
    ensures result == TaskLabels(newLabels)
  {
    result := map[];
    for i := 0 to |newLabels|
      invariant result == TaskLabels(newLabels[..i])
    {
      var kv := newLabels[i];
      assert newLabels[..i + 1][..i] == newLabels[..i];
      OverriddenNext(map[], Visible(newLabels[..i]), kv);
      assert Visible(newLabels[..i]) + [] == Visible(newLabels[..i]);
      if kv.key in CosmosLabels() {
        continue;
      }
      result := result[kv.key := kv.value];
    }
    assert newLabels[..|newLabels|] == newLabels;
  }

  method ExtractTags(tags: seq<Tag>, initial: Dimensions, tasks: map<string, TaskInfo>) returns (r: Option<Dimensions>)
    ensures r == if tags == [] then None else Some(Extracted(initial, tags, tasks))
  {
    if |tags| == 0 {
      return None;
    }
    var d := initial;
    for i := 0 to |tags|
      invariant d == Extracted(initial, tags[..i], tasks)
    {
      assert tags[..i + 1][..i] == tags[..i];
      var tag := tags[i];
      if tag.key == CONTAINER_ID_DATADOG_KEY {
        d := d.(containerId := tag.value);
        if tag.value in tasks {
          var info := tasks[tag.value];
          var labels := ConvertLabels(info.labels);
          d := d.(taskId := info.id, taskName := info.name, labels := labels);
        }
      } else if tag.key == FRAMEWORK_ID_DATADOG_KEY {
        d := d.(frameworkId := tag.value);
      } else if tag.key == EXECUTOR_ID_DATADOG_KEY {
        d := d.(executorId := tag.value);
      } else {
        d := d.(labels := d.labels[tag.key := tag.value]);
      }
    }
    assert tags[..|tags|] == tags;
    return Some(d);
  }

  /** A copy of the labels, made in whatever order the map lists them. */
  method CopyLabels(labels: Labels) returns (copy: Labels)
    ensures copy == labels
  {
    copy := map[];
    var left := labels.Keys;
    while left != {}
      invariant left <= labels.Keys
      invariant copy.Keys == labels.Keys - left
      invariant forall k :: k in copy ==> copy[k] == labels[k]
      decreases left
    {
      var k :| k in left;
      copy, left := copy[k := labels[k]], left - {k};
    }
  }

  method Transform(list: Avro.MetricList, tasks: map<string, TaskInfo>) returns (r: Option<Message>)
    ensures r == Transformed(list, tasks)
  {
    var extracted := ExtractTags(list.tags, NoDimensions(), tasks);
    if extracted.None? || |list.datapoints| == 0 {
      return None;
    }
    var d := extracted.value;
    var points := seq(|list.datapoints|, i requires 0 <= i < |list.datapoints| =>
      Datapoint(list.datapoints[i].name, list.datapoints[i].value, map[]));
    for i := 0 to |points|
      invariant |points| == |list.datapoints|
      invariant forall k :: 0 <= k < i ==> points[k] == Datapoint(list.datapoints[k].name, list.datapoints[k].value, d.labels)
      invariant forall k :: i <= k < |points| ==> points[k] == Datapoint(list.datapoints[k].name, list.datapoints[k].value, map[])
    {
      var tags := CopyLabels(d.labels);
      points := points[i := points[i].(tags := tags)];
    }
    assert points == TaggedPoints(list.datapoints, d.labels);
    return Some(Message(d.(labels := map[]), points));
  }

  // ---- Which tags survive

  /** The number of tags up to and including the last container id that belongs to a task. */
  function LastKnown(tags: seq<Tag>, tasks: map<string, TaskInfo>): (n: nat)
    ensures n <= |tags|
  {
    if tags == [] then 0
    else
      var last := tags[|tags| - 1];
      if Resets(last, tasks) then |tags|
      else LastKnown(tags[..|tags| - 1], tasks)
  }

  function LabelsAt(tags: seq<Tag>, tasks: map<string, TaskInfo>): Labels {
    if tags == [] then map[]
    else
      var last := tags[|tags| - 1];
      if Resets(last, tasks) then TaskLabels(tasks[last.value].labels)
      else LabelsAt(tags[..|tags| - 1], tasks)
  }

  function Custom(tags: seq<Tag>): seq<Tag> {
    if tags == [] then []
    else
      var last := tags[|tags| - 1];
      Custom(tags[..|tags| - 1]) + if Reserved(last.key) then [] else [last]
  }

  /** Whether a tag resets the labels to those of a task. */
  predicate Resets(tag: Tag, tasks: map<string, TaskInfo>) {
    tag.key == CONTAINER_ID_DATADOG_KEY && tag.value in tasks
  }

  lemma CustomNext(tags: seq<Tag>, tag: Tag)
    ensures Custom(tags + [tag]) == Custom(tags) + if Reserved(tag.key) then [] else [tag]
  {
    assert (tags + [tag])[..|tags|] == tags;
  }

  lemma OverriddenCustom(labels: Labels, tags: seq<Tag>, tag: Tag)
    ensures var before := Overridden(labels, Custom(tags));
            Overridden(labels, Custom(tags + [tag])) == if Reserved(tag.key) then before else before[tag.key := tag.value]
  {
    CustomNext(tags, tag);
    assert Custom(tags) + [] == Custom(tags);
    OverriddenNext(labels, Custom(tags), tag);
  }

  /** Exactly the custom tags after the last container id that belongs to a task survive; those before it are lost. */
  lemma {:induction false} SurvivingTags(tags: seq<Tag>, tasks: map<string, TaskInfo>)
    ensures Extracted(NoDimensions(), tags, tasks).labels
            == Overridden(LabelsAt(tags, tasks), Custom(tags[LastKnown(tags, tasks)..]))
  {
    if tags != [] {
      var before, last := tags[..|tags| - 1], tags[|tags| - 1];
      assert tags == before + [last];
      SurvivingTags(before, tasks);
      SurvivingNext(before, last, tags, tasks);
    }
  }

  lemma {:induction false} KnownNext(before: seq<Tag>, last: Tag, tags: seq<Tag>, tasks: map<string, TaskInfo>)
    requires tags == before + [last]
    ensures LastKnown(tags, tasks) == if Resets(last, tasks) then |tags| else LastKnown(before, tasks)
    ensures LabelsAt(tags, tasks)
            == if Resets(last, tasks) then TaskLabels(tasks[last.value].labels) else LabelsAt(before, tasks)
  {
    assert tags[..|tags| - 1] == before;
  }

  lemma {:induction false} RestNext(before: seq<Tag>, last: Tag, tags: seq<Tag>, n: nat)
    requires tags == before + [last] && n <= |before|
    ensures tags[n..] == before[n..] + [last] && tags[|tags|..] == []
  {
  }

  lemma {:induction false} SurvivingNext(before: seq<Tag>, last: Tag, tags: seq<Tag>, tasks: map<string, TaskInfo>)
    requires tags == before + [last]
    requires Extracted(NoDimensions(), before, tasks).labels
             == Overridden(LabelsAt(before, tasks), Custom(before[LastKnown(before, tasks)..]))
    ensures Extracted(NoDimensions(), tags, tasks).labels
            == Overridden(LabelsAt(tags, tasks), Custom(tags[LastKnown(tags, tasks)..]))
  {
    var n, labels := LastKnown(before, tasks), LabelsAt(before, tasks);
    var rest := before[n..];
    ExtractedNext(NoDimensions(), before, last, tasks);
    KnownNext(before, last, tags, tasks);
    RestNext(before, last, tags, n);
    OverriddenCustom(labels, rest, last);
  }

  predicate NoneReserved(tags: seq<Tag>) {
    forall i :: 0 <= i < |tags| ==> !Reserved(tags[i].key)
  }

  lemma ExtractedNext(d: Dimensions, tags: seq<Tag>, tag: Tag, tasks: map<string, TaskInfo>)
    ensures Extracted(d, tags + [tag], tasks) == TagExtracted(Extracted(d, tags, tasks), tag, tasks)
  {
    assert (tags + [tag])[..|tags|] == tags;
  }

  function LabelsOf(owner: Owner, tasks: map<string, TaskInfo>): Labels {
    if owner.Known? && owner.containerId in tasks then TaskLabels(tasks[owner.containerId].labels) else map[]
  }

  /** The dimensions that name a sender, and its task if that is known. */
  function SenderDimensions(owner: Owner, tasks: map<string, TaskInfo>): Dimensions {
    match owner
    case Unknown => NoDimensions()
    case Known(containerId, frameworkId, executorId) =>
      if containerId in tasks then
        Dimensions(containerId, executorId, frameworkId, tasks[containerId].id, tasks[containerId].name, map[])
      else Dimensions(containerId, executorId, frameworkId, "", "", map[])
  }

  /** The datapoints of a sender, labelled like its task with tags of their own laid over. */
  function MessageOf(owner: Owner, points: seq<Avro.Datapoint>, custom: seq<Tag>, tasks: map<string, TaskInfo>): Message {
    Message(SenderDimensions(owner, tasks), TaggedPoints(points, Overridden(LabelsOf(owner, tasks), custom)))
  }

  lemma {:induction false} IdsAlone(owner: Owner, tasks: map<string, TaskInfo>)
    ensures Extracted(NoDimensions(), Avro.IdTags(owner), tasks)
            == SenderDimensions(owner, tasks).(labels := LabelsOf(owner, tasks))
  {
    if owner.Known? {
      var f := Tag(FRAMEWORK_ID_DATADOG_KEY, owner.frameworkId);
      var e := Tag(EXECUTOR_ID_DATADOG_KEY, owner.executorId);
      var c := Tag(CONTAINER_ID_DATADOG_KEY, owner.containerId);
      assert Avro.IdTags(owner) == [] + [f] + [e] + [c];
      ExtractedNext(NoDimensions(), [], f, tasks);
      ExtractedNext(NoDimensions(), [] + [f], e, tasks);
      ExtractedNext(NoDimensions(), [] + [f] + [e], c, tasks);
      Avro.KeysDiffer();
    }
  }

  /** Tags that name a sender, if it is known, followed by tags of the message's own. */
  lemma {:induction false} IdsThenCustom(owner: Owner, custom: seq<Tag>, tasks: map<string, TaskInfo>)
    requires NoneReserved(custom)
    ensures Extracted(NoDimensions(), Avro.IdTags(owner) + custom, tasks)
            == SenderDimensions(owner, tasks).(labels := Overridden(LabelsOf(owner, tasks), custom))
  {
    var ids := Avro.IdTags(owner);
    if custom == [] {
      assert ids + custom == ids;
      IdsAlone(owner, tasks);
    } else {
      var before, last := custom[..|custom| - 1], custom[|custom| - 1];
      assert ids + custom == (ids + before) + [last];
      assert !Reserved(last.key);
      IdsThenCustom(owner, before, tasks);
      ExtractedNext(NoDimensions(), ids + before, last, tasks);
    }
  }

  /**
   * A message with tags of its own arrives with them laid over the labels of its task; from an unknown container, with
   * them alone.
   */
  lemma {:induction false} CustomTagsSurvive(w: Avro.Write, stod: Stod, tasks: map<string, TaskInfo>)
    requires NoneReserved(Avro.CustomTags(w, stod)) && Avro.CustomTags(w, stod) != []
    ensures Transformed(Avro.TaggedList(w, stod), tasks)
            == Some(MessageOf(Avro.Sender(w), [Avro.PointOf(w, stod)], Avro.CustomTags(w, stod), tasks))
  {
    Avro.FreshInitialized(Avro.Sender(w));
    IdsThenCustom(Avro.Sender(w), Avro.CustomTags(w, stod), tasks);
  }

  /** Messages without tags of their own arrive, in order, with the labels of their task. */
  lemma {:induction false} UntaggedPointsSurvive(writes: seq<Avro.Write>, stod: Stod, tasks: map<string, TaskInfo>)
    requires writes != [] && Avro.Sender(writes[0]).Known?
    ensures Transformed(Avro.UntaggedList(writes, stod), tasks)
            == Some(MessageOf(Avro.Sender(writes[0]), Avro.PointsOf(writes, stod), [], tasks))
  {
    IdsAlone(Avro.Sender(writes[0]), tasks);
    Avro.PointsLength(writes, stod);
  }

  /** Messages from an unknown container without tags of their own all yield no datapoint. */
  lemma {:induction false} UnknownUntaggedRefused(writes: seq<Avro.Write>, stod: Stod, tasks: map<string, TaskInfo>)
    requires writes != [] && Avro.Sender(writes[0]).Unknown?
    ensures Avro.UntaggedList(writes, stod).datapoints != []
    ensures Transformed(Avro.UntaggedList(writes, stod), tasks).None?
  {
    Avro.PointsLength(writes, stod);
  }

}
