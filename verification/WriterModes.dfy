/** What each annotation mode puts on the wire, byte for byte. */
module WriterModes {
  import opened Wrappers
  import opened Sequences
  import opened Text
  import opened Memory
  import opened StatsdTagger
  import opened StatsdWriter

  // ---- No annotation, and key prefixes

  /** The message itself. */
  lemma PlainMode(m: Message)
    ensures Tagged(PLAIN, m) == m.data
  {
  }

  function Underscored(id: string): string {
    seq(|id|, i requires 0 <= i < |id| => if id[i] == '.' then '_' else id[i])
  }

  lemma PrefixedText(id: string, rest: string)
    ensures Prefixed(id, rest) == Underscored(id) + "." + rest
  {
    assert DotsReplaced(id) == Underscored(id);
  }

  /** Framework, executor and container, each with its dots replaced and followed by one, and then the message. */
  lemma KeyPrefixMode(m: Message)
    ensures Tagged(KEY_PREFIX, m) ==
            if m.containerId.None? || m.executorInfo.None? then "unknown_container" + "." + m.data
            else
              Underscored(m.executorInfo.value.frameworkId) + "." + (Underscored(m.executorInfo.value.executorId) + "." +
                (Underscored(m.containerId.value) + "." + m.data))
  {
    if m.containerId.Some? && m.executorInfo.Some? {
      var info, c := m.executorInfo.value, m.containerId.value;
      PrefixedText(c, m.data);
      PrefixedText(info.executorId, Prefixed(c, m.data));
      PrefixedText(info.frameworkId, Prefixed(info.executorId, Prefixed(c, m.data)));
    }
  }

  // ---- Datadog tags

  /** The tags that name the sender, as text. */
  function SenderText(m: Message): string {
    if m.containerId.None? || m.executorInfo.None? then "unknown_container"
    else
      "framework_id" + ":" + m.executorInfo.value.frameworkId + "," +
      ("executor_id" + ":" + m.executorInfo.value.executorId) + "," +
      ("container_id" + ":" + m.containerId.value)
  }

  lemma SenderTextIs(m: Message)
    ensures TagText(OwnerOf(m.containerId, m.executorInfo)) == SenderText(m)
  {
  }

  /** The text has a tag section that starts at `i`. */
  predicate TagsAt(data: string, i: nat) {
    i + 1 < |data| && data[i] == '|' && data[i + 1] == '#'
  }

  lemma MatchIsTagsAt(data: string, i: nat)
    ensures MatchAt(data, DATADOG_TAG_PREFIX, i) <==> TagsAt(data, i)
  {
    if i + 2 <= |data| {
      assert data[i..i + 2] == [data[i], data[i + 1]];
      assert DATADOG_TAG_PREFIX == ['|', '#'];
    }
  }

  lemma FirstTags(data: string)
    ensures var r := FirstMatch(data, DATADOG_TAG_PREFIX, 0);
            && (r.Some? ==> TagsAt(data, r.value))
            && (forall i: nat :: TagsAt(data, i) ==> r.Some? && r.value <= i)
  {
    FirstMatchMeans(data, DATADOG_TAG_PREFIX, 0);
    forall i: nat
      ensures MatchAt(data, DATADOG_TAG_PREFIX, i) <==> TagsAt(data, i)
    {
      MatchIsTagsAt(data, i);
    }
  }

  /** A message without tags of its own gets a section for the sender's. */
  lemma {:induction false} DatadogModeWithoutTags(m: Message)
    requires forall i: nat :: !TagsAt(m.data, i)
    ensures Tagged(TAG_DATADOG, m) == m.data + ("|#" + SenderText(m))
  {
    FirstTags(m.data);
    SenderTextIs(m);
    assert PlanFor(m.data) == Plan(FIRST_TAG, |m.data|);
    assert m.data[..|m.data|] == m.data && m.data[|m.data|..] == "";
  }

  /** What separates the sender's tags from those already there: nothing, if these end in a comma or there are none. */
  function Comma(tags: string): string {
    if tags != "" && tags[|tags| - 1] != ',' && tags[|tags| - 1] != '#' then "," else ""
  }

  /** Where the first tag section of a message lies. */
  lemma {:induction false} SectionLies(data: string, head: string, marker: string, tags: string, rest: string, end: nat)
    requires marker == "|#" && data == head + marker + tags + rest && end == |head| + 2 + |tags|
    requires '|' !in tags && (rest == "" || rest[0] == '|')
    ensures end <= |data| && data[..end] == head + marker + tags && data[end..] == rest
    ensures TagsAt(data, |head|) && SectionEnd(data, |head|) == end
    ensures data[end - 1] == if tags == "" then '#' else tags[|tags| - 1]
  {
    var start := |head|;
    assert data[start] == '|' && data[start + 1] == '#';
    assert forall k :: start + 2 <= k < end ==> data[k] == tags[k - (start + 2)];
    assert end < |data| ==> data[end] == rest[0];
    SectionEndIs(data, start, end);
  }

  lemma {:induction false} FirstTagsAt(data: string, start: nat)
    requires TagsAt(data, start) && forall i: nat :: i < start ==> !TagsAt(data, i)
    ensures FirstMatch(data, DATADOG_TAG_PREFIX, 0) == Some(start)
  {
    FirstTags(data);
  }

  lemma {:induction false} PlanIs(data: string, start: nat, end: nat, tags: string)
    requires TagsAt(data, start) && FirstMatch(data, DATADOG_TAG_PREFIX, 0) == Some(start)
    requires SectionEnd(data, start) == end && data[end - 1] == if tags == "" then '#' else tags[|tags| - 1]
    ensures PlanFor(data).insertIndex == end && Delimiter(PlanFor(data).mode) == Comma(tags)
  {
  }

  /** A message with tags of its own gets the sender's at the end of its first tag section. */
  lemma {:induction false} DatadogModeWithTags(m: Message, head: string, marker: string, tags: string, rest: string)
    requires marker == "|#" && m.data == head + marker + tags + rest
    requires forall i: nat :: i < |head| ==> !TagsAt(m.data, i)
    requires '|' !in tags && (rest == "" || rest[0] == '|')
    ensures Tagged(TAG_DATADOG, m) == (head + marker + tags) + (Comma(tags) + SenderText(m)) + rest
  {
    var data, end := m.data, |head| + 2 + |tags|;
    SectionLies(data, head, marker, tags, rest, end);
    FirstTagsAt(data, |head|);
    PlanIs(data, |head|, end, tags);
    SenderTextIs(m);
  }

}
