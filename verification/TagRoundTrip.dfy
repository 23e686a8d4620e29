/** The tagger prints, and the parser reads, one format: what parsing a tagged message gives. */
module TagRoundTrip {
  import opened Wrappers
  import opened Sequences
  import opened Text
  import opened Memory
  import opened StatsdTagger
  import opened StatsdParser

  /** Ids that carry no delimiter of the format. */
  predicate CleanOwner(owner: Owner) {
    owner.Known? ==>
      forall c :: c == ',' || c == '|' ==> c !in owner.frameworkId && c !in owner.executorId && c !in owner.containerId
  }

  /** The tags that name the sender. */
  function OwnerTags(owner: Owner): seq<Tag> {
    match owner
    case Unknown => [Tag(UNKNOWN_CONTAINER_TAG, "")]
    case Known(containerId, frameworkId, executorId) =>
      [Tag(FRAMEWORK_ID_DATADOG_KEY, frameworkId), Tag(EXECUTOR_ID_DATADOG_KEY, executorId),
       Tag(CONTAINER_ID_DATADOG_KEY, containerId)]
  }

  /** All tags of a message's tag sections, in order. */
  function TagsIn(sections: seq<string>): seq<Tag> {
    if sections == [] then []
    else (if IsTagSection(sections[0]) then TagList(sections[0][1..]) else []) + TagsIn(sections[1..])
  }

  /** The same tags with the sender's spliced in right after the first tag section's, or at the end. */
  function SplicedTags(sections: seq<string>, owner: Owner): seq<Tag> {
    if sections == [] then OwnerTags(owner)
    else if IsTagSection(sections[0]) then TagList(sections[0][1..]) + OwnerTags(owner) + TagsIn(sections[1..])
    else SplicedTags(sections[1..], owner)
  }

  /** The first tag section, if there is one, is `#` alone or does not end in `#`. */
  predicate Spliceable(sections: seq<string>) {
    if sections == [] then true
    else if IsTagSection(sections[0]) then |sections[0]| == 1 || sections[0][|sections[0]| - 1] != '#'
    else Spliceable(sections[1..])
  }

  // ---- Where the tagger writes, in terms of sections

  function JoiningDelimiter(section: string): string
    requires section != ""
  {
    var last := section[|section| - 1];
    if last == ',' || last == '#' then "" else DATADOG_TAG_DIVIDER
  }

  /** The sections of a message into which `text` was put as further tags. */
  function TaggedSections(sections: seq<string>, text: string): seq<string> {
    if sections == [] then ["#" + text]
    else if IsTagSection(sections[0]) then [sections[0] + JoiningDelimiter(sections[0]) + text] + sections[1..]
    else [sections[0]] + TaggedSections(sections[1..], text)
  }

  function Shift(found: Option<nat>, k: nat): Option<nat> {
    if found.None? then None else Some(k + found.value)
  }

  lemma {:induction false} FirstMatchShift(haystack: string, rest: string, needle: string, k: nat, from: nat)
    requires k <= |haystack| && rest == haystack[k..] && from <= |rest|
    ensures FirstMatch(haystack, needle, k + from) == Shift(FirstMatch(rest, needle, from), k)
    decreases |rest| - from
  {
    if from + |needle| <= |rest| {
      assert haystack[k + from..k + from + |needle|] == rest[from..from + |needle|];
      if !MatchAt(rest, needle, from) && from < |rest| {
        FirstMatchShift(haystack, rest, needle, k, from + 1);
      }
    }
  }

  /** Before the first byte of the needle nothing can match. */
  lemma MatchFromFirst(data: string, needle: string, i: nat)
    requires needle != "" && i == IndexOf(data, needle[0])
    ensures FirstMatch(data, needle, 0) == FirstMatch(data, needle, i)
  {
    forall j | 0 <= j < i ensures !MatchAt(data, needle, j) {
      assert j + |needle| <= |data| ==> data[j..j + |needle|][0] == data[j];
    }
    FirstMatchSkip(data, needle, 0, i);
  }

  lemma MatchNowhere(data: string)
    requires '|' !in data
    ensures FirstMatch(data, DATADOG_TAG_PREFIX, 0) == None
  {
    IndexOfNone(data, '|');
    MatchFromFirst(data, DATADOG_TAG_PREFIX, |data|);
  }

  /** A message cut at its first delimiter; `from` is where the first section starts. */
  lemma CutAtDelimiter(data: string, head: string, rest: string, from: nat)
    requires data == head + ['|'] + rest && '|' !in head && from == |head| + 1
    ensures IndexOf(data, '|') == |head| && from <= |data| && data[from..] == rest
    ensures data[..from] == head + ['|']
  {
    IndexOfAt(data, '|', |head|);
  }

  lemma MatchHere(data: string, head: string, rest: string)
    requires data == head + ['|'] + rest && '|' !in head && rest != "" && rest[0] == '#'
    ensures FirstMatch(data, DATADOG_TAG_PREFIX, 0) == Some(|head|)
  {
    var i := |head|;
    CutAtDelimiter(data, head, rest, i + 1);
    MatchFromFirst(data, DATADOG_TAG_PREFIX, i);
    assert data[i..i + 2] == [data[i], data[i + 1]];
  }

  lemma MatchLater(data: string, head: string, rest: string, from: nat)
    requires data == head + ['|'] + rest && '|' !in head && from == |head| + 1
    requires rest == "" || rest[0] != '#'
    ensures FirstMatch(data, DATADOG_TAG_PREFIX, 0) == Shift(FirstMatch(rest, DATADOG_TAG_PREFIX, 0), from)
  {
    CutAtDelimiter(data, head, rest, from);
    var i := |head|;
    MatchFromFirst(data, DATADOG_TAG_PREFIX, i);
    assert i + 2 <= |data| ==> data[i..i + 2][1] == rest[0];
    assert FirstMatch(data, DATADOG_TAG_PREFIX, i) == FirstMatch(data, DATADOG_TAG_PREFIX, from);
    FirstMatchShift(data, rest, DATADOG_TAG_PREFIX, from, 0);
  }

  lemma WithTagsIs(data: string, p: Plan, head: string, tail: string, inserted: string, text: string)
    requires PlanFor(data) == p && data == head + tail && p.insertIndex == |head|
    requires inserted == Delimiter(p.mode) + text
    ensures WithTags(data, text) == head + inserted + tail
  {
    assert data[..|head|] == head && data[|head|..] == tail;
  }

  lemma TaggedWithoutSections(data: string, text: string)
    requires '|' !in data
    ensures WithTags(data, text) == data + ['|'] + ("#" + text)
  {
    MatchNowhere(data);
    var inserted := DATADOG_TAG_PREFIX + text;
    NothingAfter(data);
    WithTagsIs(data, Plan(FIRST_TAG, |data|), data, "", inserted, text);
    NothingAfter(data + inserted);
    PrefixApart(data, text);
  }

  lemma NothingAfter(s: string)
    ensures s + "" == s
  {
  }

  lemma PrefixApart(data: string, text: string)
    ensures data + (DATADOG_TAG_PREFIX + text) == data + ['|'] + ("#" + text)
  {
    assert DATADOG_TAG_PREFIX == ['|'] + "#";
    Concat4(data, ['|'], "#", text);
    Concat3(data, ['|'] + "#", text);
    Concat3(data, ['|'], "#");
  }

  lemma PlanHere(data: string, head: string, section: string, more: string, end: nat)
    requires data == head + ['|'] + (section + more) && end == |head| + 1 + |section|
    requires '|' !in head && '|' !in section && IsTagSection(section) && (more == "" || more[0] == '|')
    ensures PlanFor(data).insertIndex == end
    ensures Delimiter(PlanFor(data).mode) == JoiningDelimiter(section)
  {
    var i := |head|;
    MatchHere(data, head, section + more);
    forall k | i < k < end ensures data[k] != '|' {
      assert data[k] == section[k - i - 1];
    }
    SectionEndIs(data, i, end);
    assert data[end - 1] == section[|section| - 1];
  }

  lemma TaggedFirstSection(data: string, text: string, head: string, section: string, more: string, tagged: string)
    requires data == head + ['|'] + (section + more)
    requires '|' !in head && '|' !in section && IsTagSection(section) && (more == "" || more[0] == '|')
    requires tagged == section + JoiningDelimiter(section) + text
    ensures WithTags(data, text) == head + ['|'] + (tagged + more)
  {
    var delimiter, front := JoiningDelimiter(section), head + ['|'];
    var end, before := |head| + 1 + |section|, front + section;
    PlanHere(data, head, section, more, end);
    Concat3(front, section, more);
    WithTagsIs(data, PlanFor(data), before, more, delimiter + text, text);
    Concat5(front, section, delimiter, text, more);
    Concat4(front, section, delimiter, text);
    Concat3(before, delimiter, text);
    Concat3(front, tagged, more);
    Concat3(section, delimiter, text);
    Concat3(front, section, delimiter + text);
  }

  lemma SectionEndShift(data: string, rest: string, from: nat, m: nat, at: nat)
    requires from <= |data| && rest == data[from..] && m < |rest| && at == from + m
    ensures SectionEnd(data, at) == from + SectionEnd(rest, m)
    ensures data[SectionEnd(data, at) - 1] == rest[SectionEnd(rest, m) - 1]
  {
    var next, next' := m + 1, at + 1;
    DropSlice(data, from, next', next);
    assert data[next'..] == rest[next..];
  }

  lemma PlanAtShift(data: string, rest: string, from: nat, found: Option<nat>, shifted: Option<nat>)
    requires from <= |data| && rest == data[from..]
    requires found.Some? ==> found.value < |rest|
    requires shifted == Shift(found, from)
    ensures PlanAt(data, shifted).mode == PlanAt(rest, found).mode
    ensures PlanAt(data, shifted).insertIndex == from + PlanAt(rest, found).insertIndex
  {
    if found.Some? {
      SectionEndShift(data, rest, from, found.value, shifted.value);
    }
  }

  lemma PlanLater(data: string, head: string, rest: string, from: nat)
    requires data == head + ['|'] + rest && '|' !in head && from == |head| + 1
    requires rest == "" || rest[0] != '#'
    ensures PlanFor(data) == Plan(PlanFor(rest).mode, from + PlanFor(rest).insertIndex)
  {
    MatchLater(data, head, rest, from);
    CutAtDelimiter(data, head, rest, from);
    PlanAtShift(data, rest, from, FirstMatch(rest, DATADOG_TAG_PREFIX, 0), FirstMatch(data, DATADOG_TAG_PREFIX, 0));
  }

  lemma TaggedLaterSection(data: string, text: string, head: string, rest: string)
    requires data == head + ['|'] + rest && '|' !in head
    requires rest == "" || rest[0] != '#'
    ensures WithTags(data, text) == head + ['|'] + WithTags(rest, text)
  {
    var from, q, front := |head| + 1, PlanFor(rest), head + ['|'];
    PlanLater(data, head, rest, from);
    var before, after, inserted := rest[..q.insertIndex], rest[q.insertIndex..], Delimiter(q.mode) + text;
    CutAt(rest, q.insertIndex);
    WithTagsIs(rest, q, before, after, inserted, text);
    Concat3(front, before, after);
    WithTagsIs(data, PlanFor(data), front + before, after, inserted, text);
    Concat4(front, before, inserted, after);
  }

  lemma TagTextFree(owner: Owner)
    requires CleanOwner(owner)
    ensures '|' !in TagText(owner)
  {
    TagTextWithout(owner, '|');
  }

  /** A section followed by nothing, or by a delimiter and more sections. */
  lemma SplitSectionAnd(section: string, more: string)
    requires '|' !in section
    requires more == "" || more[0] == '|'
    ensures Split(section + more, '|') == [section] + if more == "" then [] else Split(more[1..], '|')
  {
    if more == "" {
      NothingAfter(section);
      SplitFree(section, '|');
    } else {
      var rest := more[1..];
      assert more == ['|'] + rest;
      Concat3(section, ['|'], rest);
      SplitHead(section, '|', rest);
    }
  }

  lemma SplitTaggedHere(data: string, text: string, head: string, section: string, more: string)
    requires data == head + ['|'] + (section + more) && '|' !in text
    requires '|' !in head && '|' !in section && IsTagSection(section) && (more == "" || more[0] == '|')
    ensures Split(WithTags(data, text), '|') == [Split(data, '|')[0]] + TaggedSections(Sections(data), text)
  {
    var tagged := section + JoiningDelimiter(section) + text;
    TaggedFirstSection(data, text, head, section, more, tagged);
    SplitHead(head, '|', section + more);
    SplitHead(head, '|', tagged + more);
    SplitSectionAnd(section, more);
    SplitSectionAnd(tagged, more);
    TailOfCons(head, Split(section + more, '|'));
    TailOfCons(section, if more == "" then [] else Split(more[1..], '|'));
  }

  /** Tagging changes exactly one section, or adds one. */
  lemma {:induction false} SplitTagged(data: string, text: string)
    requires '|' !in text
    ensures Split(WithTags(data, text), '|') == [Split(data, '|')[0]] + TaggedSections(Sections(data), text)
    decreases |data|
  {
    var i := IndexOf(data, '|');
    SplitStep(data, '|');
    if i == |data| {
      assert data[..i] == data;
      TaggedWithoutSections(data, text);
      SplitHead(data, '|', "#" + text);
      SplitFree("#" + text, '|');
      TailOfCons(data, []);
    } else {
      var head, rest := data[..i], data[i + 1..];
      TailOfCons(head, Split(rest, '|'));
      if rest != "" && rest[0] == '#' {
        var k := IndexOf(rest, '|');
        SplitStep(rest, '|');
        CutAt(rest, k);
        SplitTaggedHere(data, text, head, rest[..k], rest[k..]);
      } else {
        SplitTaggedLater(data, text, head, rest);
      }
    }
  }

  lemma SplitTaggedLater(data: string, text: string, head: string, rest: string)
    requires data == head + ['|'] + rest && '|' !in head && '|' !in text
    requires rest == "" || rest[0] != '#'
    ensures Split(WithTags(data, text), '|') == [Split(data, '|')[0]] + TaggedSections(Sections(data), text)
    decreases |data|, 0
  {
    TaggedLaterSection(data, text, head, rest);
    SplitHead(head, '|', WithTags(rest, text));
    SplitHead(head, '|', rest);
    SplitTagged(rest, text);
    TailOfCons(head, Split(rest, '|'));
    NotATagSection(rest);
    Concat3([head], [Split(rest, '|')[0]], TaggedSections(Sections(rest), text));
  }

  lemma NotATagSection(rest: string)
    requires rest == "" || rest[0] != '#'
    ensures !IsTagSection(Split(rest, '|')[0])
    ensures Split(rest, '|') == [Split(rest, '|')[0]] + Sections(rest)
  {
    SplitStep(rest, '|');
  }

  // ---- What tag lists mean

  lemma {:induction false} TagsOfConcat(a: seq<string>, b: seq<string>)
    ensures TagsOf(a + b) == TagsOf(a) + TagsOf(b)
  {
    if a == [] {
      assert a + b == b;
    } else {
      TagsOfConcat(a[1..], b);
      TailOfConcat(a, b);
      Concat3(AddTag([], TagOf(a[0])), TagsOf(a[1..]), TagsOf(b));
    }
  }

  lemma TagListConcat(a: string, b: string)
    ensures TagList(a + "," + b) == TagList(a) + TagList(b)
  {
    SplitConcat(a, ',', b);
    TagsOfConcat(Split(a, ','), Split(b, ','));
  }

  lemma TagsOfOne(piece: string)
    ensures TagsOf([piece]) == AddTag([], TagOf(piece))
  {
    TagsOfStep(piece, []);
    assert [piece] + [] == [piece];
  }

  lemma TagListOne(piece: string)
    requires ',' !in piece
    ensures TagList(piece) == AddTag([], TagOf(piece))
  {
    SplitFree(piece, ',');
    TagsOfOne(piece);
  }

  predicate CleanKey(key: string) {
    ':' !in key && ',' !in key && key != ""
  }

  lemma KeyValueTag(key: string, value: string)
    requires CleanKey(key) && ',' !in value
    ensures TagList(KeyValue(key, value)) == [Tag(key, value)]
    ensures ',' !in KeyValue(key, value)
  {
    var piece := KeyValue(key, value);
    IndexOfAt(piece, ':', |key|);
    assert piece[..|key|] == key && piece[|key| + 1..] == value;
    TagListOne(piece);
  }

  lemma TwoTags(k2: string, v2: string, k3: string, v3: string)
    requires CleanKey(k2) && CleanKey(k3) && ',' !in v2 && ',' !in v3
    ensures TagList(KeyValue(k2, v2) + "," + KeyValue(k3, v3)) == [Tag(k2, v2), Tag(k3, v3)]
  {
    KeyValueTag(k2, v2);
    KeyValueTag(k3, v3);
    TagListConcat(KeyValue(k2, v2), KeyValue(k3, v3));
  }

  lemma ThreeTags(k1: string, v1: string, k2: string, v2: string, k3: string, v3: string)
    requires CleanKey(k1) && CleanKey(k2) && CleanKey(k3) && ',' !in v1 && ',' !in v2 && ',' !in v3
    ensures TagList(KeyValue(k1, v1) + "," + KeyValue(k2, v2) + "," + KeyValue(k3, v3)) ==
            [Tag(k1, v1), Tag(k2, v2), Tag(k3, v3)]
  {
    TwoTags(k1, v1, k2, v2);
    KeyValueTag(k3, v3);
    var front := KeyValue(k1, v1) + "," + KeyValue(k2, v2);
    TagListConcat(front, KeyValue(k3, v3));
  }

  lemma KeysClean()
    ensures CleanKey(FRAMEWORK_ID_DATADOG_KEY) && CleanKey(EXECUTOR_ID_DATADOG_KEY) && CleanKey(CONTAINER_ID_DATADOG_KEY)
  {
  }

  lemma UnknownClean()
    ensures CleanKey(UNKNOWN_CONTAINER_TAG)
  {
  }

  lemma BareTag(key: string)
    requires CleanKey(key)
    ensures TagList(key) == [Tag(key, "")]
  {
    IndexOfNone(key, ':');
    TagListOne(key);
  }

  lemma TagTextMeans(owner: Owner)
    requires CleanOwner(owner)
    ensures TagList(TagText(owner)) == OwnerTags(owner)
  {
    if owner.Known? {
      KeysClean();
      ThreeTags(FRAMEWORK_ID_DATADOG_KEY, owner.frameworkId, EXECUTOR_ID_DATADOG_KEY, owner.executorId,
                CONTAINER_ID_DATADOG_KEY, owner.containerId);
    } else {
      UnknownClean();
      BareTag(UNKNOWN_CONTAINER_TAG);
    }
  }

  lemma TagListTrailingComma(b: string)
    ensures TagList(b + ",") == TagList(b)
  {
    TagListConcat(b, "");
    NothingAfter(b + ",");
    EmptyTagList();
    assert TagList(b) + [] == TagList(b);
  }

  /** A list that ends in `#` swallows the first added tag: one tag fewer than there should be. */
  lemma TagListMerged(body: string, owner: Owner)
    requires CleanOwner(owner)
    requires body != "" && body[|body| - 1] == '#'
    ensures |TagList(body + TagText(owner))| == |TagList(body)| + |OwnerTags(owner)| - 1
  {
    if owner.Known? {
      KeysClean();
      KeyValueTag(FRAMEWORK_ID_DATADOG_KEY, owner.frameworkId);
      TwoTags(EXECUTOR_ID_DATADOG_KEY, owner.executorId, CONTAINER_ID_DATADOG_KEY, owner.containerId);
      MergedList(body, KeyValue(FRAMEWORK_ID_DATADOG_KEY, owner.frameworkId),
                 KeyValue(EXECUTOR_ID_DATADOG_KEY, owner.executorId), KeyValue(CONTAINER_ID_DATADOG_KEY, owner.containerId));
    } else {
      UnknownClean();
      MergedPiece(body, UNKNOWN_CONTAINER_TAG);
    }
  }

  lemma MergedList(body: string, f: string, e: string, c: string)
    requires ',' !in f
    requires body != "" && body[|body| - 1] == '#'
    ensures |TagList(body + (f + "," + e + "," + c))| == |TagList(body)| + |TagList(e + "," + c)|
  {
    var ec := e + "," + c;
    MergedPiece(body, f);
    TagListConcat(body + f, ec);
    MergedShape(body, f, ",", e, c);
  }

  lemma MergedShape(body: string, f: string, comma: string, e: string, c: string)
    ensures body + (f + comma + e + comma + c) == body + f + comma + (e + comma + c)
  {
    Concat4(f + comma, e, comma, c);
    Concat3(body, f + comma, e + comma + c);
    Concat3(body, f, comma);
  }

  lemma MergedPiece(body: string, t: string)
    requires ',' !in t
    requires body != "" && body[|body| - 1] == '#'
    ensures |TagList(body + t)| == |TagList(body)|
  {
    var parts := Split(body, ',');
    var init, last := parts[..|parts| - 1], parts[|parts| - 1];
    SplitExtend(body, ',', t);
    LastPiece(parts);
    HashInLastPiece(body);
    TagsOfConcat(init, [last]);
    TagsOfConcat(init, [last + t]);
    NonEmptyPiece(last);
    NonEmptyPiece(last + t);
  }

  lemma LastOfCons(head: string, parts: seq<string>)
    requires parts != []
    ensures ([head] + parts)[|parts|] == parts[|parts| - 1]
  {
  }

  lemma {:induction false} HashInLastPiece(body: string)
    requires body != "" && body[|body| - 1] == '#'
    ensures var parts := Split(body, ',');
            '#' in parts[|parts| - 1]
    decreases |body|
  {
    SplitStep(body, ',');
    var i := IndexOf(body, ',');
    if i < |body| {
      var rest := body[i + 1..];
      assert rest != "" && rest[|rest| - 1] == '#';
      HashInLastPiece(rest);
      LastOfCons(body[..i], Split(rest, ','));
    } else {
      assert body[..i] == body;
    }
  }

  lemma NonEmptyPiece(piece: string)
    requires '#' in piece
    ensures |TagsOf([piece])| == 1
  {
    var i := IndexOf(piece, ':');
    if i < |piece| {
      CutAt(piece, i);
    }
    TagsOfOne(piece);
  }

  /** One tag section, with `text` written at its end. */
  lemma SectionTagged(body: string, text: string)
    ensures var section := "#" + body;
            var tagged := section + JoiningDelimiter(section) + text;
            && IsTagSection(tagged)
            && (Spliceable([section]) ==> TagList(tagged[1..]) == TagList(body) + TagList(text))
            && (!Spliceable([section]) ==> body != "" && body[|body| - 1] == '#' && tagged[1..] == body + text)
  {
    var section := "#" + body;
    var delimiter := JoiningDelimiter(section);
    Concat4("#", body, delimiter, text);
    Concat3(body, delimiter, text);
    Concat3("#", body, delimiter + text);
    TailOfCons('#', body + (delimiter + text));
    if body == "" {
      EmptyTagList();
      assert body + (delimiter + text) == text;
      assert [] + TagList(text) == TagList(text);
    } else {
      var last, b := body[|body| - 1], body[..|body| - 1];
      assert last == section[|section| - 1];
      if last == '#' {
        assert delimiter + text == text;
      } else if last == ',' {
        assert delimiter + text == text && body == b + ",";
        TagListTrailingComma(b);
        TagListConcat(b, text);
      } else {
        TagListConcat(body, text);
      }
    }
  }

  // ---- Reading the tagged sections

  lemma {:induction false} TagsRead(r: Reading, sections: seq<string>, stod: Stod)
    ensures ApplySections(r, sections, stod).tags == r.tags + TagsIn(sections)
    decreases |sections|
  {
    if sections != [] {
      var next := ApplySection(r, sections[0], stod);
      TagsRead(next, sections[1..], stod);
      Concat3(r.tags, if IsTagSection(sections[0]) then TagList(sections[0][1..]) else [], TagsIn(sections[1..]));
      assert r.tags + [] == r.tags;
    } else {
      assert r.tags + [] == r.tags;
    }
  }

  /** The value read does not depend on the tags read. */
  lemma ValueIgnoresTags(r: Reading, tags: seq<Tag>, sections: seq<string>, stod: Stod)
    ensures ApplySections(r.(tags := tags), sections, stod).value == ApplySections(r, sections, stod).value
  {
    var plain := r.(tags := []);
    TagsPassThrough(plain, tags, sections, stod);
    TagsPassThrough(plain, r.tags, sections, stod);
    assert tags + [] == tags && r.tags + [] == r.tags;
  }

  lemma {:induction false} ValueRead(r: Reading, sections: seq<string>, text: string, stod: Stod)
    ensures ApplySections(r, TaggedSections(sections, text), stod).value == ApplySections(r, sections, stod).value
    decreases |sections|
  {
    if sections == [] {
      assert ["#" + text] + [] == ["#" + text];
      ApplyNext(r, "#" + text, [], stod);
    } else {
      var s := sections[0];
      var next := ApplySection(r, s, stod);
      if IsTagSection(s) {
        var tagged := s + JoiningDelimiter(s) + text;
        assert tagged[0] == s[0];
        ApplyNext(r, tagged, sections[1..], stod);
        ValueIgnoresTags(next, ApplySection(r, tagged, stod).tags, sections[1..], stod);
        assert ApplySection(r, tagged, stod) == next.(tags := ApplySection(r, tagged, stod).tags);
      } else {
        ApplyNext(r, s, TaggedSections(sections[1..], text), stod);
        ValueRead(next, sections[1..], text, stod);
      }
    }
  }

  /** The first tag section found, with the sender's tags at its end. */
  lemma TagsSplicedHere(section: string, rest: seq<string>, owner: Owner)
    requires CleanOwner(owner) && IsTagSection(section)
    ensures var tagged := [section + JoiningDelimiter(section) + TagText(owner)] + rest;
            var spliced := TagList(section[1..]) + OwnerTags(owner) + TagsIn(rest);
            && (Spliceable([section]) ==> TagsIn(tagged) == spliced)
            && (!Spliceable([section]) ==> |TagsIn(tagged)| == |spliced| - 1)
  {
    var text, body := TagText(owner), section[1..];
    assert section == "#" + body;
    TagTextMeans(owner);
    SectionTagged(body, text);
    TagsInStep(section + JoiningDelimiter(section) + text, rest);
    if !Spliceable([section]) {
      TagListMerged(body, owner);
    }
  }

  lemma TagsSplicedAlone(owner: Owner)
    requires CleanOwner(owner)
    ensures TagsIn(["#" + TagText(owner)]) == OwnerTags(owner)
  {
    var section := "#" + TagText(owner);
    TagTextMeans(owner);
    TailOfCons('#', TagText(owner));
    TagsInStep(section, []);
    assert [section] + [] == [section];
    assert OwnerTags(owner) + [] == OwnerTags(owner);
  }

  /** A section without tags changes nothing. */
  lemma TagsInNone(section: string, rest: seq<string>)
    requires !IsTagSection(section)
    ensures TagsIn([section] + rest) == TagsIn(rest)
  {
    TagsInStep(section, rest);
    assert [] + TagsIn(rest) == TagsIn(rest);
  }

  lemma {:induction false} TagsSpliced(sections: seq<string>, owner: Owner)
    requires CleanOwner(owner)
    ensures Spliceable(sections) ==> TagsIn(TaggedSections(sections, TagText(owner))) == SplicedTags(sections, owner)
    ensures !Spliceable(sections) ==>
              |TagsIn(TaggedSections(sections, TagText(owner)))| == |SplicedTags(sections, owner)| - 1
  {
    var text := TagText(owner);
    if sections == [] {
      TagsSplicedAlone(owner);
    } else if IsTagSection(sections[0]) {
      TagsSplicedHere(sections[0], sections[1..], owner);
    } else {
      TagsSpliced(sections[1..], owner);
      TagsInNone(sections[0], TaggedSections(sections[1..], text));
    }
  }

  lemma TagsInStep(section: string, rest: seq<string>)
    ensures TagsIn([section] + rest) == (if IsTagSection(section) then TagList(section[1..]) else []) + TagsIn(rest)
  {
    TailOfCons(section, rest);
  }

  /**
   * Parsing the tagged bytes gives the name and the value of the message as it came. Its tags are those of the
   * message with the sender's spliced in after the first tag section, if and only if that section is `#` alone or
   * does not end in `#`; otherwise exactly one tag is lost.
   */
  lemma ParseTagged(data: string, owner: Owner, stod: Stod)
    requires CleanOwner(owner)
    ensures var plain, tagged := Parse(data, stod), Parse(DatadogTagged(data, owner), stod);
            && tagged.name == plain.name
            && tagged.value == plain.value
            && plain.tags == TagsIn(Sections(data))
            && (tagged.tags == SplicedTags(Sections(data), owner) <==> Spliceable(Sections(data)))
            && (!Spliceable(Sections(data)) ==> |tagged.tags| == |plain.tags| + |OwnerTags(owner)| - 1)
  {
    var head, sections := Split(data, '|')[0], Sections(data);
    var text := TagText(owner);
    TagTextFree(owner);
    SplitTagged(data, text);
    assert Sections(DatadogTagged(data, owner)) == TaggedSections(sections, text);
    var start := Reading(ValueOf(head, stod), "", []);
    ValueRead(start, sections, text, stod);
    TagsRead(start, sections, stod);
    TagsRead(start, TaggedSections(sections, text), stod);
    TagsSpliced(sections, owner);
    SplicedCount(sections, owner);
  }

  lemma OneBareTag(data: string, head: string, section: string, key: string, stod: Stod)
    requires data == head + ['|'] + section && section == "#" + key
    requires '|' !in head && '|' !in key && CleanKey(key)
    ensures Sections(data) == [section] && Parse(data, stod).tags == [Tag(key, "")]
  {
    assert section[0] == '#' && section[1..] == key;
    SplitHead(head, '|', section);
    SplitFree(section, '|');
    TailOfCons(head, [section]);
    BareTag(key);
    TagsRead(Reading(ValueOf(head, stod), "", []), [section], stod);
    TagsInStep(section, []);
    assert [section] + [] == [section] && [Tag(key, "")] + [] == [Tag(key, "")];
    assert [] + [Tag(key, "")] == [Tag(key, "")];
  }

  lemma TagMerged(data: string, head: string, section: string, key: string, merged: string, tagged: string, stod: Stod)
    requires data == head + ['|'] + section && section == "#" + key
    requires merged == key + UNKNOWN_CONTAINER_TAG && tagged == head + ['|'] + ("#" + merged)
    requires '|' !in head && '|' !in key && CleanKey(key) && key[|key| - 1] == '#'
    ensures DatadogTagged(data, Unknown) == tagged
    ensures Parse(data, stod).tags == [Tag(key, "")] && Parse(tagged, stod).tags == [Tag(merged, "")]
  {
    UnknownClean();
    TagTextFree(Unknown);
    assert section + "" == section && "#" + merged + "" == "#" + merged;
    assert section[|section| - 1] == '#';
    assert section + "" + UNKNOWN_CONTAINER_TAG == "#" + merged;
    TaggedFirstSection(data, UNKNOWN_CONTAINER_TAG, head, section, "", "#" + merged);
    OneBareTag(data, head, section, key, stod);
    OneBareTag(tagged, head, "#" + merged, merged, stod);
  }

  /** One such message: its tag `a#` and the sender's tag come back as one. */
  lemma TagLost(data: string, tagged: string, stod: Stod)
    requires data == "n|#a#" && tagged == "n|#a#unknown_container"
    ensures DatadogTagged(data, Unknown) == tagged
    ensures Parse(data, stod).tags == [Tag("a#", "")]
    ensures Parse(tagged, stod).tags == [Tag("a#unknown_container", "")]
  {
    TagMerged(data, "n", "#a#", "a#", "a#unknown_container", tagged, stod);
  }

  lemma {:induction false} SplicedCount(sections: seq<string>, owner: Owner)
    ensures |SplicedTags(sections, owner)| == |TagsIn(sections)| + |OwnerTags(owner)|
  {
    if sections != [] && !IsTagSection(sections[0]) {
      SplicedCount(sections[1..], owner);
    }
  }

}
