/** Annotating a statsd message with the ids of the container that sent it. */
module StatsdTagger {
  import opened Wrappers
  import opened Sequences
  import opened Text
  import opened Memory

  const UNKNOWN_CONTAINER_TAG := "unknown_container"
  const CONTAINER_ID_DATADOG_KEY := "container_id"
  const EXECUTOR_ID_DATADOG_KEY := "executor_id"
  const FRAMEWORK_ID_DATADOG_KEY := "framework_id"

  const DATADOG_TAG_PREFIX := "|#"
  const DATADOG_TAG_DIVIDER := ","
  const DATADOG_TAG_KEY_VALUE_SEPARATOR := ":"

  const KEY_PREFIX_DELIMITER := '.'
  const KEY_PREFIX_DELIMITER_REPLACEMENT := '_'

  datatype ExecutorInfo = ExecutorInfo(frameworkId: string, executorId: string)

  /** Who sent a message: known only when both the container id and its executor are. */
  datatype Owner = Unknown | Known(containerId: string, frameworkId: string, executorId: string)

  function OwnerOf(containerId: Option<string>, executorInfo: Option<ExecutorInfo>): Owner {
    if containerId.None? || executorInfo.None? then Unknown
    else Known(containerId.value, executorInfo.value.frameworkId, executorInfo.value.executorId)
  }

  // ---- Key prefixes

  function ReplaceChar(s: string, search: char, replacement: char): (r: string)
    ensures |r| == |s|
    ensures forall i :: 0 <= i < |s| ==> r[i] == if s[i] == search then replacement else s[i]
    ensures search != replacement ==> search !in r
  {
    seq(|s|, i requires 0 <= i < |s| => if s[i] == search then replacement else s[i])
  }

  function DotsReplaced(id: string): string {
    ReplaceChar(id, KEY_PREFIX_DELIMITER, KEY_PREFIX_DELIMITER_REPLACEMENT)
  }

  /** An id in front of what follows it. */
  function Prefixed(id: string, rest: string): string {
    DotsReplaced(id) + [KEY_PREFIX_DELIMITER] + rest
  }

  /** The key-prefixed form of `data`. */
  function KeyPrefixed(data: string, owner: Owner): string {
    match owner
    case Unknown => UNKNOWN_CONTAINER_TAG + [KEY_PREFIX_DELIMITER] + data
    case Known(containerId, frameworkId, executorId) =>
      Prefixed(frameworkId, Prefixed(executorId, Prefixed(containerId, data)))
  }

  /** What stands before each of the first `n` delimiters of `s`, followed by all that is left. */
  function Cut(s: string, n: nat): seq<string> {
    var i := IndexOf(s, KEY_PREFIX_DELIMITER);
    if n == 0 || i == |s| then [s] else [s[..i]] + Cut(s[i + 1..], n - 1)
  }

  lemma CutHead(head: string, rest: string, n: nat)
    requires KEY_PREFIX_DELIMITER !in head && n > 0
    ensures Cut(head + [KEY_PREFIX_DELIMITER] + rest, n) == [head] + Cut(rest, n - 1)
  {
    var s := head + [KEY_PREFIX_DELIMITER] + rest;
    assert s[..|head|] == head;
    IndexOfAt(s, KEY_PREFIX_DELIMITER, |head|);
    assert s[|head| + 1..] == rest;
  }

  /** Decoding: the first cuts give the ids, dots replaced, and then the message exactly as it came. */
  lemma KeyPrefixDecodes(data: string, owner: Owner)
    ensures owner.Unknown? ==> Cut(KeyPrefixed(data, owner), 1) == [UNKNOWN_CONTAINER_TAG, data]
    ensures owner.Known? ==> Cut(KeyPrefixed(data, owner), 3) ==
                             [DotsReplaced(owner.frameworkId), DotsReplaced(owner.executorId),
                              DotsReplaced(owner.containerId), data]
  {
    match owner
    case Unknown =>
      CutUnknown(data);
    case Known(containerId, frameworkId, executorId) =>
      CutKnown(containerId, frameworkId, executorId, data);
  }

  lemma CutKnown(containerId: string, frameworkId: string, executorId: string, data: string)
    ensures Cut(Prefixed(frameworkId, Prefixed(executorId, Prefixed(containerId, data))), 3) ==
            [DotsReplaced(frameworkId), DotsReplaced(executorId), DotsReplaced(containerId), data]
  {
    var c := Prefixed(containerId, data);
    var e := Prefixed(executorId, c);
    var f', e', c' := DotsReplaced(frameworkId), DotsReplaced(executorId), DotsReplaced(containerId);
    CutHead(c', data, 1);
    assert Cut(c, 1) == [c', data];
    CutHead(e', c, 2);
    assert Cut(e, 2) == [e', c', data];
    CutHead(f', e, 3);
  }

  lemma CutUnknown(data: string)
    ensures Cut(KeyPrefixed(data, Unknown), 1) == [UNKNOWN_CONTAINER_TAG, data]
  {
    CutHead(UNKNOWN_CONTAINER_TAG, data, 1);
  }

  /** `now` is `was` with the search bytes in `[at, done)` replaced. */
  ghost predicate ReplacedUpTo(was: string, now: string, at: nat, done: nat, search: char, replacement: char) {
    && |now| == |was|
    && forall i :: 0 <= i < |was| ==>
         now[i] == if at <= i < done && was[i] == search then replacement else was[i]
  }

  lemma ReplaceNext(was: string, now: string, at: nat, done: nat, cur: nat, search: char, replacement: char)
    requires ReplacedUpTo(was, now, at, done, search, replacement)
    requires at <= done <= cur <= |now|
    requires forall i :: done <= i < cur ==> now[i] != search
    ensures cur < |now| && now[cur] == search ==>
              ReplacedUpTo(was, now[cur := replacement], at, cur + 1, search, replacement)
    ensures ReplacedUpTo(was, now, at, cur, search, replacement)
  {
  }

  /**
   * In-place replacement over `buffer[at..at + size]`. The search resumes on the byte just replaced, so the size
   * left need not fall; what falls is the number of bytes not yet `done`.
   */
  method ReplaceAll(buffer: array<char>, at: nat, size: nat, search: char, replacement: char)
    requires at + size <= buffer.Length
    requires search != replacement
    modifies buffer
    ensures buffer[..] ==
            Patched(old(buffer[..]), at, ReplaceChar(old(buffer[at..at + size]), search, replacement))
  {
    ghost var was := buffer[..];
    var lastFound: nat, sizeLeft: nat := at, size;
    ghost var done := at;
    var curFound := MemChr(buffer[..], lastFound, sizeLeft, search);
    while curFound.Some?
      invariant at <= lastFound <= done <= lastFound + 1 && done <= at + size
      invariant lastFound + sizeLeft == at + size
      invariant ReplacedUpTo(was, buffer[..], at, done, search, replacement)
      invariant lastFound < done ==> buffer[lastFound] == replacement
      invariant curFound.Some? ==> lastFound <= curFound.value < at + size && buffer[curFound.value] == search
      invariant curFound.Some? ==> forall i :: lastFound <= i < curFound.value ==> buffer[i] != search
      invariant curFound.None? ==> forall i :: lastFound <= i < at + size ==> buffer[i] != search
      decreases at + size - done
    {
      var cur := curFound.value;
      ghost var before := buffer[..];
      ReplaceNext(was, before, at, done, cur, search, replacement);
      sizeLeft := sizeLeft - (cur - lastFound);
      buffer[cur] := replacement;
      assert buffer[..] == before[cur := replacement];
      lastFound, done := cur, cur + 1;
      curFound := MemChr(buffer[..], lastFound, sizeLeft, search);
    }
    ReplaceNext(was, buffer[..], at, done, at + size, search, replacement);
    PatchedByElements(was, at, ReplaceChar(was[at..at + size], search, replacement), buffer[..]);
  }

  method KeyPrefixCalculateSize(containerId: Option<string>, executorInfo: Option<ExecutorInfo>, data: string)
    returns (size: nat)
    ensures size == |KeyPrefixed(data, OwnerOf(containerId, executorInfo))|
  {
    if containerId.None? || executorInfo.None? {
      size := |UNKNOWN_CONTAINER_TAG| + 1 + |data|;
    } else {
      size := |executorInfo.value.frameworkId| + 1
              + |executorInfo.value.executorId| + 1
              + |containerId.value| + 1
              + |data|;
    }
  }

  /** One element of the prefix: copy the id, replace its dots, add the delimiter. */
  method CopyPrefixElement(id: string, out: array<char>, at: nat) returns (end: nat)
    requires at + |id| + 1 <= out.Length
    modifies out
    ensures end == at + |id| + 1
    ensures out[..] == Patched(old(out[..]), at, Prefixed(id, ""))
  {
    ghost var before, clean, prefix := out[..], DotsReplaced(id), Prefixed(id, "");
    assert prefix == clean + [KEY_PREFIX_DELIMITER];
    var mid := CopyReplaced(id, out, at);
    end := PutChar(out, mid, KEY_PREFIX_DELIMITER);
    PatchedTwice(before, at, clean, mid, [KEY_PREFIX_DELIMITER], prefix);
  }

  method CopyReplaced(id: string, out: array<char>, at: nat) returns (end: nat)
    requires at + |id| <= out.Length
    modifies out
    ensures end == at + |id|
    ensures out[..] == Patched(old(out[..]), at, DotsReplaced(id))
  {
    ghost var before := out[..];
    end := MemCpy(out, at, id);
    ghost var copied := out[..];
    ReplaceAll(out, at, |id|, KEY_PREFIX_DELIMITER, KEY_PREFIX_DELIMITER_REPLACEMENT);
    PatchedOver(before, at, id, DotsReplaced(id));
    assert copied[at..end] == id;
  }

  /** A write over exactly what an earlier one wrote. */
  lemma PatchedOver(buf: string, at: nat, s: string, t: string)
    requires at + |s| <= |buf| && |t| == |s|
    ensures Patched(Patched(buf, at, s), at, t) == Patched(buf, at, t)
  {
  }

  /** The three ids, one after the other. */
  method CopyIds(containerId: string, executorInfo: ExecutorInfo, out: array<char>, at: nat) returns (end: nat)
    requires at + |KeyPrefixed("", OwnerOf(Some(containerId), Some(executorInfo)))| <= out.Length
    modifies out
    ensures var prefix := KeyPrefixed("", OwnerOf(Some(containerId), Some(executorInfo)));
            end == at + |prefix| && out[..] == Patched(old(out[..]), at, prefix)
  {
    ghost var before := out[..];
    ghost var f, e, c := Prefixed(executorInfo.frameworkId, ""), Prefixed(executorInfo.executorId, ""), Prefixed(containerId, "");
    ghost var fe, fec := f + e, KeyPrefixed("", OwnerOf(Some(containerId), Some(executorInfo)));
    PrefixesTogether(executorInfo.frameworkId, executorInfo.executorId, containerId);
    var mid := CopyPrefixElement(executorInfo.frameworkId, out, at);
    var mid' := CopyPrefixElement(executorInfo.executorId, out, mid);
    PatchedTwice(before, at, f, mid, e, fe);
    end := CopyPrefixElement(containerId, out, mid');
    PatchedTwice(before, at, fe, mid', c, fec);
  }

  lemma PrefixesTogether(f: string, e: string, c: string)
    ensures Prefixed(f, Prefixed(e, Prefixed(c, ""))) == Prefixed(f, "") + Prefixed(e, "") + Prefixed(c, "")
  {
    PrefixedTail(c, "");
    PrefixedTail(e, Prefixed(c, ""));
    PrefixedTail(f, Prefixed(e, Prefixed(c, "")));
    Concat3(Prefixed(f, ""), Prefixed(e, ""), Prefixed(c, ""));
  }

  lemma PrefixedTail(id: string, rest: string)
    ensures Prefixed(id, rest) == Prefixed(id, "") + rest
  {
    Concat3(DotsReplaced(id), [KEY_PREFIX_DELIMITER], "");
    assert [KEY_PREFIX_DELIMITER] + "" == [KEY_PREFIX_DELIMITER];
  }

  lemma PrefixThenData(data: string, owner: Owner)
    ensures KeyPrefixed("", owner) + data == KeyPrefixed(data, owner)
  {
    match owner
    case Unknown =>
      assert UNKNOWN_CONTAINER_TAG + [KEY_PREFIX_DELIMITER] + "" == UNKNOWN_CONTAINER_TAG + [KEY_PREFIX_DELIMITER];
    case Known(containerId, frameworkId, executorId) =>
      PrefixesThenData(frameworkId, executorId, containerId, data);
  }

  lemma PrefixesThenData(f: string, e: string, c: string, data: string)
    ensures Prefixed(f, Prefixed(e, Prefixed(c, ""))) + data == Prefixed(f, Prefixed(e, Prefixed(c, data)))
  {
    var pf, pe, pc := Prefixed(f, ""), Prefixed(e, ""), Prefixed(c, "");
    PrefixesTogether(f, e, c);
    PrefixedTail(c, data);
    PrefixedTail(e, Prefixed(c, data));
    PrefixedTail(f, Prefixed(e, Prefixed(c, data)));
    Concat4(pf, pe, pc, data);
    Concat3(pe, pc, data);
  }

  method KeyPrefixTagCopy(containerId: Option<string>, executorInfo: Option<ExecutorInfo>, data: string,
                          out: array<char>, at: nat)
    requires at + |KeyPrefixed(data, OwnerOf(containerId, executorInfo))| <= out.Length
    modifies out
    ensures out[..] == Patched(old(out[..]), at, KeyPrefixed(data, OwnerOf(containerId, executorInfo)))
  {
    PrefixThenData(data, OwnerOf(containerId, executorInfo));
    ghost var before, all := out[..], KeyPrefixed(data, OwnerOf(containerId, executorInfo));
    ghost var prefix := KeyPrefixed("", OwnerOf(containerId, executorInfo));
    var outOffset;
    if containerId.None? || executorInfo.None? {
      outOffset := CopyUnknown(out, at);
    } else {
      outOffset := CopyIds(containerId.value, executorInfo.value, out, at);
    }
    assert out[..] == Patched(before, at, prefix);
    var end := MemCpy(out, outOffset, data);
    PatchedTwice(before, at, prefix, outOffset, data, all);
  }

  method CopyUnknown(out: array<char>, at: nat) returns (end: nat)
    requires at + |KeyPrefixed("", Unknown)| <= out.Length
    modifies out
    ensures end == at + |KeyPrefixed("", Unknown)|
    ensures out[..] == Patched(old(out[..]), at, KeyPrefixed("", Unknown))
  {
    ghost var before, all := out[..], KeyPrefixed("", Unknown);
    var mid := MemCpy(out, at, UNKNOWN_CONTAINER_TAG);
    end := PutChar(out, mid, KEY_PREFIX_DELIMITER);
    assert all == UNKNOWN_CONTAINER_TAG + [KEY_PREFIX_DELIMITER];
    PatchedTwice(before, at, UNKNOWN_CONTAINER_TAG, mid, [KEY_PREFIX_DELIMITER], all);
  }

  // ---- Datadog tags

  datatype TagMode = NONE | FIRST_TAG | APPEND_TAG_NO_DELIM | APPEND_TAG

  /** How and where tags go into a message. */
  datatype Plan = Plan(mode: TagMode, insertIndex: nat)

  /** Where the tag section that starts at `start` ends: at the next section, or at the end of the message. */
  function SectionEnd(data: string, start: nat): (end: nat)
    requires start < |data|
    ensures start < end <= |data|
  {
    start + 1 + IndexOf(data[start + 1..], '|')
  }

  lemma SectionEndIs(data: string, start: nat, end: nat)
    requires start < end <= |data|
    requires forall k :: start < k < end ==> data[k] != '|'
    requires end < |data| ==> data[end] == '|'
    ensures SectionEnd(data, start) == end
  {
    PieceEnd(data[start + 1..], '|', end - (start + 1));
  }

  /** The plan for a message whose first tag section starts at `found`. */
  function PlanAt(data: string, found: Option<nat>): Plan
    requires found.Some? ==> found.value < |data|
  {
    match found
    case None => Plan(FIRST_TAG, |data|)
    case Some(start) =>
      var end := SectionEnd(data, start);
      Plan(if data[end - 1] == ',' || data[end - 1] == '#' then APPEND_TAG_NO_DELIM else APPEND_TAG, end)
  }

  function PlanFor(data: string): (p: Plan)
    ensures p.insertIndex <= |data| && p.mode != NONE
  {
    PlanAt(data, FirstMatch(data, DATADOG_TAG_PREFIX, 0))
  }

  /** What precedes the first added tag. */
  function Delimiter(mode: TagMode): string {
    match mode
    case NONE => ""
    case FIRST_TAG => DATADOG_TAG_PREFIX
    case APPEND_TAG_NO_DELIM => ""
    case APPEND_TAG => DATADOG_TAG_DIVIDER
  }

  function KeyValue(key: string, value: string): string {
    key + DATADOG_TAG_KEY_VALUE_SEPARATOR + value
  }

  /** The added tags, comma-separated. */
  function TagText(owner: Owner): string {
    match owner
    case Unknown => UNKNOWN_CONTAINER_TAG
    case Known(containerId, frameworkId, executorId) =>
      KeyValue(FRAMEWORK_ID_DATADOG_KEY, frameworkId) + DATADOG_TAG_DIVIDER +
      KeyValue(EXECUTOR_ID_DATADOG_KEY, executorId) + DATADOG_TAG_DIVIDER +
      KeyValue(CONTAINER_ID_DATADOG_KEY, containerId)
  }

  function InsertAt(data: string, p: Plan, text: string): string
    requires p.insertIndex <= |data|
  {
    data[..p.insertIndex] + (Delimiter(p.mode) + text) + data[p.insertIndex..]
  }

  /** The message with `text` put in as further tags. */
  function WithTags(data: string, text: string): string {
    InsertAt(data, PlanFor(data), text)
  }

  function DatadogTagged(data: string, owner: Owner): string {
    WithTags(data, TagText(owner))
  }

  /** The separators between messages and between sections. */
  predicate IsSeparator(c: char) {
    c == '|' || c == '\n'
  }

  lemma FixedTextWithout(c: char)
    requires IsSeparator(c)
    ensures c !in FRAMEWORK_ID_DATADOG_KEY && c !in EXECUTOR_ID_DATADOG_KEY && c !in CONTAINER_ID_DATADOG_KEY
    ensures c !in UNKNOWN_CONTAINER_TAG && c !in DATADOG_TAG_DIVIDER && c !in DATADOG_TAG_KEY_VALUE_SEPARATOR
  {
  }

  lemma ConcatWithout(a: string, b: string, c: char)
    requires c !in a && c !in b
    ensures c !in a + b
  {
  }

  lemma KeyValueWithout(key: string, value: string, c: char)
    requires IsSeparator(c) && c !in key && c !in value
    ensures c !in KeyValue(key, value)
  {
    FixedTextWithout(c);
    ConcatWithout(key, DATADOG_TAG_KEY_VALUE_SEPARATOR, c);
    ConcatWithout(key + DATADOG_TAG_KEY_VALUE_SEPARATOR, value, c);
  }

  lemma ListWithout(f: string, e: string, d: string, comma: string, c: char)
    requires c !in f && c !in e && c !in d && c !in comma
    ensures c !in f + comma + e + comma + d
  {
    ConcatWithout(f, comma, c);
    ConcatWithout(f + comma, e, c);
    ConcatWithout(f + comma + e, comma, c);
    ConcatWithout(f + comma + e + comma, d, c);
  }

  /** The added tags hold no separator that the ids do not hold. */
  lemma TagTextWithout(owner: Owner, c: char)
    requires IsSeparator(c)
    requires owner.Known? ==> c !in owner.containerId && c !in owner.frameworkId && c !in owner.executorId
    ensures c !in TagText(owner)
  {
    FixedTextWithout(c);
    match owner
    case Unknown =>
    case Known(containerId, frameworkId, executorId) =>
      KeyValueWithout(FRAMEWORK_ID_DATADOG_KEY, frameworkId, c);
      KeyValueWithout(EXECUTOR_ID_DATADOG_KEY, executorId, c);
      KeyValueWithout(CONTAINER_ID_DATADOG_KEY, containerId, c);
      ListWithout(KeyValue(FRAMEWORK_ID_DATADOG_KEY, frameworkId), KeyValue(EXECUTOR_ID_DATADOG_KEY, executorId),
                  KeyValue(CONTAINER_ID_DATADOG_KEY, containerId), DATADOG_TAG_DIVIDER, c);
  }

  method CopyKeyValue(out: array<char>, at: nat, key: string, value: string) returns (end: nat)
    requires at + |KeyValue(key, value)| <= out.Length
    modifies out
    ensures end == at + |KeyValue(key, value)|
    ensures out[..] == Patched(old(out[..]), at, KeyValue(key, value))
  {
    ghost var before, keyColon, all := out[..], key + DATADOG_TAG_KEY_VALUE_SEPARATOR, KeyValue(key, value);
    var mid := MemCpy(out, at, key);
    var mid' := MemCpy(out, mid, DATADOG_TAG_KEY_VALUE_SEPARATOR);
    PatchedTwice(before, at, key, mid, DATADOG_TAG_KEY_VALUE_SEPARATOR, keyColon);
    end := MemCpy(out, mid', value);
    PatchedTwice(before, at, keyColon, mid', value, all);
  }

  lemma RegroupTags(d: string, f: string, e: string, c: string, comma: string)
    ensures (d + f) + (comma + e) + (comma + c) == d + (f + comma + e + comma + c)
  {
    Concat3(d + f, comma, e);
    Concat3(d + f + comma + e, comma, c);
    Concat3(d, f, comma);
    Concat3(d, f + comma, e);
    Concat3(d, f + comma + e, comma);
    Concat3(d, f + comma + e + comma, c);
  }

  class DatadogTagger {
    var tagMode: TagMode
    var tagInsertIndex: nat

    constructor ()
      ensures tagMode == NONE && tagInsertIndex == 0
    {
      tagMode, tagInsertIndex := NONE, 0;
    }

    method CalculateTagSection(data: string)
      modifies this
      ensures Plan(tagMode, tagInsertIndex) == PlanFor(data)
    {
      var tagSection := MemNMem(data, DATADOG_TAG_PREFIX);
      if tagSection.None? {
        tagMode := FIRST_TAG;
        tagInsertIndex := |data|;
        return;
      }
      var tagSectionStart := tagSection.value;
      var nextSection := MemChr(data, tagSectionStart + 1, |data| - tagSectionStart - 1, '|');
      var lastCharInTagSection;
      if nextSection.None? {
        lastCharInTagSection := data[|data| - 1];
        tagInsertIndex := |data|;
      } else {
        lastCharInTagSection := data[nextSection.value - 1];
        tagInsertIndex := nextSection.value;
      }
      SectionEndIs(data, tagSectionStart, tagInsertIndex);
      if lastCharInTagSection == ',' || lastCharInTagSection == '#' {
        tagMode := APPEND_TAG_NO_DELIM;
      } else {
        tagMode := APPEND_TAG;
      }
    }

    method CalculateSize(containerId: Option<string>, executorInfo: Option<ExecutorInfo>, data: string)
      returns (size: nat)
      modifies this
      ensures Plan(tagMode, tagInsertIndex) == PlanFor(data)
      ensures size == |DatadogTagged(data, OwnerOf(containerId, executorInfo))|
    {
      CalculateTagSection(data);
      if containerId.None? || executorInfo.None? {
        match tagMode {
          case FIRST_TAG => return |data| + |DATADOG_TAG_PREFIX| + |UNKNOWN_CONTAINER_TAG|;
          case APPEND_TAG_NO_DELIM => return |data| + |UNKNOWN_CONTAINER_TAG|;
          case APPEND_TAG => return |data| + |DATADOG_TAG_DIVIDER| + |UNKNOWN_CONTAINER_TAG|;
        }
      }
      var commonSuffixLen :=
        |FRAMEWORK_ID_DATADOG_KEY|
        + |DATADOG_TAG_KEY_VALUE_SEPARATOR| + |executorInfo.value.frameworkId|
        + |DATADOG_TAG_DIVIDER| + |EXECUTOR_ID_DATADOG_KEY|
        + |DATADOG_TAG_KEY_VALUE_SEPARATOR| + |executorInfo.value.executorId|
        + |DATADOG_TAG_DIVIDER| + |CONTAINER_ID_DATADOG_KEY|
        + |DATADOG_TAG_KEY_VALUE_SEPARATOR| + |containerId.value|;
      match tagMode {
        case FIRST_TAG => size := |data| + |DATADOG_TAG_PREFIX| + commonSuffixLen;
        case APPEND_TAG_NO_DELIM => size := |data| + commonSuffixLen;
        case APPEND_TAG => size := |data| + |DATADOG_TAG_DIVIDER| + commonSuffixLen;
      }
    }

    /** Writes what precedes a tag; the mode moves on so that the next tag is preceded by a comma. */
    method AppendDelimiter(out: array<char>, at: nat) returns (end: nat)
      requires tagMode != NONE
      requires at + |Delimiter(tagMode)| <= out.Length
      modifies this`tagMode, out
      ensures end == at + |Delimiter(old(tagMode))| && tagMode == APPEND_TAG
      ensures out[..] == Patched(old(out[..]), at, Delimiter(old(tagMode)))
    {
      match tagMode {
        case FIRST_TAG =>
          end := MemCpy(out, at, DATADOG_TAG_PREFIX);
          tagMode := APPEND_TAG;
        case APPEND_TAG =>
          end := MemCpy(out, at, DATADOG_TAG_DIVIDER);
        case APPEND_TAG_NO_DELIM =>
          PatchedByNothing(out[..], at);
          end := at;
          tagMode := APPEND_TAG;
      }
    }

    /** Writes one tag that has no value and returns the position after it; nothing when no plan was made. */
    method AppendTag(out: array<char>, at: nat, tag: string) returns (end: nat)
      requires at + |Delimiter(tagMode)| + |tag| <= out.Length
      modifies this`tagMode, out
      ensures old(tagMode) == NONE ==> end == at && tagMode == NONE && out[..] == old(out[..])
      ensures old(tagMode) != NONE ==>
                && end == at + |Delimiter(old(tagMode))| + |tag|
                && tagMode == APPEND_TAG
                && out[..] == Patched(old(out[..]), at, Delimiter(old(tagMode)) + tag)
    {
      if tagMode == NONE {
        return at;
      }
      ghost var before, delimiter, all := out[..], Delimiter(tagMode), Delimiter(tagMode) + tag;
      var mid := AppendDelimiter(out, at);
      end := MemCpy(out, mid, tag);
      PatchedTwice(before, at, delimiter, mid, tag, all);
    }

    /** Writes one tag with its value and returns the position after it; nothing when no plan was made. */
    method AppendKeyValue(out: array<char>, at: nat, tagKey: string, tagValue: string) returns (end: nat)
      requires at + |Delimiter(tagMode)| + |KeyValue(tagKey, tagValue)| <= out.Length
      modifies this`tagMode, out
      ensures old(tagMode) == NONE ==> end == at && tagMode == NONE && out[..] == old(out[..])
      ensures old(tagMode) != NONE ==>
                && end == at + |Delimiter(old(tagMode))| + |KeyValue(tagKey, tagValue)|
                && tagMode == APPEND_TAG
                && out[..] == Patched(old(out[..]), at, Delimiter(old(tagMode)) + KeyValue(tagKey, tagValue))
    {
      if tagMode == NONE {
        return at;
      }
      ghost var before, delimiter, text := out[..], Delimiter(tagMode), KeyValue(tagKey, tagValue);
      ghost var all := delimiter + text;
      var mid := AppendDelimiter(out, at);
      end := CopyKeyValue(out, mid, tagKey, tagValue);
      PatchedTwice(before, at, delimiter, mid, text, all);
    }

    method AppendIds(containerId: string, executorInfo: ExecutorInfo, out: array<char>, at: nat) returns (end: nat)
      requires tagMode != NONE
      requires at + |Delimiter(tagMode)| + |TagText(OwnerOf(Some(containerId), Some(executorInfo)))| <= out.Length
      modifies this`tagMode, out
      ensures var text := Delimiter(old(tagMode)) + TagText(OwnerOf(Some(containerId), Some(executorInfo)));
              end == at + |text| && out[..] == Patched(old(out[..]), at, text)
    {
      ghost var before, delimiter := out[..], Delimiter(tagMode);
      ghost var f := KeyValue(FRAMEWORK_ID_DATADOG_KEY, executorInfo.frameworkId);
      ghost var e := KeyValue(EXECUTOR_ID_DATADOG_KEY, executorInfo.executorId);
      ghost var c := KeyValue(CONTAINER_ID_DATADOG_KEY, containerId);
      ghost var all := delimiter + TagText(OwnerOf(Some(containerId), Some(executorInfo)));
      ghost var commaE, commaC, df := DATADOG_TAG_DIVIDER + e, DATADOG_TAG_DIVIDER + c, delimiter + f;
      ghost var dfe := df + commaE;
      RegroupTags(delimiter, f, e, c, DATADOG_TAG_DIVIDER);
      var mid := AppendKeyValue(out, at, FRAMEWORK_ID_DATADOG_KEY, executorInfo.frameworkId);
      var mid' := AppendKeyValue(out, mid, EXECUTOR_ID_DATADOG_KEY, executorInfo.executorId);
      PatchedTwice(before, at, df, mid, commaE, dfe);
      end := AppendKeyValue(out, mid', CONTAINER_ID_DATADOG_KEY, containerId);
      PatchedTwice(before, at, dfe, mid', commaC, all);
    }

    /** Writes the tags and nothing else; returns the position after them. */
    method AppendOwner(containerId: Option<string>, executorInfo: Option<ExecutorInfo>, out: array<char>, at: nat)
      returns (end: nat)
      requires tagMode != NONE
      requires at + |Delimiter(tagMode)| + |TagText(OwnerOf(containerId, executorInfo))| <= out.Length
      modifies this`tagMode, out
      ensures var text := Delimiter(old(tagMode)) + TagText(OwnerOf(containerId, executorInfo));
              end == at + |text| && out[..] == Patched(old(out[..]), at, text)
    {
      if containerId.None? || executorInfo.None? {
        end := AppendTag(out, at, UNKNOWN_CONTAINER_TAG);
      } else {
        end := AppendIds(containerId.value, executorInfo.value, out, at);
      }
    }

    /**
     * Writes the tagged message, using the plan that the preceding call to `CalculateSize` made for the same
     * message; without such a call nothing is written.
     */
    method TagCopy(containerId: Option<string>, executorInfo: Option<ExecutorInfo>, data: string,
                   out: array<char>, at: nat)
      requires tagMode != NONE ==> Plan(tagMode, tagInsertIndex) == PlanFor(data)
      requires tagMode != NONE ==> at + |DatadogTagged(data, OwnerOf(containerId, executorInfo))| <= out.Length
      modifies this, out
      ensures old(tagMode) == NONE ==> out[..] == old(out[..])
      ensures old(tagMode) != NONE ==>
                out[..] == Patched(old(out[..]), at, DatadogTagged(data, OwnerOf(containerId, executorInfo)))
      ensures tagMode == NONE
    {
      if tagMode == NONE {
        return;
      }
      ghost var before, text := out[..], Delimiter(tagMode) + TagText(OwnerOf(containerId, executorInfo));
      var head, tail := data[..tagInsertIndex], data[tagInsertIndex..];
      ghost var headText, all := head + text, DatadogTagged(data, OwnerOf(containerId, executorInfo));
      assert all == headText + tail;
      var mid := MemCpy(out, at, head);
      var mid' := AppendOwner(containerId, executorInfo, out, mid);
      PatchedTwice(before, at, head, mid, text, headText);
      var end := MemCpy(out, mid', tail);
      PatchedTwice(before, at, headText, mid', tail, all);
      tagMode := NONE;
      tagInsertIndex := 0;
    }
  }

}
