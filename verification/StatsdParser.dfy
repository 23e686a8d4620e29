/** Reading one statsd message: `name[:value][|section...]`, where a section is a type, a sample rate or tags. */
module StatsdParser {
  import opened Wrappers
  import opened Sequences
  import opened Text

  datatype Tag = Tag(key: string, value: string)

  /** `std::stod`, which may refuse its text. */
  type Stod = string -> Option<real>

  datatype Parsed = Parsed(name: string, value: real, tags: seq<Tag>)

  // ---- What a message means

  /** The text up to the first colon and the text after it; without a colon the value is empty. */
  function TagOf(piece: string): Tag {
    var i := IndexOf(piece, ':');
    if i == |piece| then Tag(piece, "") else Tag(piece[..i], piece[i + 1..])
  }

  function AddTag(tags: seq<Tag>, tag: Tag): seq<Tag> {
    if tag.key == "" && tag.value == "" then tags else tags + [tag]
  }

  /** The tags of the pieces of a tag section; a piece with neither key nor value is no tag. */
  function TagsOf(pieces: seq<string>): seq<Tag> {
    if pieces == [] then [] else AddTag([], TagOf(pieces[0])) + TagsOf(pieces[1..])
  }

  function TagList(text: string): seq<Tag> {
    TagsOf(Split(text, ','))
  }

  /** What has been read of a message so far. */
  datatype Reading = Reading(value: real, metricType: string, tags: seq<Tag>)

  predicate IsTagSection(section: string) {
    section != "" && section[0] == '#'
  }

  /** Only a counter is scaled, and only by a sample rate that comes after its type and is a non-zero number. */
  function Scaled(value: real, metricType: string, factor: Option<real>): real {
    if metricType == "c" && factor.Some? && factor.value != 0.0 then value / factor.value else value
  }

  function ApplySection(r: Reading, section: string, stod: Stod): Reading {
    if IsTagSection(section) then r.(tags := r.tags + TagList(section[1..]))
    else if section != "" && section[0] == '@' then r.(value := Scaled(r.value, r.metricType, stod(section[1..])))
    else r.(metricType := section)
  }

  function SectionStep(stod: Stod): (Reading, string) -> Reading {
    (r: Reading, section: string) => ApplySection(r, section, stod)
  }

  function ApplySections(r: Reading, sections: seq<string>, stod: Stod): Reading {
    Fold(SectionStep(stod), r, sections)
  }

  function NameOf(piece: string): string {
    piece[..IndexOf(piece, ':')]
  }

  /** The number after the first colon; zero when there is no colon or no number. */
  function ValueOf(piece: string, stod: Stod): real {
    var i := IndexOf(piece, ':');
    if i == |piece| then 0.0 else
      match stod(piece[i + 1..])
      case None => 0.0
      case Some(v) => v
  }

  function Sections(data: string): seq<string> {
    Split(data, '|')[1..]
  }

  function Read(data: string, stod: Stod): Reading {
    ApplySections(Reading(ValueOf(Split(data, '|')[0], stod), "", []), Sections(data), stod)
  }

  function Parse(data: string, stod: Stod): Parsed {
    var r := Read(data, stod);
    Parsed(NameOf(Split(data, '|')[0]), r.value, r.tags)
  }

  // ---- The pointer-walking parser

  method PushTag(key: string, value: string, tags: seq<Tag>) returns (r: seq<Tag>)
    ensures r == AddTag(tags, Tag(key, value))
  {
    if |key| == 0 && |value| == 0 {
      return tags;
    }
    r := tags + [Tag(key, value)];
  }

  /** One tag, at `data[tagStart..tagEnd]`. */
  method PushPiece(data: string, tagStart: nat, tagEnd: nat, tags: seq<Tag>) returns (r: seq<Tag>)
    requires tagStart <= tagEnd <= |data|
    ensures r == tags + AddTag([], TagOf(data[tagStart..tagEnd]))
  {
    ghost var piece := data[tagStart..tagEnd];
    var found := MemChr(data, tagStart, tagEnd - tagStart, ':');
    if found.None? {
      PieceEnd(piece, ':', |piece|);
      r := PushTag(data[tagStart..tagEnd], "", tags);
    } else {
      var tagDelim := found.value;
      ghost var keyLen := tagDelim - tagStart;
      PieceEnd(piece, ':', keyLen);
      Slice(data, tagStart, tagDelim, tagEnd, keyLen);
      r := PushTag(data[tagStart..tagDelim], data[tagDelim + 1..tagEnd], tags);
    }
  }

  lemma TagsOfStep(piece: string, rest: seq<string>)
    ensures TagsOf([piece] + rest) == AddTag([], TagOf(piece)) + TagsOf(rest)
  {
    TailOfCons(piece, rest);
  }

  /** The first tag of a list, and the rest of the list. */
  lemma TagListStep(text: string, i: nat)
    requires i <= |text|
    requires forall k :: 0 <= k < i ==> text[k] != ','
    requires i < |text| ==> text[i] == ','
    ensures TagList(text) == AddTag([], TagOf(text[..i])) + if i < |text| then TagList(text[i + 1..]) else []
  {
    PieceEnd(text, ',', i);
    SplitStep(text, ',');
    TagsOfStep(text[..i], if i < |text| then Split(text[i + 1..], ',') else []);
  }

  /** The same in place. */
  lemma TagListAdvance(data: string, lo: nat, mid: nat, hi: nat)
    requires lo <= mid <= hi <= |data|
    requires forall k :: lo <= k < mid ==> data[k] != ','
    requires mid < hi ==> data[mid] == ','
    ensures TagList(data[lo..hi]) ==
            AddTag([], TagOf(data[lo..mid])) + if mid < hi then TagList(data[mid + 1..hi]) else []
  {
    var n := mid - lo;
    Slice(data, lo, mid, hi, n);
    TagListStep(data[lo..hi], n);
  }

  lemma EmptyTagList()
    ensures TagList("") == []
  {
    SplitFree("", ',');
  }

  /** The section at `data[at..at + size]`, which starts with `|#`; reads no byte outside it. */
  method ParseDatadogTags(data: string, at: nat, size: nat, tags: seq<Tag>) returns (r: seq<Tag>)
    requires at + size <= |data|
    ensures size < 2 ==> r == tags
    ensures size >= 2 ==> r == tags + TagList(data[at + 2..at + size])
  {
    r := tags;
    if size <= 2 {
      EmptyTagList();
      return;
    }
    ghost var end, goal := at + size, tags + TagList(data[at + 2..at + size]);
    var tagStart: nat, left: nat := at + 2, size - 2;
    while true
      invariant tagStart + left == end
      invariant r + TagList(data[tagStart..end]) == goal
      decreases left
    {
      var found := MemChr(data, tagStart, left, ',');
      var tagEnd: nat := if found.None? then tagStart + left else found.value;
      TagListAdvance(data, tagStart, tagEnd, end);
      ghost var first, before := AddTag([], TagOf(data[tagStart..tagEnd])), r;
      r := PushPiece(data, tagStart, tagEnd, r);
      if found.None? {
        Concat3(before, first, []);
        return;
      }
      Concat3(before, first, TagList(data[tagEnd + 1..end]));
      left := left - (tagEnd - tagStart + 1);
      tagStart := tagEnd + 1;
    }
  }

  /** The name and value before the first section. */
  method ParseNameValue(data: string, namevalSize: nat, stod: Stod) returns (name: string, value: real)
    requires namevalSize <= |data|
    ensures name == NameOf(data[..namevalSize]) && value == ValueOf(data[..namevalSize], stod)
  {
    var nameEnd := MemChr(data, 0, namevalSize, ':');
    if nameEnd.None? {
      PieceEnd(data[..namevalSize], ':', namevalSize);
      name := data[..namevalSize];
      value := 0.0;
    } else {
      PieceEnd(data[..namevalSize], ':', nameEnd.value);
      assert data[..namevalSize][..nameEnd.value] == data[..nameEnd.value];
      assert data[..namevalSize][nameEnd.value + 1..] == data[nameEnd.value + 1..namevalSize];
      name := data[..nameEnd.value];
      var valueLen := namevalSize - nameEnd.value; // including the colon
      var parsed := stod(data[nameEnd.value + 1..nameEnd.value + 1 + (valueLen - 1)]);
      value := if parsed.Some? then parsed.value else 0.0;
    }
  }

  /** The section `data[from..sectionEnd]`; the byte before `from` is its delimiter. */
  method ParseSection(data: string, from: nat, sectionEnd: nat, before: Reading, stod: Stod) returns (r: Reading)
    requires 0 < from <= sectionEnd <= |data| && from < |data|
    requires from == sectionEnd ==> data[sectionEnd] == '|'
    ensures r == ApplySection(before, data[from..sectionEnd], stod)
  {
    ghost var section := data[from..sectionEnd];
    r := before;
    assert section != "" ==> section[0] == data[from];
    match data[from] {
      case '@' =>
        assert section[1..] == data[from + 1..sectionEnd];
        if r.metricType == "" {
          // no type so far: the rate is not applied
        } else if r.metricType == "c" {
          var factor := stod(data[from + 1..sectionEnd]);
          if factor.Some? && factor.value != 0.0 {
            r := r.(value := r.value / factor.value);
          }
        }
      case '#' =>
        assert section[1..] == data[from + 1..sectionEnd];
        var tags := ParseDatadogTags(data, from - 1, sectionEnd - (from - 1), r.tags);
        r := r.(tags := tags);
      case _ =>
        r := r.(metricType := data[from..sectionEnd]);
    }
  }

  /** Reads a message in place; the tags found are appended to `tags`. */
  method ParseStatsdNameValTags(data: string, stod: Stod, tags: seq<Tag>)
    returns (name: string, value: real, allTags: seq<Tag>)
    ensures Parsed(name, value, allTags) == Parse(data, stod).(tags := tags + Parse(data, stod).tags)
  {
    var sectionStart := MemChr(data, 0, |data|, '|');
    var namevalSize := if sectionStart.Some? then sectionStart.value else |data|;
    name, value := ParseNameValue(data, namevalSize, stod);

    var r := Reading(value, "", tags);
    var from := namevalSize + 1; // where the section after the delimiter starts
    ghost var goal := if sectionStart.Some? then ApplySections(r, Split(data[from..], '|'), stod) else r;
    while sectionStart.Some?
      invariant sectionStart.Some? ==> from == sectionStart.value + 1 <= |data| && data[sectionStart.value] == '|'
      invariant sectionStart.Some? ==> goal == ApplySections(r, Split(data[from..], '|'), stod)
      invariant sectionStart.None? ==> SameButType(goal, r)
      decreases if sectionStart.Some? then |data| - sectionStart.value else 0
    {
      var at := sectionStart.value;
      var sectionsSize := |data| - at;
      if sectionsSize <= 1 {
        LastSection(r, data, from, stod);
        break;
      }
      var nextSectionStart := MemChr(data, from, sectionsSize - 1, '|');
      var sectionEnd := if nextSectionStart.None? then |data| else nextSectionStart.value;
      var after := sectionEnd + 1;
      ghost var before := r;
      r := ParseSection(data, from, sectionEnd, r, stod);
      SectionAdvance(goal, before, r, data, from, sectionEnd, after, stod);
      if nextSectionStart.None? {
        break;
      }
      sectionStart := nextSectionStart;
      from := after;
    }
    value, allTags := r.value, r.tags;
    ParseFrom(data, namevalSize, tags, stod);
  }

  lemma SectionAdvance(goal: Reading, r: Reading, next: Reading, data: string, from: nat, end: nat, after: nat,
                       stod: Stod)
    requires from <= end <= |data| && after == end + 1
    requires forall k :: from <= k < end ==> data[k] != '|'
    requires end < |data| ==> data[end] == '|'
    requires goal == ApplySections(r, Split(data[from..], '|'), stod)
    requires next == ApplySection(r, data[from..end], stod)
    ensures goal == if end == |data| then next else ApplySections(next, Split(data[after..], '|'), stod)
  {
    FoldSplitStep(SectionStep(stod), r, data, from, end, '|');
  }

  /** A delimiter that ends the message opens an empty section, which adds neither value nor tags. */
  lemma LastSection(r: Reading, data: string, from: nat, stod: Stod)
    requires from == |data|
    ensures SameButType(ApplySections(r, Split(data[from..], '|'), stod), r)
  {
    FoldSplitStep(SectionStep(stod), r, data, from, from, '|');
  }

  lemma ApplyNext(r: Reading, section: string, rest: seq<string>, stod: Stod)
    ensures ApplySections(r, [section] + rest, stod) == ApplySections(ApplySection(r, section, stod), rest, stod)
  {
    FoldNext(SectionStep(stod), r, section, rest);
  }

  /** The whole message, read from its first delimiter, on top of tags already present. */
  lemma ParseFrom(data: string, first: nat, tags: seq<Tag>, stod: Stod)
    requires first <= |data|
    requires forall k :: 0 <= k < first ==> data[k] != '|'
    requires first < |data| ==> data[first] == '|'
    ensures var start := Reading(ValueOf(data[..first], stod), "", tags);
            var r := if first < |data| then ApplySections(start, Split(data[first + 1..], '|'), stod) else start;
            Parse(data, stod).(tags := tags + Parse(data, stod).tags) == Parsed(NameOf(data[..first]), r.value, r.tags)
  {
    PieceEnd(data, '|', first);
    SplitStep(data, '|');
    var plain := Reading(ValueOf(data[..first], stod), "", []);
    assert tags + plain.tags == tags;
    if first < |data| {
      TailOfCons(data[..first], Split(data[first + 1..], '|'));
    }
    TagsPassThrough(plain, tags, Sections(data), stod);
  }

  ghost predicate SameButType(a: Reading, b: Reading) {
    a.value == b.value && a.tags == b.tags
  }

  /** Tags already present stay in front and change nothing else. */
  lemma {:induction false} TagsPassThrough(r: Reading, earlier: seq<Tag>, sections: seq<string>, stod: Stod)
    ensures var plain := ApplySections(r, sections, stod);
            ApplySections(r.(tags := earlier + r.tags), sections, stod) == plain.(tags := earlier + plain.tags)
    decreases |sections|
  {
    if sections != [] {
      var next := ApplySection(r, sections[0], stod);
      TagsPassThrough(next, earlier, sections[1..], stod);
      assert ApplySection(r.(tags := earlier + r.tags), sections[0], stod) == next.(tags := earlier + next.tags) by {
        if IsTagSection(sections[0]) {
          assert earlier + (r.tags + TagList(sections[0][1..])) == earlier + r.tags + TagList(sections[0][1..]);
        }
      }
    }
  }

}
