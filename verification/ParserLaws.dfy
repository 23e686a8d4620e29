/** What the parser makes of a message, section by section, down to the values of concrete families of messages. */
module ParserLaws {
  import opened Wrappers
  import opened Sequences
  import opened Text
  import opened StatsdParser
  import opened TagRoundTrip

  predicate StartsWith(section: string, c: char) {
    section != "" && section[0] == c
  }

  /** The metric type in force after these sections: the last one that is neither a sample rate nor tags. */
  function TypeAfter(sections: seq<string>): string {
    if sections == [] then ""
    else
      var last := sections[|sections| - 1];
      if StartsWith(last, '@') || StartsWith(last, '#') then TypeAfter(sections[..|sections| - 1]) else last
  }

  lemma {:induction false} FoldSnoc<R>(step: (R, string) -> R, r: R, parts: seq<string>, last: string)
    ensures Fold(step, r, parts + [last]) == step(Fold(step, r, parts), last)
    decreases |parts|
  {
    if parts == [] {
      assert parts + [last] == [last];
      FoldNext(step, r, last, []);
    } else {
      TailOfConcat(parts, [last]);
      FoldSnoc(step, step(r, parts[0]), parts[1..], last);
    }
  }

  lemma ApplyLast(r: Reading, sections: seq<string>, last: string, stod: Stod)
    ensures ApplySections(r, sections + [last], stod) == ApplySection(ApplySections(r, sections, stod), last, stod)
  {
    FoldSnoc(SectionStep(stod), r, sections, last);
  }

  /** The type the parser has read is the type in force. */
  lemma {:induction false} TypeRead(r: Reading, sections: seq<string>, stod: Stod)
    requires r.metricType == ""
    ensures ApplySections(r, sections, stod).metricType == TypeAfter(sections)
    decreases |sections|
  {
    if sections != [] {
      var before, last := sections[..|sections| - 1], sections[|sections| - 1];
      assert sections == before + [last];
      TypeRead(r, before, stod);
      ApplyLast(r, before, last, stod);
    }
  }

  /** `now` is `was` divided by the rate, if there is one that is not zero. */
  predicate Divided(was: real, now: real, rate: Option<real>) {
    if rate.Some? && rate.value != 0.0 then now * rate.value == was else now == was
  }

  lemma RateDivides(r: Reading, section: string, stod: Stod)
    requires StartsWith(section, '@')
    ensures var now := ApplySection(r, section, stod).value;
            if r.metricType == "c" then Divided(r.value, now, stod(section[1..])) else now == r.value
  {
  }

  lemma SectionAdded(a: string, bar: string, section: string)
    requires bar == "|" && '|' !in section
    ensures Split(a + bar + section, '|')[0] == Split(a, '|')[0]
    ensures Sections(a + bar + section) == Sections(a) + [section]
  {
    var parts := Split(a, '|');
    SplitConcat(a, '|', section);
    SplitFree(section, '|');
    assert bar == ['|'];
    assert (parts + [section])[1..] == parts[1..] + [section];
  }

  /**
   * What one more section does to what was read before it. A sample rate divides the value if the type in force is `c`
   * and the rate is a number other than zero, and does nothing otherwise; tags are added; nothing else changes.
   */
  lemma {:induction false} OneMoreSection(data: string, bar: string, section: string, stod: Stod)
    requires bar == "|" && '|' !in section
    ensures var was, now := Parse(data, stod), Parse(data + bar + section, stod);
            var counted := TypeAfter(Split(data, '|')[1..]) == "c";
            && now.name == was.name
            && now.tags == (if StartsWith(section, '#') then was.tags + TagList(section[1..]) else was.tags)
            && (if StartsWith(section, '@') && counted then Divided(was.value, now.value, stod(section[1..]))
                else now.value == was.value)
  {
    var start := Reading(ValueOf(Split(data, '|')[0], stod), "", []);
    SectionAdded(data, bar, section);
    TypeRead(start, Sections(data), stod);
    ApplyLast(start, Sections(data), section, stod);
    if StartsWith(section, '@') {
      RateDivides(Read(data, stod), section, stod);
    }
  }

  /** A name without a colon has the value 0. */
  lemma NameAlone(name: string, stod: Stod)
    requires '|' !in name && ':' !in name
    ensures Parse(name, stod) == Parsed(name, 0.0, [])
  {
    SplitFree(name, '|');
    IndexOfNone(name, ':');
  }

  /** The value is the number after the first colon, and 0 if that is no number. */
  lemma NameAndNumber(name: string, colon: string, number: string, stod: Stod)
    requires colon == ":" && '|' !in name + number && ':' !in name
    ensures Parse(name + colon + number, stod)
            == Parsed(name, if stod(number).Some? then stod(number).value else 0.0, [])
  {
    var data := name + colon + number;
    assert forall c :: c in data ==> c in name + number || c == ':';
    SplitFree(data, '|');
    IndexOfAt(data, ':', |name|);
    assert data[..|name|] == name && data[|name| + 1..] == number;
  }

  lemma NoSections(data: string)
    requires '|' !in data
    ensures Split(data, '|')[1..] == []
  {
    SplitFree(data, '|');
  }

  lemma TypeOfOne(sections: seq<string>, section: string)
    requires !StartsWith(section, '@') && !StartsWith(section, '#')
    ensures TypeAfter(sections + [section]) == section
  {
  }

  /** Counters, of type `c`, and no other type, are scaled by a sample rate, if that is a number other than zero. */
  lemma {:induction false} SampledValue(head: string, bar: string, metricType: string, rate: string, stod: Stod)
    requires bar == "|" && '|' !in head && '|' !in metricType && '|' !in rate && rate != "" && rate[0] == '@'
    requires !StartsWith(metricType, '@') && !StartsWith(metricType, '#')
    ensures var was, now := Parse(head, stod), Parse(head + bar + metricType + bar + rate, stod);
            && now.name == was.name && now.tags == was.tags
            && (if metricType == "c" then Divided(was.value, now.value, stod(rate[1..])) else now.value == was.value)
  {
    var typed := head + bar + metricType;
    OneMoreSection(head, bar, metricType, stod);
    OneMoreSection(typed, bar, rate, stod);
    SectionAdded(head, bar, metricType);
    TypeOfOne(Split(head, '|')[1..], metricType);
  }

  /** A rate without a type before it does nothing, even if the type follows. */
  lemma {:induction false} RateWithoutType(head: string, bar: string, rate: string, metricType: string, stod: Stod)
    requires bar == "|" && '|' !in head && '|' !in metricType && '|' !in rate && rate != "" && rate[0] == '@'
    requires !StartsWith(metricType, '@') && !StartsWith(metricType, '#')
    ensures Parse(head + bar + rate, stod) == Parse(head, stod)
    ensures Parse(head + bar + rate + bar + metricType, stod) == Parse(head, stod)
  {
    NoSections(head);
    OneMoreSection(head, bar, rate, stod);
    OneMoreSection(head + bar + rate, bar, metricType, stod);
  }

  lemma RateText(at: string, rate: string)
    requires at == "@" && '|' !in rate
    ensures '|' !in at + rate && (at + rate)[0] == '@' && (at + rate)[1..] == rate && StartsWith(at + rate, '@')
  {
  }

  lemma HeadFree(name: string, colon: string, number: string)
    requires colon == ":" && '|' !in name && '|' !in number
    ensures '|' !in name + colon + number && '|' !in name + number
  {
  }

  /** The message `name:number|type|@rate`, written out: a counter's value times the rate is the number. */
  lemma {:induction false} CounterIsScaled(
      name: string, colon: string, number: string, bar: string, metricType: string, at: string, rate: string, v: real,
      stod: Stod)
    requires colon == ":" && bar == "|" && at == "@"
    requires '|' !in name && ':' !in name && '|' !in number && '|' !in metricType && '|' !in rate
    requires !StartsWith(metricType, '@') && !StartsWith(metricType, '#') && stod(number) == Some(v)
    ensures var p := Parse(name + colon + number + bar + metricType + bar + (at + rate), stod);
            && p.name == name && p.tags == []
            && (if metricType == "c" && stod(rate).Some? && stod(rate).value != 0.0 then p.value * stod(rate).value == v
                else p.value == v)
  {
    HeadFree(name, colon, number);
    NameAndNumber(name, colon, number, stod);
    RateText(at, rate);
    SampledValue(name + colon + number, bar, metricType, at + rate, stod);
  }

  /** The message `name:number|@rate`, with or without a type after it: the value is the number. */
  lemma {:induction false} RateNeedsType(
      name: string, colon: string, number: string, bar: string, at: string, rate: string, metricType: string, v: real,
      stod: Stod)
    requires colon == ":" && bar == "|" && at == "@"
    requires '|' !in name && ':' !in name && '|' !in number && '|' !in rate && '|' !in metricType
    requires !StartsWith(metricType, '@') && !StartsWith(metricType, '#') && stod(number) == Some(v)
    ensures Parse(name + colon + number + bar + (at + rate), stod) == Parsed(name, v, [])
    ensures Parse(name + colon + number + bar + (at + rate) + bar + metricType, stod) == Parsed(name, v, [])
  {
    HeadFree(name, colon, number);
    NameAndNumber(name, colon, number, stod);
    RateText(at, rate);
    RateWithoutType(name + colon + number, bar, at + rate, metricType, stod);
  }

  // ---- Tags

  /** A tag is a key, or a key and a value after the first colon; one with neither is left out. */
  lemma {:induction false} TagMeans(key: string, colon: string, value: string)
    requires colon == ":" && ',' !in key && ':' !in key && ',' !in value
    ensures TagList(key) == if key == "" then [] else [Tag(key, "")]
    ensures TagList(key + colon + value) == if key == "" && value == "" then [] else [Tag(key, value)]
  {
    TagListOne(key);
    IndexOfNone(key, ':');
    var text := key + colon + value;
    TagListOne(text);
    IndexOfAt(text, ':', |key|);
    assert text[..|key|] == key && text[|key| + 1..] == value;
  }

}
