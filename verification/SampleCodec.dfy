/**
 * An encoding that meets what is asked of one: it holds every number, and every list whose values are quotients of
 * integers. These are all finite floating-point numbers and all that scaling by sample rates makes of them.
 */
module SampleCodec {
  import opened Wrappers
  import opened Sequences
  import opened Text
  import opened StatsdParser
  import opened AvroEncoder
  import Collector = CollectorWriter

  // ---- Quotients of integers

  /** The value added up `q` times. */
  function Times(value: real, q: nat): real {
    if q == 0 then 0.0 else value + Times(value, q - 1)
  }

  predicate IsQuotient(value: real, p: int, q: nat) {
    q > 0 && Times(value, q) == p as real
  }

  ghost predicate Rational(value: real) {
    exists p: int, q: nat :: IsQuotient(value, p, q)
  }

  lemma {:induction false} TimesGrows(a: real, b: real, q: nat)
    requires a < b && q > 0
    ensures Times(a, q) < Times(b, q)
  {
    if q > 1 {
      TimesGrows(a, b, q - 1);
    }
  }

  /** A numerator and a denominator belong to one value. */
  lemma QuotientIsUnique(a: real, b: real, p: int, q: nat)
    requires IsQuotient(a, p, q) && IsQuotient(b, p, q)
    ensures a == b
  {
    if a < b {
      TimesGrows(a, b, q);
    } else if b < a {
      TimesGrows(b, a, q);
    }
  }

  lemma {:induction false} TimesIsProduct(value: real, q: nat)
    ensures Times(value, q) == value * q as real
  {
    if q > 0 {
      TimesIsProduct(value, q - 1);
      assert value * q as real == value + value * (q - 1) as real;
    }
  }

  lemma QuotientIs(value: real, p: int, q: nat)
    requires q > 0
    ensures IsQuotient(value, p, q) <==> value * q as real == p as real
  {
    TimesIsProduct(value, q);
  }

  lemma IntegerIsRational(n: int)
    ensures Rational(n as real)
  {
    QuotientIs(n as real, n, 1);
    assert IsQuotient(n as real, n, 1);
  }

  /** a * q == p and b * s == r give (a / b) * (q * r) == p * s. */
  lemma DividedQuotients(a: real, b: real, p: real, q: real, r: real, s: real)
    requires b != 0.0 && a * q == p && b * s == r
    ensures (a / b) * (q * r) == p * s
  {
    var c := a / b;
    assert c * b == a;
    assert c * (q * r) == c * (q * (b * s));
    assert c * (q * (b * s)) == (c * b) * q * s;
  }

  lemma DivisionIsRational(a: real, b: real)
    requires Rational(a) && Rational(b) && b != 0.0
    ensures Rational(a / b)
  {
    var p: int, q: nat :| IsQuotient(a, p, q);
    var r: int, s: nat :| IsQuotient(b, r, s);
    QuotientIs(a, p, q);
    QuotientIs(b, r, s);
    DividedQuotients(a, b, p as real, q as real, r as real, s as real);
    ProductNotZero(b, s as real, r as real);
    assert r != 0;
    SignedQuotient(a / b, p * s, q * r);
  }

  lemma ProductNotZero(a: real, b: real, c: real)
    requires a != 0.0 && b > 0.0 && a * b == c
    ensures c != 0.0
  {
  }

  lemma SignedQuotient(value: real, p: int, q: int)
    requires q != 0 && value * q as real == p as real
    ensures Rational(value)
  {
    if q > 0 {
      QuotientIs(value, p, q);
      assert IsQuotient(value, p, q);
    } else {
      assert value * (-q) as real == (-p) as real;
      QuotientIs(value, -p, -q);
      assert IsQuotient(value, -p, -q);
    }
  }

  // ---- Numbers and texts

  function Unary(n: nat): string {
    if n == 0 then "." else "1" + Unary(n - 1)
  }

  function ReadUnary(bytes: string): (nat, string) {
    if bytes == "" then (0, "")
    else if bytes[0] == '1' then
      var (n, rest) := ReadUnary(bytes[1..]);
      (n + 1, rest)
    else (0, bytes[1..])
  }

  function Number(n: int): string {
    if n < 0 then "-" + Unary(-n) else "+" + Unary(n)
  }

  function ReadNumber(bytes: string): (int, string) {
    if bytes == "" then (0, "")
    else
      var (n, rest) := ReadUnary(bytes[1..]);
      var size: int := n;
      (if bytes[0] == '-' then -size else size, rest)
  }

  lemma {:induction false} UnaryRoundTrip(n: nat, rest: string)
    ensures ReadUnary(Unary(n) + rest) == (n, rest)
  {
    if n == 0 {
      assert ("." + rest)[0] == '.' && ("." + rest)[1..] == rest;
    } else {
      Concat3("1", Unary(n - 1), rest);
      TailOfCons('1', Unary(n - 1) + rest);
      UnaryRoundTrip(n - 1, rest);
    }
  }

  lemma NumberRoundTrip(n: int, rest: string)
    ensures ReadNumber(Number(n) + rest) == (n, rest)
  {
    var sign, digits := if n < 0 then '-' else '+', Unary(if n < 0 then -n else n);
    Concat3([sign], digits, rest);
    TailOfCons(sign, digits + rest);
    UnaryRoundTrip(if n < 0 then -n else n, rest);
  }

  function TextBytes(s: string): string {
    Number(|s|) + s
  }

  function ReadText(bytes: string): (string, string) {
    var (n, rest) := ReadNumber(bytes);
    if 0 <= n <= |rest| then (rest[..n], rest[n..]) else ("", rest)
  }

  lemma TextRoundTrip(s: string, rest: string)
    ensures ReadText(TextBytes(s) + rest) == (s, rest)
  {
    Concat3(Number(|s|), s, rest);
    NumberRoundTrip(|s|, s + rest);
    assert (s + rest)[..|s|] == s && (s + rest)[|s|..] == rest;
  }

  // ---- Values

  ghost function Value(value: real): string {
    if Rational(value) then
      var p: int, q: nat :| IsQuotient(value, p, q);
      Number(p) + Number(q)
    else ""
  }

  ghost function ReadValue(bytes: string): (real, string) {
    var (p, more) := ReadNumber(bytes);
    var (q, rest) := ReadNumber(more);
    (if q >= 0 then QuotientOf(p, q) else 0.0, rest)
  }

  ghost function QuotientOf(p: int, q: nat): real {
    if exists value: real :: IsQuotient(value, p, q) then
      var value: real :| IsQuotient(value, p, q);
      value
    else 0.0
  }

  lemma ValueRoundTrip(value: real, rest: string)
    requires Rational(value)
    ensures ReadValue(Value(value) + rest) == (value, rest)
  {
    var p: int, q: nat :| IsQuotient(value, p, q) && Value(value) == Number(p) + Number(q);
    Concat3(Number(p), Number(q), rest);
    NumberRoundTrip(p, Number(q) + rest);
    NumberRoundTrip(q, rest);
    QuotientIsUnique(value, QuotientOf(p, q), p, q);
  }

  // ---- Lists

  function OneTag(tag: Tag): string {
    TextBytes(tag.key) + TextBytes(tag.value)
  }

  function ReadTag(bytes: string): (Tag, string) {
    var (key, afterKey) := ReadText(bytes);
    var (value, rest) := ReadText(afterKey);
    (Tag(key, value), rest)
  }

  lemma TagRoundTrip(tag: Tag, rest: string)
    ensures ReadTag(OneTag(tag) + rest) == (tag, rest)
  {
    Concat3(TextBytes(tag.key), TextBytes(tag.value), rest);
    TextRoundTrip(tag.key, TextBytes(tag.value) + rest);
    TextRoundTrip(tag.value, rest);
  }

  ghost function OnePoint(point: Datapoint): string {
    Number(point.timeMs) + (TextBytes(point.name) + Value(point.value))
  }

  ghost function ReadPoint(bytes: string): (Datapoint, string) {
    var (timeMs, afterTime) := ReadNumber(bytes);
    var (name, afterName) := ReadText(afterTime);
    var (value, rest) := ReadValue(afterName);
    (Datapoint(timeMs, name, value), rest)
  }

  lemma PointRoundTrip(point: Datapoint, rest: string)
    requires Rational(point.value)
    ensures ReadPoint(OnePoint(point) + rest) == (point, rest)
  {
    var timeMs, name, value := Number(point.timeMs), TextBytes(point.name), Value(point.value);
    Concat3(timeMs, name + value, rest);
    Concat3(name, value, rest);
    NumberRoundTrip(point.timeMs, name + (value + rest));
    TextRoundTrip(point.name, value + rest);
    ValueRoundTrip(point.value, rest);
  }

  /** Items one after the other, each encoded by `one`. */
  function Listed<T>(one: T -> string, items: seq<T>): string {
    if items == [] then "" else one(items[0]) + Listed(one, items[1..])
  }

  function ReadListed<T>(read: string -> (T, string), bytes: string, count: nat): (seq<T>, string)
    decreases count
  {
    if count == 0 then ([], bytes)
    else
      var (first, left) := read(bytes);
      var (more, rest) := ReadListed(read, left, count - 1);
      ([first] + more, rest)
  }

  lemma {:induction false} ListedRoundTrip<T>(
      one: T -> string, read: string -> (T, string), items: seq<T>, rest: string)
    requires forall x, left :: x in items ==> read(one(x) + left) == (x, left)
    ensures ReadListed(read, Listed(one, items) + rest, |items|) == (items, rest)
  {
    if items == [] {
      assert "" + rest == rest;
    } else {
      var first, more := items[0], items[1..];
      var bytes := Listed(one, more) + rest;
      ListedRoundTrip(one, read, more, rest);
      Concat3(one(first), Listed(one, more), rest);
      assert read(one(first) + bytes) == (first, bytes);
      assert items == [first] + more;
    }
  }

  function Tags(tags: seq<Tag>): string {
    Listed((tag: Tag) => OneTag(tag), tags)
  }

  function ReadTags(bytes: string, count: nat): (seq<Tag>, string) {
    ReadListed((left: string) => ReadTag(left), bytes, count)
  }

  lemma TagsRoundTrip(tags: seq<Tag>, rest: string)
    ensures ReadTags(Tags(tags) + rest, |tags|) == (tags, rest)
  {
    var one, read := (tag: Tag) => OneTag(tag), (left: string) => ReadTag(left);
    forall tag, left | tag in tags
      ensures read(one(tag) + left) == (tag, left)
    {
      TagRoundTrip(tag, left);
    }
    ListedRoundTrip(one, read, tags, rest);
  }

  ghost function Points(points: seq<Datapoint>): string {
    Listed((point: Datapoint) => OnePoint(point), points)
  }

  ghost function ReadPoints(bytes: string, count: nat): (seq<Datapoint>, string) {
    ReadListed((left: string) => ReadPoint(left), bytes, count)
  }

  ghost predicate RationalPoints(points: seq<Datapoint>) {
    forall point :: point in points ==> Rational(point.value)
  }

  lemma PointsRoundTrip(points: seq<Datapoint>, rest: string)
    requires RationalPoints(points)
    ensures ReadPoints(Points(points) + rest, |points|) == (points, rest)
  {
    var one, read := (point: Datapoint) => OnePoint(point), (left: string) => ReadPoint(left);
    forall point, left | point in points
      ensures read(one(point) + left) == (point, left)
    {
      PointRoundTrip(point, left);
    }
    ListedRoundTrip(one, read, points, rest);
  }

  ghost function List(list: MetricList): string {
    TextBytes(list.topic)
    + (Number(|list.tags|) + (Tags(list.tags) + (Number(|list.datapoints|) + Points(list.datapoints))))
  }

  ghost function ReadList(bytes: string): (MetricList, string) {
    var (topic, afterTopic) := ReadText(bytes);
    var (tagCount, afterTagCount) := ReadNumber(afterTopic);
    var (tags, afterTags) := ReadTags(afterTagCount, if tagCount < 0 then 0 else tagCount);
    var (pointCount, afterPointCount) := ReadNumber(afterTags);
    var (points, rest) := ReadPoints(afterPointCount, if pointCount < 0 then 0 else pointCount);
    (MetricList(topic, tags, points), rest)
  }

  lemma ListRoundTrip(list: MetricList, rest: string)
    requires RationalPoints(list.datapoints)
    ensures ReadList(List(list) + rest) == (list, rest)
  {
    var topic, tagCount, tags := TextBytes(list.topic), Number(|list.tags|), Tags(list.tags);
    var pointCount, points := Number(|list.datapoints|), Points(list.datapoints);
    Concat3(topic, tagCount + (tags + (pointCount + points)), rest);
    Concat3(tagCount, tags + (pointCount + points), rest);
    Concat3(tags, pointCount + points, rest);
    Concat3(pointCount, points, rest);
    TextRoundTrip(list.topic, tagCount + (tags + (pointCount + (points + rest))));
    NumberRoundTrip(|list.tags|, tags + (pointCount + (points + rest)));
    TagsRoundTrip(list.tags, pointCount + (points + rest));
    NumberRoundTrip(|list.datapoints|, points + rest);
    PointsRoundTrip(list.datapoints, rest);
  }

  // ---- The encoding

  ghost function Sample(sync: string): Codec {
    Codec(
      (n: int) => Number(n), (l: MetricList) => List(l), sync,
      (bytes: string) => ReadNumber(bytes), (bytes: string) => ReadList(bytes),
      (n: int) => true, (l: MetricList) => RationalPoints(l.datapoints))
  }

  /** There is an encoding as the theorems about blocks ask for. */
  lemma SampleDecodes(sync: string)
    ensures Decodes(Sample(sync)) && NumbersShow(Sample(sync))
  {
    var codec := Sample(sync);
    forall n, rest
      ensures codec.readNumber(codec.number(n) + rest) == (n, rest) && codec.number(n) != ""
    {
      NumberRoundTrip(n, rest);
    }
    forall l, rest | codec.holds(l)
      ensures codec.readList(codec.list(l) + rest) == (l, rest)
    {
      ListRoundTrip(l, rest);
    }
  }

  // ---- Runs

  /** What `std::stod` gives for text: floating-point numbers. */
  ghost predicate ReadsRationals(stod: Stod) {
    forall text :: stod(text).Some? ==> Rational(stod(text).value)
  }

  lemma ValueIsRational(piece: string, stod: Stod)
    requires ReadsRationals(stod)
    ensures Rational(ValueOf(piece, stod))
  {
    IntegerIsRational(0);
    var i := IndexOf(piece, ':');
    if i < |piece| {
      assert stod(piece[i + 1..]).Some? ==> Rational(stod(piece[i + 1..]).value);
    }
  }

  lemma SectionKeepsRational(r: Reading, section: string, stod: Stod)
    requires ReadsRationals(stod) && Rational(r.value)
    ensures Rational(ApplySection(r, section, stod).value)
  {
    if !IsTagSection(section) && section != "" && section[0] == '@' {
      var factor := stod(section[1..]);
      if factor.Some? && factor.value != 0.0 {
        assert Rational(factor.value);
        DivisionIsRational(r.value, factor.value);
      }
    }
  }

  lemma {:induction false} SectionsKeepRational(r: Reading, sections: seq<string>, stod: Stod)
    requires ReadsRationals(stod) && Rational(r.value)
    ensures Rational(ApplySections(r, sections, stod).value)
    decreases |sections|
  {
    if sections != [] {
      SectionKeepsRational(r, sections[0], stod);
      SectionsKeepRational(ApplySection(r, sections[0], stod), sections[1..], stod);
    }
  }

  /** Values stay quotients of integers when a sample rate scales them. */
  lemma ParsedIsRational(data: string, stod: Stod)
    requires ReadsRationals(stod)
    ensures Rational(Parse(data, stod).value)
  {
    var head := Split(data, '|')[0];
    ValueIsRational(head, stod);
    SectionsKeepRational(Reading(ValueOf(head, stod), "", []), Sections(data), stod);
  }

  lemma {:induction false} SampleHolds(batch: seq<Write>, codec: Codec, stod: Stod)
    requires codec == Sample(codec.sync) && ReadsRationals(stod)
    ensures Holds(Block(MapAfter(batch, stod)), codec)
  {
    var lists := Block(MapAfter(batch, stod));
    forall k | 0 <= k < |lists|
      ensures RationalPoints(lists[k].datapoints)
    {
      forall p | p in lists[k].datapoints
        ensures Rational(p.value)
      {
        var w := BlockPoint(batch, k, p, stod);
        ParsedIsRational(w.data, stod);
      }
    }
  }

  /** With it, everything sent in any run reads back. */
  lemma {:induction false} SampleReadsBack(config: Collector.Config, events: seq<Collector.Event>)
    returns (batches: seq<seq<Write>>, pending: seq<Write>)
    requires config.codec == Sample(config.codec.sync) && ReadsRationals(config.stod)
    ensures Collector.Explains(Collector.Run(config, events), config, batches, pending)
    ensures Collector.Concat(batches) + pending == Collector.WritesIn(events)
    ensures forall i, following :: 0 <= i < |batches| ==>
              ReadBlock(Collector.Run(config, events).sent[i] + following, config.codec)
              == Some((Block(MapAfter(batches[i], config.stod)), following))
  {
    SampleDecodes(config.codec.sync);
    batches, pending := Collector.SentReadsBack(config, events);
    forall i | 0 <= i < |batches|
      ensures Holds(Block(MapAfter(batches[i], config.stod)), config.codec)
    {
      SampleHolds(batches[i], config.codec, config.stod);
    }
  }

}
