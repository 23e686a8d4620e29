/** Storing datapoints under keys built from their names and tags. */
module StoreKey {
  import opened Sequences
  import opened StringOrder
  import opened Text

  const METRIC_NAMESPACE_SEP := "."

  type Tags = map<string, string>

  datatype Pair = Pair(key: string, value: string)

  // ---- Sorting tags

  function Sorted(keys: seq<string>): seq<string> {
    if keys == [] then [] else Insert(Sorted(keys[1..]), keys[0])
  }

  lemma {:induction false} SortedIsInOrder(keys: seq<string>)
    ensures Sorted(keys) == InOrder(Elements(keys))
  {
    SortedMeans(keys);
    InOrderMeans(Elements(keys));
    OrderIsUnique(Sorted(keys), InOrder(Elements(keys)));
  }

  lemma {:induction false} SortedMeans(keys: seq<string>)
    ensures Ascending(Sorted(keys)) && Elements(Sorted(keys)) == Elements(keys)
  {
    if keys != [] {
      SortedMeans(keys[1..]);
      InsertKeepsOrder(Sorted(keys[1..]), keys[0]);
      InsertElements(Sorted(keys[1..]), keys[0]);
      ElementsOfTail(keys);
    }
  }

  function PairsOf(tags: Tags, keys: seq<string>): seq<Pair>
    requires forall k :: k in keys ==> k in tags
  {
    if keys == [] then [] else [Pair(keys[0], tags[keys[0]])] + PairsOf(tags, keys[1..])
  }

  ghost function SortedPairs(tags: Tags): seq<Pair> {
    InOrderMeans(tags.Keys);
    assert forall k :: k in InOrder(tags.Keys) ==> k in Elements(InOrder(tags.Keys));
    PairsOf(tags, InOrder(tags.Keys))
  }

  lemma {:induction false} PairsAt(tags: Tags, keys: seq<string>, i: nat)
    requires forall k :: k in keys ==> k in tags
    ensures |PairsOf(tags, keys)| == |keys|
    ensures i < |keys| ==> PairsOf(tags, keys)[i] == Pair(keys[i], tags[keys[i]])
  {
    if keys != [] {
      PairsAt(tags, keys[1..], if i > 0 then i - 1 else 0);
    }
  }

  /** `order` is the order in which iterating over the map happens to list its keys. */
  method SortTags(tags: Tags, order: seq<string>) returns (result: seq<Pair>)
    requires |order| == |tags| && Elements(order) == tags.Keys
    ensures result == SortedPairs(tags)
  {
    var keys := FillKeys(|tags|, order);
    var sorted := Sorted(keys);
    SortedIsInOrder(order);
    InOrderMeans(tags.Keys);
    assert forall k :: k in sorted ==> k in Elements(sorted);
    result := ListPairs(tags, sorted);
  }

  method FillKeys(count: nat, order: seq<string>) returns (filled: seq<string>)
    requires |order| == count
    ensures filled == order
  {
    var keys := new string[count](_ => "");
    var i := 0;
    for n := 0 to |order|
      invariant i == n
      invariant keys[..i] == order[..n]
    {
      keys[i] := order[n];
      i := i + 1;
    }
    filled := keys[..];
  }

  method ListPairs(tags: Tags, keys: seq<string>) returns (result: seq<Pair>)
    requires forall k :: k in keys ==> k in tags
    ensures result == PairsOf(tags, keys)
  {
    result := [];
    ghost var all := PairsOf(tags, keys);
    assert keys[0..] == keys && [] + all == all;
    for n := 0 to |keys|
      invariant result + PairsOf(tags, keys[n..]) == all
    {
      PairsNext(tags, keys, n);
      Concat3(result, [Pair(keys[n], tags[keys[n]])], PairsOf(tags, keys[n + 1..]));
      result := result + [Pair(keys[n], tags[keys[n]])];
    }
    assert keys[|keys|..] == [] && result + [] == result;
  }

  lemma PairsNext(tags: Tags, keys: seq<string>, n: nat)
    requires n < |keys| && forall k :: k in keys ==> k in tags
    ensures PairsOf(tags, keys[n..]) == [Pair(keys[n], tags[keys[n]])] + PairsOf(tags, keys[n + 1..])
  {
    DropSlice(keys, n, n, 0);
  }

  // ---- Keys

  function JoinMetricName(a: string, b: string): string {
    a + METRIC_NAMESPACE_SEP + b
  }

  function SerializedTag(p: Pair): string {
    "#" + p.key + ":" + p.value
  }

  function Qualified(name: string, pairs: seq<Pair>): string
    decreases |pairs|
  {
    if pairs == [] then name
    else Qualified(JoinMetricName(name, SerializedTag(pairs[0])), pairs[1..])
  }

  ghost function Key(prefix: string, name: string, tags: Tags): string {
    Qualified(JoinMetricName(prefix, name), SortedPairs(tags))
  }

  /** The text has no `.#`, which is what separates tags. */
  predicate NoSeparator(text: string) {
    forall i :: 0 <= i < |text| - 1 && text[i] == '.' ==> text[i + 1] != '#'
  }

  predicate CleanPair(p: Pair) {
    ':' !in p.key && NoSeparator(p.value)
  }

  ghost predicate CleanTags(tags: Tags) {
    forall k :: k in tags ==> CleanPair(Pair(k, tags[k]))
  }

  ghost predicate CleanPairs(pairs: seq<Pair>) {
    forall i :: 0 <= i < |pairs| ==> CleanPair(pairs[i])
  }

  /** What the tags add to a name. */
  function Suffix(pairs: seq<Pair>): string {
    if pairs == [] then "" else ".#" + (pairs[0].key + ":" + pairs[0].value + Suffix(pairs[1..]))
  }

  lemma {:induction false} QualifiedIsSuffixed(name: string, pairs: seq<Pair>)
    ensures Qualified(name, pairs) == name + Suffix(pairs)
    decreases |pairs|
  {
    if pairs != [] {
      var p, rest := pairs[0], Suffix(pairs[1..]);
      QualifiedIsSuffixed(JoinMetricName(name, SerializedTag(p)), pairs[1..]);
      assert name + "." + ("#" + p.key + ":" + p.value) + rest == name + (".#" + (p.key + ":" + p.value + rest)) by {
        assert "." + "#" == ".#";
      }
    } else {
      assert name + "" == name;
    }
  }

  /** Where the first `.#` at or after `from` is; the length of the text if there is none. */
  function SeparatorIndex(text: string, from: nat): nat
    requires from <= |text|
    decreases |text| - from
  {
    if from + 1 >= |text| then |text|
    else if text[from] == '.' && text[from + 1] == '#' then from
    else SeparatorIndex(text, from + 1)
  }

  lemma {:induction false} SkipToSeparator(text: string, from: nat, at: nat)
    requires from <= at <= |text|
    requires forall i :: from <= i < at && i + 1 < |text| && text[i] == '.' ==> text[i + 1] != '#'
    ensures SeparatorIndex(text, from) == SeparatorIndex(text, at)
    decreases at - from
  {
    if from < at {
      if from + 1 < |text| {
        assert text[from] == '.' ==> text[from + 1] != '#';
      }
      SkipToSeparator(text, from + 1, at);
    }
  }

  /** The first `.#` shows where a text without one, followed by nothing or by `.#`, ends. */
  lemma FirstSeparator(a: string, s: string, w: string)
    requires NoSeparator(a) && w == a + s
    requires s == "" || (|s| >= 2 && s[..2] == ".#")
    ensures SeparatorIndex(w, 0) == |a|
    ensures w[..|a|] == a && w[|a|..] == s
  {
    if s != "" {
      assert s[..2][0] == '.' && s[..2][1] == '#';
      assert w[|a|] == '.' && w[|a| + 1] == '#';
    }
    forall i | 0 <= i < |a| && i + 1 < |w| && w[i] == '.'
      ensures w[i + 1] != '#'
    {
      assert a[i] == '.';
    }
    SkipToSeparator(w, 0, |a|);
  }

  /** Texts without `.#`, each followed by nothing or by `.#`: equal as a whole only if equal in both parts. */
  lemma SamePart(a: string, s: string, b: string, t: string)
    requires NoSeparator(a) && NoSeparator(b) && a + s == b + t
    requires s == "" || (|s| >= 2 && s[..2] == ".#")
    requires t == "" || (|t| >= 2 && t[..2] == ".#")
    ensures a == b && s == t
  {
    FirstSeparator(a, s, a + s);
    FirstSeparator(b, t, a + s);
  }

  lemma SuffixShape(pairs: seq<Pair>)
    ensures Suffix(pairs) == "" || (|Suffix(pairs)| >= 2 && Suffix(pairs)[..2] == ".#")
    ensures Suffix(pairs) == "" <==> pairs == []
  {
  }

  lemma FirstColon(key: string, rest: string, w: string)
    requires ':' !in key && w == key + ":" + rest
    ensures IndexOf(w, ':') == |key| && w[..|key|] == key && w[|key| + 1..] == rest
  {
    assert w[|key|] == ':';
    assert forall k :: 0 <= k < |key| ==> w[k] == key[k];
    IndexOfAt(w, ':', |key|);
  }

  lemma SuffixTail(pairs: seq<Pair>)
    requires pairs != []
    ensures Suffix(pairs)[2..] == pairs[0].key + ":" + (pairs[0].value + Suffix(pairs[1..]))
  {
    var p, rest := pairs[0], Suffix(pairs[1..]);
    assert p.key + ":" + p.value + rest == p.key + ":" + (p.value + rest);
  }

  lemma {:induction false} SameSuffix(a: string, ps: seq<Pair>, b: string, qs: seq<Pair>)
    requires NoSeparator(a) && NoSeparator(b) && CleanPairs(ps) && CleanPairs(qs)
    requires a + Suffix(ps) == b + Suffix(qs)
    ensures a == b && ps == qs
    decreases |ps|
  {
    SuffixShape(ps);
    SuffixShape(qs);
    SamePart(a, Suffix(ps), b, Suffix(qs));
    if ps != [] {
      var p, q := ps[0], qs[0];
      assert CleanPair(p) && CleanPair(q);
      SuffixTail(ps);
      SuffixTail(qs);
      FirstColon(p.key, p.value + Suffix(ps[1..]), Suffix(ps)[2..]);
      FirstColon(q.key, q.value + Suffix(qs[1..]), Suffix(ps)[2..]);
      SameSuffix(p.value, ps[1..], q.value, qs[1..]);
      assert ps == [p] + ps[1..] && qs == [q] + qs[1..];
    }
  }

  lemma PairsDetermine(t: Tags, u: Tags)
    requires SortedPairs(t) == SortedPairs(u)
    ensures t == u
  {
    var ts, us := InOrder(t.Keys), InOrder(u.Keys);
    InOrderMeans(t.Keys);
    InOrderMeans(u.Keys);
    assert forall k :: k in ts ==> k in Elements(ts);
    assert forall k :: k in us ==> k in Elements(us);
    PairsAt(t, ts, 0);
    PairsAt(u, us, 0);
    forall i | 0 <= i < |ts|
      ensures ts[i] == us[i] && t[ts[i]] == u[us[i]]
    {
      PairsAt(t, ts, i);
      PairsAt(u, us, i);
    }
    assert ts == us;
    forall k | k in t
      ensures t[k] == u[k]
    {
      assert k in Elements(ts);
      var i :| 0 <= i < |ts| && ts[i] == k;
      assert t[ts[i]] == u[us[i]];
    }
  }

  lemma CleanSorted(tags: Tags)
    requires CleanTags(tags)
    ensures CleanPairs(SortedPairs(tags))
  {
    var keys := InOrder(tags.Keys);
    InOrderMeans(tags.Keys);
    assert forall k :: k in keys ==> k in Elements(keys);
    forall i | 0 <= i < |SortedPairs(tags)|
      ensures CleanPair(SortedPairs(tags)[i])
    {
      PairsAt(tags, keys, i);
      assert keys[i] in tags;
    }
  }

  lemma KeyIsSuffixed(prefix: string, name: string, tags: Tags)
    ensures Key(prefix, name, tags) == (prefix + METRIC_NAMESPACE_SEP) + (name + Suffix(SortedPairs(tags)))
  {
    QualifiedIsSuffixed(JoinMetricName(prefix, name), SortedPairs(tags));
    var head, suffix := prefix + METRIC_NAMESPACE_SEP, Suffix(SortedPairs(tags));
    assert head + name + suffix == head + (name + suffix);
  }

  /** Two datapoints share a key exactly when they share name and tags. */
  lemma KeyIsCanonical(prefix: string, a: string, t: Tags, b: string, u: Tags)
    requires NoSeparator(a) && NoSeparator(b) && CleanTags(t) && CleanTags(u)
    ensures Key(prefix, a, t) == Key(prefix, b, u) <==> a == b && t == u
  {
    if Key(prefix, a, t) == Key(prefix, b, u) {
      KeyIsSuffixed(prefix, a, t);
      KeyIsSuffixed(prefix, b, u);
      SameRest(prefix + METRIC_NAMESPACE_SEP, a + Suffix(SortedPairs(t)), b + Suffix(SortedPairs(u)));
      CleanSorted(t);
      CleanSorted(u);
      SameSuffix(a, SortedPairs(t), b, SortedPairs(u));
      PairsDetermine(t, u);
    }
  }

  lemma SortedOne(key: string, value: string)
    ensures SortedPairs(map[key := value]) == [Pair(key, value)]
  {
    var tags := map[key := value];
    InOrderMeans(tags.Keys);
    assert Elements([key]) == tags.Keys && Ascending([key]);
    OrderIsUnique(InOrder(tags.Keys), [key]);
    assert [key][1..] == [];
    assert PairsOf(tags, [key]) == [Pair(key, value)] + PairsOf(tags, []);
  }

  lemma SortedTwo(k: string, v: string, l: string, w: string)
    requires Below(k, l)
    ensures SortedPairs(map[k := v, l := w]) == [Pair(k, v), Pair(l, w)]
  {
    var tags, keys := map[k := v, l := w], [k, l];
    BelowIsStrict(k, l);
    InOrderMeans(tags.Keys);
    assert keys[1..] == [l];
    assert Elements(keys) == tags.Keys && Ascending([l]) && Ascending(keys);
    OrderIsUnique(InOrder(tags.Keys), keys);
    assert PairsOf(tags, [l]) == [Pair(l, w)];
  }

  lemma KeyOfNone(prefix: string, name: string)
    ensures Key(prefix, name, map[]) == prefix + "." + name
  {
    var none: Tags := map[];
    InOrderMeans(none.Keys);
    assert InOrder(none.Keys) == [];
  }

  lemma KeyOfOne(prefix: string, name: string, key: string, value: string)
    ensures Key(prefix, name, map[key := value])
            == prefix + "." + name + ".#" + key + ":" + value
  {
    SortedOne(key, value);
    KeyIsSuffixed(prefix, name, map[key := value]);
    var one, head := [Pair(key, value)], prefix + METRIC_NAMESPACE_SEP;
    assert one[1..] == [];
    assert Suffix(one) == ".#" + (key + ":" + value + "");
    assert head + (name + (".#" + (key + ":" + value + ""))) == head + name + ".#" + key + ":" + value;
  }

  /**
   * None of the conditions can be dropped: whenever a datapoint breaks one in one of these ways, another one has its
   * key. A name that ends like a tag passes for a name with that tag.
   */
  lemma SeparatorInNameCollides(prefix: string, name: string, key: string, value: string)
    ensures Key(prefix, name + ".#" + key + ":" + value, map[]) == Key(prefix, name, map[key := value])
  {
    KeyOfNone(prefix, name + ".#" + key + ":" + value);
    KeyOfOne(prefix, name, key, value);
    var head := prefix + METRIC_NAMESPACE_SEP;
    assert head + (name + ".#" + key + ":" + value) == head + name + ".#" + key + ":" + value;
  }

  /** A colon can be taken from the key and given to the value. */
  lemma ColonInKeyCollides(prefix: string, name: string, key: string, more: string, value: string)
    ensures Key(prefix, name, map[key + ":" + more := value]) == Key(prefix, name, map[key := more + ":" + value])
    ensures map[key + ":" + more := value] != map[key := more + ":" + value]
  {
    KeyOfOne(prefix, name, key + ":" + more, value);
    KeyOfOne(prefix, name, key, more + ":" + value);
    var head := prefix + METRIC_NAMESPACE_SEP + name + ".#";
    assert head + (key + ":" + more) + ":" + value == head + key + ":" + (more + ":" + value);
    assert |key + ":" + more| > |key|;
    assert key in map[key := more + ":" + value] && key !in map[key + ":" + more := value];
  }

  /** The rest of a value can pass for a second tag. */
  lemma SeparatorInValueCollides(prefix: string, name: string, k: string, v: string, l: string, w: string)
    requires Below(k, l)
    ensures Key(prefix, name, map[k := v + ".#" + l + ":" + w]) == Key(prefix, name, map[k := v, l := w])
    ensures map[k := v + ".#" + l + ":" + w] != map[k := v, l := w]
  {
    BelowIsStrict(k, l);
    KeyOfOne(prefix, name, k, v + ".#" + l + ":" + w);
    SortedTwo(k, v, l, w);
    KeyIsSuffixed(prefix, name, map[k := v, l := w]);
    var both, second, head := [Pair(k, v), Pair(l, w)], [Pair(l, w)], prefix + METRIC_NAMESPACE_SEP;
    assert both[1..] == second && second[1..] == [];
    assert Suffix(second) == ".#" + (l + ":" + w + "");
    assert Suffix(both) == ".#" + (k + ":" + v + Suffix(second));
    assert head + (name + (".#" + (k + ":" + v + (".#" + (l + ":" + w + "")))))
           == head + name + ".#" + k + ":" + (v + ".#" + l + ":" + w);
    assert l in map[k := v, l := w] && l !in map[k := v + ".#" + l + ":" + w];
  }

  /** The text reads as a name followed by something like a tag: it has a `.#`, and a colon after that. */
  ghost predicate TagLike(text: string) {
    exists i, j :: 0 <= i && i + 2 <= j < |text| && text[i] == '.' && text[i + 1] == '#' && text[j] == ':'
  }

  /** A datapoint with tags has the key of the untagged one whose name spells them out. */
  lemma {:induction false} TaggedKeyIsUntagged(prefix: string, name: string, tags: Tags)
    ensures Key(prefix, name + Suffix(SortedPairs(tags)), map[]) == Key(prefix, name, tags)
  {
    var head, suffix := prefix + METRIC_NAMESPACE_SEP, Suffix(SortedPairs(tags));
    KeyOfNone(prefix, name + suffix);
    KeyIsSuffixed(prefix, name, tags);
  }

  lemma {:induction false} TagLikeCollides(prefix: string, name: string)
    requires TagLike(name)
    ensures exists b, u :: u != map[] && Key(prefix, b, u) == Key(prefix, name, map[])
  {
    var i, j :| 0 <= i && i + 2 <= j < |name| && name[i] == '.' && name[i + 1] == '#' && name[j] == ':';
    var b, key, value := name[..i], name[i + 2..j], name[j + 1..];
    assert name == b + ".#" + key + ":" + value;
    SeparatorInNameCollides(prefix, b, key, value);
    var u: Tags := map[key := value];
    assert key in u;
    assert u != map[];
  }

  /** An untagged datapoint that shares its key with another has a name like a tagged one. */
  lemma {:induction false} SharedIsTagLike(prefix: string, name: string, b: string, u: Tags)
    requires !(b == name && u == map[]) && Key(prefix, b, u) == Key(prefix, name, map[])
    ensures TagLike(name)
  {
    var head, pairs := prefix + METRIC_NAMESPACE_SEP, SortedPairs(u);
    KeyOfNone(prefix, name);
    KeyIsSuffixed(prefix, b, u);
    SameRest(head, b + Suffix(pairs), name);
    PairsOfNone();
    SuffixShape(pairs);
    assert b + "" == b;
    if pairs == [] {
      PairsDetermine(u, map[]);
      assert false;
    }
    SuffixTail(pairs);
    var suffix, i := Suffix(pairs), |b|;
    var j := i + 2 + |pairs[0].key|;
    assert suffix[..2][0] == '.' && suffix[..2][1] == '#';
    assert name[i] == '.' && name[i + 1] == '#';
    assert suffix[2..][|pairs[0].key|] == ':';
    assert name[j] == suffix[2 + |pairs[0].key|];
  }

  lemma PairsOfNone()
    ensures SortedPairs(map[]) == []
  {
    var none: Tags := map[];
    InOrderMeans(none.Keys);
    assert InOrder(none.Keys) == [];
  }

  /** Exactly the untagged datapoints whose name is not like a tagged one have a key of their own. */
  lemma {:induction false} KeyIsShared(prefix: string, name: string, tags: Tags)
    ensures (exists b, u :: !(b == name && u == tags) && Key(prefix, b, u) == Key(prefix, name, tags))
            <==> tags != map[] || TagLike(name)
  {
    if tags != map[] {
      TaggedKeyIsUntagged(prefix, name, tags);
      var b, u: Tags := name + Suffix(SortedPairs(tags)), map[];
      assert !(b == name && u == tags) && Key(prefix, b, u) == Key(prefix, name, tags);
    } else if TagLike(name) {
      TagLikeCollides(prefix, name);
    } else {
      forall b, u | !(b == name && u == tags)
        ensures Key(prefix, b, u) != Key(prefix, name, tags)
      {
        if Key(prefix, b, u) == Key(prefix, name, tags) {
          SharedIsTagLike(prefix, name, b, u);
        }
      }
    }
  }

  // ---- The store

  datatype Datapoint<V> = Datapoint(name: string, tags: Tags, value: V)

  ghost function KeyOf<V>(prefix: string, d: Datapoint<V>): string {
    Key(prefix, d.name, d.tags)
  }

  ghost predicate Clean<V>(d: Datapoint<V>) {
    NoSeparator(d.name) && CleanTags(d.tags)
  }

  ghost function StoreAfter<V>(prefix: string, written: seq<Datapoint<V>>): map<string, Datapoint<V>> {
    if written == [] then map[]
    else
      var last := written[|written| - 1];
      StoreAfter(prefix, written[..|written| - 1])[KeyOf(prefix, last) := last]
  }

  /** For each name and tags, the store keeps the datapoint written last, and no other datapoint can replace it. */
  lemma {:induction false} StoreKeepsLatest<V>(prefix: string, written: seq<Datapoint<V>>, i: nat)
    requires i < |written| && forall k :: 0 <= k < |written| ==> Clean(written[k])
    requires forall k :: i < k < |written| ==> !(written[k].name == written[i].name && written[k].tags == written[i].tags)
    ensures var store := StoreAfter(prefix, written);
            KeyOf(prefix, written[i]) in store && store[KeyOf(prefix, written[i])] == written[i]
  {
    var n, last := |written| - 1, written[|written| - 1];
    if i < n {
      assert Clean(written[i]) && Clean(last);
      StoreKeepsLatest(prefix, written[..n], i);
      KeyIsCanonical(prefix, written[i].name, written[i].tags, last.name, last.tags);
    }
  }

  class ProducerImpl<V> {
    var store: map<string, Datapoint<V>>

    constructor ()
      ensures store == map[]
    {
      store := map[];
    }

    method WriteObjectToStore(d: Datapoint<V>, prefix: string, order: seq<string>)
      requires |order| == |d.tags| && Elements(order) == d.tags.Keys
      modifies this
      ensures store == old(store)[KeyOf(prefix, d) := d]
    {
      var qualifiedName := JoinMetricName(prefix, d.name);
      var pairs := SortTags(d.tags, order);
      ghost var key := Qualified(qualifiedName, pairs);
      for i := 0 to |pairs|
        invariant Qualified(qualifiedName, pairs[i..]) == key
        invariant store == old(store)
      {
        assert pairs[i..][0] == pairs[i] && pairs[i..][1..] == pairs[i + 1..];
        qualifiedName := JoinMetricName(qualifiedName, SerializedTag(pairs[i]));
      }
      store := store[qualifiedName := d];
    }
  }

}
