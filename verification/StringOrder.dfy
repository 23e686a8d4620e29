/** The byte-wise order of strings, in which ordered maps list their keys. */
module StringOrder {

  predicate Below(a: string, b: string) {
    b != "" && (a == "" || a[0] < b[0] || (a[0] == b[0] && Below(a[1..], b[1..])))
  }

  /** A text is below its extensions, and of two that differ, the one with the smaller byte at the first difference is. */
  lemma {:induction false} FirstDifferenceDecides(head: string, x: char, a: string, y: char, b: string)
    requires x < y
    ensures Below(head + [x] + a, head + [y] + b) && !Below(head + [y] + b, head + [x] + a)
    ensures Below(head, head + [y] + b) && !Below(head + [y] + b, head)
  {
    if head != "" {
      var rest := head[1..];
      FirstDifferenceDecides(rest, x, a, y, b);
      assert (head + [x] + a)[1..] == rest + [x] + a && (head + [y] + b)[1..] == rest + [y] + b;
    }
  }

  lemma {:induction false} BelowIsStrict(a: string, b: string)
    ensures !(Below(a, b) && Below(b, a)) && !Below(a, a)
  {
    if a != "" {
      BelowIsStrict(a[1..], if b == "" then "" else b[1..]);
    }
  }

  lemma {:induction false} BelowIsTotal(a: string, b: string)
    ensures a == b || Below(a, b) || Below(b, a)
  {
    if a != "" && b != "" && a[0] == b[0] {
      BelowIsTotal(a[1..], b[1..]);
      assert a == [a[0]] + a[1..] && b == [b[0]] + b[1..];
    }
  }

  lemma {:induction false} BelowIsTransitive(a: string, b: string, c: string)
    requires Below(a, b) && Below(b, c)
    ensures Below(a, c)
  {
    if a != "" && a[0] == b[0] == c[0] {
      BelowIsTransitive(a[1..], b[1..], c[1..]);
    }
  }

  ghost predicate BelowAll(x: string, list: seq<string>) {
    forall y :: y in list ==> Below(x, y)
  }

  ghost predicate Ascending(list: seq<string>) {
    list == [] || (BelowAll(list[0], list[1..]) && Ascending(list[1..]))
  }

  function Elements<T>(list: seq<T>): set<T> {
    set x | x in list
  }

  function Insert(list: seq<string>, x: string): seq<string> {
    if list == [] then [x]
    else if x == list[0] then list
    else if Below(x, list[0]) then [x] + list
    else [list[0]] + Insert(list[1..], x)
  }

  lemma ElementsOfCons<T>(x: T, list: seq<T>)
    ensures Elements([x] + list) == {x} + Elements(list)
  {
    assert ([x] + list)[0] == x;
    assert forall y :: y in [x] + list <==> y == x || y in list;
  }

  lemma ElementsOfTail<T>(list: seq<T>)
    requires list != []
    ensures Elements(list) == {list[0]} + Elements(list[1..])
  {
    assert list == [list[0]] + list[1..];
    ElementsOfCons(list[0], list[1..]);
  }

  lemma {:induction false} InsertElements(list: seq<string>, x: string)
    ensures Elements(Insert(list, x)) == Elements(list) + {x}
  {
    if list == [] {
      assert Elements([x]) == {x};
    } else if x != list[0] {
      ElementsOfTail(list);
      if Below(x, list[0]) {
        ElementsOfCons(x, list);
      } else {
        InsertElements(list[1..], x);
        ElementsOfCons(list[0], Insert(list[1..], x));
      }
    }
  }

  lemma AscendingCons(x: string, list: seq<string>)
    requires Ascending(list) && BelowAll(x, list)
    ensures Ascending([x] + list)
  {
    assert ([x] + list)[1..] == list;
  }

  lemma BelowHead(x: string, list: seq<string>)
    requires list != [] && Ascending(list) && Below(x, list[0])
    ensures BelowAll(x, list)
  {
    ElementsOfTail(list);
    forall y | y in list
      ensures Below(x, y)
    {
      assert y in Elements(list);
      if y != list[0] {
        assert y in list[1..];
        BelowIsTransitive(x, list[0], y);
      }
    }
  }

  lemma {:induction false} InsertKeepsOrder(list: seq<string>, x: string)
    requires Ascending(list)
    ensures Ascending(Insert(list, x))
  {
    if list != [] && x != list[0] {
      BelowIsTotal(x, list[0]);
      if Below(x, list[0]) {
        BelowHead(x, list);
        AscendingCons(x, list);
      } else {
        var rest := Insert(list[1..], x);
        InsertKeepsOrder(list[1..], x);
        InsertElements(list[1..], x);
        assert forall y :: y in rest ==> y in Elements(rest);
        AscendingCons(list[0], rest);
      }
    }
  }

  /** The keys of an ordered map, in the order in which it lists them. */
  ghost function InOrder(keys: set<string>): seq<string> {
    if keys == {} then []
    else var x :| x in keys; Insert(InOrder(keys - {x}), x)
  }

  lemma {:induction false} InOrderMeans(keys: set<string>)
    ensures Ascending(InOrder(keys)) && Elements(InOrder(keys)) == keys
    decreases keys
  {
    if keys != {} {
      var x :| x in keys && InOrder(keys) == Insert(InOrder(keys - {x}), x);
      InOrderMeans(keys - {x});
      InsertElements(InOrder(keys - {x}), x);
      InsertKeepsOrder(InOrder(keys - {x}), x);
    }
  }

  lemma AscendingTail(list: seq<string>)
    requires list != [] && Ascending(list)
    ensures Elements(list[1..]) == Elements(list) - {list[0]}
  {
    ElementsOfTail(list);
    BelowIsStrict(list[0], list[0]);
  }

  lemma NoElements<T>(list: seq<T>)
    ensures Elements(list) == {} <==> list == []
  {
    if list != [] {
      assert list[0] in Elements(list);
    }
  }

  /** There is only one way to list a set in order. */
  lemma {:induction false} OrderIsUnique(a: seq<string>, b: seq<string>)
    requires Ascending(a) && Ascending(b) && Elements(a) == Elements(b)
    ensures a == b
  {
    NoElements(a);
    NoElements(b);
    if a != [] {
      assert a[0] in Elements(b) && b[0] in Elements(a);
      assert a == [a[0]] + a[1..] && b == [b[0]] + b[1..];
      if a[0] != b[0] {
        assert Below(a[0], b[0]) && Below(b[0], a[0]);
        BelowIsStrict(a[0], b[0]);
        assert false;
      }
      AscendingTail(a);
      AscendingTail(b);
      OrderIsUnique(a[1..], b[1..]);
    }
  }

  method ListInOrder(keys: set<string>) returns (list: seq<string>)
    ensures list == InOrder(keys)
  {
    list := [];
    var rest := keys;
    while rest != {}
      invariant rest <= keys
      invariant Ascending(list) && Elements(list) == keys - rest
      decreases rest
    {
      var x :| x in rest;
      InsertElements(list, x);
      InsertKeepsOrder(list, x);
      list, rest := Insert(list, x), rest - {x};
    }
    InOrderMeans(keys);
    OrderIsUnique(list, InOrder(keys));
  }

}
