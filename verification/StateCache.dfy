/** The on-disk record of which container was given which port: one file for each container. */
module StateCache {

  /** A file that does not parse, lacks a field or holds a negative port is skipped when the cache is read. */
  datatype File = Unusable | Entry(id: string, port: nat)

  /** The name of a container's file: its id without slashes. */
  function Sanitized(id: string): string {
    if id == "" then ""
    else if id[0] == '/' then Sanitized(id[1..])
    else [id[0]] + Sanitized(id[1..])
  }

  /** Names under which no file can be written, because they mean the directory itself or its parent. */
  predicate IsFileName(name: string) {
    name != "" && name != "." && name != ".."
  }

  function Added(files: map<string, File>, id: string, port: nat): map<string, File> {
    if IsFileName(Sanitized(id)) then files[Sanitized(id) := Entry(id, port)] else files
  }

  function Removed(files: map<string, File>, id: string): map<string, File> {
    files - {Sanitized(id)}
  }

  /** What is read from the files in the order in which the directory lists them: the first entry for an id stays. */
  function ReadFrom(files: map<string, File>, listing: seq<string>): map<string, nat>
    requires forall f :: f in listing ==> f in files
  {
    if listing == [] then map[]
    else
      var last, rest := files[listing[|listing| - 1]], ReadFrom(files, listing[..|listing| - 1]);
      if last.Unusable? || last.id in rest then rest else rest[last.id := last.port]
  }

  /** Slashes, and nothing else, are left out of a file name. */
  lemma {:induction false} SanitizedText(id: string)
    ensures '/' !in Sanitized(id)
    ensures '/' !in id ==> Sanitized(id) == id
  {
    if id != "" {
      SanitizedText(id[1..]);
    }
  }

  lemma {:induction false} SanitizedParts(a: string, slash: string, b: string)
    requires slash == "/" || slash == ""
    ensures Sanitized(a + slash + b) == Sanitized(a) + Sanitized(b)
  {
    if a == "" {
      assert a + slash + b == slash + b;
      if slash == "/" {
        assert (slash + b)[1..] == b;
      } else {
        assert slash + b == b;
      }
    } else {
      assert (a + slash + b)[0] == a[0] && (a + slash + b)[1..] == a[1..] + slash + b;
      SanitizedParts(a[1..], slash, b);
    }
  }

  predicate HasEntry(files: map<string, File>, f: string, id: string) {
    f in files && files[f].Entry? && files[f].id == id
  }

  predicate IsFirst(files: map<string, File>, listing: seq<string>, i: nat, id: string) {
    i < |listing| && HasEntry(files, listing[i], id) && forall j :: 0 <= j < i ==> !HasEntry(files, listing[j], id)
  }

  /** Whatever the files hold, an id is read from the first file in the listing that has an entry for it. */
  lemma {:induction false} FirstEntryStays(files: map<string, File>, listing: seq<string>, id: string)
    requires forall f :: f in listing ==> f in files
    ensures id in ReadFrom(files, listing) <==> exists i :: 0 <= i < |listing| && HasEntry(files, listing[i], id)
    ensures forall i: nat :: IsFirst(files, listing, i, id) ==>
              id in ReadFrom(files, listing) && ReadFrom(files, listing)[id] == files[listing[i]].port
  {
    if listing != [] {
      var shorter, n := listing[..|listing| - 1], |listing| - 1;
      assert listing == shorter + [listing[n]];
      assert forall i :: 0 <= i < n ==> shorter[i] == listing[i];
      FirstEntryStays(files, shorter, id);
      assert listing[n] in listing;
      if HasEntry(files, listing[n], id) {
        assert id in ReadFrom(files, listing);
      } else {
        assert id in ReadFrom(files, listing) <==> id in ReadFrom(files, shorter);
      }
      forall i: nat | IsFirst(files, listing, i, id)
        ensures id in ReadFrom(files, listing) && ReadFrom(files, listing)[id] == files[listing[i]].port
      {
        if i < n {
          assert IsFirst(files, shorter, i, id);
        }
      }
    }
  }

  /** Every entry is in the file named after its id, as `Added` leaves it. */
  ghost predicate WellFormed(files: map<string, File>) {
    forall f :: f in files && files[f].Entry? ==> Sanitized(files[f].id) == f && IsFileName(f)
  }

  predicate InFile(files: map<string, File>, id: string) {
    Sanitized(id) in files && files[Sanitized(id)].Entry? && files[Sanitized(id)].id == id
  }

  function Ids(files: map<string, File>): set<string> {
    set f | f in files && files[f].Entry? :: files[f].id
  }

  /** The cache as a map from container to port. */
  function Cached(files: map<string, File>): map<string, nat> {
    map id | id in Ids(files) && InFile(files, id) :: files[Sanitized(id)].port
  }

  lemma CachedAt(files: map<string, File>, id: string)
    ensures id in Cached(files) <==> InFile(files, id)
    ensures id in Cached(files) ==> Cached(files)[id] == files[Sanitized(id)].port
  {
    if InFile(files, id) {
      assert files[Sanitized(id)].id in Ids(files);
    }
  }

  lemma {:induction false} ReadAt(files: map<string, File>, listing: seq<string>, id: string)
    requires WellFormed(files) && forall f :: f in listing ==> f in files
    ensures id in ReadFrom(files, listing) <==> Sanitized(id) in listing && InFile(files, id)
    ensures id in ReadFrom(files, listing) ==> ReadFrom(files, listing)[id] == files[Sanitized(id)].port
  {
    if listing != [] {
      var shorter, f := listing[..|listing| - 1], listing[|listing| - 1];
      assert listing == shorter + [f];
      ReadAt(files, shorter, id);
      assert f in files;
      if files[f].Entry? && files[f].id != id && f == Sanitized(id) {
        assert !InFile(files, id);
      }
    }
  }

  /** However the directory lists its files, reading them gives the same map. */
  lemma ReadingIsOrderless(files: map<string, File>, listing: seq<string>)
    requires WellFormed(files) && forall f :: f in listing <==> f in files
    ensures ReadFrom(files, listing) == Cached(files)
  {
    forall id
      ensures id in ReadFrom(files, listing) <==> id in Cached(files)
      ensures id in Cached(files) ==> ReadFrom(files, listing)[id] == Cached(files)[id]
    {
      ReadAt(files, listing, id);
      CachedAt(files, id);
    }
  }

  /** The entries of `cache` whose file is not the one of `id`. */
  function Spared(cache: map<string, nat>, id: string): map<string, nat> {
    map other | other in cache && Sanitized(other) != Sanitized(id) :: cache[other]
  }

  /** An id of slashes alone, or of these and one or two dots, is never written; any other is, and can be read. */
  lemma AddedOrNot(files: map<string, File>, id: string, port: nat)
    ensures Sanitized(id) == "" || Sanitized(id) == "." || Sanitized(id) == ".." ==> Added(files, id, port) == files
    ensures Sanitized(id) != "" && Sanitized(id) != "." && Sanitized(id) != ".." ==>
              InFile(Added(files, id, port), id) && Cached(Added(files, id, port))[id] == port
  {
    CachedAt(Added(files, id, port), id);
  }

  lemma AddedAt(files: map<string, File>, id: string, port: nat, other: string)
    requires IsFileName(Sanitized(id))
    ensures var after := Added(files, id, port);
            && (other == id ==> InFile(after, other) && after[Sanitized(other)].port == port)
            && (Sanitized(other) == Sanitized(id) && other != id ==> !InFile(after, other))
            && (Sanitized(other) != Sanitized(id) ==>
                  && (InFile(after, other) <==> InFile(files, other))
                  && (InFile(files, other) ==> after[Sanitized(other)] == files[Sanitized(other)]))
  {
  }

  /** Adding a container overwrites the entry of every container that shares its file name, and of no other. */
  lemma AddThenRead(files: map<string, File>, id: string, port: nat)
    requires WellFormed(files)
    ensures WellFormed(Added(files, id, port))
    ensures Cached(Added(files, id, port))
            == if IsFileName(Sanitized(id)) then Spared(Cached(files), id)[id := port] else Cached(files)
  {
    if IsFileName(Sanitized(id)) {
      var after := Added(files, id, port);
      var expected := Spared(Cached(files), id)[id := port];
      forall other
        ensures other in Cached(after) <==> other in expected
        ensures other in Cached(after) ==> Cached(after)[other] == expected[other]
      {
        CachedAt(files, other);
        CachedAt(after, other);
        AddedAt(files, id, port, other);
      }
      SameMap(Cached(after), expected);
    }
  }

  lemma SameMap(a: map<string, nat>, b: map<string, nat>)
    requires forall k :: k in a <==> k in b
    requires forall k :: k in a ==> a[k] == b[k]
    ensures a == b
  {
  }

  lemma RemovedAt(files: map<string, File>, id: string, other: string)
    ensures var after := Removed(files, id);
            && (Sanitized(other) == Sanitized(id) ==> !InFile(after, other))
            && (Sanitized(other) != Sanitized(id) ==>
                  && (InFile(after, other) <==> InFile(files, other))
                  && (InFile(files, other) ==> after[Sanitized(other)] == files[Sanitized(other)]))
  {
  }

  /** Removing a container removes the entry of every container that shares its file name, and of no other. */
  lemma RemoveThenRead(files: map<string, File>, id: string)
    requires WellFormed(files)
    ensures WellFormed(Removed(files, id))
    ensures Cached(Removed(files, id)) == Spared(Cached(files), id)
  {
    var after, expected := Removed(files, id), Spared(Cached(files), id);
    forall other
      ensures other in Cached(after) <==> other in expected
      ensures other in Cached(after) ==> Cached(after)[other] == expected[other]
    {
      CachedAt(files, other);
      CachedAt(after, other);
      RemovedAt(files, id, other);
    }
    SameMap(Cached(after), expected);
  }

  /** Two containers whose ids differ only in slashes share a file: the second is remembered, the first is not. */
  lemma SlashesCollide(first: nat, second: nat)
    ensures Cached(Added(Added(map[], "a/b", first), "ab", second)) == map["ab" := second]
  {
    assert Sanitized("a/b") == "ab" by {
      assert "a/b"[1..][1..] == "b" && "b"[1..] == "";
      assert "a/b"[1..] == "/b";
    }
    assert Sanitized("ab") == "ab" by {
      assert "ab"[1..] == "b" && "b"[1..] == "";
    }
    var none: map<string, File> := map[];
    AddThenRead(none, "a/b", first);
    AddThenRead(Added(none, "a/b", first), "ab", second);
    assert Cached(none) == map[];
  }

  class ContainerStateCacheImpl {
    var files: map<string, File>

    constructor (files: map<string, File>)
      ensures this.files == files
    {
      this.files := files;
    }

    method AddContainer(id: string, port: nat)
      modifies this
      ensures files == Added(old(files), id, port)
    {
      var name := Sanitized(id);
      if IsFileName(name) {
        files := files[name := Entry(id, port)];
      }
    }

    method RemoveContainer(id: string)
      modifies this
      ensures files == Removed(old(files), id)
    {
      files := files - {Sanitized(id)};
    }

    /** `listing`: the names of the files, as the directory lists them. */
    method GetContainers(listing: seq<string>) returns (cache: map<string, nat>)
      requires forall f :: f in listing <==> f in files
      ensures cache == ReadFrom(files, listing)
      ensures WellFormed(files) ==> cache == Cached(files)
    {
      cache := map[];
      var i := 0;
      while i < |listing|
        invariant 0 <= i <= |listing|
        invariant cache == ReadFrom(files, listing[..i])
      {
        assert listing[..i + 1][..i] == listing[..i];
        assert listing[i] in files;
        match files[listing[i]] {
          case Unusable =>
          case Entry(id, port) =>
            if id !in cache {
              cache := cache[id := port];
            }
        }
        i := i + 1;
      }
      assert listing[..|listing|] == listing;
      if WellFormed(files) {
        ReadingIsOrderless(files, listing);
      }
    }
  }

}
