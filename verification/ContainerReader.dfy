/** Receiving packets for the containers behind one UDP port: splitting into lines, attribution, throttling. */
module ContainerReader {
  import opened Wrappers
  import opened Sequences
  import opened Text
  import opened StatsdTagger
  import opened StatsdWriter
  import opened WriterRuns

  // ---- Lines of a packet

  function NonEmpty(pieces: seq<string>): seq<string> {
    if pieces == [] then [] else (if pieces[0] == "" then [] else [pieces[0]]) + NonEmpty(pieces[1..])
  }

  /** A packet without a newline is one entry, even when empty; otherwise the non-empty lines are the entries. */
  function Entries(packet: string): seq<string> {
    if '\n' !in packet then [packet] else NonEmpty(Split(packet, '\n'))
  }

  lemma NonEmptyStep(piece: string, rest: seq<string>)
    ensures NonEmpty([piece] + rest) == (if piece == "" then [] else [piece]) + NonEmpty(rest)
  {
    TailOfCons(piece, rest);
  }

  /** The first line of `data[from..]` ends at `end`; the next one starts at `after`. */
  lemma EntryAdvance(data: string, from: nat, end: nat, after: nat)
    requires from <= end <= |data| && after == end + 1
    requires forall k :: from <= k < end ==> data[k] != '\n'
    requires end < |data| ==> data[end] == '\n'
    ensures NonEmpty(Split(data[from..], '\n')) ==
            (if from == end then [] else [data[from..end]]) +
            if end == |data| then [] else NonEmpty(Split(data[after..], '\n'))
  {
    var n := end - from;
    PieceEnd(data[from..], '\n', n);
    SplitStep(data[from..], '\n');
    DropSlice(data, from, end, n);
    NonEmptyStep(data[from..end], if end == |data| then [] else Split(data[after..], '\n'));
  }

  lemma {:induction false} NonEmptyLines(pieces: seq<string>)
    requires forall p :: p in pieces ==> '\n' !in p
    ensures forall e :: e in NonEmpty(pieces) <==> e in pieces && e != ""
    ensures forall e :: e in NonEmpty(pieces) ==> '\n' !in e
  {
    if pieces != [] {
      NonEmptyLines(pieces[1..]);
      assert pieces == [pieces[0]] + pieces[1..];
    }
  }

  /** The entries of a packet with any bytes are its non-empty lines, in order; none contains a newline. */
  lemma EntriesAreLines(packet: string)
    requires packet != ""
    ensures Entries(packet) == NonEmpty(Split(packet, '\n'))
    ensures forall e :: e in Entries(packet) ==> e != "" && '\n' !in e
  {
    if '\n' !in packet {
      SplitFree(packet, '\n');
      NonEmptyStep(packet, []);
      assert [packet] + [] == [packet];
    }
    SplitPieces(packet, '\n');
    NonEmptyLines(Split(packet, '\n'));
  }

  lemma {:induction false} NonEmptyConcat(a: seq<string>, b: seq<string>)
    ensures NonEmpty(a + b) == NonEmpty(a) + NonEmpty(b)
    decreases |a|
  {
    if a == [] {
      assert a + b == b && [] + NonEmpty(b) == NonEmpty(b);
    } else {
      TailOfConcat(a, b);
      NonEmptyConcat(a[1..], b);
      Concat3(if a[0] == "" then [] else [a[0]], NonEmpty(a[1..]), NonEmpty(b));
    }
  }

  lemma NonEmptyOne(line: string)
    ensures NonEmpty([line]) == if line == "" then [] else [line]
  {
    NonEmptyStep(line, []);
  }

  /** A packet without newlines is one entry; others are read line by line, and empty lines are skipped. */
  lemma {:induction false} EntriesByLine(line: string, newline: string, rest: string)
    requires newline == "\n" && '\n' !in line
    ensures Entries(line) == [line]
    ensures Entries(line + newline + rest) == (if line == "" then [] else [line]) + (if rest == "" then [] else Entries(rest))
  {
    SplitConcat(line, '\n', rest);
    SplitFree(line, '\n');
    assert newline == ['\n'];
    NonEmptyConcat([line], Split(rest, '\n'));
    NonEmptyOne(line);
    if rest == "" {
      SplitFree(rest, '\n');
      NonEmptyOne(rest);
    } else {
      EntriesAreLines(rest);
    }
    assert (line + newline + rest)[|line|] == '\n';
  }

  // ---- Attribution

  /** Data can be attributed only when exactly one container uses the port. */
  ghost function Attributed(registered: map<string, ExecutorInfo>, data: string): Message {
    if |registered| == 1 then
      var id :| id in registered;
      Message(Some(id), Some(registered[id]), data)
    else Message(None, None, data)
  }

  ghost function AttributedAll(registered: map<string, ExecutorInfo>, entries: seq<string>): seq<Message> {
    seq(|entries|, i requires 0 <= i < |entries| => Attributed(registered, entries[i]))
  }

  lemma OnlyKey(registered: map<string, ExecutorInfo>, a: string, b: string)
    requires |registered| == 1 && a in registered && b in registered
    ensures a == b
  {
    assert |registered.Keys| == 1;
    assert |registered.Keys - {a}| == 0;
    assert a != b ==> b in registered.Keys - {a};
  }

  lemma AttributedOne(registered: map<string, ExecutorInfo>, id: string, data: string)
    requires |registered| == 1 && id in registered
    ensures Attributed(registered, data) == Message(Some(id), Some(registered[id]), data)
  {
    var other := Attributed(registered, data).containerId.value;
    OnlyKey(registered, id, other);
  }

  /** A message names the container and its executor if there is exactly one, and nobody otherwise; its data stays. */
  lemma AttributedMeans(registered: map<string, ExecutorInfo>, data: string)
    ensures var m := Attributed(registered, data);
            && m.data == data
            && (|registered| != 1 ==> m.containerId.None? && m.executorInfo.None?)
            && (|registered| == 1 ==>
                  && m.containerId.Some? && registered.Keys == {m.containerId.value}
                  && m.executorInfo == Some(registered[m.containerId.value]))
  {
    if |registered| == 1 {
      var id :| id in registered;
      AttributedOne(registered, id, data);
      forall other | other in registered
        ensures other == id
      {
        OnlyKey(registered, id, other);
      }
    }
  }

  // ---- Throttling

  /** Byte counts since the last reset; `accepted` and `last` (the last accepted size) are what they amount to. */
  datatype Period = Period(received: nat, dropped: nat, accepted: nat, last: nat)

  const FRESH: Period := Period(0, 0, 0, 0)

  predicate Accepts(limit: nat, p: Period) {
    p.received < limit
  }

  function Receive(limit: nat, p: Period, n: nat): Period {
    if Accepts(limit, p) then Period(p.received + n, p.dropped, p.accepted + n, n)
    else Period(p.received + n, p.dropped + n, p.accepted, p.last)
  }

  function ReceiveAll(limit: nat, p: Period, sizes: seq<nat>): Period
    decreases |sizes|
  {
    if sizes == [] then p else ReceiveAll(limit, Receive(limit, p, sizes[0]), sizes[1..])
  }

  predicate Throttled(limit: nat, p: Period) {
    && p.received == p.accepted + p.dropped
    && (p.received < limit ==> p.dropped == 0)
    && (limit == 0 ==> p.accepted == 0)
    && (p.accepted == 0 || p.accepted < limit + p.last)
  }

  /** Every byte received in a period was accepted or dropped, and the limit is overshot by at most one packet. */
  lemma {:induction false} ThrottleBound(limit: nat, p: Period, sizes: seq<nat>)
    requires Throttled(limit, p)
    ensures Throttled(limit, ReceiveAll(limit, p, sizes))
    ensures !Accepts(limit, p) ==> ReceiveAll(limit, p, sizes).accepted == p.accepted
    decreases |sizes|
  {
    if sizes != [] {
      ThrottleBound(limit, Receive(limit, p, sizes[0]), sizes[1..]);
    }
  }

  class ContainerReaderImpl {
    const limitAmountBytes: nat
    const socketBuffer: array<char>
    var registered: map<string, ExecutorInfo>
    var receivedBytes: nat
    var droppedBytes: nat
    ghost var acceptedBytes: nat
    ghost var lastAccepted: nat
    var written: seq<Message> // what was handed to the writers

    ghost predicate Valid()
      reads this
    {
      socketBuffer.Length == UDP_MAX_PACKET_BYTES && Throttled(limitAmountBytes, Current())
    }

    ghost function Current(): Period
      reads this
    {
      Period(receivedBytes, droppedBytes, acceptedBytes, lastAccepted)
    }

    constructor (limitAmountBytes: nat)
      ensures Valid() && fresh(socketBuffer) && this.limitAmountBytes == limitAmountBytes
      ensures Current() == FRESH && registered == map[] && written == []
    {
      this.limitAmountBytes := limitAmountBytes;
      socketBuffer := new char[UDP_MAX_PACKET_BYTES];
      registered, written := map[], [];
      receivedBytes, droppedBytes, acceptedBytes, lastAccepted := 0, 0, 0, 0;
    }

    method RegisterContainer(containerId: string, executorInfo: ExecutorInfo)
      modifies this`registered
      ensures registered == old(registered)[containerId := executorInfo]
    {
      registered := registered[containerId := executorInfo];
    }

    method UnregisterContainer(containerId: string)
      modifies this`registered
      ensures registered == old(registered) - {containerId}
    {
      registered := registered - {containerId};
    }

    method WriteMessage(data: string)
      modifies this`written
      ensures written == old(written) + [Attributed(registered, data)]
    {
      if |registered| == 1 {
        var containerId :| containerId in registered;
        AttributedOne(registered, containerId, data);
        written := written + [Message(Some(containerId), Some(registered[containerId]), data)];
      } else {
        written := written + [Message(None, None, data)];
      }
    }

    /** A datagram of `n` bytes is in the buffer. */
    method RecvCb(error: bool, n: nat)
      requires Valid() && n <= socketBuffer.Length
      modifies this`written, this`receivedBytes, this`droppedBytes, this`acceptedBytes, this`lastAccepted
      ensures Valid()
      ensures error ==> Current() == old(Current()) && written == old(written)
      ensures !error ==> Current() == Receive(limitAmountBytes, old(Current()), n)
      ensures !error ==>
                written == old(written) +
                if Accepts(limitAmountBytes, old(Current())) then AttributedAll(registered, Entries(socketBuffer[..n]))
                else []
    {
      if error {
        return;
      }
      if receivedBytes >= limitAmountBytes {
        droppedBytes := droppedBytes + n;
      } else {
        WriteEntries(socketBuffer[..n]);
        acceptedBytes, lastAccepted := acceptedBytes + n, n;
      }
      receivedBytes := receivedBytes + n;
    }

    /** The newline loop. */
    method WriteEntries(packet: string)
      modifies this`written
      ensures written == old(written) + AttributedAll(registered, Entries(packet))
    {
      var nextNewline := MemChr(packet, 0, |packet|, '\n');
      if nextNewline.None? {
        WriteMessage(packet);
        return;
      }
      ghost var start, done: seq<string> := written, [];
      ghost var goal := NonEmpty(Split(packet, '\n'));
      var startIndex := 0;
      assert packet[0..] == packet;
      while true
        invariant startIndex <= |packet|
        invariant nextNewline.Some? ==> startIndex <= nextNewline.value < |packet| && packet[nextNewline.value] == '\n'
        invariant nextNewline.Some? ==> forall k :: startIndex <= k < nextNewline.value ==> packet[k] != '\n'
        invariant nextNewline.None? ==> forall k :: startIndex <= k < |packet| ==> packet[k] != '\n'
        invariant written == start + AttributedAll(registered, done)
        invariant goal == done + NonEmpty(Split(packet[startIndex..], '\n'))
        decreases |packet| - startIndex
      {
        var newlineOffset := if nextNewline.Some? then nextNewline.value else |packet|;
        var entrySize := newlineOffset - startIndex;
        var next := newlineOffset + 1;
        EntryAdvance(packet, startIndex, newlineOffset, next);
        ghost var entry := if entrySize > 0 then [packet[startIndex..newlineOffset]] else [];
        ghost var rest := if newlineOffset == |packet| then [] else NonEmpty(Split(packet[next..], '\n'));
        Concat3(done, entry, rest);
        if entrySize > 0 {
          WriteMessage(packet[startIndex..newlineOffset]);
          AttributedNext(registered, start, done, packet[startIndex..newlineOffset]);
        } else {
          assert done + entry == done;
        }
        done := done + entry;
        if next >= |packet| {
          NothingLeft(packet, next, done, rest);
          break;
        }
        startIndex := next; // pass over the newline itself
        nextNewline := MemChr(packet, startIndex, |packet| - startIndex, '\n');
      }
      assert '\n' in packet;
      assert goal == done;
    }

    /** The rate-limit timer: reports the throughput of the period, then starts a new one. */
    method LimitResetCb(error: bool, receivedReport: string, droppedReport: string)
      requires Valid()
      modifies this`written, this`receivedBytes, this`droppedBytes, this`acceptedBytes, this`lastAccepted
      ensures Valid()
      ensures error ==> Current() == old(Current()) && written == old(written)
      ensures !error ==>
                && Current() == FRESH
                && written == old(written) + [Attributed(registered, receivedReport)] + [Attributed(registered, droppedReport)]
    {
      if error {
        return;
      }
      WriteMessage(receivedReport);
      WriteMessage(droppedReport);
      receivedBytes, droppedBytes, acceptedBytes, lastAccepted := 0, 0, 0, 0;
    }
  }

  lemma AttributedNext(registered: map<string, ExecutorInfo>, start: seq<Message>, done: seq<string>, entry: string)
    ensures start + AttributedAll(registered, done) + [Attributed(registered, entry)] ==
            start + AttributedAll(registered, done + [entry])
  {
    assert AttributedAll(registered, done + [entry]) == AttributedAll(registered, done) + [Attributed(registered, entry)];
    Concat3(start, AttributedAll(registered, done), [Attributed(registered, entry)]);
  }

  /** A newline that ends the packet opens no further entry. */
  lemma NothingLeft(packet: string, next: nat, done: seq<string>, rest: seq<string>)
    requires next >= |packet|
    requires rest == if next > |packet| then [] else NonEmpty(Split(packet[next..], '\n'))
    ensures done + rest == done
  {
    if next == |packet| {
      assert packet[next..] == "";
      SplitFree("", '\n');
      NonEmptyStep("", []);
      assert [""] + [] == [""];
    }
    assert done + [] == done;
  }

  // ---- From packets in to packets out

  function Arrivals(messages: seq<Message>): seq<Event> {
    seq(|messages|, i requires 0 <= i < |messages| => Arrive(messages[i]))
  }

  predicate RegisteredNewlineFree(registered: map<string, ExecutorInfo>) {
    forall id :: id in registered ==>
      '\n' !in id && '\n' !in registered[id].frameworkId && '\n' !in registered[id].executorId
  }

  /** Whatever bytes a container sends, the entries read meet what the writer needs to conserve them. */
  lemma EntriesAreOneLiners(cfg: Config, registered: map<string, ExecutorInfo>, packet: string)
    requires packet != "" && RegisteredNewlineFree(registered)
    ensures OneLiners(cfg, Arrivals(AttributedAll(registered, Entries(packet))))
  {
    EntriesAreLines(packet);
    var messages := AttributedAll(registered, Entries(packet));
    forall e | e in Arrivals(messages) ensures OneLine(cfg, e.message) {
      var i :| 0 <= i < |messages| && e == Arrive(messages[i]);
      assert messages[i].data == Entries(packet)[i];
      TaggedNewlineFree(cfg.mode, messages[i]);
    }
  }

  /** A packet read and written: its non-empty lines come out tagged, one line each, in order. */
  lemma PacketThroughWriter(cfg: Config, w: Writer, registered: map<string, ExecutorInfo>, packet: string)
    requires packet != "" && RegisteredNewlineFree(registered)
    requires !cfg.chunking ==> w.pending == ""
    ensures var events := Arrivals(AttributedAll(registered, NonEmpty(Split(packet, '\n'))));
            AllLines(Run(cfg, w, events)) == AllLines(w) + TaggedMessages(cfg, events)
  {
    EntriesAreLines(packet);
    EntriesAreOneLiners(cfg, registered, packet);
    Conserves(cfg, w, Arrivals(AttributedAll(registered, Entries(packet))));
  }

}
