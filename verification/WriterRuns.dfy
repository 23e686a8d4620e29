/** Whole runs of the statsd writer: nothing lost, nothing reordered, packets packed densely. */
module WriterRuns {
  import opened Sequences
  import opened Text
  import opened StatsdTagger
  import opened StatsdWriter

  /** A message arrives, or the flush timer fires. */
  datatype Event = Arrive(message: Message) | Timer

  function Step(cfg: Config, w: Writer, e: Event): Writer {
    match e
    case Arrive(m) => Write(cfg, w, m)
    case Timer => Flush(w)
  }

  function Run(cfg: Config, w: Writer, events: seq<Event>): Writer
    decreases |events|
  {
    if events == [] then w else Run(cfg, Step(cfg, w, events[0]), events[1..])
  }

  const EMPTY: Writer := Writer("", [])

  // ---- Conservation and order

  /** The tagged message fits the buffer; this is what decides whether a message is tagged at all. */
  predicate Fits(cfg: Config, m: Message) {
    |Tagged(cfg.mode, m)| <= 65536
  }

  /** One line: a tagged message without a newline and not empty, or an oversize message that is not empty. */
  predicate OneLine(cfg: Config, m: Message) {
    if Fits(cfg, m) then Tagged(cfg.mode, m) != "" && '\n' !in Tagged(cfg.mode, m) else m.data != ""
  }

  predicate OneLiners(cfg: Config, events: seq<Event>) {
    forall e :: e in events && e.Arrive? ==> OneLine(cfg, e.message)
  }

  function Lines(text: string): seq<string> {
    if text == "" then [] else Split(text, '\n')
  }

  /** The lines of the packets sent, oversize messages apart. */
  function SentLines(sent: seq<Packet>): seq<string> {
    if sent == [] then []
    else SentLines(sent[..|sent| - 1]) +
         (if sent[|sent| - 1].Chunk? then Lines(sent[|sent| - 1].bytes) else [])
  }

  /** The oversize messages sent. */
  function Bypassed(sent: seq<Packet>): seq<string> {
    if sent == [] then []
    else Bypassed(sent[..|sent| - 1]) + (if sent[|sent| - 1].Bypass? then [sent[|sent| - 1].bytes] else [])
  }

  /** Every line sent or pending, in order. */
  function AllLines(w: Writer): seq<string> {
    SentLines(w.sent) + Lines(w.pending)
  }

  /** What the events should have put out. */
  function TaggedMessages(cfg: Config, events: seq<Event>): seq<string> {
    if events == [] then []
    else (if events[0].Arrive? && Fits(cfg, events[0].message) then [Tagged(cfg.mode, events[0].message)] else [])
         + TaggedMessages(cfg, events[1..])
  }

  function OversizeMessages(cfg: Config, events: seq<Event>): seq<string> {
    if events == [] then []
    else (if events[0].Arrive? && !Fits(cfg, events[0].message) then [events[0].message.data] else [])
         + OversizeMessages(cfg, events[1..])
  }

  lemma SentOne(sent: seq<Packet>, p: Packet)
    ensures SentLines(Send(sent, p)) == SentLines(sent) + if p.Chunk? then Lines(p.bytes) else []
    ensures Bypassed(Send(sent, p)) == Bypassed(sent) + if p.Bypass? && p.bytes != "" then [p.bytes] else []
  {
    if p.bytes == "" {
      assert SentLines(sent) + [] == SentLines(sent) && Bypassed(sent) + [] == Bypassed(sent);
    } else {
      assert (sent + [p])[..|sent|] == sent;
    }
  }

  lemma FlushKeepsLines(w: Writer)
    ensures AllLines(Flush(w)) == AllLines(w)
    ensures Bypassed(Flush(w).sent) == Bypassed(w.sent)
  {
    SentOne(w.sent, Chunk(w.pending));
    assert SentLines(Flush(w).sent) + [] == SentLines(Flush(w).sent);
    assert Bypassed(w.sent) + [] == Bypassed(w.sent);
  }

  lemma OpenAddsLine(cfg: Config, sent: seq<Packet>, tagged: string)
    requires tagged != "" && '\n' !in tagged
    ensures AllLines(Open(cfg, sent, tagged)) == SentLines(sent) + [tagged]
    ensures Bypassed(Open(cfg, sent, tagged).sent) == Bypassed(sent)
  {
    SplitFree(tagged, '\n');
    SentOne(sent, Chunk(tagged));
    assert SentLines(sent) + [tagged] + [] == SentLines(sent) + [tagged];
    assert Bypassed(sent) + [] == Bypassed(sent);
  }

  lemma AppendAddsLine(w: Writer, tagged: string)
    requires w.pending != "" && tagged != "" && '\n' !in tagged
    ensures AllLines(w.(pending := w.pending + ['\n'] + tagged)) == AllLines(w) + [tagged]
  {
    SplitConcat(w.pending, '\n', tagged);
    SplitFree(tagged, '\n');
    Concat3(SentLines(w.sent), Split(w.pending, '\n'), [tagged]);
  }

  lemma BypassAddsPacket(cfg: Config, w: Writer, m: Message)
    requires OneLine(cfg, m) && !Fits(cfg, m)
    ensures AllLines(Write(cfg, w, m)) == AllLines(w)
    ensures Bypassed(Write(cfg, w, m).sent) == Bypassed(w.sent) + [m.data]
  {
    SentOne(w.sent, Bypass(m.data));
    assert SentLines(w.sent) + [] == SentLines(w.sent);
  }

  /**
   * For every interleaving of messages and timer flushes: splitting all packets sent, and what is pending, gives
   * exactly the tagged messages in the order written, and the oversize messages went out untagged, in order.
   */
  lemma {:induction false} Conserves(cfg: Config, w: Writer, events: seq<Event>)
    requires OneLiners(cfg, events)
    requires !cfg.chunking ==> w.pending == ""
    ensures AllLines(Run(cfg, w, events)) == AllLines(w) + TaggedMessages(cfg, events)
    ensures Bypassed(Run(cfg, w, events).sent) == Bypassed(w.sent) + OversizeMessages(cfg, events)
    decreases |events|
  {
    if events == [] {
      assert AllLines(w) + [] == AllLines(w) && Bypassed(w.sent) + [] == Bypassed(w.sent);
    } else {
      var e, rest := events[0], events[1..];
      var next := Step(cfg, w, e);
      var line := if e.Arrive? && Fits(cfg, e.message) then [Tagged(cfg.mode, e.message)] else [];
      var raw := if e.Arrive? && !Fits(cfg, e.message) then [e.message.data] else [];
      StepAdds(cfg, w, e, next, line, raw);
      assert OneLiners(cfg, rest);
      Conserves(cfg, next, rest);
      Concat3(AllLines(w), line, TaggedMessages(cfg, rest));
      Concat3(Bypassed(w.sent), raw, OversizeMessages(cfg, rest));
    }
  }

  lemma StepAdds(cfg: Config, w: Writer, e: Event, next: Writer, line: seq<string>, raw: seq<string>)
    requires e.Arrive? ==> OneLine(cfg, e.message)
    requires !cfg.chunking ==> w.pending == ""
    requires next == Step(cfg, w, e)
    requires line == if e.Arrive? && Fits(cfg, e.message) then [Tagged(cfg.mode, e.message)] else []
    requires raw == if e.Arrive? && !Fits(cfg, e.message) then [e.message.data] else []
    ensures AllLines(next) == AllLines(w) + line
    ensures Bypassed(next.sent) == Bypassed(w.sent) + raw
    ensures !cfg.chunking ==> next.pending == ""
  {
    assert AllLines(w) + [] == AllLines(w) && Bypassed(w.sent) + [] == Bypassed(w.sent);
    match e
    case Timer => FlushKeepsLines(w);
    case Arrive(m) =>
      if !Fits(cfg, m) {
        BypassAddsPacket(cfg, w, m);
      } else {
        var tagged := Tagged(cfg.mode, m);
        FlushKeepsLines(w);
        assert SentLines(Flush(w).sent) + [] == SentLines(Flush(w).sent);
        assert SentLines(w.sent) + [] == SentLines(w.sent);
        if !cfg.chunking {
          OpenAddsLine(cfg.(capacity := 0), w.sent, tagged);
        } else if w.pending == "" {
          OpenAddsLine(cfg, w.sent, tagged);
        } else if |w.pending| + 1 + |tagged| < cfg.capacity {
          AppendAddsLine(w, tagged);
        } else {
          OpenAddsLine(cfg, Send(w.sent, Chunk(w.pending)), tagged);
        }
      }
  }

  /** One message: tagged and put behind all lines if it fits; untagged, and right behind what was sent, if not. */
  lemma WriteMeans(cfg: Config, w: Writer, m: Message, tagged: string)
    requires tagged == Tagged(cfg.mode, m)
    requires !cfg.chunking ==> w.pending == ""
    ensures |tagged| <= 65536 && tagged != "" && '\n' !in tagged ==>
              && AllLines(Write(cfg, w, m)) == AllLines(w) + [tagged]
              && Bypassed(Write(cfg, w, m).sent) == Bypassed(w.sent)
    ensures |tagged| > 65536 && m.data != "" ==> Write(cfg, w, m) == w.(sent := w.sent + [Bypass(m.data)])
  {
    if |tagged| <= 65536 && tagged != "" && '\n' !in tagged {
      StepAdds(cfg, w, Arrive(m), Write(cfg, w, m), [tagged], []);
      assert Bypassed(w.sent) + [] == Bypassed(w.sent);
    }
  }

  /** The timer leaves nothing pending, and what was pending goes out as one packet. */
  lemma TimerMeans(cfg: Config, w: Writer)
    ensures var t := Step(cfg, w, Timer);
            && t.pending == "" && AllLines(t) == AllLines(w) && Bypassed(t.sent) == Bypassed(w.sent)
            && t.sent == if w.pending == "" then w.sent else w.sent + [Chunk(w.pending)]
  {
    FlushKeepsLines(w);
  }

  /** From the start, after a final flush nothing is pending and every line is out: chunking changes no line. */
  lemma ChunkingRefinesPlainSending(cfg: Config, events: seq<Event>)
    requires OneLiners(cfg, events)
    ensures var chunked := Flush(Run(cfg.(chunking := true), EMPTY, events));
            var plain := Run(cfg.(chunking := false), EMPTY, events);
            && SentLines(chunked.sent) == SentLines(plain.sent) == TaggedMessages(cfg, events)
            && Bypassed(chunked.sent) == Bypassed(plain.sent) == OversizeMessages(cfg, events)
  {
    var on, off := cfg.(chunking := true), cfg.(chunking := false);
    SameMessages(cfg, on, events);
    SameMessages(cfg, off, events);
    Conserves(on, EMPTY, events);
    Conserves(off, EMPTY, events);
    FlushKeepsLines(Run(on, EMPTY, events));
    UnchunkedNeverPending(off, EMPTY, events);
    var chunked, plain := Flush(Run(on, EMPTY, events)), Run(off, EMPTY, events);
    assert SentLines(chunked.sent) + [] == SentLines(chunked.sent);
    assert SentLines(plain.sent) + [] == SentLines(plain.sent);
  }

  lemma {:induction false} SameMessages(cfg: Config, other: Config, events: seq<Event>)
    requires other.mode == cfg.mode && OneLiners(cfg, events)
    ensures OneLiners(other, events)
    ensures TaggedMessages(other, events) == TaggedMessages(cfg, events)
    ensures OversizeMessages(other, events) == OversizeMessages(cfg, events)
  {
    if events != [] {
      assert OneLiners(cfg, events[1..]);
      SameMessages(cfg, other, events[1..]);
    }
  }

  lemma {:induction false} UnchunkedNeverPending(cfg: Config, w: Writer, events: seq<Event>)
    requires !cfg.chunking && w.pending == ""
    ensures Run(cfg, w, events).pending == ""
    decreases |events|
  {
    if events != [] {
      UnchunkedNeverPending(cfg, Step(cfg, w, events[0]), events[1..]);
    }
  }

  lemma {:induction false} RunConcat(cfg: Config, w: Writer, a: seq<Event>, b: seq<Event>)
    ensures Run(cfg, w, a + b) == Run(cfg, Run(cfg, w, a), b)
    decreases |a|
  {
    if a == [] {
      assert [] + b == b;
    } else {
      TailOfConcat(a, b);
      RunConcat(cfg, Step(cfg, w, a[0]), a[1..], b);
    }
  }

  /** What was sent stays sent, and in its place. */
  lemma {:induction false} SentStays(cfg: Config, w: Writer, events: seq<Event>)
    ensures w.sent <= Run(cfg, w, events).sent
    decreases |events|
  {
    if events != [] {
      SentStays(cfg, Step(cfg, w, events[0]), events[1..]);
    }
  }

  lemma {:induction false} SentLinesConcat(a: seq<Packet>, b: seq<Packet>)
    ensures SentLines(a + b) == SentLines(a) + SentLines(b)
    decreases |b|
  {
    if b == [] {
      assert a + b == a && SentLines(a) + [] == SentLines(a);
    } else {
      var before, last := b[..|b| - 1], b[|b| - 1];
      var line := if last.Chunk? then Lines(last.bytes) else [];
      assert (a + b)[..|a + b| - 1] == a + before;
      SentLinesConcat(a, before);
      Concat3(SentLines(a), SentLines(before), line);
    }
  }

  lemma {:induction false} PendingFits(cfg: Config, w: Writer, events: seq<Event>)
    requires |w.pending| < cfg.capacity
    ensures |Run(cfg, w, events).pending| < cfg.capacity
    decreases |events|
  {
    if events != [] {
      PendingFits(cfg, Step(cfg, w, events[0]), events[1..]);
    }
  }

  lemma {:induction false} LinesBefore(cfg: Config, before: seq<Event>, w: Writer)
    requires OneLiners(cfg, before) && cfg.capacity > 0 && w == Run(cfg, EMPTY, before)
    ensures AllLines(w) == TaggedMessages(cfg, before)
    ensures |w.pending| < cfg.capacity && (!cfg.chunking ==> w.pending == "")
  {
    Conserves(cfg, EMPTY, before);
    UnchunkedNeverPendingAfter(cfg, before);
    PendingFits(cfg, EMPTY, before);
    assert AllLines(EMPTY) == [];
    assert [] + TaggedMessages(cfg, before) == TaggedMessages(cfg, before);
  }

  lemma PrefixParts<T>(a: seq<T>, x: T, front: seq<T>, all: seq<T>, n: nat)
    requires front == a + [x] && front <= all && n == |a| + 1
    ensures |a| < |all| && all[|a|] == x && all[..|a|] == a && all == front + all[n..]
  {
    assert all[..n] == front;
  }

  /** An oversize message takes the next place in what is sent, and nothing else changes. */
  lemma {:induction false} BypassPlace(cfg: Config, w: Writer, m: Message, passed: Writer, sent: seq<Packet>)
    requires OneLine(cfg, m) && !Fits(cfg, m) && passed == Write(cfg, w, m) && passed.sent <= sent
    ensures |w.sent| < |sent| && sent[|w.sent|] == Bypass(m.data) && sent[..|w.sent|] == w.sent
    ensures sent == passed.sent + sent[|w.sent| + 1..]
    ensures passed.pending == w.pending && SentLines(passed.sent) == SentLines(w.sent)
  {
    assert passed.sent == w.sent + [Bypass(m.data)];
    PrefixParts(w.sent, Bypass(m.data), passed.sent, sent, |w.sent| + 1);
    SentOne(w.sent, Bypass(m.data));
    assert SentLines(w.sent) + [] == SentLines(w.sent);
  }

  /** What goes out after `passed`, sent or pending, is what was pending and then the new messages. */
  lemma {:induction false} LinesAfter(cfg: Config, passed: Writer, after: seq<Event>, t: Writer, rest: seq<Packet>)
    requires OneLiners(cfg, after) && (!cfg.chunking ==> passed.pending == "")
    requires t == Run(cfg, passed, after) && t.sent == passed.sent + rest
    ensures SentLines(rest) + Lines(t.pending) == Lines(passed.pending) + TaggedMessages(cfg, after)
  {
    var lines, restLines, left := SentLines(passed.sent), SentLines(rest), Lines(t.pending);
    var pending, messages := Lines(passed.pending), TaggedMessages(cfg, after);
    Conserves(cfg, passed, after);
    SentLinesConcat(passed.sent, rest);
    Concat3(lines, restLines, left);
    Concat3(lines, pending, messages);
    SameRest(lines, restLines + left, pending + messages);
  }

  lemma {:induction false} RunWithOne(
      cfg: Config, before: seq<Event>, m: Message, after: seq<Event>, w: Writer, passed: Writer)
    requires w == Run(cfg, EMPTY, before) && passed == Write(cfg, w, m)
    ensures Run(cfg, EMPTY, before + [Arrive(m)] + after) == Run(cfg, passed, after)
  {
    RunConcat(cfg, EMPTY, before + [Arrive(m)], after);
    RunConcat(cfg, EMPTY, before, [Arrive(m)]);
    PassedIsRun(cfg, w, m);
  }

  /**
   * Where an oversize message ends up among all that is sent in a run. Of the messages before it, those still pending
   * when it came, less than a chunk of them, go out after it, and all others before it; the messages after it go out
   * after those, unless they are oversize themselves.
   */
  lemma {:induction false} BypassOvertakes(cfg: Config, before: seq<Event>, m: Message, after: seq<Event>)
    requires OneLiners(cfg, before) && OneLiners(cfg, after) && OneLine(cfg, m) && !Fits(cfg, m)
    requires cfg.capacity > 0
    ensures var w, t := Run(cfg, EMPTY, before), Run(cfg, EMPTY, before + [Arrive(m)] + after);
            var at, overtaken := |w.sent|, Lines(w.pending);
            && at < |t.sent| && t.sent[at] == Bypass(m.data)
            && SentLines(t.sent[..at]) + overtaken == TaggedMessages(cfg, before)
            && SentLines(t.sent[at + 1..]) + Lines(t.pending) == overtaken + TaggedMessages(cfg, after)
            && |w.pending| < cfg.capacity
  {
    var w := Run(cfg, EMPTY, before);
    var passed := Write(cfg, w, m);
    var t := Run(cfg, passed, after);
    RunWithOne(cfg, before, m, after, w, passed);
    LinesBefore(cfg, before, w);
    SentStays(cfg, passed, after);
    BypassPlace(cfg, w, m, passed, t.sent);
    LinesAfter(cfg, passed, after, t, t.sent[|w.sent| + 1..]);
  }

  lemma PassedIsRun(cfg: Config, w: Writer, m: Message)
    ensures Run(cfg, w, [Arrive(m)]) == Write(cfg, w, m)
  {
    assert [Arrive(m)][1..] == [];
  }

  lemma UnchunkedNeverPendingAfter(cfg: Config, events: seq<Event>)
    ensures !cfg.chunking ==> Run(cfg, EMPTY, events).pending == ""
  {
    if !cfg.chunking {
      UnchunkedNeverPending(cfg, EMPTY, events);
    }
  }

  /** Tags add no newline, so newline-free input and ids give one line. */
  lemma TaggedNewlineFree(mode: AnnotationMode, m: Message)
    requires '\n' !in m.data
    requires m.containerId.Some? ==> '\n' !in m.containerId.value
    requires m.executorInfo.Some? ==>
               '\n' !in m.executorInfo.value.frameworkId && '\n' !in m.executorInfo.value.executorId
    ensures '\n' !in Tagged(mode, m)
    ensures m.data != "" ==> Tagged(mode, m) != ""
  {
    match mode
    case PLAIN =>
    case TAG_DATADOG => DatadogNewlineFree(m.data, OwnerOf(m.containerId, m.executorInfo));
    case KEY_PREFIX => KeyPrefixNewlineFree(m.data, OwnerOf(m.containerId, m.executorInfo));
  }

  predicate OwnerNewlineFree(owner: Owner) {
    owner.Known? ==> '\n' !in owner.containerId && '\n' !in owner.frameworkId && '\n' !in owner.executorId
  }

  lemma TagTextNewlineFree(owner: Owner)
    requires OwnerNewlineFree(owner)
    ensures '\n' !in TagText(owner) && TagText(owner) != ""
  {
    TagTextWithout(owner, '\n');
  }

  lemma DatadogNewlineFree(data: string, owner: Owner)
    requires '\n' !in data && OwnerNewlineFree(owner)
    ensures '\n' !in DatadogTagged(data, owner) && DatadogTagged(data, owner) != ""
  {
    TagTextNewlineFree(owner);
    var p := PlanFor(data);
    assert '\n' !in Delimiter(p.mode);
    assert '\n' !in data[..p.insertIndex] && '\n' !in data[p.insertIndex..];
  }

  lemma KeyPrefixNewlineFree(data: string, owner: Owner)
    requires '\n' !in data && OwnerNewlineFree(owner)
    ensures '\n' !in KeyPrefixed(data, owner) && KeyPrefixed(data, owner) != ""
  {
    match owner
    case Unknown =>
    case Known(containerId, frameworkId, executorId) =>
      PrefixedNewlineFree(containerId, data);
      PrefixedNewlineFree(executorId, Prefixed(containerId, data));
      PrefixedNewlineFree(frameworkId, Prefixed(executorId, Prefixed(containerId, data)));
  }

  lemma PrefixedNewlineFree(id: string, rest: string)
    requires '\n' !in id && '\n' !in rest
    ensures '\n' !in Prefixed(id, rest) && Prefixed(id, rest) != ""
  {
  }

  // ---- Packing

  /** The packets of tagged messages, the pending one last. */
  function Packets(w: Writer): seq<string> {
    ChunksOf(w.sent) + if w.pending == "" then [] else [w.pending]
  }

  function ChunksOf(sent: seq<Packet>): seq<string> {
    if sent == [] then []
    else ChunksOf(sent[..|sent| - 1]) + (if sent[|sent| - 1].Chunk? then [sent[|sent| - 1].bytes] else [])
  }

  lemma ChunksOne(sent: seq<Packet>, p: Packet)
    ensures ChunksOf(Send(sent, p)) == ChunksOf(sent) + if p.Chunk? && p.bytes != "" then [p.bytes] else []
  {
    if p.bytes == "" {
      assert ChunksOf(sent) + [] == ChunksOf(sent);
    } else {
      assert (sent + [p])[..|sent|] == sent;
    }
  }

  /** Any two packets in a row, with the newline that would have joined them, fill the capacity. */
  predicate Dense(capacity: nat, packets: seq<string>) {
    forall i :: 0 <= i < |packets| - 1 ==> |packets[i]| + 1 + |packets[i + 1]| >= capacity
  }

  /** What holds between flushes: dense packets, none empty, and no room left in a last packet already sent. */
  predicate Packed(cfg: Config, since: nat, w: Writer) {
    && |w.pending| < cfg.capacity
    && since <= |Packets(w)|
    && Dense(cfg.capacity, Packets(w)[since..])
    && (w.pending == "" && since < |Packets(w)| ==> |Packets(w)[|Packets(w)| - 1]| >= cfg.capacity)
    && (forall i :: since <= i < |Packets(w)| ==> Packets(w)[i] != "")
  }

  lemma AppendedDense(capacity: nat, packets: seq<string>, since: nat, p: string)
    requires since <= |packets| && Dense(capacity, packets[since..])
    requires since < |packets| ==> |packets[|packets| - 1]| + 1 + |p| >= capacity
    ensures Dense(capacity, (packets + [p])[since..])
  {
    var old', new' := packets[since..], (packets + [p])[since..];
    assert new' == old' + [p];
    forall i | 0 <= i < |new'| - 1 ensures |new'[i]| + 1 + |new'[i + 1]| >= capacity {
      if i + 1 < |old'| {
        assert new'[i] == old'[i] && new'[i + 1] == old'[i + 1];
      }
    }
  }

  lemma GrownDense(capacity: nat, packets: seq<string>, since: nat, q: string)
    requires since <= |packets| && packets != [] && Dense(capacity, packets[since..])
    requires |q| >= |packets[|packets| - 1]|
    ensures var grown := packets[..|packets| - 1] + [q];
            Dense(capacity, grown[since..])
  {
    var grown := packets[..|packets| - 1] + [q];
    forall i | 0 <= i < |grown[since..]| - 1 ensures |grown[since..][i]| + 1 + |grown[since..][i + 1]| >= capacity {
      assert |packets[since..][i]| + 1 + |packets[since..][i + 1]| >= capacity;
    }
  }

  lemma OpenPacked(cfg: Config, w: Writer, since: nat, tagged: string)
    requires w.pending == "" && tagged != ""
    requires since <= |Packets(w)| && Dense(cfg.capacity, Packets(w)[since..])
    requires since < |Packets(w)| ==> |Packets(w)[|Packets(w)| - 1]| + 1 + |tagged| >= cfg.capacity
    requires forall i :: since <= i < |Packets(w)| ==> Packets(w)[i] != ""
    requires cfg.capacity > 0
    ensures Packed(cfg, since, Open(cfg, w.sent, tagged))
    ensures Packets(Open(cfg, w.sent, tagged)) == Packets(w) + [tagged]
  {
    ChunksOne(w.sent, Chunk(tagged));
    assert Packets(w) == ChunksOf(w.sent);
    assert ChunksOf(w.sent) + [tagged] + [] == ChunksOf(w.sent) + [tagged];
    AppendedDense(cfg.capacity, Packets(w), since, tagged);
  }

  /** Sending the pending chunk changes no packet. */
  lemma FlushKeepsPackets(w: Writer)
    ensures Packets(Flush(w)) == Packets(w)
  {
    ChunksOne(w.sent, Chunk(w.pending));
    assert ChunksOf(Flush(w).sent) + [] == ChunksOf(Flush(w).sent);
  }

  lemma WritePacked(cfg: Config, w: Writer, since: nat, m: Message)
    requires cfg.chunking && cfg.capacity > 0 && Packed(cfg, since, w)
    requires !Fits(cfg, m) || Tagged(cfg.mode, m) != ""
    ensures Packed(cfg, since, Write(cfg, w, m))
  {
    var tagged, ps := Tagged(cfg.mode, m), Packets(w);
    if !Fits(cfg, m) {
      ChunksOne(w.sent, Bypass(m.data));
      assert ChunksOf(w.sent) + [] == ChunksOf(w.sent);
    } else if w.pending == "" {
      OpenPacked(cfg, w, since, tagged);
    } else if |w.pending| + 1 + |tagged| < cfg.capacity {
      var grown := w.pending + ['\n'] + tagged;
      assert ps[..|ps| - 1] == ChunksOf(w.sent);
      if since < |ps| {
        GrownDense(cfg.capacity, ps, since, grown);
      }
    } else {
      FlushKeepsPackets(w);
      OpenPacked(cfg, Flush(w), since, tagged);
    }
  }

  /**
   * Between two flushes, any two consecutive packets p and q satisfy |p| + 1 + |q| >= capacity: the greedy packing
   * never sends two packets that would have fitted one.
   */
  lemma {:induction false} GreedyPacking(cfg: Config, w: Writer, since: nat, messages: seq<Message>)
    requires cfg.chunking && cfg.capacity > 0
    requires Packed(cfg, since, w)
    requires forall m :: m in messages ==> !Fits(cfg, m) || Tagged(cfg.mode, m) != ""
    ensures Packed(cfg, since, WriteAll(cfg, w, messages))
    decreases |messages|
  {
    if messages != [] {
      WritePacked(cfg, w, since, messages[0]);
      GreedyPacking(cfg, Write(cfg, w, messages[0]), since, messages[1..]);
    }
  }

  function WriteAll(cfg: Config, w: Writer, messages: seq<Message>): Writer
    decreases |messages|
  {
    if messages == [] then w else WriteAll(cfg, Write(cfg, w, messages[0]), messages[1..])
  }

  function TotalBytes(packets: seq<string>): nat {
    if packets == [] then 0 else |packets[0]| + TotalBytes(packets[1..])
  }

  /** n dense packets of T bytes in all: floor(n / 2) * (capacity - 1) <= T. */
  lemma {:induction false} DensePacketsCount(capacity: nat, packets: seq<string>)
    requires capacity > 0 && Dense(capacity, packets)
    ensures |packets| / 2 * (capacity - 1) <= TotalBytes(packets)
    decreases |packets|
  {
    if |packets| >= 2 {
      var rest := packets[2..];
      assert packets[1..][1..] == rest;
      assert Dense(capacity, rest) by {
        forall i | 0 <= i < |rest| - 1 ensures |rest[i]| + 1 + |rest[i + 1]| >= capacity {
          assert |packets[i + 2]| + 1 + |packets[i + 2 + 1]| >= capacity;
        }
      }
      DensePacketsCount(capacity, rest);
      assert |packets[0]| + 1 + |packets[0 + 1]| >= capacity;
      assert |packets| / 2 == |rest| / 2 + 1;
      assert (|rest| / 2 + 1) * (capacity - 1) == |rest| / 2 * (capacity - 1) + (capacity - 1);
    }
  }

  lemma {:induction false} FlushedPacked(cfg: Config, w: Writer)
    requires cfg.capacity > 0
    ensures Packed(cfg, |Packets(w)|, Flush(w)) && Packets(Flush(w)) == Packets(w)
  {
    FlushKeepsPackets(w);
    assert Packets(Flush(w))[|Packets(w)|..] == [];
  }

  lemma {:induction false} PackedCount(cfg: Config, since: nat, w: Writer, packets: seq<string>)
    requires cfg.capacity > 0 && Packed(cfg, since, w) && packets == Packets(w)[since..]
    ensures Dense(cfg.capacity, packets) && |packets| == |Packets(w)| - since
    ensures |packets| / 2 * (cfg.capacity - 1) <= TotalBytes(packets)
  {
    DensePacketsCount(cfg.capacity, packets);
  }

  /** The packets written since a flush, counted. */
  lemma {:induction false} PacketsBetweenFlushes(cfg: Config, w: Writer, messages: seq<Message>)
    requires cfg.chunking && cfg.capacity > 0
    requires forall m :: m in messages ==> !Fits(cfg, m) || Tagged(cfg.mode, m) != ""
    ensures var since := |Packets(w)|;
            var after := Packets(WriteAll(cfg, Flush(w), messages));
            && since <= |after|
            && var packets := after[since..];
               && Dense(cfg.capacity, packets)
               && |packets| / 2 * (cfg.capacity - 1) <= TotalBytes(packets)
  {
    var since, t := |Packets(w)|, WriteAll(cfg, Flush(w), messages);
    FlushedPacked(cfg, w);
    GreedyPacking(cfg, Flush(w), since, messages);
    PackedCount(cfg, since, t, Packets(t)[since..]);
  }

  // ---- Packet sizes

  /** Every chunk fits a UDP packet, and one that reaches the capacity carries a single message. */
  predicate WellSized(cfg: Config, w: Writer) {
    && |w.pending| < cfg.capacity
    && forall p :: p in w.sent && p.Chunk? ==>
         |p.bytes| <= 65536 && (|p.bytes| >= cfg.capacity ==> Split(p.bytes, '\n') == [p.bytes])
  }

  lemma StepWellSized(cfg: Config, w: Writer, e: Event)
    requires 0 < cfg.capacity <= 65536 && WellSized(cfg, w)
    requires e.Arrive? ==> OneLine(cfg, e.message)
    ensures WellSized(cfg, Step(cfg, w, e))
  {
    if e.Arrive? && Fits(cfg, e.message) {
      SplitFree(Tagged(cfg.mode, e.message), '\n');
    }
  }

  lemma {:induction false} PacketSizes(cfg: Config, w: Writer, events: seq<Event>)
    requires 0 < cfg.capacity <= 65536 && WellSized(cfg, w)
    requires OneLiners(cfg, events)
    ensures WellSized(cfg, Run(cfg, w, events))
    decreases |events|
  {
    if events != [] {
      StepWellSized(cfg, w, events[0]);
      assert OneLiners(cfg, events[1..]);
      PacketSizes(cfg, Step(cfg, w, events[0]), events[1..]);
    }
  }

}
