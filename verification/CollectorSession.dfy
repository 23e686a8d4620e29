/** The bytes of each TCP session, when what is sent are the blocks of a collector writer. */
module CollectorSession {
  import opened Wrappers
  import opened Sequences
  import opened AvroEncoder
  import Collector = CollectorWriter
  import Tcp = TcpSender

  // ---- Which buffers are accepted

  /** The non-empty buffers passed to the sender. */
  function Offered(events: seq<Tcp.Event>): seq<string> {
    if events == [] then []
    else
      var e := events[0];
      (if e.Send? && e.buf.Some? && e.buf.value != "" then [e.buf.value] else []) + Offered(events[1..])
  }

  /** `places` picks `chosen` out of `all`, in order. */
  ghost predicate Picks(places: seq<nat>, all: seq<string>, chosen: seq<string>) {
    && |places| == |chosen|
    && (forall k :: 0 <= k < |places| ==> places[k] < |all| && all[places[k]] == chosen[k])
    && (forall k, l :: 0 <= k < l < |places| ==> places[k] < places[l])
  }

  lemma PicksMore(places: seq<nat>, all: seq<string>, chosen: seq<string>, buf: string)
    requires Picks(places, all, chosen)
    ensures Picks(places, all + [buf], chosen)
    ensures Picks(places + [|all|], all + [buf], chosen + [buf])
  {
    var more := all + [buf];
    assert forall k :: 0 <= k < |places| ==> more[places[k]] == all[places[k]];
  }

  /** What one event offers, and which of it is accepted. */
  lemma StepAccepts(s: Tcp.Sender, config: Tcp.Config, e: Tcp.Event)
    requires Tcp.Inv(s, config) && Tcp.Enabled(s, e)
    ensures var t := Tcp.Step(s, config, e);
            || t.accepted == s.accepted
            || (e.Send? && e.buf.Some? && e.buf.value != "" && t.accepted == s.accepted + [e.buf.value])
  {
  }

  lemma {:induction false} LeadsPicks(
      s: Tcp.Sender, config: Tcp.Config, events: seq<Tcp.Event>, t: Tcp.Sender, places: seq<nat>, all: seq<string>)
    returns (places': seq<nat>)
    requires Tcp.Inv(s, config) && Tcp.Leads(s, config, events, t) && Picks(places, all, s.accepted)
    ensures Picks(places', all + Offered(events), t.accepted)
    decreases |events|
  {
    places' := places;
    if events == [] {
      assert all + [] == all;
    } else {
      var e, next := events[0], Tcp.Step(s, config, events[0]);
      Tcp.StepKeepsInv(s, config, e);
      StepAccepts(s, config, e);
      if e.Send? && e.buf.Some? && e.buf.value != "" {
        var buf := e.buf.value;
        PicksMore(places, all, s.accepted, buf);
        Concat3(all, [buf], Offered(events[1..]));
        if next.accepted != s.accepted {
          places' := places + [|all|];
        }
        places' := LeadsPicks(next, config, events[1..], t, places', all + [buf]);
      } else {
        assert [] + Offered(events[1..]) == Offered(events[1..]);
        places' := LeadsPicks(next, config, events[1..], t, places, all);
      }
    }
  }

  // ---- Where a session's buffers are among those accepted

  function DataOf(session: Tcp.Session): seq<string> {
    if session.queued == [] then [] else session.queued[1..]
  }

  lemma PayloadNext(sessions: seq<Tcp.Session>, n: nat)
    requires |sessions| == n + 1
    ensures Tcp.Payload(sessions) == Tcp.Payload(sessions[..n]) + DataOf(sessions[n])
  {
  }

  /** What was accepted: on the sessions before, on this one, and on those after. */
  lemma {:induction false} SessionSplit(sessions: seq<Tcp.Session>, k: nat) returns (after: seq<string>)
    requires k < |sessions|
    ensures Tcp.Payload(sessions) == Tcp.Payload(sessions[..k]) + DataOf(sessions[k]) + after
    decreases |sessions|
  {
    var n := |sessions| - 1;
    PayloadNext(sessions, n);
    if k < n {
      var front, last := sessions[..n], DataOf(sessions[n]);
      assert front[..k] == sessions[..k] && front[k] == sessions[k];
      var between := SessionSplit(front, k);
      var before := Tcp.Payload(sessions[..k]) + DataOf(sessions[k]);
      Concat3(before, between, last);
      after := between + last;
    } else {
      after := [];
    }
  }

  lemma MiddlePart<T>(all: seq<T>, a: seq<T>, b: seq<T>, c: seq<T>, from: nat, until: nat)
    requires all == a + b + c && from == |a| && until == from + |b|
    ensures until <= |all| && all[from..until] == b
  {
  }

  // ---- Reading a stream of blocks

  function Flat(buffers: seq<string>): string {
    if buffers == [] then "" else buffers[0] + Flat(buffers[1..])
  }

  /** Reads blocks until `count` are read; the bytes must end there. */
  function ReadBlocks(bytes: string, count: nat, codec: Codec): Option<seq<seq<MetricList>>>
    decreases count
  {
    if count == 0 then (if bytes == "" then Some([]) else None)
    else
      match ReadBlock(bytes, codec)
      case None => None
      case Some((lists, rest)) =>
        match ReadBlocks(rest, count - 1, codec)
        case None => None
        case Some(more) => Some([lists] + more)
  }

  /** Buffers each of which reads back as a block, whatever follows it. */
  ghost predicate ReadAs(buffers: seq<string>, blocks: seq<seq<MetricList>>, codec: Codec) {
    && |buffers| == |blocks|
    && forall k, following :: 0 <= k < |buffers| ==> ReadBlock(buffers[k] + following, codec) == Some((blocks[k], following))
  }

  lemma {:induction false} StreamReadsBack(buffers: seq<string>, blocks: seq<seq<MetricList>>, codec: Codec)
    requires ReadAs(buffers, blocks, codec)
    ensures ReadBlocks(Flat(buffers), |buffers|, codec) == Some(blocks)
  {
    if buffers != [] {
      var rest := Flat(buffers[1..]);
      assert ReadBlock(buffers[0] + rest, codec) == Some((blocks[0], rest));
      assert ReadAs(buffers[1..], blocks[1..], codec) by {
        forall k, following | 0 <= k < |buffers[1..]|
          ensures ReadBlock(buffers[1..][k] + following, codec) == Some((blocks[1..][k], following))
        {
          assert ReadBlock(buffers[k + 1] + following, codec) == Some((blocks[k + 1], following));
        }
      }
      StreamReadsBack(buffers[1..], blocks[1..], codec);
      assert blocks == [blocks[0]] + blocks[1..];
    }
  }

  // ---- The whole

  ghost function BlocksOf(batches: seq<seq<Write>>, config: Collector.Config): seq<seq<MetricList>> {
    seq(|batches|, i requires 0 <= i < |batches| => Block(MapAfter(batches[i], config.stod)))
  }

  /** The blocks at these places, as far as there are any. */
  function BlocksAt(blocks: seq<seq<MetricList>>, places: seq<nat>): seq<seq<MetricList>> {
    seq(|places|, k requires 0 <= k < |places| => if places[k] < |blocks| then blocks[places[k]] else [])
  }

  lemma {:induction false} PickedReadAs(
      codec: Codec, sent: seq<string>, blocks: seq<seq<MetricList>>, places: seq<nat>, buffers: seq<string>)
    requires ReadAs(sent, blocks, codec) && Picks(places, sent, buffers)
    ensures ReadAs(buffers, BlocksAt(blocks, places), codec)
  {
    forall k, following | 0 <= k < |buffers|
      ensures ReadBlock(buffers[k] + following, codec) == Some((BlocksAt(blocks, places)[k], following))
    {
      assert ReadBlock(sent[places[k]] + following, codec) == Some((blocks[places[k]], following));
    }
  }

  lemma PicksPart(places: seq<nat>, all: seq<string>, chosen: seq<string>, from: nat, until: nat)
    requires Picks(places, all, chosen) && from <= until <= |places|
    ensures Picks(places[from..until], all, chosen[from..until])
  {
  }

  ghost predicate AllHeld(blocks: seq<seq<MetricList>>, codec: Codec) {
    forall i :: 0 <= i < |blocks| ==> Holds(blocks[i], codec)
  }

  /** The bytes of a session: the header, and then those of these blocks. */
  ghost predicate Carries(session: Tcp.Session, header: string, blocks: seq<seq<MetricList>>, codec: Codec) {
    && session.queued != [] && session.queued[0] == header
    && Flat(session.queued) == header + Flat(DataOf(session))
    && ReadBlocks(Flat(DataOf(session)), |blocks|, codec) == Some(blocks)
  }

  /** The same for one of a sender's sessions, given where all accepted buffers are among those sent. */
  ghost predicate SessionCarries(
      t: Tcp.Sender, k: nat, header: string, blocks: seq<seq<MetricList>>, places: seq<nat>, codec: Codec)
    requires k < |t.sessions|
  {
    var from := |Tcp.Payload(t.sessions[..k])|;
    var until := from + |DataOf(t.sessions[k])|;
    until <= |places| && Carries(t.sessions[k], header, BlocksAt(blocks, places[from..until]), codec)
  }

  lemma {:induction false} PartCarries(
      session: Tcp.Session, header: string, sent: seq<string>, blocks: seq<seq<MetricList>>, places: seq<nat>,
      codec: Codec)
    requires session.queued != [] && session.queued[0] == header
    requires ReadAs(sent, blocks, codec) && Picks(places, sent, DataOf(session))
    ensures Carries(session, header, BlocksAt(blocks, places), codec)
  {
    PickedReadAs(codec, sent, blocks, places, DataOf(session));
    StreamReadsBack(DataOf(session), BlocksAt(blocks, places), codec);
  }

  lemma {:induction false} MiddlePicks(
      places: seq<nat>, sent: seq<string>, all: seq<string>, a: seq<string>, data: seq<string>, c: seq<string>,
      from: nat, until: nat)
    requires Picks(places, sent, all) && all == a + data + c && from == |a| && until == from + |data|
    ensures until <= |places| && Picks(places[from..until], sent, data)
  {
    MiddlePart(all, a, data, c, from, until);
    PicksPart(places, sent, all, from, until);
  }

  lemma {:induction false} OneSession(
      tcp: Tcp.Config, t: Tcp.Sender, k: nat, sent: seq<string>, blocks: seq<seq<MetricList>>, places: seq<nat>,
      codec: Codec)
    requires Tcp.StreamsOk(t.sessions, t.accepted, tcp) && k < |t.sessions|
    requires ReadAs(sent, blocks, codec) && Picks(places, sent, t.accepted)
    ensures SessionCarries(t, k, tcp.header, blocks, places, codec)
  {
    var before, data := Tcp.Payload(t.sessions[..k]), DataOf(t.sessions[k]);
    var from, until := |before|, |before| + |data|;
    assert Tcp.Framed(t.sessions[k], tcp);
    var after := SessionSplit(t.sessions, k);
    MiddlePicks(places, sent, t.accepted, before, data, after, from, until);
    PartCarries(t.sessions[k], tcp.header, sent, blocks, places[from..until], codec);
  }

  lemma {:induction false} ReachablePicks(tcp: Tcp.Config, events: seq<Tcp.Event>, t: Tcp.Sender)
    returns (places: seq<nat>)
    requires Tcp.Reachable(tcp, events, t)
    ensures Picks(places, Offered(events), t.accepted) && Tcp.StreamsOk(t.sessions, t.accepted, tcp)
  {
    Tcp.InitInv(tcp);
    Tcp.ReachableInv(tcp, events, t);
    places := LeadsPicks(Tcp.Init(), tcp, events, t, [], []);
    assert [] + Offered(events) == Offered(events);
  }

  lemma {:induction false} SentReadAs(config: Collector.Config, writes: seq<Collector.Event>)
    returns (batches: seq<seq<Write>>, pending: seq<Write>)
    requires Decodes(config.codec) && NumbersShow(config.codec)
    ensures Collector.Explains(Collector.Run(config, writes), config, batches, pending)
    ensures Collector.Concat(batches) + pending == Collector.WritesIn(writes)
    ensures var blocks := BlocksOf(batches, config);
            AllHeld(blocks, config.codec) ==> ReadAs(Collector.Run(config, writes).sent, blocks, config.codec)
  {
    batches, pending := Collector.SentReadsBack(config, writes);
    var sent, blocks := Collector.Run(config, writes).sent, BlocksOf(batches, config);
    if AllHeld(blocks, config.codec) {
      forall i, following | 0 <= i < |sent|
        ensures ReadBlock(sent[i] + following, config.codec) == Some((blocks[i], following))
      {
        assert Holds(blocks[i], config.codec);
      }
    }
  }

  /**
   * A writer's run and a sender's run that sends its buffers: on every connection, even with lost ones and late
   * callbacks, the bytes are the header and then blocks that read back, one after the other, as those of some of the
   * writer's batches. `places` says of which: all that were accepted, in the order written, session after session.
   */
  lemma {:induction false} SessionsReadBack(
      config: Collector.Config, writes: seq<Collector.Event>, tcp: Tcp.Config, events: seq<Tcp.Event>, t: Tcp.Sender)
    returns (batches: seq<seq<Write>>, pending: seq<Write>, places: seq<nat>)
    requires Decodes(config.codec) && NumbersShow(config.codec)
    requires Tcp.Reachable(tcp, events, t) && Offered(events) == Collector.Run(config, writes).sent
    ensures Collector.Explains(Collector.Run(config, writes), config, batches, pending)
    ensures Collector.Concat(batches) + pending == Collector.WritesIn(writes)
    ensures Picks(places, Collector.Run(config, writes).sent, t.accepted)
    ensures var blocks := BlocksOf(batches, config);
            AllHeld(blocks, config.codec) ==>
              forall k :: 0 <= k < |t.sessions| ==> SessionCarries(t, k, tcp.header, blocks, places, config.codec)
  {
    batches, pending := SentReadAs(config, writes);
    places := ReachablePicks(tcp, events, t);
    var blocks := BlocksOf(batches, config);
    if AllHeld(blocks, config.codec) {
      forall k | 0 <= k < |t.sessions|
        ensures SessionCarries(t, k, tcp.header, blocks, places, config.codec)
      {
        OneSession(tcp, t, k, Collector.Run(config, writes).sent, blocks, places, config.codec);
      }
    }
  }

}
