/** Tagging statsd messages and packing them into UDP packets. */
module StatsdWriter {
  import opened Wrappers
  import opened Sequences
  import opened Memory
  import opened StatsdTagger

  const UDP_MAX_PACKET_BYTES: nat := 65536

  datatype AnnotationMode = PLAIN | TAG_DATADOG | KEY_PREFIX

  datatype Message = Message(containerId: Option<string>, executorInfo: Option<ExecutorInfo>, data: string)

  function Tagged(mode: AnnotationMode, m: Message): string {
    match mode
    case PLAIN => m.data
    case TAG_DATADOG => DatadogTagged(m.data, OwnerOf(m.containerId, m.executorInfo))
    case KEY_PREFIX => KeyPrefixed(m.data, OwnerOf(m.containerId, m.executorInfo))
  }

  datatype Config = Config(chunking: bool, capacity: nat, mode: AnnotationMode)

  /** A packet handed to the UDP sender: tagged messages, or one message too large to be tagged. */
  datatype Packet = Chunk(bytes: string) | Bypass(bytes: string)

  datatype Writer = Writer(pending: string, sent: seq<Packet>)

  /** The sender ignores empty packets. */
  function Send(sent: seq<Packet>, p: Packet): seq<Packet> {
    if p.bytes == "" then sent else sent + [p]
  }

  predicate Oversize(cfg: Config, m: Message) {
    |Tagged(cfg.mode, m)| > UDP_MAX_PACKET_BYTES
  }

  /** A tagged message that opens a chunk, or fills a packet of its own. */
  function Open(cfg: Config, sent: seq<Packet>, tagged: string): Writer {
    if |tagged| < cfg.capacity then Writer(tagged, sent) else Writer("", Send(sent, Chunk(tagged)))
  }

  function Write(cfg: Config, w: Writer, m: Message): Writer {
    var tagged := Tagged(cfg.mode, m);
    if Oversize(cfg, m) then w.(sent := Send(w.sent, Bypass(m.data)))
    else if !cfg.chunking then w.(sent := Send(w.sent, Chunk(tagged)))
    else if w.pending == "" then Open(cfg, w.sent, tagged)
    else if |w.pending| + 1 + |tagged| < cfg.capacity then w.(pending := w.pending + ['\n'] + tagged)
    else Open(cfg, Send(w.sent, Chunk(w.pending)), tagged)
  }

  function Flush(w: Writer): Writer {
    Writer("", Send(w.sent, Chunk(w.pending)))
  }

  /** The chunk size in use for a configured one. */
  function ChunkSize(requested: nat, default: nat): (size: nat)
    requires 0 < default <= UDP_MAX_PACKET_BYTES
    ensures 0 < size <= UDP_MAX_PACKET_BYTES
    ensures 0 < requested <= UDP_MAX_PACKET_BYTES ==> size == requested
    ensures requested == 0 ==> size == default
    ensures requested > 65536 ==> size == 65536
  {
    if requested == 0 then default
    else if requested > UDP_MAX_PACKET_BYTES then UDP_MAX_PACKET_BYTES
    else requested
  }

  class StatsdOutputWriter {
    const cfg: Config
    const outputBuffer: array<char>
    const tagger: DatadogTagger
    var chunkUsed: nat
    var sent: seq<Packet>

    ghost predicate Valid()
      reads this
    {
      && outputBuffer.Length == UDP_MAX_PACKET_BYTES
      && chunkUsed < cfg.capacity <= UDP_MAX_PACKET_BYTES
      && (!cfg.chunking ==> chunkUsed == 0)
    }

    ghost function View(): Writer
      requires Valid()
      reads this, outputBuffer
    {
      Writer(outputBuffer[..chunkUsed], sent)
    }

    constructor (chunking: bool, requestedChunkSize: nat, defaultChunkSize: nat, mode: AnnotationMode)
      requires 0 < defaultChunkSize <= UDP_MAX_PACKET_BYTES
      ensures Valid() && fresh(outputBuffer) && fresh(tagger)
      ensures cfg == Config(chunking, ChunkSize(requestedChunkSize, defaultChunkSize), mode)
      ensures View() == Writer("", [])
    {
      cfg := Config(chunking, ChunkSize(requestedChunkSize, defaultChunkSize), mode);
      outputBuffer := new char[UDP_MAX_PACKET_BYTES];
      tagger := new DatadogTagger();
      chunkUsed, sent := 0, [];
    }

    method CalculateSize(m: Message) returns (size: nat)
      modifies tagger
      ensures size == |Tagged(cfg.mode, m)|
      ensures cfg.mode == TAG_DATADOG ==> Plan(tagger.tagMode, tagger.tagInsertIndex) == PlanFor(m.data)
    {
      match cfg.mode {
        case PLAIN => size := |m.data|;
        case TAG_DATADOG => size := tagger.CalculateSize(m.containerId, m.executorInfo, m.data);
        case KEY_PREFIX => size := KeyPrefixCalculateSize(m.containerId, m.executorInfo, m.data);
      }
    }

    /** Writes the tagged message at `at`, and not one byte elsewhere. */
    method TagCopy(m: Message, at: nat, ghost tagged: string)
      requires tagged == Tagged(cfg.mode, m) && at + |tagged| <= outputBuffer.Length
      requires cfg.mode == TAG_DATADOG ==> Plan(tagger.tagMode, tagger.tagInsertIndex) == PlanFor(m.data)
      modifies tagger, outputBuffer
      ensures outputBuffer[..] == Patched(old(outputBuffer[..]), at, tagged)
    {
      match cfg.mode {
        case PLAIN =>
          var end := MemCpy(outputBuffer, at, m.data);
        case TAG_DATADOG =>
          tagger.TagCopy(m.containerId, m.executorInfo, m.data, outputBuffer, at);
        case KEY_PREFIX =>
          KeyPrefixTagCopy(m.containerId, m.executorInfo, m.data, outputBuffer, at);
      }
    }

    method SendPacket(packet: Packet)
      modifies this`sent
      ensures sent == Send(old(sent), packet)
    {
      if |packet.bytes| == 0 {
        return;
      }
      sent := sent + [packet];
    }

    /** Tags the message at the start of the buffer; keeps it as a new chunk or sends it at once. */
    method OpenChunk(m: Message, neededSize: nat)
      requires Valid() && cfg.chunking && chunkUsed == 0
      requires neededSize == |Tagged(cfg.mode, m)| <= UDP_MAX_PACKET_BYTES
      requires cfg.mode == TAG_DATADOG ==> Plan(tagger.tagMode, tagger.tagInsertIndex) == PlanFor(m.data)
      modifies this`chunkUsed, this`sent, tagger, outputBuffer
      ensures Valid() && View() == Open(cfg, old(sent), Tagged(cfg.mode, m))
    {
      ghost var before, tagged := outputBuffer[..], Tagged(cfg.mode, m);
      TagCopy(m, 0, tagged);
      PatchedStart(before, tagged, outputBuffer[..], neededSize);
      assert outputBuffer[..neededSize] == tagged by {
        assert outputBuffer[..neededSize] == outputBuffer[..][..neededSize];
      }
      if neededSize < cfg.capacity {
        chunkUsed := neededSize;
      } else {
        SendPacket(Chunk(outputBuffer[..neededSize]));
      }
    }

    method WriteContainerStatsd(m: Message)
      requires Valid()
      modifies this`chunkUsed, this`sent, tagger, outputBuffer
      ensures Valid() && View() == Write(cfg, old(View()), m)
    {
      ghost var before, tagged, pending := outputBuffer[..], Tagged(cfg.mode, m), outputBuffer[..chunkUsed];
      var neededSize := CalculateSize(m);
      if neededSize > UDP_MAX_PACKET_BYTES {
        SendPacket(Bypass(m.data));
        return;
      }
      if !cfg.chunking {
        TagCopy(m, 0, tagged);
        PatchedStart(before, tagged, outputBuffer[..], neededSize);
        assert outputBuffer[..neededSize] == outputBuffer[..][..neededSize];
        SendPacket(Chunk(outputBuffer[..neededSize]));
        return;
      }
      if chunkUsed == 0 {
        OpenChunk(m, neededSize);
        return;
      }
      var left: nat := cfg.capacity - chunkUsed;
      if neededSize + 1 < left {
        AppendToChunk(m, neededSize);
        return;
      }
      SendPacket(Chunk(outputBuffer[..chunkUsed]));
      chunkUsed := 0;
      OpenChunk(m, neededSize);
    }

    method AppendToChunk(m: Message, neededSize: nat)
      requires Valid() && cfg.chunking && chunkUsed > 0
      requires neededSize == |Tagged(cfg.mode, m)| && chunkUsed + 1 + neededSize < cfg.capacity
      requires cfg.mode == TAG_DATADOG ==> Plan(tagger.tagMode, tagger.tagInsertIndex) == PlanFor(m.data)
      modifies this`chunkUsed, tagger, outputBuffer
      ensures Valid() && sent == old(sent)
      ensures View().pending == old(View().pending) + ['\n'] + Tagged(cfg.mode, m)
    {
      ghost var before, tagged, used := outputBuffer[..], Tagged(cfg.mode, m), chunkUsed;
      ghost var line := ['\n'] + tagged;
      chunkUsed := PutChar(outputBuffer, chunkUsed, '\n');
      TagCopy(m, chunkUsed, tagged);
      PatchedTwice(before, used, ['\n'], chunkUsed, tagged, line);
      chunkUsed := chunkUsed + neededSize;
      PatchedEnd(before, used, line, outputBuffer[..], chunkUsed);
      assert outputBuffer[..chunkUsed] == outputBuffer[..][..chunkUsed];
      assert before[..used] == old(outputBuffer[..chunkUsed]);
      Concat3(before[..used], ['\n'], tagged);
    }

    /** The flush timer; on any timer error the callback returns at once. */
    method ChunkFlushCb(error: bool)
      requires Valid()
      modifies this`chunkUsed, this`sent
      ensures Valid() && View() == if error then old(View()) else Flush(old(View()))
    {
      if error {
        return;
      }
      SendPacket(Chunk(outputBuffer[..chunkUsed]));
      chunkUsed := 0;
    }

    method ShutdownCb()
      requires Valid()
      modifies this`chunkUsed, this`sent
      ensures Valid() && View() == Flush(old(View()))
    {
      if cfg.chunking {
        ChunkFlushCb(false);
      }
    }
  }

  lemma PatchedStart(before: string, src: string, now: string, n: nat)
    requires |src| == n <= |before| && now == Patched(before, 0, src)
    ensures now[..n] == src
  {
  }

  lemma PatchedEnd(before: string, at: nat, src: string, now: string, end: nat)
    requires at + |src| == end <= |before| && now == Patched(before, at, src)
    ensures now[..end] == before[..at] + src
  {
  }

}
