/**
 The server's per-sender reassembly store (`AudioProcessor` in
 src/backend/audio.rs): a map from the sender's address to the bytes received
 from it so far and the instant of its last datagram.

 The receiving socket the processor holds is only used by an echo path that the
 program has commented out, so it is not part of the state here. The clock is
 read by the program; here the current instant is a parameter.
 */
module Reassembly {
  import opened Types

  /** Entries idle for this long or longer are evicted (30 seconds). */
  const MaxAge: nat := 30 * NanosPerSecond

  /** `AudioChunk`: the bytes received from one sender and when the last arrived. */
  datatype AudioChunk = AudioChunk(data: seq<byte>, lastUpdate: Instant)

  /** `AudioProcessor`: the store; a map, so at most one entry per sender. */
  datatype AudioProcessor = AudioProcessor(chunks: map<SocketAddr, AudioChunk>)

  /** A datagram as handed to the store: sender, payload, arrival instant. */
  datatype Packet = Packet(from: SocketAddr, data: seq<byte>, at: Instant)

  /** `AudioProcessor::new`: a store with no entries. */
  function New(): (p: AudioProcessor)
    ensures |p.chunks| == 0
  {
    AudioProcessor(map[])
  }

  /** `process_packet`: find or create the sender's entry, append the payload
      and stamp the entry with `now`. It never fails. */
  function ProcessPacket(p: AudioProcessor, addr: SocketAddr, data: seq<byte>, now: Instant)
    : (r: (AudioProcessor, Result<(), IoError>))
    ensures r.1.Ok?
    ensures r.0.chunks.Keys == p.chunks.Keys + {addr}
    ensures addr !in p.chunks ==> r.0.chunks[addr].data == data
    ensures addr in p.chunks ==> r.0.chunks[addr].data == p.chunks[addr].data + data
    ensures r.0.chunks[addr].lastUpdate == now
    ensures forall a :: a in p.chunks && a != addr ==> r.0.chunks[a] == p.chunks[a]
  {
    var previous := if addr in p.chunks then p.chunks[addr].data else [];
    (AudioProcessor(p.chunks[addr := AudioChunk(previous + data, now)]), Ok(()))
  }

  /** Whether an entry is young enough to survive a sweep at `now`. */
  predicate Fresh(c: AudioChunk, now: Instant)
  {
    Elapsed(c.lastUpdate, now) < MaxAge
  }

  /** `cleanup_old_chunks`: keep exactly the entries idle for less than
      `MaxAge`, unchanged, and drop the rest. */
  function CleanupOldChunks(p: AudioProcessor, now: Instant): (r: AudioProcessor)
    ensures forall a :: a in r.chunks <==> a in p.chunks && Fresh(p.chunks[a], now)
    ensures forall a :: a in r.chunks ==> r.chunks[a] == p.chunks[a]
  {
    AudioProcessor(map a | a in p.chunks && Fresh(p.chunks[a], now) :: p.chunks[a])
  }

  /** A sweep never adds or alters an entry: its result is a sub-map of its input. */
  lemma CleanupIsSubset(p: AudioProcessor, now: Instant)
    ensures CleanupOldChunks(p, now).chunks.Keys <= p.chunks.Keys
    ensures |CleanupOldChunks(p, now).chunks| <= |p.chunks|
  {
    var r := CleanupOldChunks(p, now);
    assert r.chunks.Keys <= p.chunks.Keys;
    SubsetCardinality(r.chunks.Keys, p.chunks.Keys);
  }

  /** A subset is no larger than its superset. */
  lemma SubsetCardinality<T>(a: set<T>, b: set<T>)
    requires a <= b
    ensures |a| <= |b|
  {
    assert b == a + (b - a);
  }

  /** Sweeping twice at the same instant is the same as sweeping once. */
  lemma CleanupIdempotent(p: AudioProcessor, now: Instant)
    ensures CleanupOldChunks(CleanupOldChunks(p, now), now) == CleanupOldChunks(p, now)
  {
  }

  /** An entry idle for 30 seconds or more is gone after a sweep. */
  lemma CleanupEvictsStale(p: AudioProcessor, addr: SocketAddr, now: Instant)
    requires addr in p.chunks
    requires p.chunks[addr].lastUpdate + MaxAge <= now
    ensures addr !in CleanupOldChunks(p, now).chunks
  {
  }

  /** The sender of a datagram survives a sweep at the datagram's own instant. */
  lemma ProcessThenCleanupKeepsSender(p: AudioProcessor, addr: SocketAddr, data: seq<byte>, now: Instant)
    ensures addr in CleanupOldChunks(ProcessPacket(p, addr, data, now).0, now).chunks
  {
  }

  /** The store after handling `packets` in arrival order. */
  function ProcessAll(p: AudioProcessor, packets: seq<Packet>): AudioProcessor
    decreases |packets|
  {
    if |packets| == 0 then p
    else
      var last := packets[|packets| - 1];
      ProcessPacket(ProcessAll(p, packets[..|packets| - 1]), last.from, last.data, last.at).0
  }

  /** The payloads that `addr` sent, concatenated in arrival order. */
  function PayloadFrom(packets: seq<Packet>, addr: SocketAddr): seq<byte>
    decreases |packets|
  {
    if |packets| == 0 then []
    else
      var last := packets[|packets| - 1];
      PayloadFrom(packets[..|packets| - 1], addr) + (if last.from == addr then last.data else [])
  }

  /** Whether `addr` sent any of `packets`. */
  predicate SentAny(packets: seq<Packet>, addr: SocketAddr)
  {
    exists i :: 0 <= i < |packets| && packets[i].from == addr
  }

  /** A sender that sent none of the packets has no payload among them. */
  lemma {:induction false} SilentSenderSentNothing(packets: seq<Packet>, addr: SocketAddr)
    requires !SentAny(packets, addr)
    ensures PayloadFrom(packets, addr) == []
    decreases |packets|
  {
    if |packets| > 0 {
      var init := packets[..|packets| - 1];
      assert forall i :: 0 <= i < |init| ==> init[i] == packets[i];
      SilentSenderSentNothing(init, addr);
    }
  }

  /** `addr` sent one of the packets iff it sent one of all but the last, or the last. */
  lemma SentAnySplit(packets: seq<Packet>, addr: SocketAddr)
    requires |packets| > 0
    ensures SentAny(packets, addr)
        <==> SentAny(packets[..|packets| - 1], addr) || packets[|packets| - 1].from == addr
  {
  }

  /** A sender has an entry after a run of packets exactly when it had one
      before or sent one of them. */
  lemma {:induction false} ProcessAllKeys(p: AudioProcessor, packets: seq<Packet>, addr: SocketAddr)
    ensures addr in ProcessAll(p, packets).chunks <==> addr in p.chunks || SentAny(packets, addr)
    decreases |packets|
  {
    if |packets| > 0 {
      ProcessAllKeys(p, packets[..|packets| - 1], addr);
      SentAnySplit(packets, addr);
    }
  }

  /** The bytes held for a sender: whatever it had before, followed by every
      payload it sent since, in arrival order. */
  lemma {:induction false} ProcessAllConcatenates(p: AudioProcessor, packets: seq<Packet>, addr: SocketAddr)
    requires addr in ProcessAll(p, packets).chunks
    ensures ProcessAll(p, packets).chunks[addr].data
            == (if addr in p.chunks then p.chunks[addr].data else []) + PayloadFrom(packets, addr)
    decreases |packets|
  {
    if |packets| > 0 {
      var init := packets[..|packets| - 1];
      var last := packets[|packets| - 1];
      var before := ProcessAll(p, init);
      var after := ProcessPacket(before, last.from, last.data, last.at).0;
      assert ProcessAll(p, packets) == after;
      assert PayloadFrom(packets, addr)
          == PayloadFrom(init, addr) + (if last.from == addr then last.data else []);
      var base := if addr in p.chunks then p.chunks[addr].data else [];
      if addr in before.chunks {
        ProcessAllConcatenates(p, init, addr);
      } else {
        ProcessAllKeys(p, init, addr);
        SilentSenderSentNothing(init, addr);
      }
      if last.from == addr {
        assert base + PayloadFrom(packets, addr) == (base + PayloadFrom(init, addr)) + last.data;
      }
    }
  }

  /** Starting from an empty store, a sender's entry holds exactly the
      concatenation of its payloads, and the store has one entry per distinct sender. */
  lemma ProcessAllFromEmpty(packets: seq<Packet>, addr: SocketAddr)
    ensures addr in ProcessAll(New(), packets).chunks <==> SentAny(packets, addr)
    ensures addr in ProcessAll(New(), packets).chunks ==>
      ProcessAll(New(), packets).chunks[addr].data == PayloadFrom(packets, addr)
  {
    ProcessAllKeys(New(), packets, addr);
    if addr in ProcessAll(New(), packets).chunks {
      ProcessAllConcatenates(New(), packets, addr);
    }
  }

  /** A sender's entry is stamped with the arrival instant of its latest datagram. */
  lemma {:induction false} ProcessAllStampsLatest(p: AudioProcessor, packets: seq<Packet>, i: nat)
    requires i < |packets|
    requires forall j :: i < j < |packets| ==> packets[j].from != packets[i].from
    ensures packets[i].from in ProcessAll(p, packets).chunks
    ensures ProcessAll(p, packets).chunks[packets[i].from].lastUpdate == packets[i].at
    decreases |packets|
  {
    if i < |packets| - 1 {
      var init := packets[..|packets| - 1];
      assert init[i] == packets[i];
      ProcessAllStampsLatest(p, init, i);
    }
  }
}
