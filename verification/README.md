# talk-to-me audio core, modelled in Dafny

This project models the four pieces of the voice-chat program that carry
logic of their own. Each one becomes pure functions over immutable data. The
clock, the sockets, the audio hardware and the Opus encoder are parameters:
the model receives the instant or the outcome each call reported.

- **Reassembly store** (`reassembly.dfy`, module `Reassembly`). This is the
  server's `AudioProcessor`: a map from a sender's address to an `AudioChunk`.
  A chunk holds the bytes received so far and the instant of the last
  datagram. A datagram appends its bytes to its sender's entry. A sweep evicts
  every entry that has been idle for 30 seconds or more.
- **Fragmenter** (`fragmenter.dfy`, module `Fragmenter`). This is the client's
  `AudioConnection`. It cuts a buffer into pieces of at most 1200 bytes, the
  way `chunks(1200)` does. It sends the pieces in order and stops at the first
  failed send. `socket(k)` is the outcome of the k-th send call.
- **Control-channel loop** (`control_channel.dfy`, module `ControlChannel`).
  This is the server's `ConnectionHandler::process`. It is a fold over the
  outcomes of successive reads and successive writes. It answers each
  non-empty read with one response and ends at the first zero-length read or
  the first error. It counts only the bytes of reads whose response was
  written. When a script runs out, the loop is reported as still waiting.
- **Capture switch** (`capture.dfy`, module `Capture`). This is the client's
  `AudioCapture`. It covers construction, `toggle_recording`,
  `start_recording` (every `expect`/`panic!` becomes an `Err` naming the
  reason), `stop_recording`, the input callback's gate on the recording flag,
  and the 256-byte bound on `encode_opus`.

`types.dfy` (module `Types`) holds the shared vocabulary: bytes, `Option`,
`Result`, socket addresses, I/O errors, and monotonic instants in
nanoseconds. `Instant::elapsed` saturates at zero.

What the code does not do:

- The server store keeps the raw bytes of each datagram. It does not decode
  them, and nothing else reads the store.
- No code in the server calls `cleanup_old_chunks`; only `process_packet`
  is called. So the eviction that `Reassembly.CleanupOldChunks` models never
  runs, and the store only grows.
- The client's silence threshold, chunk durations, sample buffer, chunk
  start and silence counter are declared and initialised, but never used
  again.
- The callback encodes each frame on its own. It passes the result to an
  async send that it never awaits, so nothing is sent.

## Model

| member | source | states |
|---|---|---|
| Reassembly.New | src/backend/audio.rs:20-25 | a new store has no entries |
| Reassembly.ProcessPacket | src/backend/audio.rs:27-44 | always Ok; the sender's entry is created or kept; its bytes are the old bytes followed by the packet (or the packet alone for a new sender); it is stamped `now`; every other entry is unchanged and no entry is removed |
| Reassembly.CleanupOldChunks | src/backend/audio.rs:46-51 | an entry survives a sweep iff it has been idle for less than 30 s, and survivors are unchanged |
| Reassembly.CleanupIsSubset | src/backend/audio.rs:48-50 | a sweep only removes: its keys are a subset of the input's, so it never grows the store |
| Reassembly.CleanupIdempotent | src/backend/audio.rs:48-50 | sweeping twice at the same instant equals sweeping once |
| Reassembly.CleanupEvictsStale | src/backend/audio.rs:47-49 | an entry idle for 30 s or more is absent after a sweep |
| Reassembly.ProcessThenCleanupKeepsSender | src/backend/audio.rs:35-49 | a sender whose datagram was just stored survives a sweep at that instant |
| Reassembly.ProcessAllKeys | src/backend/audio.rs:29-32 | after a run of packets, a sender has an entry iff it had one before or sent one of the packets; entries are only ever created, never removed |
| Reassembly.ProcessAllConcatenates | src/backend/audio.rs:29-34 | a sender's bytes after a run of packets are its earlier bytes followed by all of its payloads, in arrival order |
| Reassembly.ProcessAllFromEmpty | src/backend/audio.rs:15-34 | from a new store, exactly the senders that sent something have an entry, one per address, holding the concatenation of their payloads |
| Reassembly.ProcessAllStampsLatest | src/backend/audio.rs:35 | a sender's entry carries the arrival instant of its latest packet |
| Fragmenter.Connect | src/ui/audio/connection.rs:12-19 | a connection exists iff bind and connect both succeed, and then it targets 127.0.0.1:3001; otherwise the first error is returned |
| Fragmenter.Chunks | src/ui/audio/connection.rs:23 | every piece has 1 to `size` bytes, all but the last have exactly `size`, and the pieces concatenate back to the input |
| Fragmenter.ChunksCount | src/ui/audio/connection.rs:23 | the number of pieces is ⌈len/size⌉, stated as the fewest pieces of `size` bytes that hold the input |
| Fragmenter.ChunksUnique | src/ui/audio/connection.rs:23 | any list of full pieces ending in one non-empty piece is exactly what chunking its concatenation gives, so the split is the inverse of concatenation |
| Fragmenter.SendPieces | src/ui/audio/connection.rs:23-26 | pieces go out in order, and the attempted ones are a prefix of the list. The result is Ok iff every send succeeded, and then every piece was sent. On Err, the last attempted send is the one that failed, all earlier sends succeeded, and nothing later is sent. An empty list sends nothing and returns Ok |
| Fragmenter.SendAudio | src/ui/audio/connection.rs:21-27 | the pieces of the 1200-byte split go out in order and stop at the first failure. On Ok, the sent datagrams concatenate back to the input. Empty input sends nothing and returns Ok |
| ControlChannel.New | src/backend/connection.rs:11-17 | a new handler has read 0 bytes and owns a zero-filled 1024-byte buffer |
| ControlChannel.Fill | src/backend/connection.rs:23-24 | a read puts its bytes at the front of the buffer, bytes past the read keep their old values, the buffer stays 1024 bytes, and the count is left alone |
| ControlChannel.Process | src/backend/connection.rs:19-42 | the buffer stays 1024 bytes; the loop makes no more read calls than the script offers, and writes at most once per read |
| ControlChannel.ProcessResponses | src/backend/connection.rs:27-34 | every iteration before the last was answered (a non-empty read followed by a successful write); response i is built from read i's bytes and their count |
| ControlChannel.ProcessCompletes | src/backend/connection.rs:31-36 | every completed iteration answered its read |
| ControlChannel.ProcessCounts | src/backend/connection.rs:22-38 | the byte count equals the start value plus the sizes of exactly the reads whose write succeeded; a read whose write failed adds nothing |
| ControlChannel.ProcessFinishes | src/backend/connection.rs:27-29 | the loop returns Ok iff its last read was zero-length, and that read gets no response |
| ControlChannel.ProcessFails | src/backend/connection.rs:23-34 | an error ends the loop at the call that reported it: a failed read gets no response and ends the loop; a failed write is the last call made |
| ControlChannel.ProcessWaits | src/backend/connection.rs:22-38 | the loop is left waiting only when a script ran out |
| ControlChannel.ProcessStopsAtFirstUnanswered | src/backend/connection.rs:22-38 | the loop makes exactly k+1 reads, where read k is the first one not answered; a zero-length read k ends it with Ok; a read error ends it with that error; a write error ends it with that error and no count for that read; a script that runs out leaves it waiting; the count is the sum of the sizes of the k answered reads; k responses were written, plus one more when read k delivered data and its write failed |
| ControlChannel.ProcessAllAnswered | src/backend/connection.rs:22-38 | when every read so far was answered, as on a connection that stays open, the loop is waiting for the next read, has written exactly one response per read, and has counted the bytes of every read |
| Capture.New | src/ui/audio/mod.rs:39-66 | panics iff no runtime; otherwise recording is off, there is no stream, no chunk start, an empty buffer, silence counter 0 and no WAV writer, and a connection exactly when opening it succeeded |
| Capture.StartRecording | src/ui/audio/mod.rs:78-115 | succeeds iff there is a default input device with a default config in F32 format and creating the WAV file, building the stream and playing it all succeed; each failing piece (no device, no config, WAV file not created, wrong format, build failed, play failed) panics with its own reason, checked in the program's order; on success the flag is up, the stream and the WAV writer are stored, and nothing else changes |
| Capture.StopRecording | src/ui/audio/mod.rs:117-120 | the flag is down and the stream dropped; everything else is unchanged |
| Capture.ToggleRecording | src/ui/audio/mod.rs:68-76 | returns the negation of the prior flag, which is also the new flag; a stream exists iff recording; stopping never fails, and starting succeeds iff the platform provides everything; the buffer, chunk start, silence counter and connection are untouched; toggling off yields exactly `stop_recording`'s state (the WAV writer kept), and toggling on yields exactly `start_recording`'s state, or its panic |
| Capture.ToggleTwiceRestores | src/ui/audio/mod.rs:68-120 | two successful toggles restore the flag and leave the chunk start, sample buffer, silence counter and connection unchanged |
| Capture.EncodeOpus | src/ui/audio/mod.rs:158-169 | the output is at most 256 bytes and exactly the reported length; it is the library's bytes padded with zeros; a missing encoder, a failed encode and a length over 256 each panic with their own reason |
| Capture.InputCallback | src/ui/audio/mod.rs:137-149 | with the flag down the callback does nothing; with it up, the frame goes to the WAV writer; without a connection nothing else happens; with one, the callback succeeds iff `encode_opus` does, the encoded bytes are exactly its output (at most 256 bytes), and its panic is the callback's |
| Capture.ToggleOffSilencesCallback | src/ui/audio/mod.rs:117-142 | toggling while recording always succeeds, and every later frame is ignored |

## Left out

- The server's dispatch loop (src/server.rs) is not part of this model. It is a
  `select!` over cancellation, TCP accepts and UDP receives, with spawned
  tasks. That part is about concurrency and async I/O. Its receive buffer is
  1024 bytes while the client sends up to 1200, so no end-to-end fragment
  round-trip through the server is claimed.
- The UDP wrapper (src/backend/udp_handler.rs) is not modelled. It binds a
  socket and passes each datagram on to `process_packet`.
- The GUI, the TCP client plumbing and build.rs are not modelled. They are
  widgets, threads, channels and external build commands.
- Reassembly: the socket that `AudioProcessor` holds is left out, because only
  the commented-out echo path uses it. `process_packet` reads the clock
  twice, but the first reading is always overwritten, so one `now` stands for
  both. Log output is left out.
- Reassembly.CleanupOldChunks: the program reads the clock once per entry,
  because `elapsed()` runs inside the `retain` closure. The model sweeps every
  entry against one `now`. The clock is monotonic and a sweep takes
  microseconds, so only an entry within that window of the 30 s limit can be
  decided differently.
- ControlChannel.Process: the reply's fixed markdown text and the lossy UTF-8
  decoding of the message are left out. A `Response` carries only the two
  values the text depends on: the bytes received and their count.
- ControlChannel.Process: `total_bytes_read` is a `usize` in the program and a
  `nat` here, so the model ignores overflow. At 1024 bytes per read, reaching
  2^64 bytes is out of practical reach.
- Capture: panics are modelled as `Err` results. The state at the moment of a
  panic is not modelled. Note that `start_recording` raises the flag and
  replaces the WAV writer before it checks the sample format.
- Capture: the audio library, the WAV writer (including `write_input_data` in
  the debug module) and the Opus encoder are foreign code. Only their reported
  outcomes appear. The callback's frame is shown as handed to the writer.
- Capture.InputCallback: the call to `send_audio` is not modelled as a send.
  Its future is never awaited, so no datagram follows from it.
- Float sample values, the silence threshold and the chunk durations are left
  out, because the shown code never uses them.
