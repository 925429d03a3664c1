/**
 The client's datagram sender (`AudioConnection` in src/ui/audio/connection.rs):
 an encoded buffer is cut into pieces of at most 1200 bytes, which are sent in
 order over a connected UDP socket, stopping at the first failed send.

 The socket is a parameter: `socket(k)` is what the k-th send call returns.
 */
module Fragmenter {
  import opened Types

  /** Largest datagram payload the client sends. */
  const MaxUdpPacketSize: nat := 1200

  /** The address the client's socket is connected to (127.0.0.1:3001). */
  const ServerAudioAddr: SocketAddr := SocketAddr([127, 0, 0, 1], 3001)

  /** `AudioConnection`: a socket bound to an ephemeral port and connected to `peer`. */
  datatype AudioConnection = AudioConnection(peer: SocketAddr)

  /** What one `send` call on the socket returned. */
  datatype SendOutcome = Sent | SendFailed(error: IoError)

  /** `AudioConnection::new`: bind, then connect; either failure is returned. */
  function Connect(bind: Result<(), IoError>, connect: Result<(), IoError>)
    : (r: Result<AudioConnection, IoError>)
    ensures r.Ok? <==> bind.Ok? && connect.Ok?
    ensures r.Ok? ==> r.value.peer == ServerAudioAddr
    ensures bind.Err? ==> r == Err(bind.error)
    ensures bind.Ok? && connect.Err? ==> r == Err(connect.error)
  {
    if bind.Err? then Err(bind.error)
    else if connect.Err? then Err(connect.error)
    else Ok(AudioConnection(ServerAudioAddr))
  }

  /** `data.chunks(size)`: consecutive non-empty pieces of `size` bytes, the
      last one possibly shorter; Rust refuses a size of zero. */
  function Chunks(data: seq<byte>, size: nat): (r: seq<seq<byte>>)
    requires size > 0
    ensures forall i :: 0 <= i < |r| ==> 0 < |r[i]| <= size
    ensures forall i :: 0 <= i < |r| - 1 ==> |r[i]| == size
    ensures Concat(r) == data
    decreases |data|
  {
    if |data| == 0 then []
    else if |data| <= size then [data]
    else [data[..size]] + Chunks(data[size..], size)
  }

  /** There are ⌈|data| / size⌉ pieces: the fewest pieces of `size` bytes
      that hold all of `data`. */
  lemma {:induction false} ChunksCount(data: seq<byte>, size: nat)
    requires size > 0
    ensures |data| <= |Chunks(data, size)| * size
    ensures |Chunks(data, size)| > 0 ==> (|Chunks(data, size)| - 1) * size < |data|
    decreases |data|
  {
    if |data| > size {
      var rest := data[size..];
      ChunksCount(rest, size);
      var k := |Chunks(rest, size)|;
      assert |Chunks(data, size)| == k + 1;
      assert (k + 1) * size == k * size + size;
    }
  }

  /** The pieces are determined by their concatenation: any sequence of
      full-size pieces followed by one short non-empty piece is what `chunks`
      produces for the bytes it concatenates to. */
  lemma {:induction false} ChunksUnique(parts: seq<seq<byte>>, size: nat)
    requires size > 0
    requires forall i :: 0 <= i < |parts| ==> 0 < |parts[i]| <= size
    requires forall i :: 0 <= i < |parts| - 1 ==> |parts[i]| == size
    ensures Chunks(Concat(parts), size) == parts
    decreases |parts|
  {
    if |parts| > 0 {
      var rest := parts[1..];
      ChunksUnique(rest, size);
      var data := Concat(parts);
      assert data == parts[0] + Concat(rest);
      if |rest| == 0 {
        assert Concat(rest) == [];
        assert data == parts[0];
      } else {
        assert |parts[0]| == size;
        assert |Concat(rest)| > 0 by {
          assert Concat(rest) == rest[0] + Concat(rest[1..]);
        }
        assert data[..size] == parts[0];
        assert data[size..] == Concat(rest);
      }
    }
  }

  /** The datagrams a send put on the wire (the failing one included, since
      its call was made) and what the call returned. */
  datatype SendReport = SendReport(attempted: seq<seq<byte>>, result: Result<(), IoError>)

  /** The send loop of `send_audio`: send `pieces` in order; return the first
      failure, or Ok when every piece was sent. */
  method SendPieces(pieces: seq<seq<byte>>, socket: nat -> SendOutcome) returns (report: SendReport)
    ensures |report.attempted| <= |pieces|
    ensures report.attempted == pieces[..|report.attempted|]
    ensures report.result.Ok? <==> forall k :: 0 <= k < |pieces| ==> socket(k).Sent?
    ensures report.result.Ok? ==> report.attempted == pieces
    ensures report.result.Err? ==>
              && |report.attempted| > 0
              && socket(|report.attempted| - 1) == SendFailed(report.result.error)
              && forall k :: 0 <= k < |report.attempted| - 1 ==> socket(k).Sent?
    ensures |pieces| == 0 ==> report == SendReport([], Ok(()))
  {
    var sent: seq<seq<byte>> := [];
    var k := 0;
    while k < |pieces|
      invariant k <= |pieces|
      invariant sent == pieces[..k]
      invariant forall j :: 0 <= j < k ==> socket(j).Sent?
    {
      sent := sent + [pieces[k]];
      match socket(k)
      case SendFailed(e) =>
        return SendReport(sent, Err(e));
      case Sent =>
      k := k + 1;
    }
    return SendReport(sent, Ok(()));
  }

  /** `send_audio`: send the 1200-byte pieces of `data` in order, stopping at
      the first failed send. */
  method SendAudio(data: seq<byte>, socket: nat -> SendOutcome) returns (report: SendReport)
    ensures var pieces := Chunks(data, MaxUdpPacketSize);
      && |report.attempted| <= |pieces|
      && report.attempted == pieces[..|report.attempted|]
      && (report.result.Ok? <==> forall k :: 0 <= k < |pieces| ==> socket(k).Sent?)
      && (report.result.Ok? ==> Concat(report.attempted) == data)
      && (report.result.Err? ==>
            && |report.attempted| > 0
            && socket(|report.attempted| - 1) == SendFailed(report.result.error)
            && forall k :: 0 <= k < |report.attempted| - 1 ==> socket(k).Sent?)
    ensures |data| == 0 ==> report == SendReport([], Ok(()))
  {
    var pieces := Chunks(data, MaxUdpPacketSize);
    assert |data| == 0 ==> pieces == [];
    report := SendPieces(pieces, socket);
  }
}
