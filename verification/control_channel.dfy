/**
 The server's control-channel handler (`ConnectionHandler` in
 src/backend/connection.rs): read into a 1024-byte buffer, answer every
 non-empty read with one response, count the bytes read, and stop at the first
 zero-length read or at the first error.

 The TCP stream is replaced by two scripts: the outcomes of successive read
 calls and the outcomes of successive write calls. When a script runs out the
 loop is blocked waiting for I/O, which is reported as `Waiting`.
 */
module ControlChannel {
  import opened Types

  /** Size of the handler's read buffer. */
  const BufferSize: nat := 1024

  /** The bytes one read can deliver: never more than the buffer holds. */
  type ReadBytes = s: seq<byte> | |s| <= BufferSize

  /** What one `read` call returned: the bytes copied into the buffer, or an error. */
  datatype ReadOutcome = ReadOk(bytes: ReadBytes) | ReadErr(error: IoError)

  /** What one `write_all` call returned. */
  datatype WriteOutcome = WriteOk | WriteErr(error: IoError)

  /** `ConnectionHandler`: the running byte count and the read buffer. */
  datatype Handler = Handler(totalBytesRead: nat, buffer: seq<byte>)

  predicate Valid(h: Handler)
  {
    |h.buffer| == BufferSize
  }

  /** `ConnectionHandler::new`: nothing read yet, a zero-filled 1024-byte buffer. */
  function New(): (h: Handler)
    ensures Valid(h)
    ensures h.totalBytesRead == 0
    ensures forall i :: 0 <= i < |h.buffer| ==> h.buffer[i] == 0
  {
    Handler(0, seq(BufferSize, _ => 0))
  }

  /** The reply to one read. The program formats a fixed markdown text around
      the two values it depends on: the bytes received and their count. */
  datatype Response = Response(message: seq<byte>, length: nat)

  /** `create_response`, reduced to the two values the reply echoes. */
  function CreateResponse(message: seq<byte>, length: nat): Response
  {
    Response(message, length)
  }

  /** How the loop stands after the scripts: returned `Ok` after a zero-length
      read, returned `Err`, or still waiting for an I/O call to complete. */
  datatype Status = Finished | Failed(error: IoError) | Waiting

  /** The handler's final state, how many read calls completed, the responses
      whose write completed or failed, and the status. */
  datatype Session = Session(handler: Handler, readCalls: nat, written: seq<Response>, status: Status)

  /** Total size of the data delivered by the first `n` read outcomes. */
  function BytesIn(readResults: seq<ReadOutcome>, n: nat): nat
    requires n <= |readResults|
  {
    if n == 0 then 0
    else (if readResults[0].ReadOk? then |readResults[0].bytes| else 0) + BytesIn(readResults[1..], n - 1)
  }

  /** Whether read `i` delivered data and its response was written. */
  predicate Answered(readResults: seq<ReadOutcome>, writeResults: seq<WriteOutcome>, i: nat)
  {
    && i < |readResults| && i < |writeResults|
    && readResults[i].ReadOk? && |readResults[i].bytes| > 0
    && writeResults[i] == WriteOk
  }

  /** The number of iterations that completed a write successfully. */
  function Completed(s: Session): nat
  {
    if s.status.Failed? && 0 < |s.written| == s.readCalls then |s.written| - 1 else |s.written|
  }

  /** One loop iteration's read: the bytes land at the front of the buffer and
      the rest of the buffer keeps what the previous reads left there. */
  function Fill(h: Handler, bytes: ReadBytes): (r: Handler)
    requires Valid(h)
    ensures Valid(r)
    ensures r.buffer[..|bytes|] == bytes
    ensures r.buffer[|bytes|..] == h.buffer[|bytes|..]
    ensures r.totalBytesRead == h.totalBytesRead
  {
    h.(buffer := bytes + h.buffer[|bytes|..])
  }

  /** Answered reads of the remaining scripts are answered reads of the whole
      scripts, one position later. */
  lemma AnsweredShift(readResults: seq<ReadOutcome>, writeResults: seq<WriteOutcome>, k: int)
    requires Answered(readResults, writeResults, 0)
    requires forall i :: 0 <= i < k ==> Answered(readResults[1..], writeResults[1..], i)
    ensures forall i :: 0 <= i < k + 1 ==> Answered(readResults, writeResults, i)
  {
    forall i | 0 <= i < k + 1
      ensures Answered(readResults, writeResults, i)
    {
      if i > 0 {
        assert Answered(readResults[1..], writeResults[1..], i - 1);
      }
    }
  }

  /** `process`: the read/respond loop run against the two scripts. */
  function Process(h: Handler, readResults: seq<ReadOutcome>, writeResults: seq<WriteOutcome>): (s: Session)
    requires Valid(h)
    ensures Valid(s.handler)
    ensures s.readCalls <= |readResults|
    ensures |s.written| <= s.readCalls && |s.written| <= |writeResults|
    decreases |readResults|
  {
    if |readResults| == 0 then Session(h, 0, [], Waiting)
    else match readResults[0]
      case ReadErr(e) => Session(h, 1, [], Failed(e))
      case ReadOk(bytes) =>
        var n := |bytes|;
        var filled := Fill(h, bytes);
        if n == 0 then Session(filled, 1, [], Finished)
        else
          var response := CreateResponse(filled.buffer[..n], n);
          if |writeResults| == 0 then Session(filled, 1, [], Waiting)
          else match writeResults[0]
            case WriteErr(e) => Session(filled, 1, [response], Failed(e))
            case WriteOk =>
              var rest := Process(filled.(totalBytesRead := h.totalBytesRead + n), readResults[1..], writeResults[1..]);
              Session(rest.handler, rest.readCalls + 1, [response] + rest.written, rest.status)
  }

  /** Every iteration before the last was answered, and the loop wrote one
      response per answered or write-failed read, built from that read's bytes
      and their count. */
  lemma {:induction false} ProcessResponses(h: Handler, readResults: seq<ReadOutcome>, writeResults: seq<WriteOutcome>)
    requires Valid(h)
    ensures var s := Process(h, readResults, writeResults);
      forall i :: 0 <= i < s.readCalls - 1 ==> Answered(readResults, writeResults, i)
    ensures var s := Process(h, readResults, writeResults);
      forall i :: 0 <= i < |s.written| ==>
        readResults[i].ReadOk? && s.written[i] == Response(readResults[i].bytes, |readResults[i].bytes|)
    decreases |readResults|
  {
    if 0 < |readResults| && Answered(readResults, writeResults, 0) {
      var bytes := readResults[0].bytes;
      var next := Fill(h, bytes).(totalBytesRead := h.totalBytesRead + |bytes|);
      var rest := Process(next, readResults[1..], writeResults[1..]);
      ProcessAnsweredStep(h, readResults, writeResults);
      ProcessResponses(next, readResults[1..], writeResults[1..]);
      AnsweredShift(readResults, writeResults, rest.readCalls - 1);
    }
  }

  /** After an answered first read, the loop has completed one more iteration
      than the rest of the run. */
  lemma CompletedStep(h: Handler, readResults: seq<ReadOutcome>, writeResults: seq<WriteOutcome>)
    requires Valid(h)
    requires Answered(readResults, writeResults, 0)
    ensures var bytes := readResults[0].bytes;
      var rest := Process(Fill(h, bytes).(totalBytesRead := h.totalBytesRead + |bytes|),
                          readResults[1..], writeResults[1..]);
      Completed(Process(h, readResults, writeResults)) == Completed(rest) + 1
  {
  }

  /** Every iteration the loop completed answered its read. */
  lemma {:induction false} ProcessCompletes(h: Handler, readResults: seq<ReadOutcome>, writeResults: seq<WriteOutcome>)
    requires Valid(h)
    ensures var s := Process(h, readResults, writeResults);
      && Completed(s) <= s.readCalls
      && (forall i :: 0 <= i < Completed(s) ==> Answered(readResults, writeResults, i))
    decreases |readResults|
  {
    if 0 < |readResults| && Answered(readResults, writeResults, 0) {
      var bytes := readResults[0].bytes;
      var next := Fill(h, bytes).(totalBytesRead := h.totalBytesRead + |bytes|);
      var rest := Process(next, readResults[1..], writeResults[1..]);
      ProcessAnsweredStep(h, readResults, writeResults);
      CompletedStep(h, readResults, writeResults);
      ProcessCompletes(next, readResults[1..], writeResults[1..]);
      AnsweredShift(readResults, writeResults, Completed(rest));
    } else if 0 < |readResults| {
      ProcessFirstUnanswered(h, readResults, writeResults);
    }
  }

  /** The byte count grows only by reads whose response was written: it is
      the start value plus the sizes of exactly the completed iterations' reads. */
  lemma {:induction false} ProcessCounts(h: Handler, readResults: seq<ReadOutcome>, writeResults: seq<WriteOutcome>)
    requires Valid(h)
    ensures var s := Process(h, readResults, writeResults);
      && Completed(s) <= |readResults|
      && s.handler.totalBytesRead == h.totalBytesRead + BytesIn(readResults, Completed(s))
    decreases |readResults|
  {
    if 0 < |readResults| && Answered(readResults, writeResults, 0) {
      var bytes := readResults[0].bytes;
      var next := Fill(h, bytes).(totalBytesRead := h.totalBytesRead + |bytes|);
      var rest := Process(next, readResults[1..], writeResults[1..]);
      ProcessAnsweredStep(h, readResults, writeResults);
      CompletedStep(h, readResults, writeResults);
      ProcessCounts(next, readResults[1..], writeResults[1..]);
    } else if 0 < |readResults| {
      ProcessFirstUnanswered(h, readResults, writeResults);
    }
  }

  /** The loop returns Ok exactly when its last read was zero-length, and that
      read gets no response. */
  lemma {:induction false} ProcessFinishes(h: Handler, readResults: seq<ReadOutcome>, writeResults: seq<WriteOutcome>)
    requires Valid(h)
    ensures var s := Process(h, readResults, writeResults);
      s.status == Finished <==>
        s.readCalls > 0 && readResults[s.readCalls - 1] == ReadOk([]) && |s.written| == s.readCalls - 1
    decreases |readResults|
  {
    if 0 < |readResults| && Answered(readResults, writeResults, 0) {
      var bytes := readResults[0].bytes;
      var next := Fill(h, bytes).(totalBytesRead := h.totalBytesRead + |bytes|);
      var rest := Process(next, readResults[1..], writeResults[1..]);
      ProcessAnsweredStep(h, readResults, writeResults);
      ProcessFinishes(next, readResults[1..], writeResults[1..]);
      if rest.readCalls > 0 {
        assert readResults[1..][rest.readCalls - 1] == readResults[rest.readCalls];
        if rest.readCalls <= |writeResults[1..]| {
          assert writeResults[1..][rest.readCalls - 1] == writeResults[rest.readCalls];
        }
      }
    } else if 0 < |readResults| {
      ProcessFirstUnanswered(h, readResults, writeResults);
    }
  }

  /** An error ends the loop at the call that reported it: either the last read
      failed and got no response, or the last response's write failed. */
  lemma {:induction false} ProcessFails(h: Handler, readResults: seq<ReadOutcome>, writeResults: seq<WriteOutcome>)
    requires Valid(h)
    ensures var s := Process(h, readResults, writeResults);
      s.status.Failed? ==>
        && s.readCalls > 0
        && ((|s.written| == s.readCalls - 1 && readResults[s.readCalls - 1] == ReadErr(s.status.error))
         || (|s.written| == s.readCalls && writeResults[s.readCalls - 1] == WriteErr(s.status.error)))
    decreases |readResults|
  {
    if 0 < |readResults| && Answered(readResults, writeResults, 0) {
      var bytes := readResults[0].bytes;
      var next := Fill(h, bytes).(totalBytesRead := h.totalBytesRead + |bytes|);
      var rest := Process(next, readResults[1..], writeResults[1..]);
      ProcessAnsweredStep(h, readResults, writeResults);
      ProcessFails(next, readResults[1..], writeResults[1..]);
      if rest.readCalls > 0 {
        assert readResults[1..][rest.readCalls - 1] == readResults[rest.readCalls];
        if rest.readCalls <= |writeResults[1..]| {
          assert writeResults[1..][rest.readCalls - 1] == writeResults[rest.readCalls];
        }
      }
    } else if 0 < |readResults| {
      ProcessFirstUnanswered(h, readResults, writeResults);
    }
  }

  /** The loop is still waiting only when a script ran out: every offered read
      was made, or a response awaits a write outcome that was not offered. */
  lemma {:induction false} ProcessWaits(h: Handler, readResults: seq<ReadOutcome>, writeResults: seq<WriteOutcome>)
    requires Valid(h)
    ensures var s := Process(h, readResults, writeResults);
      s.status == Waiting ==> s.readCalls == |readResults| || |s.written| == s.readCalls - 1 == |writeResults|
    decreases |readResults|
  {
    if 0 < |readResults| && Answered(readResults, writeResults, 0) {
      var bytes := readResults[0].bytes;
      var next := Fill(h, bytes).(totalBytesRead := h.totalBytesRead + |bytes|);
      var rest := Process(next, readResults[1..], writeResults[1..]);
      ProcessAnsweredStep(h, readResults, writeResults);
      ProcessWaits(next, readResults[1..], writeResults[1..]);
    } else if 0 < |readResults| {
      ProcessFirstUnanswered(h, readResults, writeResults);
    }
  }

  /** The outcome of the loop when its first read is not answered. */
  lemma ProcessFirstUnanswered(h: Handler, readResults: seq<ReadOutcome>, writeResults: seq<WriteOutcome>)
    requires Valid(h)
    requires 0 < |readResults|
    requires !Answered(readResults, writeResults, 0)
    ensures Process(h, readResults, writeResults).readCalls == 1
    ensures Process(h, readResults, writeResults).handler.totalBytesRead == h.totalBytesRead
    ensures |Process(h, readResults, writeResults).written|
            == (if readResults[0].ReadOk? && |readResults[0].bytes| > 0 && 0 < |writeResults| then 1 else 0)
    ensures readResults[0] == ReadOk([]) ==> Process(h, readResults, writeResults).status == Finished
    ensures readResults[0].ReadErr? ==>
              Process(h, readResults, writeResults).status == Failed(readResults[0].error)
    ensures readResults[0].ReadOk? && |readResults[0].bytes| > 0 && 0 < |writeResults| ==>
              && writeResults[0].WriteErr?
              && Process(h, readResults, writeResults).status == Failed(writeResults[0].error)
    ensures readResults[0].ReadOk? && |readResults[0].bytes| > 0 && 0 == |writeResults| ==>
              Process(h, readResults, writeResults).status == Waiting
  {
  }

  /** One answered iteration: the loop writes the response to the read and
      continues from the filled handler with the count raised by the read's size. */
  lemma ProcessAnsweredStep(h: Handler, readResults: seq<ReadOutcome>, writeResults: seq<WriteOutcome>)
    requires Valid(h)
    requires Answered(readResults, writeResults, 0)
    ensures var bytes := readResults[0].bytes;
      var rest := Process(Fill(h, bytes).(totalBytesRead := h.totalBytesRead + |bytes|),
                          readResults[1..], writeResults[1..]);
      Process(h, readResults, writeResults)
        == Session(rest.handler, rest.readCalls + 1, [Response(bytes, |bytes|)] + rest.written, rest.status)
  {
  }

  /** The loop runs exactly up to the first read that is not answered, and
      that read's outcome (or its write's) decides how the loop ends; the byte
      count is the size of every answered read. */
  lemma {:induction false} ProcessStopsAtFirstUnanswered(
    h: Handler, readResults: seq<ReadOutcome>, writeResults: seq<WriteOutcome>, k: nat)
    requires Valid(h)
    requires k < |readResults|
    requires forall i :: 0 <= i < k ==> Answered(readResults, writeResults, i)
    requires !Answered(readResults, writeResults, k)
    ensures Process(h, readResults, writeResults).readCalls == k + 1
    ensures Process(h, readResults, writeResults).handler.totalBytesRead
            == h.totalBytesRead + BytesIn(readResults, k)
    ensures |Process(h, readResults, writeResults).written|
            == k + (if readResults[k].ReadOk? && |readResults[k].bytes| > 0 && k < |writeResults| then 1 else 0)
    ensures readResults[k] == ReadOk([]) ==> Process(h, readResults, writeResults).status == Finished
    ensures readResults[k].ReadErr? ==>
              Process(h, readResults, writeResults).status == Failed(readResults[k].error)
    ensures readResults[k].ReadOk? && |readResults[k].bytes| > 0 && k < |writeResults| ==>
              && writeResults[k].WriteErr?
              && Process(h, readResults, writeResults).status == Failed(writeResults[k].error)
    ensures readResults[k].ReadOk? && |readResults[k].bytes| > 0 && k >= |writeResults| ==>
              Process(h, readResults, writeResults).status == Waiting
    decreases k
  {
    if k == 0 {
      ProcessFirstUnanswered(h, readResults, writeResults);
    } else {
      assert Answered(readResults, writeResults, 0);
      var n := |readResults[0].bytes|;
      var next := Fill(h, readResults[0].bytes).(totalBytesRead := h.totalBytesRead + n);
      forall i | 0 <= i < k - 1
        ensures Answered(readResults[1..], writeResults[1..], i)
      {
        assert Answered(readResults, writeResults, i + 1);
      }
      assert readResults[1..][k - 1] == readResults[k];
      assert !Answered(readResults[1..], writeResults[1..], k - 1);
      ProcessStopsAtFirstUnanswered(next, readResults[1..], writeResults[1..], k - 1);
      ProcessAnsweredStep(h, readResults, writeResults);
    }
  }

  /** A connection whose every read so far was answered is still open: the
      loop waits for the next read, having written one response per read and
      counted every byte it received. */
  lemma {:induction false} ProcessAllAnswered(
    h: Handler, readResults: seq<ReadOutcome>, writeResults: seq<WriteOutcome>)
    requires Valid(h)
    requires forall i :: 0 <= i < |readResults| ==> Answered(readResults, writeResults, i)
    ensures Process(h, readResults, writeResults).status == Waiting
    ensures Process(h, readResults, writeResults).readCalls == |readResults|
    ensures |Process(h, readResults, writeResults).written| == |readResults|
    ensures Process(h, readResults, writeResults).handler.totalBytesRead
            == h.totalBytesRead + BytesIn(readResults, |readResults|)
    decreases |readResults|
  {
    if |readResults| > 0 {
      assert Answered(readResults, writeResults, 0);
      var n := |readResults[0].bytes|;
      var next := Fill(h, readResults[0].bytes).(totalBytesRead := h.totalBytesRead + n);
      forall i | 0 <= i < |readResults| - 1
        ensures Answered(readResults[1..], writeResults[1..], i)
      {
        assert Answered(readResults, writeResults, i + 1);
      }
      ProcessAllAnswered(next, readResults[1..], writeResults[1..]);
      ProcessAnsweredStep(h, readResults, writeResults);
    }
  }
}
