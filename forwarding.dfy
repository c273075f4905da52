/**
 * The per-connection forwarding task: read from the client socket into a
 * fixed buffer and hand every non-empty chunk to the device, in read order,
 * until the client closes, a read fails or a write fails.
 */
module Forwarding {
  import opened Common
  import opened DevicePort

  /** Size of the buffer each connection reads into. */
  const BufferSize := 4096

  datatype ReadError = EndOfStream | ReadFailure

  /** One read on the client socket: the bytes placed in the buffer and the error, if any. */
  datatype ReadResult = ReadResult(data: seq<byte>, err: Option<ReadError>)

  /**
   * One turn of the loop: what the socket read gives, and the device's reply
   * to the write that follows it (consulted only when the read brought
   * bytes and no error).
   */
  datatype Exchange = Exchange(read: ReadResult, reply: WriteReply)

  /** Why a forwarding task ended, or that it is still blocked reading. */
  datatype Exit = ClientClosed | ReadFailed | WriteFailed | StillReading

  /** A socket read into the buffer never returns more bytes than the buffer holds. */
  predicate FitsBuffer(conn: seq<Exchange>)
  {
    forall i :: 0 <= i < |conn| ==> |conn[i].read.data| <= BufferSize
  }

  /** Whether an exchange ends the loop: a read error, or a failed write of a non-empty chunk. */
  predicate Ends(e: Exchange)
  {
    e.read.err.Some? || (|e.read.data| > 0 && e.reply.failed)
  }

  /** The data of the write calls the loop makes on `conn`, in call order. */
  function Calls(conn: seq<Exchange>): seq<seq<byte>>
  {
    if conn == [] then []
    else
      var e := conn[0];
      if e.read.err.Some? then []
      else if |e.read.data| == 0 then Calls(conn[1..])
      else if e.reply.failed then [e.read.data]
      else [e.read.data] + Calls(conn[1..])
  }

  /** How the loop ends on `conn`. */
  function ExitOf(conn: seq<Exchange>): Exit
  {
    if conn == [] then StillReading
    else
      var e := conn[0];
      if e.read.err == Some(EndOfStream) then ClientClosed
      else if e.read.err.Some? then ReadFailed
      else if |e.read.data| > 0 && e.reply.failed then WriteFailed
      else ExitOf(conn[1..])
  }

  /** Every byte the client's reads deliver, in order, whether or not it gets forwarded. */
  function Stream(conn: seq<Exchange>): seq<byte>
  {
    if conn == [] then [] else conn[0].read.data + Stream(conn[1..])
  }

  /** A stretch of the session with no read error and no failed write. */
  predicate Clean(conn: seq<Exchange>)
  {
    forall i :: 0 <= i < |conn| ==> !Ends(conn[i])
  }

  /** Every write call carries a non-empty chunk that fits the buffer: empty reads are skipped. */
  lemma {:induction false} CallsAreChunks(conn: seq<Exchange>)
    requires FitsBuffer(conn)
    ensures forall k :: 0 <= k < |Calls(conn)| ==> 0 < |Calls(conn)[k]| <= BufferSize
    ensures |Calls(conn)| <= |conn|
  {
    if conn != [] {
      CallsAreChunks(conn[1..]);
    }
  }

  /** What reaches the device is a prefix of what the client sent: no loss inside, no duplication, no reordering. */
  lemma {:induction false} ForwardedIsPrefix(conn: seq<Exchange>)
    ensures Flatten(Calls(conn)) <= Stream(conn)
  {
    if conn != [] {
      var e := conn[0];
      if e.read.err.None? && |e.read.data| > 0 {
        if e.reply.failed {
          assert Flatten([e.read.data]) == e.read.data + Flatten([]);
        } else {
          ForwardedIsPrefix(conn[1..]);
          assert Flatten(Calls(conn)) == e.read.data + Flatten(Calls(conn[1..]));
        }
      } else if e.read.err.None? {
        ForwardedIsPrefix(conn[1..]);
        assert Stream(conn) == Stream(conn[1..]);
      }
    }
  }

  /** A stretch of the session with no read error and no failed write forwards every byte read, in order, and the task is still reading. */
  lemma {:induction false} CleanForwardsAll(conn: seq<Exchange>)
    requires Clean(conn)
    ensures Flatten(Calls(conn)) == Stream(conn)
    ensures ExitOf(conn) == StillReading
  {
    if conn != [] {
      assert !Ends(conn[0]);
      assert Clean(conn[1..]) by {
        forall i | 0 <= i < |conn[1..]| ensures !Ends(conn[1..][i]) {
          assert conn[1..][i] == conn[i + 1];
        }
      }
      CleanForwardsAll(conn[1..]);
      var e := conn[0];
      if |e.read.data| > 0 {
        assert Calls(conn) == [e.read.data] + Calls(conn[1..]);
      }
    }
  }

  /**
   * A session whose reads and writes go through cleanly until an exchange
   * that stops the loop gets every byte read before the stop to the device,
   * in order: on end of stream or a read error that is everything read
   * before it, and on a failed write it also includes the chunk whose write
   * failed. The task ends for the reason that exchange gives.
   */
  lemma {:induction false} ForwardsAllBeforeStop(conn: seq<Exchange>, last: Exchange)
    requires Clean(conn) && Ends(last)
    ensures Flatten(Calls(conn + [last])) == Stream(conn) + (if last.read.err.None? then last.read.data else [])
    ensures ExitOf(conn + [last]) ==
              if last.read.err == Some(EndOfStream) then ClientClosed
              else if last.read.err.Some? then ReadFailed
              else WriteFailed
  {
    if conn == [] {
      assert conn + [last] == [last];
      if last.read.err.None? {
        assert Calls([last]) == [last.read.data];
        assert Flatten([last.read.data]) == last.read.data + Flatten([]);
      }
    } else {
      assert (conn + [last])[0] == conn[0];
      assert (conn + [last])[1..] == conn[1..] + [last];
      assert Clean(conn[1..]) by {
        forall i | 0 <= i < |conn[1..]| ensures !Ends(conn[1..][i]) {
          assert conn[1..][i] == conn[i + 1];
        }
      }
      assert !Ends(conn[0]);
      ForwardsAllBeforeStop(conn[1..], last);
      var e := conn[0];
      if |e.read.data| > 0 {
        assert Calls(conn + [last]) == [e.read.data] + Calls(conn[1..] + [last]);
        assert Flatten(Calls(conn + [last])) == e.read.data + Flatten(Calls(conn[1..] + [last]));
      }
    }
  }

  /**
   * A connection served over several turns: while the first turn leaves the
   * task reading, the calls of the whole session are those of the turns one
   * after the other, and the session ends as the later turn does.
   */
  lemma {:induction false} TurnsCompose(c1: seq<Exchange>, c2: seq<Exchange>)
    requires ExitOf(c1) == StillReading
    ensures Calls(c1 + c2) == Calls(c1) + Calls(c2)
    ensures ExitOf(c1 + c2) == ExitOf(c2)
  {
    if c1 == [] {
      assert c1 + c2 == c2;
    } else {
      assert (c1 + c2)[0] == c1[0];
      assert (c1 + c2)[1..] == c1[1..] + c2;
      TurnsCompose(c1[1..], c2);
    }
  }

  /** Once the loop has ended, nothing the socket or the device would do afterwards matters. */
  lemma {:induction false} NothingAfterExit(conn: seq<Exchange>, rest: seq<Exchange>)
    requires ExitOf(conn) != StillReading
    ensures Calls(conn + rest) == Calls(conn)
    ensures ExitOf(conn + rest) == ExitOf(conn)
  {
    assert conn != [];
    assert (conn + rest)[0] == conn[0];
    assert (conn + rest)[1..] == conn[1..] + rest;
    if !Ends(conn[0]) {
      NothingAfterExit(conn[1..], rest);
    }
  }

  /**
   * The count a device reports for a write is never acted on: a short write
   * is neither retried nor treated as a failure. Two sessions that differ
   * only in reported counts produce the same write calls and the same exit.
   */
  lemma {:induction false} ReportedCountIgnored(conn: seq<Exchange>, other: seq<Exchange>)
    requires |conn| == |other|
    requires forall i :: 0 <= i < |conn| ==>
               conn[i].read == other[i].read && conn[i].reply.failed == other[i].reply.failed
    ensures Calls(conn) == Calls(other)
    ensures ExitOf(conn) == ExitOf(other)
  {
    if conn != [] {
      ReportedCountIgnored(conn[1..], other[1..]);
    }
  }

  /**
   * The forwarding loop of one connection, over the reads `conn` gives:
   * each read goes into one reused buffer, and each non-empty chunk of it
   * goes to `port` as exactly the bytes read.
   */
  method Forward(port: Port, conn: seq<Exchange>) returns (exit: Exit)
    requires FitsBuffer(conn)
    modifies port
    ensures port.writes == old(port.writes) + Calls(conn)
    ensures exit == ExitOf(conn)
    ensures port.open == old(port.open) && port.opens == old(port.opens) && port.closes == old(port.closes)
  {
    var buf := new byte[BufferSize];
    var i := 0;
    while i < |conn|
      invariant 0 <= i <= |conn|
      invariant port.writes + Calls(conn[i..]) == old(port.writes) + Calls(conn)
      invariant ExitOf(conn[i..]) == ExitOf(conn)
      invariant port.open == old(port.open) && port.opens == old(port.opens) && port.closes == old(port.closes)
      decreases |conn| - i
    {
      var r := conn[i].read;
      var n := |r.data|;
      forall k | 0 <= k < n {
        buf[k] := r.data[k];
      }
      assert conn[i..][0] == conn[i] && conn[i..][1..] == conn[i + 1..];
      if r.err.Some? {
        exit := if r.err.value == EndOfStream then ClientClosed else ReadFailed;
        return;
      }
      if n > 0 {
        assert buf[..n] == r.data;
        var written, writeErr := port.Write(buf[..n], conn[i].reply);
        if writeErr.Some? {
          exit := WriteFailed;
          return;
        }
      }
      i := i + 1;
    }
    exit := StillReading;
  }
}
