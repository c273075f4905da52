/**
 * The device capability the forwarding server depends on: open, write,
 * close and a liveness query. The outcome of each call on the physical
 * device (or on a test double) is a parameter, so this one class stands for
 * every realization of the interface.
 */
module DevicePort {
  import opened Common

  /** What the device answers to one write call: the count it reports and whether it reports an error. */
  datatype WriteReply = WriteReply(count: nat, failed: bool)

  /** The single error a device operation can report to the server. */
  datatype PortError = PortFailure

  class Port {
    /** Whether the device connection is open. */
    var open: bool
    /** The data of every write call made on this device, in call order. */
    var writes: seq<seq<byte>>
    /** Number of open calls and close calls made on the device. */
    var opens: nat
    var closes: nat

    constructor ()
      ensures !open && writes == [] && opens == 0 && closes == 0
    {
      open := false;
      writes := [];
      opens := 0;
      closes := 0;
    }

    /** The bytes the device has been handed, in order. */
    function Received(): (r: seq<byte>)
      reads this
    {
      Flatten(writes)
    }

    method IsOpen() returns (b: bool)
      ensures b == open
    {
      b := open;
    }

    /** Open the device; `ok` is the outcome the device gives. */
    method Open(ok: bool) returns (err: Option<PortError>)
      modifies this
      ensures err.None? <==> ok
      ensures open == (old(open) || ok)
      ensures writes == old(writes) && closes == old(closes) && opens == old(opens) + 1
    {
      if ok {
        open := true;
        err := None;
      } else {
        err := Some(PortFailure);
      }
      opens := opens + 1;
    }

    /** Hand `data` to the device; `reply` is the device's answer, passed back as is. */
    method Write(data: seq<byte>, reply: WriteReply) returns (n: nat, err: Option<PortError>)
      modifies this
      ensures n == reply.count && (err.Some? <==> reply.failed)
      ensures writes == old(writes) + [data]
      ensures open == old(open) && opens == old(opens) && closes == old(closes)
    {
      writes := writes + [data];
      n := reply.count;
      err := if reply.failed then Some(PortFailure) else None;
    }

    /** Close the device; the connection ends whether or not the device reports an error. */
    method Close(ok: bool) returns (err: Option<PortError>)
      modifies this
      ensures err.None? <==> ok
      ensures !open
      ensures writes == old(writes) && opens == old(opens) && closes == old(closes) + 1
    {
      open := false;
      closes := closes + 1;
      err := if ok then None else Some(PortFailure);
    }
  }
}
