/**
 * The forwarding server: its lifecycle (start, start without blocking,
 * stop), its accept loop and its count of in-flight tasks.
 *
 * Every mutex-guarded body of the server is one atomic method here, and
 * concurrent activity is a sequence of calls: AcceptConnections is a turn
 * of the accept loop, RunHandler a turn of one connection's task, and a
 * Stop that has to wait for the count to drain returns Blocked and is
 * finished later by CompleteStop.
 */
module ForwardingServer {
  import opened Common
  import opened DevicePort
  import opened Forwarding

  /** Errors returned to the caller of Start, StartAsync and Stop. */
  datatype ServerError = AlreadyRunning | BindFailed | AdapterOpenFailed | AdapterCloseFailed

  /** What the listener's accept gives while it is open. */
  datatype AcceptOutcome = Accepted | AcceptFailed

  /** A Stop call either returns, or is parked in the drain wait. */
  datatype StopOutcome = Returned(err: Option<ServerError>) | Blocked

  class Server {
    const address: string
    const adapter: Port
    var running: bool
    /** Whether the server holds a bound, not yet closed, listener. */
    var listenerOpen: bool
    /** The in-flight counter that Stop waits on. */
    var inFlight: nat
    /** Connection tasks accepted and not yet finished. */
    ghost var handlers: nat
    /** Counts added to inFlight that no task will ever release. */
    ghost var leaked: nat
    /** Stop calls parked in the drain wait. */
    ghost var parkedStops: nat

    /** Running exactly when a listener is bound; the counter is the live tasks plus what was never released. */
    ghost predicate Valid()
      reads this
    {
      running == listenerOpen && inFlight == handlers + leaked
    }

    constructor (device: Port, address: string)
      ensures Valid()
      ensures this.adapter == device && this.address == address
      ensures !running && inFlight == 0 && handlers == 0 && leaked == 0 && parkedStops == 0
    {
      this.adapter := device;
      this.address := address;
      running := false;
      listenerOpen := false;
      inFlight := 0;
      handlers := 0;
      leaked := 0;
      parkedStops := 0;
    }

    method IsRunning() returns (b: bool)
      ensures b == running
    {
      b := running;
    }

    method Address() returns (a: string)
      ensures a == address
    {
      a := address;
    }

    method GetAdapter() returns (p: Port)
      ensures p == adapter
    {
      p := adapter;
    }

    /**
     * The start transition, given whether binding the address succeeds and
     * whether opening the device would succeed.
     */
    twostate predicate Launched(bindOk: bool, openOk: bool, new err: Option<ServerError>)
      reads this, adapter
    {
      && adapter.writes == old(adapter.writes) && adapter.closes == old(adapter.closes)
      && (old(running) ==>
            err == Some(AlreadyRunning) && running && adapter.open == old(adapter.open)
            && adapter.opens == old(adapter.opens))
      && (!old(running) && !bindOk ==>
            err == Some(BindFailed) && !running && adapter.open == old(adapter.open)
            && adapter.opens == old(adapter.opens))
      && (!old(running) && bindOk ==>
            adapter.opens == old(adapter.opens) + (if old(adapter.open) then 0 else 1))
      && (!old(running) && bindOk && !old(adapter.open) && !openOk ==>
            err == Some(AdapterOpenFailed) && !running && !adapter.open)
      && (!old(running) && bindOk && (old(adapter.open) || openOk) ==>
            err == None && running && adapter.open)
    }

    /**
     * Start in blocking mode, up to the point where it enters the accept
     * loop; a successful Start then runs as AcceptConnections and returns
     * nil when that loop exits.
     */
    method Start(bindOk: bool, openOk: bool) returns (err: Option<ServerError>)
      requires Valid()
      modifies this, adapter
      ensures Valid() && Launched(bindOk, openOk, err)
      ensures inFlight == old(inFlight) && handlers == old(handlers)
      ensures leaked == old(leaked) && parkedStops == old(parkedStops)
    {
      if running {
        return Some(AlreadyRunning);
      }
      if !bindOk {
        return Some(BindFailed);
      }
      listenerOpen := true;
      running := true;
      var isOpen := adapter.IsOpen();
      if !isOpen {
        var openErr := adapter.Open(openOk);
        if openErr.Some? {
          listenerOpen := false;
          running := false;
          return Some(AdapterOpenFailed);
        }
      }
      return None;
    }

    /**
     * StartAsync as written: the same start transition, then one count
     * added to the in-flight counter for the accept goroutine, which never
     * releases it.
     */
    method StartAsyncAsWritten(bindOk: bool, openOk: bool) returns (err: Option<ServerError>)
      requires Valid()
      modifies this, adapter
      ensures Valid() && Launched(bindOk, openOk, err)
      ensures handlers == old(handlers) && parkedStops == old(parkedStops)
      ensures leaked == old(leaked) + (if err.None? then 1 else 0)
      ensures inFlight == old(inFlight) + (if err.None? then 1 else 0)
    {
      err := Start(bindOk, openOk);
      if err.None? {
        inFlight := inFlight + 1;
        leaked := leaked + 1;
      }
    }

    /**
     * StartAsync with the accept goroutine left out of the in-flight
     * counter, so that Stop waits for connection tasks only.
     */
    method StartAsync(bindOk: bool, openOk: bool) returns (err: Option<ServerError>)
      requires Valid()
      modifies this, adapter
      ensures Valid() && Launched(bindOk, openOk, err)
      ensures inFlight == old(inFlight) && handlers == old(handlers)
      ensures leaked == old(leaked) && parkedStops == old(parkedStops)
    {
      err := Start(bindOk, openOk);
    }

    /**
     * Turns of the accept loop, one per element of `outcomes`. Each accepted
     * connection adds one to the counter and starts a task; a failed accept
     * is retried while the server runs and ends the loop once it does not.
     * A closed listener fails every accept.
     */
    method AcceptConnections(outcomes: seq<AcceptOutcome>) returns (exited: bool)
      requires Valid()
      modifies this
      ensures Valid()
      ensures exited == (!old(running) && |outcomes| > 0)
      ensures running == old(running) && listenerOpen == old(listenerOpen)
      ensures leaked == old(leaked) && parkedStops == old(parkedStops)
      ensures handlers == old(handlers) + (if old(running) then multiset(outcomes)[Accepted] else 0)
      ensures inFlight == old(inFlight) + (if old(running) then multiset(outcomes)[Accepted] else 0)
    {
      exited := false;
      var i := 0;
      while i < |outcomes|
        invariant 0 <= i <= |outcomes|
        invariant Valid()
        invariant running == old(running) && listenerOpen == old(listenerOpen)
        invariant leaked == old(leaked) && parkedStops == old(parkedStops)
        invariant !running ==> i == 0 && handlers == old(handlers)
        invariant running ==> handlers == old(handlers) + multiset(outcomes[..i])[Accepted]
        decreases |outcomes| - i
      {
        assert outcomes[..i + 1] == outcomes[..i] + [outcomes[i]];
        if !listenerOpen || outcomes[i] == AcceptFailed {
          if !running {
            exited := true;
            return;
          }
        } else {
          inFlight := inFlight + 1;
          handlers := handlers + 1;
        }
        i := i + 1;
      }
      assert outcomes[..i] == outcomes;
    }

    /**
     * One turn of a live connection task over the reads `conn` gives. A task
     * that ends releases its count exactly once; one whose reads run out is
     * still blocked reading and keeps it.
     */
    method RunHandler(conn: seq<Exchange>) returns (exit: Exit)
      requires Valid() && handlers > 0 && FitsBuffer(conn)
      modifies this, adapter
      ensures Valid()
      ensures exit == ExitOf(conn)
      ensures adapter.writes == old(adapter.writes) + Calls(conn)
      ensures adapter.open == old(adapter.open) && adapter.opens == old(adapter.opens)
      ensures adapter.closes == old(adapter.closes)
      ensures running == old(running) && listenerOpen == old(listenerOpen)
      ensures leaked == old(leaked) && parkedStops == old(parkedStops)
      ensures handlers == old(handlers) - (if exit == StillReading then 0 else 1)
      ensures inFlight == old(inFlight) - (if exit == StillReading then 0 else 1)
    {
      exit := Forward(adapter, conn);
      if exit != StillReading {
        inFlight := inFlight - 1;
        handlers := handlers - 1;
      }
    }

    /** The end of a stop, once the drain is over: close the device if it is open. */
    twostate predicate Drained(closeOk: bool, new r: StopOutcome)
      reads this, adapter
    {
      && !adapter.open
      && adapter.closes == old(adapter.closes) + (if old(adapter.open) then 1 else 0)
      && adapter.writes == old(adapter.writes) && adapter.opens == old(adapter.opens)
      && r == Returned(if old(adapter.open) && !closeOk then Some(AdapterCloseFailed) else None)
    }

    method CloseAdapterIfOpen(closeOk: bool) returns (err: Option<ServerError>)
      modifies adapter
      ensures Drained(closeOk, Returned(err))
    {
      err := None;
      var isOpen := adapter.IsOpen();
      if isOpen {
        var closeErr := adapter.Close(closeOk);
        if closeErr.Some? {
          err := Some(AdapterCloseFailed);
        }
      }
    }

    /**
     * Stop: nothing when not running; otherwise mark stopped, close the
     * listener, wait for the counter to reach zero, then close the device
     * if it is open and return its error. While the counter is not zero
     * the call stays parked (Blocked).
     */
    method Stop(closeOk: bool) returns (r: StopOutcome)
      requires Valid()
      modifies this, adapter
      ensures Valid()
      ensures inFlight == old(inFlight) && handlers == old(handlers) && leaked == old(leaked)
      ensures !old(running) ==> r == Returned(None) && unchanged(this) && unchanged(adapter)
      ensures old(running) ==> !running && !listenerOpen
      ensures old(running) && old(inFlight) > 0 ==>
                r == Blocked && parkedStops == old(parkedStops) + 1 && unchanged(adapter)
      ensures old(running) && old(inFlight) == 0 ==>
                parkedStops == old(parkedStops) && Drained(closeOk, r)
    {
      if !running {
        return Returned(None);
      }
      running := false;
      listenerOpen := false;
      if inFlight > 0 {
        parkedStops := parkedStops + 1;
        return Blocked;
      }
      var err := CloseAdapterIfOpen(closeOk);
      r := Returned(err);
    }

    /** A parked Stop resumes once the counter has reached zero. */
    method CompleteStop(closeOk: bool) returns (r: StopOutcome)
      requires Valid() && parkedStops > 0 && inFlight == 0
      modifies this, adapter
      ensures Valid()
      ensures running == old(running) && listenerOpen == old(listenerOpen)
      ensures inFlight == old(inFlight) && handlers == old(handlers) && leaked == old(leaked)
      ensures parkedStops == old(parkedStops) - 1
      ensures Drained(closeOk, r)
    {
      parkedStops := parkedStops - 1;
      var err := CloseAdapterIfOpen(closeOk);
      r := Returned(err);
    }
  }
}
