/**
 * The server test scenarios, each run on a fresh server and device. The
 * device is a Port given the outcomes the in-memory mock always gives
 * (open and close succeed, a write reports its full length);
 * Agrees and the methods beside it show the two stay in step over any
 * sequence of calls.
 */
module Scenarios {
  import opened Common
  import opened DevicePort
  import opened Forwarding
  import opened ForwardingServer
  import opened Mock

  /** "Hello, Printer!" as bytes. */
  const Hello: seq<byte> := [72, 101, 108, 108, 111, 44, 32, 80, 114, 105, 110, 116, 101, 114, 33]

  /** "Blocking test" as bytes. */
  const BlockingTest: seq<byte> := [66, 108, 111, 99, 107, 105, 110, 103, 32, 116, 101, 115, 116]

  /** The mock's answer to a write of `data`: its full length, no error. */
  function MockReply(data: seq<byte>): WriteReply
  {
    WriteReply(|data|, false)
  }

  /** A client's read of `data`, forwarded to a device that behaves as the mock. */
  function Chunk(data: seq<byte>): Exchange
  {
    Exchange(ReadResult(data, None), MockReply(data))
  }

  /** The read that reports the client has closed its end. */
  const Eof := Exchange(ReadResult([], Some(EndOfStream)), WriteReply(0, false))

  /**
   * The mock device and a Port answering with the mock's outcomes are in the
   * same state: the same open flag, and the mock holds the bytes the Port
   * was handed.
   */
  predicate Agrees(m: MockAdapter, p: Port)
    reads m, p
  {
    m.open == p.open && m.writeData == p.Received()
  }

  /** Opening both keeps them in agreement, with the same result. */
  method OpenAgrees(m: MockAdapter, p: Port) returns (mockErr: Option<PortError>, portErr: Option<PortError>)
    requires Agrees(m, p)
    modifies m, p
    ensures Agrees(m, p) && mockErr == portErr
  {
    mockErr := m.Open();
    portErr := p.Open(true);
  }

  /** Writing the same data to both keeps them in agreement, with the same count and error. */
  method WriteAgrees(m: MockAdapter, p: Port, data: seq<byte>)
    returns (mockN: nat, mockErr: Option<PortError>, portN: nat, portErr: Option<PortError>)
    requires Agrees(m, p)
    modifies m, p
    ensures Agrees(m, p) && mockN == portN && mockErr == portErr
  {
    mockN, mockErr := m.Write(data);
    FlattenAppend(p.writes, data);
    portN, portErr := p.Write(data, MockReply(data));
  }

  /** Closing both keeps them in agreement, with the same result. */
  method CloseAgrees(m: MockAdapter, p: Port) returns (mockErr: Option<PortError>, portErr: Option<PortError>)
    requires Agrees(m, p)
    modifies m, p
    ensures Agrees(m, p) && mockErr == portErr
  {
    mockErr := m.Close();
    portErr := p.Close(true);
  }

  /** Agreeing devices report the same liveness. */
  method IsOpenAgrees(m: MockAdapter, p: Port) returns (mockOpen: bool, portOpen: bool)
    requires Agrees(m, p)
    ensures mockOpen == portOpen
  {
    mockOpen := m.IsOpen();
    portOpen := p.IsOpen();
  }

  /** A new server reports its address, is not running and holds the given device. */
  method NewServerScenario(address: string) returns (reported: string, running: bool, sameAdapter: bool)
    ensures reported == address && !running && sameAdapter
  {
    var p := new Port();
    var s := new Server(p, address);
    reported := s.Address();
    running := s.IsRunning();
    var a := s.GetAdapter();
    sameAdapter := a == p;
  }

  /** Start without blocking, start again, stop, stop again: the sequence the start/stop test expects. */
  method StartStopScenario() returns (
    started: Option<ServerError>, runningAfterStart: bool, openAfterStart: bool,
    restarted: Option<ServerError>,
    stopped: StopOutcome, runningAfterStop: bool, openAfterStop: bool,
    stoppedAgain: StopOutcome, opens: nat, closes: nat)
    ensures started == None && runningAfterStart && openAfterStart
    ensures restarted == Some(AlreadyRunning)
    ensures stopped == Returned(None) && !runningAfterStop && !openAfterStop
    ensures stoppedAgain == Returned(None)
    ensures opens == 1 && closes == 1
  {
    var p := new Port();
    var s := new Server(p, "localhost:9101");
    started := s.StartAsync(true, true);
    runningAfterStart := s.IsRunning();
    openAfterStart := p.IsOpen();
    restarted := s.StartAsync(true, true);
    stopped := s.Stop(true);
    runningAfterStop := s.IsRunning();
    openAfterStop := p.IsOpen();
    stoppedAgain := s.Stop(true);
    opens, closes := p.opens, p.closes;
  }

  /**
   * The same sequence with StartAsync as written: the first Stop stays parked
   * in the drain wait, and the count it waits on cannot reach zero, while a
   * second Stop returns at once.
   */
  method StartStopAsWrittenScenario() returns (
    started: Option<ServerError>, stopped: StopOutcome, runningAfterStop: bool,
    pending: nat, stoppedAgain: StopOutcome)
    ensures started == None
    ensures stopped == Blocked && !runningAfterStop
    ensures pending >= 1
    ensures stoppedAgain == Returned(None)
  {
    var p := new Port();
    var s := new Server(p, "localhost:9101");
    started := s.StartAsyncAsWritten(true, true);
    stopped := s.Stop(true);
    runningAfterStop := s.IsRunning();
    pending := s.inFlight;
    stoppedAgain := s.Stop(true);
  }

  /** One client sends "Hello, Printer!" and closes: the device holds exactly those 15 bytes. */
  method HelloScenario() returns (received: seq<byte>, exit: Exit, stopped: StopOutcome)
    ensures received == Hello && |received| == 15
    ensures exit == ClientClosed
    ensures stopped == Returned(None)
  {
    var p := new Port();
    var s := new Server(p, "localhost:9102");
    var started := s.StartAsync(true, true);
    var exited := s.AcceptConnections([Accepted]);
    assert multiset([Accepted])[Accepted] == 1;
    var conn := [Chunk(Hello), Eof];
    assert Calls(conn) == [Hello] by {
      assert conn[1..] == [Eof];
    }
    exit := s.RunHandler(conn);
    assert ExitOf(conn) == ClientClosed by {
      assert conn[1..] == [Eof];
    }
    received := p.Received();
    assert received == Hello by {
      assert p.writes == [Hello];
      assert Flatten([Hello]) == Hello + Flatten([]);
    }
    stopped := s.Stop(true);
  }

  /** Three clients each send one byte: the device holds three bytes, whatever the order. */
  method ThreeClientsScenario() returns (count: nat, stopped: StopOutcome)
    ensures count == 3
    ensures stopped == Returned(None)
  {
    var p := new Port();
    var s := new Server(p, "localhost:9103");
    var started := s.StartAsync(true, true);
    var exited := s.AcceptConnections([Accepted, Accepted, Accepted]);
    assert multiset([Accepted, Accepted, Accepted])[Accepted] == 3;
    var i: nat := 0;
    while i < 3
      invariant i <= 3
      invariant s.Valid() && s.handlers == 3 && s.inFlight == 3 && s.running
      invariant s.leaked == 0 && s.parkedStops == 0 && p.open
      invariant |Flatten(p.writes)| == i
      modifies s, p
    {
      var data: seq<byte> := [i + 1];
      var conn := [Chunk(data)];
      assert Calls(conn) == [data] by {
        assert conn[1..] == [];
      }
      assert ExitOf(conn) == StillReading by {
        assert conn[1..] == [];
      }
      FlattenAppend(p.writes, data);
      var exit := s.RunHandler(conn);
      i := i + 1;
    }
    count := |p.Received()|;
    // The clients close their connections, then the server stops.
    var k := 0;
    while k < 3
      invariant k <= 3
      invariant s.Valid() && s.handlers == 3 - k && s.inFlight == 3 - k && s.running
      invariant s.leaked == 0 && s.parkedStops == 0 && p.open
      modifies s, p
    {
      var exit := s.RunHandler([Eof]);
      k := k + 1;
    }
    stopped := s.Stop(true);
  }

  /** Binding an invalid address fails and the server does not run. */
  method InvalidAddressScenario() returns (started: Option<ServerError>, running: bool)
    ensures started == Some(BindFailed) && !running
  {
    var p := new Port();
    var s := new Server(p, "invalid:address:9100");
    started := s.StartAsync(false, true);
    running := s.IsRunning();
  }

  /**
   * The device fails to open: the start is undone, the listener released,
   * and a later start on the same address succeeds.
   */
  method OpenFailureScenario() returns (
    started: Option<ServerError>, running: bool, listening: bool, restarted: Option<ServerError>)
    ensures started == Some(AdapterOpenFailed) && !running && !listening
    ensures restarted == None
  {
    var p := new Port();
    var s := new Server(p, "localhost:9106");
    started := s.StartAsync(true, false);
    running := s.IsRunning();
    listening := s.listenerOpen;
    restarted := s.StartAsync(true, true);
  }

  /**
   * The blocking-start test as written: Stop is called while its client is
   * still connected, so that connection's task is still reading and Stop
   * stays parked in the drain wait.
   */
  method BlockingStartAsWrittenScenario() returns (started: Option<ServerError>, exit: Exit, stopped: StopOutcome)
    ensures started == None && exit == StillReading
    ensures stopped == Blocked
  {
    var p := new Port();
    var s := new Server(p, "localhost:9105");
    started := s.Start(true, true);
    var exited := s.AcceptConnections([Accepted]);
    assert multiset([Accepted])[Accepted] == 1;
    var conn := [Chunk(BlockingTest)];
    assert ExitOf(conn) == StillReading by {
      assert conn[1..] == [];
    }
    exit := s.RunHandler(conn);
    stopped := s.Stop(true);
  }

  /**
   * The blocking-start test with the client closing before Stop: Stop
   * returns, and the accept loop, and with it Start, then returns too.
   */
  method BlockingStartScenario() returns (
    started: Option<ServerError>, received: seq<byte>, stopped: StopOutcome, startReturned: bool)
    ensures started == None && received == BlockingTest
    ensures stopped == Returned(None) && startReturned
  {
    var p := new Port();
    var s := new Server(p, "localhost:9105");
    started := s.Start(true, true);
    var exited := s.AcceptConnections([Accepted]);
    assert multiset([Accepted])[Accepted] == 1;
    var conn := [Chunk(BlockingTest), Eof];
    assert Calls(conn) == [BlockingTest] && ExitOf(conn) == ClientClosed by {
      assert conn[1..] == [Eof];
    }
    var exit := s.RunHandler(conn);
    received := p.Received();
    assert received == BlockingTest by {
      assert p.writes == [BlockingTest];
      assert Flatten([BlockingTest]) == BlockingTest + Flatten([]);
    }
    stopped := s.Stop(true);
    startReturned := s.AcceptConnections([AcceptFailed]);
  }
}
