# escpos-usb-server, modelled in Dafny

The repository is a bridge from TCP to a USB thermal printer. A forwarding server accepts TCP
connections and passes the raw ESC/POS bytes of every connection to one printer device. This
project models three parts of it:

- the server's lifecycle: `Start`, `StartAsync`, `Stop`, `IsRunning` and `Address`;
- its accept loop and its per-connection forwarding loop, together with the in-flight counter
  that `Stop` waits on;
- the USB adapter's open/closed state machine and its descriptor searches, plus the in-memory
  device that the server tests use.

Module layout (one file each):

- `common.dfy` (`Common`): the byte type, `Option`, and `Flatten`, which concatenates chunks.
- `port.dfy` (`DevicePort`): the `Port` class. This is the device interface as the server uses it
  (open, write, close, is-open). The device's outcome for each call is a parameter, so one class
  stands for every implementation.
- `forwarding.dfy` (`Forwarding`): the forwarding loop (`Forward`) over a 4096-byte buffer. Its
  behaviour is stated by the functions `Calls` (the write calls it makes) and `ExitOf` (why it
  stops); the lemmas about them are here too.
- `server.dfy` (`ForwardingServer`): the `Server` class with `running`, `listenerOpen` and
  `inFlight`. Two ghost counters stand beside them: `handlers` counts live connection tasks, and
  `leaked` counts additions to the counter that nothing releases. `Valid()` ties them together:
  the server is running exactly when it holds a listener, and `inFlight == handlers + leaked`.
- `usb.dfy` (`Usb`): the USB device descriptors as plain data, the printer and serial searches,
  `FindPrinters`, the adapter constructors, and the `UsbAdapter` class.
- `mock.dfy` (`Mock`): `MockAdapter`, the in-memory byte sink used by the tests.
- `scenarios.dfy` (`Scenarios`): the server tests' scenarios, each run on fresh objects, and
  `Agrees`, which ties the in-memory mock to a `Port` given the mock's outcomes, call by call.

How concurrency is represented: each mutex-guarded method body is one atomic method, and each
goroutine is a method that can be called on its own. `AcceptConnections` runs turns of the accept
loop; `RunHandler` runs one turn of a connection task. Stop waits for the counter to reach zero;
when it cannot finish at once it returns `Blocked`, and `CompleteStop` is the rest of that call.
`CompleteStop` can only run once the counter is zero. A successful `Start` corresponds to entering
the accept loop: the Go call returns nil when `AcceptConnections` reports that the loop exited.

Behaviour of the code worth knowing before reading the contracts:

- Short writes. The count that `Write` returns is ignored: a short write is neither retried nor
  treated as an error, and the task stops only when the error is non-nil
  (server/server.go:192-197). `ReportedCountIgnored` states this.
- Write serialization. The server takes no lock around writes; the USB adapter's own mutex
  serializes them (adapter/usb.go:292-293). The in-memory mock has no lock at all.
- The drain. `Stop` waits for connection tasks, and also for the count that `StartAsync` adds,
  which nothing releases (see Findings).

Other behaviour modelled as written:

- `UsbAdapter.Close` does not clear `outEndpoint` or `inEndpoint`. `Open` never overwrites an
  endpoint that is already set, so a second `Open` keeps the endpoints of the first.
- A failed `Open` can leave `iface` and `inEndpoint` set.

## Model

| member | source | states |
|---|---|---|
| `DevicePort.Port.Open` | adapter/adapter.go:5-6 | the device ends open iff it was open or the open succeeds; an error is returned exactly when it fails; one open call is counted |
| `DevicePort.Port.Write` | adapter/adapter.go:8-9 | the data is recorded as one write call; the device's count and error are returned unchanged |
| `DevicePort.Port.Close` | adapter/adapter.go:14-15 | the device ends closed; an error is returned exactly when the close fails; one close call is counted |
| `DevicePort.Port.IsOpen` | adapter/adapter.go:17-18 | reports the open flag |
| `Forwarding.Forward` | server/server.go:174-199 | the device receives exactly the write calls `Calls(conn)`, each copied out of one reused 4096-byte buffer; the exit reason is `ExitOf(conn)` |
| `Forwarding.CallsAreChunks` | server/server.go:175-198 | every write call carries a non-empty chunk of at most 4096 bytes (zero-length reads are skipped); there are no more calls than reads |
| `Forwarding.ForwardedIsPrefix` | server/server.go:177-199 | whatever the stop, the bytes reaching the device are a prefix of the bytes the client's reads delivered: nothing duplicated, reordered or invented (how much of the stream arrives is stated by `CleanForwardsAll` and `ForwardsAllBeforeStop`) |
| `Forwarding.CleanForwardsAll` | server/server.go:177-199 | while no read or write has failed and the client has not closed, every byte read has reached the device, in order, and the task is still reading |
| `Forwarding.ForwardsAllBeforeStop` | server/server.go:177-199 | when the loop stops at end of stream or a read error, the device has received exactly the bytes read before it, in order; at a failed write, those bytes and the chunk whose write failed; the exit is client closed, read failed or write failed accordingly |
| `Forwarding.TurnsCompose` | server/server.go:177-199 | a connection served over several turns makes the calls of each turn one after the other and ends as the later turn does, so the whole-session lemmas apply to turns run by `RunHandler` |
| `Forwarding.NothingAfterExit` | server/server.go:179-196 | after the first read error, end of stream or failed write, later reads and replies change neither the calls made nor the exit |
| `Forwarding.ReportedCountIgnored` | server/server.go:192-197 | the count a write reports is never acted on: a short write without an error is neither retried nor a reason to stop |
| `ForwardingServer.Server.constructor` | server/server.go:26-33 | a new server holds the given device and address, is not running, and has a zero counter |
| `ForwardingServer.Server.IsRunning` | server/server.go:242-246 | reports the running flag |
| `ForwardingServer.Server.Address` | server/server.go:249-251 | reports the address given at construction, in every state |
| `ForwardingServer.Server.GetAdapter` | server/server.go:254-256 | returns the very device given at construction |
| `ForwardingServer.Server.Start` | server/server.go:45-82 | already running: "already running" error, nothing changes; bind failure: error, still stopped; otherwise running, with the device opened iff it was closed; a failed open closes the listener, reverts to stopped and returns an error; `running == listenerOpen` is kept |
| `ForwardingServer.Server.StartAsyncAsWritten` | server/server.go:92-136 | the same start transition, then the counter gains one that nothing releases (`leaked` grows) |
| `ForwardingServer.Server.StartAsync` | server/server.go:92-129 | the start transition with the counter left unchanged, so that Stop waits only for connection tasks |
| `ForwardingServer.Server.AcceptConnections` | server/server.go:139-161 | each accepted connection adds exactly one to the counter and one live task; failed accepts are retried while running; the loop exits at its first accept exactly when the server is not running |
| `ForwardingServer.Server.RunHandler` | server/server.go:164-200 | one task turn forwards `Calls(conn)` to the device; a task that ends releases its count exactly once, and one still reading keeps it |
| `ForwardingServer.Server.CloseAdapterIfOpen` | server/server.go:226-235 | the device is closed only if it was open, and ends closed; the device's close error is returned |
| `ForwardingServer.Server.Stop` | server/server.go:203-239 | not running: returns nil, nothing changes; otherwise stopped with the listener closed; then with a zero counter it closes the device only if open and returns its error, while a non-zero counter leaves the call parked with the device untouched |
| `ForwardingServer.Server.CompleteStop` | server/server.go:222-238 | a parked Stop resumes only at a zero counter, then closes the device only if open and returns its error while staying stopped |
| `Usb.AnyPrinterInterface` | adapter/usb.go:114-121 | true iff some interface has an alternate setting of class 0x07 |
| `Usb.IsPrinter` | adapter/usb.go:98-124 | false for no device or an unreadable configuration; otherwise true iff some alternate setting of some interface has class 0x07 |
| `Usb.FirstPrinterInterface` | adapter/usb.go:239-254 | finds no interface exactly when no interface has a printer-class setting |
| `Usb.FirstPrinterInterfaceIsFirst` | adapter/usb.go:239-250 | the interface chosen is the first, in descriptor order, that has a printer-class setting |
| `Usb.PrinterInterfaceFoundIffPrinter` | adapter/usb.go:252-254 | with a readable configuration, the interface search succeeds iff the device is a printer |
| `Usb.FindPrinterInterface` | adapter/usb.go:239-250 | the nested search loops return the number of the first interface with a printer-class setting |
| `Usb.FirstOpenableIsFirst` | adapter/usb.go:265-278 | the endpoint kept for a direction is the first of that direction that opens; none is kept iff none opens |
| `Usb.SerialIndex` | adapter/usb.go:171-185 | finds the first device whose serial number reads back equal to the one asked for, or reports that none does |
| `Usb.GetDeviceBySerial` | adapter/usb.go:163-186 | enumeration failure is returned as an error; otherwise the first device with the serial, or a "not found" error exactly when no device has it |
| `Usb.FindPrinters` | adapter/usb.go:127-148 | exactly the printer devices, in enumeration order; none when enumeration fails |
| `Usb.NewUSBAdapterAuto` | adapter/usb.go:80-95 | fails with "cannot find printer" exactly when no enumerated device is a printer (or enumeration fails); otherwise a new adapter on the first printer in enumeration order, closed, with no interface, no endpoints and no listeners |
| `Usb.NewUSBAdapter` | adapter/usb.go:55-77 | uses the device with the vendor and product id when it opens; otherwise fails with "cannot find printer" exactly when no enumerated device is a printer, and else uses the first printer; the new adapter is closed, with no interface, no endpoints and no listeners |
| `Usb.UsbAdapter.On` | adapter/usb.go:189-194 | the handler is appended to its event type's list, earlier handlers keep their order, other types are untouched |
| `Usb.UsbAdapter.Open` | adapter/usb.go:209-288 | keeps `Valid()` (an open adapter has an interface and an OUT endpoint); already open: "device already open"; no device: "device not found"; unreadable configuration, no printer interface, or a failed claim: an error with nothing changed; otherwise the first printer interface is claimed, each endpoint field keeps an endpoint already set or takes the first of its direction that opens, and the adapter opens (emitting a connect event) iff an OUT endpoint is set; every error leaves it not open |
| `Usb.UsbAdapter.Write` | adapter/usb.go:291-311 | not open: 0 and "device not open"; no OUT endpoint: 0 and an error; otherwise a data event, the data handed to the endpoint, and the endpoint's count passed back even alongside its error |
| `Usb.UsbAdapter.Read` | adapter/usb.go:314-332 | not open: 0 and "device not open"; no IN endpoint: 0 and an error; otherwise the delivered bytes land at the front of the buffer and their count is returned even alongside the endpoint's error |
| `Usb.UsbAdapter.Close` | adapter/usb.go:335-370 | ends `Valid()`; closed: nil, nothing changes; open: ends not open with no interface, even when closing the device or the context fails, whose errors are counted into the result; the endpoint fields are kept |
| `Usb.UsbAdapter.IsOpen` | adapter/usb.go:373-377 | reports the open flag |
| `Usb.UsbAdapter.GetDevice` | adapter/usb.go:380-382 | returns the adapter's device |
| `Mock.MockAdapter.Open` | server/server_test.go:19-22 | always opens and never fails |
| `Mock.MockAdapter.Write` | server/server_test.go:24-27 | appends the data to `writeData` and returns its length with no error |
| `Mock.MockAdapter.Read` | server/server_test.go:29-31 | returns 0 and no error |
| `Mock.MockAdapter.Close` | server/server_test.go:33-36 | always closes and never fails |
| `Mock.MockAdapter.IsOpen` | server/server_test.go:38-40 | reports the open flag |
| `Scenarios.OpenAgrees` | server/server_test.go:19-22 | from agreeing states (same open flag, the mock holding the bytes the Port received), opening both gives the same result and keeps them agreeing |
| `Scenarios.WriteAgrees` | server/server_test.go:24-27 | from agreeing states, writing the same data to the mock and to a Port answering with its full length gives the same count and error and keeps them agreeing |
| `Scenarios.CloseAgrees` | server/server_test.go:33-36 | from agreeing states, closing both gives the same result and keeps them agreeing |
| `Scenarios.IsOpenAgrees` | server/server_test.go:38-40 | agreeing devices report the same liveness |
| `Scenarios.NewServerScenario` | server/server_test.go:42-52 | a new server reports its address, is not running and returns its device |
| `Scenarios.StartStopScenario` | server/server_test.go:54-80 | start runs with the device open; a second start fails with "already running"; stop returns nil, not running, device closed; a second stop returns nil; the device was opened exactly once and closed exactly once |
| `Scenarios.StartStopAsWrittenScenario` | server/server_test.go:61-79 | with StartAsync as written, the first Stop stays parked with a counter that cannot reach zero; a second Stop returns nil |
| `Scenarios.HelloScenario` | server/server_test.go:82-111 | one client sending "Hello, Printer!" leaves exactly those 15 bytes on the device |
| `Scenarios.ThreeClientsScenario` | server/server_test.go:113-147 | three clients sending one byte each leave three bytes on the device |
| `Scenarios.InvalidAddressScenario` | server/server_test.go:198-205 | an address that cannot be bound makes start fail and the server is not running |
| `Scenarios.OpenFailureScenario` | server/server.go:114-123 | a failing device open makes start fail, with the server not running and the listener released, and a later start succeeds |
| `Scenarios.BlockingStartAsWrittenScenario` | server/server_test.go:207-240 | Stop called while the test's client is still connected stays parked, because that connection's task is still reading |
| `Scenarios.BlockingStartScenario` | server/server_test.go:207-249 | with the client closed before Stop, Stop returns nil and the accept loop (so the blocking Start) then returns |

## Findings

| source | as written | input that shows it | evidently intended | confidence | as-written member | corrected member |
|---|---|---|---|---|---|---|
| server/server.go:131 | `StartAsync` adds 1 to the wait group for the accept goroutine, and `acceptConnections` never calls `Done`, so `Stop`'s `wg.Wait()` never returns after `StartAsync` | `StartAsync()` then `Stop()` with no client, as in server/server_test.go:61-72 | `Stop` waits only for connection tasks (the comment at server/server.go:221 says so), so the test's `Stop` returns nil | high (not executed) | `Scenarios.StartStopAsWrittenScenario` (uses `ForwardingServer.Server.StartAsyncAsWritten`) | `Scenarios.StartStopScenario` (uses `ForwardingServer.Server.StartAsync`) |
| server/server_test.go:226-240 | the test calls `Stop` while its client connection is still open; its deferred `conn.Close()` runs only after `Stop` returns, and that connection's task is blocked reading, so the drain never ends | `Start()`, one client sends "Blocking test" and stays connected, then `Stop()` | the client closes before `Stop`, and `Stop` and `Start` then return nil | medium (not executed) | `Scenarios.BlockingStartAsWrittenScenario` | `Scenarios.BlockingStartScenario` |

## Left out

- Logging: every `logger.Printf`/`log.Println` call is advisory and is left out. `NewWithLogger` differs from `New` only in its logger.
- The process entry point (main.go) is not part of this model. It covers environment configuration, `panic` and the deferred close.
- The USB library. These calls are replaced by descriptor data (`UsbDevice`, `InterfaceDesc`,
  `EndpointDesc`) and by outcome parameters:
  - reading the active configuration;
  - `SetAutoDetach`;
  - claiming the interface (the `claim` parameter of `Open`);
  - opening the endpoints;
  - the transfers themselves;
  - closing the interface, the device and the context.
- The library context is always present, because both constructors create it. So `Close` always closes it.
- Closing the devices that are not returned: non-printers in `FindPrinters`, the other devices in `GetDeviceBySerial`. Closing the configuration descriptor. These are library resource releases with no effect on the adapter's state.
- `GetDeviceByVIDPID` (adapter/usb.go:151-160): a single library call with a nil check, called by nothing in the core. It is left out. `NewUSBAdapter` does not use it; the `byId` parameter is the outcome of its own `OpenDeviceWithVIDPID` call (adapter/usb.go:63-64).
- `emit`: events are recorded in order in the ghost `events` log. Each one dispatches `HandlersFor` its type. The handlers themselves are not run, because `emit` starts them as fire-and-forget goroutines.
- Sockets. `net.Listen`, `Accept`, `conn.Read` and the socket closes are parameters:
  - whether binding succeeds;
  - a sequence of accept outcomes;
  - a sequence of read results per task turn.
  Closing the listener is the `listenerOpen` flag; remote addresses appear only in logs.
- Concurrency:
  - goroutines, the mutexes and the wait group's blocking are represented as call sequences of atomic steps;
  - a connection task's turn (`RunHandler`) runs as one step, so chunks of different connections interleave only between turns;
  - the window in `Stop` between releasing the lock and closing the listener is treated as atomic;
  - data races are not represented. Because each turn is atomic, the model serializes every write, including `MockAdapter.Write`'s unlocked append to `writeData` (server/server_test.go:24-27). In the three-client test three connection tasks run that append concurrently, and the model cannot show that race.
- The `time.Sleep` waits and the hardware-dependent adapter tests (adapter/usb_test.go). Their assertions are covered by the adapter contracts.
