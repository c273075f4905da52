/**
 * The USB printer adapter: the descriptor searches it performs and the
 * open/closed state machine behind Open, Write, Read, Close and IsOpen.
 * The USB library is reduced to plain descriptor data and to outcome
 * parameters for the calls whose result only the hardware decides.
 */
module Usb {
  import opened Common

  /** USB interface class codes. */
  const IfaceClassAudio := 0x01
  const IfaceClassHID := 0x03
  const IfaceClassPrinter := 0x07
  const IfaceClassHub := 0x09

  datatype EventType = EventConnect | EventDisconnect | EventDetach | EventData | EventClose

  /** The identity of a registered event callback. */
  type Handler = nat

  datatype Direction = DirectionIn | DirectionOut

  /** An endpoint of the claimed interface setting, and whether opening it succeeds. */
  datatype EndpointDesc = EndpointDesc(number: nat, direction: Direction, openable: bool)

  /** An interface of the active configuration: its number and the class of each alternate setting. */
  datatype InterfaceDesc = InterfaceDesc(number: nat, altClasses: seq<nat>)

  /**
   * A USB device as the adapter sees it: the interfaces of its active
   * configuration (None when reading the configuration fails) and its
   * serial number (None when reading it fails).
   */
  datatype UsbDevice = UsbDevice(config: Option<seq<InterfaceDesc>>, serial: Option<string>)

  datatype UsbError =
    | CannotFindPrinter
    | DeviceAlreadyOpen
    | DeviceNotFound
    | ConfigUnavailable
    | NoPrinterInterface
    | ClaimFailed
    | NoOutputEndpoint
    | DeviceNotOpen
    | OutputEndpointUnavailable
    | InputEndpointUnavailable
    | TransferFailed
    | CloseErrors(count: nat)
    | EnumerationFailed
    | SerialNotFound

  datatype Result<T> = Ok(value: T) | Err(error: UsbError)

  /** What an OUT endpoint reports for one transfer. */
  datatype OutTransfer = OutTransfer(count: nat, failed: bool)

  /** What an IN endpoint delivers for one transfer. */
  datatype InTransfer = InTransfer(data: seq<byte>, failed: bool)

  predicate HasPrinterAlt(iface: InterfaceDesc)
  {
    IfaceClassPrinter in iface.altClasses
  }

  /** Whether some interface has an alternate setting of the printer class. */
  function AnyPrinterInterface(ifaces: seq<InterfaceDesc>): (b: bool)
    ensures b <==> exists i :: 0 <= i < |ifaces| && HasPrinterAlt(ifaces[i])
  {
    if ifaces == [] then false
    else if HasPrinterAlt(ifaces[0]) then true
    else
      var rest := AnyPrinterInterface(ifaces[1..]);
      assert forall i :: 1 <= i < |ifaces| ==> ifaces[i] == ifaces[1..][i - 1];
      rest
  }

  /** A device is a printer when its active configuration has an interface with a printer-class setting. */
  function IsPrinter(dev: Option<UsbDevice>): (b: bool)
    ensures b <==> dev.Some? && dev.value.config.Some?
                   && exists i :: 0 <= i < |dev.value.config.value| && HasPrinterAlt(dev.value.config.value[i])
  {
    match dev
    case None => false
    case Some(d) =>
      match d.config
      case None => false
      case Some(ifaces) => AnyPrinterInterface(ifaces)
  }

  /** The number of the first interface, in descriptor order, with a printer-class setting. */
  function FirstPrinterInterface(ifaces: seq<InterfaceDesc>): (r: Option<nat>)
    ensures r.None? <==> !AnyPrinterInterface(ifaces)
  {
    if ifaces == [] then None
    else if HasPrinterAlt(ifaces[0]) then Some(ifaces[0].number)
    else FirstPrinterInterface(ifaces[1..])
  }

  /** The interface chosen is the one at the first index with a printer-class setting. */
  lemma {:induction false} FirstPrinterInterfaceIsFirst(ifaces: seq<InterfaceDesc>, i: nat)
    requires i < |ifaces| && HasPrinterAlt(ifaces[i])
    requires forall j :: 0 <= j < i ==> !HasPrinterAlt(ifaces[j])
    ensures FirstPrinterInterface(ifaces) == Some(ifaces[i].number)
  {
    if i > 0 {
      assert !HasPrinterAlt(ifaces[0]);
      FirstPrinterInterfaceIsFirst(ifaces[1..], i - 1);
    }
  }

  /** Opening a device finds a printer interface exactly when the device is a printer. */
  lemma PrinterInterfaceFoundIffPrinter(dev: UsbDevice)
    requires dev.config.Some?
    ensures FirstPrinterInterface(dev.config.value).Some? <==> IsPrinter(Some(dev))
  {
  }

  /**
   * The interface search of Open, as nested loops over the interfaces and
   * their alternate settings, stopping at the first printer-class setting.
   */
  method FindPrinterInterface(ifaces: seq<InterfaceDesc>) returns (found: Option<nat>)
    ensures found == FirstPrinterInterface(ifaces)
  {
    found := None;
    var i := 0;
    while i < |ifaces|
      invariant 0 <= i <= |ifaces|
      invariant found.None?
      invariant FirstPrinterInterface(ifaces[i..]) == FirstPrinterInterface(ifaces)
      decreases |ifaces| - i
    {
      var alts := ifaces[i].altClasses;
      var j := 0;
      while j < |alts| && alts[j] != IfaceClassPrinter
        invariant 0 <= j <= |alts|
        invariant IfaceClassPrinter !in alts[..j]
        decreases |alts| - j
      {
        assert alts[..j + 1] == alts[..j] + [alts[j]];
        j := j + 1;
      }
      assert ifaces[i..][0] == ifaces[i] && ifaces[i..][1..] == ifaces[i + 1..];
      if j < |alts| {
        found := Some(ifaces[i].number);
        return;
      }
      assert alts[..j] == alts;
      i := i + 1;
    }
  }

  /** The number of the first endpoint of direction `dir` that opens, if any. */
  function FirstOpenable(eps: seq<EndpointDesc>, dir: Direction): (r: Option<nat>)
  {
    if eps == [] then None
    else if eps[0].direction == dir && eps[0].openable then Some(eps[0].number)
    else FirstOpenable(eps[1..], dir)
  }

  /** The endpoint chosen is the first of that direction that opens; none means no such endpoint opens. */
  lemma {:induction false} FirstOpenableIsFirst(eps: seq<EndpointDesc>, dir: Direction)
    ensures FirstOpenable(eps, dir).None? <==>
              forall i :: 0 <= i < |eps| ==> !(eps[i].direction == dir && eps[i].openable)
    ensures FirstOpenable(eps, dir).Some? ==>
              exists i :: 0 <= i < |eps| && eps[i].direction == dir && eps[i].openable
                && eps[i].number == FirstOpenable(eps, dir).value
                && forall j :: 0 <= j < i ==> !(eps[j].direction == dir && eps[j].openable)
  {
    if eps != [] {
      FirstOpenableIsFirst(eps[1..], dir);
      if !(eps[0].direction == dir && eps[0].openable) {
        assert forall i :: 1 <= i < |eps| ==> eps[i] == eps[1..][i - 1];
        if FirstOpenable(eps, dir).Some? {
          var k :| 0 <= k < |eps[1..]| && eps[1..][k].direction == dir && eps[1..][k].openable
                   && eps[1..][k].number == FirstOpenable(eps, dir).value
                   && forall j :: 0 <= j < k ==> !(eps[1..][j].direction == dir && eps[1..][j].openable);
          assert forall j :: 0 <= j < k + 1 ==> !(eps[j].direction == dir && eps[j].openable);
        }
      }
    }
  }

  /** An endpoint field keeps an endpoint already set; otherwise it takes the first one of its direction that opens. */
  function KeepOrFirst(current: Option<nat>, eps: seq<EndpointDesc>, dir: Direction): Option<nat>
  {
    if current.Some? then current else FirstOpenable(eps, dir)
  }

  /** The callbacks registered for an event type, in registration order. */
  function HandlersFor(listeners: map<EventType, seq<Handler>>, t: EventType): seq<Handler>
  {
    if t in listeners then listeners[t] else []
  }

  /** The first device whose serial number reads back as `serial`. */
  function SerialIndex(devs: seq<UsbDevice>, serial: string): (r: Option<nat>)
    ensures r.Some? ==> r.value < |devs| && devs[r.value].serial == Some(serial)
                        && forall j :: 0 <= j < r.value ==> devs[j].serial != Some(serial)
    ensures r.None? ==> forall j :: 0 <= j < |devs| ==> devs[j].serial != Some(serial)
  {
    if devs == [] then None
    else if devs[0].serial == Some(serial) then Some(0)
    else
      match SerialIndex(devs[1..], serial)
      case None => None
      case Some(k) => Some(k + 1)
  }

  /**
   * Look a device up by serial number among the enumerated devices (None
   * when enumeration fails); the result is its position in the enumeration.
   */
  function GetDeviceBySerial(devices: Option<seq<UsbDevice>>, serial: string): (r: Result<nat>)
    ensures devices.None? ==> r == Err(EnumerationFailed)
    ensures devices.Some? && r.Ok? ==>
              r.value < |devices.value| && devices.value[r.value].serial == Some(serial)
              && forall j :: 0 <= j < r.value ==> devices.value[j].serial != Some(serial)
    ensures devices.Some? && r.Err? ==>
              r.error == SerialNotFound
              && forall j :: 0 <= j < |devices.value| ==> devices.value[j].serial != Some(serial)
  {
    match devices
    case None => Err(EnumerationFailed)
    case Some(devs) =>
      match SerialIndex(devs, serial)
      case None => Err(SerialNotFound)
      case Some(k) => Ok(k)
  }

  /** The position of the first enumerated device that is a printer. */
  function FirstPrinterIndex(devs: seq<UsbDevice>): (r: Option<nat>)
    ensures r.Some? ==> r.value < |devs| && IsPrinter(Some(devs[r.value]))
                        && forall j :: 0 <= j < r.value ==> !IsPrinter(Some(devs[j]))
    ensures r.None? ==> forall j :: 0 <= j < |devs| ==> !IsPrinter(Some(devs[j]))
  {
    if devs == [] then None
    else if IsPrinter(Some(devs[0])) then Some(0)
    else
      match FirstPrinterIndex(devs[1..])
      case None => None
      case Some(k) => Some(k + 1)
  }

  /** The device auto-detection picks: the first printer among the enumerated devices, if any. */
  function AutoDetect(devices: Option<seq<UsbDevice>>): Option<UsbDevice>
  {
    if devices.None? then None
    else
      match FirstPrinterIndex(devices.value)
      case None => None
      case Some(k) => Some(devices.value[k])
  }

  /** The positions, in enumeration order, of the enumerated devices that are printers. */
  method FindPrinters(devices: Option<seq<UsbDevice>>) returns (printers: seq<nat>)
    ensures devices.None? ==> printers == []
    ensures devices.Some? ==>
              forall k: nat :: k in printers <==> k < |devices.value| && IsPrinter(Some(devices.value[k]))
    ensures forall a, b :: 0 <= a < b < |printers| ==> printers[a] < printers[b]
  {
    printers := [];
    if devices.None? {
      return;
    }
    var devs := devices.value;
    var i := 0;
    while i < |devs|
      invariant 0 <= i <= |devs|
      invariant forall k: nat :: k in printers <==> k < i && IsPrinter(Some(devs[k]))
      invariant forall a, b :: 0 <= a < b < |printers| ==> printers[a] < printers[b]
      invariant forall a :: 0 <= a < |printers| ==> printers[a] < i
      decreases |devs| - i
    {
      if IsPrinter(Some(devs[i])) {
        printers := printers + [i];
      }
      i := i + 1;
    }
  }

  class UsbAdapter {
    var device: Option<UsbDevice>
    /** Number of the claimed printer interface, if any. */
    var iface: Option<nat>
    var outEndpoint: Option<nat>
    var inEndpoint: Option<nat>
    var eventListeners: map<EventType, seq<Handler>>
    var isOpen: bool
    /** Events emitted so far, in order; each one dispatches HandlersFor its type. */
    ghost var events: seq<EventType>
    /** The data handed to the OUT endpoint, one entry per transfer. */
    ghost var transfers: seq<seq<byte>>

    /** An open adapter has claimed an interface and holds an output endpoint. */
    predicate Valid()
      reads this
    {
      isOpen ==> iface.Some? && outEndpoint.Some?
    }

    /** The state a freshly created adapter is in: closed, nothing claimed or found, no listeners. */
    ghost predicate Unopened()
      reads this
    {
      && !isOpen && iface.None? && outEndpoint.None? && inEndpoint.None?
      && eventListeners == map[] && events == [] && transfers == []
    }

    constructor (device: Option<UsbDevice>)
      ensures this.device == device && Unopened() && Valid()
    {
      this.device := device;
      iface, outEndpoint, inEndpoint := None, None, None;
      eventListeners := map[];
      isOpen := false;
      events, transfers := [], [];
    }

    /** Register a callback for an event type, after those already registered for it. */
    method On(eventType: EventType, handler: Handler)
      modifies this
      ensures HandlersFor(eventListeners, eventType) == HandlersFor(old(eventListeners), eventType) + [handler]
      ensures forall t :: t != eventType ==> HandlersFor(eventListeners, t) == HandlersFor(old(eventListeners), t)
      ensures device == old(device) && isOpen == old(isOpen) && iface == old(iface)
      ensures outEndpoint == old(outEndpoint) && inEndpoint == old(inEndpoint)
      ensures events == old(events) && transfers == old(transfers)
    {
      eventListeners := eventListeners[eventType := HandlersFor(eventListeners, eventType) + [handler]];
    }

    method GetDevice() returns (d: Option<UsbDevice>)
      ensures d == device
    {
      d := device;
    }

    method IsOpen() returns (b: bool)
      ensures b == isOpen
    {
      b := isOpen;
    }

    /**
     * Open the device and claim its printer interface. `claim` is the
     * endpoint list of the claimed interface's setting, or None when
     * claiming fails.
     */
    method Open(claim: Option<seq<EndpointDesc>>) returns (err: Option<UsbError>)
      requires Valid()
      modifies this
      ensures Valid()
      ensures device == old(device) && eventListeners == old(eventListeners) && transfers == old(transfers)
      ensures err.None? <==> isOpen && !old(isOpen)
      ensures old(isOpen) ==> err == Some(DeviceAlreadyOpen) && unchanged(this)
      ensures !old(isOpen) && device.None? ==> err == Some(DeviceNotFound) && unchanged(this)
      ensures !old(isOpen) && device.Some? && device.value.config.None? ==>
                err == Some(ConfigUnavailable) && unchanged(this)
      ensures !old(isOpen) && device.Some? && device.value.config.Some?
              && FirstPrinterInterface(device.value.config.value).None? ==>
                err == Some(NoPrinterInterface) && unchanged(this)
      ensures !old(isOpen) && IsPrinter(device) && claim.None? ==>
                err == Some(ClaimFailed) && unchanged(this)
      ensures !old(isOpen) && IsPrinter(device) && claim.Some? ==>
                && iface == FirstPrinterInterface(device.value.config.value)
                && outEndpoint == KeepOrFirst(old(outEndpoint), claim.value, DirectionOut)
                && inEndpoint == KeepOrFirst(old(inEndpoint), claim.value, DirectionIn)
                && isOpen == outEndpoint.Some?
                && (err.Some? ==> err == Some(NoOutputEndpoint))
                && events == old(events) + (if isOpen then [EventConnect] else [])
    {
      if isOpen {
        return Some(DeviceAlreadyOpen);
      }
      if device.None? {
        return Some(DeviceNotFound);
      }
      if device.value.config.None? {
        return Some(ConfigUnavailable);
      }
      var ifaceNum := FindPrinterInterface(device.value.config.value);
      if ifaceNum.None? {
        return Some(NoPrinterInterface);
      }
      if claim.None? {
        return Some(ClaimFailed);
      }
      iface := ifaceNum;
      var eps := claim.value;
      var i := 0;
      while i < |eps|
        invariant 0 <= i <= |eps|
        invariant KeepOrFirst(outEndpoint, eps[i..], DirectionOut) == KeepOrFirst(old(outEndpoint), eps, DirectionOut)
        invariant KeepOrFirst(inEndpoint, eps[i..], DirectionIn) == KeepOrFirst(old(inEndpoint), eps, DirectionIn)
        invariant old(outEndpoint).Some? ==> outEndpoint == old(outEndpoint)
        invariant old(inEndpoint).Some? ==> inEndpoint == old(inEndpoint)
        invariant device == old(device) && eventListeners == old(eventListeners)
        invariant transfers == old(transfers) && events == old(events) && !isOpen
        invariant iface == ifaceNum
        decreases |eps| - i
      {
        assert eps[i..][0] == eps[i] && eps[i..][1..] == eps[i + 1..];
        if eps[i].direction == DirectionOut && outEndpoint.None? {
          if eps[i].openable {
            outEndpoint := Some(eps[i].number);
          }
        }
        if eps[i].direction == DirectionIn && inEndpoint.None? {
          if eps[i].openable {
            inEndpoint := Some(eps[i].number);
          }
        }
        i := i + 1;
      }
      if outEndpoint.None? {
        return Some(NoOutputEndpoint);
      }
      isOpen := true;
      events := events + [EventConnect];
      err := None;
    }

    /**
     * Send `data` to the printer; `transfer` is what the OUT endpoint reports.
     * In a Valid adapter the missing-endpoint guard never fires.
     */
    method Write(data: seq<byte>, transfer: OutTransfer) returns (n: nat, err: Option<UsbError>)
      modifies this
      ensures device == old(device) && isOpen == old(isOpen) && iface == old(iface)
      ensures outEndpoint == old(outEndpoint) && inEndpoint == old(inEndpoint)
      ensures eventListeners == old(eventListeners)
      ensures !isOpen ==> n == 0 && err == Some(DeviceNotOpen) && unchanged(this)
      ensures isOpen && outEndpoint.None? ==> n == 0 && err == Some(OutputEndpointUnavailable) && unchanged(this)
      ensures isOpen && outEndpoint.Some? ==>
                && n == transfer.count
                && err == (if transfer.failed then Some(TransferFailed) else None)
                && events == old(events) + [EventData]
                && transfers == old(transfers) + [data]
    {
      if !isOpen {
        return 0, Some(DeviceNotOpen);
      }
      if outEndpoint.None? {
        return 0, Some(OutputEndpointUnavailable);
      }
      events := events + [EventData];
      transfers := transfers + [data];
      n := transfer.count;
      err := if transfer.failed then Some(TransferFailed) else None;
    }

    /** Read from the printer into `buf`; `transfer` is what the IN endpoint delivers. */
    method Read(buf: array<byte>, transfer: InTransfer) returns (n: nat, err: Option<UsbError>)
      requires |transfer.data| <= buf.Length
      modifies buf
      ensures !isOpen ==> n == 0 && err == Some(DeviceNotOpen) && unchanged(buf)
      ensures isOpen && inEndpoint.None? ==> n == 0 && err == Some(InputEndpointUnavailable) && unchanged(buf)
      ensures isOpen && inEndpoint.Some? ==>
                && n == |transfer.data|
                && buf[..n] == transfer.data && buf[n..] == old(buf[n..])
                && err == (if transfer.failed then Some(TransferFailed) else None)
    {
      if !isOpen {
        return 0, Some(DeviceNotOpen);
      }
      if inEndpoint.None? {
        return 0, Some(InputEndpointUnavailable);
      }
      n := |transfer.data|;
      forall k | 0 <= k < n {
        buf[k] := transfer.data[k];
      }
      err := if transfer.failed then Some(TransferFailed) else None;
    }

    /**
     * Close the device: release the interface, close the device and the
     * library context, collecting their errors (`deviceCloseOk` and
     * `contextCloseOk` are their outcomes). The adapter ends closed either way.
     */
    method Close(deviceCloseOk: bool, contextCloseOk: bool) returns (err: Option<UsbError>)
      modifies this
      ensures Valid()
      ensures !old(isOpen) ==> err.None? && unchanged(this)
      ensures old(isOpen) ==>
                && !isOpen && iface.None?
                && outEndpoint == old(outEndpoint) && inEndpoint == old(inEndpoint)
                && device == old(device) && eventListeners == old(eventListeners)
                && transfers == old(transfers) && events == old(events) + [EventClose]
                && var failures := (if device.Some? && !deviceCloseOk then 1 else 0)
                                   + (if contextCloseOk then 0 else 1);
                   err == (if failures > 0 then Some(CloseErrors(failures)) else None)
    {
      if !isOpen {
        return None;
      }
      var failures := 0;
      iface := None;
      if device.Some? && !deviceCloseOk {
        failures := failures + 1;
      }
      if !contextCloseOk {
        failures := failures + 1;
      }
      isOpen := false;
      events := events + [EventClose];
      err := if failures > 0 then Some(CloseErrors(failures)) else None;
    }
  }

  /**
   * Create an adapter for the first printer among the enumerated devices
   * (None when enumeration fails), or fail when there is none.
   */
  method NewUSBAdapterAuto(devices: Option<seq<UsbDevice>>) returns (a: UsbAdapter?, err: Option<UsbError>)
    ensures err.None? <==> a != null
    ensures err.Some? ==> err == Some(CannotFindPrinter)
    ensures a != null <==> AutoDetect(devices).Some?
    ensures a != null ==> fresh(a) && a.device == AutoDetect(devices) && a.Unopened() && a.Valid()
  {
    var printers := FindPrinters(devices);
    ghost var first := if devices.Some? then FirstPrinterIndex(devices.value) else None;
    assert first.Some? ==> first.value in printers;
    if |printers| == 0 {
      return null, Some(CannotFindPrinter);
    }
    assert printers[0] in printers;
    assert printers[0] == first.value;
    a := new UsbAdapter(Some(devices.value[printers[0]]));
    err := None;
  }

  /**
   * Create an adapter for the device with a given vendor and product id
   * (`byId` is what opening it gives), falling back to the first printer
   * among the enumerated devices.
   */
  method NewUSBAdapter(byId: Option<UsbDevice>, devices: Option<seq<UsbDevice>>) returns (a: UsbAdapter?, err: Option<UsbError>)
    ensures err.None? <==> a != null
    ensures err.Some? ==> err == Some(CannotFindPrinter)
    ensures byId.Some? ==> a != null && a.device == byId
    ensures byId.None? ==> (a != null <==> AutoDetect(devices).Some?)
    ensures byId.None? && a != null ==> a.device == AutoDetect(devices)
    ensures a != null ==> fresh(a) && a.Unopened() && a.Valid()
  {
    if byId.Some? {
      a := new UsbAdapter(byId);
      err := None;
    } else {
      a, err := NewUSBAdapterAuto(devices);
    }
  }
}
