// The connection state of the movement service as a value, with one function
// per operation of the service.  Each function gives the state after the
// operation in terms of the state before it; the class in movement_service.dfy
// is proved to follow these functions, and the lemmas below are about them.
module MovementModel {
  import opened UsbTypes

  /** The four fields of the service, plus logs of the side effects issued on
      the USB stack: permission requests, configuration calls on the serial
      port, writes, and `close()` calls. */
  datatype State = State(
    device: Option<UsbDevice>,
    connection: Option<Connection>,
    serialPort: Option<SerialPort>,
    isSerialStarted: bool,
    requests: seq<UsbDevice>,
    portCalls: seq<PortCall>,
    writes: seq<Write>,
    releases: seq<Release>)

  /** Java's default field values and empty logs. */
  const Initial: State := State(None, None, None, false, [], [], [], [])

  /** Looks for the first attached device on the allow-list and asks for
      permission to use it.  `devices` is the device list of the USB manager
      in iteration order. */
  function StartConnection(s: State, devices: seq<UsbDevice>): (r: State)
    ensures s.isSerialStarted || devices == [] ==> r == s
    ensures r.serialPort == s.serialPort && r.isSerialStarted == s.isSerialStarted
    ensures r.portCalls == s.portCalls && r.writes == s.writes && r.releases == s.releases
    ensures !s.isSerialStarted && devices != [] && NoneSupported(devices) ==>
              r == s.(device := None, connection := None)
    ensures !s.isSerialStarted && !NoneSupported(devices) ==>
              exists i :: FirstSupportedAt(devices, i) &&
                r == s.(device := Some(devices[i]), requests := s.requests + [devices[i]])
  {
    if s.isSerialStarted || devices == [] then s
    else match FirstSupported(devices)
      case Some(i) => s.(device := Some(devices[i]), requests := s.requests + [devices[i]])
      case None => s.(device := None, connection := None)
  }

  /** Opens the chosen device and its serial port.  `handle` is what
      `openDevice` returned, `port` what `createUsbSerialDevice` returned,
      and `openOk` what `open()` on that port would return. */
  function SetupSerialPort(s: State, handle: Option<Connection>, port: Option<SerialPort>,
                           openOk: bool): (r: State)
    ensures r.connection == handle && r.serialPort == port
    ensures r.device == s.device && r.requests == s.requests
    ensures r.writes == s.writes && r.releases == s.releases
    ensures port.Some? && openOk ==>
              r.isSerialStarted &&
              r.portCalls == s.portCalls +
                [SetBaudRate(9600), SetDataBits(8), SetStopBits(1),
                 SetParity(ParityNone), SetFlowControl(FlowControlOff), RegisterReadCallback]
    ensures !(port.Some? && openOk) ==>
              r.isSerialStarted == s.isSerialStarted && r.portCalls == s.portCalls
  {
    var t := s.(connection := handle, serialPort := port);
    if port.Some? && openOk then
      t.(portCalls := s.portCalls + PortConfiguration, isSerialStarted := true)
    else
      t
  }

  /** Writes the bytes of a command to the serial port, if there is one. */
  function SendCommand(s: State, command: seq<byte>): (r: State)
    ensures s.serialPort.Some? ==> r.writes == s.writes + [Write(s.serialPort.value, command)]
    ensures s.serialPort.None? ==> r.writes == s.writes
    ensures r.(writes := s.writes) == s
  {
    match s.serialPort
    case Some(p) => s.(writes := s.writes + [Write(p, command)])
    case None => s
  }

  /** The resources the service holds and would have to close: the serial
      port first, then the device connection. */
  function Held(s: State): (r: seq<Release>)
    ensures |r| == (if s.serialPort.Some? then 1 else 0) + (if s.connection.Some? then 1 else 0)
    ensures s.serialPort.Some? ==> r[0] == PortClosed(s.serialPort.value)
    ensures forall p :: PortClosed(p) in r <==> s.serialPort == Some(p)
    ensures forall c :: ConnectionClosed(c) in r <==> s.connection == Some(c)
  {
    (match s.serialPort case Some(p) => [PortClosed(p)] case None => []) +
    (match s.connection case Some(c) => [ConnectionClosed(c)] case None => [])
  }

  /** Closes whatever is held and drops the references; `device` is kept. */
  function CloseConnection(s: State): (r: State)
    ensures r.serialPort.None? && r.connection.None? && !r.isSerialStarted
    ensures Held(r) == []
    ensures r.releases == s.releases + Held(s)
    ensures r.device == s.device && r.requests == s.requests
    ensures r.portCalls == s.portCalls && r.writes == s.writes
  {
    s.(serialPort := None, connection := None, isSerialStarted := false,
       releases := s.releases + Held(s))
  }

  /** A second teardown closes nothing more and changes nothing. */
  lemma CloseConnectionIdempotent(s: State)
    ensures CloseConnection(CloseConnection(s)) == CloseConnection(s)
  {
  }

  /** The calls into the service, in the order the host delivers them.  The
      results of the USB stack's calls are carried by the events. */
  datatype Event =
    | ServiceStarted(devices: seq<UsbDevice>)
    | PermissionGranted(handle: Option<Connection>, port: Option<SerialPort>, openOk: bool)
    | PermissionDenied
    | DeviceAttached(devices: seq<UsbDevice>)
    | DeviceDetached
    | CommandSent(command: seq<byte>)
    | Destroyed

  function Step(s: State, e: Event): (r: State)
    ensures e.PermissionDenied? ==> r == s
    ensures e.DeviceDetached? || e.Destroyed? ==>
              r.serialPort.None? && r.connection.None? && !r.isSerialStarted && r.device == s.device
    ensures e.CommandSent? ==> r.(writes := s.writes) == s
  {
    match e
    case ServiceStarted(devices) => StartConnection(s, devices)
    case PermissionGranted(handle, port, openOk) => SetupSerialPort(s, handle, port, openOk)
    case PermissionDenied => s
    case DeviceAttached(devices) => StartConnection(s, devices)
    case DeviceDetached => CloseConnection(s)
    case CommandSent(command) => SendCommand(s, command)
    case Destroyed => CloseConnection(s)
  }

  function Run(s: State, events: seq<Event>): State
    decreases |events|
  {
    if events == [] then s else Run(Step(s, events[0]), events[1..])
  }

  lemma {:induction false} RunAppend(s: State, events: seq<Event>, e: Event)
    ensures Run(s, events + [e]) == Step(Run(s, events), e)
    decreases |events|
  {
    if events == [] {
      assert [] + [e] == [e];
    } else {
      assert (events + [e])[1..] == events[1..] + [e];
      RunAppend(Step(s, events[0]), events[1..], e);
    }
  }

  /** The port-call log is made of whole configuration sequences. */
  ghost predicate ConfigurationBlocks(calls: seq<PortCall>)
    decreases |calls|
  {
    calls == [] ||
    (|calls| >= |PortConfiguration| &&
     calls[..|PortConfiguration|] == PortConfiguration &&
     ConfigurationBlocks(calls[|PortConfiguration|..]))
  }

  lemma {:induction false} ConfigurationBlocksAppend(calls: seq<PortCall>)
    requires ConfigurationBlocks(calls)
    ensures ConfigurationBlocks(calls + PortConfiguration)
    decreases |calls|
  {
    var n := |PortConfiguration|;
    if calls == [] {
      assert calls + PortConfiguration == PortConfiguration;
      assert PortConfiguration[n..] == [];
    } else {
      var rest := calls[n..];
      ConfigurationBlocksAppend(rest);
      assert (calls + PortConfiguration)[..n] == calls[..n];
      assert (calls + PortConfiguration)[n..] == rest + PortConfiguration;
    }
  }

  /** What every reachable state satisfies: the service only asked
      permission for allow-listed devices, serial ports were only ever
      configured by whole, correctly ordered configuration sequences, and the
      link is only marked started once such a sequence was issued.  A device
      that is held is allow-listed and is the one permission was last asked
      for.  (It does not follow that a port is held while the link is marked
      started; see the scenarios.) */
  ghost predicate Inv(s: State) {
    (s.isSerialStarted ==> |s.portCalls| >= |PortConfiguration|) &&
    (s.device.Some? ==>
       IsSupportedDeviceId(s.device.value.vendorId) &&
       |s.requests| > 0 && s.device.value == s.requests[|s.requests| - 1]) &&
    (forall k :: 0 <= k < |s.requests| ==> IsSupportedDeviceId(s.requests[k].vendorId)) &&
    ConfigurationBlocks(s.portCalls)
  }

  lemma InitialInv()
    ensures Inv(Initial)
  {
  }

  lemma StepInv(s: State, e: Event)
    requires Inv(s)
    ensures Inv(Step(s, e))
  {
    match e
    case PermissionGranted(handle, port, openOk) =>
      if port.Some? && openOk {
        ConfigurationBlocksAppend(s.portCalls);
      }
    case ServiceStarted(devices) => StartInv(s, devices);
    case DeviceAttached(devices) => StartInv(s, devices);
    case _ =>
  }

  lemma StartInv(s: State, devices: seq<UsbDevice>)
    requires Inv(s)
    ensures Inv(StartConnection(s, devices))
  {
  }

  lemma {:induction false} RunInv(s: State, events: seq<Event>)
    requires Inv(s)
    ensures Inv(Run(s, events))
    decreases |events|
  {
    if events != [] {
      StepInv(s, events[0]);
      RunInv(Step(s, events[0]), events[1..]);
    }
  }

  /** Every log only grows: nothing already issued is ever taken back. */
  lemma {:induction false} RunLogsExtend(s: State, events: seq<Event>)
    ensures s.requests <= Run(s, events).requests
    ensures s.portCalls <= Run(s, events).portCalls
    ensures s.writes <= Run(s, events).writes
    ensures s.releases <= Run(s, events).releases
    decreases |events|
  {
    if events != [] {
      var t := Step(s, events[0]);
      RunLogsExtend(t, events[1..]);
    }
  }

  /** Whatever happened before, a detach or a destroy leaves no port, no
      connection and the serial link marked not started. */
  lemma TeardownLast(s: State, events: seq<Event>, e: Event)
    requires e.DeviceDetached? || e.Destroyed?
    ensures Run(s, events + [e]).serialPort.None?
    ensures Run(s, events + [e]).connection.None?
    ensures !Run(s, events + [e]).isSerialStarted
  {
    RunAppend(s, events, e);
  }

  /** After a teardown, commands are dropped until a port is set up again. */
  lemma SendAfterTeardownWritesNothing(s: State, events: seq<Event>, e: Event, command: seq<byte>)
    requires e.DeviceDetached? || e.Destroyed?
    ensures Run(s, events + [e, CommandSent(command)]).writes == Run(s, events + [e]).writes
  {
    assert events + [e, CommandSent(command)] == (events + [e]) + [CommandSent(command)];
    RunAppend(s, events + [e], CommandSent(command));
    TeardownLast(s, events, e);
  }
}
