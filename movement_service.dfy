// The service object: the four fields it updates in place, ghost logs of the
// calls it issues on the USB stack, and one method per operation and event
// hook.  Each method is proved to take the object from a state to the state
// the matching function of MovementModel gives.
module MovementService {
  import opened UsbTypes
  import opened MovementModel

  class AndroidMovementService {
    var device: Option<UsbDevice>
    var connection: Option<Connection>
    var serialPort: Option<SerialPort>
    var isSerialStarted: bool

    // Side effects issued so far, oldest first.
    ghost var requests: seq<UsbDevice>
    ghost var portCalls: seq<PortCall>
    ghost var writes: seq<Write>
    ghost var releases: seq<Release>

    ghost function Model(): State
      reads this
    {
      State(device, connection, serialPort, isSerialStarted, requests, portCalls, writes, releases)
    }

    /** The object invariant: the service's own state satisfies the invariant
        that every sequence of events keeps. */
    ghost predicate Valid()
      reads this
    {
      Inv(Model())
    }

    /** Fields start at Java's defaults, nothing has been issued yet. */
    constructor ()
      ensures Model() == Initial && Valid()
    {
      device, connection, serialPort, isSerialStarted := None, None, None, false;
      requests, portCalls, writes, releases := [], [], [], [];
      InitialInv();
    }

    /** `devices` is the USB manager's device list in iteration order. */
    method StartConnection(devices: seq<UsbDevice>)
      requires Valid()
      modifies this
      ensures Valid()
      ensures Model() == MovementModel.StartConnection(old(Model()), devices)
    {
      StartInv(Model(), devices);
      if isSerialStarted {
        return;
      }
      if |devices| == 0 {
        return;
      }
      var supportedDeviceFound := false;
      var i := 0;
      while i < |devices|
        invariant 0 <= i <= |devices|
        invariant !supportedDeviceFound
        invariant forall j :: 0 <= j < i ==> !IsSupportedDeviceId(devices[j].vendorId)
        invariant connection == old(connection) && serialPort == old(serialPort)
        invariant isSerialStarted == old(isSerialStarted) && requests == old(requests)
        invariant portCalls == old(portCalls) && writes == old(writes) && releases == old(releases)
      {
        device := Some(devices[i]);
        if IsSupportedDeviceId(devices[i].vendorId) {
          requests := requests + [devices[i]];
          supportedDeviceFound := true;
          break;
        }
        i := i + 1;
      }
      if !supportedDeviceFound {
        connection := None;
        device := None;
      } else {
        assert FirstSupportedAt(devices, i);
        FirstSupportedAtUnique(devices, i, FirstSupported(devices).value);
      }
    }

    /** `handle` is what `openDevice` returns for `device`, `port` what
        `createUsbSerialDevice` returns for it, and `openOk` what `open()` on
        that port returns. */
    method SetupSerialPort(handle: Option<Connection>, port: Option<SerialPort>, openOk: bool)
      requires Valid()
      modifies this
      ensures Valid()
      ensures Model() == MovementModel.SetupSerialPort(old(Model()), handle, port, openOk)
    {
      ghost var after := MovementModel.SetupSerialPort(Model(), handle, port, openOk);
      StepInv(Model(), PermissionGranted(handle, port, openOk));
      assert Inv(after);
      connection := handle;
      serialPort := port;
      if serialPort.None? {
        return;
      }
      if openOk {
        portCalls := portCalls + [SetBaudRate(9600)];
        portCalls := portCalls + [SetDataBits(8)];
        portCalls := portCalls + [SetStopBits(1)];
        portCalls := portCalls + [SetParity(ParityNone)];
        portCalls := portCalls + [SetFlowControl(FlowControlOff)];
        portCalls := portCalls + [RegisterReadCallback];
        isSerialStarted := true;
        assert Model() == after;
      }
    }

    /** `command` is the bytes of the command string. */
    method SendCommand(command: seq<byte>)
      requires Valid()
      modifies this
      ensures Valid()
      ensures Model() == MovementModel.SendCommand(old(Model()), command)
    {
      StepInv(Model(), CommandSent(command));
      if serialPort.Some? {
        writes := writes + [Write(serialPort.value, command)];
      }
    }

    method CloseConnection()
      requires Valid()
      modifies this
      ensures Valid()
      ensures Model() == MovementModel.CloseConnection(old(Model()))
    {
      StepInv(Model(), DeviceDetached);
      if serialPort.Some? {
        releases := releases + [PortClosed(serialPort.value)];
        serialPort := None;
      }
      if connection.Some? {
        releases := releases + [ConnectionClosed(connection.value)];
        connection := None;
      }
      isSerialStarted := false;
    }

    /** The part of `onStartCommand` that concerns the connection: after
        registering its receiver the service starts a connection attempt. */
    method OnStartCommand(devices: seq<UsbDevice>)
      requires Valid()
      modifies this
      ensures Valid()
      ensures Model() == Step(old(Model()), ServiceStarted(devices))
    {
      StartConnection(devices);
    }

    method OnPermissionGranted(handle: Option<Connection>, port: Option<SerialPort>, openOk: bool)
      requires Valid()
      modifies this
      ensures Valid()
      ensures Model() == Step(old(Model()), PermissionGranted(handle, port, openOk))
    {
      SetupSerialPort(handle, port, openOk);
    }

    /** Only reports the denial; the state is left as it is. */
    method OnPermissionDenied()
      ensures Model() == Step(old(Model()), PermissionDenied)
    {
    }

    method OnDeviceAttached(devices: seq<UsbDevice>)
      requires Valid()
      modifies this
      ensures Valid()
      ensures Model() == Step(old(Model()), DeviceAttached(devices))
    {
      StartConnection(devices);
    }

    method OnDeviceDetached()
      requires Valid()
      modifies this
      ensures Valid()
      ensures Model() == Step(old(Model()), DeviceDetached)
    {
      CloseConnection();
    }

    /** Unregistering the broadcast receiver may fail; the failure is
        swallowed and the teardown runs regardless. */
    method OnDestroy()
      requires Valid()
      modifies this
      ensures Valid()
      ensures Model() == Step(old(Model()), Destroyed)
    {
      CloseConnection();
    }
  }
}
