// Values the movement service exchanges with the Android USB stack and the
// felhr serial library: attached devices, opened handles, the calls issued on
// a serial port, and the fixed allow-list of robot controller vendor IDs.
module UsbTypes {

  datatype Option<T> = None | Some(value: T)

  newtype byte = x: int | 0 <= x < 256

  /** An entry of the USB manager's device list: the device name under which
      the list files it, and the device's vendor ID. */
  datatype UsbDevice = UsbDevice(name: string, vendorId: int)

  /** Opaque handles returned by `openDevice` and `createUsbSerialDevice`. */
  datatype Connection = Connection(id: nat)
  datatype SerialPort = SerialPort(id: nat)

  datatype Parity = ParityNone | ParityOdd | ParityEven | ParityMark | ParitySpace
  datatype FlowControl = FlowControlOff | FlowControlRtsCts | FlowControlDsrDtr | FlowControlXonXoff

  /** A configuration call issued on an opened serial port. */
  datatype PortCall =
    | SetBaudRate(baud: int)
    | SetDataBits(dataBits: int)
    | SetStopBits(stopBits: int)
    | SetParity(parity: Parity)
    | SetFlowControl(flow: FlowControl)
    | RegisterReadCallback

  /** A `write` call: the port written to and the bytes written. */
  datatype Write = Write(port: SerialPort, bytes: seq<byte>)

  /** A `close()` call issued on a resource the service holds. */
  datatype Release = PortClosed(port: SerialPort) | ConnectionClosed(connection: Connection)

  /** The allow-list, in the order the source declares it. */
  const SupportedVendorIds: seq<int> := [9025, 10755, 4292]

  /** The calls `setupSerialPort` issues once `open()` succeeded, in order:
      9600 baud, 8 data bits, 1 stop bit, no parity, no flow control, and
      then the registration of the read callback. */
  const PortConfiguration: seq<PortCall> :=
    [SetBaudRate(9600), SetDataBits(8), SetStopBits(1),
     SetParity(ParityNone), SetFlowControl(FlowControlOff), RegisterReadCallback]

  function IsSupportedDeviceId(vendorId: int): (r: bool)
    ensures r <==> vendorId == 9025 || vendorId == 10755 || vendorId == 4292
  {
    vendorId in SupportedVendorIds
  }

  /** Device `i` is the first entry of `devices`, in iteration order, whose
      vendor ID is on the allow-list. */
  ghost predicate FirstSupportedAt(devices: seq<UsbDevice>, i: int) {
    0 <= i < |devices| && IsSupportedDeviceId(devices[i].vendorId) &&
    forall j :: 0 <= j < i ==> !IsSupportedDeviceId(devices[j].vendorId)
  }

  ghost predicate NoneSupported(devices: seq<UsbDevice>) {
    forall j :: 0 <= j < |devices| ==> !IsSupportedDeviceId(devices[j].vendorId)
  }

  /** The index at which the search of `startConnection` stops, if any. */
  function FirstSupported(devices: seq<UsbDevice>): (r: Option<nat>)
    ensures r.Some? ==> FirstSupportedAt(devices, r.value)
    ensures r.None? <==> NoneSupported(devices)
  {
    if devices == [] then None
    else if IsSupportedDeviceId(devices[0].vendorId) then Some(0)
    else match FirstSupported(devices[1..])
      case None => None
      case Some(k) => Some(k + 1)
  }

  /** There is at most one first supported device. */
  lemma FirstSupportedAtUnique(devices: seq<UsbDevice>, i: int, j: int)
    requires FirstSupportedAt(devices, i) && FirstSupportedAt(devices, j)
    ensures i == j
  {
  }
}
