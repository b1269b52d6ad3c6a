// Concrete runs of the service, and general consequences of the model for
// short event sequences.  Several show how the code behaves where a tidier
// connection state machine would behave differently: there is no record of
// an outstanding permission request, callbacks are not checked against the
// current device, and a failed `open()` keeps the port.
module Scenarios {
  import opened UsbTypes
  import opened MovementModel

  lemma Run1(s: State, a: Event)
    ensures Run(s, [a]) == Step(s, a)
  {
  }

  lemma Run2(s: State, a: Event, b: Event)
    ensures Run(s, [a, b]) == Step(Step(s, a), b)
  {
    assert [a, b][1..] == [b];
    Run1(Step(s, a), b);
  }

  lemma Run3(s: State, a: Event, b: Event, c: Event)
    ensures Run(s, [a, b, c]) == Step(Step(Step(s, a), b), c)
  {
    assert [a, b, c][1..] == [b, c];
    Run2(Step(s, a), b, c);
  }

  lemma Run4(s: State, a: Event, b: Event, c: Event, d: Event)
    ensures Run(s, [a, b, c, d]) == Step(Step(Step(Step(s, a), b), c), d)
  {
    assert [a, b, c, d][1..] == [b, c, d];
    Run3(Step(s, a), b, c, d);
  }

  lemma Run5(s: State, a: Event, b: Event, c: Event, d: Event, e: Event)
    ensures Run(s, [a, b, c, d, e]) == Step(Step(Step(Step(Step(s, a), b), c), d), e)
  {
    assert [a, b, c, d, e][1..] == [b, c, d, e];
    Run4(Step(s, a), b, c, d, e);
  }

  const Arduino := UsbDevice("/dev/bus/usb/001/002", 9025)
  const Unknown := UsbDevice("/dev/bus/usb/001/003", 9999)
  /** The bytes of the command "M100". */
  const M100: seq<byte> := [77, 49, 48, 48]

  /** A device that is not on the allow-list is never asked for. */
  lemma UnsupportedDeviceIsIgnored()
    ensures Run(Initial, [ServiceStarted([Unknown])]) == Initial
  {
  }

  /** Attach a supported device, grant permission, open the port and send a
      command: the port receives exactly the command's bytes.  A detach
      then closes port and connection, and a later command is dropped. */
  lemma SupportedDeviceRoundTrip()
    ensures Run(Initial, [ServiceStarted([Unknown, Arduino])]).requests == [Arduino]
    ensures Run(Initial, [ServiceStarted([Unknown, Arduino]),
                          PermissionGranted(Some(Connection(1)), Some(SerialPort(1)), true),
                          CommandSent(M100)])
            == State(Some(Arduino), Some(Connection(1)), Some(SerialPort(1)), true,
                     [Arduino], PortConfiguration, [Write(SerialPort(1), M100)], [])
    ensures Run(Initial, [ServiceStarted([Unknown, Arduino]),
                          PermissionGranted(Some(Connection(1)), Some(SerialPort(1)), true),
                          CommandSent(M100), DeviceDetached, CommandSent(M100)])
            == State(Some(Arduino), None, None, false,
                     [Arduino], PortConfiguration, [Write(SerialPort(1), M100)],
                     [PortClosed(SerialPort(1)), ConnectionClosed(Connection(1))])
  {
    var devices := [Unknown, Arduino];
    assert FirstSupportedAt(devices, 1);
    FirstSupportedAtUnique(devices, 1, FirstSupported(devices).value);
    var grant := PermissionGranted(Some(Connection(1)), Some(SerialPort(1)), true);
    Run1(Initial, ServiceStarted(devices));
    Run3(Initial, ServiceStarted(devices), grant, CommandSent(M100));
    Run5(Initial, ServiceStarted(devices), grant, CommandSent(M100), DeviceDetached, CommandSent(M100));
  }

  /** Until permission is granted the link is not marked started, so a second
      start asks for permission again. */
  lemma StartTwiceRequestsTwice(s: State, devices: seq<UsbDevice>)
    requires !s.isSerialStarted && !NoneSupported(devices)
    ensures |Run(s, [ServiceStarted(devices), DeviceAttached(devices)]).requests| == |s.requests| + 2
  {
    var i := FirstSupported(devices).value;
    var s1 := Step(s, ServiceStarted(devices));
    assert s1 == s.(device := Some(devices[i]), requests := s.requests + [devices[i]]);
    Run2(s, ServiceStarted(devices), DeviceAttached(devices));
  }

  /** Once the link is started, further starts change nothing. */
  lemma StartWhenStartedChangesNothing(s: State, devices: seq<UsbDevice>)
    requires s.isSerialStarted
    ensures Run(s, [ServiceStarted(devices), DeviceAttached(devices)]) == s
  {
    Run2(s, ServiceStarted(devices), DeviceAttached(devices));
  }

  /** The teardown keeps `device`, and a permission grant is not checked
      against anything: a grant arriving after the device was detached still
      sets up a port and marks the link started. */
  lemma StaleGrantAfterDetachConnects(s: State, devices: seq<UsbDevice>, c: Connection, p: SerialPort)
    requires !s.isSerialStarted && !NoneSupported(devices)
    ensures Run(s, [DeviceAttached(devices), DeviceDetached,
                    PermissionGranted(Some(c), Some(p), true)]).isSerialStarted
    ensures Run(s, [DeviceAttached(devices), DeviceDetached,
                    PermissionGranted(Some(c), Some(p), true)]).device.Some?
  {
    var i := FirstSupported(devices).value;
    assert Step(s, DeviceAttached(devices)).device == Some(devices[i]);
    Run3(s, DeviceAttached(devices), DeviceDetached, PermissionGranted(Some(c), Some(p), true));
  }

  /** A port whose `open()` failed is kept, and commands are written to it. */
  lemma FailedOpenStillWrites(s: State, h: Option<Connection>, p: SerialPort, command: seq<byte>)
    ensures Run(s, [PermissionGranted(h, Some(p), false)]).serialPort == Some(p)
    ensures Run(s, [PermissionGranted(h, Some(p), false)]).isSerialStarted == s.isSerialStarted
    ensures Run(s, [PermissionGranted(h, Some(p), false), CommandSent(command)]).writes
            == s.writes + [Write(p, command)]
  {
    Run1(s, PermissionGranted(h, Some(p), false));
    Run2(s, PermissionGranted(h, Some(p), false), CommandSent(command));
  }

  /** A second grant while connected replaces port and connection without
      closing them, so the first port is never closed and later commands go
      to the second port; if no port can be created the second time, the
      link stays marked started with no port. */
  lemma SecondGrantWhileConnected()
    ensures Run(Initial, [ServiceStarted([Arduino]), DeviceAttached([Arduino]),
                          PermissionGranted(Some(Connection(1)), Some(SerialPort(1)), true),
                          PermissionGranted(Some(Connection(2)), Some(SerialPort(2)), true),
                          DeviceDetached]).releases
            == [PortClosed(SerialPort(2)), ConnectionClosed(Connection(2))]
    ensures Run(Initial, [ServiceStarted([Arduino]), DeviceAttached([Arduino]),
                          PermissionGranted(Some(Connection(1)), Some(SerialPort(1)), true),
                          PermissionGranted(Some(Connection(2)), Some(SerialPort(2)), true),
                          CommandSent(M100)]).writes
            == [Write(SerialPort(2), M100)]
    ensures Run(Initial, [ServiceStarted([Arduino]), DeviceAttached([Arduino]),
                          PermissionGranted(Some(Connection(1)), Some(SerialPort(1)), true),
                          PermissionGranted(Some(Connection(2)), None, false)])
            == State(Some(Arduino), Some(Connection(2)), None, true,
                     [Arduino, Arduino], PortConfiguration, [], [])
  {
    assert FirstSupportedAt([Arduino], 0);
    FirstSupportedAtUnique([Arduino], 0, FirstSupported([Arduino]).value);
    Run5(Initial, ServiceStarted([Arduino]), DeviceAttached([Arduino]),
         PermissionGranted(Some(Connection(1)), Some(SerialPort(1)), true),
         PermissionGranted(Some(Connection(2)), Some(SerialPort(2)), true),
         DeviceDetached);
    Run5(Initial, ServiceStarted([Arduino]), DeviceAttached([Arduino]),
         PermissionGranted(Some(Connection(1)), Some(SerialPort(1)), true),
         PermissionGranted(Some(Connection(2)), Some(SerialPort(2)), true),
         CommandSent(M100));
    Run4(Initial, ServiceStarted([Arduino]), DeviceAttached([Arduino]),
         PermissionGranted(Some(Connection(1)), Some(SerialPort(1)), true),
         PermissionGranted(Some(Connection(2)), None, false));
  }

  /** The setup does not look at `device`: permission is asked for a
      supported device, an attach with no supported device then clears
      `device`, and the grant for the earlier request arrives.  When the
      library results for the null device are given as a connection and a
      port that opens, the link is marked started with no device held. */
  lemma GrantWithoutDeviceConnects()
    ensures Run(Initial, [ServiceStarted([Arduino]), DeviceAttached([Unknown]),
                          PermissionGranted(Some(Connection(1)), Some(SerialPort(1)), true)])
            == State(None, Some(Connection(1)), Some(SerialPort(1)), true,
                     [Arduino], PortConfiguration, [], [])
  {
    assert FirstSupportedAt([Arduino], 0);
    FirstSupportedAtUnique([Arduino], 0, FirstSupported([Arduino]).value);
    Run3(Initial, ServiceStarted([Arduino]), DeviceAttached([Unknown]),
         PermissionGranted(Some(Connection(1)), Some(SerialPort(1)), true));
  }

  /** A start that finds no supported device drops a held connection without
      closing it; a port kept from a failed `open()` stays held. */
  lemma NoMatchDropsConnectionUnclosed()
    ensures Run(Initial, [ServiceStarted([Arduino]),
                          PermissionGranted(Some(Connection(1)), Some(SerialPort(1)), false),
                          DeviceAttached([Unknown])])
            == State(None, None, Some(SerialPort(1)), false, [Arduino], [], [], [])
  {
    assert FirstSupportedAt([Arduino], 0);
    FirstSupportedAtUnique([Arduino], 0, FirstSupported([Arduino]).value);
    Run3(Initial, ServiceStarted([Arduino]),
         PermissionGranted(Some(Connection(1)), Some(SerialPort(1)), false),
         DeviceAttached([Unknown]));
  }
}
