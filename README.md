# USB-serial connection state of the TelepresenceBot movement service

`AndroidMovementService` drives a robot over a USB serial link. It keeps four
fields: the chosen `device`, the opened device `connection`, the
`serialPort`, and the `isSerialStarted` flag. Three private operations change
them:

- `startConnection` picks the first attached device whose vendor ID is on the
  allow-list {9025, 10755, 4292} and asks the OS for permission to use it.
- `setupSerialPort` opens the device, creates the serial port, opens it and
  configures it (9600 baud, 8 data bits, 1 stop bit, no parity, no flow
  control). It then registers the read callback.
- `closeConnection` closes the port and the connection, whichever exist.

Two more operations leave the fields alone:

- the private `isSupportedDeviceID` tests a vendor ID against the allow-list;
- the public `sendCommand` writes a command's bytes when a port exists.

The event hooks `onPermissionGranted`, `onDeviceAttached`, `onDeviceDetached`,
`onDestroy` and the connection part of `onStartCommand` call these
operations. `onPermissionDenied` calls none of them: it only reports the
denial.

The project has four parts:

- `usb_types.dfy` (module `UsbTypes`) holds what the USB stack hands over: devices, handles, port calls, the allow-list, and the first-match search.
- `movement_model.dfy` (module `MovementModel`) describes the service state as a value `State`. It has one function per operation. It also has `Step`/`Run` over a sequence of events, the invariant `Inv`, and lemmas about traces.
- `movement_service.dfy` (module `MovementService`) holds the class `AndroidMovementService`. It has the same four fields, updated in place, plus ghost logs of the calls the service makes:
  - permission requests;
  - configuration calls on the port;
  - writes;
  - `close()` calls.

  Each method ensures `Model() == F(old(Model()), …)`, where `F` is the matching function of `MovementModel`. The object invariant `Valid()` says that the object's own state satisfies `MovementModel.Inv`. The constructor establishes it, and every method that changes state keeps it. `StartConnection` keeps the source's search loop with its `break`, proved with loop invariants.
- `scenarios.dfy` (module `Scenarios`) holds concrete and general short runs.

The collaborators appear as inputs:

- the USB manager's device list is a `seq<UsbDevice>` in iteration order;
- the results of `openDevice`, `createUsbSerialDevice` and `open()` are method parameters (`handle`, `port`, `openOk`);
- a command is given as its bytes.

The model follows the code as written. Several consequences of the code are
proved as scenarios:

- There is no "permission requested" state. Until a port is open, every start asks for permission again (`Scenarios.StartTwiceRequestsTwice`).
- A permission grant is not checked against anything, and `closeConnection` keeps `device`. So a grant arriving after a detach still opens a port and marks the link started (`Scenarios.StaleGrantAfterDetachConnects`).
- The setup does not look at `device` either. Say permission was asked for a supported device, and a later attach found no supported device and cleared `device`. The grant for the earlier request then still runs the setup with a null device. The model gives the two library results for that null device as inputs. When they are a connection and a port that opens, the link is marked started with no device held (`Scenarios.GrantWithoutDeviceConnects`). What the real library calls do with a null device is not modelled (see the `SetupSerialPort` line of the Left out section).
- A port whose `open()` failed stays in `serialPort`, and commands are written to it (`Scenarios.FailedOpenStillWrites`).
- A start that finds no supported device sets `connection` to null without closing it (`Scenarios.NoMatchDropsConnectionUnclosed`).
- A second grant while connected replaces the port and the connection without closing them. Later commands go to the new port. If no port can be created that second time, the link stays marked started with no port (`Scenarios.SecondGrantWhileConnected`). So "a port is held whenever the link is marked started" does not hold of the code. `MovementModel.Inv` states only the facts the code keeps.

## Model

| member | source | states |
|---|---|---|
| `UsbTypes.IsSupportedDeviceId` | TelepresenceBot/mobile/src/main/java/com/novoda/tpbot/bot/AndroidMovementService.java:90-92 | true exactly for the vendor IDs 9025, 10755 and 4292 of the allow-list |
| `UsbTypes.FirstSupported` | TelepresenceBot/mobile/src/main/java/com/novoda/tpbot/bot/AndroidMovementService.java:71-82 | the search stops at an index whose device is allow-listed, and no earlier device is; it finds nothing exactly when no device is allow-listed |
| `UsbTypes.FirstSupportedAtUnique` | TelepresenceBot/mobile/src/main/java/com/novoda/tpbot/bot/AndroidMovementService.java:71-82 | the first allow-listed device in iteration order is unique |
| `MovementModel.StartConnection` | TelepresenceBot/mobile/src/main/java/com/novoda/tpbot/bot/AndroidMovementService.java:60-88 | already started or empty list: nothing changes and no request is issued. Some device allow-listed: exactly one request is issued, for the first such device; `device` becomes it and nothing else changes. Non-empty list with none allow-listed: no request; `device` and `connection` become null. `serialPort`, `isSerialStarted` and the port, write and close logs are never touched |
| `MovementModel.SetupSerialPort` | TelepresenceBot/mobile/src/main/java/com/novoda/tpbot/bot/AndroidMovementService.java:126-149 | `connection` and `serialPort` become what `openDevice` and `createUsbSerialDevice` returned. A null port, or a failed `open()`, issues no configuration call and leaves `isSerialStarted` as it was; a failed open keeps the port. A successful open issues baud 9600, 8 data bits, 1 stop bit, no parity, flow control off and the read-callback registration, in that order, and only then sets `isSerialStarted` |
| `MovementModel.SendCommand` | TelepresenceBot/mobile/src/main/java/com/novoda/tpbot/bot/AndroidMovementService.java:171-179 | with a port, the write log grows by exactly one write of the command's bytes to that port; without one, nothing is written; no field changes either way |
| `MovementModel.Held` | TelepresenceBot/mobile/src/main/java/com/novoda/tpbot/bot/AndroidMovementService.java:193-200 | the resources teardown must close, each exactly once: the port if one is held, first, then the connection if one is held, and nothing else |
| `MovementModel.CloseConnection` | TelepresenceBot/mobile/src/main/java/com/novoda/tpbot/bot/AndroidMovementService.java:192-202 | afterwards port and connection are null, the link is not started and nothing is held. Each resource that was held is closed once, port before connection. `device` and the other logs are untouched |
| `MovementModel.CloseConnectionIdempotent` | TelepresenceBot/mobile/src/main/java/com/novoda/tpbot/bot/AndroidMovementService.java:192-202 | a second teardown changes nothing and closes nothing |
| `MovementModel.Step` | TelepresenceBot/mobile/src/main/java/com/novoda/tpbot/bot/AndroidMovementService.java:102-124 | a permission denial changes nothing; a detach or a destroy leaves no port, no connection, the link not started and `device` untouched; a command changes nothing but the write log |
| `MovementModel.ConfigurationBlocksAppend` | TelepresenceBot/mobile/src/main/java/com/novoda/tpbot/bot/AndroidMovementService.java:137-142 | appending one configuration sequence to a log of whole sequences keeps it a log of whole sequences |
| `MovementModel.InitialInv` | TelepresenceBot/mobile/src/main/java/com/novoda/tpbot/bot/AndroidMovementService.java:33-37 | the initial state satisfies the invariant |
| `MovementModel.StartInv` | TelepresenceBot/mobile/src/main/java/com/novoda/tpbot/bot/AndroidMovementService.java:71-81 | a start keeps the invariant; in particular it only requests permission for allow-listed devices, and the device it keeps is the one it requested |
| `MovementModel.StepInv` | TelepresenceBot/mobile/src/main/java/com/novoda/tpbot/bot/AndroidMovementService.java:102-124 | every event keeps the invariant: permission was only asked for allow-listed devices. A held device is allow-listed and is the one permission was last asked for. Port calls come in whole, correctly ordered configuration sequences, and the link is only marked started once one was issued |
| `MovementModel.RunInv` | TelepresenceBot/mobile/src/main/java/com/novoda/tpbot/bot/AndroidMovementService.java:60-202 | every sequence of events keeps the invariant |
| `MovementModel.RunAppend` | TelepresenceBot/mobile/src/main/java/com/novoda/tpbot/bot/AndroidMovementService.java:102-124 | running a trace and then one more event is stepping the trace's end state by that event |
| `MovementModel.RunLogsExtend` | TelepresenceBot/mobile/src/main/java/com/novoda/tpbot/bot/AndroidMovementService.java:60-202 | along any trace, the request, port-call, write and close logs only grow by appending |
| `MovementModel.TeardownLast` | TelepresenceBot/mobile/src/main/java/com/novoda/tpbot/bot/AndroidMovementService.java:182-190 | whatever came before, a trace ending in a detach or a destroy leaves no port, no connection and the link not started |
| `MovementModel.SendAfterTeardownWritesNothing` | TelepresenceBot/mobile/src/main/java/com/novoda/tpbot/bot/AndroidMovementService.java:171-179 | a command right after a detach or a destroy writes nothing |
| `MovementService.AndroidMovementService.constructor` | TelepresenceBot/mobile/src/main/java/com/novoda/tpbot/bot/AndroidMovementService.java:33-37 | fields start null and false; nothing is issued yet; the object invariant holds |
| `MovementService.AndroidMovementService.StartConnection` | TelepresenceBot/mobile/src/main/java/com/novoda/tpbot/bot/AndroidMovementService.java:60-88 | the search loop with its early `break` ends in the state `MovementModel.StartConnection` gives |
| `MovementService.AndroidMovementService.SetupSerialPort` | TelepresenceBot/mobile/src/main/java/com/novoda/tpbot/bot/AndroidMovementService.java:126-149 | ends in the state `MovementModel.SetupSerialPort` gives, issuing the configuration calls one by one |
| `MovementService.AndroidMovementService.SendCommand` | TelepresenceBot/mobile/src/main/java/com/novoda/tpbot/bot/AndroidMovementService.java:171-179 | ends in the state `MovementModel.SendCommand` gives |
| `MovementService.AndroidMovementService.CloseConnection` | TelepresenceBot/mobile/src/main/java/com/novoda/tpbot/bot/AndroidMovementService.java:192-202 | ends in the state `MovementModel.CloseConnection` gives |
| `MovementService.AndroidMovementService.OnStartCommand` | TelepresenceBot/mobile/src/main/java/com/novoda/tpbot/bot/AndroidMovementService.java:55 | starts a connection attempt, as `Step` on a service start |
| `MovementService.AndroidMovementService.OnPermissionGranted` | TelepresenceBot/mobile/src/main/java/com/novoda/tpbot/bot/AndroidMovementService.java:102-105 | runs the port setup unconditionally, as `Step` on a grant |
| `MovementService.AndroidMovementService.OnPermissionDenied` | TelepresenceBot/mobile/src/main/java/com/novoda/tpbot/bot/AndroidMovementService.java:107-111 | changes no field and issues nothing |
| `MovementService.AndroidMovementService.OnDeviceAttached` | TelepresenceBot/mobile/src/main/java/com/novoda/tpbot/bot/AndroidMovementService.java:113-117 | starts a connection attempt, as `Step` on an attach |
| `MovementService.AndroidMovementService.OnDeviceDetached` | TelepresenceBot/mobile/src/main/java/com/novoda/tpbot/bot/AndroidMovementService.java:119-124 | tears the connection down, as `Step` on a detach |
| `MovementService.AndroidMovementService.OnDestroy` | TelepresenceBot/mobile/src/main/java/com/novoda/tpbot/bot/AndroidMovementService.java:181-190 | tears the connection down, as `Step` on a destroy |
| `Scenarios.UnsupportedDeviceIsIgnored` | TelepresenceBot/mobile/src/main/java/com/novoda/tpbot/bot/AndroidMovementService.java:83-87 | with only a vendor ID 9999 device attached, a start leaves the initial state: no request |
| `Scenarios.SupportedDeviceRoundTrip` | TelepresenceBot/mobile/src/main/java/com/novoda/tpbot/bot/AndroidMovementService.java:60-202 | with devices [9999, 9025], the request goes to the 9025 device. After a grant and a successful open, "M100" reaches that port as exactly its four bytes. A detach then closes port and connection, and a later command is dropped |
| `Scenarios.StartTwiceRequestsTwice` | TelepresenceBot/mobile/src/main/java/com/novoda/tpbot/bot/AndroidMovementService.java:60-63 | before a port is open, two starts issue two permission requests |
| `Scenarios.StartWhenStartedChangesNothing` | TelepresenceBot/mobile/src/main/java/com/novoda/tpbot/bot/AndroidMovementService.java:60-63 | once the link is started, a start and an attach change nothing |
| `Scenarios.StaleGrantAfterDetachConnects` | TelepresenceBot/mobile/src/main/java/com/novoda/tpbot/bot/AndroidMovementService.java:102-105 | a grant that arrives after the device was detached still marks the link started, with `device` still set |
| `Scenarios.FailedOpenStillWrites` | TelepresenceBot/mobile/src/main/java/com/novoda/tpbot/bot/AndroidMovementService.java:145-148 | after a failed `open()` the port is kept, the started flag is unchanged, and a later command is written to that port |
| `Scenarios.SecondGrantWhileConnected` | TelepresenceBot/mobile/src/main/java/com/novoda/tpbot/bot/AndroidMovementService.java:126-133 | a second grant while connected replaces the first port and connection, which are never closed, and a later command is written to the second port. If it yields no port, the link stays started with no port |
| `Scenarios.GrantWithoutDeviceConnects` | TelepresenceBot/mobile/src/main/java/com/novoda/tpbot/bot/AndroidMovementService.java:126-143 | after a request for a supported device and an attach that cleared `device`, the grant, given a connection and a port that opens for the null device, marks the link started while `device` is null |
| `Scenarios.NoMatchDropsConnectionUnclosed` | TelepresenceBot/mobile/src/main/java/com/novoda/tpbot/bot/AndroidMovementService.java:83-87 | after a failed `open()`, a start that finds no supported device nulls `connection` and `device` without closing anything, and keeps the port |

## Left out

- SetupSerialPort: a setup with a null `device` is modelled as if `openDevice` and `createUsbSerialDevice` returned the results given as parameters. What the Android USB stack and the serial library do when given a null device is not modelled.

- The Android `Service` lifecycle (`onCreate`, `START_STICKY`), the `Binder` and `onBind`: framework plumbing with no effect on the connection fields. `OnStartCommand` models only the `startConnection` call of `onStartCommand`.
- Registering the `BroadcastReceiver` and dispatching intent actions through `MovementServiceIntentHandler`: that class is not part of this model. The hooks are direct method calls, and a grant or denial is whatever that handler decides.
- Unregistering the receiver in `onDestroy`, and the swallowed `IllegalArgumentException`: the receiver's registration is not modelled. Teardown runs either way.
- The `usbManager` field, set from `getSystemService` in `startConnection`: it only locates the USB manager, whose results are inputs here. A setup before any start would dereference a null manager, and that case is not modelled.
- `Toaster` and `Log` output: UI and logging.
- The read callback's UTF-8 decode and logging of received bytes: it touches no state. Its registration is logged as a port call.
- `command.getBytes()`: the platform charset encoding is a library call, so a command is modelled as its encoded bytes.
- The internals of `UsbManager` and of felhr's `UsbSerialDevice`: their results are inputs. Closing a port is recorded, not performed.
- Concurrency: callbacks are sequential method calls, as the code runs them.
- piano-hero's `AndroidGameMvpView`: pure delegation to UI collaborators, with no state of its own.
