# UsbSerialImuManager in Dafny

A model of the `UsbSerialImuManager` Unity component (Android build). The
component keeps a serial connection to an IMU device, polls it once per frame,
and decodes text lines such as `W: 0.12 X: 0.23 Y: -0.96 Z: 0.06` into
orientation samples. It is modelled in two parts.

- **Frame decoder** (`frame.dfy`, using `text.dfy`):
  - `ParseImuData` splits a line on single spaces, as .NET `String.Split(' ')` does (`Text.Split`).
  - It scans the tokens for the markers `W:`, `X:`, `Y:` and `Z:` and parses the token after each one.
  - It builds the orientation in the engine's (x, y, z, w) order.
  - `ParseVector3` and `ParseQuaternion` are the comma-separated helper formats.
  - `float.TryParse` is the parameter `parse: string -> Option<real>`. A failed parse stores 0, as the `out` argument does.
- **Connection controller** (`connection.dfy`):
  - The manager is an immutable `Manager` record. Every entry point is a pure step function returning a `Step`: the new manager, the events subscribers receive (`Connected`, `Disconnected`, `Error(msg)`, `Sample(data)`) and the transport calls made (`Call`).
  - The Java transport is an oracle. Its answer to each call is an input of the step: returned true or false, returned a line, or threw with a message.
  - `Update` is one host frame (`Tick`). Its inputs are `Time.deltaTime`, `Time.time` and the transport's answers.
  - `Run` is a sequence of frames.

The invariant tying the two halves of the state machine together is
`Announces`. Replaying the connection events of a step from the old state
(`Replay`) gives the new `isConnected`. It holds for `Update`, `Disconnect`,
`ReadData`, `SendCommand`, every `Run`, and `Connect` from a disconnected
state. It fails for `Connect` on a live connection whose retry fails:
`ConnectWhileConnectedDropsSilently` exhibits this unguarded case of the
source.

Some behaviour of the code differs from what a reader might assume. The model follows the code as written:
- A failed parse after a marker overwrites an earlier good value with 0. It does not keep the earlier value.
- Lines are split on the single character `' '`, so repeated spaces give empty tokens. They are not split on any whitespace.
- A throwing transport `disconnect` leaves `isConnected` true and emits no event.
- `Connect` never resets the reconnect timer. Only `Update` does, before it attempts a connection.
- `Connect` has no guard against an existing connection.
- The connect errors are `"Connection failed"` and `"Connection error: " + message`. A failed plugin creation reports `"Plugin initialization failed: " + message`.

## Model

| member | source | states |
|---|---|---|
| Text.Split | UsbSerialImuManager/UsbSerialImuManager.cs:221 | `Split(' ')` yields one more piece than there are separators, and no piece contains the separator. Joining the pieces gives the line back. |
| Text.SplitJoin | UsbSerialImuManager/UsbSerialImuManager.cs:260 | Splitting separator-free pieces joined by the separator gives the same pieces back, so split and join are inverses. |
| Frame.LastMarker | UsbSerialImuManager/UsbSerialImuManager.cs:223-235 | Finds the last examined index that holds a given marker: no later examined index holds it. If there is none, no examined index holds it. |
| Frame.ScanFindsLastMarker | UsbSerialImuManager/UsbSerialImuManager.cs:219-236 | The loop over `i < tokens.Length - 1` ends with, for each axis, the parse of the token after the last occurrence of its marker, or 0 when the marker is absent. |
| Frame.ParseImuData | UsbSerialImuManager/UsbSerialImuManager.cs:214-243 | Each decoded orientation component is the last-occurrence value of its marker in the space-split line. Acceleration, gyroscope and magnetometer are zero. The timestamp is the current time. |
| Frame.AppendedPairWins | UsbSerialImuManager/UsbSerialImuManager.cs:223-235 | Appending `M v` makes the axis of `M` equal to the parse of `v`. An unparseable `v` gives 0, overriding any earlier good value. After a value token, every other axis is unchanged. |
| Frame.TrailingMarkerIgnored | UsbSerialImuManager/UsbSerialImuManager.cs:223 | A marker as the final token is never examined. Appending one after a value token changes no component. |
| Frame.NoMarkerGivesZeroQuaternion | UsbSerialImuManager/UsbSerialImuManager.cs:219-243 | A line with no marker token still yields a sample. Its quaternion is (0, 0, 0, 0) and it is not an error. |
| Frame.FrameRoundTrip | UsbSerialImuManager/UsbSerialImuManager.cs:214-243 | Decoding a rendered frame gives back every sent axis and 0 for each missing one, for any marker order. The only assumption is that each of the quaternion's own four components prints as a token that re-parses to it and is neither a marker nor contains a space. |
| Frame.MarkerOrderIrrelevant | UsbSerialImuManager/UsbSerialImuManager.cs:223-236 | Two frames sending the same axes in different orders decode to the same orientation, under the same per-component assumption. |
| Frame.OnlyZSentExample | UsbSerialImuManager/UsbSerialImuManager.cs:219-239 | With a concrete parser and printer that meet that assumption, a frame sending only `Z:` decodes z back, and the unsent w decodes as 0 although the original w is 1. |
| Frame.ParseVector3 | UsbSerialImuManager/UsbSerialImuManager.cs:258-273 | The result is the zero vector unless the value has exactly two commas, that is, exactly three parts. |
| Frame.Vector3Parts | UsbSerialImuManager/UsbSerialImuManager.cs:260-272 | Any three comma-free parts joined by commas are read as (TryParse of part 0, part 1, part 2) = (x, y, z). |
| Frame.Vector3FailedPartIsZero | UsbSerialImuManager/UsbSerialImuManager.cs:267-270 | Whichever of the three parts fails to parse gives 0 in its position, and the other two parts are still read. |
| Frame.ParseQuaternion | UsbSerialImuManager/UsbSerialImuManager.cs:278-294 | The result is the identity (0, 0, 0, 1) unless the value has exactly three commas, that is, exactly four parts. |
| Frame.QuaternionParts | UsbSerialImuManager/UsbSerialImuManager.cs:280-293 | Any four comma-free parts joined by commas are read with part 0 as w and parts 1-3 as x, y, z, giving Quaternion(x, y, z, w). |
| Connection.InitializePlugin | UsbSerialImuManager/UsbSerialImuManager.cs:103-119 | The plugin exists afterwards exactly when it already existed or creation succeeded. A successful creation changes nothing but the plugin flag and emits nothing. A failed creation leaves the state unchanged and emits one `Plugin initialization failed` error. |
| Connection.Connect | UsbSerialImuManager/UsbSerialImuManager.cs:124-159 | Exactly one event. Transport true gives connected and `Connected`; false gives disconnected and `Connection failed`; a throw gives disconnected and `Connection error: msg`. The reconnect timer is untouched. An unavailable plugin leaves the state unchanged. From a disconnected state the change is announced. The state invariant is kept. |
| Connection.Disconnect | UsbSerialImuManager/UsbSerialImuManager.cs:164-182 | Acts only when the plugin exists and is connected. Success gives disconnected and one `Disconnected`. A throw leaves the state connected with no event. Changes are always announced. The state invariant is kept. |
| Connection.ReadData | UsbSerialImuManager/UsbSerialImuManager.cs:187-208 | Does nothing unless connected. An empty line changes nothing. A line gives exactly one `Sample`, equal to the new `currentData`, carrying the line's last-marker values. A throw gives disconnected and one `Disconnected`, with no error. The state invariant is kept. |
| Connection.SendCommand | UsbSerialImuManager/UsbSerialImuManager.cs:299-315 | Never changes state or emits an event. The command reaches the transport verbatim exactly when connected, and no call is made otherwise. |
| Connection.Update | UsbSerialImuManager/UsbSerialImuManager.cs:65-81 | While disconnected with auto-connect on, the timer grows by the tick. Connect is attempted exactly when the timer reaches the interval, after resetting the timer to 0, and a success is followed by one read in the same tick. When connected, the timer is kept and one read is made. Auto-connect off and disconnected does nothing. A connected tick yields exactly what `ReadData` yields: its sample, new `currentData`, or `Disconnected`. A due tick yields the `Connect` step's events, followed by the read's when the connect succeeded. The invariant is kept. |
| Connection.OnApplicationPause | UsbSerialImuManager/UsbSerialImuManager.cs:88-98 | Pausing is exactly `Disconnect`, so a throwing disconnect leaves it connected with no event. Pausing never connects. Resuming with auto-connect is exactly `Connect`, whatever the timer, and the timer is kept. Resuming without auto-connect does nothing. From a disconnected state every change is announced, and the state invariant is kept. |
| Connection.RunAnnounces | UsbSerialImuManager/UsbSerialImuManager.cs:65-81 | Over any sequence of ticks, the events announce every change of `isConnected`. |
| Connection.RunPreservesValid | UsbSerialImuManager/UsbSerialImuManager.cs:65-81 | With non-negative tick times, the timer stays non-negative and a connection implies the plugin exists. |
| Connection.QuietBeforeInterval | UsbSerialImuManager/UsbSerialImuManager.cs:67-75 | Ticks whose total stays below the interval make no transport call and no event. They only add their time to the timer. |
| Connection.ReconnectWhenIntervalReached | UsbSerialImuManager/UsbSerialImuManager.cs:67-80 | The tick that makes the total reach the interval makes exactly one connect call and resets the timer to 0. It reads once more only if the connect succeeded. |
| Connection.ConnectWhileConnectedDropsSilently | UsbSerialImuManager/UsbSerialImuManager.cs:137-148 | On a live connection, a failed `Connect` leaves the manager disconnected without any `Disconnected` event. |
| Frame.DecodeExampleLine | UsbSerialImuManager/UsbSerialImuManager.cs:218-239 | The example frame's tokens decode to x = 0.23, y = -0.96, z = 0.06, w = 0.12. |
| Connection.ConnectSampleUnplug | UsbSerialImuManager/UsbSerialImuManager.cs:187-208 | Session: a due tick connects and reads the example frame, then a throwing read follows. Subscribers see `Connected`, one sample with that orientation, then `Disconnected`, and no error. |

## Left out

- `GetConnectedDevices`: JNI array marshalling. It returns the devices read before any error, or none when the plugin is missing or the array call fails.
- `Awake`, `Start` and `OnDestroy`: Unity lifecycle wiring. `OnDestroy` is `Disconnect`. `Start` is `Connect` when auto-connect is on.
- `InitializePlugin`: the JNI object construction is only an outcome, either loaded or threw with a message. Java class loading is not modelled.
- The Java plugin (`UsbSerialPlugin`): it is the opaque transport. Its driver probing, permission handling and reader thread are outside the model. Its `readData` returns `""` when nothing is buffered, so a null line is not modelled separately.
- Float semantics: numbers are `real`, with no IEEE rounding or overflow. `float.TryParse` (culture, number styles) is the parameter `parse`. `Time.deltaTime` and `Time.time` are tick inputs.
- Exceptions thrown by subscriber code are not modelled anywhere. In the source, a throwing `OnConnected` subscriber inside `Connect`'s try block turns a success into `isConnected = false` plus a `Connection error` event. A throwing `OnIMUDataReceived` subscriber is swallowed by `ParseIMUData`'s catch. The model assumes subscribers return normally.
- The `catch` branch of `ParseIMUData` otherwise: splitting a non-null string cannot throw.
- Debug logging, the non-Android `#else` branches (logging only), and multi-subscriber delegate fan-out: events are appended to one trace.
