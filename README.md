# Hegel H590 IP control: connection manager and platform state

A Dafny model of the Homebridge plugin that drives a Hegel H590 amplifier over
a raw TCP connection. It covers two parts of the plugin.

- **`HegelClient`** (`hegel_client.dfy`, `client_properties.dfy`) is the
  connection manager. It keeps one socket, a `connecting` flag, an inbound
  `buffer` and `lastActivity`. Each asynchronous callback of the source is one
  step here: `ensureConnected` up to its first suspension, one tick of its
  50 ms wait loop, and the socket's connect, connect-timeout, error, close and
  data callbacks. `send` after its await, and `disconnect`, are steps too. A
  driver may interleave the steps in any order the socket layer allows.
  Sockets are numbers in creation order: socket `i` belongs to attempt `i`.
  Clock readings are parameters. The pure step functions are the
  specification. Class `Client` holds the same state in fields, and each of
  its methods is proved to take exactly its step.
- **Framing** (`framing.dfy`): `command.trim() + "\r"`. The model uses
  JavaScript's exact trim whitespace set.
- **`HegelH590Platform`** (`platform.dfy`) is modelled without HomeKit. It
  covers the configuration defaults (`??`) and the choice of command for a
  power value or an input identifier. It also covers the optimistic fields
  `isOn` and `activeInput`, which change only after `client.send` resolves.
  Each setter is split at its `await` into a begin step and a finish step, so
  setters may resolve in any order. The send's outcome is a parameter of the
  finish step.

What the connection manager guarantees is stated as an invariant `Inv`:

- at most one attempt is in flight;
- `connecting` is set while one is;
- no attempt runs while a socket is live;
- no connected live socket exists other than the current one.

Every step keeps `Inv` except one: a close event from a socket that is not the
current, live one. Two edge cases of the code as written are proved on
concrete interleavings.

- **Stale close.** The close handler clears `socket` whichever socket
  closed. If an old socket's close arrives after a newer socket connected,
  the newer socket stays open but is forgotten. That socket's connect timer
  later clears the flag of the next attempt, and two attempts end up in
  flight.
- **Wedge.** A refused connection emits an error and then a close before the
  connect timer fires. The timer then finds its socket destroyed and leaves
  `connecting` set. From then on, whatever happens, no socket is ever opened
  again. Every wait ends in "Connect timeout", and the first attempt's promise
  never settles.

Behaviour of the code worth noting:

- trimming removes whitespace at both ends, not only trailing whitespace;
- the timeout handler tests the client-wide `connecting` flag, not a
  per-attempt token;
- the close handler clears the current socket even when a different socket
  closed;
- `send` tests only that a socket is set, not that it is live. A write on a
  socket that is set but destroyed fails without reaching the wire.

## Model

| member | source | states |
|---|---|---|
| Framing.TrimStart | src/hegelClient.ts:85 | the result is the suffix of the input left after a run of leading whitespace, and does not start with whitespace |
| Framing.TrimEnd | src/hegelClient.ts:85 | the result is the prefix left before a run of trailing whitespace, and does not end with whitespace |
| Framing.Trim | src/hegelClient.ts:85 | `trim()` is never longer than the command and neither starts nor ends with whitespace |
| Framing.TrimStartDropsWhitespace | src/hegelClient.ts:85 | everything trimming drops from the front is whitespace |
| Framing.TrimEndDropsWhitespace | src/hegelClient.ts:85 | everything trimming drops from the back is whitespace |
| Framing.TrimOfPadded | src/hegelClient.ts:85 | for any whitespace `w1`, `w2` and any trimmed `t`, trimming `w1 + t + w2` gives `t`, so trim is fully determined |
| Framing.TrimSingleCharacter | src/hegelClient.ts:85 | a one-character command trims to nothing iff the character is in the ECMAScript whitespace set |
| Framing.WhitespaceEdgeCases | src/hegelClient.ts:85 | no-break space, byte-order mark and ideographic space are trimmed; NEL and zero-width space are not |
| Framing.TrimIdempotent | src/hegelClient.ts:85 | trimming twice is trimming once |
| Framing.Frame | src/hegelClient.ts:85 | the bytes written end in `\r`, and everything before it is the trimmed command |
| Framing.FrameEndsWithOneCarriageReturn | src/hegelClient.ts:85 | the frame ends in exactly one carriage return: the character before it, if any, is not whitespace |
| Framing.FrameIgnoresPadding | src/hegelClient.ts:85 | whitespace around a command does not change the bytes written |
| Framing.FramePaddedInputCommand | src/hegelClient.ts:85 | `"  -i.10  "` is written as `-i.10\r` |
| Framing.FramePowerOnCommand | src/hegelClient.ts:85 | `"-p.1"` is written as `-p.1\r` |
| HegelClient.Ensure | src/hegelClient.ts:24-43 | returns at once with no change iff a live socket exists; waits with no change iff none is live and an attempt is flagged; otherwise starts the next attempt, numbered after all earlier ones, and sets `connecting`; nothing else changes |
| HegelClient.Tick | src/hegelClient.ts:28-36 | a tick resolves iff a live socket exists and `connecting` is false; otherwise it rejects with ConnectTimeout iff the elapsed time strictly exceeds `timeoutMs`, and else reschedules |
| HegelClient.ConnectStep | src/hegelClient.ts:61-67 | connect success makes the attempt's socket current, clears `connecting`, empties the buffer and resolves the attempt if it is still pending; nothing else changes |
| HegelClient.TimeoutStep | src/hegelClient.ts:69-77 | the timer does nothing if its socket is current; otherwise it clears `connecting`, destroys the socket and rejects with ConnectTimeout only if the socket is not destroyed and `connecting` is still set; it records that the timer fired, and nothing else changes |
| HegelClient.ErrorStep | src/hegelClient.ts:45-49 | an error adds exactly its socket to the destroyed ones, and nothing else changes |
| HegelClient.CloseStep | src/hegelClient.ts:56-59 | a close sets `socket` to none whichever socket closed and marks that socket destroyed and closed; nothing else changes |
| HegelClient.DataStep | src/hegelClient.ts:51-54 | data sets `lastActivity` to now and appends the chunk, keeping the old buffer as a prefix; nothing else changes |
| HegelClient.SendStep | src/hegelClient.ts:81-94 | NotConnected iff no socket is set; success iff the socket is live and the write is acknowledged; with a socket set, any other case fails with the write's error; a live socket gets exactly one write of the frame; nothing else changes |
| HegelClient.DisconnectStep | src/hegelClient.ts:96-102 | the socket is always forgotten; only a live socket is destroyed; nothing else changes |
| HegelClient.NextWellFormed | src/hegelClient.ts:12-16 | every step keeps the state well formed: ids refer to created sockets, the current socket has connected, closed sockets are destroyed |
| HegelClient.Client.constructor | src/hegelClient.ts:12-18 | a new client has no socket, no attempt, an empty buffer and `lastActivity` 0 |
| HegelClient.Client.EnsureConnected | src/hegelClient.ts:24-43 | the outcome and the new fields are those of `Ensure` on the old fields |
| HegelClient.Client.WaitTick | src/hegelClient.ts:30-34 | the tick's outcome is `Tick` of the current fields, which do not change |
| HegelClient.Client.OnConnect | src/hegelClient.ts:61-67 | the new fields are `ConnectStep` of the old |
| HegelClient.Client.OnTimeout | src/hegelClient.ts:70-77 | the new fields are `TimeoutStep` of the old |
| HegelClient.Client.OnError | src/hegelClient.ts:45-49 | the new fields are `ErrorStep` of the old |
| HegelClient.Client.OnClose | src/hegelClient.ts:56-59 | the new fields are `CloseStep` of the old |
| HegelClient.Client.OnData | src/hegelClient.ts:51-54 | the new fields are `DataStep` of the old |
| HegelClient.Client.Send | src/hegelClient.ts:81-94 | the outcome and the new fields are those of `SendStep` of the old |
| HegelClient.Client.Disconnect | src/hegelClient.ts:96-102 | the new fields are `DisconnectStep` of the old |
| ClientProperties.InitInv | src/hegelClient.ts:13-16 | a fresh client satisfies the invariant |
| ClientProperties.NextKeepsInv | src/hegelClient.ts:24-102 | every enabled step except a stale close keeps the invariant |
| ClientProperties.RunKeepsInv | src/hegelClient.ts:24-102 | any interleaving without stale closes keeps the invariant, so at most one attempt is ever in flight |
| ClientProperties.SecondCallerWaits | src/hegelClient.ts:25-37 | under the invariant, a caller arriving while an attempt is in flight waits and opens no socket |
| ClientProperties.SendWritesToTheOpenSocket | src/hegelClient.ts:82-93 | under the invariant, a command that reaches the wire is the frame of the command, written to the one connected socket that is not destroyed |
| ClientProperties.DisconnectIdempotent | src/hegelClient.ts:96-102 | disconnecting twice is the same as disconnecting once |
| ClientProperties.RunAppend | src/hegelClient.ts:24-102 | running one interleaving after another is running their concatenation |
| ClientProperties.StaleCloseSetupRun | src/hegelClient.ts:24-102 | connect, disconnect and reconnect leave socket 0 destroyed and socket 1 live and current, both attempts resolved |
| ClientProperties.StaleCloseTailRun | src/hegelClient.ts:56-77 | from there, the late close of socket 0, a new attempt, socket 1's timer and one more attempt leave socket 1 destroyed and attempts 2 and 3 pending with the flag set |
| ClientProperties.StaleCloseLeadsToTwoAttempts | src/hegelClient.ts:56-59 | connect, disconnect, reconnect, a late close of the first socket, a new attempt, the second socket's timer and one more attempt leave two attempts in flight; the close is a stale one |
| ClientProperties.WedgedStep | src/hegelClient.ts:70-76 | in a wedged client every enabled step leaves it wedged with no promise settled, and `ensureConnected` only waits |
| ClientProperties.WedgedForever | src/hegelClient.ts:70-76 | after any further interleaving a wedged client is still wedged: no promise settles, `ensureConnected` waits, and no tick resolves |
| ClientProperties.RefusedConnectionWedges | src/hegelClient.ts:45-77 | a fresh client whose first attempt errors and closes before its timer ends up wedged with that attempt's promise pending |
| Platform.Configure | src/platform.ts:59-74 | fails with the missing-host message iff the config or its host is absent or empty; otherwise keeps the host, and each other field is the supplied value, even an empty one, or its default only when absent |
| Platform.HostOnlyGetsDefaults | src/platform.ts:63-74 | a config with only a host gets the name "Hegel H590", commands -p.1, -p.0, -i.11, -i.10, port 50001, timeout 1500 and debug off |
| Platform.InputForIdentifier | src/platform.ts:152-157 | identifier 1 selects OPTICAL3, 2 selects USB, and every other identifier selects nothing |
| Platform.IdentifierOf | src/platform.ts:150 | the getter's identifier for an input is one the setter maps back to that input |
| Platform.StartupIdentifierOf | src/platform.ts:180 | the startup value is 1 iff the input is USB and 2 iff it is OPTICAL3 |
| Platform.IdentifierRoundTrip | src/platform.ts:150-161 | the setter selects an input from an identifier iff the getter reports that identifier for the input |
| Platform.StartupIdentifierNamesOtherInput | src/platform.ts:180 | the startup value, read with the getter's mapping, names the other input, so it never equals the getter's value |
| Platform.H590Platform.constructor | src/platform.ts:39-40 | a new platform has `isOn` false and `activeInput` OPTICAL3, and has sent no command |
| Platform.H590Platform.ActiveValue | src/platform.ts:136 | the Active getter returns ACTIVE iff `isOn`, INACTIVE otherwise |
| Platform.H590Platform.ActiveIdentifierValue | src/platform.ts:150 | the ActiveIdentifier getter returns 1 iff `activeInput` is OPTICAL3, and its value maps back to `activeInput` |
| Platform.H590Platform.StartupIdentifier | src/platform.ts:180 | the startup value is 1 iff `activeInput` is USB and 2 iff it is OPTICAL3, and always differs from the getter's |
| Platform.H590Platform.SendPower | src/platform.ts:198-200 | the client is asked to send the power-on command for on and the power-off command otherwise |
| Platform.H590Platform.BeginSetActive | src/platform.ts:137-139 | ON is requested iff the value is ACTIVE, and exactly that power command is sent |
| Platform.H590Platform.FinishSetActive | src/platform.ts:139-142 | once the send settles, `isOn` takes the request iff it resolved, else stays |
| Platform.H590Platform.SetActive | src/platform.ts:137-146 | run without interleaving: power-on is sent iff the value is ACTIVE, else power-off; `isOn` becomes the request only if the send resolved; the input is unchanged |
| Platform.H590Platform.BeginSendInput | src/platform.ts:203-205 | the client is asked to send the USB command for USB and the OPTICAL3 command otherwise |
| Platform.H590Platform.FinishSendInput | src/platform.ts:205-206 | once the send settles, `activeInput` becomes the input iff it resolved |
| Platform.H590Platform.SendInput | src/platform.ts:203-207 | run without interleaving: sends the input's command, and `activeInput` becomes that input only if the send resolved |
| Platform.H590Platform.BeginSetActiveIdentifier | src/platform.ts:151-162 | 1 sends the OPTICAL3 command and 2 the USB command and then waits; any other identifier sends nothing and pushes the getter's identifier at once |
| Platform.H590Platform.FinishSetActiveIdentifier | src/platform.ts:154-162 | once the send settles, the input is recorded and the getter's identifier pushed iff the send resolved |
| Platform.H590Platform.SetActiveIdentifier | src/platform.ts:151-163 | run without interleaving: 1 sends the OPTICAL3 command and 2 the USB command, any other id sends nothing and keeps `activeInput`; the input changes only after a resolved send; an identifier is pushed iff the id is neither 1 nor 2 or the send resolved, and it is the getter's |
| Platform.PowerSettersResolveOutOfOrder | src/platform.ts:137-142 | two Active setters whose sends resolve in the reverse order of the calls leave `isOn` on after ON and then OFF were sent, so "last command wins" does not hold |

## Left out

- Socket I/O is left out: opening the connection to host and port, `setNoDelay`, and the UTF-8 decoding of inbound chunks. Chunks are strings, and a write's acknowledgement is the parameter `writeOk`.
- Timers, `Date.now` and promise scheduling are left out. Times are parameters. `WaitTick` is one tick; rescheduling it every 50 ms is up to the driver.
- The promise of a caller that waits in the tick loop is not tracked. Only each attempt's own promise is.
- The socket layer's behaviour is stated as preconditions of the callbacks:
  - connect fires at most once, on a socket that is not destroyed;
  - an error fires on a socket that is not destroyed and destroys it;
  - close fires once and marks the socket destroyed;
  - the connect timer fires once;
  - data arrives only on a connected socket that is not destroyed.
- Logging and the `debug` gate (`d`, `log`, `warn`) are left out. They change no state.
- HomeKit registration and UI are left out: `setupAccessory` service creation, `ensureInputSource`, UUID generation, `configureAccessory` caching and the `RemoteKey` no-op. The Active `updateCharacteristic` after a power change is left out too.
- The shutdown hook that calls `disconnect` is left out; `Client.Disconnect` models that call.
- `src/index.ts` only registers the platform with Homebridge. It is not part of this model.
- `H590Platform` does not own a `Client`. Each `client.send` it makes is recorded in `sent`, and the send's resolution is the parameter `sendOk` of the finish step. Which pending setter finishes next is the caller's choice.
- Platform.H590Platform.FinishSetActiveIdentifier: the end of `sendInput` and the identifier push after it are one step. Another handler resuming between the two is not modelled.
- Characteristic values are integers, so `Number(value)` is the identity. A config `host` is a string or absent, so falsiness means empty.
