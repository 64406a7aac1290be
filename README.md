# TCP connectivity monitor, modelled in Dafny

This project models `NetworkConnectivity` from `ipc4/NetworkConnectivity.swift`. The
monitor opens a raw TCP connection to a host. It watches the connection's lifecycle
states and reports an online/offline flag with a status text to one registered
observer. It calls the observer only when the flag changes. It reconnects when the
connection is cancelled or the stream ends. It also runs a receive loop that throws the
received bytes away.

Two files:

- `connectivity_model.dfy` (module `ConnectivityModel`) is the value-level specification.
  `MonitorState` holds the three fields the class keeps (`online`, `host`,
  `tcpStreamAlive`). It also holds what the observer has received (`None` when no
  observer is registered) and ghost logs of the monitor's requests to the transport:
  connections opened (`openRequests`, one host per connection, so a connection is known
  by its index), connections cancelled, and receives issued. Each source method is a
  function from the old state to the new one. The function's `ensures` clauses give the
  source's promises for one call. `Step` and `Run` feed a trace of inputs through these
  functions, and the lemmas state properties of whole traces.
- `network_connectivity.dfy` (module `NetworkConnectivity`) is the imperative model.
  `Monitor` is a class with the source's fields, and `StatusObserver` is the observer as a
  sink. The framework callbacks become method calls: `StateDidChange` is the state update
  handler and `ReceiveCompleted` is the receive completion handler. Each method is proved
  to change `State()` exactly as the matching specification function says.
  `ObservedSession` is a client that drives one monitor through a whole session.

Three behaviours of the code that the model keeps as written:

- `setup(with:)` stores the host *before* it checks it (line 49). An empty host is
  rejected but still overwrites `host`. A later `cancelled` event then reconnects to the
  empty host (`EmptySetupThenCancelReconnectsToEmptyHost`).
- A second `setup` while the stream is alive only logs a message and then opens another
  connection (lines 45-57). So more than one connection can be open at once, and
  `SetupTwiceOpensTwice` records this.
- `validateHost` is a stub that accepts every host (lines 67-70). So only the empty host
  is ever rejected.

## Model

| member | source | states |
|---|---|---|
| ConnectivityModel.Initial | ipc4/NetworkConnectivity.swift:30-32 | a new monitor is offline, has an empty host, has no live stream and has made no transport requests |
| ConnectivityModel.ValidateHost | ipc4/NetworkConnectivity.swift:67-70 | every host passes the host check |
| ConnectivityModel.Translate | ipc4/NetworkConnectivity.swift:85-114 | only `ready` has flag true; the stream is alive after every state except `failed` and `cancelled`; only `cancelled` reconnects; `failed` reports `"Error: "` followed by the description, and every other state reports its own name |
| ConnectivityModel.Notify | ipc4/NetworkConnectivity.swift:150-158 | a registered observer gets one notification if and only if the new flag differs from the stored one; the stored flag then equals the new flag; an unchanged flag leaves the whole state unchanged; nothing else changes |
| ConnectivityModel.IssueReceive | ipc4/NetworkConnectivity.swift:117-118 | exactly one receive is appended, on the given connection, asking for 1 to 65536 bytes; nothing else changes |
| ConnectivityModel.OpenConnection | ipc4/NetworkConnectivity.swift:73-82 | exactly one connection to the current host is opened, and its first receive is issued on that new connection; nothing else changes |
| ConnectivityModel.SetupSpec | ipc4/NetworkConnectivity.swift:43-61 | the host is always overwritten; an empty host opens nothing; a non-empty host opens exactly one connection whether or not a stream is alive; no notification is sent and online/alive are untouched |
| ConnectivityModel.StateDidChangeSpec | ipc4/NetworkConnectivity.swift:85-114 | afterwards online holds exactly for `ready`; liveness follows the state table; the observer hears of the state exactly when its flag flips; `cancelled` opens exactly one connection to the current host; every other state opens none |
| ConnectivityModel.ReceiveCompletedSpec | ipc4/NetworkConnectivity.swift:117-137 | end of stream cancels that connection, clears liveness and opens exactly one connection to the same host, even if an error is present too; an error alone changes nothing and issues no further receive; otherwise exactly one more receive is issued on the same connection; online, host and observer never change |
| ConnectivityModel.ByteCountIrrelevant | ipc4/NetworkConnectivity.swift:120-122 | the number of received bytes has no effect on the resulting state |
| ConnectivityModel.StepKeepsAlternating | ipc4/NetworkConnectivity.swift:150-158 | each input keeps the observer's notifications alternating and keeps the stored flag equal to the last one sent |
| ConnectivityModel.OnlineTracksLastState | ipc4/NetworkConnectivity.swift:85-114 | after any trace, the stored flag is true exactly when the last state event was `ready`, or is unchanged when there was no state event |
| ConnectivityModel.ReachableOnlineIffReady | ipc4/NetworkConnectivity.swift:87-110 | in every state reachable from a new monitor, online is true exactly when the last state event was `ready` |
| ConnectivityModel.HostIsLastSetup | ipc4/NetworkConnectivity.swift:43-54 | after any trace, the host is the one from the last setup call, even an invalid one |
| ConnectivityModel.ObserverPresenceKept | ipc4/NetworkConnectivity.swift:37 | the monitor never registers or drops an observer itself |
| ConnectivityModel.LogLengths | ipc4/NetworkConnectivity.swift:43-137 | connections opened = non-empty setups + `cancelled` events + ends of stream; receives issued = connections opened + completions that continue the loop |
| ConnectivityModel.ReceivesStayBounded | ipc4/NetworkConnectivity.swift:118 | in every trace, every receive request asks for a minimum of 1 and a maximum of 65536 bytes |
| ConnectivityModel.NotificationsAlternate | ipc4/NetworkConnectivity.swift:150-158 | the de-duplication rule over whole traces: notifications alternate, and the stored flag is the last one sent |
| ConnectivityModel.ObservedMonitorAlternates | ipc4/NetworkConnectivity.swift:150-158 | an observer registered on a new monitor receives true, false, true, ... in that order; online holds exactly when an odd number were sent |
| ConnectivityModel.EmptySetupThenCancelReconnectsToEmptyHost | ipc4/NetworkConnectivity.swift:43-107 | `setup("")` followed by `cancelled` opens exactly one connection, to the empty host |
| ConnectivityModel.EndOfStreamThenCancelledReconnectsTwice | ipc4/NetworkConnectivity.swift:124-128 | an end of stream followed by the `cancelled` event its cancel causes opens two connections: one from the receive handler, one from the state handler |
| ConnectivityModel.SetupTwiceOpensTwice | ipc4/NetworkConnectivity.swift:45-57 | setup, `ready`, then setup again gives two open requests while the stream is alive, with nothing cancelled, so both connections are open |
| ConnectivityModel.EndToEndScenario | ipc4/NetworkConnectivity.swift:85-114 | setup then `setup`, `ready`, `failed("timeout")`, `cancelled`: the observer hears exactly `(true, "ready")` and `(false, "Error: timeout")`; exactly one reconnect to the same host follows |
| NetworkConnectivity.StatusObserver.NetworkStatusChanged | ipc4/NetworkConnectivity.swift:12-14 | the observer records exactly the notification it is given |
| NetworkConnectivity.Monitor.constructor | ipc4/NetworkConnectivity.swift:30-32 | a new monitor is in the initial state and has no observer |
| NetworkConnectivity.Monitor.Setup | ipc4/NetworkConnectivity.swift:43-61 | updates the state as `SetupSpec` says and keeps the observer registration |
| NetworkConnectivity.Monitor.SetupNWConnection | ipc4/NetworkConnectivity.swift:73-82 | updates the state as `OpenConnection` says |
| NetworkConnectivity.Monitor.StateDidChange | ipc4/NetworkConnectivity.swift:85-114 | updates the state, including the observer's log, as `StateDidChangeSpec` says |
| NetworkConnectivity.Monitor.SetupReceive | ipc4/NetworkConnectivity.swift:117-118 | updates the state as `IssueReceive` says |
| NetworkConnectivity.Monitor.ReceiveCompleted | ipc4/NetworkConnectivity.swift:118-136 | updates the state as `ReceiveCompletedSpec` says |
| NetworkConnectivity.Monitor.NotifyDelegateOnChange | ipc4/NetworkConnectivity.swift:150-158 | updates the flag and the observer's log as `Notify` says |
| NetworkConnectivity.ObservedSession | ipc4/NetworkConnectivity.swift:85-114 | a client running the session of `EndToEndScenario` on the class ends offline with no live stream; its observer received exactly `(true, "ready")` and `(false, "Error: timeout")` |

## Left out

- `ipc4/ViewController.swift`: UI layout, audio session setup, RTMP publishing through a third-party library, and local IP address discovery through OS calls. None of it is part of the monitor.
- Network framework behaviour: endpoint construction, the fixed port 80, TCP parameters and `start(queue:)`. A connection is only its index in the log of open requests.
- Scheduling on a global dispatch queue and all concurrency: callbacks are sequential method calls.
- The weak reference to the observer: the observer is a nullable field, and the monitor neither sets nor clears it (`ObserverPresenceKept`).
- All `print` logging, including the message for a second setup and the received byte count.
- The OS-version check around `setupNWConnection` (lines 56-60): the model assumes the available path.
- The `@unknown default` assertion (lines 111-112): the state type is closed, so it cannot occur.
- `sendEndOfStream` (lines 140-148): nothing calls it.
- The `shared` singleton (line 25): monitors are constructed explicitly.
- State events are independent inputs. The model does not produce the `cancelled` event that the framework reports after the monitor cancels a connection at end of stream (line 126). A client feeds that event itself, and it then reconnects a second time (`EndOfStreamThenCancelledReconnectsTwice`). So the counts in `LogLengths` count each end of stream and each `cancelled` event separately.
- Error values: a failure carries only its description string, and a receive error is only a flag.
- Received data: only its size is kept, as `byteCount`, and it affects nothing.
- NetworkConnectivity.Monitor.ReceiveCompleted: requires the completion to belong to a connection the monitor has opened. The model does not check that a receive was still outstanding on it, because the framework delivers completions only for issued receives and the model does not track that.
