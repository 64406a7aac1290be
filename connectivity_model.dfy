/** Value-level specification of the TCP connectivity monitor of
    ipc4/NetworkConnectivity.swift.

    The monitor's externally visible state is a `MonitorState`: the three fields the
    class keeps (`online`, `host`, `tcpStreamAlive`), what an attached observer has been
    told, and logs of what the monitor asked of the transport (connections opened,
    connections cancelled, receive requests issued). Each operation of the class is a
    function from the old state to the new one; `Step` and `Run` feed a whole trace of
    inputs (setup calls, transport state events, receive completions) through them. */
module ConnectivityModel {

  /** The receive window of every receive request. */
  const MINIMUM_INCOMPLETE_LENGTH: nat := 1
  const MAXIMUM_LENGTH: nat := 65536

  datatype Option<T> = None | Some(value: T)

  /** The six lifecycle states a transport reports. */
  datatype ConnectionState =
    | Setup
    | Waiting
    | Preparing
    | Ready
    | Failed(description: string)
    | Cancelled

  /** One call of the observer's `networkStatusChanged(online:connectivityStatus:)`. */
  datatype Notification = Notification(online: bool, connectivityStatus: string)

  /** One `receive(minimumIncompleteLength:maximumLength:)` issued on connection number
      `connection` (connections are numbered in the order they were opened). */
  datatype ReceiveRequest = ReceiveRequest(connection: nat, minimumIncompleteLength: nat, maximumLength: nat)

  /** What a state event means for the monitor: the status flag and text it reports,
      the value it gives `tcpStreamAlive`, and whether it reopens the transport. */
  datatype Transition = Transition(statusFlag: bool, connectivityStatus: string, tcpStreamAlive: bool, reconnects: bool)

  /** `observer` is `None` when no observer is registered, and otherwise the
      notifications the registered observer has received. */
  datatype MonitorState = MonitorState(
    online: bool,
    host: string,
    tcpStreamAlive: bool,
    observer: Option<seq<Notification>>,
    openRequests: seq<string>,
    cancelled: seq<nat>,
    receives: seq<ReceiveRequest>)

  /** The inputs that drive the monitor. `byteCount` is the size of the received data,
      which the monitor only logs. */
  datatype Input =
    | SetupCall(hostURL: string)
    | StateChange(state: ConnectionState)
    | ReceiveCompletion(connection: nat, isComplete: bool, hasError: bool, byteCount: nat)

  /** A freshly constructed monitor, with or without a registered observer. */
  function Initial(observed: bool): (s: MonitorState)
    ensures !s.online && s.host == "" && !s.tcpStreamAlive
    ensures s.openRequests == [] && s.cancelled == [] && s.receives == []
    ensures s.observer == if observed then Some([]) else None
  {
    MonitorState(false, "", false, if observed then Some([]) else None, [], [], [])
  }

  /** The host check is a stub that accepts every host. */
  function ValidateHost(hostURL: string): (valid: bool)
    ensures valid
  {
    true
  }

  /** The state table of `stateDidChange(to:)`. */
  function Translate(state: ConnectionState): (t: Transition)
    ensures t.statusFlag <==> state == Ready
    ensures t.tcpStreamAlive <==> !(state.Failed? || state.Cancelled?)
    ensures t.reconnects <==> state == Cancelled
    ensures state.Failed? ==> t.connectivityStatus == "Error: " + state.description
    ensures state == Setup ==> t.connectivityStatus == "setup"
    ensures state == Waiting ==> t.connectivityStatus == "waiting"
    ensures state == Preparing ==> t.connectivityStatus == "preparing"
    ensures state == Ready ==> t.connectivityStatus == "ready"
    ensures state == Cancelled ==> t.connectivityStatus == "cancelled"
  {
    match state
    case Setup => Transition(false, "setup", true, false)
    case Waiting => Transition(false, "waiting", true, false)
    case Ready => Transition(true, "ready", true, false)
    case Failed(description) => Transition(false, "Error: " + description, false, false)
    case Cancelled => Transition(false, "cancelled", false, true)
    case Preparing => Transition(false, "preparing", true, false)
  }

  /** `notifyDelegateOnChange`: the observer hears of a status only when its flag differs
      from the stored one; the stored flag then follows. */
  function Notify(s: MonitorState, newStatusFlag: bool, connectivityStatus: string): (r: MonitorState)
    ensures r.online == newStatusFlag
    ensures r.observer != s.observer <==> newStatusFlag != s.online && s.observer.Some?
    ensures r.observer != s.observer ==>
              r.observer == Some(s.observer.value + [Notification(newStatusFlag, connectivityStatus)])
    ensures newStatusFlag == s.online ==> r == s
    ensures r == s.(online := r.online, observer := r.observer)
  {
    if newStatusFlag != s.online then
      var observer := match s.observer
        case None => None
        case Some(received) => Some(received + [Notification(newStatusFlag, connectivityStatus)]);
      s.(online := newStatusFlag, observer := observer)
    else
      s
  }

  /** `setupReceive(on:)` issuing one receive on connection `connection`. */
  function IssueReceive(s: MonitorState, connection: nat): (r: MonitorState)
    ensures r.receives == s.receives + [ReceiveRequest(connection, MINIMUM_INCOMPLETE_LENGTH, MAXIMUM_LENGTH)]
    ensures r == s.(receives := r.receives)
  {
    s.(receives := s.receives + [ReceiveRequest(connection, MINIMUM_INCOMPLETE_LENGTH, MAXIMUM_LENGTH)])
  }

  /** `setupNWConnection`: opens one connection to the current host and issues the first
      receive on it. */
  function OpenConnection(s: MonitorState): (r: MonitorState)
    ensures r.openRequests == s.openRequests + [s.host]
    ensures r.receives == s.receives + [ReceiveRequest(|s.openRequests|, MINIMUM_INCOMPLETE_LENGTH, MAXIMUM_LENGTH)]
    ensures r == s.(openRequests := r.openRequests, receives := r.receives)
  {
    IssueReceive(s.(openRequests := s.openRequests + [s.host]), |s.openRequests|)
  }

  /** `setup(with:)`: stores the host first, then opens a connection unless the host is
      empty; whether a stream is already alive does not matter. */
  function SetupSpec(s: MonitorState, hostURL: string): (r: MonitorState)
    ensures r.host == hostURL
    ensures r.online == s.online && r.tcpStreamAlive == s.tcpStreamAlive && r.observer == s.observer
    ensures r.cancelled == s.cancelled
    ensures hostURL == "" ==> r.openRequests == s.openRequests && r.receives == s.receives
    ensures hostURL != "" ==> r.openRequests == s.openRequests + [hostURL]
    ensures hostURL != "" ==> r.receives == s.receives + [ReceiveRequest(|s.openRequests|, MINIMUM_INCOMPLETE_LENGTH, MAXIMUM_LENGTH)]
  {
    var s1 := s.(host := hostURL);
    if |hostURL| > 0 && ValidateHost(hostURL) then OpenConnection(s1) else s1
  }

  /** `stateDidChange(to:)`. */
  function StateDidChangeSpec(s: MonitorState, state: ConnectionState): (r: MonitorState)
    ensures r.online <==> state == Ready
    ensures r.tcpStreamAlive <==> !(state.Failed? || state.Cancelled?)
    ensures r.host == s.host && r.cancelled == s.cancelled
    ensures r.observer ==
              if (state == Ready) != s.online && s.observer.Some?
              then Some(s.observer.value + [Notification(state == Ready, Translate(state).connectivityStatus)])
              else s.observer
    ensures state == Cancelled ==> r.openRequests == s.openRequests + [s.host]
    ensures state == Cancelled ==> r.receives == s.receives + [ReceiveRequest(|s.openRequests|, MINIMUM_INCOMPLETE_LENGTH, MAXIMUM_LENGTH)]
    ensures state != Cancelled ==> r.openRequests == s.openRequests && r.receives == s.receives
  {
    var t := Translate(state);
    var s1 := Notify(s, t.statusFlag, t.connectivityStatus).(tcpStreamAlive := t.tcpStreamAlive);
    if t.reconnects then OpenConnection(s1) else s1
  }

  /** The completion handler of a receive on connection `connection`: end of stream
      cancels and reconnects (even when an error is reported too), an error ends the
      receive loop, anything else issues the next receive on the same connection. */
  function ReceiveCompletedSpec(s: MonitorState, connection: nat, isComplete: bool, hasError: bool, byteCount: nat): (r: MonitorState)
    ensures r.online == s.online && r.host == s.host && r.observer == s.observer
    ensures isComplete ==> !r.tcpStreamAlive
    ensures isComplete ==> r.cancelled == s.cancelled + [connection] && r.openRequests == s.openRequests + [s.host]
    ensures isComplete ==> r.receives == s.receives + [ReceiveRequest(|s.openRequests|, MINIMUM_INCOMPLETE_LENGTH, MAXIMUM_LENGTH)]
    ensures !isComplete && hasError ==> r == s
    ensures !isComplete && !hasError ==>
              r == s.(receives := s.receives + [ReceiveRequest(connection, MINIMUM_INCOMPLETE_LENGTH, MAXIMUM_LENGTH)])
  {
    if isComplete then
      OpenConnection(s.(cancelled := s.cancelled + [connection], tcpStreamAlive := false))
    else if hasError then
      s
    else
      IssueReceive(s, connection)
  }

  function Step(s: MonitorState, input: Input): (r: MonitorState)
  {
    match input
    case SetupCall(hostURL) => SetupSpec(s, hostURL)
    case StateChange(state) => StateDidChangeSpec(s, state)
    case ReceiveCompletion(connection, isComplete, hasError, byteCount) =>
      ReceiveCompletedSpec(s, connection, isComplete, hasError, byteCount)
  }

  /** The state after feeding `inputs`, in order, to the monitor in state `s`. */
  function Run(s: MonitorState, inputs: seq<Input>): (r: MonitorState)
    decreases |inputs|
  {
    if |inputs| == 0 then s else Step(Run(s, inputs[..|inputs| - 1]), inputs[|inputs| - 1])
  }

  /** The most recent transport state event of a trace, if any. */
  function LastState(inputs: seq<Input>): (r: Option<ConnectionState>)
    decreases |inputs|
  {
    if |inputs| == 0 then None
    else if inputs[|inputs| - 1].StateChange? then Some(inputs[|inputs| - 1].state)
    else LastState(inputs[..|inputs| - 1])
  }

  /** The host of the most recent setup call of a trace, if any. */
  function LastSetupHost(inputs: seq<Input>): (r: Option<string>)
    decreases |inputs|
  {
    if |inputs| == 0 then None
    else if inputs[|inputs| - 1].SetupCall? then Some(inputs[|inputs| - 1].hostURL)
    else LastSetupHost(inputs[..|inputs| - 1])
  }

  /** Whether an input makes the monitor open a connection. */
  predicate Opens(input: Input)
  {
    match input
    case SetupCall(hostURL) => hostURL != ""
    case StateChange(state) => state == Cancelled
    case ReceiveCompletion(_, isComplete, _, _) => isComplete
  }

  /** Whether an input is a receive completion that continues the receive loop. */
  predicate Continues(input: Input)
  {
    input.ReceiveCompletion? && !input.isComplete && !input.hasError
  }

  function CountOpens(inputs: seq<Input>): (r: nat)
    decreases |inputs|
  {
    if |inputs| == 0 then 0
    else CountOpens(inputs[..|inputs| - 1]) + (if Opens(inputs[|inputs| - 1]) then 1 else 0)
  }

  function CountContinues(inputs: seq<Input>): (r: nat)
    decreases |inputs|
  {
    if |inputs| == 0 then 0
    else CountContinues(inputs[..|inputs| - 1]) + (if Continues(inputs[|inputs| - 1]) then 1 else 0)
  }

  /** Every receive request asks for between 1 and 65536 bytes. */
  predicate ReceivesBounded(s: MonitorState)
  {
    forall k :: 0 <= k < |s.receives| ==>
      s.receives[k].minimumIncompleteLength == MINIMUM_INCOMPLETE_LENGTH &&
      s.receives[k].maximumLength == MAXIMUM_LENGTH
  }

  /** With an observer registered from the start, the notifications it has received
      alternate true, false, true, ... and the stored flag is the last one sent, or
      false (the initial flag) when none was sent. */
  predicate Alternating(s: MonitorState)
  {
    s.observer.Some? &&
    (forall k :: 0 <= k < |s.observer.value| ==> s.observer.value[k].online == (k % 2 == 0)) &&
    s.online == (|s.observer.value| % 2 == 1)
  }

  // ---------------------------------------------------------------------------
  // Properties of single steps

  /** The number of received bytes never influences the monitor. */
  lemma ByteCountIrrelevant(s: MonitorState, connection: nat, isComplete: bool, hasError: bool, n: nat, m: nat)
    ensures ReceiveCompletedSpec(s, connection, isComplete, hasError, n) ==
            ReceiveCompletedSpec(s, connection, isComplete, hasError, m)
  {
  }

  /** Each single input keeps the notifications alternating. */
  lemma StepKeepsAlternating(s: MonitorState, input: Input)
    requires Alternating(s)
    ensures Alternating(Step(s, input))
  {
  }

  // ---------------------------------------------------------------------------
  // Properties of whole traces

  /** The stored flag is that of the last transport state event: true exactly when that
      event was `ready`. Setup calls and receive completions leave it alone. */
  lemma {:induction false} OnlineTracksLastState(s: MonitorState, inputs: seq<Input>)
    ensures Run(s, inputs).online ==
            match LastState(inputs)
            case None => s.online
            case Some(state) => state == Ready
    decreases |inputs|
  {
    if |inputs| > 0 {
      OnlineTracksLastState(s, inputs[..|inputs| - 1]);
    }
  }

  /** In every state reachable from a new monitor, `online` holds exactly when the last
      transport state event was `ready`. */
  lemma {:induction false} ReachableOnlineIffReady(observed: bool, inputs: seq<Input>)
    ensures Run(Initial(observed), inputs).online <==> LastState(inputs) == Some(Ready)
  {
    OnlineTracksLastState(Initial(observed), inputs);
  }

  /** The stored host is that of the last setup call, valid or not. */
  lemma {:induction false} HostIsLastSetup(s: MonitorState, inputs: seq<Input>)
    ensures Run(s, inputs).host ==
            match LastSetupHost(inputs)
            case None => s.host
            case Some(hostURL) => hostURL
    decreases |inputs|
  {
    if |inputs| > 0 {
      HostIsLastSetup(s, inputs[..|inputs| - 1]);
    }
  }

  /** Registration of the observer is never changed by the monitor itself. */
  lemma {:induction false} ObserverPresenceKept(s: MonitorState, inputs: seq<Input>)
    ensures Run(s, inputs).observer.Some? == s.observer.Some?
    decreases |inputs|
  {
    if |inputs| > 0 {
      ObserverPresenceKept(s, inputs[..|inputs| - 1]);
    }
  }

  /** Exactly one connection is opened per non-empty setup call, per `cancelled` event
      and per end of stream, and nothing else opens one; exactly one receive is issued per
      opened connection and per receive completion that continues the loop. */
  lemma {:induction false} LogLengths(s: MonitorState, inputs: seq<Input>)
    ensures |Run(s, inputs).openRequests| == |s.openRequests| + CountOpens(inputs)
    ensures |Run(s, inputs).receives| == |s.receives| + CountOpens(inputs) + CountContinues(inputs)
    decreases |inputs|
  {
    if |inputs| > 0 {
      LogLengths(s, inputs[..|inputs| - 1]);
    }
  }

  /** Every receive request of every trace asks for between 1 and 65536 bytes. */
  lemma {:induction false} ReceivesStayBounded(s: MonitorState, inputs: seq<Input>)
    requires ReceivesBounded(s)
    ensures ReceivesBounded(Run(s, inputs))
    decreases |inputs|
  {
    if |inputs| > 0 {
      ReceivesStayBounded(s, inputs[..|inputs| - 1]);
      var p := Run(s, inputs[..|inputs| - 1]);
      var r := Step(p, inputs[|inputs| - 1]);
      assert |r.receives| == |p.receives| || |r.receives| == |p.receives| + 1;
      forall k | 0 <= k < |r.receives|
        ensures r.receives[k].minimumIncompleteLength == MINIMUM_INCOMPLETE_LENGTH
        ensures r.receives[k].maximumLength == MAXIMUM_LENGTH
      {
        if k < |p.receives| {
          assert r.receives[k] == p.receives[k];
        }
      }
    }
  }

  /** The de-duplication rule over whole traces: an observer registered from the start
      is called only on a flip of the flag, so its notifications alternate starting with
      `true`, and the stored flag is the last one it was sent. */
  lemma {:induction false} NotificationsAlternate(s: MonitorState, inputs: seq<Input>)
    requires Alternating(s)
    ensures Alternating(Run(s, inputs))
    decreases |inputs|
  {
    if |inputs| > 0 {
      NotificationsAlternate(s, inputs[..|inputs| - 1]);
      StepKeepsAlternating(Run(s, inputs[..|inputs| - 1]), inputs[|inputs| - 1]);
    }
  }

  lemma {:induction false} ObservedMonitorAlternates(inputs: seq<Input>)
    ensures Alternating(Run(Initial(true), inputs))
  {
    NotificationsAlternate(Initial(true), inputs);
  }

  // ---------------------------------------------------------------------------
  // Quirks and scenarios

  /** Running one more input is one more step. */
  lemma RunSnoc(s: MonitorState, inputs: seq<Input>, input: Input)
    ensures Run(s, inputs + [input]) == Step(Run(s, inputs), input)
  {
  }

  /** Because the host is stored before it is checked, a `cancelled` event after
      `setup("")` reconnects to the empty host. */
  lemma EmptySetupThenCancelReconnectsToEmptyHost(s: MonitorState)
    ensures Run(s, [SetupCall(""), StateChange(Cancelled)]).openRequests == s.openRequests + [""]
  {
  }

  /** An end of stream reconnects directly. The cancel it issues then shows up as a
      `cancelled` state event, which reconnects once more: two connections are opened. */
  lemma EndOfStreamThenCancelledReconnectsTwice(s: MonitorState, connection: nat)
    ensures |Run(s, [ReceiveCompletion(connection, true, false, 0), StateChange(Cancelled)]).openRequests|
            == |s.openRequests| + 2
  {
    var a, b := ReceiveCompletion(connection, true, false, 0), StateChange(Cancelled);
    RunSnoc(s, [a], b);
    assert [a] + [b] == [a, b];
  }

  /** A second setup after the stream came up opens a second connection: two setups
      give two open requests and nothing was cancelled, so both connections are open. */
  lemma SetupTwiceOpensTwice(hostURL: string)
    requires hostURL != ""
    ensures var s := Run(Initial(true), [SetupCall(hostURL), StateChange(Ready), SetupCall(hostURL)]);
            s.tcpStreamAlive && s.openRequests == [hostURL, hostURL] && s.cancelled == []
  {
    var s0 := Initial(true);
    var a, b := SetupCall(hostURL), StateChange(Ready);
    var s1 := SetupSpec(s0, hostURL);
    assert s1.openRequests == [hostURL] && s1.cancelled == [];
    var s2 := StateDidChangeSpec(s1, Ready);
    assert s2.openRequests == [hostURL] && s2.cancelled == [] && s2.host == hostURL;
    var s3 := SetupSpec(s2, hostURL);
    assert s3.openRequests == [hostURL, hostURL] && s3.cancelled == [] && s3.tcpStreamAlive;
    RunSnoc(s0, [], a);
    assert [] + [a] == [a];
    assert Run(s0, [a]) == s1;
    RunSnoc(s0, [a], b);
    assert [a] + [b] == [a, b];
    assert Run(s0, [a, b]) == s2;
    RunSnoc(s0, [a, b], a);
    assert [a, b] + [a] == [a, b, a];
  }

  /** Running five inputs is five steps. */
  lemma RunFive(s: MonitorState, a: Input, b: Input, c: Input, d: Input, e: Input)
    ensures Run(s, [a, b, c, d, e]) == Step(Step(Step(Step(Step(s, a), b), c), d), e)
  {
    RunSnoc(s, [], a);
    assert [] + [a] == [a];
    RunSnoc(s, [a], b);
    assert [a] + [b] == [a, b];
    RunSnoc(s, [a, b], c);
    assert [a, b] + [c] == [a, b, c];
    RunSnoc(s, [a, b, c], d);
    assert [a, b, c] + [d] == [a, b, c, d];
    RunSnoc(s, [a, b, c, d], e);
    assert [a, b, c, d] + [e] == [a, b, c, d, e];
  }

  /** The session of `EndToEndScenario`, one step at a time. */
  lemma EndToEndSteps()
    ensures var s := StateDidChangeSpec(StateDidChangeSpec(StateDidChangeSpec(StateDidChangeSpec(
                       SetupSpec(Initial(true), "camera.local"), Setup), Ready), Failed("timeout")), Cancelled);
            s.observer == Some([Notification(true, "ready"), Notification(false, "Error: timeout")]) &&
            s.openRequests == ["camera.local", "camera.local"] &&
            !s.online && !s.tcpStreamAlive
  {
    var n1, n2 := Notification(true, "ready"), Notification(false, "Error: timeout");
    var s1 := SetupSpec(Initial(true), "camera.local");
    assert s1.observer == Some([]) && !s1.online && s1.host == "camera.local";
    assert s1.openRequests == ["camera.local"];
    var s2 := StateDidChangeSpec(s1, Setup);
    assert s2.observer == Some([]) && !s2.online && s2.openRequests == s1.openRequests;
    var s3 := StateDidChangeSpec(s2, Ready);
    assert [] + [n1] == [n1];
    assert s3.observer == Some([n1]) && s3.online && s3.openRequests == s1.openRequests;
    var s4 := StateDidChangeSpec(s3, Failed("timeout"));
    assert Translate(Failed("timeout")).connectivityStatus == "Error: timeout";
    assert [n1] + [n2] == [n1, n2];
    assert s4.observer == Some([n1, n2]) && !s4.online && s4.openRequests == s1.openRequests;
    assert s4.host == "camera.local";
  }

  /** Setup, then `setup`, `ready`, `failed("timeout")` and `cancelled` events: the
      observer hears only `(true, "ready")` and `(false, "Error: timeout")`, and the
      `cancelled` event reopens the connection to the same host once. */
  lemma EndToEndScenario()
    ensures var s := Run(Initial(true), [SetupCall("camera.local"), StateChange(Setup), StateChange(Ready),
                                         StateChange(Failed("timeout")), StateChange(Cancelled)]);
            s.observer == Some([Notification(true, "ready"), Notification(false, "Error: timeout")]) &&
            s.openRequests == ["camera.local", "camera.local"] &&
            !s.online && !s.tcpStreamAlive
  {
    EndToEndSteps();
    RunFive(Initial(true), SetupCall("camera.local"), StateChange(Setup), StateChange(Ready),
            StateChange(Failed("timeout")), StateChange(Cancelled));
  }
}
