/** The class `NetworkConnectivity` of ipc4/NetworkConnectivity.swift as a Dafny class.

    Framework callbacks become method calls: `StateDidChange` is the transport's state
    update handler and `ReceiveCompleted` the completion handler of a receive. The
    connection objects themselves are not modelled; a connection is known by its number
    in the ghost log `openRequests`, which records the host of every connection the
    monitor opened. The ghost logs `cancelled` and `receives` record the cancel calls and
    the receive requests. Every method is proved to move the monitor's `State()` exactly
    as the corresponding function of module ConnectivityModel says. */
module NetworkConnectivity {
  import opened ConnectivityModel

  /** The registered observer: it records every status change it is told of. */
  class StatusObserver {
    var received: seq<Notification>

    constructor ()
      ensures received == []
    {
      received := [];
    }

    method NetworkStatusChanged(online: bool, connectivityStatus: string)
      modifies this
      ensures received == old(received) + [Notification(online, connectivityStatus)]
    {
      received := received + [Notification(online, connectivityStatus)];
    }
  }

  class Monitor {
    var online: bool
    var host: string
    var tcpStreamAlive: bool
    var networkStatusDelegate: StatusObserver?

    ghost var openRequests: seq<string>
    ghost var cancelled: seq<nat>
    ghost var receives: seq<ReceiveRequest>

    /** The abstract view of the monitor and its observer. */
    ghost function State(): MonitorState
      reads this, networkStatusDelegate
    {
      MonitorState(online, host, tcpStreamAlive,
                   if networkStatusDelegate == null then None else Some(networkStatusDelegate.received),
                   openRequests, cancelled, receives)
    }

    constructor ()
      ensures State() == Initial(false)
      ensures networkStatusDelegate == null
    {
      online, host, tcpStreamAlive := false, "", false;
      networkStatusDelegate := null;
      openRequests, cancelled, receives := [], [], [];
    }

    method Setup(hostURL: string)
      modifies this
      ensures networkStatusDelegate == old(networkStatusDelegate)
      ensures State() == SetupSpec(old(State()), hostURL)
    {
      // An alive stream is only reported, the call goes on regardless.
      host := hostURL;
      if !(|hostURL| > 0 && ValidateHost(hostURL)) {
        return;
      }
      SetupNWConnection();
    }

    method SetupNWConnection()
      modifies this
      ensures networkStatusDelegate == old(networkStatusDelegate)
      ensures State() == OpenConnection(old(State()))
    {
      ghost var connection := |openRequests|;
      openRequests := openRequests + [host];
      SetupReceive(connection);
    }

    method StateDidChange(state: ConnectionState)
      modifies this, networkStatusDelegate
      ensures networkStatusDelegate == old(networkStatusDelegate)
      ensures State() == StateDidChangeSpec(old(State()), state)
    {
      match state
      case Setup =>
        NotifyDelegateOnChange(false, "setup");
        tcpStreamAlive := true;
      case Waiting =>
        NotifyDelegateOnChange(false, "waiting");
        tcpStreamAlive := true;
      case Ready =>
        NotifyDelegateOnChange(true, "ready");
        tcpStreamAlive := true;
      case Failed(description) =>
        var errorMessage := "Error: " + description;
        NotifyDelegateOnChange(false, errorMessage);
        tcpStreamAlive := false;
      case Cancelled =>
        NotifyDelegateOnChange(false, "cancelled");
        tcpStreamAlive := false;
        SetupNWConnection();
      case Preparing =>
        NotifyDelegateOnChange(false, "preparing");
        tcpStreamAlive := true;
    }

    /** Issues one receive on connection number `connection`. */
    method SetupReceive(ghost connection: nat)
      modifies this
      ensures networkStatusDelegate == old(networkStatusDelegate)
      ensures State() == IssueReceive(old(State()), connection)
    {
      receives := receives + [ReceiveRequest(connection, MINIMUM_INCOMPLETE_LENGTH, MAXIMUM_LENGTH)];
    }

    /** The completion of a receive issued on connection number `connection`, which this
        monitor opened: `isComplete` is the end of the stream, `hasError` an error, and
        `byteCount` the size of the data that came with it (only logged). */
    method ReceiveCompleted(ghost connection: nat, isComplete: bool, hasError: bool, byteCount: nat)
      requires connection < |openRequests|
      modifies this
      ensures networkStatusDelegate == old(networkStatusDelegate)
      ensures State() == ReceiveCompletedSpec(old(State()), connection, isComplete, hasError, byteCount)
    {
      if isComplete {
        cancelled := cancelled + [connection];
        tcpStreamAlive := false;
        SetupNWConnection();
      } else if hasError {
        // The receive loop ends here; the connection is not re-established.
      } else {
        SetupReceive(connection);
      }
    }

    method NotifyDelegateOnChange(newStatusFlag: bool, connectivityStatus: string)
      modifies this, networkStatusDelegate
      ensures networkStatusDelegate == old(networkStatusDelegate)
      ensures State() == Notify(old(State()), newStatusFlag, connectivityStatus)
    {
      if newStatusFlag != online {
        if networkStatusDelegate != null {
          networkStatusDelegate.NetworkStatusChanged(newStatusFlag, connectivityStatus);
        }
        online := newStatusFlag;
      }
    }
  }

  /** A client driving one monitor through setup, `setup`, `ready`, `failed("timeout")`
      and `cancelled`, with an observer registered: the observer is told of exactly two
      status changes. */
  method ObservedSession() returns (received: seq<Notification>, online: bool, tcpStreamAlive: bool)
    ensures received == [Notification(true, "ready"), Notification(false, "Error: timeout")]
    ensures !online && !tcpStreamAlive
  {
    var observer := new StatusObserver();
    var monitor := new Monitor();
    monitor.networkStatusDelegate := observer;
    assert monitor.State() == Initial(true);
    monitor.Setup("camera.local");
    monitor.StateDidChange(ConnectionState.Setup);
    monitor.StateDidChange(Ready);
    monitor.StateDidChange(Failed("timeout"));
    monitor.StateDidChange(Cancelled);
    EndToEndSteps();
    received, online, tcpStreamAlive := observer.received, monitor.online, monitor.tcpStreamAlive;
  }
}
