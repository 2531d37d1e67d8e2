/**
 * The connection manager `HegelClient`: one TCP socket to the amplifier, a
 * `connecting` flag, an inbound buffer and the time of the last inbound data.
 *
 * Every asynchronous callback of the source (connect, connect timeout, error,
 * close, data, the 50 ms wait tick) is one step here, and a driver may
 * interleave the steps in any order the socket layer allows. Sockets are
 * numbered in creation order; socket `i` is the one opened by connection
 * attempt `i`. Clock readings are parameters.
 *
 * The pure step functions below are the specification; class `Client` holds
 * the same state in fields and its methods are proved to take exactly these
 * steps.
 */
module HegelClient {
  import opened Wrappers
  import opened Framing

  type SocketId = nat

  datatype ClientError = ConnectTimeout | NotConnected | WriteFailed

  /** The state of the promise returned by one connection attempt. */
  datatype Settlement = Pending | Resolved | Rejected(error: ClientError)

  /** Bytes handed to a socket's `write`. */
  datatype Write = Write(sock: SocketId, bytes: string)

  /**
   * The client's fields (`socket`, `connecting`, `buffer`, `lastActivity`) and
   * what the socket layer knows about every socket created so far: which were
   * destroyed, connected and closed, whose connect timer has fired, how each
   * attempt's promise settled, and what was written.
   */
  datatype ClientState = ClientState(
    socket: Option<SocketId>,
    connecting: bool,
    buffer: string,
    lastActivity: int,
    attempts: seq<Settlement>,
    destroyed: set<SocketId>,
    connected: set<SocketId>,
    closed: set<SocketId>,
    timerFired: set<SocketId>,
    wire: seq<Write>)

  /** A freshly constructed client. */
  const Init := ClientState(None, false, "", 0, [], {}, {}, {}, {}, [])

  /** Every socket mentioned is one that was created, the current socket has connected, and only destroyed sockets closed. */
  predicate WellFormed(s: ClientState) {
    var n := |s.attempts|;
    (s.socket.Some? ==> s.socket.value in s.connected) &&
    (forall x :: x in s.destroyed ==> x < n) &&
    (forall x :: x in s.connected ==> x < n) &&
    (forall x :: x in s.timerFired ==> x < n) &&
    s.closed <= s.destroyed
  }

  /** `this.socket && !this.socket.destroyed` */
  predicate Live(s: ClientState) {
    s.socket.Some? && s.socket.value !in s.destroyed
  }

  /** Settles promise `i` with `v` unless it is settled already (a promise settles once). */
  function Settle(attempts: seq<Settlement>, i: nat, v: Settlement): (r: seq<Settlement>)
    requires i < |attempts|
    ensures |r| == |attempts|
    ensures r[i] == if attempts[i] == Pending then v else attempts[i]
    ensures forall j :: 0 <= j < |r| && j != i ==> r[j] == attempts[j]
  {
    if attempts[i] == Pending then attempts[i := v] else attempts
  }

  // ---------------------------------------------------------------------------
  // ensureConnected and its wait loop

  /** How the promise of `ensureConnected` goes on: resolved at once, polling for another attempt, or a new attempt. */
  datatype EnsureOutcome = Ready | Wait | Started(sock: SocketId)

  /** `ensureConnected` up to its first suspension. */
  function Ensure(s: ClientState): (r: (EnsureOutcome, ClientState))
    ensures r.0 == Ready <==> Live(s)
    ensures r.0 == Wait <==> !Live(s) && s.connecting
    ensures r.0.Started? <==> !Live(s) && !s.connecting
    ensures !r.0.Started? ==> r.1 == s
    ensures r.0.Started? ==> r.0.sock == |s.attempts| && r.1.connecting && r.1.attempts == s.attempts + [Pending]
    ensures r.1 == s.(connecting := r.1.connecting, attempts := r.1.attempts)
  {
    if Live(s) then (Ready, s)
    else if s.connecting then (Wait, s)
    else (Started(|s.attempts|), s.(connecting := true, attempts := s.attempts + [Pending]))
  }

  datatype TickOutcome = Resolve | Reject(error: ClientError) | Reschedule

  /** One run of the wait loop's `tick`, at time `now`, for a wait that began at `started`. */
  function Tick(s: ClientState, timeoutMs: int, started: int, now: int): (r: TickOutcome)
    ensures r == Resolve <==> Live(s) && !s.connecting
    ensures r.Reject? <==> !(Live(s) && !s.connecting) && now - started > timeoutMs
    ensures r.Reject? ==> r.error == ConnectTimeout
  {
    if Live(s) && !s.connecting then Resolve
    else if now - started > timeoutMs then Reject(ConnectTimeout)
    else Reschedule
  }

  // ---------------------------------------------------------------------------
  // The socket callbacks of one attempt

  /** The socket layer reports a connection only for a created socket that has neither connected nor been destroyed. */
  predicate CanConnect(s: ClientState, sock: SocketId) {
    sock < |s.attempts| && sock !in s.connected && sock !in s.destroyed
  }

  /** The connect callback: the attempt's socket becomes current, the flag drops, the buffer empties, the promise resolves. */
  function ConnectStep(s: ClientState, sock: SocketId): (r: ClientState)
    requires CanConnect(s, sock)
    ensures r.socket == Some(sock) && !r.connecting && r.buffer == ""
    ensures r.attempts == Settle(s.attempts, sock, Resolved)
    ensures r.connected == s.connected + {sock}
    ensures r == s.(socket := r.socket, connecting := false, buffer := "", connected := r.connected, attempts := r.attempts)
  {
    s.(socket := Some(sock), connecting := false, buffer := "",
       connected := s.connected + {sock}, attempts := Settle(s.attempts, sock, Resolved))
  }

  /** An attempt's connect timer fires once. */
  predicate CanTimeout(s: ClientState, sock: SocketId) {
    sock < |s.attempts| && sock !in s.timerFired
  }

  /**
   * The connect-timeout callback. It returns early when its socket is the
   * current one; otherwise, only if the socket is not destroyed and the
   * (client-wide) flag is still set, it clears the flag, destroys the socket
   * and rejects the attempt.
   */
  function TimeoutStep(s: ClientState, sock: SocketId): (r: ClientState)
    requires CanTimeout(s, sock)
    ensures var fires := s.socket != Some(sock) && sock !in s.destroyed && s.connecting;
      && (fires ==> !r.connecting && r.destroyed == s.destroyed + {sock}
                    && r.attempts == Settle(s.attempts, sock, Rejected(ConnectTimeout)))
      && (!fires ==> r == s.(timerFired := s.timerFired + {sock}))
    ensures r.timerFired == s.timerFired + {sock}
    ensures r == s.(connecting := r.connecting, destroyed := r.destroyed, attempts := r.attempts, timerFired := r.timerFired)
  {
    var s' := s.(timerFired := s.timerFired + {sock});
    if s.socket == Some(sock) then s'
    else if sock !in s.destroyed && s.connecting then
      s'.(connecting := false, destroyed := s.destroyed + {sock},
          attempts := Settle(s.attempts, sock, Rejected(ConnectTimeout)))
    else s'
  }

  /** An error is emitted once, by a socket the layer is destroying. */
  predicate CanError(s: ClientState, sock: SocketId) {
    sock < |s.attempts| && sock !in s.destroyed
  }

  /** The error callback only logs; the socket layer marks the socket destroyed. No promise settles. */
  function ErrorStep(s: ClientState, sock: SocketId): (r: ClientState)
    requires CanError(s, sock)
    ensures r.destroyed == s.destroyed + {sock}
    ensures r == s.(destroyed := r.destroyed)
  {
    s.(destroyed := s.destroyed + {sock})
  }

  /** A socket closes once, and is destroyed by then. */
  predicate CanClose(s: ClientState, sock: SocketId) {
    sock < |s.attempts| && sock !in s.closed
  }

  /** The close callback clears `socket`, whichever socket closed. */
  function CloseStep(s: ClientState, sock: SocketId): (r: ClientState)
    requires CanClose(s, sock)
    ensures r.socket == None && r.destroyed == s.destroyed + {sock} && r.closed == s.closed + {sock}
    ensures r == s.(socket := None, destroyed := r.destroyed, closed := r.closed)
  {
    s.(socket := None, destroyed := s.destroyed + {sock}, closed := s.closed + {sock})
  }

  /** Data arrives only on a connected socket that is not destroyed. */
  predicate CanReceive(s: ClientState, sock: SocketId) {
    sock in s.connected && sock !in s.destroyed
  }

  /** The data callback stamps the time and appends the chunk, whichever socket it came from. */
  function DataStep(s: ClientState, sock: SocketId, chunk: string, now: int): (r: ClientState)
    requires CanReceive(s, sock)
    ensures r.lastActivity == now
    ensures |r.buffer| == |s.buffer| + |chunk| && r.buffer[..|s.buffer|] == s.buffer && r.buffer[|s.buffer|..] == chunk
    ensures r == s.(lastActivity := now, buffer := r.buffer)
  {
    s.(lastActivity := now, buffer := s.buffer + chunk)
  }

  // ---------------------------------------------------------------------------
  // send and disconnect

  datatype SendOutcome = Sent | Failed(error: ClientError)

  /**
   * The rest of `send` once its `await ensureConnected()` has resolved:
   * `NotConnected` without a socket, otherwise the frame is written. A write
   * on a socket that is already destroyed fails and puts nothing on the wire;
   * `writeOk` is the socket layer's acknowledgement of a write on a live one.
   */
  function SendStep(s: ClientState, command: string, writeOk: bool): (r: (SendOutcome, ClientState))
    ensures r.0 == Failed(NotConnected) <==> s.socket.None?
    ensures r.0 == Sent <==> Live(s) && writeOk
    ensures s.socket.Some? && !(Live(s) && writeOk) ==> r.0 == Failed(WriteFailed)
    ensures Live(s) ==> r.1.wire == s.wire + [Write(s.socket.value, Frame(command))]
    ensures !Live(s) ==> r.1.wire == s.wire
    ensures r.1 == s.(wire := r.1.wire)
  {
    if s.socket.None? then (Failed(NotConnected), s)
    else if s.socket.value in s.destroyed then (Failed(WriteFailed), s)
    else
      var s' := s.(wire := s.wire + [Write(s.socket.value, Frame(command))]);
      (if writeOk then Sent else Failed(WriteFailed), s')
  }

  /** `disconnect`: destroys the socket if it is live, and always forgets it. */
  function DisconnectStep(s: ClientState): (r: ClientState)
    ensures r.socket == None
    ensures r.destroyed == if Live(s) then s.destroyed + {s.socket.value} else s.destroyed
    ensures r == s.(socket := None, destroyed := r.destroyed)
  {
    if Live(s) then s.(socket := None, destroyed := s.destroyed + {s.socket.value})
    else s.(socket := None)
  }

  // ---------------------------------------------------------------------------
  // Interleavings

  /** One thing that can happen to the client; wait ticks change nothing and are not events. */
  datatype Event =
    | EnsureEv
    | ConnectEv(sock: SocketId)
    | TimeoutEv(sock: SocketId)
    | ErrorEv(sock: SocketId)
    | CloseEv(sock: SocketId)
    | DataEv(sock: SocketId, chunk: string, now: int)
    | SendEv(command: string, writeOk: bool)
    | DisconnectEv

  predicate Enabled(s: ClientState, e: Event) {
    match e
    case EnsureEv => true
    case ConnectEv(x) => CanConnect(s, x)
    case TimeoutEv(x) => CanTimeout(s, x)
    case ErrorEv(x) => CanError(s, x)
    case CloseEv(x) => CanClose(s, x)
    case DataEv(x, _, _) => CanReceive(s, x)
    case SendEv(_, _) => true
    case DisconnectEv => true
  }

  function Next(s: ClientState, e: Event): ClientState
    requires Enabled(s, e)
  {
    match e
    case EnsureEv => Ensure(s).1
    case ConnectEv(x) => ConnectStep(s, x)
    case TimeoutEv(x) => TimeoutStep(s, x)
    case ErrorEv(x) => ErrorStep(s, x)
    case CloseEv(x) => CloseStep(s, x)
    case DataEv(x, chunk, now) => DataStep(s, x, chunk, now)
    case SendEv(c, ok) => SendStep(s, c, ok).1
    case DisconnectEv => DisconnectStep(s)
  }

  /** Every event of `evs` is enabled when its turn comes. */
  predicate Runnable(s: ClientState, evs: seq<Event>)
    decreases |evs|
  {
    evs == [] || (Enabled(s, evs[0]) && Runnable(Next(s, evs[0]), evs[1..]))
  }

  function Run(s: ClientState, evs: seq<Event>): ClientState
    requires Runnable(s, evs)
    decreases |evs|
  {
    if evs == [] then s else Run(Next(s, evs[0]), evs[1..])
  }

  /** Every step keeps the state well formed. */
  lemma NextWellFormed(s: ClientState, e: Event)
    requires WellFormed(s) && Enabled(s, e)
    ensures WellFormed(Next(s, e))
  {
  }

  // ---------------------------------------------------------------------------

  /** The client object: the source's four fields and the socket layer's view of its sockets. */
  class Client {
    const timeoutMs: int
    var socket: Option<SocketId>
    var connecting: bool
    var buffer: string
    var lastActivity: int
    var attempts: seq<Settlement>
    var destroyed: set<SocketId>
    var connected: set<SocketId>
    var closed: set<SocketId>
    var timerFired: set<SocketId>
    var wire: seq<Write>

    function State(): ClientState
      reads this
    {
      ClientState(socket, connecting, buffer, lastActivity, attempts, destroyed, connected, closed, timerFired, wire)
    }

    constructor (timeoutMs: int)
      ensures this.timeoutMs == timeoutMs && State() == Init
    {
      this.timeoutMs := timeoutMs;
      socket, connecting, buffer, lastActivity := None, false, "", 0;
      attempts, destroyed, connected, closed, timerFired, wire := [], {}, {}, {}, {}, [];
    }

    method EnsureConnected() returns (r: EnsureOutcome)
      modifies this
      ensures (r, State()) == Ensure(old(State()))
    {
      if socket.Some? && socket.value !in destroyed {
        return Ready;
      }
      if connecting {
        return Wait;
      }
      connecting := true;
      r := Started(|attempts|);
      attempts := attempts + [Pending];
    }

    method WaitTick(started: int, now: int) returns (r: TickOutcome)
      ensures r == Tick(State(), timeoutMs, started, now)
    {
      if socket.Some? && socket.value !in destroyed && !connecting {
        return Resolve;
      }
      if now - started > timeoutMs {
        return Reject(ConnectTimeout);
      }
      r := Reschedule;
    }

    method OnConnect(sock: SocketId)
      requires CanConnect(State(), sock)
      modifies this
      ensures State() == ConnectStep(old(State()), sock)
    {
      socket := Some(sock);
      connecting := false;
      buffer := "";
      connected := connected + {sock};
      attempts := Settle(attempts, sock, Resolved);
    }

    method OnTimeout(sock: SocketId)
      requires CanTimeout(State(), sock)
      modifies this
      ensures State() == TimeoutStep(old(State()), sock)
    {
      timerFired := timerFired + {sock};
      if socket == Some(sock) {
        return;
      }
      if sock !in destroyed && connecting {
        connecting := false;
        destroyed := destroyed + {sock};
        attempts := Settle(attempts, sock, Rejected(ConnectTimeout));
      }
    }

    method OnError(sock: SocketId)
      requires CanError(State(), sock)
      modifies this
      ensures State() == ErrorStep(old(State()), sock)
    {
      destroyed := destroyed + {sock};
    }

    method OnClose(sock: SocketId)
      requires CanClose(State(), sock)
      modifies this
      ensures State() == CloseStep(old(State()), sock)
    {
      destroyed := destroyed + {sock};
      closed := closed + {sock};
      socket := None;
    }

    method OnData(sock: SocketId, chunk: string, now: int)
      requires CanReceive(State(), sock)
      modifies this
      ensures State() == DataStep(old(State()), sock, chunk, now)
    {
      lastActivity := now;
      buffer := buffer + chunk;
    }

    method Send(command: string, writeOk: bool) returns (r: SendOutcome)
      modifies this
      ensures (r, State()) == SendStep(old(State()), command, writeOk)
    {
      if socket.None? {
        return Failed(NotConnected);
      }
      var sock := socket.value;
      if sock in destroyed {
        return Failed(WriteFailed);
      }
      wire := wire + [Write(sock, Frame(command))];
      r := if writeOk then Sent else Failed(WriteFailed);
    }

    method Disconnect()
      modifies this
      ensures State() == DisconnectStep(old(State()))
    {
      if socket.Some? && socket.value !in destroyed {
        destroyed := destroyed + {socket.value};
      }
      socket := None;
    }
  }
}
