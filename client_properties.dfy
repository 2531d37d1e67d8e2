/**
 * What the connection manager's steps guarantee, and where they do not.
 *
 * `Inv` is the intended discipline: at most one attempt in flight, the flag
 * set while one is, no attempt while a socket is live, and no live connected
 * socket other than the current one. Every step keeps it except a close event
 * from a socket that is not the current one while the current one is live.
 * Two traces show what the code as written allows: a stale close that ends
 * with two attempts in flight, and an error followed by a close before the
 * connect timer that leaves `connecting` set for good.
 */
module ClientProperties {
  import opened Wrappers
  import opened HegelClient

  /** Attempt `a` has a socket that has neither connected nor been destroyed. */
  predicate InFlight(s: ClientState, a: SocketId) {
    a < |s.attempts| && a !in s.connected && a !in s.destroyed
  }

  ghost predicate AtMostOneInFlight(s: ClientState) {
    forall a, b :: InFlight(s, a) && InFlight(s, b) ==> a == b
  }

  ghost predicate Inv(s: ClientState) {
    && WellFormed(s)
    && AtMostOneInFlight(s)
    && (forall a :: InFlight(s, a) ==> s.connecting)
    && (s.connecting ==> !Live(s))
    && (forall a :: a in s.connected && a !in s.destroyed ==> s.socket == Some(a))
  }

  /** A close event from a socket other than the live current one. */
  predicate StaleClose(s: ClientState, e: Event) {
    e.CloseEv? && Live(s) && s.socket.value != e.sock
  }

  /** Every step but a stale close keeps the invariant. */
  lemma NextKeepsInv(s: ClientState, e: Event)
    requires Inv(s) && Enabled(s, e) && !StaleClose(s, e)
    ensures Inv(Next(s, e))
  {
    NextWellFormed(s, e);
    var t := Next(s, e);
    match e
    case EnsureEv =>
      if Ensure(s).0.Started? {
        assert forall a :: !InFlight(s, a);
        assert t.connected == s.connected && t.destroyed == s.destroyed && |t.attempts| == |s.attempts| + 1;
        assert forall a: SocketId :: a < |s.attempts| ==> InFlight(t, a) == InFlight(s, a);
        assert forall a :: InFlight(t, a) ==> a == |s.attempts|;
      }
    case ConnectEv(x) =>
      assert InFlight(s, x) && !Live(s);
      assert forall a :: InFlight(t, a) ==> InFlight(s, a) && a != x;
      assert forall a :: a in s.connected ==> a in s.destroyed;
    case TimeoutEv(x) =>
      if s.socket != Some(x) && x !in s.destroyed && s.connecting {
        assert InFlight(s, x);
        assert t == TimeoutStep(s, x);
        assert forall a :: InFlight(t, a) ==> InFlight(s, a) && a != x;
      } else {
        assert forall a :: InFlight(t, a) ==> InFlight(s, a);
      }
    case ErrorEv(x) =>
      assert forall a :: InFlight(t, a) ==> InFlight(s, a);
    case CloseEv(x) =>
      assert forall a :: InFlight(t, a) ==> InFlight(s, a);
      assert forall a :: a in s.connected && a !in s.destroyed ==> a == x;
    case DataEv(x, chunk, now) =>
      assert forall a :: InFlight(t, a) ==> InFlight(s, a);
    case SendEv(c, ok) =>
      assert forall a :: InFlight(t, a) ==> InFlight(s, a);
    case DisconnectEv =>
      assert forall a :: InFlight(t, a) ==> InFlight(s, a);
      assert forall a :: a in s.connected && a !in s.destroyed ==> Live(s) && a == s.socket.value;
  }

  /** Every event of `evs` is enabled and none is a stale close. */
  predicate NoStaleClose(s: ClientState, evs: seq<Event>)
    decreases |evs|
  {
    evs == [] || (Enabled(s, evs[0]) && !StaleClose(s, evs[0]) && NoStaleClose(Next(s, evs[0]), evs[1..]))
  }

  lemma {:induction false} NoStaleCloseRunnable(s: ClientState, evs: seq<Event>)
    requires NoStaleClose(s, evs)
    ensures Runnable(s, evs)
    decreases |evs|
  {
    if evs != [] {
      NoStaleCloseRunnable(Next(s, evs[0]), evs[1..]);
    }
  }

  /** Without stale closes, any interleaving from a fresh client keeps at most one attempt in flight. */
  lemma {:induction false} RunKeepsInv(s: ClientState, evs: seq<Event>)
    requires Inv(s) && NoStaleClose(s, evs)
    ensures Runnable(s, evs) && Inv(Run(s, evs))
    ensures AtMostOneInFlight(Run(s, evs))
    decreases |evs|
  {
    NoStaleCloseRunnable(s, evs);
    if evs != [] {
      NextKeepsInv(s, evs[0]);
      RunKeepsInv(Next(s, evs[0]), evs[1..]);
    }
  }

  lemma InitInv()
    ensures Inv(Init)
  {
  }

  /** Under the invariant a new attempt never starts while another is in flight: a second caller waits. */
  lemma SecondCallerWaits(s: ClientState, a: SocketId)
    requires Inv(s) && InFlight(s, a)
    ensures Ensure(s).0 == Wait && Ensure(s).1 == s
  {
  }

  /** Under the invariant, a command that reaches the wire goes to the one connected socket that is still open. */
  lemma SendWritesToTheOpenSocket(s: ClientState, command: string, writeOk: bool)
    requires Inv(s) && |SendStep(s, command, writeOk).1.wire| > |s.wire|
    ensures var w := SendStep(s, command, writeOk).1.wire[|s.wire|];
      && w.bytes == Framing.Frame(command)
      && w.sock in s.connected && w.sock !in s.destroyed
      && forall a :: a in s.connected && a !in s.destroyed ==> a == w.sock
  {
  }

  /** Disconnecting twice is disconnecting once. */
  lemma DisconnectIdempotent(s: ClientState)
    ensures DisconnectStep(DisconnectStep(s)) == DisconnectStep(s)
  {
  }

  // ---------------------------------------------------------------------------
  // A stale close: socket 0 is disconnected, socket 1 connects, then socket 0's
  // close event clears `socket`. Socket 1 stays open but forgotten; a new attempt
  // (socket 2) starts; socket 1's connect timer then finds the flag set and
  // clears it, so yet another attempt (socket 3) starts while 2 is in flight.

  /** Running `a` and then `b` is running `a + b`. */
  lemma {:induction false} RunAppend(s: ClientState, a: seq<Event>, b: seq<Event>)
    requires Runnable(s, a) && Runnable(Run(s, a), b)
    ensures Runnable(s, a + b) && Run(s, a + b) == Run(Run(s, a), b)
    decreases |a|
  {
    if a == [] {
      assert a + b == b;
    } else {
      assert (a + b)[0] == a[0] && (a + b)[1..] == a[1..] + b;
      RunAppend(Next(s, a[0]), a[1..], b);
    }
  }

  const StaleCloseSetup: seq<Event> := [EnsureEv, ConnectEv(0), DisconnectEv, EnsureEv, ConnectEv(1)]
  const StaleCloseTail: seq<Event> := [CloseEv(0), EnsureEv, TimeoutEv(1), EnsureEv]
  const StaleCloseTrace: seq<Event> := StaleCloseSetup + StaleCloseTail

  /** After the setup socket 0 is disconnected and socket 1 is the live current socket. */
  const AfterSetup := ClientState(Some(1), false, "", 0, [Resolved, Resolved], {0}, {0, 1}, {}, {}, [])

  /** At the end socket 1 is destroyed by its own timer and attempts 2 and 3 are both pending. */
  const AfterTail := ClientState(None, true, "", 0, [Resolved, Resolved, Pending, Pending], {0, 1}, {0, 1}, {0}, {1}, [])

  lemma StaleCloseSetupRun()
    ensures Runnable(Init, StaleCloseSetup) && Run(Init, StaleCloseSetup) == AfterSetup
  {
  }

  lemma StaleCloseTailRun()
    ensures Runnable(AfterSetup, StaleCloseTail) && Run(AfterSetup, StaleCloseTail) == AfterTail
  {
  }

  /** The close of socket 0 is stale, and the run ends with attempts 2 and 3 both in flight. */
  lemma StaleCloseLeadsToTwoAttempts()
    ensures Runnable(Init, StaleCloseTrace)
    ensures StaleClose(AfterSetup, StaleCloseTail[0])
    ensures var s := Run(Init, StaleCloseTrace);
      InFlight(s, 2) && InFlight(s, 3) && !AtMostOneInFlight(s)
  {
    StaleCloseSetupRun();
    StaleCloseTailRun();
    RunAppend(Init, StaleCloseSetup, StaleCloseTail);
    var s := Run(Init, StaleCloseTrace);
    assert s == AfterTail;
    assert InFlight(s, 2) && InFlight(s, 3);
  }

  // ---------------------------------------------------------------------------
  // The wedge: the flag is set, no socket is live, and every socket is destroyed
  // with its timer fired, so no callback can ever clear the flag again.

  ghost predicate Wedged(s: ClientState) {
    && WellFormed(s)
    && s.connecting
    && !Live(s)
    && forall x :: 0 <= x < |s.attempts| ==> x in s.destroyed && x in s.timerFired
  }

  /** In a wedged client every enabled step leaves it wedged, settles no attempt, and `ensureConnected` only waits. */
  lemma WedgedStep(s: ClientState, e: Event)
    requires Wedged(s) && Enabled(s, e)
    ensures Wedged(Next(s, e)) && Next(s, e).attempts == s.attempts
    ensures Ensure(s).0 == Wait
  {
  }

  /** Whatever happens next, a wedged client stays wedged: every wait tick ends in "Connect timeout" and pending attempts never settle. */
  lemma {:induction false} WedgedForever(s: ClientState, evs: seq<Event>, timeoutMs: int, started: int, now: int)
    requires Wedged(s) && Runnable(s, evs)
    ensures Wedged(Run(s, evs)) && Run(s, evs).attempts == s.attempts
    ensures Ensure(Run(s, evs)).0 == Wait
    ensures Tick(Run(s, evs), timeoutMs, started, now) != Resolve
    decreases |evs|
  {
    if evs == [] {
      WedgedStep(s, EnsureEv);
    } else {
      WedgedStep(s, evs[0]);
      WedgedForever(Next(s, evs[0]), evs[1..], timeoutMs, started, now);
    }
  }

  /** A refused connection (error, then close, before the connect timer) wedges a fresh client with its attempt still pending. */
  const RefusedTrace: seq<Event> := [EnsureEv, ErrorEv(0), CloseEv(0), TimeoutEv(0)]

  lemma RefusedConnectionWedges()
    ensures Runnable(Init, RefusedTrace)
    ensures Wedged(Run(Init, RefusedTrace)) && Run(Init, RefusedTrace).attempts == [Pending]
  {
  }
}
