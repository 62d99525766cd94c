/**
  The retry loop of the service: it connects, and once a connection was established it keeps it,
  reconnecting until a disconnection is requested.

  What the VPN objects and the users do is a script, one entry per attempt.  Times are milliseconds.
*/
module KeepConnection {
  import opened Wrappers

  datatype RequiredState = Disconnect | Connect | Keep

  datatype Signal = VpnConnected | UserDisconnect

  datatype ConnectionError = ConnectionError(reconnectionRequired: bool)

  /**
    One attempt: whether the VPN object can be created, whether Inverse Split Tunnel is active, the
    signals that arrive while connect() runs, how long it runs and what it returns, and the delay
    after which a disconnection is requested while the loop waits for the next attempt.
  */
  datatype Attempt = Attempt(
    creates: bool,
    inverse: bool,
    signals: seq<Signal>,
    duration: nat,
    error: Option<ConnectionError>,
    disconnectAfter: Option<nat>)

  /** What was done: the parameters of connect() and the time it took. */
  datatype Try = Try(begin: nat, end: nat, firewallOn: bool, firewallDuringConnection: bool)

  datatype Ending =
    | NotLoggedIn
    | CreateFailed
    | Failed(error: ConnectionError)
    | Stopped
    | ScriptOver // the loop would start another attempt

  const LONG_CONNECTION := 30_000
  const RECONNECT_DELAY := 5_000
  const POLL_INTERVAL := 10

  // ------------------------------------------------------------------
  // What the signals of an attempt mean, stated without the loop
  // ------------------------------------------------------------------

  predicate SawConnected(script: seq<Attempt>) {
    exists i :: 0 <= i < |script| && VpnConnected in script[i].signals
  }

  predicate SawDisconnect(script: seq<Attempt>) {
    exists i :: 0 <= i < |script| && UserDisconnect in script[i].signals
  }

  /** Every attempt but those at the very end of the script was followed by an undisturbed wait. */
  predicate UndisturbedWaits(script: seq<Attempt>, upTo: nat)
    requires upTo <= |script|
  {
    forall i :: 0 <= i < upTo ==> !DisturbsWait(script, i)
  }

  /** The wait after attempt `i`: none after the first, none after a long one or on request of the VPN. */
  function Wait(script: seq<Attempt>, i: nat): nat
    requires i < |script|
  {
    if i == 0 || script[i].duration > LONG_CONNECTION || AsksReconnection(script[i]) then 0 else RECONNECT_DELAY
  }

  predicate AsksReconnection(a: Attempt) {
    a.error.Some? && a.error.value.reconnectionRequired
  }

  predicate DisturbsWait(script: seq<Attempt>, i: nat)
    requires i < |script|
  {
    script[i].disconnectAfter.Some? && script[i].disconnectAfter.value <= Wait(script, i)
  }

  /** The required state after some signals: a disconnection is final, a connection is kept. */
  function AfterSignals(required: RequiredState, signals: seq<Signal>): RequiredState {
    if UserDisconnect in signals then Disconnect
    else if VpnConnected in signals && required.Connect? then Keep
    else required
  }

  /** The state forwarder and the Disconnect calls during one run of connect(). */
  method DeliverSignals(before: RequiredState, signals: seq<Signal>) returns (required: RequiredState)
    ensures required == AfterSignals(before, signals)
  {
    required := before;
    for i := 0 to |signals|
      invariant required == AfterSignals(before, signals[..i])
    {
      assert signals[..i + 1] == signals[..i] + [signals[i]];
      match signals[i] {
        case VpnConnected =>
          if required == Connect {
            required := Keep;
          }
        case UserDisconnect =>
          required := Disconnect;
      }
    }
    assert signals[..|signals|] == signals;
  }

  /** Waits for the pause to elapse or for a disconnection, polling. */
  method PauseBeforeReconnect(start: nat, delay: nat, disconnectAfter: Option<nat>)
    returns (now: nat, required: RequiredState)
    requires delay % POLL_INTERVAL == 0
    ensures required == if disconnectAfter.Some? && disconnectAfter.value <= delay then Disconnect else Keep
    ensures start <= now <= start + delay
    ensures required == Keep ==> now == start + delay
  {
    now, required := start, Keep;
    if disconnectAfter == Some(0) {
      required := Disconnect;
    }
    while now < start + delay && required != Disconnect
      invariant start <= now <= start + delay && (now - start) % POLL_INTERVAL == 0
      invariant required == if disconnectAfter.Some? && disconnectAfter.value <= now - start then Disconnect else Keep
    {
      now := now + POLL_INTERVAL;
      if disconnectAfter.Some? && disconnectAfter.value <= now - start {
        required := Disconnect;
      }
    }
  }

  // ------------------------------------------------------------------
  // The promises of the loop
  // ------------------------------------------------------------------

  /** A retry happens only after CONNECTED was seen, and never after a disconnection. */
  ghost predicate RetriesOnlyKeptConnections(script: seq<Attempt>, tries: seq<Try>)
    requires |tries| <= |script|
  {
    forall i :: 1 <= i < |tries| ==>
                  SawConnected(script[..i]) && !SawDisconnect(script[..i]) && UndisturbedWaits(script, i)
  }

  /** Consecutive attempts are separated by exactly the promised wait. */
  ghost predicate Spaced(script: seq<Attempt>, tries: seq<Try>)
    requires |tries| <= |script|
  {
    && (forall i :: 0 <= i < |tries| ==> tries[i].end == tries[i].begin + script[i].duration)
    && (forall i :: 0 < i < |tries| ==> tries[i].begin == tries[i - 1].end + Wait(script, i - 1))
  }

  /** Inverse Split Tunnel, read anew for every attempt, keeps connect() away from the firewall. */
  ghost predicate Masked(script: seq<Attempt>, tries: seq<Try>, firewallOn: bool, firewallDuringConnection: bool)
    requires |tries| <= |script|
  {
    forall i :: 0 <= i < |tries| ==>
                  && tries[i].firewallOn == (firewallOn && !script[i].inverse)
                  && tries[i].firewallDuringConnection == (firewallDuringConnection && !script[i].inverse)
  }

  /** The loop would go on after its first `n` attempts. */
  ghost predicate Keeps(script: seq<Attempt>, n: nat)
    requires n <= |script|
  {
    n == 0 || (SawConnected(script[..n]) && !SawDisconnect(script[..n]) && UndisturbedWaits(script, n))
  }

  /**
    The ending tells why the loop left after its last attempt: an error is returned exactly when the
    attempt failed although nothing had connected and nobody had disconnected.
  */
  ghost predicate EndingMeans(script: seq<Attempt>, n: nat, ending: Ending)
    requires n <= |script|
  {
    match ending
    case NotLoggedIn => n == 0
    case CreateFailed => Keeps(script, n) && n < |script| && !script[n].creates
    case ScriptOver => Keeps(script, n) && n == |script|
    case Failed(e) =>
      n > 0 && script[n - 1].error == Some(e) && !SawConnected(script[..n]) && !SawDisconnect(script[..n])
    case Stopped =>
      && n > 0 && !Keeps(script, n)
      && (script[n - 1].error.Some? ==> SawConnected(script[..n]) || SawDisconnect(script[..n]))
  }

  /** keepConnection: `start` is the time of the call. */
  method Run(script: seq<Attempt>, isLoggedIn: bool, firewallOn: bool, firewallDuringConnection: bool, start: nat)
    returns (ending: Ending, tries: seq<Try>)
    ensures |tries| <= |script|
    ensures ending == NotLoggedIn <==> !isLoggedIn
    ensures Promised(script, tries, firewallOn, firewallDuringConnection, start)
    ensures EndingMeans(script, |tries|, ending)
  {
    tries := [];
    if !isLoggedIn {
      return NotLoggedIn, tries;
    }
    var required := Connect;
    var delayBeforeReconnect := 0;
    var now := start;
    while |tries| < |script|
      invariant |tries| <= |script|
      invariant Keeps(script, |tries|)
      invariant required == if |tries| == 0 then Connect else Keep
      invariant delayBeforeReconnect == if |tries| == 0 then 0 else RECONNECT_DELAY
      invariant now == if |tries| == 0 then start else tries[|tries| - 1].end + Wait(script, |tries| - 1)
      invariant Promised(script, tries, firewallOn, firewallDuringConnection, start)
      decreases |script| - |tries|
    {
      ghost var n := |tries|;
      var attempt := script[|tries|];
      if !attempt.creates {
        return CreateFailed, tries;
      }
      var begin := now;
      now := begin + attempt.duration;
      SignalsOfOneMore(script, n, required);
      required := DeliverSignals(required, attempt.signals);
      var attempted := Try(begin, now, firewallOn && !attempt.inverse, firewallDuringConnection && !attempt.inverse);
      PromisedOneMore(script, tries, attempted, firewallOn, firewallDuringConnection, start);
      tries := tries + [attempted];
      if attempt.error.Some? && required == Connect {
        return Failed(attempt.error.value), tries;
      }
      if required != Keep {
        return Stopped, tries;
      }
      if now > begin + LONG_CONNECTION {
        delayBeforeReconnect := 0;
      }
      if attempt.error.Some? && attempt.error.value.reconnectionRequired {
        delayBeforeReconnect := 0;
      }
      now, required := PauseBeforeReconnect(now, delayBeforeReconnect, attempt.disconnectAfter);
      if required != Keep {
        assert DisturbsWait(script, n);
        return Stopped, tries;
      }
      delayBeforeReconnect := RECONNECT_DELAY;
    }
    return ScriptOver, tries;
  }

  /** All promises about the attempts made so far. */
  ghost predicate Promised(script: seq<Attempt>, tries: seq<Try>, firewallOn: bool, firewallDuringConnection: bool,
                           start: nat)
    requires |tries| <= |script|
  {
    && (|tries| > 0 ==> tries[0].begin == start)
    && (forall i :: 0 <= i < |tries| ==> script[i].creates)
    && RetriesOnlyKeptConnections(script, tries)
    && Spaced(script, tries)
    && Masked(script, tries, firewallOn, firewallDuringConnection)
  }

  /** The promises extend to an attempt that starts when the loop keeps the connection and the wait is over. */
  lemma PromisedOneMore(script: seq<Attempt>, tries: seq<Try>, next: Try, firewallOn: bool,
                        firewallDuringConnection: bool, start: nat)
    requires |tries| < |script| && script[|tries|].creates
    requires Promised(script, tries, firewallOn, firewallDuringConnection, start) && Keeps(script, |tries|)
    requires next.begin == if |tries| == 0 then start else tries[|tries| - 1].end + Wait(script, |tries| - 1)
    requires next.end == next.begin + script[|tries|].duration
    requires next.firewallOn == (firewallOn && !script[|tries|].inverse)
    requires next.firewallDuringConnection == (firewallDuringConnection && !script[|tries|].inverse)
    ensures Promised(script, tries + [next], firewallOn, firewallDuringConnection, start)
  {
  }

  /** The required state before and after one more attempt, in terms of the whole script. */
  lemma SignalsOfOneMore(script: seq<Attempt>, n: nat, required: RequiredState)
    requires n < |script| && Keeps(script, n)
    requires required == if n == 0 then Connect else Keep
    ensures AfterSignals(required, script[n].signals)
         == if SawDisconnect(script[..n + 1]) then Disconnect
            else if SawConnected(script[..n + 1]) then Keep
            else Connect
  {
  }

  // ------------------------------------------------------------------
  // Consequences
  // ------------------------------------------------------------------

  /** The wait in milliseconds: five seconds, except after the first attempt, a long one, or on request of the VPN. */
  lemma WaitMeans(script: seq<Attempt>, i: nat)
    requires i < |script|
    ensures Wait(script, i) == if i > 0 && script[i].duration <= 30_000
                                  && script[i].error != Some(ConnectionError(true)) then 5_000 else 0
    ensures DisturbsWait(script, i)
            <==> exists after :: script[i].disconnectAfter == Some(after) && after <= Wait(script, i)
  {
  }

  /** A disconnection stays required whatever arrives after it, and CONNECTED is remembered. */
  lemma SignalsMean(required: RequiredState, signals: seq<Signal>)
    ensures AfterSignals(required, signals) == Disconnect <==> required == Disconnect || UserDisconnect in signals
    ensures AfterSignals(required, signals) == Keep
            <==> UserDisconnect !in signals && (required == Keep || (required == Connect && VpnConnected in signals))
  {
  }

  /** An error reaches the caller only from the very first attempt. */
  lemma ErrorsComeFromFirstAttempt(script: seq<Attempt>, tries: seq<Try>, error: ConnectionError)
    requires |tries| <= |script|
    requires RetriesOnlyKeptConnections(script, tries) && EndingMeans(script, |tries|, Failed(error))
    ensures |tries| == 1
  {
    if |tries| > 1 {
      ConnectedStays(script, |tries| - 1, |tries|);
    }
  }

  lemma ConnectedStays(script: seq<Attempt>, m: nat, n: nat)
    requires m <= n <= |script| && SawConnected(script[..m])
    ensures SawConnected(script[..n])
  {
  }

  /** Once a disconnection arrives during an attempt, that attempt is the last one. */
  lemma DisconnectIsFinal(script: seq<Attempt>, tries: seq<Try>, i: nat)
    requires |tries| <= |script| && i < |tries|
    requires RetriesOnlyKeptConnections(script, tries)
    requires UserDisconnect in script[i].signals
    ensures |tries| == i + 1
  {
    assert script[..i + 1][i] == script[i];
  }
}
