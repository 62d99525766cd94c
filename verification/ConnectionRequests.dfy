/**
  The connection-request protocol of the daemon: a one-slot channel in which the
  newest request wins, a mutex around the slot, a WaitGroup that keeps a request
  from being processed while a registration is open, one processor, and the flag
  that a manual disconnection raises.

  `State` holds the shared fields, one program counter for every registering or
  disconnecting goroutine and one for the processor.  `Step` executes one atomic
  action.  The `History` part never influences a step: it records what happened,
  so that the theorems can speak about whole runs.
*/
module ConnectionRequests {
  import opened Wrappers

  /** The parameters of a connection request; only their identity matters here. */
  datatype ConnectionParams = ConnectionParams(id: nat)

  /** A request as it sits in the channel.  The ticket numbers the sends. */
  datatype Item = Item(ticket: nat, params: ConnectionParams)

  datatype VpnState = Disconnected | Connecting | Connected | Reconnecting | Exiting(isAuthError: bool) | OtherState

  datatype RequiredState = Disconnect | Connect | KeepConnection

  type Tid = nat

  /** Where a goroutine stands inside RegisterConnectionRequest or inside the 'Disconnect' command. */
  datatype ThreadPc =
    | Announced(params: ConnectionParams) // the disconnect flag is lowered
    | Opened(params: ConnectionParams)    // the WaitGroup counts this registration
    | Locked(params: ConnectionParams)    // holds the slot mutex
    | Drained(params: ConnectionParams)   // the previous unprocessed request is removed
    | Enqueued                            // the new request is in the channel, the mutex is still held
    | Released                            // the mutex is released; about to call Service.Disconnect
    | Stopping                            // Service.Disconnect: about to look at the VPN object
    | Awaiting(attempt: nat)              // Service.Disconnect: the VPN object was told to stop
    | Leaving                             // Service.Disconnect returned
    | Calling                             // a disconnection without registration: about to call Service.Disconnect
    | CallStopping                        // the same, about to look at the VPN object
    | CallAwaiting(attempt: nat)          // the same, the VPN object was told to stop

  datatype ProcPc =
    | Receiving                // blocked on the channel
    | Waiting(item: Item)      // a request is taken; waiting for the WaitGroup
    | Checking(item: Item)     // about to read the disconnect flag
    | Cancelling(item: Item)   // calling Service.Disconnect instead of Service.Connect
    | Entering(item: Item)     // inside Service.Connect, before keepConnection sets the required state
    | Starting(item: Item)     // inside keepConnection, before CONNECTING is announced
    | Creating(item: Item)     // about to create a VPN object
    | Preparing(item: Item)    // inside connect(), before it makes the VPN object known to the service
    | Attempting(item: Item)   // inside connect(): the VPN object is known and the state forwarder is alive
    | Deciding(item: Item)     // connect() returned: the state forwarder is joined
    | Announcing(item: Item)   // a retry is decided, RECONNECTING is not announced yet
    | Pausing(item: Item)      // waiting before the retry
    | Finishing(item: Item)    // about to look into the channel
    | ReadingFlag(item: Item)  // the channel was not empty; about to read the disconnect flag
    | Closing(item: Item)      // about to store the DISCONNECTED state
    | Reporting(item: Item, authError: bool) // about to broadcast the DISCONNECTED message

  /** The VPN object the service knows.  Once it is told to stop it does not connect any more. */
  datatype VpnObject = Absent | Alive | Ending

  datatype Reason = UnknownReason | AuthenticationError | DisconnectRequested

  /** Service.Connect is called for the ticket (`connect`), or Service.Disconnect is called instead. */
  datatype Verdict = Verdict(ticket: nat, connect: bool)

  datatype Broadcast = Broadcast(ticket: nat, reason: Reason)

  datatype History = History(
    sent: seq<ConnectionParams>,  // every request put into the channel, by ticket
    taken: seq<nat>,              // tickets received by the processor
    dropped: set<nat>,            // tickets removed by a newer registration
    verdicts: seq<Verdict>,       // what the check of the disconnect flag decided for each taken ticket
    broadcasts: seq<Broadcast>)   // DISCONNECTED messages sent to the clients

  datatype State = State(
    slot: Option<Item>,
    ready: nat,
    mutex: Option<Tid>,
    disconnectRequested: bool,
    lastVpnState: VpnState,
    required: RequiredState,
    threads: map<Tid, ThreadPc>,
    proc: ProcPc,
    vpn: VpnObject,
    attempt: nat, // the number of the VPN object; the channel that tells its end belongs to it
    history: History)

  datatype Event =
    // RegisterConnectionRequest
    | RegBegin(t: Tid, params: ConnectionParams)
    | RegOpen(t: Tid)
    | RegLock(t: Tid)
    | RegDrain(t: Tid)
    | RegSend(t: Tid)
    | RegUnlock(t: Tid)
    | RegDisconnect(t: Tid)
    | RegStop(t: Tid, stops: bool)
    | RegAwait(t: Tid)
    | RegClose(t: Tid)
    // the 'Disconnect' command, and disconnections that the service itself requests
    | CmdBegin(t: Tid)
    | CallBegin(t: Tid)
    | CallDisconnect(t: Tid)
    | CallStop(t: Tid, stops: bool)
    | CallAwait(t: Tid)
    // a route change makes the service stop the VPN object in order to reconnect
    | Reconnect(stops: bool)
    // processConnectionRequests and processConnectRequest
    | Take
    | WaitPass
    | Check
    | Cancel
    // Service.Connect and keepConnection
    | EarlyReturn
    | KeepStart
    | AnnounceConnecting
    | CreateFail
    | CreateObject
    | RegisterObject
    | VpnStateChange(vpnState: VpnState)
    | Join
    | Decide
    | AnnounceRetry
    | EndPause
    // the deferred report
    | LookIntoChannel
    | ReadFlag
    | StoreDisconnected
    | SendReport

  const NO_HISTORY := History([], [], {}, [], [])

  const INIT := State(None, 0, None, false, Disconnected, Disconnect, map[], Receiving, Absent, 0, NO_HISTORY)

  predicate IsOpen(pc: ThreadPc) {
    pc.Opened? || pc.Locked? || pc.Drained? || pc.Enqueued? || pc.Released? || pc.Stopping? || pc.Awaiting?
    || pc.Leaving?
  }

  predicate HoldsMutex(pc: ThreadPc) {
    pc.Locked? || pc.Drained? || pc.Enqueued?
  }

  /** The processor is inside Service.Connect, past the point where keepConnection set the required state. */
  predicate InKeepConnection(pc: ProcPc) {
    pc.Starting? || pc.Creating? || pc.Preparing? || pc.Attempting? || pc.Deciding? || pc.Announcing? || pc.Pausing?
  }

  predicate InConnect(pc: ProcPc) {
    pc.Entering? || InKeepConnection(pc)
  }

  function ReportReason(authError: bool, disconnectRequested: bool): Reason {
    if disconnectRequested then DisconnectRequested
    else if authError then AuthenticationError
    else UnknownReason
  }

  predicate At(s: State, t: Tid, pc: ThreadPc) {
    t in s.threads && s.threads[t] == pc
  }

  /** Service.disconnect acts on the object it finds; telling it to stop may fail. */
  function StopObject(s: State, stops: bool): State {
    if s.vpn.Alive? && stops then s.(vpn := Ending) else s
  }

  /** It waits for the end of the object, unless it found none or could not stop it. */
  predicate Waits(s: State, stops: bool) {
    !s.vpn.Absent? && stops
  }

  predicate IsOver(s: State, attempt: nat) {
    s.vpn.Absent? || s.attempt != attempt
  }

  // ------------------------------------------------------------------
  // Steps of the goroutines that register a request or disconnect
  // ------------------------------------------------------------------

  /** RegisterConnectionRequest up to its call of Service.Disconnect. */
  function RegisterStep(s: State, e: Event): Option<State> {
    match e
    case RegBegin(t, p) =>
      if t in s.threads then None
      else Some(s.(disconnectRequested := false, threads := s.threads[t := Announced(p)]))
    case RegOpen(t) =>
      if t in s.threads && s.threads[t].Announced? then
        Some(s.(ready := s.ready + 1, threads := s.threads[t := Opened(s.threads[t].params)]))
      else None
    case RegLock(t) =>
      if t in s.threads && s.threads[t].Opened? && s.mutex.None? then
        Some(s.(mutex := Some(t), threads := s.threads[t := Locked(s.threads[t].params)]))
      else None
    case RegDrain(t) =>
      if t in s.threads && s.threads[t].Locked? then
        var threads := s.threads[t := Drained(s.threads[t].params)];
        if s.slot.Some? then
          Some(s.(slot := None, threads := threads,
                  history := s.history.(dropped := s.history.dropped + {s.slot.value.ticket})))
        else Some(s.(threads := threads))
      else None
    case RegSend(t) =>
      // a send on a channel of capacity 1 blocks while the channel is full
      if t in s.threads && s.threads[t].Drained? && s.slot.None? then
        var p := s.threads[t].params;
        Some(s.(slot := Some(Item(|s.history.sent|, p)), threads := s.threads[t := Enqueued],
                history := s.history.(sent := s.history.sent + [p])))
      else None
    case RegUnlock(t) =>
      if At(s, t, Enqueued) then Some(s.(mutex := None, threads := s.threads[t := Released])) else None
    case _ => None
  }

  /** Service.Disconnect, called by a registration, by the 'Disconnect' command or by the service itself. */
  function DisconnectStep(s: State, e: Event): Option<State> {
    match e
    case RegDisconnect(t) =>
      if At(s, t, Released) then Some(s.(required := Disconnect, threads := s.threads[t := Stopping])) else None
    case RegStop(t, stops) =>
      if At(s, t, Stopping) then
        Some(StopObject(s, stops).(threads := s.threads[t := if Waits(s, stops) then Awaiting(s.attempt) else Leaving]))
      else None
    case RegAwait(t) =>
      if t in s.threads && s.threads[t].Awaiting? && IsOver(s, s.threads[t].attempt) then
        Some(s.(threads := s.threads[t := Leaving]))
      else None
    case RegClose(t) =>
      if At(s, t, Leaving) && s.ready > 0 then Some(s.(ready := s.ready - 1, threads := s.threads - {t})) else None
    case CmdBegin(t) =>
      if t in s.threads then None
      else Some(s.(disconnectRequested := true, threads := s.threads[t := Calling]))
    case CallBegin(t) =>
      if t in s.threads then None else Some(s.(threads := s.threads[t := Calling]))
    case CallDisconnect(t) =>
      if At(s, t, Calling) then Some(s.(required := Disconnect, threads := s.threads[t := CallStopping])) else None
    case CallStop(t, stops) =>
      if At(s, t, CallStopping) then
        Some(StopObject(s, stops).(threads := if Waits(s, stops) then s.threads[t := CallAwaiting(s.attempt)]
                                              else s.threads - {t}))
      else None
    case CallAwait(t) =>
      if t in s.threads && s.threads[t].CallAwaiting? && IsOver(s, s.threads[t].attempt) then
        Some(s.(threads := s.threads - {t}))
      else None
    case Reconnect(stops) => if s.vpn.Absent? then None else Some(StopObject(s, stops))
    case _ => None
  }

  function ThreadStep(s: State, e: Event): Option<State> {
    if IsRegistering(e) then RegisterStep(s, e) else DisconnectStep(s, e)
  }

  // ------------------------------------------------------------------
  // Steps of the processor
  // ------------------------------------------------------------------

  /** From the channel to the decision about a request. */
  function RequestStep(s: State, e: Event): Option<State> {
    match s.proc
    case Receiving =>
      if !e.Take? || s.slot.None? then None
      else Some(s.(slot := None, proc := Waiting(s.slot.value),
                   history := s.history.(taken := s.history.taken + [s.slot.value.ticket])))
    case Waiting(item) =>
      if e.WaitPass? && s.ready == 0 then Some(s.(proc := Checking(item))) else None
    case Checking(item) =>
      if !e.Check? then None
      else Some(s.(proc := if s.disconnectRequested then Cancelling(item) else Entering(item),
                   history := s.history.(verdicts := s.history.verdicts
                                                     + [Verdict(item.ticket, !s.disconnectRequested)])))
    case Cancelling(item) =>
      if e.Cancel? then Some(s.(required := Disconnect, proc := Finishing(item))) else None
    case _ => None
  }

  /** Inside Service.Connect. */
  function ConnectStep(s: State, e: Event): Option<State> {
    match s.proc
    case Entering(item) =>
      if e.EarlyReturn? then Some(s.(proc := Finishing(item)))
      else if e.KeepStart? then Some(s.(required := Connect, proc := Starting(item)))
      else None
    case Starting(item) =>
      if e.AnnounceConnecting? then Some(s.(lastVpnState := Connecting, proc := Creating(item))) else None
    case Creating(item) =>
      if e.CreateFail? then Some(s.(proc := Finishing(item)))
      else if e.CreateObject? then Some(s.(proc := Preparing(item)))
      else None
    case Preparing(item) =>
      if e.RegisterObject? then Some(s.(vpn := Alive, attempt := s.attempt + 1, proc := Attempting(item))) else None
    case Attempting(item) =>
      if e.Join? then Some(s.(vpn := Absent, proc := Deciding(item)))
      else if e.VpnStateChange? && (e.vpnState.Connected? ==> s.vpn.Alive?) then
        Some(s.(lastVpnState := e.vpnState,
                required := if e.vpnState.Connected? && s.required.Connect? then KeepConnection else s.required))
      else None
    case Deciding(item) =>
      if e.Decide? then
        Some(s.(proc := if s.required.KeepConnection? then Announcing(item) else Finishing(item)))
      else None
    case Announcing(item) =>
      if e.AnnounceRetry? then Some(s.(lastVpnState := Reconnecting, proc := Pausing(item))) else None
    case Pausing(item) =>
      if e.EndPause? then
        Some(s.(proc := if s.required.KeepConnection? then Creating(item) else Finishing(item)))
      else None
    case _ => None
  }

  /** The deferred report. */
  function ReportStep(s: State, e: Event): Option<State> {
    match s.proc
    case Finishing(item) =>
      if e.LookIntoChannel? then Some(s.(proc := if s.slot.None? then Closing(item) else ReadingFlag(item))) else None
    case ReadingFlag(item) =>
      if e.ReadFlag? then Some(s.(proc := if s.disconnectRequested then Closing(item) else Receiving)) else None
    case Closing(item) =>
      if e.StoreDisconnected? then
        Some(s.(lastVpnState := Disconnected,
                proc := Reporting(item, s.lastVpnState.Exiting? && s.lastVpnState.isAuthError)))
      else None
    case Reporting(item, authError) =>
      if e.SendReport? then
        Some(s.(proc := Receiving,
                history := s.history.(broadcasts := s.history.broadcasts
                  + [Broadcast(item.ticket, ReportReason(authError, s.disconnectRequested))])))
      else None
    case _ => None
  }

  predicate InReport(pc: ProcPc) {
    pc.Finishing? || pc.ReadingFlag? || pc.Closing? || pc.Reporting?
  }

  function ProcStep(s: State, e: Event): Option<State> {
    if InConnect(s.proc) then ConnectStep(s, e)
    else if InReport(s.proc) then ReportStep(s, e)
    else RequestStep(s, e)
  }

  predicate IsRegistering(e: Event) {
    e.RegBegin? || e.RegOpen? || e.RegLock? || e.RegDrain? || e.RegSend? || e.RegUnlock?
  }

  predicate IsThreadEvent(e: Event) {
    IsRegistering(e) ||
    e.RegDisconnect? || e.RegStop? || e.RegAwait? || e.RegClose? || e.CmdBegin? || e.CallBegin? || e.CallDisconnect? ||
    e.CallStop? || e.CallAwait? || e.Reconnect?
  }

  /** One atomic action; None when the action is not enabled (the goroutine is elsewhere, or it blocks). */
  function Step(s: State, e: Event): Option<State> {
    if IsThreadEvent(e) then ThreadStep(s, e) else ProcStep(s, e)
  }

  /** The state after the events `es`, in this order. */
  function Exec(s: State, es: seq<Event>): Option<State> {
    if es == [] then Some(s)
    else
      match Exec(s, es[..|es| - 1])
      case None => None
      case Some(m) => Step(m, es[|es| - 1])
  }

  ghost predicate Reachable(s: State) {
    exists es :: Exec(INIT, es) == Some(s)
  }

  // ------------------------------------------------------------------
  // The invariant
  // ------------------------------------------------------------------

  function OpenThreads(threads: map<Tid, ThreadPc>): set<Tid> {
    set t | t in threads && IsOpen(threads[t])
  }

  ghost predicate MutexInv(s: State) {
    && (forall t :: t in s.threads && HoldsMutex(s.threads[t]) ==> s.mutex == Some(t))
    && (s.mutex.Some? ==> s.mutex.value in s.threads && HoldsMutex(s.threads[s.mutex.value]))
  }

  ghost predicate WaitGroupInv(s: State) {
    s.ready == |OpenThreads(s.threads)|
  }

  /** A goroutine that drained the channel finds it empty when it sends. */
  ghost predicate ChannelInv(s: State) {
    && (forall t :: t in s.threads && s.threads[t].Drained? ==> s.slot.None?)
    && (s.slot.Some? ==>
          && |s.history.sent| > 0
          && s.slot.value == Item(|s.history.sent| - 1, s.history.sent[|s.history.sent| - 1]))
  }

  ghost predicate Increasing(ts: seq<nat>) {
    forall i, j :: 0 <= i < j < |ts| ==> ts[i] < ts[j]
  }

  /** Every ticket is in exactly one place, and the processor receives tickets in the order of the sends. */
  ghost predicate TicketInv(s: State) {
    var h := s.history;
    && Increasing(h.taken)
    && (forall k :: k in h.taken ==> k < |h.sent|)
    && (forall k :: k in h.dropped ==> k < |h.sent| && k !in h.taken)
    && (s.slot.Some? ==> s.slot.value.ticket !in h.taken && s.slot.value.ticket !in h.dropped)
    && (forall k: nat :: k < |h.sent| ==>
          k in h.taken || k in h.dropped || (s.slot.Some? && s.slot.value.ticket == k))
    && (!s.proc.Receiving? ==>
          && |h.taken| > 0
          && s.proc.item.ticket == h.taken[|h.taken| - 1] < |h.sent|
          && s.proc.item.params == h.sent[s.proc.item.ticket])
  }

  /** The newest request is lost only while a registration that drained it is about to send a newer one. */
  ghost predicate NewestInv(s: State) {
    && (|s.history.sent| > 0 && |s.history.sent| - 1 in s.history.dropped ==>
          s.mutex.Some? && s.mutex.value in s.threads && s.threads[s.mutex.value].Drained?)
  }

  /** Every taken request gets one verdict, in the order of the taking; the one in hand may still wait for it. */
  ghost predicate VerdictInv(s: State) {
    var h := s.history;
    && |h.verdicts| == |h.taken| - (if s.proc.Waiting? || s.proc.Checking? then 1 else 0)
    && (forall i :: 0 <= i < |h.verdicts| ==> h.verdicts[i].ticket == h.taken[i])
    && (s.proc.Cancelling? ==> |h.verdicts| > 0 && !h.verdicts[|h.verdicts| - 1].connect)
    && (InConnect(s.proc) ==> |h.verdicts| > 0 && h.verdicts[|h.verdicts| - 1].connect)
  }

  /** The last finished request was reported, or a newer one is on its way. */
  ghost predicate ReportInv(s: State) {
    var h := s.history;
    && (s.proc.Receiving? && |h.taken| > 0 ==>
          || (|h.broadcasts| > 0 && h.broadcasts[|h.broadcasts| - 1].ticket == h.taken[|h.taken| - 1]
              && s.lastVpnState == Disconnected)
          || h.taken[|h.taken| - 1] < |h.sent| - 1)
    && (s.proc.Receiving? && |h.taken| == 0 ==> s.lastVpnState == Disconnected)
    && (s.proc.Reporting? ==> s.lastVpnState == Disconnected)
    && (s.proc.ReadingFlag? ==> s.proc.item.ticket < |h.sent| - 1)
  }

  /** A VPN object is known exactly inside an attempt, and whoever waits for its end has told it to stop. */
  ghost predicate VpnInv(s: State) {
    && (s.vpn.Absent? <==> !s.proc.Attempting?)
    && (forall t :: t in s.threads && s.threads[t].Awaiting? ==> HasStopped(s, s.threads[t].attempt))
    && (forall t :: t in s.threads && s.threads[t].CallAwaiting? ==> HasStopped(s, s.threads[t].attempt))
  }

  predicate HasStopped(s: State, attempt: nat) {
    attempt <= s.attempt && (s.vpn.Alive? ==> attempt < s.attempt)
  }

  ghost predicate Inv(s: State) {
    MutexInv(s) && WaitGroupInv(s) && ChannelInv(s) && TicketInv(s) && NewestInv(s) && VerdictInv(s) && ReportInv(s)
    && VpnInv(s)
  }

  // ------------------------------------------------------------------
  // The invariant is inductive
  // ------------------------------------------------------------------

  /** Moving one goroutine changes the number of open registrations by what that goroutine contributes. */
  lemma OpenThreadsUpdate(threads: map<Tid, ThreadPc>, t: Tid, pc: ThreadPc)
    ensures |OpenThreads(threads[t := pc])|
         == |OpenThreads(threads)| - (if t in threads && IsOpen(threads[t]) then 1 else 0)
            + (if IsOpen(pc) then 1 else 0)
  {
    var rest := OpenThreads(threads) - {t};
    if IsOpen(pc) {
      assert OpenThreads(threads[t := pc]) == rest + {t};
    } else {
      assert OpenThreads(threads[t := pc]) == rest;
    }
    if t in threads && IsOpen(threads[t]) {
      assert OpenThreads(threads) == rest + {t};
    } else {
      assert OpenThreads(threads) == rest;
    }
  }

  lemma OpenThreadsRemove(threads: map<Tid, ThreadPc>, t: Tid)
    requires t in threads
    ensures |OpenThreads(threads - {t})| == |OpenThreads(threads)| - (if IsOpen(threads[t]) then 1 else 0)
  {
    if IsOpen(threads[t]) {
      assert OpenThreads(threads) == OpenThreads(threads - {t}) + {t};
    } else {
      assert OpenThreads(threads) == OpenThreads(threads - {t});
    }
  }

  /** A goroutine moves or ends; it may stop the VPN object, but leaves the processor and its history alone. */
  lemma ThreadStepFrame(s: State, e: Event)
    requires IsThreadEvent(e) && ThreadStep(s, e).Some?
    ensures var n := ThreadStep(s, e).value;
            && n.proc == s.proc && n.attempt == s.attempt && n.lastVpnState == s.lastVpnState
            && (n.vpn == s.vpn || (s.vpn.Alive? && n.vpn.Ending?))
            && n.history.taken == s.history.taken && n.history.verdicts == s.history.verdicts
            && n.history.broadcasts == s.history.broadcasts && |s.history.sent| <= |n.history.sent|
            && (!e.RegDrain? && !e.RegSend? ==> n.slot == s.slot && n.history == s.history)
  {
  }

  /** Goroutines only ever require DISCONNECTED, and only two of their actions change the flag. */
  lemma ThreadStepRequires(s: State, e: Event)
    requires IsThreadEvent(e) && ThreadStep(s, e).Some?
    ensures var n := ThreadStep(s, e).value;
            && (n.required == s.required || n.required == Disconnect)
            && n.disconnectRequested
               == if e.CmdBegin? then true else if e.RegBegin? then false else s.disconnectRequested
  {
  }

  /** Disconnecting touches neither the mutex nor the channel, nor a registration that holds the mutex. */
  lemma DisconnectStepFrame(s: State, e: Event)
    requires DisconnectStep(s, e).Some?
    ensures var n := DisconnectStep(s, e).value;
            && n.mutex == s.mutex && n.slot == s.slot && n.history == s.history
            && (forall t :: t in s.threads && HoldsMutex(s.threads[t]) ==>
                  t in n.threads && n.threads[t] == s.threads[t])
            && (forall t :: t in n.threads && HoldsMutex(n.threads[t]) ==>
                  t in s.threads && n.threads[t] == s.threads[t])
  {
  }

  lemma DisconnectMoves(s: State, e: Event)
    requires DisconnectStep(s, e).Some?
    ensures var n := DisconnectStep(s, e).value;
            if e.Reconnect? then n.threads == s.threads && n.ready == s.ready
            else n.threads == (if e.t in n.threads then s.threads[e.t := n.threads[e.t]] else s.threads - {e.t})
  {
  }

  lemma RegisterMoves(s: State, e: Event)
    requires RegisterStep(s, e).Some?
    ensures var n := RegisterStep(s, e).value; e.t in n.threads && n.threads == s.threads[e.t := n.threads[e.t]]
  {
  }

  /** Inside Service.Connect nothing but the VPN, its states and the required state changes. */
  lemma ConnectFrame(s: State, e: Event)
    requires InConnect(s.proc) && ConnectStep(s, e).Some?
    ensures var n := ConnectStep(s, e).value;
            && n.slot == s.slot && n.mutex == s.mutex && n.ready == s.ready && n.threads == s.threads
            && n.history == s.history && n.disconnectRequested == s.disconnectRequested
            && (InConnect(n.proc) || n.proc.Finishing?) && n.proc.item == s.proc.item
            && (n.vpn.Absent? <==> !n.proc.Attempting?) <== (s.vpn.Absent? <==> !s.proc.Attempting?)
  {
  }

  lemma RequestFrame(s: State, e: Event)
    requires !InConnect(s.proc) && !InReport(s.proc) && RequestStep(s, e).Some?
    ensures var n := RequestStep(s, e).value;
            && n.mutex == s.mutex && n.ready == s.ready && n.threads == s.threads && n.vpn == s.vpn
            && n.attempt == s.attempt && n.lastVpnState == s.lastVpnState
            && n.disconnectRequested == s.disconnectRequested && (n.required == s.required || n.required == Disconnect)
            && n.history.sent == s.history.sent && n.history.dropped == s.history.dropped
            && n.history.broadcasts == s.history.broadcasts
            && !n.proc.Receiving? && !n.proc.Attempting? && !n.proc.ReadingFlag? && !n.proc.Reporting?
            && (if s.proc.Receiving? then e.Take? && n.slot.None?
                else n.slot == s.slot && n.history.taken == s.history.taken && n.proc.item == s.proc.item)
  {
  }

  lemma ReportFrame(s: State, e: Event)
    requires InReport(s.proc) && ReportStep(s, e).Some?
    ensures var n := ReportStep(s, e).value;
            && n.slot == s.slot && n.mutex == s.mutex && n.ready == s.ready && n.threads == s.threads
            && n.vpn == s.vpn && n.attempt == s.attempt && n.required == s.required
            && n.disconnectRequested == s.disconnectRequested
            && n.history.taken == s.history.taken && n.history.sent == s.history.sent
            && n.history.dropped == s.history.dropped && n.history.verdicts == s.history.verdicts
            && (n.proc.Receiving? || (InReport(n.proc) && n.proc.item == s.proc.item))
  {
  }

  /** The processor leaves the goroutines alone, and the channel except for its receive. */
  lemma ProcStepFrame(s: State, e: Event)
    requires !IsThreadEvent(e) && ProcStep(s, e).Some?
    ensures var n := ProcStep(s, e).value;
            && n.threads == s.threads && n.mutex == s.mutex && n.ready == s.ready
            && n.disconnectRequested == s.disconnectRequested
            && n.history.sent == s.history.sent && n.history.dropped == s.history.dropped
            && (if s.proc.Receiving? then e.Take? && n.slot.None?
                else n.slot == s.slot && n.history.taken == s.history.taken)
            && (!s.proc.Receiving? && !n.proc.Receiving? ==> n.proc.item == s.proc.item)
  {
    if InConnect(s.proc) {
      ConnectFrame(s, e);
    } else if InReport(s.proc) {
      ReportFrame(s, e);
    } else {
      RequestFrame(s, e);
    }
  }

  lemma ThreadStepKeepsMutex(s: State, e: Event)
    requires MutexInv(s) && IsThreadEvent(e) && ThreadStep(s, e).Some?
    ensures MutexInv(ThreadStep(s, e).value)
  {
    if !IsRegistering(e) {
      DisconnectStepFrame(s, e);
    }
  }

  lemma RegisterKeepsWaitGroup(s: State, e: Event)
    requires WaitGroupInv(s) && RegisterStep(s, e).Some?
    ensures WaitGroupInv(RegisterStep(s, e).value)
  {
    RegisterMoves(s, e);
    OpenThreadsUpdate(s.threads, e.t, RegisterStep(s, e).value.threads[e.t]);
  }

  lemma DisconnectKeepsWaitGroup(s: State, e: Event)
    requires WaitGroupInv(s) && DisconnectStep(s, e).Some?
    ensures WaitGroupInv(DisconnectStep(s, e).value)
  {
    var n := DisconnectStep(s, e).value;
    DisconnectMoves(s, e);
    if !e.Reconnect? {
      if e.t in n.threads {
        OpenThreadsUpdate(s.threads, e.t, n.threads[e.t]);
      } else {
        OpenThreadsRemove(s.threads, e.t);
      }
    }
  }

  lemma ThreadStepKeepsChannel(s: State, e: Event)
    requires MutexInv(s) && ChannelInv(s) && IsThreadEvent(e) && ThreadStep(s, e).Some?
    ensures ChannelInv(ThreadStep(s, e).value)
  {
    if !IsRegistering(e) {
      DisconnectStepFrame(s, e);
    }
  }

  /** Whoever begins to wait for the end of the VPN object has just told it to stop. */
  lemma WaiterHasStopped(s: State, e: Event)
    requires VpnInv(s) && !e.Reconnect? && DisconnectStep(s, e).Some?
    ensures var n := DisconnectStep(s, e).value;
            && (e.t in n.threads && n.threads[e.t].Awaiting? ==> HasStopped(n, n.threads[e.t].attempt))
            && (e.t in n.threads && n.threads[e.t].CallAwaiting? ==> HasStopped(n, n.threads[e.t].attempt))
  {
  }

  lemma DisconnectKeepsVpn(s: State, e: Event)
    requires VpnInv(s) && DisconnectStep(s, e).Some?
    ensures VpnInv(DisconnectStep(s, e).value)
  {
    ThreadStepFrame(s, e);
    DisconnectMoves(s, e);
    if !e.Reconnect? {
      WaiterHasStopped(s, e);
    }
  }

  lemma RegisterKeepsVpn(s: State, e: Event)
    requires VpnInv(s) && RegisterStep(s, e).Some?
    ensures VpnInv(RegisterStep(s, e).value)
  {
  }

  lemma ProcStepKeepsVpn(s: State, e: Event)
    requires VpnInv(s) && !IsThreadEvent(e) && ProcStep(s, e).Some?
    ensures VpnInv(ProcStep(s, e).value)
  {
    if InConnect(s.proc) {
      ConnectFrame(s, e);
      ConnectKeepsStopped(s, e);
    } else if InReport(s.proc) {
      ReportFrame(s, e);
    } else {
      RequestFrame(s, e);
    }
  }

  /** A new object gets a new number, an old one does not come alive again. */
  lemma ConnectKeepsStopped(s: State, e: Event)
    requires InConnect(s.proc) && ConnectStep(s, e).Some?
    ensures forall k: nat :: HasStopped(s, k) ==> HasStopped(ConnectStep(s, e).value, k)
  {
  }

  lemma DrainKeepsTickets(s: State, t: Tid)
    requires Inv(s) && ThreadStep(s, RegDrain(t)).Some?
    ensures var n := ThreadStep(s, RegDrain(t)).value; TicketInv(n) && NewestInv(n)
  {
  }

  lemma SendKeepsTickets(s: State, t: Tid)
    requires Inv(s) && ThreadStep(s, RegSend(t)).Some?
    ensures var n := ThreadStep(s, RegSend(t)).value; TicketInv(n) && NewestInv(n)
  {
  }

  /** The remaining thread actions touch neither the channel nor the history. */
  lemma OtherThreadStepKeepsTickets(s: State, e: Event)
    requires Inv(s) && IsThreadEvent(e) && ThreadStep(s, e).Some? && !e.RegDrain? && !e.RegSend?
    ensures var n := ThreadStep(s, e).value; TicketInv(n) && NewestInv(n)
  {
    var n := ThreadStep(s, e).value;
    ThreadStepFrame(s, e);
    SameTickets(s, n);
    OtherThreadStepKeepsDrained(s, e);
  }

  lemma SameTickets(s: State, n: State)
    requires TicketInv(s) && n.proc == s.proc && n.slot == s.slot
    requires n.history.taken == s.history.taken && n.history.dropped == s.history.dropped
    requires n.history.sent == s.history.sent
    ensures TicketInv(n)
  {
  }

  /** A registration that has drained the channel keeps the mutex until it sends. */
  lemma OtherThreadStepKeepsDrained(s: State, e: Event)
    requires MutexInv(s) && NewestInv(s) && IsThreadEvent(e) && ThreadStep(s, e).Some? && !e.RegDrain? && !e.RegSend?
    ensures NewestInv(ThreadStep(s, e).value)
  {
    ThreadStepFrame(s, e);
    if !IsRegistering(e) {
      DisconnectStepFrame(s, e);
    }
  }

  lemma ThreadStepKeepsReports(s: State, e: Event)
    requires Inv(s) && IsThreadEvent(e) && ThreadStep(s, e).Some?
    ensures var n := ThreadStep(s, e).value; VerdictInv(n) && ReportInv(n)
  {
    ThreadStepFrame(s, e);
    SameReports(s, ThreadStep(s, e).value);
  }

  lemma SameReports(s: State, n: State)
    requires VerdictInv(s) && ReportInv(s) && n.proc == s.proc && n.lastVpnState == s.lastVpnState
    requires n.history.taken == s.history.taken && n.history.verdicts == s.history.verdicts
    requires n.history.broadcasts == s.history.broadcasts && |s.history.sent| <= |n.history.sent|
    ensures VerdictInv(n) && ReportInv(n)
  {
  }

  lemma ThreadStepKeepsInv(s: State, e: Event)
    requires Inv(s) && IsThreadEvent(e) && ThreadStep(s, e).Some?
    ensures Inv(ThreadStep(s, e).value)
  {
    ThreadStepKeepsMutex(s, e);
    if IsRegistering(e) {
      RegisterKeepsWaitGroup(s, e);
    } else {
      DisconnectKeepsWaitGroup(s, e);
    }
    ThreadStepKeepsChannel(s, e);
    if e.RegDrain? {
      DrainKeepsTickets(s, e.t);
    } else if e.RegSend? {
      SendKeepsTickets(s, e.t);
    } else {
      OtherThreadStepKeepsTickets(s, e);
    }
    ThreadStepKeepsReports(s, e);
    if IsRegistering(e) {
      RegisterKeepsVpn(s, e);
    } else {
      DisconnectKeepsVpn(s, e);
    }
  }

  lemma ProcStepKeepsSync(s: State, e: Event)
    requires Inv(s) && !IsThreadEvent(e) && ProcStep(s, e).Some?
    ensures var n := ProcStep(s, e).value; MutexInv(n) && WaitGroupInv(n) && ChannelInv(n)
  {
    ProcStepFrame(s, e);
  }

  lemma ProcStepKeepsInv(s: State, e: Event)
    requires Inv(s) && !IsThreadEvent(e) && ProcStep(s, e).Some?
    ensures Inv(ProcStep(s, e).value)
  {
    ProcStepKeepsSync(s, e);
    ProcStepKeepsTickets(s, e);
    ProcStepKeepsReports(s, e);
    ProcStepKeepsVpn(s, e);
  }

  lemma ProcStepKeepsTickets(s: State, e: Event)
    requires Inv(s) && !IsThreadEvent(e) && ProcStep(s, e).Some?
    ensures var n := ProcStep(s, e).value; TicketInv(n) && NewestInv(n)
  {
    ProcStepFrame(s, e);
    if s.proc.Receiving? {
      TakeKeepsTickets(s);
    } else {
      SameQueue(s, ProcStep(s, e).value);
    }
  }

  lemma SameQueue(s: State, n: State)
    requires TicketInv(s) && NewestInv(s) && n.slot == s.slot && n.mutex == s.mutex && n.threads == s.threads
    requires n.history.taken == s.history.taken && n.history.dropped == s.history.dropped
    requires n.history.sent == s.history.sent
    requires !s.proc.Receiving? && (!n.proc.Receiving? ==> n.proc.item == s.proc.item)
    ensures TicketInv(n) && NewestInv(n)
  {
  }

  lemma ConnectKeepsReports(s: State, e: Event)
    requires VerdictInv(s) && ReportInv(s) && InConnect(s.proc) && ConnectStep(s, e).Some?
    ensures var n := ConnectStep(s, e).value; VerdictInv(n) && ReportInv(n)
  {
    ConnectFrame(s, e);
  }

  lemma RequestKeepsReports(s: State, e: Event)
    requires VerdictInv(s) && TicketInv(s) && ReportInv(s)
    requires !InConnect(s.proc) && !InReport(s.proc) && RequestStep(s, e).Some?
    ensures var n := RequestStep(s, e).value; VerdictInv(n) && ReportInv(n)
  {
    RequestFrame(s, e);
  }

  lemma ReportKeepsVerdicts(s: State, e: Event)
    requires VerdictInv(s) && InReport(s.proc) && ReportStep(s, e).Some?
    ensures VerdictInv(ReportStep(s, e).value)
  {
    ReportFrame(s, e);
  }

  lemma ReportKeepsReports(s: State, e: Event)
    requires TicketInv(s) && ChannelInv(s) && ReportInv(s) && InReport(s.proc) && ReportStep(s, e).Some?
    ensures ReportInv(ReportStep(s, e).value)
  {
    ReportFrame(s, e);
  }

  lemma ProcStepKeepsReports(s: State, e: Event)
    requires Inv(s) && !IsThreadEvent(e) && ProcStep(s, e).Some?
    ensures var n := ProcStep(s, e).value; VerdictInv(n) && ReportInv(n)
  {
    if InConnect(s.proc) {
      ConnectKeepsReports(s, e);
    } else if InReport(s.proc) {
      ReportKeepsVerdicts(s, e);
      ReportKeepsReports(s, e);
    } else {
      RequestKeepsReports(s, e);
    }
  }

  /** The slot always holds the newest ticket, so receiving it keeps the received tickets increasing. */
  lemma TakeKeepsTickets(s: State)
    requires Inv(s) && ProcStep(s, Take).Some?
    ensures TicketInv(ProcStep(s, Take).value)
  {
    var n := ProcStep(s, Take).value;
    var h, h' := s.history, n.history;
    var k := s.slot.value.ticket;
    forall i | 0 <= i < |h.taken| ensures h.taken[i] < k {
      assert h.taken[i] in h.taken;
    }
    forall j | j in h'.taken ensures j < |h'.sent| {
      assert j in h.taken || j == k;
    }
    forall j: nat | j < |h'.sent|
      ensures j in h'.taken || j in h'.dropped
    {
      assert j in h.taken || j in h.dropped || j == k;
      assert h'.taken[|h.taken|] == k;
      if j in h.taken {
        var i :| 0 <= i < |h.taken| && h.taken[i] == j;
        assert h'.taken[i] == j;
      }
    }
  }

  lemma StepKeepsInv(s: State, e: Event)
    requires Inv(s) && Step(s, e).Some?
    ensures Inv(Step(s, e).value)
  {
    if IsThreadEvent(e) {
      ThreadStepKeepsInv(s, e);
    } else {
      ProcStepKeepsInv(s, e);
    }
  }
}
