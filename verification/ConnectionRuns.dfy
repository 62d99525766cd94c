/** What every interleaving of the connection-request protocol guarantees, and where it guarantees less. */
module ConnectionRuns {
  import opened Wrappers
  import opened ConnectionRequests

  lemma {:induction false} RunKeepsInv(es: seq<Event>)
    requires Exec(INIT, es).Some?
    ensures Inv(Exec(INIT, es).value)
  {
    if es == [] {
      assert OpenThreads(INIT.threads) == {};
    } else {
      RunKeepsInv(es[..|es| - 1]);
      StepKeepsInv(Exec(INIT, es[..|es| - 1]).value, es[|es| - 1]);
    }
  }

  lemma ReachableInv(s: State)
    requires Reachable(s)
    ensures Inv(s)
  {
    var es :| Exec(INIT, es) == Some(s);
    RunKeepsInv(es);
  }

  // ------------------------------------------------------------------
  // The slot
  // ------------------------------------------------------------------

  /** The send of a registration never blocks: the channel it has just drained is still empty. */
  lemma SendNeverBlocks(s: State, t: Tid)
    requires Reachable(s) && t in s.threads && s.threads[t].Drained?
    ensures Step(s, RegSend(t)).Some?
  {
    ReachableInv(s);
  }

  /** What waits in the channel is the request that was sent last. */
  lemma SlotHoldsNewest(s: State)
    requires Reachable(s) && s.slot.Some?
    ensures |s.history.sent| > 0
         && s.slot.value.ticket == |s.history.sent| - 1
         && s.slot.value.params == s.history.sent[|s.history.sent| - 1]
  {
    ReachableInv(s);
  }

  /** No registration is open at the instant the ready wait passes, and none can be open unless the wait blocks. */
  lemma WaitPassesIffNoneOpen(s: State)
    requires Reachable(s) && s.proc.Waiting?
    ensures Step(s, WaitPass).Some? <==> (forall t :: t in s.threads ==> !IsOpen(s.threads[t]))
  {
    ReachableInv(s);
    if s.ready == 0 {
      forall t | t in s.threads ensures !IsOpen(s.threads[t]) {
        assert t !in OpenThreads(s.threads);
      }
    } else {
      var t :| t in OpenThreads(s.threads);
    }
  }

  /**
    A taken request may still be overtaken: a registration can send a newer one between the
    receive and the ready wait.  Requests nevertheless get their verdicts in the order of the
    sends, each at most once, and a request dropped from the channel gets none.
  */
  lemma VerdictsFollowSendOrder(s: State, i: nat, j: nat)
    requires Reachable(s) && i < j < |s.history.verdicts|
    ensures s.history.verdicts[i].ticket < s.history.verdicts[j].ticket < |s.history.sent|
    ensures s.history.verdicts[i].ticket !in s.history.dropped
  {
    ReachableInv(s);
    var h := s.history;
    assert h.taken[i] in h.taken && h.taken[j] in h.taken;
  }

  ghost predicate Quiescent(s: State) {
    && s.proc.Receiving?
    && s.slot.None?
    && (forall t :: t in s.threads ==> !IsOpen(s.threads[t]))
  }

  lemma DroppedNewestIsReplaced(s: State)
    requires Inv(s)
    ensures |s.history.sent| > 0 && |s.history.sent| - 1 in s.history.dropped ==>
              exists t :: t in s.threads && IsOpen(s.threads[t])
  {
  }

  /**
    The newest request is never lost: when nothing is pending any more, the request with
    the last verdict is the request that was sent last.
  */
  lemma NewestGetsVerdict(s: State)
    requires Reachable(s) && Quiescent(s) && |s.history.sent| > 0
    ensures |s.history.verdicts| > 0
         && s.history.verdicts[|s.history.verdicts| - 1].ticket == |s.history.sent| - 1
  {
    ReachableInv(s);
    var h := s.history;
    var last: nat := |h.sent| - 1;
    DroppedNewestIsReplaced(s);
    assert last !in h.dropped;
    assert last in h.taken;
    var i :| 0 <= i < |h.taken| && h.taken[i] == last;
    assert h.taken[|h.taken| - 1] in h.taken;
  }

  /**
    Whenever the processor is idle, the channel empty and no registration open, the stored
    VPN state is DISCONNECTED and the last broadcast reported the last processed request.
  */
  lemma QuiescentIsDisconnected(s: State)
    requires Reachable(s) && Quiescent(s)
    ensures s.lastVpnState == Disconnected
    ensures |s.history.sent| > 0 ==>
              && |s.history.broadcasts| > 0
              && s.history.broadcasts[|s.history.broadcasts| - 1].ticket == |s.history.sent| - 1
  {
    ReachableInv(s);
    if |s.history.sent| > 0 {
      NewestGetsVerdict(s);
    } else {
      if |s.history.taken| > 0 { assert s.history.taken[0] in s.history.taken; }
    }
  }

  /**
    The DISCONNECTED report is skipped exactly when a request sat in the channel and no
    disconnection was requested; that request is newer than the one that finished.
  */
  lemma ReportSkippedIffNewerPending(s: State, looked: State, n: State)
    requires Reachable(s) && s.proc.Finishing?
    requires Step(s, LookIntoChannel) == Some(looked)
    requires n == if looked.proc.ReadingFlag? then Step(looked, ReadFlag).value else looked
    ensures n.proc.Receiving? <==> s.slot.Some? && !s.disconnectRequested
    ensures n.proc.Receiving? ==> s.slot.value.ticket > s.proc.item.ticket
    ensures !n.proc.Receiving? ==> n.proc == Closing(s.proc.item)
  {
    ReachableInv(s);
    if s.slot.Some? {
      PendingIsNewer(s);
    }
    assert looked == s.(proc := if s.slot.None? then Closing(s.proc.item) else ReadingFlag(s.proc.item));
  }

  lemma PendingIsNewer(s: State)
    requires ChannelInv(s) && TicketInv(s) && !s.proc.Receiving? && s.slot.Some?
    ensures s.slot.value.ticket > s.proc.item.ticket
  {
    assert s.proc.item.ticket in s.history.taken;
  }

  // ------------------------------------------------------------------
  // The disconnect flag
  // ------------------------------------------------------------------

  /** A 'Disconnect' command came after the latest registration. */
  predicate LatestIsCommand(es: seq<Event>) {
    if es == [] then false
    else
      var e := es[|es| - 1];
      if e.CmdBegin? then true
      else if e.RegBegin? then false
      else LatestIsCommand(es[..|es| - 1])
  }

  lemma FlagStep(s: State, e: Event)
    requires Step(s, e).Some?
    ensures Step(s, e).value.disconnectRequested
            == if e.CmdBegin? then true else if e.RegBegin? then false else s.disconnectRequested
  {
    if IsThreadEvent(e) {
      ThreadStepRequires(s, e);
    } else {
      ProcStepFrame(s, e);
    }
  }

  lemma {:induction false} FlagMeaning(es: seq<Event>)
    requires Exec(INIT, es).Some?
    ensures Exec(INIT, es).value.disconnectRequested == LatestIsCommand(es)
  {
    if es != [] {
      FlagMeaning(es[..|es| - 1]);
      FlagStep(Exec(INIT, es[..|es| - 1]).value, es[|es| - 1]);
    }
  }

  lemma CheckReadsFlag(s: State)
    requires Step(s, Check).Some?
    ensures var n := Step(s, Check).value;
            && n.history.verdicts == s.history.verdicts + [Verdict(s.proc.item.ticket, !s.disconnectRequested)]
            && (n.proc.Entering? <==> !s.disconnectRequested)
  {
  }

  /** A checked request reaches Service.Connect iff no 'Disconnect' came after the latest registration. */
  lemma CheckDecides(es: seq<Event>)
    requires es != [] && es[|es| - 1] == Check && Exec(INIT, es).Some?
    ensures var s := Exec(INIT, es).value;
            var verdicts := s.history.verdicts;
            && |verdicts| > 0
            && (verdicts[|verdicts| - 1].connect <==> !LatestIsCommand(es))
            && (s.proc.Entering? <==> !LatestIsCommand(es))
  {
    var init := es[..|es| - 1];
    FlagMeaning(init);
    CheckReadsFlag(Exec(INIT, init).value);
    assert LatestIsCommand(es) == LatestIsCommand(init);
  }

  /** The VPN state after an event that stores one. */
  function StoredBy(e: Event, before: VpnState): VpnState {
    match e
    case VpnStateChange(vpnState) => vpnState
    case AnnounceConnecting => Connecting
    case AnnounceRetry => Reconnecting
    case StoreDisconnected => Disconnected
    case _ => before
  }

  /** The VPN state that was stored last. */
  function LastStored(es: seq<Event>): VpnState {
    if es == [] then Disconnected else StoredBy(es[|es| - 1], LastStored(es[..|es| - 1]))
  }

  /** The VPN state that was stored last before the latest report began. */
  function StoredBeforeReport(es: seq<Event>): VpnState {
    if es == [] then Disconnected
    else if es[|es| - 1].StoreDisconnected? then LastStored(es[..|es| - 1])
    else StoredBeforeReport(es[..|es| - 1])
  }

  lemma ConnectStores(s: State, e: Event)
    requires InConnect(s.proc) && ConnectStep(s, e).Some?
    ensures ConnectStep(s, e).value.lastVpnState == StoredBy(e, s.lastVpnState)
  {
  }

  lemma ReportStores(s: State, e: Event)
    requires InReport(s.proc) && ReportStep(s, e).Some?
    ensures ReportStep(s, e).value.lastVpnState == StoredBy(e, s.lastVpnState)
  {
  }

  lemma StepStores(s: State, e: Event)
    requires Step(s, e).Some?
    ensures Step(s, e).value.lastVpnState == StoredBy(e, s.lastVpnState)
  {
    if IsThreadEvent(e) {
      ThreadStepFrame(s, e);
    } else if InConnect(s.proc) {
      ConnectStores(s, e);
    } else if InReport(s.proc) {
      ReportStores(s, e);
    } else {
      RequestFrame(s, e);
    }
  }

  lemma {:induction false} StoredState(es: seq<Event>)
    requires Exec(INIT, es).Some?
    ensures Exec(INIT, es).value.lastVpnState == LastStored(es)
  {
    if es != [] {
      var init := es[..|es| - 1];
      StoredState(init);
      StepStores(Exec(INIT, init).value, es[|es| - 1]);
    }
  }

  lemma ReportingStep(s: State, e: Event)
    requires Step(s, e).Some? && Step(s, e).value.proc.Reporting?
    ensures e.StoreDisconnected? ==> (Step(s, e).value.proc.authError <==> s.lastVpnState == Exiting(true))
    ensures !e.StoreDisconnected? ==> s.proc == Step(s, e).value.proc
  {
    if IsThreadEvent(e) {
      ThreadStepFrame(s, e);
    } else if InConnect(s.proc) {
      ConnectFrame(s, e);
    } else if !InReport(s.proc) {
      RequestFrame(s, e);
    }
  }

  lemma {:induction false} ReportingRemembers(es: seq<Event>)
    requires Exec(INIT, es).Some? && Exec(INIT, es).value.proc.Reporting?
    ensures Exec(INIT, es).value.proc.authError <==> StoredBeforeReport(es) == Exiting(true)
  {
    var init := es[..|es| - 1];
    ReportingStep(Exec(INIT, init).value, es[|es| - 1]);
    if es[|es| - 1].StoreDisconnected? {
      StoredState(init);
    } else {
      ReportingRemembers(init);
    }
  }

  /**
    A DISCONNECTED report is about the request that was taken last.  It names a manual disconnection iff 'Disconnect'
    came after the latest registration, else an authentication error iff the VPN was exiting with one.
  */
  lemma ReportReasonMeaning(es: seq<Event>)
    requires es != [] && es[|es| - 1] == SendReport && Exec(INIT, es).Some?
    ensures var before, after := Exec(INIT, es[..|es| - 1]).value.history, Exec(INIT, es).value.history;
            var report := after.broadcasts[|before.broadcasts|];
            && |after.taken| > 0
            && after.broadcasts == before.broadcasts + [Broadcast(after.taken[|after.taken| - 1], report.reason)]
            && (report.reason == DisconnectRequested <==> LatestIsCommand(es))
            && (report.reason == AuthenticationError
                <==> !LatestIsCommand(es) && StoredBeforeReport(es) == Exiting(true))
            && (report.reason == UnknownReason <==> !LatestIsCommand(es) && StoredBeforeReport(es) != Exiting(true))
  {
    var init := es[..|es| - 1];
    FlagMeaning(init);
    ReportingRemembers(init);
    RunKeepsInv(init);
  }

  /** A cancelled request never reaches Service.Connect, before or after its cancellation. */
  lemma CancelledNeverConnects(s: State, i: nat, j: nat)
    requires Reachable(s) && i < |s.history.verdicts| && j < |s.history.verdicts|
    requires s.history.verdicts[i].ticket == s.history.verdicts[j].ticket
    ensures s.history.verdicts[i].connect == s.history.verdicts[j].connect
  {
    if i < j {
      VerdictsFollowSendOrder(s, i, j);
    } else if j < i {
      VerdictsFollowSendOrder(s, j, i);
    }
  }

  // ------------------------------------------------------------------
  // Disconnecting a connection that is being established
  // ------------------------------------------------------------------

  /** How many VPN objects the current call of keepConnection may still create after a disconnection. */
  function AttemptsLeft(pc: ProcPc): nat {
    if pc.Starting? || pc.Creating? then 1 else 0
  }

  function CountCreated(es: seq<Event>): nat {
    if es == [] then 0
    else CountCreated(es[..|es| - 1]) + (if es[|es| - 1].CreateObject? then 1 else 0)
  }

  lemma StepKeepsVerdictPrefix(s: State, e: Event)
    requires Step(s, e).Some?
    ensures |s.history.verdicts| <= |Step(s, e).value.history.verdicts|
    ensures |s.history.verdicts| == |Step(s, e).value.history.verdicts| <==> e != Check
  {
    if IsThreadEvent(e) {
      ThreadStepFrame(s, e);
    } else if InConnect(s.proc) {
      ConnectFrame(s, e);
    } else if InReport(s.proc) {
      ReportFrame(s, e);
    } else {
      OnlyCheckDecides(s, e);
    }
  }

  lemma OnlyCheckDecides(s: State, e: Event)
    requires !InConnect(s.proc) && !InReport(s.proc) && RequestStep(s, e).Some?
    ensures |RequestStep(s, e).value.history.verdicts| == |s.history.verdicts| + (if e.Check? then 1 else 0)
  {
  }

  /** A disconnection was required since the retry loop started, and the call is not over or gets no successor. */
  predicate LoopEnds(s: State) {
    s.required == Disconnect && !s.proc.Cancelling? && !s.proc.Entering?
  }

  lemma ConnectLoopEnds(s: State, e: Event)
    requires LoopEnds(s) && InConnect(s.proc) && ConnectStep(s, e).Some?
    ensures var n := ConnectStep(s, e).value;
            LoopEnds(n) && (if e.CreateObject? then 1 else 0) + AttemptsLeft(n.proc) <= AttemptsLeft(s.proc)
  {
  }

  lemma RequestLoopEnds(s: State, e: Event)
    requires LoopEnds(s) && e != Check && !InConnect(s.proc) && !InReport(s.proc) && RequestStep(s, e).Some?
    ensures var n := RequestStep(s, e).value;
            LoopEnds(n) && !e.CreateObject? && AttemptsLeft(n.proc) == 0
  {
  }

  lemma LoopEndsStep(s: State, e: Event)
    requires LoopEnds(s) && e != Check && Step(s, e).Some?
    ensures var n := Step(s, e).value;
            LoopEnds(n) && (if e.CreateObject? then 1 else 0) + AttemptsLeft(n.proc) <= AttemptsLeft(s.proc)
  {
    if IsThreadEvent(e) {
      ThreadStepFrame(s, e);
      ThreadStepRequires(s, e);
    } else if InConnect(s.proc) {
      ConnectLoopEnds(s, e);
    } else if InReport(s.proc) {
      ReportFrame(s, e);
    } else {
      RequestLoopEnds(s, e);
    }
  }

  /**
    Once keepConnection runs, a disconnection is never overwritten: until the next request gets its
    verdict the required state stays Disconnect, and no new attempt starts except the one that was
    already under way.
  */
  lemma {:induction false} DisconnectEndsTheCall(s: State, es: seq<Event>)
    requires InKeepConnection(s.proc) && s.required == Disconnect
    requires Exec(s, es).Some? && |Exec(s, es).value.history.verdicts| == |s.history.verdicts|
    ensures LoopEnds(Exec(s, es).value)
    ensures CountCreated(es) + AttemptsLeft(Exec(s, es).value.proc) <= AttemptsLeft(s.proc)
  {
    if es != [] {
      var init, last := es[..|es| - 1], es[|es| - 1];
      var m := Exec(s, init).value;
      MonotoneVerdicts(s, init);
      StepKeepsVerdictPrefix(m, last);
      DisconnectEndsTheCall(s, init);
      LoopEndsStep(m, last);
    }
  }

  lemma {:induction false} MonotoneVerdicts(s: State, es: seq<Event>)
    requires Exec(s, es).Some?
    ensures |s.history.verdicts| <= |Exec(s, es).value.history.verdicts|
  {
    if es != [] {
      MonotoneVerdicts(s, es[..|es| - 1]);
      StepKeepsVerdictPrefix(Exec(s, es[..|es| - 1]).value, es[|es| - 1]);
    }
  }

  /** The one step that overwrites a disconnection is the start of the retry loop. */
  lemma DisconnectOverwritten(s: State, e: Event)
    requires s.required == Disconnect && Step(s, e).Some?
    ensures Step(s, e).value.required != Disconnect <==> e.KeepStart?
  {
    if IsThreadEvent(e) {
      ThreadStepRequires(s, e);
    } else if InReport(s.proc) {
      ReportFrame(s, e);
    } else if !InConnect(s.proc) {
      RequestFrame(s, e);
    }
  }

  // ------------------------------------------------------------------
  // Which disconnections are honoured
  // ------------------------------------------------------------------

  /**
    The running call still connects: it goes on to create or register a VPN object, its object was not
    told to stop, or the loop is going to retry.
  */
  predicate StillConnects(s: State) {
    || s.proc.Entering? || s.proc.Starting? || s.proc.Creating? || s.proc.Preparing?
    || (s.proc.Attempting? && s.vpn.Alive?)
    || (s.required.KeepConnection? && InKeepConnection(s.proc))
  }

  ghost predicate ConnectsBeforeCheck(s: State) {
    exists es :: Exec(s, es).Some? && Check !in es && VpnStateChange(Connected) in es
  }

  predicate NoRegistration(es: seq<Event>) {
    forall e :: e in es ==> !e.RegBegin?
  }

  ghost predicate ConnectsBeforeRegistration(s: State) {
    exists es :: Exec(s, es).Some? && NoRegistration(es) && VpnStateChange(Connected) in es
  }

  lemma ConnectEnded(s: State, e: Event)
    requires !StillConnects(s) && InConnect(s.proc) && ConnectStep(s, e).Some?
    ensures !StillConnects(ConnectStep(s, e).value) && e != VpnStateChange(Connected)
  {
  }

  lemma RequestEnded(s: State, e: Event)
    requires !InConnect(s.proc) && !InReport(s.proc) && e != Check && RequestStep(s, e).Some?
    ensures !StillConnects(RequestStep(s, e).value) && e != VpnStateChange(Connected)
  {
  }

  lemma EndedStep(s: State, e: Event)
    requires !StillConnects(s) && e != Check && Step(s, e).Some?
    ensures !StillConnects(Step(s, e).value) && e != VpnStateChange(Connected)
  {
    if IsThreadEvent(e) {
      ThreadStepFrame(s, e);
      ThreadStepRequires(s, e);
    } else if InConnect(s.proc) {
      ConnectEnded(s, e);
    } else if InReport(s.proc) {
      ReportFrame(s, e);
    } else {
      RequestEnded(s, e);
    }
  }

  lemma {:induction false} EndedStays(s: State, es: seq<Event>)
    requires !StillConnects(s) && Exec(s, es).Some? && Check !in es
    ensures !StillConnects(Exec(s, es).value) && VpnStateChange(Connected) !in es
  {
    if es != [] {
      var init, last := es[..|es| - 1], es[|es| - 1];
      assert es == init + [last];
      EndedStays(s, init);
      EndedStep(Exec(s, init).value, last);
    }
  }

  /** With the flag raised the check cancels. */
  lemma FlaggedStep(s: State, e: Event)
    requires !StillConnects(s) && s.disconnectRequested && !e.RegBegin? && Step(s, e).Some?
    ensures var n := Step(s, e).value; !StillConnects(n) && n.disconnectRequested
    ensures e != VpnStateChange(Connected)
  {
    FlagStep(s, e);
    if e != Check {
      EndedStep(s, e);
    }
  }

  lemma {:induction false} FlaggedStays(s: State, es: seq<Event>)
    requires !StillConnects(s) && s.disconnectRequested && Exec(s, es).Some? && NoRegistration(es)
    ensures !StillConnects(Exec(s, es).value) && Exec(s, es).value.disconnectRequested
    ensures VpnStateChange(Connected) !in es
  {
    if es != [] {
      var init, last := es[..|es| - 1], es[|es| - 1];
      assert es == init + [last];
      FlaggedStays(s, init);
      FlaggedStep(Exec(s, init).value, last);
    }
  }

  /** The steps of a call that connects, up to the last one. */
  function NextTowardsConnected(s: State): Event
    requires StillConnects(s)
  {
    match s.proc
    case Entering(_) => KeepStart
    case Starting(_) => AnnounceConnecting
    case Creating(_) => CreateObject
    case Preparing(_) => RegisterObject
    case Attempting(_) => if s.vpn.Alive? then VpnStateChange(Connected) else Join
    case Deciding(_) => Decide
    case Announcing(_) => AnnounceRetry
    case Pausing(_) => EndPause
  }

  function StepsToConnected(s: State): nat
    requires StillConnects(s)
  {
    match s.proc
    case Entering(_) => 4
    case Starting(_) => 3
    case Creating(_) => 2
    case Preparing(_) => 1
    case Attempting(_) => if s.vpn.Alive? then 0 else 6
    case Deciding(_) => 5
    case Announcing(_) => 4
    case Pausing(_) => 3
  }

  lemma TowardsConnected(s: State)
    requires StillConnects(s)
    ensures var e := NextTowardsConnected(s);
            && e != Check && !e.RegBegin? && Step(s, e).Some?
            && (e != VpnStateChange(Connected) ==>
                  StillConnects(Step(s, e).value) && StepsToConnected(Step(s, e).value) < StepsToConnected(s))
  {
  }

  /** A run of the processor alone that ends with CONNECTED. */
  lemma {:induction false} ConnectingRun(s: State) returns (es: seq<Event>)
    requires StillConnects(s)
    ensures Exec(s, es).Some? && Check !in es && NoRegistration(es) && VpnStateChange(Connected) in es
    decreases StepsToConnected(s)
  {
    var e := NextTowardsConnected(s);
    TowardsConnected(s);
    if e == VpnStateChange(Connected) {
      es := [e];
      assert es[..0] == [];
    } else {
      var rest := ConnectingRun(Step(s, e).value);
      es := [e] + rest;
      ExecFirst(s, e, rest);
    }
  }

  lemma {:induction false} ExecFirst(s: State, e: Event, es: seq<Event>)
    requires Step(s, e).Some?
    ensures Exec(s, [e] + es) == Exec(Step(s, e).value, es)
  {
    var all := [e] + es;
    if es == [] {
      assert all[..0] == [] && all == [e];
    } else {
      assert all[..|all| - 1] == [e] + es[..|es| - 1];
      ExecFirst(s, e, es[..|es| - 1]);
    }
  }

  /** Before the next request is checked the running call sees CONNECTED in some execution iff it still connects. */
  lemma ConnectsIffStillConnects(s: State)
    ensures ConnectsBeforeCheck(s) <==> StillConnects(s)
    ensures s.disconnectRequested ==> (ConnectsBeforeRegistration(s) <==> StillConnects(s))
  {
    if StillConnects(s) {
      var es := ConnectingRun(s);
    } else {
      if ConnectsBeforeCheck(s) {
        var es :| Exec(s, es).Some? && Check !in es && VpnStateChange(Connected) in es;
        EndedStays(s, es);
      }
      if s.disconnectRequested && ConnectsBeforeRegistration(s) {
        var es :| Exec(s, es).Some? && NoRegistration(es) && VpnStateChange(Connected) in es;
        FlaggedStays(s, es);
      }
    }
  }

  /**
    When Service.Disconnect looks for the VPN object: there is none although the call is going to create or
    register one, the object does not stop, or the required state was overwritten and CONNECTED seen since.
  */
  predicate Escapes(s: State, stops: bool) {
    || s.proc.Entering? || s.proc.Starting? || s.proc.Creating? || s.proc.Preparing?
    || (s.proc.Attempting? && s.vpn.Alive? && !stops)
    || (s.required.KeepConnection? && InKeepConnection(s.proc))
  }

  /**
    A disconnection, of a command or of a registration, is lost exactly when it escapes: the call it was
    meant for still sees CONNECTED in some execution.  A 'Disconnect' command without a later registration
    is lost for good exactly then.
  */
  lemma DisconnectLostIffEscapes(s: State, e: Event, stops: bool)
    requires Reachable(s) && (e.RegStop? || e.CallStop?) && e.stops == stops && Step(s, e).Some?
    ensures ConnectsBeforeCheck(Step(s, e).value) <==> Escapes(s, stops)
    ensures s.disconnectRequested ==> (ConnectsBeforeRegistration(Step(s, e).value) <==> Escapes(s, stops))
  {
    ReachableInv(s);
    var n := Step(s, e).value;
    ConnectsIffStillConnects(n);
    assert StillConnects(n) <==> Escapes(s, stops);
  }

  /**
    Seen from the moment it requires DISCONNECTED: as long as no retry loop starts before it looks for the
    object, only a missing object or one that does not stop lets a disconnection escape.
  */
  lemma EscapesWithoutOverwriting(s: State, stops: bool)
    requires Reachable(s) && s.required == Disconnect
    ensures Escapes(s, stops)
            <==> (s.vpn.Absent? && (s.proc.Entering? || s.proc.Starting? || s.proc.Creating? || s.proc.Preparing?))
                 || (s.vpn.Alive? && !stops)
  {
    ReachableInv(s);
  }

  /** Whoever waits for the end of the VPN object returns only when that object's attempt is over. */
  lemma AwaitedIsOver(s: State, t: Tid)
    requires Reachable(s) && t in s.threads && (s.threads[t].Awaiting? || s.threads[t].CallAwaiting?)
    ensures var e := if s.threads[t].Awaiting? then RegAwait(t) else CallAwait(t);
            && (Step(s, e).Some? <==> !s.proc.Attempting? || s.threads[t].attempt < s.attempt)
            && (!Step(s, e).Some? ==> s.vpn.Ending?)
  {
    ReachableInv(s);
  }

  // ------------------------------------------------------------------
  // The order of the sections
  // ------------------------------------------------------------------

  /** The number of the section in which a goroutine stands. */
  function Section(pc: ThreadPc): nat {
    match pc
    case Announced(_) => 0
    case Opened(_) => 1
    case Locked(_) => 2
    case Drained(_) => 3
    case Enqueued => 4
    case Released => 5
    case Stopping => 6
    case Awaiting(_) => 7
    case Leaving => 8
    case Calling => 10
    case CallStopping => 11
    case CallAwaiting(_) => 12
  }

  /** A goroutine begins with its first section and runs through all in order; it waits only for an object it stops. */
  lemma SectionsInOrder(s: State, e: Event)
    requires IsThreadEvent(e) && !e.Reconnect? && Step(s, e).Some?
    ensures var n, waits := Step(s, e).value.threads, !s.vpn.Absent? && (e.RegStop? || e.CallStop?) && e.stops;
            if e.t !in s.threads then e.t in n && Section(n[e.t]) == (if e.RegBegin? then 0 else 10)
            else match s.threads[e.t]
                 case Stopping => e.t in n && n[e.t] == if waits then Awaiting(s.attempt) else Leaving
                 case CallStopping => if waits then e.t in n && n[e.t] == CallAwaiting(s.attempt) else e.t !in n
                 case Leaving => e.t !in n
                 case CallAwaiting(_) => e.t !in n
                 case pc => e.t in n && Section(n[e.t]) == Section(pc) + 1
    ensures forall u :: u != e.t ==>
              (u in Step(s, e).value.threads <==> u in s.threads)
              && (u in s.threads ==> Step(s, e).value.threads[u] == s.threads[u])
  {
  }

  /** What a registration sends is what it was called with. */
  lemma ParametersAreKept(s: State, e: Event)
    requires IsRegistering(e) && RegisterStep(s, e).Some?
    ensures var n := RegisterStep(s, e).value;
            && (e.RegBegin? ==> n.threads[e.t].params == e.params)
            && (e.RegOpen? || e.RegLock? || e.RegDrain? ==> n.threads[e.t].params == s.threads[e.t].params)
            && (e.RegSend? ==> n.history.sent == s.history.sent + [s.threads[e.t].params]
                               && n.slot == Some(Item(|s.history.sent|, s.threads[e.t].params)))
            && (!e.RegSend? ==> n.history.sent == s.history.sent)
  {
  }

  /** A route change can stop the VPN object whenever there is one, and does nothing else. */
  lemma ReconnectMeans(s: State, stops: bool)
    ensures Step(s, Reconnect(stops)).Some? <==> !s.vpn.Absent?
    ensures !s.vpn.Absent? ==> Step(s, Reconnect(stops)) == Some(s.(vpn := if stops then Ending else s.vpn))
  {
  }

  /** Where the processor goes with each of its actions inside Service.Connect. */
  lemma ConnectInOrder(s: State, e: Event)
    requires InConnect(s.proc) && ConnectStep(s, e).Some?
    ensures var n, item, keeps := ConnectStep(s, e).value.proc, s.proc.item, s.required.KeepConnection?;
            match e
            case EarlyReturn => s.proc.Entering? && n == Finishing(item)
            case KeepStart => s.proc.Entering? && n == Starting(item)
            case AnnounceConnecting => s.proc.Starting? && n == Creating(item)
            case CreateFail => s.proc.Creating? && n == Finishing(item)
            case CreateObject => s.proc.Creating? && n == Preparing(item)
            case RegisterObject => s.proc.Preparing? && n == Attempting(item)
            case VpnStateChange(_) => s.proc.Attempting? && n == s.proc
            case Join => s.proc.Attempting? && n == Deciding(item)
            case Decide => s.proc.Deciding? && n == (if keeps then Announcing(item) else Finishing(item))
            case AnnounceRetry => s.proc.Announcing? && n == Pausing(item)
            case EndPause => s.proc.Pausing? && n == (if keeps then Creating(item) else Finishing(item))
            case _ => false
  {
  }

  /** And outside of it: a cancelled request requires a disconnection, a finished one is reported or replaced. */
  lemma RequestInOrder(s: State, e: Event)
    requires !IsThreadEvent(e) && !InConnect(s.proc) && ProcStep(s, e).Some?
    ensures var n := ProcStep(s, e).value;
            match e
            case Take => s.proc.Receiving? && s.slot.Some? && n.proc == Waiting(s.slot.value)
            case WaitPass => s.proc.Waiting? && n.proc == Checking(s.proc.item)
            case Check =>
              s.proc.Checking?
              && n.proc == (if s.disconnectRequested then Cancelling(s.proc.item) else Entering(s.proc.item))
            case Cancel => s.proc.Cancelling? && n.proc == Finishing(s.proc.item) && n.required == Disconnect
            case LookIntoChannel =>
              s.proc.Finishing?
              && n.proc == (if s.slot.None? then Closing(s.proc.item) else ReadingFlag(s.proc.item))
            case ReadFlag =>
              s.proc.ReadingFlag? && n.proc == (if s.disconnectRequested then Closing(s.proc.item) else Receiving)
            case StoreDisconnected =>
              s.proc.Closing? && n.proc == Reporting(s.proc.item, s.lastVpnState == Exiting(true))
            case SendReport => s.proc.Reporting? && n.proc == Receiving
            case _ => false
  {
  }

  lemma Extend(es: seq<Event>, s: State, e: Event, n: State)
    requires Exec(INIT, es) == Some(s) && Step(s, e) == Some(n)
    ensures Exec(INIT, es + [e]) == Some(n)
  {
  }

  /** Reachability is closed under enabled steps. */
  lemma ReachableStep(s: State, e: Event)
    requires Reachable(s) && Step(s, e).Some?
    ensures Reachable(Step(s, e).value)
  {
    var es :| Exec(INIT, es) == Some(s);
    Extend(es, s, e, Step(s, e).value);
  }

  lemma Do(s: State, e: Event, n: State)
    requires Reachable(s) && Step(s, e) == Some(n)
    ensures Reachable(n)
  {
    ReachableStep(s, e);
  }

  /** A registration that runs alone until it is counted. */
  lemma OpenAlone(s0: State, t: Tid, p: ConnectionParams) returns (s: State)
    requires Reachable(s0) && t !in s0.threads
    ensures Reachable(s)
    ensures s == s0.(disconnectRequested := false, ready := s0.ready + 1, threads := s0.threads[t := Opened(p)])
  {
    var s1 := s0.(disconnectRequested := false, threads := s0.threads[t := Announced(p)]);
    Do(s0, RegBegin(t, p), s1);
    s := s1.(ready := s1.ready + 1, threads := s1.threads[t := Opened(p)]);
    Do(s1, RegOpen(t), s);
    assert s.threads == s0.threads[t := Opened(p)];
  }

  /** A registration that runs alone up to its send. */
  lemma RegisterUpToSend(s0: State, t: Tid, p: ConnectionParams) returns (s: State)
    requires Reachable(s0) && t !in s0.threads && s0.mutex.None? && s0.slot.None?
    ensures Reachable(s)
    ensures s == s0.(disconnectRequested := false, ready := s0.ready + 1, mutex := Some(t),
                     threads := s0.threads[t := Drained(p)])
  {
    var s1 := OpenAlone(s0, t, p);
    var s2 := s1.(mutex := Some(t), threads := s1.threads[t := Locked(p)]);
    Do(s1, RegLock(t), s2);
    s := s2.(threads := s2.threads[t := Drained(p)]);
    Do(s2, RegDrain(t), s);
    assert s.threads == s0.threads[t := Drained(p)];
  }

  /** A registration that runs alone from its send to its call of Service.Disconnect. */
  lemma SendAndUnlock(s0: State, t: Tid, p: ConnectionParams) returns (s: State)
    requires Reachable(s0) && t in s0.threads && s0.threads[t] == Drained(p) && s0.slot.None?
    ensures Reachable(s)
    ensures s == s0.(slot := Some(Item(|s0.history.sent|, p)), mutex := None, threads := s0.threads[t := Released],
                     history := s0.history.(sent := s0.history.sent + [p]))
  {
    var s1 := s0.(slot := Some(Item(|s0.history.sent|, p)), threads := s0.threads[t := Enqueued],
                  history := s0.history.(sent := s0.history.sent + [p]));
    Do(s0, RegSend(t), s1);
    s := s1.(mutex := None, threads := s1.threads[t := Released]);
    Do(s1, RegUnlock(t), s);
    assert s.threads == s0.threads[t := Released];
  }

  /** Its call of Service.Disconnect while no VPN object is known. */
  lemma DisconnectUnseen(s0: State, t: Tid) returns (s: State)
    requires Reachable(s0) && t in s0.threads && s0.threads[t] == Released && s0.vpn.Absent?
    ensures Reachable(s) && s == s0.(required := Disconnect, threads := s0.threads[t := Leaving])
  {
    var s1 := s0.(required := Disconnect, threads := s0.threads[t := Stopping]);
    Do(s0, RegDisconnect(t), s1);
    s := s1.(threads := s1.threads[t := Leaving]);
    Do(s1, RegStop(t, true), s);
    assert s.threads == s0.threads[t := Leaving];
  }

  lemma Close(s0: State, t: Tid) returns (s: State)
    requires Reachable(s0) && t in s0.threads && s0.threads[t] == Leaving && s0.ready > 0
    ensures Reachable(s) && s == s0.(ready := s0.ready - 1, threads := s0.threads - {t})
  {
    s := s0.(ready := s0.ready - 1, threads := s0.threads - {t});
    Do(s0, RegClose(t), s);
  }

  /** The same, up to the return of the registration. */
  lemma DisconnectAndReturn(s0: State, t: Tid) returns (s: State)
    requires Reachable(s0) && t in s0.threads && s0.threads[t] == Released && s0.vpn.Absent? && s0.ready > 0
    ensures Reachable(s)
    ensures s == s0.(ready := s0.ready - 1, required := Disconnect, threads := s0.threads - {t})
  {
    var s1 := DisconnectUnseen(s0, t);
    assert s1.threads - {t} == s0.threads - {t};
    s := Close(s1, t);
  }

  /** A registration that runs alone from its send to its return. */
  lemma FinishRegistration(s0: State, t: Tid, p: ConnectionParams) returns (s: State)
    requires Reachable(s0) && t in s0.threads && s0.threads[t] == Drained(p) && s0.slot.None? && s0.ready > 0
    requires s0.vpn.Absent?
    ensures Reachable(s)
    ensures s == s0.(slot := Some(Item(|s0.history.sent|, p)), ready := s0.ready - 1, mutex := None,
                     required := Disconnect, threads := s0.threads - {t},
                     history := s0.history.(sent := s0.history.sent + [p]))
  {
    var s1 := SendAndUnlock(s0, t, p);
    s := DisconnectAndReturn(s1, t);
    assert s.threads == s0.threads - {t};
  }

  /** The first registration, alone. */
  lemma FirstRegistration(p: ConnectionParams) returns (s: State)
    ensures Reachable(s)
    ensures s == INIT.(slot := Some(Item(0, p)), history := NO_HISTORY.(sent := [p]))
  {
    assert Exec(INIT, []) == Some(INIT);
    var s0 := RegisterUpToSend(INIT, 0, p);
    s := FinishRegistration(s0, 0, p);
    assert s.threads == map[];
  }

  /** A request is received and waits for its registration. */
  lemma TakeRequest(s0: State, item: Item) returns (s: State)
    requires Reachable(s0) && s0.proc.Receiving? && s0.slot == Some(item) && s0.ready == 0
    ensures Reachable(s)
    ensures s == s0.(slot := None, proc := Checking(item),
                     history := s0.history.(taken := s0.history.taken + [item.ticket]))
  {
    var s1 := s0.(slot := None, proc := Waiting(item),
                  history := s0.history.(taken := s0.history.taken + [item.ticket]));
    Do(s0, Take, s1);
    s := s1.(proc := Checking(item));
    Do(s1, WaitPass, s);
  }

  /** One registration, then the processor takes it and decides to connect. */
  lemma OneRequestEntering(p: ConnectionParams) returns (s: State)
    ensures Reachable(s)
    ensures s == INIT.(proc := Entering(Item(0, p)), history := History([p], [0], {}, [Verdict(0, true)], []))
  {
    var item := Item(0, p);
    var s1 := FirstRegistration(p);
    var s2 := TakeRequest(s1, item);
    s := s2.(proc := Entering(item), history := s2.history.(verdicts := s2.history.verdicts + [Verdict(0, true)]));
    Do(s2, Check, s);
    assert s.history.taken == [0] && s.history.verdicts == [Verdict(0, true)];
  }

  /** A 'Disconnect' command that runs alone while no VPN object is known. */
  lemma RunCommand(s0: State, t: Tid) returns (s: State)
    requires Reachable(s0) && t !in s0.threads && s0.vpn.Absent?
    ensures Reachable(s) && s == s0.(disconnectRequested := true, required := Disconnect)
  {
    var s1 := s0.(disconnectRequested := true, threads := s0.threads[t := Calling]);
    Do(s0, CmdBegin(t), s1);
    var s2 := s1.(required := Disconnect, threads := s1.threads[t := CallStopping]);
    Do(s1, CallDisconnect(t), s2);
    s := s2.(threads := s2.threads - {t});
    Do(s2, CallStop(t, true), s);
    assert s.threads == s0.threads;
  }

  /** From Service.Connect to the creation of a VPN object. */
  lemma BeginLoop(s0: State) returns (s: State)
    requires Reachable(s0) && s0.proc.Entering?
    ensures Reachable(s)
    ensures s == s0.(required := Connect, lastVpnState := Connecting, proc := Creating(s0.proc.item))
  {
    var s1 := s0.(required := Connect, proc := Starting(s0.proc.item));
    Do(s0, KeepStart, s1);
    s := s1.(lastVpnState := Connecting, proc := Creating(s0.proc.item));
    Do(s1, AnnounceConnecting, s);
  }

  lemma CreateAndRegister(s0: State) returns (s: State)
    requires Reachable(s0) && s0.proc.Creating?
    ensures Reachable(s) && s == s0.(proc := Attempting(s0.proc.item), vpn := Alive, attempt := s0.attempt + 1)
  {
    var s1 := s0.(proc := Preparing(s0.proc.item));
    Do(s0, CreateObject, s1);
    s := s1.(proc := Attempting(s0.proc.item), vpn := Alive, attempt := s1.attempt + 1);
    Do(s1, RegisterObject, s);
  }

  /** From the creation of a VPN object to the state CONNECTED. */
  lemma BecomeConnected(s0: State) returns (s: State)
    requires Reachable(s0) && s0.proc.Creating?
    ensures Reachable(s)
    ensures s == s0.(lastVpnState := Connected, proc := Attempting(s0.proc.item),
                     vpn := Alive, attempt := s0.attempt + 1,
                     required := if s0.required.Connect? then KeepConnection else s0.required)
  {
    var s1 := CreateAndRegister(s0);
    s := s1.(lastVpnState := Connected, required := if s1.required.Connect? then KeepConnection else s1.required);
    Do(s1, VpnStateChange(Connected), s);
  }

  /**
    A run in which a 'Disconnect' command is answered although the connection stays up: the command
    completes between the check and the retry loop, then the VPN connects and is kept.
  */
  lemma LostBeforeLoop(p: ConnectionParams) returns (s: State)
    ensures Reachable(s)
    ensures s.disconnectRequested && s.threads == map[] && s.slot.None?
    ensures s.proc.Attempting? && s.vpn.Alive? && s.required == KeepConnection && s.lastVpnState == Connected
  {
    var s0 := OneRequestEntering(p);
    var s1 := RunCommand(s0, 0);
    var s2 := BeginLoop(s1);
    s := BecomeConnected(s2);
  }

  /** The same while the VPN object is being created: the required state stays DISCONNECTED, the VPN is up. */
  lemma LostBeforeObject(p: ConnectionParams) returns (s: State)
    ensures Reachable(s)
    ensures s.disconnectRequested && s.threads == map[] && s.slot.None?
    ensures s.proc.Attempting? && s.vpn.Alive? && s.required == Disconnect && s.lastVpnState == Connected
  {
    var s0 := OneRequestEntering(p);
    var s1 := BeginLoop(s0);
    var s2 := RunCommand(s1, 0);
    s := BecomeConnected(s2);
  }

  /**
    A run in which the newest request waits behind an older connection: its registration
    disconnects between the check and the retry loop of the older one, which is then kept.
  */
  lemma NewestWaitsBehindOlder(p: ConnectionParams, q: ConnectionParams) returns (s: State)
    ensures Reachable(s)
    ensures s.slot == Some(Item(1, q)) && s.threads == map[] && !s.disconnectRequested
    ensures s.proc == Attempting(Item(0, p)) && s.required == KeepConnection && s.lastVpnState == Connected
  {
    var s0 := OneRequestEntering(p);
    var s1 := RegisterUpToSend(s0, 0, q);
    var s2 := FinishRegistration(s1, 0, q);
    assert s2.threads == map[];
    var s3 := BeginLoop(s2);
    s := BecomeConnected(s3);
  }
}
