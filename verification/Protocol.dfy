/**
  The shared fields of the protocol object and the code that changes them, one atomic action at a
  time: each goroutine is resumed where its program counter stands.
*/
module Protocol {
  import opened Wrappers
  import opened ConnectionRequests
  import opened ConnectionRuns

  class Protocol {
    var connRequestChan: Option<Item>
    var connRequestReady: nat
    var connRequestMutex: Option<Tid>
    var disconnectRequested: bool
    var lastVpnState: VpnState
    var requiredVpnState: RequiredState
    var threads: map<Tid, ThreadPc>
    var processor: ProcPc
    var vpn: VpnObject
    var attempt: nat
    var ticket: nat
    ghost var history: History

    ghost function Snapshot(): State
      reads this
    {
      State(connRequestChan, connRequestReady, connRequestMutex, disconnectRequested, lastVpnState,
            requiredVpnState, threads, processor, vpn, attempt, history)
    }

    /** The object is in a state that the steps of the protocol reach; so every result about those holds for it. */
    ghost predicate Valid()
      reads this
    {
      Reachable(Snapshot()) && ticket == |history.sent|
    }

    constructor ()
      ensures Valid() && Snapshot() == INIT
    {
      connRequestChan, connRequestReady, connRequestMutex := None, 0, None;
      disconnectRequested, lastVpnState, requiredVpnState := false, Disconnected, Disconnect;
      threads, processor, ticket := map[], Receiving, 0;
      vpn, attempt := Absent, 0;
      history := NO_HISTORY;
      new;
      assert Exec(INIT, []) == Some(Snapshot());
    }

    /** The first statement of RegisterConnectionRequest. */
    method StartRegistration(t: Tid, params: ConnectionParams)
      requires Valid() && t !in threads
      modifies this
      ensures Valid() && Step(old(Snapshot()), RegBegin(t, params)) == Some(Snapshot())
    {
      ReachableStep(Snapshot(), RegBegin(t, params));
      disconnectRequested := false;
      threads := threads[t := Announced(params)];
    }

    /** The action that follows the program counter of a goroutine; `stops` tells whether the VPN object stops. */
    static function NextThreadEvent(t: Tid, pc: ThreadPc, stops: bool): Event {
      match pc
      case Announced(_) => RegOpen(t)
      case Opened(_) => RegLock(t)
      case Locked(_) => RegDrain(t)
      case Drained(_) => RegSend(t)
      case Enqueued => RegUnlock(t)
      case Released => RegDisconnect(t)
      case Stopping => RegStop(t, stops)
      case Awaiting(_) => RegAwait(t)
      case Leaving => RegClose(t)
      case Calling => CallDisconnect(t)
      case CallStopping => CallStop(t, stops)
      case CallAwaiting(_) => CallAwait(t)
    }

    predicate IsBlocked(t: Tid)
      requires t in threads
      reads this
    {
      match threads[t]
      case Opened(_) => connRequestMutex.Some?
      case Awaiting(a) => !vpn.Absent? && a == attempt
      case CallAwaiting(a) => !vpn.Absent? && a == attempt
      case _ => false
    }

    /**
      One more action of RegisterConnectionRequest.  It blocks only on the mutex and on the end of a VPN
      object that was told to stop.
    */
    method ResumeRegistration(t: Tid, stops: bool) returns (ran: bool)
      requires Valid() && t in threads && !threads[t].Calling? && !threads[t].CallStopping? && !threads[t].CallAwaiting?
      modifies this
      ensures Valid()
      ensures var step := Step(old(Snapshot()), NextThreadEvent(t, old(threads[t]), stops));
              if ran then step == Some(Snapshot()) else step == None && Snapshot() == old(Snapshot())
      ensures !ran <==> old(IsBlocked(t))
    {
      ran := true;
      match threads[t] {
        case Announced(_) => OpenRegistration(t);
        case Opened(_) => ran := LockSlot(t);
        case Locked(_) => DrainSlot(t);
        case Drained(_) => SendToSlot(t);
        case Enqueued => UnlockSlot(t);
        case Released => RequireDisconnect(t);
        case Stopping => StopObject(t, stops);
        case Awaiting(_) => ran := AwaitObject(t);
        case Leaving => CloseRegistration(t);
      }
    }

    method OpenRegistration(t: Tid)
      requires Valid() && t in threads && threads[t].Announced?
      modifies this
      ensures Valid() && Step(old(Snapshot()), RegOpen(t)) == Some(Snapshot())
    {
      ReachableStep(Snapshot(), RegOpen(t));
      connRequestReady, threads := connRequestReady + 1, threads[t := Opened(threads[t].params)];
    }

    method LockSlot(t: Tid) returns (ran: bool)
      requires Valid() && t in threads && threads[t].Opened?
      modifies this
      ensures Valid() && (ran <==> old(connRequestMutex).None?)
      ensures var step := Step(old(Snapshot()), RegLock(t));
              if ran then step == Some(Snapshot()) else step == None && Snapshot() == old(Snapshot())
    {
      if connRequestMutex.Some? {
        return false;
      }
      ReachableStep(Snapshot(), RegLock(t));
      connRequestMutex, threads := Some(t), threads[t := Locked(threads[t].params)];
      return true;
    }

    /** Removes a previous unprocessed request; newer than it is the one about to be sent. */
    method DrainSlot(t: Tid)
      requires Valid() && t in threads && threads[t].Locked?
      modifies this
      ensures Valid() && Step(old(Snapshot()), RegDrain(t)) == Some(Snapshot())
    {
      ReachableStep(Snapshot(), RegDrain(t));
      if connRequestChan.Some? {
        history := history.(dropped := history.dropped + {connRequestChan.value.ticket});
        connRequestChan := None;
      }
      threads := threads[t := Drained(threads[t].params)];
    }

    /** Needs no free place in its precondition: the invariant provides it. */
    method SendToSlot(t: Tid)
      requires Valid() && t in threads && threads[t].Drained?
      modifies this
      ensures Valid() && Step(old(Snapshot()), RegSend(t)) == Some(Snapshot())
    {
      assert connRequestChan.None? by {
        SendNeverBlocks(Snapshot(), t);
      }
      ReachableStep(Snapshot(), RegSend(t));
      var p := threads[t].params;
      connRequestChan := Some(Item(ticket, p));
      history := history.(sent := history.sent + [p]);
      ticket, threads := ticket + 1, threads[t := Enqueued];
    }

    method UnlockSlot(t: Tid)
      requires Valid() && t in threads && threads[t].Enqueued?
      modifies this
      ensures Valid() && Step(old(Snapshot()), RegUnlock(t)) == Some(Snapshot())
    {
      ReachableStep(Snapshot(), RegUnlock(t));
      connRequestMutex, threads := None, threads[t := Released];
    }

    /** First statement of Service.Disconnect. */
    method RequireDisconnect(t: Tid)
      requires Valid() && t in threads && threads[t].Released?
      modifies this
      ensures Valid() && Step(old(Snapshot()), RegDisconnect(t)) == Some(Snapshot())
    {
      ReachableStep(Snapshot(), RegDisconnect(t));
      requiredVpnState, threads := Disconnect, threads[t := Stopping];
    }

    /** Telling the VPN object to stop, if there is one and it can be stopped. */
    method TellToStop(stops: bool) returns (waits: bool)
      modifies this`vpn
      ensures Snapshot() == ConnectionRequests.StopObject(old(Snapshot()), stops)
      ensures waits == Waits(old(Snapshot()), stops)
    {
      if vpn.Absent? || !stops {
        return false;
      }
      vpn := Ending;
      return true;
    }

    method StopObject(t: Tid, stops: bool)
      requires Valid() && t in threads && threads[t].Stopping?
      modifies this
      ensures Valid() && Step(old(Snapshot()), RegStop(t, stops)) == Some(Snapshot())
    {
      ReachableStep(Snapshot(), RegStop(t, stops));
      var waits := TellToStop(stops);
      threads := threads[t := if waits then Awaiting(attempt) else Leaving];
    }

    method AwaitObject(t: Tid) returns (ran: bool)
      requires Valid() && t in threads && threads[t].Awaiting?
      modifies this
      ensures Valid() && (ran <==> !old(IsBlocked(t)))
      ensures var step := Step(old(Snapshot()), RegAwait(t));
              if ran then step == Some(Snapshot()) else step == None && Snapshot() == old(Snapshot())
    {
      if !vpn.Absent? && threads[t].attempt == attempt {
        return false;
      }
      ReachableStep(Snapshot(), RegAwait(t));
      threads := threads[t := Leaving];
      return true;
    }

    method CloseRegistration(t: Tid)
      requires Valid() && t in threads && threads[t].Leaving?
      modifies this
      ensures Valid() && Step(old(Snapshot()), RegClose(t)) == Some(Snapshot())
    {
      ClosingIsPossible(Snapshot(), t);
      ghost var n := Snapshot().(ready := connRequestReady - 1, threads := threads - {t});
      connRequestReady, threads := connRequestReady - 1, threads - {t};
      assert Snapshot() == n;
    }

    /** The 'Disconnect' command raises the flag, then calls the service. */
    method StartDisconnect(t: Tid)
      requires Valid() && t !in threads
      modifies this
      ensures Valid() && Step(old(Snapshot()), CmdBegin(t)) == Some(Snapshot())
    {
      ReachableStep(Snapshot(), CmdBegin(t));
      disconnectRequested, threads := true, threads[t := Calling];
    }

    /** One more action of a disconnection; it waits only for a VPN object that was told to stop. */
    method ResumeDisconnect(t: Tid, stops: bool) returns (ran: bool)
      requires Valid() && t in threads && (threads[t].Calling? || threads[t].CallStopping? || threads[t].CallAwaiting?)
      modifies this
      ensures Valid()
      ensures var step := Step(old(Snapshot()), NextThreadEvent(t, old(threads[t]), stops));
              if ran then step == Some(Snapshot()) else step == None && Snapshot() == old(Snapshot())
      ensures !ran <==> old(IsBlocked(t))
    {
      ran := true;
      match threads[t] {
        case Calling => CallRequires(t);
        case CallStopping => CallStops(t, stops);
        case CallAwaiting(_) => ran := CallAwaits(t);
      }
    }

    method CallRequires(t: Tid)
      requires Valid() && t in threads && threads[t].Calling?
      modifies this
      ensures Valid() && Step(old(Snapshot()), CallDisconnect(t)) == Some(Snapshot())
    {
      ReachableStep(Snapshot(), CallDisconnect(t));
      requiredVpnState, threads := Disconnect, threads[t := CallStopping];
    }

    method CallStops(t: Tid, stops: bool)
      requires Valid() && t in threads && threads[t].CallStopping?
      modifies this
      ensures Valid() && Step(old(Snapshot()), CallStop(t, stops)) == Some(Snapshot())
    {
      ReachableStep(Snapshot(), CallStop(t, stops));
      var waits := TellToStop(stops);
      threads := if waits then threads[t := CallAwaiting(attempt)] else threads - {t};
    }

    method CallAwaits(t: Tid) returns (ran: bool)
      requires Valid() && t in threads && threads[t].CallAwaiting?
      modifies this
      ensures Valid() && (ran <==> !old(IsBlocked(t)))
      ensures var step := Step(old(Snapshot()), CallAwait(t));
              if ran then step == Some(Snapshot()) else step == None && Snapshot() == old(Snapshot())
    {
      if !vpn.Absent? && threads[t].attempt == attempt {
        return false;
      }
      ReachableStep(Snapshot(), CallAwait(t));
      threads := threads - {t};
      return true;
    }

    /**
      One more action of the processor up to Service.Connect, and of its deferred report.  It blocks
      only on an empty channel or on an open registration.
    */
    method ResumeProcessor() returns (ran: bool)
      requires Valid() && !InConnect(processor)
      modifies this
      ensures Valid()
      ensures var step := Step(old(Snapshot()), NextProcessorEvent(old(processor)));
              if ran then step == Some(Snapshot()) else step == None && Snapshot() == old(Snapshot())
      ensures !ran <==> old((processor.Receiving? && connRequestChan.None?)
                            || (processor.Waiting? && connRequestReady > 0))
    {
      if processor.Receiving? || processor.Waiting? {
        ran := Receive();
      } else {
        ran := true;
        if processor.Checking? || processor.Cancelling? {
          ProcessConnectRequest();
        } else {
          Report();
        }
      }
    }

    /** The receive, then the wait for open registrations: two actions. */
    method Receive() returns (ran: bool)
      requires Valid() && (processor.Receiving? || processor.Waiting?)
      modifies this
      ensures Valid()
      ensures var step := Step(old(Snapshot()), NextProcessorEvent(old(processor)));
              if ran then step == Some(Snapshot()) else step == None && Snapshot() == old(Snapshot())
      ensures ran <==> if old(processor).Receiving? then old(connRequestChan).Some? else old(connRequestReady) == 0
    {
      if processor.Receiving? {
        ran := connRequestChan.Some?;
        if ran {
          TakeFromChannel();
        }
      } else {
        ran := connRequestReady == 0;
        if ran {
          PassReadyWait();
        }
      }
    }

    method TakeFromChannel()
      requires Valid() && processor.Receiving? && connRequestChan.Some?
      modifies this
      ensures Valid() && Step(old(Snapshot()), Take) == Some(Snapshot())
    {
      ReachableStep(Snapshot(), Take);
      history := history.(taken := history.taken + [connRequestChan.value.ticket]);
      processor, connRequestChan := Waiting(connRequestChan.value), None;
    }

    method PassReadyWait()
      requires Valid() && processor.Waiting? && connRequestReady == 0
      modifies this
      ensures Valid() && Step(old(Snapshot()), WaitPass) == Some(Snapshot())
    {
      ReachableStep(Snapshot(), WaitPass);
      processor := Checking(processor.item);
    }

    /** The check of the flag, and the disconnection of a cancelled request. */
    method ProcessConnectRequest()
      requires Valid() && (processor.Checking? || processor.Cancelling?)
      modifies this
      ensures Valid() && Step(old(Snapshot()), NextProcessorEvent(old(processor))) == Some(Snapshot())
    {
      if processor.Checking? {
        CheckFlag();
      } else {
        CancelRequest();
      }
    }

    method CheckFlag()
      requires Valid() && processor.Checking?
      modifies this
      ensures Valid() && Step(old(Snapshot()), Check) == Some(Snapshot())
    {
      ReachableStep(Snapshot(), Check);
      var item := processor.item;
      history := history.(verdicts := history.verdicts + [Verdict(item.ticket, !disconnectRequested)]);
      processor := if disconnectRequested then Cancelling(item) else Entering(item);
    }

    method CancelRequest()
      requires Valid() && processor.Cancelling?
      modifies this
      ensures Valid() && Step(old(Snapshot()), Cancel) == Some(Snapshot())
    {
      ReachableStep(Snapshot(), Cancel);
      requiredVpnState, processor := Disconnect, Finishing(processor.item);
    }

    /** The deferred function that tells the clients about the disconnection. */
    method Report()
      requires Valid() && InReport(processor)
      modifies this
      ensures Valid() && Step(old(Snapshot()), NextProcessorEvent(old(processor))) == Some(Snapshot())
    {
      match processor {
        case Finishing(_) => LookForNewer();
        case ReadingFlag(_) => ReadDisconnectFlag();
        case Closing(_) => StoreState();
        case Reporting(_, _) => Broadcast();
      }
    }

    method LookForNewer()
      requires Valid() && processor.Finishing?
      modifies this
      ensures Valid() && Step(old(Snapshot()), LookIntoChannel) == Some(Snapshot())
    {
      ReachableStep(Snapshot(), LookIntoChannel);
      processor := if connRequestChan.None? then Closing(processor.item) else ReadingFlag(processor.item);
    }

    method ReadDisconnectFlag()
      requires Valid() && processor.ReadingFlag?
      modifies this
      ensures Valid() && Step(old(Snapshot()), ReadFlag) == Some(Snapshot())
    {
      ReachableStep(Snapshot(), ReadFlag);
      processor := if disconnectRequested then Closing(processor.item) else Receiving;
    }

    method StoreState()
      requires Valid() && processor.Closing?
      modifies this
      ensures Valid() && Step(old(Snapshot()), StoreDisconnected) == Some(Snapshot())
    {
      ReachableStep(Snapshot(), StoreDisconnected);
      processor := Reporting(processor.item, lastVpnState.Exiting? && lastVpnState.isAuthError);
      lastVpnState := Disconnected;
    }

    method Broadcast()
      requires Valid() && processor.Reporting?
      modifies this
      ensures Valid() && Step(old(Snapshot()), SendReport) == Some(Snapshot())
    {
      ReachableStep(Snapshot(), SendReport);
      var reason := ReportReason(processor.authError, disconnectRequested);
      history := history.(broadcasts := history.broadcasts
                                        + [ConnectionRequests.Broadcast(processor.item.ticket, reason)]);
      processor := Receiving;
    }

    static function NextProcessorEvent(pc: ProcPc): Event
      requires !InConnect(pc)
    {
      match pc
      case Receiving => Take
      case Waiting(_) => WaitPass
      case Checking(_) => Check
      case Cancelling(_) => Cancel
      case Finishing(_) => LookIntoChannel
      case ReadingFlag(_) => ReadFlag
      case Closing(_) => StoreDisconnected
      case Reporting(_, _) => SendReport
    }

    /** The service reports a VPN state while its state forwarder is alive; a stopped object does not connect. */
    method OnVpnStateChanged(vpnState: VpnState)
      requires Valid() && processor.Attempting? && (vpnState.Connected? ==> vpn.Alive?)
      modifies this
      ensures Valid() && Step(old(Snapshot()), VpnStateChange(vpnState)) == Some(Snapshot())
    {
      ReachableStep(Snapshot(), VpnStateChange(vpnState));
      lastVpnState := vpnState;
      if vpnState.Connected? && requiredVpnState.Connect? {
        requiredVpnState := KeepConnection;
      }
    }

    /** Service.Connect returns early, or its retry loop begins. */
    method EnterLoop(returnsEarly: bool)
      requires Valid() && processor.Entering?
      modifies this
      ensures Valid() && Step(old(Snapshot()), if returnsEarly then EarlyReturn else KeepStart) == Some(Snapshot())
    {
      ReachableStep(Snapshot(), if returnsEarly then EarlyReturn else KeepStart);
      if returnsEarly {
        processor := Finishing(processor.item);
      } else {
        requiredVpnState, processor := Connect, Starting(processor.item);
      }
    }

    method AnnounceConnection()
      requires Valid() && processor.Starting?
      modifies this
      ensures Valid() && Step(old(Snapshot()), AnnounceConnecting) == Some(Snapshot())
    {
      ReachableStep(Snapshot(), AnnounceConnecting);
      lastVpnState, processor := Connecting, Creating(processor.item);
    }

    method CreateVpnObject(works: bool)
      requires Valid() && processor.Creating?
      modifies this
      ensures Valid() && Step(old(Snapshot()), if works then CreateObject else CreateFail) == Some(Snapshot())
    {
      ReachableStep(Snapshot(), if works then CreateObject else CreateFail);
      processor := if works then Preparing(processor.item) else Finishing(processor.item);
    }

    /** connect() makes the object known to the service. */
    method RegisterVpnObject()
      requires Valid() && processor.Preparing?
      modifies this
      ensures Valid() && Step(old(Snapshot()), RegisterObject) == Some(Snapshot())
    {
      ReachableStep(Snapshot(), RegisterObject);
      vpn, attempt, processor := Alive, attempt + 1, Attempting(processor.item);
    }

    /** connect() returns: the state forwarder is joined and the object forgotten. */
    method ForgetVpnObject()
      requires Valid() && processor.Attempting?
      modifies this
      ensures Valid() && Step(old(Snapshot()), Join) == Some(Snapshot())
    {
      ReachableStep(Snapshot(), Join);
      vpn, processor := Absent, Deciding(processor.item);
    }

    method DecideAboutRetry()
      requires Valid() && processor.Deciding?
      modifies this
      ensures Valid() && Step(old(Snapshot()), Decide) == Some(Snapshot())
    {
      ReachableStep(Snapshot(), Decide);
      processor := if requiredVpnState.KeepConnection? then Announcing(processor.item) else Finishing(processor.item);
    }

    method AnnounceReconnection()
      requires Valid() && processor.Announcing?
      modifies this
      ensures Valid() && Step(old(Snapshot()), AnnounceRetry) == Some(Snapshot())
    {
      ReachableStep(Snapshot(), AnnounceRetry);
      lastVpnState, processor := Reconnecting, Pausing(processor.item);
    }

    method FinishPause()
      requires Valid() && processor.Pausing?
      modifies this
      ensures Valid() && Step(old(Snapshot()), EndPause) == Some(Snapshot())
    {
      ReachableStep(Snapshot(), EndPause);
      processor := if requiredVpnState.KeepConnection? then Creating(processor.item) else Finishing(processor.item);
    }
  }

  /** An open registration is one the WaitGroup counts. */
  lemma OpenRegistrationIsCounted(s: State, t: Tid)
    requires Reachable(s) && t in s.threads && IsOpen(s.threads[t])
    ensures s.ready > 0
  {
    ReachableInv(s);
    assert t in OpenThreads(s.threads);
  }

  lemma ClosingIsPossible(s: State, t: Tid)
    requires Reachable(s) && t in s.threads && s.threads[t].Leaving?
    ensures s.ready > 0 && Step(s, RegClose(t)) == Some(s.(ready := s.ready - 1, threads := s.threads - {t}))
    ensures Reachable(s.(ready := s.ready - 1, threads := s.threads - {t}))
  {
    OpenRegistrationIsCounted(s, t);
    Do(s, RegClose(t), s.(ready := s.ready - 1, threads := s.threads - {t}));
  }
}
