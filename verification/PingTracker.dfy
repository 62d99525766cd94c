/**
  The sequence numbers of the pinger: every echo request carries a tracker UUID and a 16-bit sequence
  number, and the pair is in flight until the first reply with it arrives.
*/
module PingTracker {
  type Uuid = nat

  datatype Id = Id(uuid: Uuid, number: nat)

  /** `received` is the history of the replies that were counted; the program keeps only their number. */
  datatype State = State(count: int, sent: nat, recv: nat, duplicates: nat, sequence: nat, trackerUuids: seq<Uuid>,
                         awaiting: map<Uuid, set<nat>>, received: seq<Id>, stopped: bool)

  /** A message from the socket, as far as it is looked at. */
  datatype Reply = Reply(parses: bool, isEchoReply: bool, matchesId: bool, longEnough: bool, uuid: Uuid, number: nat)

  datatype Event =
    | Tick(written: bool, newUuid: Uuid)
    | Packet(reply: Reply)
    | Quit // stopped from outside, or the timeout

  const LAST_SEQUENCE := 65535

  ghost predicate WellFormed(s: State) {
    s.trackerUuids != [] && forall u :: u in s.trackerUuids ==> u in s.awaiting
  }

  function Current(s: State): Uuid
    requires s.trackerUuids != []
  {
    s.trackerUuids[|s.trackerUuids| - 1]
  }

  function Send(s: State, written: bool, newUuid: Uuid): State
    requires WellFormed(s)
  {
    if !written then s else
      var u := Current(s);
      var marked := s.(awaiting := s.awaiting[u := s.awaiting[u] + {s.sequence}], sent := s.sent + 1);
      if s.sequence + 1 > LAST_SEQUENCE then
        marked.(trackerUuids := s.trackerUuids + [newUuid], awaiting := marked.awaiting[newUuid := {}], sequence := 0)
      else marked.(sequence := s.sequence + 1)
  }

  /** The reply is one to a request with a UUID of ours. */
  predicate Accepted(s: State, r: Reply) {
    r.parses && r.isEchoReply && r.matchesId && r.longEnough && r.uuid in s.trackerUuids
  }

  function Process(s: State, r: Reply): State
    requires WellFormed(s)
  {
    if !Accepted(s, r) then s
    else if r.number !in s.awaiting[r.uuid] then s.(duplicates := s.duplicates + 1)
    else s.(awaiting := s.awaiting[r.uuid := s.awaiting[r.uuid] - {r.number}], recv := s.recv + 1,
            received := s.received + [Id(r.uuid, r.number)])
  }

  function StopWhenAllReceived(s: State): State {
    if s.count > 0 && s.recv >= s.count then s.(stopped := true) else s
  }

  function Step(s: State, e: Event): State
    requires WellFormed(s)
  {
    if s.stopped then s else
      match e
      case Quit => s.(stopped := true)
      case Packet(r) => StopWhenAllReceived(Process(s, r))
      case Tick(written, newUuid) =>
        if s.count > 0 && s.sent >= s.count then s else StopWhenAllReceived(Send(s, written, newUuid))
  }

  function New(count: int, first: Uuid): State {
    State(count, 0, 0, 0, 0, [first], map[first := {}], [], false)
  }

  /** The loop begins with a request; if that cannot be sent it is not entered. */
  function Start(count: int, first: Uuid, written: bool): (s: State)
    ensures WellFormed(s)
  {
    var s := Send(New(count, first), written, 0);
    s.(stopped := !written)
  }

  /** The loop begins with one request in flight; if that cannot be sent nothing is, and it does not go on. */
  lemma StartMeans(count: int, first: Uuid, written: bool)
    ensures var s := Start(count, first, written);
            && s.count == count && s.trackerUuids == [first] && s.received == [] && s.recv == s.duplicates == 0
            && (written ==> s.awaiting == map[first := {0}] && s.sent == s.sequence == 1 && !s.stopped)
            && (!written ==> s.awaiting == map[first := {}] && s.sent == s.sequence == 0 && s.stopped)
  {
    var s := Start(count, first, written);
    assert written ==> s.awaiting[first] == {0};
  }

  /** Stopping is final, and the loop stops when it is told to. */
  lemma StoppedStays(s: State, e: Event)
    requires WellFormed(s)
    ensures s.stopped ==> Step(s, e) == s
    ensures Step(s, Quit) == s.(stopped := true)
  {
  }

  // ------------------------------------------------------------------
  // Conservation
  // ------------------------------------------------------------------

  ghost predicate IsInFlight(s: State, id: Id) {
    id.uuid in s.awaiting && id.number in s.awaiting[id.uuid]
  }

  ghost function InFlight(awaiting: map<Uuid, set<nat>>): set<Id> {
    set u, q | u in awaiting && q in awaiting[u] :: Id(u, q)
  }

  predicate WasSent(s: State, id: Id)
    requires s.trackerUuids != []
  {
    id.uuid in s.trackerUuids && id.number <= LAST_SEQUENCE && (id.uuid == Current(s) ==> id.number < s.sequence)
  }

  ghost predicate Distinct<T>(s: seq<T>) {
    forall i, j :: 0 <= i < j < |s| ==> s[i] != s[j]
  }

  /** The numbering of the requests. */
  ghost predicate Numbered(s: State) {
    && s.trackerUuids != [] && Distinct(s.trackerUuids)
    && (forall u :: u in s.awaiting <==> u in s.trackerUuids)
    && s.sequence <= LAST_SEQUENCE
    && s.sent == 65536 * (|s.trackerUuids| - 1) + s.sequence
    && (s.count > 0 ==> s.sent <= s.count)
  }

  /** What was sent is either in flight or received, and counts as received once. */
  ghost predicate Accounted(s: State)
    requires s.trackerUuids != []
  {
    && (forall id :: WasSent(s, id) <==> IsInFlight(s, id) || id in s.received)
    && (forall id :: id in s.received ==> !IsInFlight(s, id))
    && Distinct(s.received) && |s.received| == s.recv
    && s.sent == s.recv + |InFlight(s.awaiting)|
  }

  ghost predicate Inv(s: State) {
    Numbered(s) && Accounted(s)
  }

  /** A new UUID is one that was not used before. */
  predicate IsFresh(s: State, e: Event) {
    e.Tick? ==> e.newUuid !in s.trackerUuids
  }

  lemma AddInFlight(m: map<Uuid, set<nat>>, u: Uuid, q: nat)
    requires u in m && q !in m[u]
    ensures |InFlight(m[u := m[u] + {q}])| == |InFlight(m)| + 1
  {
    assert InFlight(m[u := m[u] + {q}]) == InFlight(m) + {Id(u, q)};
  }

  lemma RemoveInFlight(m: map<Uuid, set<nat>>, u: Uuid, q: nat)
    requires u in m && q in m[u]
    ensures |InFlight(m[u := m[u] - {q}])| == |InFlight(m)| - 1
  {
    assert InFlight(m[u := m[u] - {q}]) == InFlight(m) - {Id(u, q)};
  }

  lemma NewUuidInFlight(m: map<Uuid, set<nat>>, u: Uuid)
    requires u !in m
    ensures InFlight(m[u := {}]) == InFlight(m)
  {
  }

  lemma SendKeepsNumbered(s: State, written: bool, newUuid: Uuid)
    requires Numbered(s) && newUuid !in s.trackerUuids && (s.count > 0 ==> s.sent < s.count)
    ensures Numbered(Send(s, written, newUuid))
  {
  }

  lemma SendKeepsAccounted(s: State, written: bool, newUuid: Uuid)
    requires Inv(s) && newUuid !in s.trackerUuids
    ensures Accounted(Send(s, written, newUuid))
  {
    if written {
      var u := Current(s);
      var n := Send(s, written, newUuid);
      assert !WasSent(s, Id(u, s.sequence));
      assert !IsInFlight(s, Id(u, s.sequence));
      AddInFlight(s.awaiting, u, s.sequence);
      NewUuidInFlight(s.awaiting[u := s.awaiting[u] + {s.sequence}], newUuid);
      forall id ensures WasSent(n, id) <==> WasSent(s, id) || id == Id(u, s.sequence) {
        SentOneMore(s, newUuid, id);
      }
      forall id ensures IsInFlight(n, id) <==> IsInFlight(s, id) || id == Id(u, s.sequence) {
      }
    }
  }

  lemma SentOneMore(s: State, newUuid: Uuid, id: Id)
    requires Numbered(s) && newUuid !in s.trackerUuids
    ensures WasSent(Send(s, true, newUuid), id) <==> WasSent(s, id) || id == Id(Current(s), s.sequence)
  {
  }

  /** Duplicates and stopping do not matter. */
  lemma SameBookkeeping(s: State, n: State)
    requires Inv(s) && n == s.(duplicates := n.duplicates, stopped := n.stopped)
    ensures Inv(n)
  {
    forall id ensures (WasSent(n, id) <==> WasSent(s, id)) && (IsInFlight(n, id) <==> IsInFlight(s, id)) {
    }
  }

  lemma ReceiveKeepsInv(s: State, r: Reply)
    requires Inv(s) && Accepted(s, r) && r.number in s.awaiting[r.uuid]
    ensures Inv(Process(s, r))
  {
    var id, n := Id(r.uuid, r.number), Process(s, r);
    RemoveInFlight(s.awaiting, r.uuid, r.number);
    assert IsInFlight(s, id);
    forall i ensures IsInFlight(n, i) <==> IsInFlight(s, i) && i != id {
    }
    forall i ensures WasSent(n, i) <==> WasSent(s, i) {
    }
    forall i ensures i in n.received <==> i in s.received || i == id {
    }
  }

  lemma ProcessKeepsInv(s: State, r: Reply)
    requires Inv(s)
    ensures Inv(Process(s, r))
  {
    if Accepted(s, r) && r.number in s.awaiting[r.uuid] {
      ReceiveKeepsInv(s, r);
    } else {
      SameBookkeeping(s, Process(s, r));
    }
  }

  /** Every step with fresh UUIDs keeps the invariant. */
  lemma StepKeepsInv(s: State, e: Event)
    requires Inv(s) && IsFresh(s, e)
    ensures Inv(Step(s, e))
  {
    if !s.stopped {
      match e {
        case Quit =>
          SameBookkeeping(s, Step(s, e));
        case Packet(r) =>
          ProcessKeepsInv(s, r);
          SameBookkeeping(Process(s, r), Step(s, e));
        case Tick(written, newUuid) =>
          if s.count <= 0 || s.sent < s.count {
            SendKeepsNumbered(s, written, newUuid);
            SendKeepsAccounted(s, written, newUuid);
            SameBookkeeping(Send(s, written, newUuid), Step(s, e));
          }
      }
    }
  }

  lemma StartHasInv(count: int, first: Uuid, written: bool)
    ensures Inv(Start(count, first, written))
  {
    var s := New(count, first);
    assert InFlight(s.awaiting) == {};
    if written {
      AddInFlight(s.awaiting, first, 0);
      var n := Send(s, true, 0);
      assert forall id :: WasSent(n, id) <==> id == Id(first, 0);
      assert forall id :: IsInFlight(n, id) <==> id == Id(first, 0);
      SameBookkeeping(n, Start(count, first, written));
    }
  }

  // ------------------------------------------------------------------
  // Runs
  // ------------------------------------------------------------------

  function Run(s: State, events: seq<Event>): (n: State)
    requires WellFormed(s)
    ensures WellFormed(n)
    decreases events
  {
    if events == [] then s else
      StepKeepsWellFormed(s, events[0]);
      Run(Step(s, events[0]), events[1..])
  }

  lemma {:induction false} RunAppend(s: State, events: seq<Event>, e: Event)
    requires WellFormed(s)
    ensures WellFormed(Run(s, events)) && Run(s, events + [e]) == Step(Run(s, events), e)
    decreases events
  {
    StepKeepsWellFormed(s, if events == [] then e else events[0]);
    if events == [] {
      assert Run(Step(s, e), [e][1..]) == Step(s, e);
    } else {
      assert (events + [e])[1..] == events[1..] + [e];
      RunAppend(Step(s, events[0]), events[1..], e);
    }
  }

  lemma ProcessKeepsWellFormed(s: State, r: Reply)
    requires WellFormed(s)
    ensures WellFormed(Process(s, r))
  {
  }

  lemma StepKeepsWellFormed(s: State, e: Event)
    requires WellFormed(s)
    ensures WellFormed(Step(s, e))
  {
  }

  predicate RunIsFresh(s: State, events: seq<Event>)
    requires WellFormed(s)
    decreases events
  {
    events == []
    || (IsFresh(s, events[0]) && (StepKeepsWellFormed(s, events[0]); RunIsFresh(Step(s, events[0]), events[1..])))
  }

  lemma {:induction false} RunKeepsInv(s: State, events: seq<Event>)
    requires Inv(s) && RunIsFresh(s, events)
    ensures Inv(Run(s, events)) && Run(s, events).count == s.count
    decreases events
  {
    if events != [] {
      StepKeepsInv(s, events[0]);
      RunKeepsInv(Step(s, events[0]), events[1..]);
    }
  }

  /**
    In every run with fresh UUIDs: what was sent is received or in flight, the numbers fit the 16-bit field
    of an echo message, a request counts as received at most once, and a count is not exceeded.
  */
  lemma Conservation(count: int, first: Uuid, written: bool, events: seq<Event>)
    requires RunIsFresh(Start(count, first, written), events)
    ensures var s := Run(Start(count, first, written), events);
            && s.sent == s.recv + |InFlight(s.awaiting)|
            && s.sent == 65536 * (|s.trackerUuids| - 1) + s.sequence && s.sequence < 65536
            && Distinct(s.received) && |s.received| == s.recv
            && (forall id :: id in s.received ==> WasSent(s, id) && id.number < 65536)
            && (count > 0 ==> s.recv <= s.sent <= count)
  {
    StartHasInv(count, first, written);
    RunKeepsInv(Start(count, first, written), events);
  }

  /** A message changes something iff it is a complete echo reply with the identifier and a UUID of this pinger. */
  lemma OnlyRepliesCount(s: State, r: Reply)
    requires WellFormed(s)
    ensures Process(s, r) != s
            <==> r.parses && r.isEchoReply && r.matchesId && r.longEnough && r.uuid in s.trackerUuids
  {
  }

  /** An accepted reply counts as received iff its request was sent and not yet received, else as a duplicate. */
  lemma CountedWhenFirst(s: State, r: Reply)
    requires Inv(s) && Accepted(s, r)
    ensures var id := Id(r.uuid, r.number);
            Process(s, r).recv == s.recv + (if WasSent(s, id) && id !in s.received then 1 else 0)
    ensures Process(s, r).recv + Process(s, r).duplicates == s.recv + s.duplicates + 1
  {
  }

  /** The loop ends by itself only when all requests were sent and all were received. */
  lemma EndsWhenAllReceived(s: State, e: Event)
    requires Inv(s) && IsFresh(s, e) && !s.stopped && !e.Quit?
    ensures Step(s, e).stopped ==> s.count > 0 && Step(s, e).recv == Step(s, e).sent == s.count
                                   && InFlight(Step(s, e).awaiting) == {}
  {
    StepKeepsInv(s, e);
  }

  /**
    When the numbers are used up, conservation survives the new UUID exactly if that UUID has nothing in
    flight.  A reused UUID that has loses its requests.
  */
  lemma RolloverConserves(s: State, newUuid: Uuid)
    requires Inv(s) && s.sequence == LAST_SEQUENCE
    ensures var n := Send(s, true, newUuid);
            n.sent == n.recv + |InFlight(n.awaiting)|
            <==> newUuid != Current(s) && (newUuid in s.awaiting ==> s.awaiting[newUuid] == {})
  {
    var u := Current(s);
    var marked := s.awaiting[u := s.awaiting[u] + {s.sequence}];
    assert !WasSent(s, Id(u, s.sequence));
    assert !IsInFlight(s, Id(u, s.sequence));
    AddInFlight(s.awaiting, u, s.sequence);
    ReplacedInFlight(marked, newUuid);
  }

  lemma RemovingLoses(all: set<Id>, lost: set<Id>)
    requires lost <= all
    ensures |all - lost| == |all| <==> lost == {}
  {
    assert all == (all - lost) + lost && (all - lost) !! lost;
    assert |(all - lost) + lost| == |all - lost| + |lost|;
  }

  lemma ReplacedInFlight(m: map<Uuid, set<nat>>, u: Uuid)
    ensures |InFlight(m[u := {}])| == |InFlight(m)| <==> (u in m ==> m[u] == {})
  {
    var lost := set id | id in InFlight(m) && id.uuid == u;
    assert InFlight(m[u := {}]) == InFlight(m) - lost;
    RemovingLoses(InFlight(m), lost);
    if u in m && m[u] != {} {
      var q :| q in m[u];
      assert Id(u, q) in lost;
    }
  }

  // ------------------------------------------------------------------
  // Reused UUIDs
  // ------------------------------------------------------------------

  /** What holds with reused UUIDs too, as long as no request has counted twice. */
  ghost predicate Tracked(s: State) {
    && WellFormed(s) && s.sequence <= LAST_SEQUENCE && Distinct(s.received)
    && (forall id :: id in s.received ==> id.uuid in s.trackerUuids && !IsInFlight(s, id))
    && (forall id :: IsInFlight(s, id) && id.uuid == Current(s) ==> id.number < s.sequence)
    && (!s.stopped && s.count > 0 ==> s.recv < s.count)
  }

  /** The pair of the current UUID and a number that is still to be sent before the count is used up. */
  predicate WillBeSent(s: State, id: Id)
    requires s.trackerUuids != []
  {
    && id.uuid == Current(s) && s.sequence <= id.number <= LAST_SEQUENCE
    && (s.count > 0 ==> s.sent + (id.number - s.sequence) < s.count)
  }

  ghost predicate SendsAgain(s: State)
    requires s.trackerUuids != []
  {
    !s.stopped && exists id :: id in s.received && WillBeSent(s, id)
  }

  ghost predicate CanCountTwice(s: State)
    requires WellFormed(s)
  {
    exists events :: RunIsFresh(s, events) && !Distinct(Run(s, events).received)
  }

  function UpperBound(uuids: seq<Uuid>): (b: nat)
    ensures forall u :: u in uuids ==> u < b
  {
    if uuids == [] then 0
    else
      assert uuids == [uuids[0]] + uuids[1..];
      var b := UpperBound(uuids[1..]);
      if uuids[0] < b then b else uuids[0] + 1
  }

  lemma TickOnce(s: State, newUuid: Uuid)
    requires Tracked(s) && !s.stopped && (s.count > 0 ==> s.sent < s.count)
    ensures var n := Step(s, Tick(true, newUuid));
            n == Send(s, true, newUuid) && !n.stopped && n.received == s.received
  {
  }

  lemma TickKeepsTracked(s: State, newUuid: Uuid)
    requires Tracked(s) && newUuid !in s.trackerUuids && !s.stopped && (s.count > 0 ==> s.sent < s.count)
    requires Id(Current(s), s.sequence) !in s.received
    ensures Tracked(Send(s, true, newUuid))
  {
    var u, n := Current(s), Send(s, true, newUuid);
    forall id | id in n.received ensures id.uuid in n.trackerUuids && !IsInFlight(n, id) {
      assert id in s.received && id != Id(u, s.sequence);
    }
  }

  lemma ProcessKeepsTracked(s: State, r: Reply)
    requires Tracked(s) && !s.stopped
    ensures Tracked(StopWhenAllReceived(Process(s, r)))
    ensures forall id :: id in Process(s, r).received ==> id in s.received || IsInFlight(s, id)
  {
    var n := Process(s, r);
    if Accepted(s, r) && r.number in s.awaiting[r.uuid] {
      var id := Id(r.uuid, r.number);
      assert IsInFlight(s, id);
      forall i ensures IsInFlight(n, i) <==> IsInFlight(s, i) && i != id {
      }
      forall i ensures i in n.received <==> i in s.received || i == id {
      }
      assert Current(n) == Current(s);
    } else {
      forall i ensures IsInFlight(n, i) <==> IsInFlight(s, i) {
      }
    }
  }

  lemma ProcessSendsNothing(s: State, r: Reply)
    requires Tracked(s) && !SendsAgain(s) && !s.stopped
    ensures Tracked(Step(s, Packet(r))) && !SendsAgain(Step(s, Packet(r)))
  {
    ProcessKeepsTracked(s, r);
    var n := Step(s, Packet(r));
    forall id | id in n.received ensures !WillBeSent(n, id) {
      if id !in s.received {
        assert IsInFlight(s, id);
      } else {
        assert !WillBeSent(s, id);
      }
    }
  }

  lemma TickSendsNew(s: State, newUuid: Uuid)
    requires Tracked(s) && !SendsAgain(s) && newUuid !in s.trackerUuids && !s.stopped
    requires s.count > 0 ==> s.sent < s.count
    ensures var n := Step(s, Tick(true, newUuid)); Tracked(n) && !SendsAgain(n)
  {
    assert WillBeSent(s, Id(Current(s), s.sequence));
    TickOnce(s, newUuid);
    TickKeepsTracked(s, newUuid);
    var n := Send(s, true, newUuid);
    forall id | id in n.received ensures !WillBeSent(n, id) {
      assert id in s.received && !WillBeSent(s, id);
    }
  }

  lemma StepSendsNew(s: State, e: Event)
    requires Tracked(s) && !SendsAgain(s) && IsFresh(s, e)
    ensures Tracked(Step(s, e)) && !SendsAgain(Step(s, e))
  {
    if !s.stopped {
      match e {
        case Quit =>
          forall id ensures IsInFlight(Step(s, e), id) <==> IsInFlight(s, id) {
          }
        case Packet(r) => ProcessSendsNothing(s, r);
        case Tick(written, newUuid) =>
          if written && (s.count > 0 ==> s.sent < s.count) {
            TickSendsNew(s, newUuid);
          } else {
            assert Step(s, e) == s;
          }
      }
    }
  }

  lemma {:induction false} RunSendsNew(s: State, events: seq<Event>)
    requires Tracked(s) && !SendsAgain(s) && RunIsFresh(s, events)
    ensures Distinct(Run(s, events).received)
    decreases events
  {
    if events != [] {
      StepSendsNew(s, events[0]);
      RunSendsNew(Step(s, events[0]), events[1..]);
    }
  }

  lemma ReceivedAgain(s: State, id: Id)
    requires Tracked(s) && !s.stopped && id in s.received && WillBeSent(s, id) && id.number == s.sequence
    ensures var unused := UpperBound(s.trackerUuids);
            var n := Step(s, Tick(true, unused));
            WellFormed(n) && !Distinct(Step(n, Packet(Reply(true, true, true, true, id.uuid, id.number))).received)
  {
    var unused := UpperBound(s.trackerUuids);
    TickOnce(s, unused);
    var n := Step(s, Tick(true, unused));
    var received := Process(n, Reply(true, true, true, true, id.uuid, id.number)).received;
    assert id.uuid in s.trackerUuids && id.uuid in n.trackerUuids && id.number in n.awaiting[id.uuid];
    assert received == s.received + [id];
    var i :| 0 <= i < |s.received| && s.received[i] == id;
    assert received[i] == received[|s.received|];
  }

  /** Requests up to the number that was received before, and a reply to that one. */
  lemma {:induction false} SendsUpTo(s: State, id: Id) returns (events: seq<Event>)
    requires Tracked(s) && !s.stopped && id in s.received && WillBeSent(s, id)
    ensures RunIsFresh(s, events) && !Distinct(Run(s, events).received)
    decreases id.number - s.sequence
  {
    var tick := Tick(true, UpperBound(s.trackerUuids));
    var n := Step(s, tick);
    if id.number == s.sequence {
      var reply := Packet(Reply(true, true, true, true, id.uuid, id.number));
      ReceivedAgain(s, id);
      events := [tick, reply];
      assert events[1..] == [reply] && [reply][1..] == [];
      assert Run(n, [reply]) == Run(Step(n, reply), []);
    } else if Id(Current(s), s.sequence) in s.received {
      events := SendsUpTo(s, Id(Current(s), s.sequence));
    } else {
      TickOnce(s, tick.newUuid);
      TickKeepsTracked(s, tick.newUuid);
      var rest := SendsUpTo(n, id);
      events := [tick] + rest;
      assert events[1..] == rest;
    }
  }

  /** With fresh UUIDs from now on, a request can still come to count twice iff a received one is sent again. */
  lemma CountsTwiceIffSentAgain(s: State)
    requires Tracked(s)
    ensures CanCountTwice(s) <==> SendsAgain(s)
  {
    if SendsAgain(s) {
      var id :| id in s.received && WillBeSent(s, id);
      var events := SendsUpTo(s, id);
    } else if CanCountTwice(s) {
      var events :| RunIsFresh(s, events) && !Distinct(Run(s, events).received);
      RunSendsNew(s, events);
    }
  }

  lemma {:induction false} RunGoesOnBelowCount(s: State, events: seq<Event>)
    requires WellFormed(s) && (!s.stopped && s.count > 0 ==> s.recv < s.count)
    ensures var n := Run(s, events); !n.stopped && n.count > 0 ==> n.recv < n.count
    decreases events
  {
    if events != [] {
      StepKeepsWellFormed(s, events[0]);
      RunGoesOnBelowCount(Step(s, events[0]), events[1..]);
    }
  }

  /** A rollover, with any UUID, leaves the bookkeeping of the received requests in order. */
  lemma RolloverIsTracked(s: State, newUuid: Uuid)
    requires Inv(s) && s.sequence == LAST_SEQUENCE && !s.stopped
    requires s.count > 0 ==> s.sent < s.count && s.recv < s.count
    ensures var n := Step(s, Tick(true, newUuid));
            Tracked(n) && Current(n) == newUuid && n == Send(s, true, newUuid)
  {
    var n := Send(s, true, newUuid);
    forall id | id in s.received ensures id.uuid in n.trackerUuids && !IsInFlight(n, id) {
      assert WasSent(s, id);
    }
  }

  /**
    At a rollover in a run with fresh UUIDs so far: with the new UUID a request can come to count twice if and only
    if the UUID was used before and one of its numbers was received that is sent again before the count is used up.
  */
  lemma ReusedUuidCountsTwice(count: int, first: Uuid, written: bool, events: seq<Event>, newUuid: Uuid)
    requires RunIsFresh(Start(count, first, written), events)
    requires var s := Run(Start(count, first, written), events);
             s.sequence == LAST_SEQUENCE && !s.stopped && (s.count > 0 ==> s.sent < s.count)
    ensures var s := Run(Start(count, first, written), events);
            var n := Step(s, Tick(true, newUuid));
            WellFormed(n)
            && (CanCountTwice(n)
                <==> exists q :: Id(newUuid, q) in s.received && (s.count > 0 ==> s.sent + 1 + q < s.count))
  {
    var s := Run(Start(count, first, written), events);
    StartHasInv(count, first, written);
    RunKeepsInv(Start(count, first, written), events);
    RunGoesOnBelowCount(Start(count, first, written), events);
    RolloverIsTracked(s, newUuid);
    var n := Step(s, Tick(true, newUuid));
    CountsTwiceIffSentAgain(n);
    forall id | id in s.received ensures id.number <= LAST_SEQUENCE {
      assert WasSent(s, id);
    }
    if q :| Id(newUuid, q) in s.received && (s.count > 0 ==> s.sent + 1 + q < s.count) {
      assert WillBeSent(n, Id(newUuid, q));
    }
    if SendsAgain(n) {
      var id :| id in n.received && WillBeSent(n, id);
      assert id == Id(newUuid, id.number);
    }
  }
}
