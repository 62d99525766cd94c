/** The pinger object: sending echo requests, processing replies, and the loop between them. */
module Pinger {
  import opened Int64
  import T = PingTracker
  import S = PingStatistics

  class Pinger {
    var count: int
    var packetsSent: nat
    var packetsRecv: nat
    var packetsRecvDuplicates: nat
    var minRtt: int
    var maxRtt: int
    var avgRtt: int
    var stddevm2: int
    var rtts: seq<int>
    var trackerUuids: seq<T.Uuid>
    var sequence: nat
    var awaitingSequences: map<T.Uuid, set<nat>>
    var stopped: bool
    ghost var received: seq<T.Id>

    ghost function Snapshot(): T.State
      reads this
    {
      T.State(count, packetsSent, packetsRecv, packetsRecvDuplicates, sequence, trackerUuids, awaitingSequences,
              received, stopped)
    }

    function Statistics(): S.Statistics
      reads this
    {
      S.Statistics(packetsRecv, rtts, minRtt, maxRtt, avgRtt, stddevm2)
    }

    ghost predicate Valid()
      reads this
    {
      T.WellFormed(Snapshot()) && Statistics() == S.WrappedOf(rtts)
    }

    constructor (count: int, firstUuid: T.Uuid)
      ensures Valid() && Snapshot() == T.New(count, firstUuid)
    {
      this.count := count;
      packetsSent, packetsRecv, packetsRecvDuplicates := 0, 0, 0;
      minRtt, maxRtt, avgRtt, stddevm2, rtts := 0, 0, 0, 0, [];
      trackerUuids, sequence, awaitingSequences := [firstUuid], 0, map[firstUuid := {}];
      stopped, received := false, [];
    }

    method SendICMP(written: bool, newUuid: T.Uuid)
      requires Valid()
      modifies this
      ensures Valid() && Snapshot() == T.Send(old(Snapshot()), written, newUuid) && Statistics() == old(Statistics())
    {
      var currentUuid := trackerUuids[|trackerUuids| - 1];
      if !written {
        return;
      }
      awaitingSequences := awaitingSequences[currentUuid := awaitingSequences[currentUuid] + {sequence}];
      packetsSent := packetsSent + 1;
      sequence := sequence + 1;
      if sequence > 65535 {
        trackerUuids := trackerUuids + [newUuid];
        awaitingSequences := awaitingSequences[newUuid := {}];
        sequence := 0;
      }
      assert Statistics() == old(Statistics());
    }

    /** All results are kept in 64 bits. */
    method UpdateStatistics(rtt: int)
      modifies this
      ensures Statistics() == S.WrappedUpdate(old(Statistics()), rtt)
      ensures Snapshot() == old(Snapshot()).(recv := old(packetsRecv) + 1)
    {
      packetsRecv := packetsRecv + 1;
      rtts := rtts + [rtt];
      if packetsRecv == 1 || rtt < minRtt {
        minRtt := rtt;
      }
      if rtt > maxRtt {
        maxRtt := rtt;
      }
      UpdateMean(rtt);
    }

    method UpdateMean(rtt: int)
      requires packetsRecv > 0
      modifies this`avgRtt, this`stddevm2
      ensures avgRtt == S.WrappedMean(old(avgRtt), rtt, packetsRecv)
      ensures stddevm2 == S.WrappedDeviation(old(stddevm2), old(avgRtt), avgRtt, rtt)
    {
      var delta := Wrap(rtt - avgRtt);
      avgRtt := Wrap(avgRtt + Quotient(delta, packetsRecv));
      var delta2 := Wrap(rtt - avgRtt);
      stddevm2 := Wrap(stddevm2 + Wrap(delta * delta2));
    }

    method ProcessPacket(r: T.Reply, rtt: int)
      requires Valid()
      modifies this
      ensures Valid() && Snapshot() == T.Process(old(Snapshot()), r)
      ensures rtts == if packetsRecv == old(packetsRecv) then old(rtts) else old(rtts) + [rtt]
    {
      T.ProcessKeepsWellFormed(Snapshot(), r);
      if !r.parses || !r.isEchoReply || !r.matchesId || !r.longEnough || r.uuid !in trackerUuids {
        return;
      }
      if r.number !in awaitingSequences[r.uuid] {
        CountDuplicate();
        return;
      }
      CountReply(r.uuid, r.number, rtt);
    }

    method CountReply(uuid: T.Uuid, number: nat, rtt: int)
      requires uuid in awaitingSequences && Statistics() == S.WrappedOf(rtts)
      modifies this
      ensures Statistics() == S.WrappedOf(rtts) && rtts == old(rtts) + [rtt]
      ensures Snapshot() == old(Snapshot()).(
                              awaiting := old(awaitingSequences)[uuid := old(awaitingSequences[uuid]) - {number}],
                              received := old(received) + [T.Id(uuid, number)], recv := old(packetsRecv) + 1)
    {
      Receive(uuid, number);
      Record(rtt);
    }

    method CountDuplicate()
      modifies this`packetsRecvDuplicates
      ensures Statistics() == old(Statistics())
      ensures Snapshot() == old(Snapshot()).(duplicates := old(packetsRecvDuplicates) + 1)
    {
      packetsRecvDuplicates := packetsRecvDuplicates + 1;
    }

    /** The request is not waited for any more. */
    method Receive(uuid: T.Uuid, number: nat)
      requires uuid in awaitingSequences
      modifies this
      ensures Statistics() == old(Statistics())
      ensures Snapshot() == old(Snapshot()).(
                              awaiting := old(awaitingSequences)[uuid := old(awaitingSequences[uuid]) - {number}],
                              received := old(received) + [T.Id(uuid, number)])
    {
      awaitingSequences := awaitingSequences[uuid := awaitingSequences[uuid] - {number}];
      received := received + [T.Id(uuid, number)];
      assert Statistics() == old(Statistics());
    }

    method Record(rtt: int)
      requires Statistics() == S.WrappedOf(rtts)
      modifies this
      ensures Statistics() == S.WrappedOf(rtts) && rtts == old(rtts) + [rtt]
      ensures Snapshot() == old(Snapshot()).(recv := old(packetsRecv) + 1)
    {
      ghost var before := rtts;
      UpdateStatistics(rtt);
      S.OneMoreWrapped(before, rtt);
    }

    method StopWhenAllReceived()
      requires Valid()
      modifies this`stopped
      ensures Valid() && Snapshot() == T.StopWhenAllReceived(old(Snapshot()))
    {
      if count > 0 && packetsRecv >= count {
        stopped := true;
      }
      assert Statistics() == old(Statistics());
    }

    /** One round of the loop. */
    method HandleEvent(e: T.Event, rtt: int)
      requires Valid() && !stopped
      modifies this
      ensures Valid() && Snapshot() == T.Step(old(Snapshot()), e)
    {
      match e {
        case Quit =>
          stopped := true;
          assert Statistics() == old(Statistics());
        case Packet(r) =>
          ProcessPacket(r, rtt);
          StopWhenAllReceived();
        case Tick(written, newUuid) =>
          if count > 0 && packetsSent >= count {
            return;
          }
          SendICMP(written, newUuid);
          StopWhenAllReceived();
      }
    }

    /** The events come one at a time, each packet with its round-trip time. */
    method RunLoop(firstWritten: bool, events: seq<(T.Event, int)>)
      requires Valid() && exists first :: Snapshot() == T.New(count, first)
      modifies this
      ensures Valid()
      ensures Snapshot() == T.Run(T.Start(old(count), old(trackerUuids[0]), firstWritten), Events(events))
    {
      SendICMP(firstWritten, 0);
      if !firstWritten {
        stopped := true;
      }
      ghost var start := T.Start(old(count), old(trackerUuids[0]), firstWritten);
      assert Snapshot() == start;
      assert events[..0] == [];
      for i := 0 to |events|
        invariant Valid() && T.WellFormed(start) && Snapshot() == T.Run(start, Events(events[..i]))
      {
        assert events[..i + 1] == events[..i] + [events[i]];
        EventsAppend(events[..i], events[i]);
        T.RunAppend(start, Events(events[..i]), events[i].0);
        if !stopped {
          HandleEvent(events[i].0, events[i].1);
        }
      }
      assert events[..|events|] == events;
    }
  }

  function Events(events: seq<(T.Event, int)>): seq<T.Event> {
    seq(|events|, i requires 0 <= i < |events| => events[i].0)
  }

  lemma EventsAppend(events: seq<(T.Event, int)>, e: (T.Event, int))
    ensures Events(events + [e]) == Events(events) + [e.0]
  {
  }
}
