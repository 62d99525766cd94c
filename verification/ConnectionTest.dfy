/** The shared port-test object: the sections of a call between which other calls can run. */
module ConnectionTest {
  import opened Wrappers
  import opened PortTest

  class ConnectionTest {
    var locker: Option<nat> // the call that holds the lock
    var result: Option<nat> // the announced test
    var tests: seq<Test> // the test objects, which waiting calls refer to
    var callers: map<nat, Caller>

    function Snapshot(): State
      reads this
    {
      State(callers, tests, result, locker)
    }

    constructor ()
      ensures Snapshot() == START
    {
      locker, result, tests, callers := None, None, [], map[];
    }

    method MoveTo(c: nat, to: Position)
      requires c in callers
      modifies this`callers
      ensures Snapshot() == Move(old(Snapshot()), c, to)
    {
      callers := callers[c := callers[c].(at := to)];
    }

    /** Entering, and looking at the announced test under the lock of the result. */
    method Enter(c: nat, portsToTest: seq<Port>)
      requires c !in callers
      modifies this`callers
      ensures Snapshot() == Step(Step(old(Snapshot()), Call(c, portsToTest)), ReadRunning(c))
    {
      callers := callers[c := Caller(portsToTest, Entered)];
      var runningTest := result;
      MoveTo(c, Waiting(runningTest));
    }

    /** Getting the lock; false while another call holds it. */
    method Lock(c: nat) returns (ok: bool)
      requires c in callers && callers[c].at.Waiting?
      modifies this`locker, this`callers
      ensures Snapshot() == Step(old(Snapshot()), Acquire(c)) && ok == old(locker).None?
    {
      ok := locker.None?;
      if ok {
        locker := Some(c);
        MoveTo(c, Locked(callers[c].at.running));
      }
    }

    /** With the lock: the result of an equal test is returned, else a new test is announced. */
    method TakeResultOrAnnounce(c: nat) returns (answer: Option<Answer>)
      requires Inv(Snapshot()) && c in callers && callers[c].at.Locked?
      modifies this
      ensures Snapshot() == Step(old(Snapshot()), Decide(c)) && Inv(Snapshot())
      ensures answer.Some? <==> callers[c].at.Returned?
      ensures answer.Some? ==> callers[c].at == Returned(answer.value) && ReusedFrom(Snapshot(), c)
    {
      DecideKeepsInv(Snapshot(), c);
      assert CallerSound(Snapshot(), c);
      var runningTest, ports := callers[c].at.running, callers[c].ports;
      if runningTest.Some? {
        var equal := ArePortsEqual(ports, tests[runningTest.value].tested);
        if equal {
          answer := Some(Reused(runningTest.value, tests[runningTest.value].result));
          ReusedIsSound(Snapshot(), c);
          MoveTo(c, Returned(answer.value));
          locker := None;
          return;
        }
      }
      result := Some(|tests|);
      MoveTo(c, Testing(|tests|));
      tests := tests + [Test(ports, None, false)];
      answer := None;
    }

    /** The test has ended: its result is saved for the waiting calls, then the announcement is taken back. */
    method SaveResult(c: nat, outcome: Outcome)
      requires Inv(Snapshot()) && c in callers && callers[c].at.Testing?
      modifies this`tests, this`callers
      ensures Snapshot() == Step(old(Snapshot()), Finish(c, outcome)) && Inv(Snapshot())
    {
      FinishKeepsInv(Snapshot(), c, outcome);
      assert CallerSound(Snapshot(), c);
      tests := tests[result.value := tests[result.value].(result := Some(outcome))];
      MoveTo(c, Saved(outcome));
    }

    method Unlock(c: nat) returns (answer: Answer)
      requires Inv(Snapshot()) && c in callers && callers[c].at.Saved?
      modifies this
      ensures Snapshot() == Step(old(Snapshot()), Leave(c)) && Inv(Snapshot())
      ensures answer == Own(old(callers[c].at.outcome)) && result.None? && locker.None?
    {
      LeaveKeepsInv(Snapshot(), c);
      answer := Own(callers[c].at.outcome);
      result := None;
      MoveTo(c, Returned(answer));
      locker := None;
    }

    /** A panic in the test releases the lock and nothing else. */
    method UnlockInPanic(c: nat)
      requires Inv(Snapshot()) && c in callers && callers[c].at.Testing?
      modifies this
      ensures Snapshot() == Step(old(Snapshot()), Panic(c)) && Inv(Snapshot())
      ensures result == old(result) && locker.None?
    {
      PanicKeepsInv(Snapshot(), c);
      assert CallerSound(Snapshot(), c);
      var t := callers[c].at.test;
      tests := tests[t := tests[t].(panicked := true)];
      MoveTo(c, Panicked);
      locker := None;
    }
  }
}
