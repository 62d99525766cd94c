/**
  The shared test of accessible ports: only one test runs at a time, and callers that find a running test
  for their ports wait for it and take its result.  All interleavings of the callers are considered.
*/
module PortTest {
  import opened Wrappers

  datatype Port = Port(kind: string, number: int, rangeMin: int, rangeMax: int)

  datatype Outcome = Outcome(accessible: seq<Port>, failed: bool)

  /** The object shared with waiting callers.  Its result is filled in when the test ends without a panic. */
  datatype Test = Test(tested: seq<Port>, result: Option<Outcome>, panicked: bool)

  datatype Answer = Own(outcome: Outcome) | Reused(test: nat, result: Option<Outcome>)

  /** Where a call is: numbers are those of tests, Locked and later hold the lock. */
  datatype Position =
    | Entered
    | Waiting(running: Option<nat>)
    | Locked(running: Option<nat>)
    | Testing(test: nat)
    | Saved(outcome: Outcome)
    | Returned(answer: Answer)
    | Panicked
  {
    predicate HoldsLock() {
      Locked? || Testing? || Saved?
    }
  }

  datatype Caller = Caller(ports: seq<Port>, at: Position)

  datatype State = State(callers: map<nat, Caller>, tests: seq<Test>, current: Option<nat>, locker: Option<nat>)

  datatype Event =
    | Call(caller: nat, ports: seq<Port>)
    | ReadRunning(caller: nat)
    | Acquire(caller: nat)
    | Decide(caller: nat)
    | Finish(caller: nat, outcome: Outcome)
    | Leave(caller: nat)
    | Panic(caller: nat)

  // ------------------------------------------------------------------
  // Comparing lists of ports
  // ------------------------------------------------------------------

  predicate IsPortsEquals(a: seq<Port>, b: seq<Port>) {
    |a| == |b| && forall p :: p in b ==> p in a
  }

  function Elements(s: seq<Port>): set<Port> {
    set p | p in s
  }

  ghost predicate Distinct(s: seq<Port>) {
    forall i, j :: 0 <= i < j < |s| ==> s[i] != s[j]
  }

  method ArePortsEqual(a: seq<Port>, b: seq<Port>) returns (equal: bool)
    ensures equal <==> IsPortsEquals(a, b)
  {
    if |a| != |b| {
      return false;
    }
    var hashedA: set<Port> := {};
    for i := 0 to |a|
      invariant hashedA == Elements(a[..i])
    {
      assert a[..i + 1] == a[..i] + [a[i]];
      hashedA := hashedA + {a[i]};
    }
    assert a[..|a|] == a;
    for i := 0 to |b|
      invariant forall p :: p in b[..i] ==> p in a
    {
      assert b[..i + 1] == b[..i] + [b[i]];
      if b[i] !in hashedA {
        assert b[i] !in a;
        return false;
      }
    }
    assert b[..|b|] == b;
    return true;
  }

  lemma {:induction false} ElementsAtMostLength(s: seq<Port>)
    ensures |Elements(s)| <= |s|
    ensures |Elements(s)| == |s| <==> Distinct(s)
  {
    if s == [] {
      assert Elements(s) == {};
    } else {
      var init, last := s[..|s| - 1], s[|s| - 1];
      ElementsAtMostLength(init);
      assert s == init + [last];
      assert Elements(s) == Elements(init) + {last};
      if last in init {
        assert Elements(s) == Elements(init);
        var i :| 0 <= i < |init| && init[i] == last;
        assert s[i] == s[|s| - 1];
      }
    }
  }

  lemma {:induction false} SubsetCardinality(a: set<Port>, b: set<Port>)
    requires a <= b
    ensures |a| <= |b|
    ensures |a| == |b| ==> a == b
  {
    if a != {} {
      var x :| x in a;
      SubsetCardinality(a - {x}, b - {x});
      assert a == (a - {x}) + {x} && b == (b - {x}) + {x};
    }
  }

  /** For lists without duplicates the comparison decides whether they are the same set, by the pigeonhole principle. */
  lemma EqualIffSameSet(a: seq<Port>, b: seq<Port>)
    requires Distinct(a) && Distinct(b)
    ensures IsPortsEquals(a, b) <==> Elements(a) == Elements(b)
  {
    ElementsAtMostLength(a);
    ElementsAtMostLength(b);
    if IsPortsEquals(a, b) {
      SubsetCardinality(Elements(b), Elements(a));
    }
    if Elements(a) == Elements(b) {
      assert forall p :: p in b ==> p in Elements(b);
    }
  }

  lemma EqualIsSameSet(a: seq<Port>, b: seq<Port>)
    requires Distinct(b) && IsPortsEquals(a, b)
    ensures Elements(a) == Elements(b)
  {
    ElementsAtMostLength(a);
    ElementsAtMostLength(b);
    SubsetCardinality(Elements(b), Elements(a));
  }

  /** Every element once, then another port as often as is missing to the length. */
  ghost function Padded(b: seq<Port>, other: Port): (a: seq<Port>)
    ensures |a| == |b|
  {
    if b == [] then [] else
      var init, last := b[..|b| - 1], b[|b| - 1];
      Padded(init, other) + [if last in init then other else last]
  }

  lemma {:induction false} PaddedHolds(b: seq<Port>, other: Port)
    ensures IsPortsEquals(Padded(b, other), b)
    ensures !Distinct(b) ==> other in Padded(b, other)
  {
    if b != [] {
      var init, last := b[..|b| - 1], b[|b| - 1];
      assert b == init + [last];
      PaddedHolds(init, other);
      if Distinct(init) && last !in init {
        assert Distinct(b);
      }
    }
  }

  /** The comparison with a tested list is right for all lists if and only if the tested list has no duplicates. */
  lemma RightIffDistinct(b: seq<Port>, other: Port)
    requires other !in b
    ensures (forall a :: IsPortsEquals(a, b) ==> Elements(a) == Elements(b)) <==> Distinct(b)
  {
    if Distinct(b) {
      forall a | IsPortsEquals(a, b) ensures Elements(a) == Elements(b) {
        EqualIsSameSet(a, b);
      }
    } else {
      PaddedHolds(b, other);
      assert other in Elements(Padded(b, other)) && other !in Elements(b);
    }
  }

  // ------------------------------------------------------------------
  // The steps of the callers
  // ------------------------------------------------------------------

  function Move(s: State, c: nat, to: Position): State
    requires c in s.callers
  {
    s.(callers := s.callers[c := s.callers[c].(at := to)])
  }

  /** A caller with the lock takes the result of the test it waited for, or starts its own. */
  function DecideStep(s: State, c: nat): State
    requires c in s.callers && s.callers[c].at.Locked?
  {
    var running, ports := s.callers[c].at.running, s.callers[c].ports;
    if running.Some? && running.value < |s.tests| && IsPortsEquals(ports, s.tests[running.value].tested) then
      Move(s, c, Returned(Reused(running.value, s.tests[running.value].result))).(locker := None)
    else
      Move(s, c, Testing(|s.tests|)).(tests := s.tests + [Test(ports, None, false)], current := Some(|s.tests|))
  }

  /** A step that is not possible changes nothing. */
  function Step(s: State, e: Event): State {
    var c := e.caller;
    if e.Call? then
      if c in s.callers then s else s.(callers := s.callers[c := Caller(e.ports, Entered)])
    else if c !in s.callers then s
    else
      var at := s.callers[c].at;
      match e
      case Call(_, _) => s
      case ReadRunning(_) => if at.Entered? then Move(s, c, Waiting(s.current)) else s
      case Acquire(_) =>
        if at.Waiting? && s.locker.None? then Move(s, c, Locked(at.running)).(locker := Some(c)) else s
      case Decide(_) => if at.Locked? then DecideStep(s, c) else s
      case Finish(_, outcome) =>
        if at.Testing? && s.current.Some? && s.current.value < |s.tests| then
          var t := s.current.value;
          Move(s, c, Saved(outcome)).(tests := s.tests[t := s.tests[t].(result := Some(outcome))])
        else s
      case Leave(_) =>
        if at.Saved? then Move(s, c, Returned(Own(at.outcome))).(current := None, locker := None) else s
      case Panic(_) =>
        if at.Testing? && at.test < |s.tests| then
          Move(s, c, Panicked).(tests := s.tests[at.test := s.tests[at.test].(panicked := true)], locker := None)
        else s
  }

  const START := State(map[], [], None, None)

  function Run(s: State, events: seq<Event>): State
    decreases events
  {
    if events == [] then s else Run(Step(s, events[0]), events[1..])
  }

  // ------------------------------------------------------------------
  // What every interleaving keeps
  // ------------------------------------------------------------------

  /** Exactly the holder of the lock is past it. */
  ghost predicate LockSound(s: State) {
    && (forall c :: c in s.callers && s.callers[c].at.HoldsLock() ==> s.locker == Some(c))
    && (s.locker.Some? ==> s.locker.value in s.callers && s.callers[s.locker.value].at.HoldsLock())
  }

  ghost predicate IsRunning(s: State, t: nat) {
    s.locker.Some? && s.locker.value in s.callers && s.callers[s.locker.value].at == Testing(t)
  }

  ghost predicate TestInProgress(s: State) {
    s.locker.Some? && s.locker.value in s.callers
    && (s.callers[s.locker.value].at.Testing? || s.callers[s.locker.value].at.Saved?)
  }

  /** What a position says about the tests. */
  ghost predicate CallerSound(s: State, c: nat)
    requires c in s.callers
  {
    match s.callers[c].at
    case Waiting(running) => running.Some? ==> running.value < |s.tests|
    case Locked(running) => running.Some? ==> running.value < |s.tests|
    case Testing(t) => s.current == Some(t) && t < |s.tests| && s.tests[t] == Test(s.callers[c].ports, None, false)
    case Returned(Reused(t, r)) =>
      t < |s.tests| && r == s.tests[t].result && !IsRunning(s, t)
      && IsPortsEquals(s.callers[c].ports, s.tests[t].tested)
    case _ => true
  }

  /** A test without a result is running or ended in a panic; a panic leaves no result. */
  ghost predicate TestsSound(s: State) {
    && (forall t :: 0 <= t < |s.tests| && s.tests[t].result.None? ==> s.tests[t].panicked || IsRunning(s, t))
    && (forall t :: 0 <= t < |s.tests| && s.tests[t].panicked ==> s.tests[t].result.None?)
    && (s.current.Some? ==> s.current.value < |s.tests|)
    && (s.current.Some? && !TestInProgress(s) ==> s.tests[s.current.value].panicked)
  }

  ghost predicate Inv(s: State) {
    LockSound(s) && TestsSound(s) && forall c :: c in s.callers ==> CallerSound(s, c)
  }

  lemma CallKeepsInv(s: State, c: nat, ports: seq<Port>)
    requires Inv(s)
    ensures Inv(Step(s, Call(c, ports)))
  {
  }

  lemma ReadKeepsInv(s: State, c: nat)
    requires Inv(s)
    ensures Inv(Step(s, ReadRunning(c)))
  {
  }

  lemma AcquireKeepsInv(s: State, c: nat)
    requires Inv(s)
    ensures Inv(Step(s, Acquire(c)))
  {
  }

  lemma DecideKeepsInv(s: State, c: nat)
    requires Inv(s) && c in s.callers && s.callers[c].at.Locked?
    ensures Inv(DecideStep(s, c))
  {
  }

  lemma FinishKeepsInv(s: State, c: nat, outcome: Outcome)
    requires Inv(s)
    ensures Inv(Step(s, Finish(c, outcome)))
  {
  }

  lemma LeaveKeepsInv(s: State, c: nat)
    requires Inv(s)
    ensures Inv(Step(s, Leave(c)))
  {
  }

  lemma PanicKeepsInv(s: State, c: nat)
    requires Inv(s)
    ensures Inv(Step(s, Panic(c)))
  {
  }

  lemma StepKeepsInv(s: State, e: Event)
    requires Inv(s)
    ensures Inv(Step(s, e))
  {
    match e {
      case Call(c, ports) => CallKeepsInv(s, c, ports);
      case ReadRunning(c) => ReadKeepsInv(s, c);
      case Acquire(c) => AcquireKeepsInv(s, c);
      case Decide(c) => if c in s.callers && s.callers[c].at.Locked? { DecideKeepsInv(s, c); }
      case Finish(c, outcome) => FinishKeepsInv(s, c, outcome);
      case Leave(c) => LeaveKeepsInv(s, c);
      case Panic(c) => PanicKeepsInv(s, c);
    }
  }

  /** Every interleaving of any number of callers keeps the invariant. */
  lemma {:induction false} RunKeepsInv(s: State, events: seq<Event>)
    requires Inv(s)
    ensures Inv(Run(s, events))
    decreases events
  {
    if events != [] {
      StepKeepsInv(s, events[0]);
      RunKeepsInv(Step(s, events[0]), events[1..]);
    }
  }

  // ------------------------------------------------------------------
  // What callers can rely on
  // ------------------------------------------------------------------

  lemma ReusedIsSound(s: State, c: nat)
    requires Inv(s) && c in s.callers && s.callers[c].at.Locked?
    ensures DecideStep(s, c).callers[c].at.Returned? ==>
              DecideStep(s, c).callers[c].at.answer.Reused? && ReusedFrom(DecideStep(s, c), c)
  {
    var n := DecideStep(s, c);
    DecideKeepsInv(s, c);
    assert CallerSound(n, c);
    if n.callers[c].at.Returned? && Distinct(n.tests[n.callers[c].at.answer.test].tested) {
      EqualIsSameSet(n.callers[c].ports, n.tests[n.callers[c].at.answer.test].tested);
    }
  }

  lemma AtMostOneTest(events: seq<Event>, c: nat, d: nat)
    requires c in Run(START, events).callers && Run(START, events).callers[c].at.Testing?
    requires d in Run(START, events).callers && Run(START, events).callers[d].at.Testing?
    ensures c == d
  {
    RunKeepsInv(START, events);
  }

  /**
    A reused result is the one of a test for an equal list: complete exactly if that test did not end in a
    panic, and for the same set of ports if the tested list had no duplicates.
  */
  lemma ReusedResult(events: seq<Event>, c: nat)
    requires c in Run(START, events).callers
    requires Run(START, events).callers[c].at.Returned? && Run(START, events).callers[c].at.answer.Reused?
    ensures ReusedFrom(Run(START, events), c)
  {
    var s := Run(START, events);
    RunKeepsInv(START, events);
    assert CallerSound(s, c);
    var t := s.callers[c].at.answer.test;
    if Distinct(s.tests[t].tested) {
      EqualIsSameSet(s.callers[c].ports, s.tests[t].tested);
    }
  }

  ghost predicate ReusedFrom(s: State, c: nat)
    requires c in s.callers && s.callers[c].at.Returned? && s.callers[c].at.answer.Reused?
  {
    var ports, answer := s.callers[c].ports, s.callers[c].at.answer;
    && answer.test < |s.tests| && answer.result == s.tests[answer.test].result
    && (answer.result.Some? <==> !s.tests[answer.test].panicked)
    && (Distinct(s.tests[answer.test].tested) ==> Elements(ports) == Elements(s.tests[answer.test].tested))
  }

  lemma {:induction false} RunAppend(s: State, events: seq<Event>, e: Event)
    ensures Run(s, events + [e]) == Step(Run(s, events), e)
    decreases events
  {
    if events == [] {
      assert Run(Step(s, e), [e][1..]) == Step(s, e);
    } else {
      assert (events + [e])[1..] == events[1..] + [e];
      RunAppend(Step(s, events[0]), events[1..], e);
    }
  }

  predicate IsTesting(s: State, c: nat, t: nat) {
    c in s.callers && s.callers[c].at == Testing(t)
  }

  /** The outcome with which the caller that ran the test finished it. */
  function OutcomeOfTest(events: seq<Event>, t: nat): Option<Outcome> {
    if events == [] then None
    else
      var init, e := events[..|events| - 1], events[|events| - 1];
      if e.Finish? && IsTesting(Run(START, init), e.caller, t) then Some(e.outcome) else OutcomeOfTest(init, t)
  }

  /** The ports of the caller that began the test. */
  function PortsOfTest(events: seq<Event>, t: nat): Option<seq<Port>> {
    if events == [] then None
    else
      var init, e := events[..|events| - 1], events[|events| - 1];
      var s := Run(START, init);
      if e.Decide? && !IsTesting(s, e.caller, t) && IsTesting(Step(s, e), e.caller, t) then
        Some(s.callers[e.caller].ports)
      else PortsOfTest(init, t)
  }

  lemma StepResults(s: State, e: Event, t: nat)
    requires Inv(s) && t < |Step(s, e).tests|
    ensures var n := Step(s, e);
            && n.tests[t].result == (if e.Finish? && IsTesting(s, e.caller, t) then Some(e.outcome)
                                     else if t < |s.tests| then s.tests[t].result else None)
            && (t >= |s.tests| ==> e.Decide? && e.caller in s.callers && t == |s.tests|)
  {
  }

  lemma StepTested(s: State, e: Event, t: nat)
    requires Inv(s) && t < |Step(s, e).tests|
    ensures var n := Step(s, e);
            var begins := e.Decide? && !IsTesting(s, e.caller, t) && IsTesting(n, e.caller, t);
            && (begins <==> t >= |s.tests|)
            && (begins ==> e.caller in s.callers && n.tests[t].tested == s.callers[e.caller].ports)
            && (!begins ==> n.tests[t].tested == s.tests[t].tested)
  {
  }

  lemma NoOutcomeYet(events: seq<Event>, t: nat)
    requires t >= |Run(START, events).tests|
    ensures OutcomeOfTest(events, t).None?
  {
    if events != [] {
      var init, e := events[..|events| - 1], events[|events| - 1];
      assert events == init + [e];
      RunAppend(START, init, e);
      RunKeepsInv(START, init);
      NoOutcomeYet(init, t);
    }
  }

  /** Over every run: the ports and the result of a test are those of the caller that began and finished it. */
  lemma {:induction false} ResultIsOutcome(events: seq<Event>, t: nat)
    requires t < |Run(START, events).tests|
    ensures Run(START, events).tests[t].result == OutcomeOfTest(events, t)
    ensures Some(Run(START, events).tests[t].tested) == PortsOfTest(events, t)
  {
    if events != [] {
      var init, e := events[..|events| - 1], events[|events| - 1];
      assert events == init + [e];
      RunAppend(START, init, e);
      RunKeepsInv(START, init);
      var s := Run(START, init);
      StepResults(s, e, t);
      StepTested(s, e, t);
      if t < |s.tests| {
        ResultIsOutcome(init, t);
      } else {
        NoOutcomeYet(init, t);
      }
    }
  }

  /** The test that was announced when the caller looked. */
  function ReadBy(events: seq<Event>, c: nat): Option<nat> {
    if events == [] then None
    else
      var init, e := events[..|events| - 1], events[|events| - 1];
      var s := Run(START, init);
      if e == ReadRunning(c) && c in s.callers && s.callers[c].at.Entered? then s.current else ReadBy(init, c)
  }

  /** The outcome with which the caller finished its own test. */
  function FinishedBy(events: seq<Event>, c: nat): Option<Outcome> {
    if events == [] then None
    else
      var init, e := events[..|events| - 1], events[|events| - 1];
      var s := Run(START, init);
      if e.Finish? && e.caller == c && c in s.callers && s.callers[c].at.Testing? then Some(e.outcome)
      else FinishedBy(init, c)
  }

  ghost predicate PositionSound(at: Position, read: Option<nat>, finished: Option<Outcome>) {
    match at
    case Waiting(running) => running == read
    case Locked(running) => running == read
    case Saved(outcome) => finished == Some(outcome)
    case Returned(Own(outcome)) => finished == Some(outcome)
    case Returned(Reused(t, _)) => read == Some(t)
    case _ => true
  }

  lemma StepMoves(s: State, e: Event, c: nat, read: Option<nat>, finished: Option<Outcome>)
    requires Inv(s) && c in Step(s, e).callers && (c in s.callers ==> PositionSound(s.callers[c].at, read, finished))
    ensures var n := Step(s, e);
            var looks := e == ReadRunning(c) && c in s.callers && s.callers[c].at.Entered?;
            var finishes := e.Finish? && e.caller == c && c in s.callers && s.callers[c].at.Testing?;
            PositionSound(n.callers[c].at, if looks then s.current else read,
                          if finishes then Some(e.outcome) else finished)
  {
  }

  /** Over every run: a caller waits for the test it saw announced, reuses that one, or returns its own outcome. */
  lemma {:induction false} AnswersMean(events: seq<Event>, c: nat)
    requires c in Run(START, events).callers
    ensures PositionSound(Run(START, events).callers[c].at, ReadBy(events, c), FinishedBy(events, c))
  {
    if events != [] {
      var init, e := events[..|events| - 1], events[|events| - 1];
      assert events == init + [e];
      RunAppend(START, init, e);
      RunKeepsInv(START, init);
      if c in Run(START, init).callers {
        AnswersMean(init, c);
      }
      StepMoves(Run(START, init), e, c, ReadBy(init, c), FinishedBy(init, c));
    }
  }

  /**
    A caller that gets the lock reuses the test it waited for if and only if there was one and its list of ports is
    as long as the own list and holds nothing else; otherwise it begins a test of its own.
  */
  lemma DecideMeans(s: State, c: nat)
    requires Inv(s) && c in s.callers && s.callers[c].at.Locked?
    ensures var n, running := Step(s, Decide(c)), s.callers[c].at.running;
            var reuses := running.Some? && |s.callers[c].ports| == |s.tests[running.value].tested|
                          && forall p :: p in s.tests[running.value].tested ==> p in s.callers[c].ports;
            && (reuses <==> n.callers[c].at.Returned?)
            && (reuses ==> n.locker.None? && n.tests == s.tests && n.current == s.current)
            && (!reuses ==> n.callers[c].at == Testing(|s.tests|) && n.current == Some(|s.tests|)
                            && n.locker == s.locker && n.tests == s.tests + [Test(s.callers[c].ports, None, false)])
  {
    assert CallerSound(s, c);
  }

  /** A call that ended, in a panic or with an answer, stays where it is. */
  lemma EndedStays(s: State, e: Event, c: nat)
    requires c in s.callers && (s.callers[c].at.Returned? || s.callers[c].at.Panicked?)
    ensures Step(s, e).callers[c] == s.callers[c]
  {
  }

  lemma PanicEnds(s: State, c: nat)
    requires Inv(s) && c in s.callers && s.callers[c].at.Testing?
    ensures Step(s, Panic(c)).callers[c].at.Panicked? && Step(s, Panic(c)).locker.None?
  {
  }

  /** A test is announced only while it is in progress, or after it ended in a panic. */
  lemma AnnouncedOnlyAfterPanic(events: seq<Event>)
    ensures var s := Run(START, events);
            !TestInProgress(s) && s.current.Some? ==> s.current.value < |s.tests| && s.tests[s.current.value].panicked
  {
    RunKeepsInv(START, events);
  }

  /** A test panics, then another call goes through all its steps up to the decision. */
  function PanicThenCall(s: State, c: nat, d: nat, ports: seq<Port>): State {
    var entered := Step(Step(s, Panic(c)), Call(d, ports));
    Step(Step(Step(entered, ReadRunning(d)), Acquire(d)), Decide(d))
  }

  /**
    After a panic the next caller takes the missing result of the test that never ended, if and only if its
    ports equal those of that test; otherwise it runs a test of its own.
  */
  lemma PanicIsReused(s: State, c: nat, d: nat, ports: seq<Port>)
    requires Inv(s) && c in s.callers && s.callers[c].at.Testing? && d !in s.callers
    ensures d in PanicThenCall(s, c, d, ports).callers
    ensures PanicThenCall(s, c, d, ports).callers[d].at
            == if IsPortsEquals(ports, s.callers[c].ports) then Returned(Reused(s.callers[c].at.test, None))
               else Testing(|s.tests|)
  {
  }
}
