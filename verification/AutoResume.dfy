/**
  Automatic resuming.  Every pause starts a routine that polls once per second and resumes the
  connection when the pause deadline has passed; routines of earlier pauses may still be polling.

  A pause first pauses the VPN object and then stores its deadline; meanwhile its mutex keeps resuming
  away.  A routine tests whether the connection is paused, and then, in a further step, forgets the
  deadline or reads it.
*/
module AutoResume {
  import opened Wrappers

  const SECOND := 1_000_000_000 // nanoseconds

  datatype Resumer =
    | Polling
    | SawUnpaused                           // about to forget the deadline
    | SawPaused                             // about to read the deadline
    | DeadlineSeen(deadline: Option<nat>)   // the deadline it read has passed; it waits for the network

  datatype State = State(
    now: nat,
    connected: bool,
    vpnPaused: bool,
    pausing: bool, // a pause holds the mutex: the VPN object is paused, the deadline not stored yet
    pauseTill: Option<nat>,
    resumers: map<nat, Resumer>,
    newest: nat) // the routine of the latest pause

  datatype Event =
    | Tick(elapsed: nat)
    | PauseObject
    | Pause(seconds: nat) // stores the deadline and starts the routine
    | ResumeByUser(vpnWorks: bool)
    | Disconnect
    | EndConnection
    | StartConnection
    | Poll(id: nat)
    | Forget(id: nat)
    | ReadDeadline(id: nat)
    | TryResume(id: nat, networkReady: bool, vpnWorks: bool)

  const INIT := State(0, false, false, false, None, map[], 0)

  /** time.Unix(): whole seconds. */
  function Unix(t: nat): nat {
    t / SECOND
  }

  predicate IsPaused(s: State) {
    s.connected && s.vpnPaused && s.pauseTill.Some?
  }

  /** The deadline is forgotten even when the VPN object fails to resume.  A pause in progress comes first. */
  function ResumeVpn(s: State, vpnWorks: bool): State {
    if s.pausing || !s.connected || !s.vpnPaused then s
    else s.(pauseTill := None, vpnPaused := !vpnWorks)
  }

  /** No deadline counts as one that has passed long ago. */
  predicate HasPassed(deadline: Option<nat>, now: nat) {
    deadline.Some? ==> Unix(now) >= Unix(deadline.value)
  }

  predicate IsAt(s: State, id: nat, r: Resumer) {
    id in s.resumers && s.resumers[id] == r
  }

  predicate Waits(s: State, id: nat) {
    id in s.resumers && s.resumers[id].DeadlineSeen?
  }

  function Step(s: State, e: Event): State {
    match e
    case Tick(elapsed) => s.(now := s.now + elapsed)
    case PauseObject => if !s.connected || s.pausing then s else s.(vpnPaused := true, pausing := true)
    case Pause(seconds) =>
      if !s.pausing || seconds == 0 then s
      else s.(pausing := false, pauseTill := Some(s.now + seconds * SECOND),
              resumers := s.resumers[s.newest + 1 := Polling], newest := s.newest + 1)
    case ResumeByUser(vpnWorks) => ResumeVpn(s, vpnWorks)
    case Disconnect => if s.pausing then s else s.(connected := false, vpnPaused := false, pauseTill := None)
    case EndConnection => s.(connected := false, vpnPaused := false)
    case StartConnection => s.(connected := true, vpnPaused := false)
    case Poll(id) =>
      if !IsAt(s, id, Polling) then s
      else s.(resumers := s.resumers[id := if IsPaused(s) then SawPaused else SawUnpaused])
    case Forget(id) =>
      if IsAt(s, id, SawUnpaused) then s.(pauseTill := None, resumers := s.resumers - {id}) else s
    case ReadDeadline(id) =>
      if !IsAt(s, id, SawPaused) then s
      else
        var read := if HasPassed(s.pauseTill, s.now) then DeadlineSeen(s.pauseTill) else Polling;
        s.(resumers := s.resumers[id := read])
    case TryResume(id, networkReady, vpnWorks) =>
      if !Waits(s, id) || s.pausing || (IsPaused(s) && !networkReady) then s
      else ResumeVpn(s, vpnWorks).(resumers := s.resumers - {id})
  }

  function Run(s: State, es: seq<Event>): State
    decreases es
  {
    if es == [] then s else Run(Step(s, es[0]), es[1..])
  }

  // ------------------------------------------------------------------
  // Resuming before the deadline
  // ------------------------------------------------------------------

  /** The connection is resumed by a routine although it was paused. */
  predicate ResumesAutomatically(s: State, e: Event) {
    e.TryResume? && IsPaused(s) && !IsPaused(Step(s, e))
  }

  /** A routine can end the pause before the second of its deadline. */
  ghost predicate CanResumeEarly(s: State) {
    exists e :: ResumesAutomatically(s, e) && !HasPassed(s.pauseTill, s.now)
  }

  /** A pause takes effect while a routine that saw its deadline still waits for the network. */
  ghost predicate PausesBehindWaitingRoutine(s: State, e: Event) {
    e.Pause? && s.pausing && s.connected && s.vpnPaused && e.seconds > 0 && exists id :: Waits(s, id)
  }

  /** Every routine that saw its deadline pass read the deadline that is in force. */
  ghost predicate DeadlinesPassed(s: State) {
    IsPaused(s) && !s.pausing ==>
      forall id :: Waits(s, id) ==> s.resumers[id].deadline == s.pauseTill && HasPassed(s.pauseTill, s.now)
  }

  lemma StepKeepsDeadlines(s: State, e: Event)
    requires DeadlinesPassed(s) && !PausesBehindWaitingRoutine(s, e)
    ensures DeadlinesPassed(Step(s, e))
  {
    var n := Step(s, e);
    if e.Pause? && n != s && IsPaused(n) {
      forall id | Waits(n, id) ensures Waits(s, id) {
      }
    }
    forall id | Waits(n, id) && !Waits(s, id) ensures e == ReadDeadline(id) {
    }
  }

  lemma PassedIsNotEarly(s: State)
    requires DeadlinesPassed(s)
    ensures !CanResumeEarly(s)
  {
    forall e | ResumesAutomatically(s, e) ensures HasPassed(s.pauseTill, s.now) {
      assert Waits(s, e.id);
    }
  }

  /** In every state, a pause that takes effect can be ended early iff a routine was waiting for the network. */
  lemma SecondPauseCutShort(s: State, seconds: nat)
    requires s.connected && s.vpnPaused && s.pausing && seconds > 0 && NewestPolls(s)
    ensures CanResumeEarly(Step(s, Pause(seconds))) <==> exists id :: Waits(s, id)
  {
    var n := Step(s, Pause(seconds));
    assert Unix(n.now) < Unix(n.pauseTill.value);
    if id :| Waits(s, id) {
      assert Waits(n, id);
      assert ResumesAutomatically(n, TryResume(id, true, true));
    }
    forall e | ResumesAutomatically(n, e) ensures Waits(s, e.id) {
      assert Waits(n, e.id);
    }
  }

  ghost predicate NoPauseBehindWaitingRoutine(s: State, es: seq<Event>)
    decreases es
  {
    es == [] || (!PausesBehindWaitingRoutine(s, es[0]) && NoPauseBehindWaitingRoutine(Step(s, es[0]), es[1..]))
  }

  lemma {:induction false} RunKeepsDeadlines(s: State, es: seq<Event>)
    requires DeadlinesPassed(s) && NoPauseBehindWaitingRoutine(s, es)
    ensures DeadlinesPassed(Run(s, es))
    decreases es
  {
    if es != [] {
      StepKeepsDeadlines(s, es[0]);
      RunKeepsDeadlines(Step(s, es[0]), es[1..]);
    }
  }

  /**
    With any number of leftover routines, no connection is resumed automatically before the second of
    the latest deadline, as long as no pause takes effect behind a routine that waits for the network.
  */
  lemma NeverResumedEarly(es: seq<Event>, e: Event)
    requires NoPauseBehindWaitingRoutine(INIT, es)
    requires ResumesAutomatically(Run(INIT, es), e)
    ensures var s := Run(INIT, es);
            HasPassed(s.pauseTill, s.now) && s.now + SECOND > s.pauseTill.value
  {
    RunKeepsDeadlines(INIT, es);
    assert Waits(Run(INIT, es), e.id);
  }

  /** At some moment of the run the connection can be resumed early. */
  ghost predicate EverResumesEarly(s: State, es: seq<Event>)
    decreases es
  {
    CanResumeEarly(s) || (es != [] && EverResumesEarly(Step(s, es[0]), es[1..]))
  }

  /** A run has such a moment if and only if some pause takes effect behind a waiting routine. */
  lemma {:induction false} EarlyIffBehindWaitingRoutine(s: State, es: seq<Event>)
    requires DeadlinesPassed(s) && NewestPolls(s)
    ensures EverResumesEarly(s, es) <==> !NoPauseBehindWaitingRoutine(s, es)
    decreases es
  {
    PassedIsNotEarly(s);
    if es != [] {
      StepKeepsNewest(s, es[0]);
      if PausesBehindWaitingRoutine(s, es[0]) {
        SecondPauseCutShort(s, es[0].seconds);
      } else {
        StepKeepsDeadlines(s, es[0]);
        EarlyIffBehindWaitingRoutine(Step(s, es[0]), es[1..]);
      }
    }
  }

  /**
    A routine that polls resumes once the whole seconds have passed: before the deadline, but not a full
    second before, and only if the deadline is not a whole second.
  */
  lemma ResumedWithinTheLastSecond(s: State, id: nat)
    requires IsAt(s, id, Polling) && IsPaused(s) && !s.pausing
    ensures ResumesAutomatically(Step(Step(s, Poll(id)), ReadDeadline(id)), TryResume(id, true, true))
            <==> Unix(s.now) >= Unix(s.pauseTill.value)
    ensures (exists now: nat :: now < s.pauseTill.value && Unix(now) >= Unix(s.pauseTill.value))
            <==> s.pauseTill.value % SECOND != 0
  {
    var d := s.pauseTill.value;
    if d % SECOND != 0 {
      var now: nat := d - 1;
      assert Unix(now) >= Unix(d);
    }
  }

  // ------------------------------------------------------------------
  // Who watches a pause
  // ------------------------------------------------------------------

  /** While paused, the routine of the latest pause is there and does not mistake it for unpaused. */
  ghost predicate NewestPolls(s: State) {
    && (IsPaused(s) && !s.pausing ==> s.newest in s.resumers && !s.resumers[s.newest].SawUnpaused?)
    && (forall id :: id in s.resumers ==> id <= s.newest)
  }

  lemma StepKeepsNewest(s: State, e: Event)
    requires NewestPolls(s)
    ensures NewestPolls(Step(s, e))
  {
  }

  /** A paused connection always has the routine of its latest pause watching it. */
  lemma {:induction false} PausedIsWatched(s: State, es: seq<Event>)
    requires NewestPolls(s)
    ensures NewestPolls(Run(s, es))
    decreases es
  {
    if es != [] {
      StepKeepsNewest(s, es[0]);
      PausedIsWatched(Step(s, es[0]), es[1..]);
    }
  }

  /** A routine makes the service forget the pause while the VPN object stays paused. */
  predicate ForgetsPause(s: State, e: Event) {
    e.Forget? && IsPaused(s) && !IsPaused(Step(s, e)) && Step(s, e).vpnPaused
  }

  ghost predicate CanForgetPause(s: State) {
    !s.pausing && exists e :: ForgetsPause(s, e)
  }

  /** A pause takes effect while a routine is about to forget an earlier one. */
  ghost predicate PausesBehindForgetter(s: State, e: Event) {
    e.Pause? && s.pausing && s.connected && s.vpnPaused && e.seconds > 0 && exists id :: IsAt(s, id, SawUnpaused)
  }

  /** A pause can be forgotten right after it takes effect iff a routine is about to forget an earlier one. */
  lemma PauseForgottenIffRoutineSawUnpaused(s: State, seconds: nat)
    requires s.connected && s.vpnPaused && s.pausing && seconds > 0 && NewestPolls(s)
    ensures CanForgetPause(Step(s, Pause(seconds))) <==> exists id :: IsAt(s, id, SawUnpaused)
  {
    var n := Step(s, Pause(seconds));
    if id :| IsAt(s, id, SawUnpaused) {
      assert IsAt(n, id, SawUnpaused);
      assert ForgetsPause(n, Forget(id));
    }
    forall e | ForgetsPause(n, e) ensures IsAt(s, e.id, SawUnpaused) {
    }
  }

  /** While a pause is in effect, no routine is about to forget it. */
  ghost predicate NoForgetter(s: State) {
    IsPaused(s) && !s.pausing ==> forall id :: !IsAt(s, id, SawUnpaused)
  }

  lemma StepKeepsNoForgetter(s: State, e: Event)
    requires NoForgetter(s) && NewestPolls(s) && !PausesBehindForgetter(s, e)
    ensures NoForgetter(Step(s, e))
  {
    var n := Step(s, e);
    forall id | IsAt(n, id, SawUnpaused) && !IsAt(s, id, SawUnpaused) ensures e == Poll(id) && !IsPaused(s) {
    }
  }

  ghost predicate NoPauseBehindForgetter(s: State, es: seq<Event>)
    decreases es
  {
    es == [] || (!PausesBehindForgetter(s, es[0]) && NoPauseBehindForgetter(Step(s, es[0]), es[1..]))
  }

  /** At some moment of the run the pause in effect can be forgotten. */
  ghost predicate EverForgetsPause(s: State, es: seq<Event>)
    decreases es
  {
    CanForgetPause(s) || (es != [] && EverForgetsPause(Step(s, es[0]), es[1..]))
  }

  /** A run has such a moment if and only if some pause takes effect behind a routine that saw none. */
  lemma {:induction false} ForgottenIffBehindForgetter(s: State, es: seq<Event>)
    requires NoForgetter(s) && NewestPolls(s)
    ensures EverForgetsPause(s, es) <==> !NoPauseBehindForgetter(s, es)
    decreases es
  {
    assert !CanForgetPause(s);
    if es != [] {
      StepKeepsNewest(s, es[0]);
      if PausesBehindForgetter(s, es[0]) {
        PauseForgottenIffRoutineSawUnpaused(s, es[0].seconds);
      } else {
        StepKeepsNoForgetter(s, es[0]);
        ForgottenIffBehindForgetter(Step(s, es[0]), es[1..]);
      }
    }
  }

  // ------------------------------------------------------------------
  // The requested duration
  // ------------------------------------------------------------------

  /** A routine makes the VPN object run again. */
  predicate Wakes(s: State, e: Event) {
    e.TryResume? && s.connected && s.vpnPaused && !Step(s, e).vpnPaused
  }

  /** A pause of this many seconds takes effect. */
  predicate TakesEffect(s: State, seconds: nat) {
    s.connected && s.vpnPaused && s.pausing && seconds > 0
  }

  /** Neither another pause nor a resume by the user. */
  predicate LeavesPause(e: Event) {
    !e.Pause? && !e.ResumeByUser?
  }

  /** The whole seconds of the pause that began at `start` are over. */
  predicate IsOver(start: nat, seconds: nat, now: nat) {
    now / 1_000_000_000 >= (start + seconds * 1_000_000_000) / 1_000_000_000
  }

  /** The paused VPN object can be woken: nobody is pausing it. */
  predicate CanWake(s: State) {
    s.connected && s.vpnPaused && !s.pausing
  }

  ghost predicate Undisturbed(s: State, start: nat, seconds: nat) {
    && CanWake(s)
    && s.pauseTill == Some(start + seconds * SECOND)
    && (forall id :: !IsAt(s, id, SawUnpaused))
    && (forall id :: !Waits(s, id))
  }

  ghost predicate DurationKept(s: State, start: nat, seconds: nat) {
    CanWake(s) ==> IsOver(start, seconds, s.now) || Undisturbed(s, start, seconds)
  }

  lemma StepKeepsDuration(s: State, e: Event, start: nat, seconds: nat)
    requires DurationKept(s, start, seconds) && LeavesPause(e)
    ensures DurationKept(Step(s, e), start, seconds)
    ensures Wakes(s, e) ==> IsOver(start, seconds, s.now)
  {
    var n := Step(s, e);
    assert s.now <= n.now;
    if CanWake(s) && !IsOver(start, seconds, s.now) {
      if e.ReadDeadline? {
        assert HasPassed(s.pauseTill, s.now) <==> IsOver(start, seconds, s.now);
      }
      forall id | IsAt(n, id, SawUnpaused) || Waits(n, id) ensures IsOver(start, seconds, n.now) || !CanWake(n) {
        assert !IsAt(s, id, SawUnpaused) && !Waits(s, id);
      }
    }
  }

  /** Nobody wakes the VPN object early in the run, and at its end nobody can. */
  ghost predicate NeverWokenEarly(s: State, es: seq<Event>, start: nat, seconds: nat)
    decreases es
  {
    (forall e :: LeavesPause(e) && Wakes(s, e) ==> IsOver(start, seconds, s.now))
    && (es != [] ==> NeverWokenEarly(Step(s, es[0]), es[1..], start, seconds))
  }

  lemma {:induction false} RunKeepsDuration(s: State, es: seq<Event>, start: nat, seconds: nat)
    requires DurationKept(s, start, seconds) && forall e :: e in es ==> LeavesPause(e)
    ensures NeverWokenEarly(s, es, start, seconds)
    decreases es
  {
    forall e | LeavesPause(e) && Wakes(s, e) ensures IsOver(start, seconds, s.now) {
      StepKeepsDuration(s, e, start, seconds);
    }
    if es != [] {
      StepKeepsDuration(s, es[0], start, seconds);
      RunKeepsDuration(Step(s, es[0]), es[1..], start, seconds);
    }
  }

  lemma NotNeverWoken(s: State, e: Event, es: seq<Event>, start: nat, seconds: nat)
    requires !NeverWokenEarly(Step(s, e), es, start, seconds)
    ensures !NeverWokenEarly(s, [e] + es, start, seconds)
  {
    assert ([e] + es)[1..] == es;
  }

  /** The deadline is forgotten between the two looks of the new routine, which takes it for one that has passed. */
  lemma WokenAfterForgetting(n: State, newest: nat, id: nat, start: nat, seconds: nat)
    requires CanWake(n) && n.pauseTill.Some? && !IsOver(start, seconds, n.now)
    requires IsAt(n, newest, Polling) && IsAt(n, id, SawUnpaused)
    ensures !NeverWokenEarly(n, [Poll(newest)] + ([Forget(id)] + ([ReadDeadline(newest)] + [])), start, seconds)
  {
    var n1 := Step(n, Poll(newest));
    assert IsAt(n1, newest, SawPaused) && IsAt(n1, id, SawUnpaused);
    var n2 := Step(n1, Forget(id));
    assert IsAt(n2, newest, SawPaused) && n2.pauseTill.None?;
    var n3 := Step(n2, ReadDeadline(newest));
    assert Wakes(n3, TryResume(newest, true, true));
    assert !NeverWokenEarly(n3, [], start, seconds);
    NotNeverWoken(n2, ReadDeadline(newest), [], start, seconds);
    NotNeverWoken(n1, Forget(id), [ReadDeadline(newest)] + [], start, seconds);
    NotNeverWoken(n, Poll(newest), [Forget(id)] + ([ReadDeadline(newest)] + []), start, seconds);
  }

  /** A run of the routines alone that wakes the VPN object in the second in which its pause took effect. */
  lemma WokenAtOnce(s: State, seconds: nat, id: nat) returns (es: seq<Event>)
    requires TakesEffect(s, seconds) && NewestPolls(s) && (Waits(s, id) || IsAt(s, id, SawUnpaused))
    ensures forall e :: e in es ==> LeavesPause(e)
    ensures !NeverWokenEarly(Step(s, Pause(seconds)), es, s.now, seconds)
  {
    var n, newest := Step(s, Pause(seconds)), s.newest + 1;
    assert !IsOver(s.now, seconds, s.now);
    if Waits(s, id) {
      assert Waits(n, id);
      assert Wakes(n, TryResume(id, true, true));
      es := [];
    } else {
      es := [Poll(newest)] + ([Forget(id)] + ([ReadDeadline(newest)] + []));
      WokenAfterForgetting(n, newest, id, s.now, seconds);
    }
  }

  /**
    A pause of some seconds takes effect.  Whatever happens then, except another pause and a resume by the user, no
    routine makes the VPN run again before the whole seconds of the pause are over; if and only if no routine of an
    earlier pause was waiting for the network or about to forget its deadline.
  */
  lemma WokenEarlyIffRoutineLeft(s: State, seconds: nat)
    requires TakesEffect(s, seconds) && NewestPolls(s)
    ensures (forall es: seq<Event> :: (forall e :: e in es ==> LeavesPause(e)) ==>
                                        NeverWokenEarly(Step(s, Pause(seconds)), es, s.now, seconds))
            <==> !exists id :: Waits(s, id) || IsAt(s, id, SawUnpaused)
  {
    var n := Step(s, Pause(seconds));
    if id :| Waits(s, id) || IsAt(s, id, SawUnpaused) {
      var es := WokenAtOnce(s, seconds, id);
    } else {
      forall id ensures !Waits(n, id) && !IsAt(n, id, SawUnpaused) {
        assert !Waits(s, id) && !IsAt(s, id, SawUnpaused);
      }
      assert Undisturbed(n, s.now, seconds);
      forall es: seq<Event> | forall e :: e in es ==> LeavesPause(e) ensures NeverWokenEarly(n, es, s.now, seconds) {
        RunKeepsDuration(n, es, s.now, seconds);
      }
    }
  }

  /** Time passes and routines poll; the pause is not touched. */
  predicate OnlyPolls(e: Event) {
    e.Tick? || e.Poll? || e.ReadDeadline?
  }

  function Elapsed(es: seq<Event>): nat {
    if es == [] then 0 else (if es[0].Tick? then es[0].elapsed else 0) + Elapsed(es[1..])
  }

  ghost predicate OnlyWaiting(s: State, start: nat, seconds: nat) {
    CanWake(s) && s.pauseTill == Some(start + seconds * SECOND) && forall id :: !IsAt(s, id, SawUnpaused)
  }

  lemma {:induction false} PollingKeepsPause(s: State, es: seq<Event>, start: nat, seconds: nat)
    requires OnlyWaiting(s, start, seconds) && forall e :: e in es ==> OnlyPolls(e)
    ensures OnlyWaiting(Run(s, es), start, seconds) && Run(s, es).now == s.now + Elapsed(es)
    decreases es
  {
    if es != [] {
      var n := Step(s, es[0]);
      assert OnlyPolls(es[0]);
      forall id ensures !IsAt(n, id, SawUnpaused) {
        assert !IsAt(s, id, SawUnpaused);
      }
      PollingKeepsPause(n, es[1..], start, seconds);
    }
  }

  /**
    While the pause is only waited for, a routine that polls wakes the VPN object, with the network ready, if and only
    if the whole seconds of the pause are over.
  */
  lemma WakesWhenOver(s: State, seconds: nat, es: seq<Event>, id: nat)
    requires TakesEffect(s, seconds) && !exists r :: IsAt(s, r, SawUnpaused)
    requires forall e :: e in es ==> OnlyPolls(e)
    requires IsAt(Run(Step(s, Pause(seconds)), es), id, Polling)
    ensures var n := Run(Step(s, Pause(seconds)), es);
            Wakes(Step(Step(n, Poll(id)), ReadDeadline(id)), TryResume(id, true, true))
            <==> IsOver(s.now, seconds, s.now + Elapsed(es))
  {
    var first := Step(s, Pause(seconds));
    forall r ensures !IsAt(first, r, SawUnpaused) {
      assert !IsAt(s, r, SawUnpaused);
    }
    PollingKeepsPause(first, es, s.now, seconds);
  }

  // ------------------------------------------------------------------
  // Who changes what
  // ------------------------------------------------------------------

  /** The connection ends; a disconnection waits for a pause in progress. */
  predicate Ends(s: State, e: Event) {
    e.EndConnection? || (e.Disconnect? && !s.pausing)
  }

  /** A routine that saw its deadline is done: with the network ready, or with nothing to resume. */
  ghost predicate RoutineIsDone(s: State, e: Event) {
    e.TryResume? && Waits(s, e.id) && !s.pausing
    && (s.connected && s.vpnPaused && s.pauseTill.Some? ==> e.networkReady)
  }

  /** Somebody resumes the VPN object. */
  ghost predicate Resumes(s: State, e: Event) {
    s.connected && s.vpnPaused && !s.pausing && (e.ResumeByUser? || RoutineIsDone(s, e))
  }

  lemma WhoPauses(s: State, e: Event)
    ensures var n, begins := Step(s, e), e.PauseObject? && s.connected;
            && (n.connected <==> e.StartConnection? || (s.connected && !Ends(s, e)))
            && (n.pausing <==> (s.pausing || begins) && !(e.Pause? && s.pausing && e.seconds > 0))
            && (n.vpnPaused <==> (begins && !s.pausing)
                                 || (s.vpnPaused && !Ends(s, e) && !e.StartConnection?
                                     && !(Resumes(s, e) && e.vpnWorks)))
  {
  }

  /** The deadline is set by a pause, and dropped by a resume, a disconnection or a routine that saw no pause. */
  lemma WhoSetsDeadline(s: State, e: Event)
    ensures Step(s, e).pauseTill
            == if e.Pause? && s.pausing && e.seconds > 0 then Some(s.now + e.seconds * 1_000_000_000)
               else if Resumes(s, e) || (e.Disconnect? && !s.pausing) then None
               else if e.Forget? && IsAt(s, e.id, SawUnpaused) then None
               else s.pauseTill
  {
  }

  /** A routine lives from its pause until it has resumed or has seen no pause. */
  lemma WhenRoutineLives(s: State, e: Event, id: nat)
    requires NewestPolls(s)
    ensures id in Step(s, e).resumers
            <==> (e.Pause? && s.pausing && e.seconds > 0 && id == s.newest + 1)
                 || (id in s.resumers && !(e.Forget? && e.id == id && IsAt(s, id, SawUnpaused))
                     && !(RoutineIsDone(s, e) && e.id == id))
  {
  }

  /** A routine that finds the connection not paused ends, and leaves no deadline. */
  lemma UnpausedRoutineEnds(s: State, id: nat)
    requires IsAt(s, id, Polling)
    ensures !(s.connected && s.vpnPaused && s.pauseTill.Some?)
            <==> id !in Step(Step(s, Poll(id)), Forget(id)).resumers
    ensures id !in Step(Step(s, Poll(id)), Forget(id)).resumers ==>
              Step(Step(s, Poll(id)), Forget(id)).pauseTill.None?
  {
  }
}
