/** What arbitrary sequences of operations preserve of the kill switch, and exactly when they do not. */
module KillSwitchRuns {
  import opened Wrappers
  import opened KillSwitch

  /** The interlock: the firewall and Inverse Split Tunnel are never active together. */
  predicate Exclusive(s: State) {
    !(s.enabled && s.prefs.IsInverseSplitTunneling())
  }

  /**
    The three gaps of the interlock, as guards that can be checked before the operation:
    - on Windows, making the firewall non-persistent enables a disabled firewall;
    - Inverse Split Tunnel is activated although the firewall did not answer and is enabled;
    - the daemon starts with both a persistent firewall and Inverse Split Tunnel in its settings.
  */
  predicate Gap(s: State, op: Operation) {
    match op
    case OpSetPersistent(isPersistent, call) =>
      s.platform.Windows? && !isPersistent && !IsPaused(s) && s.prefs.IsInverseSplitTunneling() && call != Fails(false)
    case OpSplitTunnel(isEnabled, isInversed, isAnyDns, _, env) =>
      isEnabled && isInversed && s.enabled && !env.statusKnown && env.applies
      && SplitTunnelObjection(s, isEnabled, isInversed, isAnyDns, env).None?
    case OpStartDaemon(call) =>
      s.prefs.isFwPersistent && s.prefs.IsInverseSplitTunneling() && call != Fails(false)
    case _ => false
  }

  /** Outside the gaps every operation keeps the interlock, whatever the devices do; inside them it breaks. */
  lemma ExclusiveUnlessGap(s: State, op: Operation)
    requires Exclusive(s)
    ensures Exclusive(Apply(s, op).state) <==> !Gap(s, op)
  {
  }

  predicate NoGap(s: State, ops: seq<Operation>)
    decreases ops
  {
    ops == [] || (!Gap(s, ops[0]) && NoGap(Apply(s, ops[0]).state, ops[1..]))
  }

  lemma {:induction false} RunKeepsExclusive(s: State, ops: seq<Operation>)
    requires Exclusive(s) && NoGap(s, ops)
    ensures Exclusive(Run(s, ops))
    decreases ops
  {
    if ops != [] {
      ExclusiveUnlessGap(s, ops[0]);
      RunKeepsExclusive(Apply(s, ops[0]).state, ops[1..]);
    }
  }

  // ------------------------------------------------------------------
  // Working devices
  // ------------------------------------------------------------------

  /** Every device call of the operation works and every question is answered. */
  predicate DevicesWork(op: Operation) {
    match op
    case OpSetState(_, call) => call.Works?
    case OpSetPersistent(_, call) => call.Works?
    case OpSplitTunnel(_, _, _, _, env) => env.statusKnown
    case OpPause(_, _, env) => env.statusKnown && env.call.Works?
    case OpResume(env) => env.statusKnown && env.call.Works?
    case OpResumeVpn(env) => env.statusKnown && env.call.Works?
    case OpInitializeFirewall(statusKnown, call) => statusKnown && call.Works?
    case OpEndConnection(call) => call.Works?
    case OpStartDaemon(call) => call.Works?
    case _ => true
  }

  /** A persistent firewall is enabled; with it the settings alone exclude Inverse Split Tunnel. */
  predicate Sound(s: State) {
    Exclusive(s) && (s.prefs.isFwPersistent ==> s.enabled)
  }

  lemma WorkingStepKeepsSound(s: State, op: Operation)
    requires Sound(s) && s.platform.Unix? && DevicesWork(op)
    ensures var n := Apply(s, op).state; Sound(n) && n.platform.Unix?
  {
  }

  /**
    With working devices, on Linux and macOS, no sequence of operations and daemon restarts activates
    the firewall together with Inverse Split Tunnel, and a persistent firewall is always enabled.
  */
  lemma {:induction false} WorkingRunIsSound(s: State, ops: seq<Operation>)
    requires Sound(s) && s.platform.Unix?
    requires forall i :: 0 <= i < |ops| ==> DevicesWork(ops[i])
    ensures Sound(Run(s, ops))
    decreases ops
  {
    if ops != [] {
      WorkingStepKeepsSound(s, ops[0]);
      WorkingRunIsSound(Apply(s, ops[0]).state, ops[1..]);
    }
  }

  /** The Windows gap is reachable with working devices: activate Inverse Split Tunnel, then switch persistence off. */
  lemma WindowsGapIsReachable(s: State) returns (ops: seq<Operation>)
    requires s == State(Windows, DEFAULT_PREFS, false, None, false, None, false, false)
    ensures forall i :: 0 <= i < |ops| ==> DevicesWork(ops[i])
    ensures Exclusive(s) && !Exclusive(Run(s, ops))
  {
    var activate := OpSplitTunnel(true, true, false, false, SplitTunnelEnv(true, true, true, false, true));
    var release := OpSetPersistent(false, Works);
    ops := [activate, release];
    var active := Apply(s, activate).state;
    assert active.prefs.IsInverseSplitTunneling();
    var broken := Apply(active, release).state;
    assert broken.enabled;
    assert Run(s, ops) == broken by {
      assert ops[1..] == [release];
      assert [release][1..] == [];
      assert Run(active, [release]) == Run(broken, []);
    }
  }

  // ------------------------------------------------------------------
  // What a reply means
  // ------------------------------------------------------------------

  /** What the caller of a successful operation can rely on. */
  ghost predicate Achieved(op: Operation, before: State, after: State) {
    match op
    case OpSetState(isEnabled, _) =>
      after == before.(enabled := isEnabled) && !IsPaused(before)
      && !(if isEnabled then before.prefs.IsInverseSplitTunneling() else before.prefs.isFwPersistent)
    case OpSetPersistent(isPersistent, _) =>
      after == before.(prefs := before.prefs.(isFwPersistent := isPersistent), enabled := after.enabled)
      && (isPersistent ==> after.enabled && !after.prefs.IsInverseSplitTunneling())
      && (before.enabled ==> after.enabled) && !IsPaused(before)
    case OpSplitTunnel(isEnabled, isInversed, isAnyDns, isAllowWhenNoVpn, env) =>
      after == before.(prefs := Prefs(before.prefs.isFwPersistent, isEnabled, isInversed, isAnyDns, isAllowWhenNoVpn))
      && (after.prefs.IsInverseSplitTunneling() && env.statusKnown ==> !after.enabled)
      && (isEnabled ==> !after.splitTunnelBlocked)
    case OpResetSplitTunnel(_) =>
      after == before.(prefs := Prefs(before.prefs.isFwPersistent, false, false, false, false))
    case OpBlockSplitTunnel(blocked) =>
      after.prefs == before.prefs && after.enabled == before.enabled && (blocked ==> SplitTunnelStaysOff(after))
    case OpResetPreferences =>
      after == before.(prefs := after.prefs) && !after.prefs.isFwPersistent && !after.prefs.isSplitTunnel
    case OpPause(duration, now, _) =>
      IsPaused(after) && after.pauseTill == Some(now + duration) && after.savedState == before.enabled
      && (after.enabled ==> before.prefs.isFwPersistent) && after.prefs == before.prefs
    case OpResume(_) => after.connection.Some? && Awake(before, after)
    case OpResumeVpn(_) => Awake(before, after)
    case OpStartConnection(on, during) =>
      before.connection.None? && !IsPaused(after)
      && after == before.(connection := after.connection, vpnPaused := false)
      && after.connection == Some(if before.prefs.IsInverseSplitTunneling() then Connection(false, false, false)
                                  else Connection(on, during, false))
    case OpInitializeFirewall(_, _) =>
      before.connection.Some? && after.connection.Some?
      && (before.connection.value.firewallOn || before.connection.value.firewallDuringConnection ==> after.enabled)
      && (!before.connection.value.firewallOn && before.connection.value.firewallDuringConnection ==>
            after.connection.value.fwInitState == before.enabled)
    case OpEndConnection(_) => after.connection.None? && !after.vpnPaused && (after.enabled ==> before.enabled)
    case OpStartDaemon(call) =>
      after.connection.None? && !IsPaused(after) && after.pauseTill.None? && after.prefs == before.prefs
      && (call.Works? && after.prefs.isFwPersistent ==> after.enabled)
      && (!after.prefs.isFwPersistent ==> after.enabled == before.enabled)
  }

  /** No configuration switches Split Tunnel on. */
  ghost predicate SplitTunnelStaysOff(s: State) {
    forall isInversed, isAnyDns, isAllowWhenNoVpn, env ::
      SetSplitTunnelConfig(s, true, isInversed, isAnyDns, isAllowWhenNoVpn, env).reply.Refused?
  }

  /** The VPN runs again; the kill switch changes only to what it was before the pause. */
  predicate Awake(before: State, after: State) {
    && after.connection == before.connection && after.prefs == before.prefs
    && (after.connection.Some? ==> !after.vpnPaused) && after.pauseTill.None?
    && (after.enabled != before.enabled ==> after.enabled == before.savedState)
  }

  lemma PauseSuccessMeans(s: State, op: Operation)
    requires op.OpPause? && Apply(s, op).reply.Ok?
    ensures Achieved(op, s, Apply(s, op).state)
  {
  }

  lemma ResumeSuccessMeans(s: State, op: Operation)
    requires (op.OpResume? || op.OpResumeVpn?) && Apply(s, op).reply.Ok?
    ensures Achieved(op, s, Apply(s, op).state)
  {
  }

  lemma ConnectionSuccessMeans(s: State, op: Operation)
    requires (op.OpInitializeFirewall? || op.OpEndConnection?) && Apply(s, op).reply.Ok?
    ensures Achieved(op, s, Apply(s, op).state)
  {
  }

  lemma SuccessMeans(s: State, op: Operation)
    requires Apply(s, op).reply.Ok?
    ensures Achieved(op, s, Apply(s, op).state)
  {
    match op {
      case OpPause(_, _, _) => PauseSuccessMeans(s, op);
      case OpResume(_) => ResumeSuccessMeans(s, op);
      case OpResumeVpn(_) => ResumeSuccessMeans(s, op);
      case OpInitializeFirewall(_, _) => ConnectionSuccessMeans(s, op);
      case OpEndConnection(_) => ConnectionSuccessMeans(s, op);
      case _ =>
    }
  }

  // ------------------------------------------------------------------
  // Which reply comes
  // ------------------------------------------------------------------

  /** The VPN object is paused until a deadline. */
  ghost predicate PausedNow(s: State) {
    s.connection.Some? && s.vpnPaused && s.pauseTill.Some?
  }

  ghost predicate InverseOn(s: State) {
    s.prefs.isSplitTunnel && s.prefs.splitTunnelInversed
  }

  /** Where a failing call leaves the firewall. */
  ghost predicate LeftBy(call: Call, isEnabled: bool, before: bool, after: bool) {
    call.Fails? && (after <==> call.leavesOn && (isEnabled || before))
  }

  lemma SetStateReplies(s: State, isEnabled: bool, call: Call)
    ensures var o := Apply(s, OpSetState(isEnabled, call));
            && (o.reply == Ok
                <==> call.Works? && !PausedNow(s) && (if isEnabled then !InverseOn(s) else !s.prefs.isFwPersistent))
            && (o.reply == Refused(PersistentFirewall) <==> !isEnabled && s.prefs.isFwPersistent)
            && (o.reply == Refused(WhilePaused) <==> PausedNow(s) && (isEnabled || !s.prefs.isFwPersistent))
            && (o.reply == Refused(InverseSplitTunnelActive) <==> isEnabled && !PausedNow(s) && InverseOn(s))
            && (o.reply == Refused(DeviceError) ==>
                  o.state == s.(enabled := o.state.enabled) && LeftBy(call, isEnabled, s.enabled, o.state.enabled))
            && (o.reply.Refused? ==>
                  o.reply.error in {PersistentFirewall, WhilePaused, InverseSplitTunnelActive, DeviceError})
  {
  }

  /** Outside Windows switching persistence off needs no device. */
  lemma SetPersistentReplies(s: State, isPersistent: bool, call: Call)
    ensures var o := Apply(s, OpSetPersistent(isPersistent, call));
            var stored := s.(prefs := s.prefs.(isFwPersistent := isPersistent), enabled := o.state.enabled);
            && (o.reply == Ok
                <==> !PausedNow(s) && !(isPersistent && InverseOn(s))
                     && (call.Works? || (s.platform.Unix? && !isPersistent)))
            && (o.reply == Refused(WhilePaused) <==> PausedNow(s))
            && (o.reply == Refused(InverseSplitTunnelActive) <==> !PausedNow(s) && isPersistent && InverseOn(s))
            && (o.reply == Refused(DeviceError) ==>
                  o.state == stored && LeftBy(call, true, s.enabled, o.state.enabled))
            && (o.reply == Ok && s.platform.Unix? && !isPersistent ==> o.state.enabled == s.enabled)
            && (o.reply == Ok && (s.platform.Windows? || isPersistent) ==> o.state.enabled)
            && (o.reply.Refused? ==> o.reply.error in {WhilePaused, InverseSplitTunnelActive, DeviceError})
  {
  }

  lemma SplitTunnelReplies(s: State, isEnabled: bool, isInversed: bool, isAnyDns: bool, allow: bool,
                           env: SplitTunnelEnv)
    ensures var reply := Apply(s, OpSplitTunnel(isEnabled, isInversed, isAnyDns, allow, env)).reply;
            var missing := !env.available || (isInversed && !env.inverseAvailable);
            var inverse := isEnabled && isInversed;
            var firewall := inverse && s.enabled && env.statusKnown;
            var dns := inverse && isAnyDns && env.customDns;
            var blocked := isEnabled && s.splitTunnelBlocked;
            && (reply == Ok <==> !missing && !firewall && !dns && !blocked && env.applies)
            && (reply == Refused(NotAvailable) <==> missing)
            && (reply == Refused(FirewallEnabled) <==> !missing && firewall)
            && (reply == Refused(CustomDns) <==> !missing && !firewall && dns)
            && (reply == Refused(SplitTunnelDisabled) <==> !missing && !firewall && !dns && blocked)
            && (reply == Refused(DeviceError) <==> !missing && !firewall && !dns && !blocked && !env.applies)
  {
  }

  /** A refused pause may have saved or switched off the kill switch, but has paused nothing. */
  lemma PauseReplies(s: State, duration: nat, now: nat, env: PauseEnv)
    ensures var o := Apply(s, OpPause(duration, now, env));
            var switches := s.enabled && !s.prefs.isFwPersistent;
            var starts := s.connection.Some? && duration > 0 && env.statusKnown;
            && (o.reply == Ok <==> starts && (switches ==> !PausedNow(s) && env.call.Works?) && env.vpnWorks)
            && (o.reply == Refused(NotConnected) <==> s.connection.None?)
            && (o.reply == Refused(NoDuration) <==> s.connection.Some? && duration == 0)
            && (o.reply == Refused(WhilePaused) <==> starts && switches && PausedNow(s))
            && (o.reply.Refused? ==> o.reply.error in {NotConnected, NoDuration, WhilePaused, DeviceError})
            && (o.reply.Refused? ==> o.state == s.(savedState := o.state.savedState, enabled := o.state.enabled))
            && o.state.savedState == (if starts then s.enabled else s.savedState)
  {
  }

  lemma ResumeReplies(s: State, env: PauseEnv)
    ensures var o := Apply(s, OpResume(env));
            var paused := s.connection.Some? && s.vpnPaused;
            && (o.reply == Ok <==> paused && env.vpnWorks && (s.prefs.isSplitTunnel ==> env.applies))
            && (o.reply == Refused(NotPaused) <==> !paused)
            && (o.reply.Refused? ==> o.reply.error in {NotPaused, DeviceError})
            && (o.reply == Refused(NotPaused) ==> o.state == s)
            && (paused && !env.vpnWorks ==> o.state == s.(pauseTill := None))
  {
  }

  /** The internal resume, which restores the kill switch if it may. */
  lemma ResumeVpnReplies(s: State, env: PauseEnv)
    ensures var o := Apply(s, OpResumeVpn(env));
            var paused := s.connection.Some? && s.vpnPaused;
            var restores := paused && env.vpnWorks && env.statusKnown && !s.prefs.isFwPersistent
                            && s.enabled != s.savedState && !(s.savedState && InverseOn(s));
            && (o.reply == Ok <==> !paused || env.vpnWorks)
            && (o.reply.Refused? ==> o.reply.error == DeviceError)
            && o.state == s.(pauseTill := None, vpnPaused := s.vpnPaused && !(paused && env.vpnWorks),
                             enabled := o.state.enabled)
            && (!restores ==> o.state.enabled == s.enabled)
            && (restores && env.call.Works? ==> o.state.enabled == s.savedState)
            && (restores && env.call.Fails? ==> LeftBy(env.call, s.savedState, s.enabled, o.state.enabled))
  {
  }

  lemma FirewallReplies(s: State, statusKnown: bool, call: Call)
    ensures var o := Apply(s, OpInitializeFirewall(statusKnown, call));
            var asks := s.connection.Some?
                        && (s.connection.value.firewallOn || s.connection.value.firewallDuringConnection);
            var switches := asks && statusKnown && !s.enabled;
            && (o.reply == Ok <==> s.connection.Some? && (asks ==> statusKnown)
                                   && (switches ==> !PausedNow(s) && !InverseOn(s) && call.Works?))
            && (o.reply == Refused(NotConnected) <==> s.connection.None?)
            && (o.reply == Refused(WhilePaused) <==> switches && PausedNow(s))
            && (o.reply == Refused(InverseSplitTunnelActive) <==> switches && !PausedNow(s) && InverseOn(s))
            && (o.reply.Refused? ==>
                  o.reply.error in {NotConnected, WhilePaused, InverseSplitTunnelActive, DeviceError})
            && (!switches ==> o.state.enabled == s.enabled)
            && (asks && !s.connection.value.firewallOn && statusKnown ==>
                  o.state.connection == Some(s.connection.value.(fwInitState := s.enabled)))
            && (s.connection.Some? && (s.connection.value.firewallOn || !asks || !statusKnown) ==>
                  o.state.connection == s.connection)
  {
  }

  /** The deferred clean-up of connect() switches the firewall off exactly when this connection had switched it on. */
  lemma EndConnectionReplies(s: State, call: Call)
    ensures var o := Apply(s, OpEndConnection(call));
            && (o.reply == Ok <==> s.connection.Some?)
            && (o.reply == Refused(NotConnected) <==> s.connection.None?)
            && (s.connection.Some? ==>
                  var off := s.connection.value.firewallDuringConnection && !s.connection.value.fwInitState
                             && !s.prefs.isFwPersistent && !PausedNow(s);
                  && o.state == s.(connection := None, vpnPaused := false, enabled := o.state.enabled)
                  && (!off ==> o.state.enabled == s.enabled)
                  && (off && call.Works? ==> !o.state.enabled)
                  && (off && call.Fails? ==> LeftBy(call, false, s.enabled, o.state.enabled)))
  {
  }

  /** What else can be refused: a second connection, and a reset that cannot be applied. */
  lemma OtherReplies(s: State, op: Operation)
    requires op.OpResetSplitTunnel? || op.OpBlockSplitTunnel? || op.OpResetPreferences? || op.OpStartConnection?
             || op.OpStartDaemon?
    ensures Apply(s, op).reply.Refused?
            <==> (op.OpResetSplitTunnel? && !op.applies) || (op.OpStartConnection? && s.connection.Some?)
    ensures Apply(s, op).reply.Refused? ==> Apply(s, op).reply.error == DeviceError
    ensures op.OpStartConnection? && s.connection.Some? ==> Apply(s, op).state == s
    ensures op.OpResetSplitTunnel? ==> !InverseOn(Apply(s, op).state)
  {
  }

  /** A start of the daemon keeps the settings alone, and enables a persistent firewall as far as the device does. */
  lemma StartMeans(s: State, call: Call)
    ensures var n := Apply(s, OpStartDaemon(call)).state;
            && n == State(s.platform, s.prefs, n.enabled, None, false, None, false, false)
            && (!s.prefs.isFwPersistent ==> n.enabled == s.enabled)
            && (s.prefs.isFwPersistent && call.Works? ==> n.enabled)
            && (s.prefs.isFwPersistent && call.Fails? ==> LeftBy(call, true, s.enabled, n.enabled))
  {
  }

  /** Operations on request of the user that a guard or a rollback takes back. */
  predicate IsUserSetting(op: Operation) {
    op.OpSetState? || op.OpSetPersistent? || op.OpSplitTunnel?
  }

  /**
    A refused change of a setting changes nothing, unless a device failed; a Split Tunnel configuration is
    rolled back even then, whereas the persistence of the firewall stays stored.
  */
  lemma RefusalMeans(s: State, op: Operation)
    requires IsUserSetting(op) && Apply(s, op).reply.Refused?
    ensures Apply(s, op).reply.error != DeviceError || op.OpSplitTunnel? ==> Apply(s, op).state == s
    ensures Apply(s, op).state.prefs == s.prefs
            <==> !(op.OpSetPersistent? && !IsPaused(s) && !(op.isPersistent && s.prefs.IsInverseSplitTunneling())
                   && op.isPersistent != s.prefs.isFwPersistent)
  {
  }

  // ------------------------------------------------------------------
  // Pause and resume
  // ------------------------------------------------------------------

  /** Operations that neither pause nor resume nor end the connection. */
  predicate KeepsPause(op: Operation) {
    !(op.OpPause? || op.OpResume? || op.OpResumeVpn? || op.OpEndConnection? || op.OpStartDaemon?)
  }

  predicate ChangesKillSwitch(op: Operation) {
    op.OpSetState? || op.OpSetPersistent?
  }

  /** While paused, every change of the kill switch is refused and the saved state is kept. */
  lemma PausedStep(s: State, op: Operation)
    requires IsPaused(s) && KeepsPause(op)
    ensures var o := Apply(s, op);
            && IsPaused(o.state)
            && o.state.enabled == s.enabled
            && o.state.savedState == s.savedState
            && (o.state.prefs.isFwPersistent ==> s.prefs.isFwPersistent)
            && (ChangesKillSwitch(op) ==> o.reply.Refused?)
  {
  }

  lemma {:induction false} PausedRun(s: State, ops: seq<Operation>)
    requires IsPaused(s) && (forall i :: 0 <= i < |ops| ==> KeepsPause(ops[i]))
    ensures var n := Run(s, ops);
            && IsPaused(n)
            && n.enabled == s.enabled
            && n.savedState == s.savedState
            && (n.prefs.isFwPersistent ==> s.prefs.isFwPersistent)
    decreases ops
  {
    if ops != [] {
      PausedStep(s, ops[0]);
      PausedRun(Apply(s, ops[0]).state, ops[1..]);
    }
  }

  /**
    Pausing and then resuming, with anything but another pause between, gives back the kill switch
    unless a non-persistent enabled firewall meets Inverse Split Tunnel at the time of the resume.
  */
  lemma PauseThenResumeRestores(s: State, duration: nat, now: nat, pauseEnv: PauseEnv, ops: seq<Operation>,
                                resumeEnv: PauseEnv)
    requires !IsPaused(s) && Pause(s, duration, now, pauseEnv).reply.Ok?
    requires forall i :: 0 <= i < |ops| ==> KeepsPause(ops[i])
    requires resumeEnv.statusKnown && resumeEnv.call.Works? && resumeEnv.vpnWorks
    ensures var paused := Run(Pause(s, duration, now, pauseEnv).state, ops);
            var n := Resume(paused, resumeEnv).state;
            && !IsPaused(n)
            && (n.enabled == s.enabled
                <==> !(s.enabled && !s.prefs.isFwPersistent && paused.prefs.IsInverseSplitTunneling()))
  {
    PausedRun(Pause(s, duration, now, pauseEnv).state, ops);
  }

  /**
    A second pause overwrites the saved state: whatever happens around it, the resume gives back the kill switch
    of before the first pause unless that pause had switched it off.
  */
  lemma SecondPauseForgets(s: State, d1: nat, t1: nat, env1: PauseEnv, ops1: seq<Operation>,
                           d2: nat, t2: nat, env2: PauseEnv, ops2: seq<Operation>, resumeEnv: PauseEnv)
    requires !IsPaused(s) && Pause(s, d1, t1, env1).reply.Ok?
    requires forall i :: 0 <= i < |ops1| ==> KeepsPause(ops1[i])
    requires Pause(Run(Pause(s, d1, t1, env1).state, ops1), d2, t2, env2).reply.Ok?
    requires forall i :: 0 <= i < |ops2| ==> KeepsPause(ops2[i])
    requires resumeEnv.statusKnown && resumeEnv.call.Works? && resumeEnv.vpnWorks
    ensures var again := Pause(Run(Pause(s, d1, t1, env1).state, ops1), d2, t2, env2).state;
            var n := Resume(Run(again, ops2), resumeEnv).state;
            !IsPaused(n) && (n.enabled == s.enabled <==> !(s.enabled && !s.prefs.isFwPersistent))
  {
    var first := Pause(s, d1, t1, env1).state;
    PausedRun(first, ops1);
    PausedRun(Pause(Run(first, ops1), d2, t2, env2).state, ops2);
  }

  /** A pause behind a pause succeeds with working devices, so this can happen. */
  lemma SecondPauseSucceeds(s: State, duration: nat, now: nat, env: PauseEnv)
    requires IsPaused(s) && duration > 0 && env.statusKnown && env.vpnWorks
    ensures Pause(s, duration, now, env).reply.Ok? <==> !s.enabled || s.prefs.isFwPersistent
  {
  }

  /** A refused pause changes the kill switch exactly when it had already switched it off. */
  lemma RefusedPauseKeepsKillSwitch(s: State, duration: nat, now: nat, env: PauseEnv)
    requires Pause(s, duration, now, env).reply.Refused? && !IsPaused(s)
    ensures Pause(s, duration, now, env).state.enabled == s.enabled <==>
            !(s.connection.Some? && duration > 0 && env.statusKnown && s.enabled && !s.prefs.isFwPersistent
              && env.call != Fails(true))
  {
  }

  // ------------------------------------------------------------------
  // The firewall of a connection
  // ------------------------------------------------------------------

  /** Where connect() leaves: before its firewall phase, in it, or after it. */
  datatype Exit = BeforeFirewall | AtFirewall(statusKnown: bool, call: Call) | AfterFirewall

  /** One undisturbed run of connect(), up to the given exit. */
  function Connect(s: State, firewallOn: bool, firewallDuringConnection: bool, exit: Exit, cleanup: Call): State {
    var started := StartConnection(s, firewallOn, firewallDuringConnection).state;
    var ready := match exit
                 case BeforeFirewall => started
                 case AtFirewall(statusKnown, call) => InitializeFirewall(started, statusKnown, call).state
                 case AfterFirewall => InitializeFirewall(started, true, Works).state;
    EndConnection(ready, cleanup).state
  }

  /** The firewall phase learned the state of the firewall for this connection. */
  predicate InitialStateRead(firewallOn: bool, exit: Exit) {
    !firewallOn && (exit.AfterFirewall? || (exit.AtFirewall? && exit.statusKnown))
  }

  /**
    A connection that asks for the firewall only during the connection leaves it as it found it, unless
    it found it enabled and ended before its firewall phase had read that state (or never reads it
    because the firewall was also asked for permanently).
  */
  lemma ConnectRestoresFirewall(s: State, firewallOn: bool, exit: Exit)
    requires s.connection.None? && !s.prefs.isFwPersistent && !s.prefs.IsInverseSplitTunneling()
    ensures Connect(s, firewallOn, true, exit, Works).enabled == s.enabled
            <==> (s.enabled ==> InitialStateRead(firewallOn, exit))
  {
  }

  /** Inverse Split Tunnel keeps every connection away from the firewall. */
  lemma InverseConnectionLeavesFirewall(s: State, firewallOn: bool, during: bool, exit: Exit, cleanup: Call)
    requires s.connection.None? && s.prefs.IsInverseSplitTunneling()
    ensures Connect(s, firewallOn, during, exit, cleanup).enabled == s.enabled
  {
  }
}
