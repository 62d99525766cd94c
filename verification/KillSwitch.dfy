/**
  The kill switch (the IVPN firewall) and the features of the service that compete for it: the
  persistent firewall, Inverse Split Tunnel, pause and resume, and the firewall of a connection.

  Calls into the operating system are outcomes chosen by the environment.  An operation maps a
  state to the next state and the reply its caller gets.
*/
module KillSwitch {
  import opened Wrappers

  datatype Platform = Unix | Windows

  datatype Prefs = Prefs(
    isFwPersistent: bool,
    isSplitTunnel: bool,
    splitTunnelInversed: bool,
    splitTunnelAnyDns: bool,
    splitTunnelAllowWhenNoVpn: bool)
  {
    predicate IsInverseSplitTunneling() {
      isSplitTunnel && splitTunnelInversed
    }
  }

  const DEFAULT_PREFS := Prefs(false, false, false, false, false)

  /** One run of connect(): its parameters, and what it remembers of the firewall. */
  datatype Connection = Connection(firewallOn: bool, firewallDuringConnection: bool, fwInitState: bool)

  datatype State = State(
    platform: Platform,
    prefs: Prefs,
    enabled: bool,                // the real state of the firewall
    connection: Option<Connection>, // Some while a VPN object exists
    vpnPaused: bool,              // what the VPN object answers
    pauseTill: Option<nat>,
    savedState: bool,             // the kill switch before the pause
    splitTunnelBlocked: bool)     // another application disabled Split Tunnel

  /** A call that changes the firewall works, or fails and leaves it on or off. */
  datatype Call = Works | Fails(leavesOn: bool)

  datatype Error =
    | PersistentFirewall | WhilePaused | InverseSplitTunnelActive | FirewallEnabled | CustomDns
    | NotAvailable | SplitTunnelDisabled | NotConnected | NotPaused | NoDuration | DeviceError

  datatype Reply = Ok | Refused(error: Error)

  datatype Outcome = Outcome(state: State, reply: Reply)

  predicate IsPaused(s: State) {
    s.connection.Some? && s.vpnPaused && s.pauseTill.Some?
  }

  /** firewall.SetEnabled: a failed disabling never switches the firewall on. */
  function DeviceSetEnabled(enabled: bool, isEnable: bool, call: Call): bool {
    match call
    case Works => isEnable
    case Fails(leavesOn) => if isEnable then leavesOn else enabled && leavesOn
  }

  /** firewall.SetPersistant: on Windows it enables a disabled firewall whatever its argument is. */
  function DeviceSetPersistent(platform: Platform, enabled: bool, isPersistent: bool, call: Call): bool {
    if platform.Unix? && !isPersistent then enabled
    else DeviceSetEnabled(enabled, true, call)
  }

  function ReplyOf(call: Call): Reply {
    if call.Works? then Ok else Refused(DeviceError)
  }

  function SetKillSwitchState(s: State, isEnabled: bool, call: Call): Outcome {
    if !isEnabled && s.prefs.isFwPersistent then Outcome(s, Refused(PersistentFirewall))
    else if IsPaused(s) then Outcome(s, Refused(WhilePaused))
    else if isEnabled && s.prefs.IsInverseSplitTunneling() then Outcome(s, Refused(InverseSplitTunnelActive))
    else Outcome(s.(enabled := DeviceSetEnabled(s.enabled, isEnabled, call)), ReplyOf(call))
  }

  function SetKillSwitchIsPersistent(s: State, isPersistent: bool, call: Call): Outcome {
    if IsPaused(s) then Outcome(s, Refused(WhilePaused))
    else if isPersistent && s.prefs.IsInverseSplitTunneling() then Outcome(s, Refused(InverseSplitTunnelActive))
    else
      Outcome(s.(prefs := s.prefs.(isFwPersistent := isPersistent),
                 enabled := DeviceSetPersistent(s.platform, s.enabled, isPersistent, call)),
              if s.platform.Unix? && !isPersistent then Ok else ReplyOf(call))
  }

  // ------------------------------------------------------------------
  // Split Tunnel
  // ------------------------------------------------------------------

  /** The environment of a Split Tunnel configuration. */
  datatype SplitTunnelEnv = SplitTunnelEnv(
    available: bool,         // Split Tunnel works on this system
    inverseAvailable: bool,  // so does its inverse mode
    statusKnown: bool,       // the firewall answers whether it is enabled
    customDns: bool,         // AntiTracker or a manual DNS is configured
    applies: bool)           // the driver or script accepts the new configuration

  /** What an unanswered question about the firewall is taken for. */
  function EnabledAsRead(s: State, statusKnown: bool): bool {
    statusKnown && s.enabled
  }

  function WithSplitTunnel(p: Prefs, isEnabled: bool, isInversed: bool, isAnyDns: bool, isAllowWhenNoVpn: bool): Prefs {
    p.(isSplitTunnel := isEnabled, splitTunnelInversed := isInversed, splitTunnelAnyDns := isAnyDns,
       splitTunnelAllowWhenNoVpn := isAllowWhenNoVpn)
  }

  /** Why a configuration is refused before anything is changed. */
  function SplitTunnelObjection(s: State, isEnabled: bool, isInversed: bool, isAnyDns: bool, env: SplitTunnelEnv)
    : Option<Error>
  {
    if !env.available || (isInversed && !env.inverseAvailable) then Some(NotAvailable)
    else if isEnabled && isInversed && EnabledAsRead(s, env.statusKnown) then Some(FirewallEnabled)
    else if isEnabled && isInversed && isAnyDns && env.customDns then Some(CustomDns)
    else if isEnabled && s.splitTunnelBlocked then Some(SplitTunnelDisabled)
    else None
  }

  /** A configuration that the device does not accept is rolled back. */
  function SetSplitTunnelConfig(s: State, isEnabled: bool, isInversed: bool, isAnyDns: bool, isAllowWhenNoVpn: bool,
                                env: SplitTunnelEnv): Outcome {
    var objection := SplitTunnelObjection(s, isEnabled, isInversed, isAnyDns, env);
    if objection.Some? then Outcome(s, Refused(objection.value))
    else if !env.applies then Outcome(s, Refused(DeviceError))
    else Outcome(s.(prefs := WithSplitTunnel(s.prefs, isEnabled, isInversed, isAnyDns, isAllowWhenNoVpn)), Ok)
  }

  function ResetSplitTunnel(s: State, applies: bool): Outcome {
    Outcome(s.(prefs := WithSplitTunnel(s.prefs, false, false, false, false)),
            if applies then Ok else Refused(DeviceError))
  }

  function ResetPreferences(s: State): Outcome {
    Outcome(s.(prefs := DEFAULT_PREFS), Ok)
  }

  // ------------------------------------------------------------------
  // Pause and resume
  // ------------------------------------------------------------------

  /** The environment of a pause or a resume. */
  datatype PauseEnv = PauseEnv(
    statusKnown: bool, // the firewall answers whether it is enabled
    call: Call,        // the change of the kill switch
    vpnWorks: bool,    // the VPN object pauses or resumes
    applies: bool)     // Split Tunnel accepts its configuration

  function Pause(s: State, duration: nat, now: nat, env: PauseEnv): Outcome {
    if s.connection.None? then Outcome(s, Refused(NotConnected))
    else if duration == 0 then Outcome(s, Refused(NoDuration))
    else if !env.statusKnown then Outcome(s, Refused(DeviceError))
    else
      var saved := s.(savedState := s.enabled);
      var off := if s.enabled && !s.prefs.isFwPersistent then SetKillSwitchState(saved, false, env.call)
                 else Outcome(saved, Ok);
      if off.reply.Refused? then off
      else if !env.vpnWorks then Outcome(off.state, Refused(DeviceError))
      else Outcome(off.state.(vpnPaused := true, pauseTill := Some(now + duration)), Ok)
  }

  /** The part of Resume that Disconnect uses too. */
  function ResumeVpn(s: State, env: PauseEnv): Outcome {
    var awake := s.(pauseTill := None);
    if s.connection.None? || !s.vpnPaused then Outcome(awake, Ok)
    else if !env.vpnWorks then Outcome(awake, Refused(DeviceError))
    else
      var running := awake.(vpnPaused := false);
      if env.statusKnown && !s.prefs.isFwPersistent && s.enabled != s.savedState then
        Outcome(SetKillSwitchState(running, s.savedState, env.call).state, Ok)
      else Outcome(running, Ok)
  }

  function Resume(s: State, env: PauseEnv): Outcome {
    if s.connection.None? || !s.vpnPaused then Outcome(s, Refused(NotPaused))
    else
      var o := ResumeVpn(s, env);
      if o.reply.Ok? && s.prefs.isSplitTunnel && !env.applies then Outcome(o.state, Refused(DeviceError)) else o
  }

  // ------------------------------------------------------------------
  // The firewall of a connection
  // ------------------------------------------------------------------

  /** Start of connect(): Inverse Split Tunnel masks both firewall parameters. */
  function StartConnection(s: State, firewallOn: bool, firewallDuringConnection: bool): Outcome {
    if s.connection.Some? then Outcome(s, Refused(DeviceError))
    else
      var inverse := s.prefs.IsInverseSplitTunneling();
      Outcome(s.(connection := Some(Connection(firewallOn && !inverse, firewallDuringConnection && !inverse, false)),
                 vpnPaused := false), Ok)
  }

  /** The firewall phase of connect(); a refusal makes connect() return. */
  function InitializeFirewall(s: State, statusKnown: bool, call: Call): Outcome {
    if s.connection.None? then Outcome(s, Refused(NotConnected))
    else
      var c := s.connection.value;
      if !c.firewallOn && !c.firewallDuringConnection then Outcome(s, Ok)
      else if !statusKnown then Outcome(s, Refused(DeviceError))
      else
        var checked := if c.firewallOn then s else s.(connection := Some(c.(fwInitState := s.enabled)));
        if s.enabled then Outcome(checked, Ok) else SetKillSwitchState(checked, true, call)
  }

  /** The deferred clean-up of connect(). */
  function EndConnection(s: State, call: Call): Outcome {
    if s.connection.None? then Outcome(s, Refused(NotConnected))
    else
      var c := s.connection.value;
      var restored := if c.firewallDuringConnection && !c.fwInitState then SetKillSwitchState(s, false, call).state
                      else s;
      Outcome(restored.(connection := None, vpnPaused := false), Ok)
  }

  /** A start of the daemon: no connection; a persistent firewall is enabled without any further check. */
  function StartDaemon(s: State, call: Call): Outcome {
    var booted := s.(connection := None, vpnPaused := false, pauseTill := None, savedState := false,
                    splitTunnelBlocked := false);
    if s.prefs.isFwPersistent then
      Outcome(booted.(enabled := DeviceSetPersistent(s.platform, s.enabled, true, call)), Ok)
    else Outcome(booted, Ok)
  }

  // ------------------------------------------------------------------
  // Runs
  // ------------------------------------------------------------------

  /** The operations of the service, with the choices of their environment. */
  datatype Operation =
    | OpSetState(isEnabled: bool, call: Call) // also the firewall actions of the Trusted-WiFi feature
    | OpSetPersistent(isPersistent: bool, call: Call)
    | OpSplitTunnel(isEnabled: bool, isInversed: bool, isAnyDns: bool, isAllowWhenNoVpn: bool, env: SplitTunnelEnv)
    | OpResetSplitTunnel(applies: bool)
    | OpBlockSplitTunnel(blocked: bool)
    | OpResetPreferences
    | OpPause(duration: nat, now: nat, pauseEnv: PauseEnv)
    | OpResume(pauseEnv: PauseEnv)
    | OpResumeVpn(pauseEnv: PauseEnv) // first half of Disconnect
    | OpStartConnection(firewallOn: bool, firewallDuringConnection: bool)
    | OpInitializeFirewall(statusKnown: bool, call: Call)
    | OpEndConnection(call: Call)
    | OpStartDaemon(call: Call)

  function Apply(s: State, op: Operation): Outcome {
    match op
    case OpSetState(isEnabled, call) => SetKillSwitchState(s, isEnabled, call)
    case OpSetPersistent(isPersistent, call) => SetKillSwitchIsPersistent(s, isPersistent, call)
    case OpSplitTunnel(isEnabled, isInversed, isAnyDns, isAllowWhenNoVpn, env) =>
      SetSplitTunnelConfig(s, isEnabled, isInversed, isAnyDns, isAllowWhenNoVpn, env)
    case OpResetSplitTunnel(applies) => ResetSplitTunnel(s, applies)
    case OpBlockSplitTunnel(blocked) => Outcome(s.(splitTunnelBlocked := blocked), Ok)
    case OpResetPreferences => ResetPreferences(s)
    case OpPause(duration, now, env) => Pause(s, duration, now, env)
    case OpResume(env) => Resume(s, env)
    case OpResumeVpn(env) => ResumeVpn(s, env)
    case OpStartConnection(on, during) => StartConnection(s, on, during)
    case OpInitializeFirewall(statusKnown, call) => InitializeFirewall(s, statusKnown, call)
    case OpEndConnection(call) => EndConnection(s, call)
    case OpStartDaemon(call) => StartDaemon(s, call)
  }

  function Run(s: State, ops: seq<Operation>): State
    decreases ops
  {
    if ops == [] then s
    else Run(Apply(s, ops[0]).state, ops[1..])
  }
}
