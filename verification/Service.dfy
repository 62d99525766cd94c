/** The service object: the methods that change the kill switch, its settings and the pause. */
module Service {
  import opened Wrappers
  import KS = KillSwitch
  import Runs = KillSwitchRuns

  class Service {
    const platform: KS.Platform
    var preferences: KS.Prefs
    var firewallEnabled: bool // state of the device
    var connection: Option<KS.Connection>
    var vpnPaused: bool
    var pauseTill: Option<nat>
    var pauseKillSwitchState: bool
    var splitTunnelBlocked: bool

    function Snapshot(): KS.State
      reads this
    {
      KS.State(platform, preferences, firewallEnabled, connection, vpnPaused, pauseTill, pauseKillSwitchState,
               splitTunnelBlocked)
    }

    constructor (platform: KS.Platform, preferences: KS.Prefs, firewallEnabled: bool)
      ensures Snapshot() == KS.State(platform, preferences, firewallEnabled, None, false, None, false, false)
    {
      this.platform, this.preferences, this.firewallEnabled := platform, preferences, firewallEnabled;
      connection, vpnPaused, pauseTill := None, false, None;
      pauseKillSwitchState, splitTunnelBlocked := false, false;
    }

    /** The interlock of the firewall and Inverse Split Tunnel, and the operations that break it. */
    predicate Exclusive()
      reads this
    {
      Runs.Exclusive(Snapshot())
    }

    predicate Gap(op: KS.Operation)
      reads this
    {
      Runs.Gap(Snapshot(), op)
    }

    lemma Interlock(op: KS.Operation)
      requires Exclusive()
      ensures Runs.Exclusive(KS.Apply(Snapshot(), op).state) <==> !Gap(op)
    {
      Runs.ExclusiveUnlessGap(Snapshot(), op);
    }

    predicate IsPaused()
      reads this
    {
      connection.Some? && vpnPaused && pauseTill.Some?
    }

    /** The call into the operating system that switches the firewall. */
    method DeviceSetEnabled(isEnable: bool, call: KS.Call) returns (reply: KS.Reply)
      modifies this`firewallEnabled
      ensures firewallEnabled == KS.DeviceSetEnabled(old(firewallEnabled), isEnable, call)
      ensures reply == KS.ReplyOf(call)
    {
      match call {
        case Works =>
          firewallEnabled, reply := isEnable, KS.Ok;
        case Fails(leavesOn) =>
          firewallEnabled := leavesOn && (isEnable || firewallEnabled);
          reply := KS.Refused(KS.DeviceError);
      }
    }

    method SetKillSwitchState(isEnabled: bool, call: KS.Call) returns (reply: KS.Reply)
      modifies this`firewallEnabled
      ensures KS.Outcome(Snapshot(), reply) == KS.SetKillSwitchState(old(Snapshot()), isEnabled, call)
      ensures old(Exclusive()) ==> Exclusive()
      ensures var before := old(Snapshot());
              reply == KS.Ok
              <==> call.Works? && !(before.connection.Some? && before.vpnPaused && before.pauseTill.Some?)
                   && (if isEnabled then !(before.prefs.isSplitTunnel && before.prefs.splitTunnelInversed)
                       else !before.prefs.isFwPersistent)
      ensures reply == KS.Ok ==> firewallEnabled == isEnabled
    {
      if Exclusive() {
        Interlock(KS.OpSetState(isEnabled, call));
      }
      Runs.SetStateReplies(Snapshot(), isEnabled, call);
      if !isEnabled && preferences.isFwPersistent {
        return KS.Refused(KS.PersistentFirewall);
      }
      if IsPaused() {
        return KS.Refused(KS.WhilePaused);
      }
      if isEnabled && preferences.IsInverseSplitTunneling() {
        return KS.Refused(KS.InverseSplitTunnelActive);
      }
      reply := DeviceSetEnabled(isEnabled, call);
    }

    method SetKillSwitchIsPersistent(isPersistent: bool, call: KS.Call) returns (reply: KS.Reply)
      modifies this`firewallEnabled, this`preferences
      ensures KS.Outcome(Snapshot(), reply) == KS.SetKillSwitchIsPersistent(old(Snapshot()), isPersistent, call)
      ensures old(Exclusive()) ==> (Exclusive() <==> !old(Gap(KS.OpSetPersistent(isPersistent, call))))
    {
      if Exclusive() {
        Interlock(KS.OpSetPersistent(isPersistent, call));
      }
      if IsPaused() {
        return KS.Refused(KS.WhilePaused);
      }
      if isPersistent && preferences.IsInverseSplitTunneling() {
        return KS.Refused(KS.InverseSplitTunnelActive);
      }
      preferences := preferences.(isFwPersistent := isPersistent);
      reply := DeviceSetPersistent(isPersistent, call);
    }

    /** On Windows the firewall is (re-)enabled in both directions of the switch. */
    method DeviceSetPersistent(isPersistent: bool, call: KS.Call) returns (reply: KS.Reply)
      modifies this`firewallEnabled
      ensures firewallEnabled == KS.DeviceSetPersistent(platform, old(firewallEnabled), isPersistent, call)
      ensures reply == if platform.Unix? && !isPersistent then KS.Ok else KS.ReplyOf(call)
    {
      if platform.Unix? && !isPersistent {
        reply := KS.Ok;
      } else {
        reply := DeviceSetEnabled(true, call);
      }
    }

    /** Saves the new configuration, applies it, and restores the old one when it is not accepted. */
    method SplitTunnellingSetConfig(isEnabled: bool, isInversed: bool, isAnyDns: bool, isAllowWhenNoVpn: bool,
                                    env: KS.SplitTunnelEnv) returns (reply: KS.Reply)
      modifies this`preferences
      ensures KS.Outcome(Snapshot(), reply)
           == KS.SetSplitTunnelConfig(old(Snapshot()), isEnabled, isInversed, isAnyDns, isAllowWhenNoVpn, env)
      ensures old(Exclusive()) ==>
                (Exclusive()
                 <==> !old(Gap(KS.OpSplitTunnel(isEnabled, isInversed, isAnyDns, isAllowWhenNoVpn, env))))
    {
      if Exclusive() {
        Interlock(KS.OpSplitTunnel(isEnabled, isInversed, isAnyDns, isAllowWhenNoVpn, env));
      }
      if !env.available || (isInversed && !env.inverseAvailable) {
        return KS.Refused(KS.NotAvailable);
      }
      if isEnabled && isInversed {
        // an unanswered question reads as "disabled"
        var enabled := env.statusKnown && firewallEnabled;
        if enabled {
          return KS.Refused(KS.FirewallEnabled);
        }
        if isAnyDns && env.customDns {
          return KS.Refused(KS.CustomDns);
        }
      }
      if isEnabled && splitTunnelBlocked {
        return KS.Refused(KS.SplitTunnelDisabled);
      }
      var prefsOld := preferences;
      preferences := preferences.(isSplitTunnel := isEnabled, splitTunnelInversed := isInversed,
                                  splitTunnelAnyDns := isAnyDns, splitTunnelAllowWhenNoVpn := isAllowWhenNoVpn);
      if env.applies {
        return KS.Ok;
      }
      preferences := prefsOld;
      return KS.Refused(KS.DeviceError);
    }

    method SplitTunnellingReset(applies: bool) returns (reply: KS.Reply)
      modifies this`preferences
      ensures KS.Outcome(Snapshot(), reply) == KS.ResetSplitTunnel(old(Snapshot()), applies)
      ensures old(Exclusive()) ==> Exclusive()
    {
      if Exclusive() {
        Interlock(KS.OpResetSplitTunnel(applies));
      }
      preferences := preferences.(isSplitTunnel := false, splitTunnelInversed := false, splitTunnelAnyDns := false,
                                  splitTunnelAllowWhenNoVpn := false);
      reply := if applies then KS.Ok else KS.Refused(KS.DeviceError);
    }

    /** Default settings, then a Split Tunnel reset whose result is ignored. */
    method ResetPreferences(applies: bool)
      modifies this`preferences
      ensures Snapshot() == KS.ResetPreferences(old(Snapshot())).state
      ensures old(Exclusive()) ==> Exclusive()
    {
      if Exclusive() {
        Interlock(KS.OpResetPreferences);
      }
      preferences := KS.DEFAULT_PREFS;
      var ignored := SplitTunnellingReset(applies);
    }

    method Pause(duration: nat, now: nat, env: KS.PauseEnv) returns (reply: KS.Reply)
      modifies this`firewallEnabled, this`vpnPaused, this`pauseTill, this`pauseKillSwitchState
      ensures KS.Outcome(Snapshot(), reply) == KS.Pause(old(Snapshot()), duration, now, env)
      ensures old(Exclusive()) ==> Exclusive()
    {
      if Exclusive() {
        Interlock(KS.OpPause(duration, now, env));
      }
      if connection.None? {
        return KS.Refused(KS.NotConnected);
      }
      if duration == 0 {
        return KS.Refused(KS.NoDuration);
      }
      if !env.statusKnown {
        return KS.Refused(KS.DeviceError);
      }
      pauseKillSwitchState := firewallEnabled;
      if firewallEnabled && !preferences.isFwPersistent {
        reply := SetKillSwitchState(false, env.call);
        if reply.Refused? {
          return;
        }
      }
      if !env.vpnWorks {
        return KS.Refused(KS.DeviceError);
      }
      vpnPaused, pauseTill := true, Some(now + duration);
      return KS.Ok;
    }

    /** The internal resume: restores the kill switch that was saved by the pause. */
    method ResumeVpn(env: KS.PauseEnv) returns (reply: KS.Reply)
      modifies this`firewallEnabled, this`vpnPaused, this`pauseTill
      ensures KS.Outcome(Snapshot(), reply) == KS.ResumeVpn(old(Snapshot()), env)
      ensures old(Exclusive()) ==> Exclusive()
    {
      if Exclusive() {
        Interlock(KS.OpResumeVpn(env));
      }
      pauseTill := None;
      if connection.None? || !vpnPaused {
        return KS.Ok;
      }
      if !env.vpnWorks {
        return KS.Refused(KS.DeviceError);
      }
      vpnPaused := false;
      if env.statusKnown && !preferences.isFwPersistent && firewallEnabled != pauseKillSwitchState {
        var ignored := SetKillSwitchState(pauseKillSwitchState, env.call);
      }
      return KS.Ok;
    }

    method Resume(env: KS.PauseEnv) returns (reply: KS.Reply)
      modifies this`firewallEnabled, this`vpnPaused, this`pauseTill
      ensures KS.Outcome(Snapshot(), reply) == KS.Resume(old(Snapshot()), env)
      ensures old(Exclusive()) ==> Exclusive()
    {
      if Exclusive() {
        Interlock(KS.OpResume(env));
      }
      if connection.None? || !vpnPaused {
        return KS.Refused(KS.NotPaused);
      }
      reply := ResumeVpn(env);
      if reply.Ok? && preferences.isSplitTunnel && !env.applies {
        reply := KS.Refused(KS.DeviceError);
      }
    }

    /**
      One run of connect(), without other operations between its start and its end: the firewall
      phase, and the deferred clean-up that every exit passes.
    */
    method Connect(firewallOn: bool, firewallDuringConnection: bool, exit: Runs.Exit, cleanup: KS.Call)
      requires connection.None?
      modifies this`firewallEnabled, this`connection, this`vpnPaused
      ensures Snapshot() == Runs.Connect(old(Snapshot()), firewallOn, firewallDuringConnection, exit, cleanup)
      ensures old(Exclusive()) ==> Exclusive()
    {
      BeginConnection(firewallOn, firewallDuringConnection);
      match exit {
        case BeforeFirewall =>
        case AtFirewall(statusKnown, call) =>
          var ignored := InitializeFirewall(statusKnown, call);
        case AfterFirewall =>
          var ignored := InitializeFirewall(true, KS.Works);
      }
      CleanUp(cleanup);
    }

    /** Inverse Split Tunnel masks both firewall parameters of a connection. */
    method BeginConnection(firewallOn: bool, firewallDuringConnection: bool)
      requires connection.None?
      modifies this`connection, this`vpnPaused
      ensures Snapshot() == KS.StartConnection(old(Snapshot()), firewallOn, firewallDuringConnection).state
      ensures connection.Some?
      ensures old(Exclusive()) ==> Exclusive()
    {
      if Exclusive() {
        Interlock(KS.OpStartConnection(firewallOn, firewallDuringConnection));
      }
      var isInverseSplitTun := preferences.IsInverseSplitTunneling();
      connection := Some(KS.Connection(firewallOn && !isInverseSplitTun,
                                       firewallDuringConnection && !isInverseSplitTun, false));
      vpnPaused := false;
    }

    method InitializeFirewall(statusKnown: bool, call: KS.Call) returns (reply: KS.Reply)
      requires connection.Some?
      modifies this`firewallEnabled, this`connection
      ensures KS.Outcome(Snapshot(), reply) == KS.InitializeFirewall(old(Snapshot()), statusKnown, call)
      ensures connection.Some?
      ensures old(Exclusive()) ==> Exclusive()
    {
      if Exclusive() {
        Interlock(KS.OpInitializeFirewall(statusKnown, call));
      }
      reply := KS.Ok;
      if connection.value.firewallOn {
        if !statusKnown {
          return KS.Refused(KS.DeviceError);
        }
        if !firewallEnabled {
          reply := SetKillSwitchState(true, call);
        }
      } else if connection.value.firewallDuringConnection {
        if !statusKnown {
          return KS.Refused(KS.DeviceError);
        }
        connection := Some(connection.value.(fwInitState := firewallEnabled));
        if !firewallEnabled {
          reply := SetKillSwitchState(true, call);
        }
      }
    }

    method CleanUp(call: KS.Call)
      requires connection.Some?
      modifies this`firewallEnabled, this`connection, this`vpnPaused
      ensures Snapshot() == KS.EndConnection(old(Snapshot()), call).state
      ensures old(Exclusive()) ==> Exclusive()
    {
      if Exclusive() {
        Interlock(KS.OpEndConnection(call));
      }
      if connection.value.firewallDuringConnection && !connection.value.fwInitState {
        var ignored := SetKillSwitchState(false, call);
      }
      connection, vpnPaused := None, false;
    }
  }
}
