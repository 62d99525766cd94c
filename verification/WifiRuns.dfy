/** What every sequence of network, settings and client events guarantees about LAN access. */
module WifiRuns {
  import opened Wrappers
  import opened WifiActions

  /** The first entry of the name is the `i`th. */
  predicate IsFirst(networks: seq<WifiNetwork>, ssid: string, i: nat) {
    i < |networks| && networks[i].ssid == ssid && forall j :: 0 <= j < i ==> networks[j].ssid != ssid
  }

  /**
    WiFi actions apply, and the network has this trust: by the first entry of its name, or by default when there
    is no entry.
  */
  ghost predicate Trusts(s: State, wifi: WifiInfo, trusted: bool) {
    var networks := s.wifiControl.networks;
    && (s.wifiControl.canApplyInBackground || s.mainClientConnected)
    && s.wifiControl.trustedNetworksControl && wifi.ssid != ""
    && ((exists i: nat :: IsFirst(networks, wifi.ssid, i) && networks[i].isTrusted == trusted)
        || ((forall j :: 0 <= j < |networks| ==> networks[j].ssid != wifi.ssid)
            && s.wifiControl.defaultTrustStatusTrusted == Some(trusted)))
  }

  /** The settings ask for blocked LAN on the network, and somebody may act on that. */
  ghost predicate AsksToBlock(s: State, wifi: WifiInfo) {
    && s.isLoggedIn && (s.eaaEnabled ==> s.mainClientConnected)
    && Trusts(s, wifi, false) && s.wifiControl.actions.unTrustedBlockLan
  }

  lemma {:induction false} FirstTrustMeans(networks: seq<WifiNetwork>, ssid: string)
    ensures match FirstTrust(networks, ssid)
            case Some(trust) => exists i: nat :: IsFirst(networks, ssid, i) && networks[i].isTrusted == trust
            case None => forall j :: 0 <= j < |networks| ==> networks[j].ssid != ssid
  {
    if networks != [] {
      if networks[0].ssid == ssid {
        assert IsFirst(networks, ssid, 0);
      } else {
        var rest := networks[1..];
        FirstTrustMeans(rest, ssid);
        if i: nat :| IsFirst(rest, ssid, i) {
          assert IsFirst(networks, ssid, i + 1);
        }
        assert forall j :: 0 <= j < |rest| ==> networks[j + 1] == rest[j];
      }
    }
  }

  lemma FirstIsUnique(networks: seq<WifiNetwork>, ssid: string)
    ensures forall i: nat, j: nat :: IsFirst(networks, ssid, i) && IsFirst(networks, ssid, j) ==> i == j
  {
  }

  lemma TrustMeans(s: State, wifi: WifiInfo)
    ensures var known := FirstTrust(s.wifiControl.networks, wifi.ssid);
            var trust := if known.Some? then known else s.wifiControl.defaultTrustStatusTrusted;
            forall trusted :: Trusts(s, wifi, trusted)
                              <==> CanApplyWifiActions(s) && s.wifiControl.trustedNetworksControl && wifi.ssid != ""
                                   && trust == Some(trusted)
  {
    FirstTrustMeans(s.wifiControl.networks, wifi.ssid);
    FirstIsUnique(s.wifiControl.networks, wifi.ssid);
  }

  /** What the firewall is asked for, from the settings alone. */
  lemma BlocksLanMeans(s: State, wifi: WifiInfo)
    ensures BlocksLan(s, wifi) <==> AsksToBlock(s, wifi)
  {
    TrustMeans(s, wifi);
  }

  /** LAN traffic passes exactly when it is allowed and the settings do not ask for blocking it on the network. */
  ghost predicate LanAsWanted(s: State) {
    s.lanAllowed == (s.isFwAllowLan && !AsksToBlock(s, s.wifi))
  }

  /** The same, in terms of the action of the network. */
  predicate LanFollows(s: State) {
    s.lanAllowed == (s.isFwAllowLan && !BlocksLan(s, s.wifi))
  }

  /** Logged in, background actions allowed, and the current network with the current settings is processed. */
  predicate Synchronised(s: State) {
    s.isLoggedIn && CanDoBackgroundAction(s) && s.lastProcessed == Processed(s.wifi, s.wifiControl)
  }

  lemma BlockingNeedsSettings(s: State, wifi: WifiInfo)
    ensures BlocksLan(s, wifi) ==> SettingsBlockLan(s.wifiControl)
  {
  }

  /** The daemon starts with LAN access set from the settings; its first check takes the network into account. */
  lemma StartFollows(s: State, paramsValid: bool)
    requires s.isLoggedIn && CanDoBackgroundAction(s) && s.lanAllowed == s.isFwAllowLan
    ensures var n := Step(s, DaemonStarted(paramsValid)).state; Synchronised(n) && LanFollows(n)
  {
    BlockingNeedsSettings(s, s.wifi);
  }

  /** What the firewall did before is the setting, unless the processed settings block LAN. */
  predicate LanFromProcessed(s: State) {
    && (s.lanAllowed ==> s.isFwAllowLan)
    && (s.isFwAllowLan && !SettingsBlockLan(s.lastProcessed.params) ==> s.lanAllowed)
  }

  /** A combined action blocks LAN exactly when an unprocessed network asks for it. */
  lemma DecidedFirewall(s: State, reason: Reason, wifi: WifiInfo, alreadyProcessed: bool)
    ensures Decide(s, reason, wifi, alreadyProcessed).firewall
         == if alreadyProcessed then FwNoAction else ActionFor(s, wifi).firewall
  {
  }

  /** The check is skipped as a duplicate. */
  predicate IsDuplicate(s: State, reason: Reason) {
    s.lastProcessed == Processed(s.wifi, s.wifiControl) && reason.OnWifiChanged?
  }

  /** A check that is not skipped gives LAN access as if it were applied from scratch. */
  lemma CheckAppliesLan(s: State, reason: Reason, paramsValid: bool)
    requires s.isLoggedIn && CanDoBackgroundAction(s) && LanFromProcessed(s) && !IsDuplicate(s, reason)
    ensures AutoConnect(s, reason, s.wifi, paramsValid).state
            == ApplyAllowLan(s.(lastProcessed := Processed(s.wifi, s.wifiControl)), s.wifi)
  {
    var noted := s.(lastProcessed := Processed(s.wifi, s.wifiControl));
    DecidedFirewall(noted, reason, s.wifi, s.lastProcessed == noted.lastProcessed);
    BlockingNeedsSettings(noted, s.wifi);
  }

  /** One check brings LAN access up to date, unless it is skipped as a duplicate. */
  lemma CheckFollows(s: State, reason: Reason, paramsValid: bool)
    requires s.isLoggedIn && CanDoBackgroundAction(s) && LanFromProcessed(s)
    requires IsDuplicate(s, reason) ==> LanFollows(s)
    ensures var n := AutoConnect(s, reason, s.wifi, paramsValid).state; Synchronised(n) && LanFollows(n)
  {
    if !IsDuplicate(s, reason) {
      CheckAppliesLan(s, reason, paramsValid);
    }
  }

  /** A check that is not permitted, or a duplicate, changes nothing. */
  lemma SkippedCheckChangesNothing(s: State, reason: Reason, valid: bool)
    requires !CanDoBackgroundAction(s) || IsDuplicate(s, reason)
    ensures AutoConnect(s, reason, s.wifi, valid).state == s
  {
  }

  lemma OldSettingsChangeNothing(s: State, params: WifiParams, valid: bool)
    requires Synchronised(s) && !BringsUpToDate(s, WifiSettings(params, valid))
    ensures Step(s, WifiSettings(params, valid)).state == s
  {
    var saved := s.(wifiControl := params.(networks := WithoutDuplicates(params.networks)));
    if params.canApplyInBackground ==> s.hasConnectionParams {
      assert saved == s;
      SkippedCheckChangesNothing(s, OnWifiChanged, valid);
    }
  }

  lemma OldNetworkChangesNothing(s: State, info: WifiInfo, valid: bool)
    requires Synchronised(s) && !BringsUpToDate(s, WifiChange(info, valid))
    ensures Step(s, WifiChange(info, valid)).state == s
  {
    assert s.(wifi := info) == s;
    SkippedCheckChangesNothing(s, OnWifiChanged, valid);
  }

  /** What does not bring LAN access up to date changes at most the VPN. */
  lemma OtherEventsChangeNothing(s: State, e: Event)
    requires Synchronised(s) && !BringsUpToDate(s, e) && !e.UiDisconnected? && !e.EaaChange?
    ensures Step(s, e).state == s.(vpnConnected := Step(s, e).state.vpnConnected)
  {
    match e {
      case WifiChange(info, valid) =>
        OldNetworkChangesNothing(s, info, valid);
      case WifiSettings(params, valid) =>
        OldSettingsChangeNothing(s, params, valid);
      case VpnChange(connected) =>
    }
  }

  lemma StepFollows(s: State, e: Event)
    requires Synchronised(s) && LanFollows(s) && !e.UiDisconnected? && !e.EaaChange?
    ensures var n := Step(s, e).state; Synchronised(n) && LanFollows(n)
  {
    BlockingNeedsSettings(s, s.wifi);
    if BringsUpToDate(s, e) {
      SafeUnlessGap(s, e);
      PermissionStays(s, e);
    } else {
      OtherEventsChangeNothing(s, e);
    }
  }

  lemma PermissionStays(s: State, e: Event)
    requires s.isLoggedIn && CanDoBackgroundAction(s) && !e.UiDisconnected? && !e.EaaChange?
    ensures CanDoBackgroundAction(Step(s, e).state)
  {
  }

  /**
    Across network changes, settings changes, changes of the LAN setting, duplicated notifications,
    launches and connecting clients, LAN access is always what the setting and the network ask for.
  */
  lemma {:induction false} RunFollows(s: State, es: seq<Event>)
    requires Synchronised(s) && LanFollows(s)
    requires forall i :: 0 <= i < |es| ==> !es[i].UiDisconnected? && !es[i].EaaChange?
    ensures LanFollows(Run(s, es)) && Synchronised(Run(s, es))
    decreases es
  {
    if es != [] {
      StepFollows(s, es[0]);
      RunFollows(Step(s, es[0]).state, es[1..]);
    }
  }

  /**
    A leaving UI client is not followed by a new check.  LAN access is then what is wanted unless the
    client's presence was what allowed the current network to block the allowed LAN.
  */
  lemma LeavingClientFollows(s: State)
    requires Synchronised(s) && LanFollows(s)
    ensures LanFollows(Step(s, UiDisconnected).state)
            <==> !(s.isFwAllowLan && (s.eaaEnabled || !s.wifiControl.canApplyInBackground) && BlocksLan(s, s.wifi))
  {
  }

  // ------------------------------------------------------------------
  // All runs
  // ------------------------------------------------------------------

  /**
    What holds with leaving clients and changes of the authentication too: the firewall follows the processed
    settings, whoever may act has processed the current network, and no LAN traffic passes on a network that
    asks for blocking it.
  */
  predicate LanSafe(s: State) {
    && s.isLoggedIn && LanFromProcessed(s)
    && (CanDoBackgroundAction(s) ==> s.lastProcessed == Processed(s.wifi, s.wifiControl))
    && (s.lanAllowed ==> !BlocksLan(s, s.wifi))
  }

  /**
    The one gap: switching the authentication off permits background actions without a check, while the
    current network was not processed or its LAN traffic was allowed in the meantime.
  */
  predicate Gap(s: State, e: Event) {
    && e.EaaChange? && !e.enabled && !CanDoBackgroundAction(s)
    && (s.lastProcessed != Processed(s.wifi, s.wifiControl)
        || (s.lanAllowed && BlocksLan(s.(eaaEnabled := false), s.wifi)))
  }

  /** A check that runs, is no duplicate and finds background actions permitted; or the LAN setting is applied. */
  predicate BringsUpToDate(s: State, e: Event) {
    match e
    case WifiChange(info, _) => CanDoBackgroundAction(s) && s.lastProcessed != Processed(info, s.wifiControl)
    case WifiSettings(params, _) =>
      (params.canApplyInBackground ==> s.hasConnectionParams) && CanDoBackgroundAction(s)
      && s.lastProcessed != Processed(s.wifi, params.(networks := WithoutDuplicates(params.networks)))
    case DaemonStarted(_) => CanDoBackgroundAction(s)
    case SessionLogon(_) => CanDoBackgroundAction(s)
    case UiConnected(_) => true
    case AllowLan(_) => true
    case _ => false
  }

  /** A check keeps LAN traffic safe and leaves LAN access as wanted, unless it is a duplicate. */
  lemma CheckKeepsLanSafe(s: State, reason: Reason, valid: bool)
    requires s.isLoggedIn && LanFromProcessed(s)
    requires !CanDoBackgroundAction(s) || IsDuplicate(s, reason) ==> LanSafe(s)
    ensures LanSafe(AutoConnect(s, reason, s.wifi, valid).state)
    ensures CanDoBackgroundAction(s) && !IsDuplicate(s, reason)
            ==> LanFollows(AutoConnect(s, reason, s.wifi, valid).state)
  {
    if CanDoBackgroundAction(s) && !IsDuplicate(s, reason) {
      CheckAppliesLan(s, reason, valid);
      BlockingNeedsSettings(s, s.wifi);
    }
  }

  lemma WifiChangeKeepsLanSafe(s: State, info: WifiInfo, valid: bool)
    requires LanSafe(s)
    ensures LanSafe(Step(s, WifiChange(info, valid)).state)
    ensures BringsUpToDate(s, WifiChange(info, valid)) ==> LanFollows(Step(s, WifiChange(info, valid)).state)
  {
    var moved := s.(wifi := info);
    assert info == s.wifi ==> moved == s;
    CheckKeepsLanSafe(moved, OnWifiChanged, valid);
  }

  lemma WifiSettingsKeepLanSafe(s: State, params: WifiParams, valid: bool)
    requires LanSafe(s)
    ensures LanSafe(Step(s, WifiSettings(params, valid)).state)
    ensures BringsUpToDate(s, WifiSettings(params, valid)) ==> LanFollows(Step(s, WifiSettings(params, valid)).state)
  {
    var saved := s.(wifiControl := params.(networks := WithoutDuplicates(params.networks)));
    assert saved.wifiControl == s.wifiControl ==> saved == s;
    CheckKeepsLanSafe(saved, OnWifiChanged, valid);
  }

  lemma LaunchKeepsLanSafe(s: State, e: Event)
    requires LanSafe(s) && (e.DaemonStarted? || e.SessionLogon? || e.UiConnected?)
    ensures LanSafe(Step(s, e).state) && (BringsUpToDate(s, e) ==> LanFollows(Step(s, e).state))
  {
    match e {
      case DaemonStarted(valid) => CheckKeepsLanSafe(s, OnDaemonStarted, valid);
      case SessionLogon(valid) => CheckKeepsLanSafe(s, OnSessionLogon, valid);
      case UiConnected(valid) => CheckKeepsLanSafe(s.(mainClientConnected := true), OnUiClientConnected, valid);
    }
  }

  lemma UncheckedEventKeepsLanSafe(s: State, e: Event)
    requires LanSafe(s) && (e.UiDisconnected? || e.EaaChange? || e.VpnChange?)
    ensures LanSafe(Step(s, e).state) <==> !Gap(s, e)
  {
  }

  lemma SettingKeepsLanSafe(s: State, e: Event)
    requires LanSafe(s) && e.AllowLan?
    ensures LanSafe(Step(s, e).state) && LanFollows(Step(s, e).state)
  {
    BlockingNeedsSettings(s, s.wifi);
  }

  /** Outside the gap every event keeps LAN traffic safe, inside it does not. */
  lemma SafeUnlessGap(s: State, e: Event)
    requires LanSafe(s)
    ensures LanSafe(Step(s, e).state) <==> !Gap(s, e)
    ensures BringsUpToDate(s, e) ==> LanFollows(Step(s, e).state)
  {
    if e.WifiChange? {
      WifiChangeKeepsLanSafe(s, e.info, e.paramsValid);
    } else if e.WifiSettings? {
      WifiSettingsKeepLanSafe(s, e.params, e.paramsValid);
    } else if e.DaemonStarted? || e.SessionLogon? || e.UiConnected? {
      LaunchKeepsLanSafe(s, e);
    } else if e.AllowLan? {
      SettingKeepsLanSafe(s, e);
    } else {
      UncheckedEventKeepsLanSafe(s, e);
    }
  }

  /**
    A change of the authentication is not followed by a check.  LAN access is then what is wanted unless the
    authentication is switched on without the client, while the current network blocks the allowed LAN.
  */
  lemma AuthenticationFollows(s: State, enabled: bool)
    requires Synchronised(s) && LanFollows(s)
    ensures LanFollows(Step(s, EaaChange(enabled)).state)
            <==> !(enabled && !s.mainClientConnected && s.isFwAllowLan && BlocksLan(s, s.wifi))
  {
  }

  predicate NoGap(s: State, es: seq<Event>)
    decreases es
  {
    es == [] || (!Gap(s, es[0]) && NoGap(Step(s, es[0]).state, es[1..]))
  }

  /**
    Over all runs outside the gap, LAN traffic never passes on a network that asks for blocking it; and the
    next check that is no duplicate, or the next change of the LAN setting, makes LAN access what is wanted.
  */
  lemma {:induction false} RunKeepsLanSafe(s: State, es: seq<Event>, next: Event)
    requires LanSafe(s) && NoGap(s, es)
    ensures var n := Run(s, es);
            && LanSafe(n)
            && (BringsUpToDate(n, next) ==> LanFollows(Step(n, next).state))
    decreases es
  {
    if es == [] {
      SafeUnlessGap(s, next);
    } else {
      SafeUnlessGap(s, es[0]);
      RunKeepsLanSafe(Step(s, es[0]).state, es[1..], next);
    }
  }

  // ------------------------------------------------------------------
  // LAN access, from the settings alone
  // ------------------------------------------------------------------

  lemma LanMeans(s: State)
    ensures LanFollows(s) <==> LanAsWanted(s)
  {
    BlocksLanMeans(s, s.wifi);
  }

  /** The daemon starts with LAN access set from the settings; its first check takes the network into account. */
  lemma StartSynchronises(s: State, paramsValid: bool)
    requires s.isLoggedIn && CanDoBackgroundAction(s) && s.lanAllowed == s.isFwAllowLan
    ensures var n := Step(s, DaemonStarted(paramsValid)).state; Synchronised(n) && LanAsWanted(n)
  {
    StartFollows(s, paramsValid);
    LanMeans(Step(s, DaemonStarted(paramsValid)).state);
  }

  /** One check brings LAN access up to date, unless it is skipped as a duplicate. */
  lemma CheckSynchronises(s: State, reason: Reason, paramsValid: bool)
    requires s.isLoggedIn && CanDoBackgroundAction(s) && LanFromProcessed(s)
    requires IsDuplicate(s, reason) ==> LanAsWanted(s)
    ensures var n := AutoConnect(s, reason, s.wifi, paramsValid).state; Synchronised(n) && LanAsWanted(n)
  {
    LanMeans(s);
    CheckFollows(s, reason, paramsValid);
    LanMeans(AutoConnect(s, reason, s.wifi, paramsValid).state);
  }

  lemma StepKeepsLan(s: State, e: Event)
    requires Synchronised(s) && LanAsWanted(s) && !e.UiDisconnected? && !e.EaaChange?
    ensures var n := Step(s, e).state; Synchronised(n) && LanAsWanted(n)
  {
    LanMeans(s);
    StepFollows(s, e);
    LanMeans(Step(s, e).state);
  }

  /**
    Across network changes, settings changes, changes of the LAN setting, duplicated notifications,
    launches and connecting clients, LAN access is always what the settings ask for on the network.
  */
  lemma LanAlwaysAsWanted(s: State, es: seq<Event>)
    requires Synchronised(s) && LanAsWanted(s)
    requires forall i :: 0 <= i < |es| ==> !es[i].UiDisconnected? && !es[i].EaaChange?
    ensures LanAsWanted(Run(s, es)) && Synchronised(Run(s, es))
  {
    LanMeans(s);
    RunFollows(s, es);
    LanMeans(Run(s, es));
  }

  /**
    A leaving UI client is not followed by a new check.  LAN access is then what is wanted unless the
    client's presence was what allowed the settings to block the allowed LAN on the current network.
  */
  lemma LeavingClientKeepsLan(s: State)
    requires Synchronised(s) && LanAsWanted(s)
    ensures LanAsWanted(Step(s, UiDisconnected).state)
            <==> !(s.isFwAllowLan && (s.eaaEnabled || !s.wifiControl.canApplyInBackground) && AsksToBlock(s, s.wifi))
  {
    LanMeans(s);
    BlocksLanMeans(s, s.wifi);
    LeavingClientFollows(s);
    LanMeans(Step(s, UiDisconnected).state);
  }

  /**
    A change of the authentication is not followed by a check.  LAN access is then what is wanted unless the
    authentication is switched on without the client, while the settings block the allowed LAN on the network.
  */
  lemma AuthenticationKeepsLan(s: State, enabled: bool)
    requires Synchronised(s) && LanAsWanted(s)
    ensures LanAsWanted(Step(s, EaaChange(enabled)).state)
            <==> !(enabled && !s.mainClientConnected && s.isFwAllowLan && AsksToBlock(s, s.wifi))
  {
    LanMeans(s);
    BlocksLanMeans(s, s.wifi);
    AuthenticationFollows(s, enabled);
    LanMeans(Step(s, EaaChange(enabled)).state);
  }

  /**
    Over all runs outside the gap, LAN traffic never passes where the settings ask for blocking it; and the
    next check that is no duplicate, or the next change of the LAN setting, makes LAN access what is wanted.
  */
  lemma LanNeverLeaks(s: State, es: seq<Event>, next: Event)
    requires LanSafe(s) && NoGap(s, es)
    ensures var n := Run(s, es);
            && LanSafe(n) && (n.lanAllowed ==> n.isFwAllowLan && !AsksToBlock(n, n.wifi))
            && (BringsUpToDate(n, next) ==> LanAsWanted(Step(n, next).state))
  {
    RunKeepsLanSafe(s, es, next);
    BlocksLanMeans(Run(s, es), Run(s, es).wifi);
    LanMeans(Step(Run(s, es), next).state);
  }

  // ------------------------------------------------------------------
  // Automatic connections
  // ------------------------------------------------------------------

  predicate Connects(calls: seq<Call>) {
    exists i :: 0 <= i < |calls| && calls[i].RegisterConnectionRequest?
  }

  /**
    On a network whose action is "disconnect the VPN", a launch connects all the same when the network
    was not processed yet: the action vetoes automatic connections only on a processed network.
  */
  lemma VetoNeedsProcessedNetwork(s: State, reason: Reason)
    requires s.isLoggedIn && CanDoBackgroundAction(s) && !s.vpnConnected
    requires ActionFor(s, s.wifi).vpn == VpnOff
    ensures Connects(AutoConnect(s, reason, s.wifi, true).calls)
            <==> LaunchesVpn(s, reason) && s.lastProcessed != Processed(s.wifi, s.wifiControl)
  {
    var noted := s.(lastProcessed := Processed(s.wifi, s.wifiControl));
    var a := Decide(noted, reason, s.wifi, s.lastProcessed == noted.lastProcessed);
    var calls := AutoConnect(s, reason, s.wifi, true).calls;
    if a.vpn.VpnOn? && calls != [] {
      assert calls[|calls| - 1] == RegisterConnectionRequest(FirewallParameter(a.firewall))
             || (reason.OnWifiChanged? && s.lastProcessed == Processed(s.wifi, s.wifiControl));
    }
  }

  /** A connected VPN is never connected again, and a disconnected one never disconnected. */
  lemma OnlyMeaningfulVpnCalls(s: State, reason: Reason, wifi: WifiInfo, paramsValid: bool)
    ensures var calls := AutoConnect(s, reason, wifi, paramsValid).calls;
            forall i :: 0 <= i < |calls| ==>
                          && (calls[i].RegisterConnectionRequest? ==> !s.vpnConnected && paramsValid)
                          && (calls[i].Disconnect? ==> s.vpnConnected)
  {
  }

  predicate RegistersConnection(calls: seq<Call>) {
    RegisterConnectionRequest(None) in calls || RegisterConnectionRequest(Some(true)) in calls
    || RegisterConnectionRequest(Some(false)) in calls
  }

  /** The firewall action of a network, from the settings alone. */
  lemma FirewallActionMeans(s: State, wifi: WifiInfo)
    requires s.isLoggedIn
    ensures ActionFor(s, wifi).firewall.FwOff?
            <==> Trusts(s, wifi, true) && s.wifiControl.actions.trustedDisableFirewall
    ensures ActionFor(s, wifi).firewall.FwOn? || ActionFor(s, wifi).firewall.FwOnAndBlockLan?
            <==> Trusts(s, wifi, false)
                 && (s.wifiControl.actions.unTrustedEnableFirewall || s.wifiControl.actions.unTrustedBlockLan)
    ensures ActionFor(s, wifi).firewall.FwOnAndBlockLan?
            <==> Trusts(s, wifi, false) && s.wifiControl.actions.unTrustedBlockLan
  {
    TrustMeans(s, wifi);
  }

  /** The VPN action of a network, from the settings alone. */
  lemma VpnActionMeans(s: State, wifi: WifiInfo)
    requires s.isLoggedIn
    ensures ActionFor(s, wifi).vpn.VpnOff? <==> Trusts(s, wifi, true) && s.wifiControl.actions.trustedDisconnectVpn
    ensures ActionFor(s, wifi).vpn.VpnOn? <==> Trusts(s, wifi, false) && s.wifiControl.actions.unTrustedConnectVpn
  {
    TrustMeans(s, wifi);
  }

  /** The calls of a decided action. */
  lemma CallsOfAction(s: State, a: Action, paramsValid: bool)
    ensures var calls := FirewallCalls(a.firewall) + VpnCalls(s, a, paramsValid);
            && (SetKillSwitchState(false) in calls <==> a.firewall.FwOff?)
            && (SetKillSwitchState(true) in calls <==> a.firewall.FwOn? || a.firewall.FwOnAndBlockLan?)
            && (Disconnect in calls <==> a.vpn.VpnOff? && s.vpnConnected)
            && (RegistersConnection(calls) <==> a.vpn.VpnOn? && !s.vpnConnected && paramsValid)
            && (RegisterConnectionRequest(Some(true)) in calls ==> SetKillSwitchState(true) in calls)
            && (RegisterConnectionRequest(Some(false)) in calls ==> SetKillSwitchState(false) in calls)
  {
  }

  /** What happens on a new network, from the settings alone. */
  lemma NewNetworkCalls(s: State, wifi: WifiInfo, paramsValid: bool)
    requires s.isLoggedIn && CanDoBackgroundAction(s) && s.lastProcessed != Processed(wifi, s.wifiControl)
    ensures var calls, actions := AutoConnect(s, OnWifiChanged, wifi, paramsValid).calls, s.wifiControl.actions;
            && (SetKillSwitchState(false) in calls <==> Trusts(s, wifi, true) && actions.trustedDisableFirewall)
            && (SetKillSwitchState(true) in calls
                <==> Trusts(s, wifi, false) && (actions.unTrustedEnableFirewall || actions.unTrustedBlockLan))
            && (Disconnect in calls <==> Trusts(s, wifi, true) && actions.trustedDisconnectVpn && s.vpnConnected)
            && (RegistersConnection(calls)
                <==> !s.vpnConnected && paramsValid
                     && ((Trusts(s, wifi, false) && actions.unTrustedConnectVpn)
                         || (wifi.isInsecure && s.wifiControl.connectVpnOnInsecureNetwork && CanApplyWifiActions(s)
                             && !(Trusts(s, wifi, true) && actions.trustedDisconnectVpn))))
            && (RegisterConnectionRequest(Some(true)) in calls ==> SetKillSwitchState(true) in calls)
            && (RegisterConnectionRequest(Some(false)) in calls ==> SetKillSwitchState(false) in calls)
  {
    var noted := s.(lastProcessed := Processed(wifi, s.wifiControl));
    var a := Decide(noted, OnWifiChanged, wifi, false);
    FirewallActionMeans(noted, wifi);
    VpnActionMeans(noted, wifi);
    CallsOfAction(noted, a, paramsValid);
  }

  // ------------------------------------------------------------------
  // What every check does
  // ------------------------------------------------------------------

  /** Nobody may act, or nothing is new. */
  ghost predicate IsSkipped(s: State, reason: Reason, wifi: WifiInfo) {
    !s.isLoggedIn || (s.eaaEnabled && !s.mainClientConnected)
    || (s.lastProcessed == Processed(wifi, s.wifiControl) && reason.OnWifiChanged?)
  }

  /** The launch is one on which the user wants to be connected. */
  ghost predicate Launches(s: State, reason: Reason) {
    s.isAutoconnectOnLaunch
    && match reason
       case OnUiClientConnected => true
       case OnDaemonStarted => s.isAutoconnectOnLaunchDaemon
       case OnSessionLogon => s.isAutoconnectOnLaunchDaemon
       case OnWifiChanged => false
  }

  /** Why a check connects: a launch, the action of a new network, or an insecure new network. */
  ghost predicate WantsVpn(s: State, reason: Reason, wifi: WifiInfo) {
    var isNew, actions := s.lastProcessed != Processed(wifi, s.wifiControl), s.wifiControl.actions;
    var isOff := Trusts(s, wifi, true) && actions.trustedDisconnectVpn;
    || (Launches(s, reason) && (isNew || !isOff))
    || (isNew && Trusts(s, wifi, false) && actions.unTrustedConnectVpn)
    || (isNew && !isOff && wifi.isInsecure && s.wifiControl.connectVpnOnInsecureNetwork
        && (s.wifiControl.canApplyInBackground || s.mainClientConnected))
  }

  lemma SkippedCheckCallsNobody(s: State, reason: Reason, wifi: WifiInfo, paramsValid: bool)
    requires IsSkipped(s, reason, wifi)
    ensures AutoConnect(s, reason, wifi, paramsValid) == Outcome(s, [])
  {
  }

  /** The decision about the VPN. */
  lemma DecidedVpn(s: State, reason: Reason, wifi: WifiInfo, isNew: bool)
    requires s.isLoggedIn
    ensures var decided, action := Decide(s, reason, wifi, !isNew).vpn, ActionFor(s, wifi).vpn;
            var launches := Launches(s, reason) && !s.vpnConnected && (isNew || !action.VpnOff?);
            && (decided.VpnOff? <==> isNew && action.VpnOff? && !launches)
            && (decided.VpnOn?
                <==> launches || (isNew && action.VpnOn?)
                     || (isNew && !action.VpnOff? && s.wifiControl.connectVpnOnInsecureNetwork && wifi.isInsecure
                         && CanApplyWifiActions(s)))
  {
  }

  lemma NotingKeepsTrust(s: State, wifi: WifiInfo, noted: State)
    requires noted == s.(lastProcessed := noted.lastProcessed)
    ensures Trusts(noted, wifi, true) == Trusts(s, wifi, true) && Trusts(noted, wifi, false) == Trusts(s, wifi, false)
  {
  }

  lemma DecidedFirewallMeans(s: State, reason: Reason, wifi: WifiInfo, noted: State)
    requires s.isLoggedIn && noted == s.(lastProcessed := Processed(wifi, s.wifiControl))
    ensures var isNew, actions := s.lastProcessed != noted.lastProcessed, s.wifiControl.actions;
            var a := Decide(noted, reason, wifi, !isNew);
            && (a.firewall.FwOff? <==> isNew && Trusts(s, wifi, true) && actions.trustedDisableFirewall)
            && (a.firewall.FwOn? || a.firewall.FwOnAndBlockLan?
                <==> isNew && Trusts(s, wifi, false) && (actions.unTrustedEnableFirewall || actions.unTrustedBlockLan))
            && (a.firewall.FwOnAndBlockLan? <==> isNew && Trusts(s, wifi, false) && actions.unTrustedBlockLan)
  {
    DecidedFirewall(noted, reason, wifi, s.lastProcessed == noted.lastProcessed);
    FirewallActionMeans(noted, wifi);
    NotingKeepsTrust(s, wifi, noted);
  }

  lemma DecidedVpnMeans(s: State, reason: Reason, wifi: WifiInfo, noted: State)
    requires s.isLoggedIn && noted == s.(lastProcessed := Processed(wifi, s.wifiControl))
    ensures var isNew, actions := s.lastProcessed != noted.lastProcessed, s.wifiControl.actions;
            var a := Decide(noted, reason, wifi, !isNew);
            && (!s.vpnConnected ==> (a.vpn.VpnOn? <==> WantsVpn(s, reason, wifi)))
            && (s.vpnConnected ==>
                  (a.vpn.VpnOff? <==> isNew && Trusts(s, wifi, true) && actions.trustedDisconnectVpn))
  {
    DecidedVpn(noted, reason, wifi, s.lastProcessed != noted.lastProcessed);
    VpnActionMeans(noted, wifi);
    NotingKeepsTrust(s, wifi, noted);
  }

  /** The calls of a decided action, the firewall first. */
  lemma CallsMean(s: State, a: Action, paramsValid: bool)
    ensures var calls := FirewallCalls(a.firewall) + VpnCalls(s, a, paramsValid);
            && (RegisterConnectionRequest(Some(true)) in calls
                <==> RegistersConnection(calls) && SetKillSwitchState(true) in calls)
            && (RegisterConnectionRequest(Some(false)) in calls
                <==> RegistersConnection(calls) && SetKillSwitchState(false) in calls)
            && |calls| <= 2 && (|calls| == 2 ==> calls[0].SetKillSwitchState? && !calls[1].SetKillSwitchState?)
  {
  }

  /** The calls of every check that is not skipped, from the settings, the reason and the connection. */
  lemma CheckCalls(s: State, reason: Reason, wifi: WifiInfo, paramsValid: bool)
    requires !IsSkipped(s, reason, wifi)
    ensures var calls, actions := AutoConnect(s, reason, wifi, paramsValid).calls, s.wifiControl.actions;
            var isNew := s.lastProcessed != Processed(wifi, s.wifiControl);
            && (SetKillSwitchState(false) in calls
                <==> isNew && Trusts(s, wifi, true) && actions.trustedDisableFirewall)
            && (SetKillSwitchState(true) in calls
                <==> isNew && Trusts(s, wifi, false) && (actions.unTrustedEnableFirewall || actions.unTrustedBlockLan))
            && (Disconnect in calls
                <==> isNew && Trusts(s, wifi, true) && actions.trustedDisconnectVpn && s.vpnConnected)
            && (RegistersConnection(calls) <==> WantsVpn(s, reason, wifi) && !s.vpnConnected && paramsValid)
            && (RegisterConnectionRequest(Some(true)) in calls
                <==> RegistersConnection(calls) && SetKillSwitchState(true) in calls)
            && (RegisterConnectionRequest(Some(false)) in calls
                <==> RegistersConnection(calls) && SetKillSwitchState(false) in calls)
            && |calls| <= 2 && (|calls| == 2 ==> calls[0].SetKillSwitchState? && !calls[1].SetKillSwitchState?)
  {
    var noted := s.(lastProcessed := Processed(wifi, s.wifiControl));
    var a := Decide(noted, reason, wifi, s.lastProcessed == noted.lastProcessed);
    DecidedFirewallMeans(s, reason, wifi, noted);
    DecidedVpnMeans(s, reason, wifi, noted);
    CallsOfAction(noted, a, paramsValid);
    CallsMean(noted, a, paramsValid);
    assert AutoConnect(s, reason, wifi, paramsValid).calls
           == FirewallCalls(a.firewall) + VpnCalls(noted, a, paramsValid);
  }

  ghost predicate MayBlock(p: WifiParams) {
    p.trustedNetworksControl && p.actions.unTrustedBlockLan
  }

  lemma PerformRenews(s: State, last: Processed, a: Action, wifi: WifiInfo, paramsValid: bool)
    ensures var renews := a.firewall.FwOnAndBlockLan?
                          || (s.isFwAllowLan && (MayBlock(last.params) || MayBlock(s.wifiControl)));
            Perform(s, last, a, wifi, paramsValid).state
            == s.(lanAllowed := if renews then s.isFwAllowLan && !BlocksLan(s, wifi) else s.lanAllowed)
  {
  }

  /** A check notes the network, and renews LAN access if the old or the new settings may have blocked it. */
  lemma CheckRenewsLan(s: State, reason: Reason, wifi: WifiInfo, paramsValid: bool)
    requires !IsSkipped(s, reason, wifi)
    ensures var isNew := s.lastProcessed != Processed(wifi, s.wifiControl);
            var renews := (isNew && Trusts(s, wifi, false) && s.wifiControl.actions.unTrustedBlockLan)
                          || (s.isFwAllowLan && (MayBlock(s.lastProcessed.params) || MayBlock(s.wifiControl)));
            AutoConnect(s, reason, wifi, paramsValid).state
            == s.(lastProcessed := Processed(wifi, s.wifiControl),
                  lanAllowed := if renews then s.isFwAllowLan && !AsksToBlock(s, wifi) else s.lanAllowed)
  {
    var noted := s.(lastProcessed := Processed(wifi, s.wifiControl));
    var a := Decide(noted, reason, wifi, s.lastProcessed == noted.lastProcessed);
    DecidedFirewallMeans(s, reason, wifi, noted);
    BlocksLanMeans(s, wifi);
    assert BlocksLan(noted, wifi) == BlocksLan(s, wifi);
    PerformRenews(noted, s.lastProcessed, a, wifi, paramsValid);
    assert AutoConnect(s, reason, wifi, paramsValid) == Perform(noted, s.lastProcessed, a, wifi, paramsValid);
  }

  /** New settings are accepted unless they need connection parameters that are not there. */
  ghost predicate Accepts(s: State, params: WifiParams) {
    params.canApplyInBackground ==> s.hasConnectionParams
  }

  /** The event is stored before anything is checked. */
  ghost function Noticed(s: State, e: Event): State {
    match e
    case WifiChange(info, _) => s.(wifi := info)
    case WifiSettings(params, _) =>
      if Accepts(s, params) then s.(wifiControl := params.(networks := WithoutDuplicates(params.networks))) else s
    case AllowLan(allow) => s.(isFwAllowLan := allow)
    case UiConnected(_) => s.(mainClientConnected := true)
    case UiDisconnected => s.(mainClientConnected := false)
    case EaaChange(enabled) => s.(eaaEnabled := enabled)
    case VpnChange(connected) => s.(vpnConnected := connected)
    case _ => s
  }

  /** What a check may change: what it notes, and LAN access. */
  ghost predicate KeepsSettings(before: State, after: State) {
    after == before.(lastProcessed := after.lastProcessed, lanAllowed := after.lanAllowed)
  }

  lemma CheckPerforms(s: State, reason: Reason, wifi: WifiInfo, paramsValid: bool)
    ensures AutoConnect(s, reason, wifi, paramsValid).state == s
            || exists a: Action ::
                 AutoConnect(s, reason, wifi, paramsValid).state
                 == Perform(s.(lastProcessed := Processed(wifi, s.wifiControl)), s.lastProcessed, a, wifi,
                            paramsValid).state
  {
  }

  lemma CheckKeepsSettings(s: State, reason: Reason, wifi: WifiInfo, paramsValid: bool)
    ensures KeepsSettings(s, AutoConnect(s, reason, wifi, paramsValid).state)
  {
    var n := AutoConnect(s, reason, wifi, paramsValid).state;
    var noted := s.(lastProcessed := Processed(wifi, s.wifiControl));
    CheckPerforms(s, reason, wifi, paramsValid);
    if n != s {
      var a: Action :| n == Perform(noted, s.lastProcessed, a, wifi, paramsValid).state;
      PerformRenews(noted, s.lastProcessed, a, wifi, paramsValid);
    }
  }

  lemma WifiEventsAreNoticed(s: State, e: Event)
    requires e.WifiChange? || e.WifiSettings?
    ensures KeepsSettings(Noticed(s, e), Step(s, e).state)
  {
    CheckKeepsSettings(Noticed(s, e), OnWifiChanged, Noticed(s, e).wifi, e.paramsValid);
  }

  lemma LaunchesAreNoticed(s: State, e: Event)
    requires e.DaemonStarted? || e.SessionLogon? || e.UiConnected?
    ensures KeepsSettings(Noticed(s, e), Step(s, e).state)
  {
    CheckKeepsSettings(s, OnDaemonStarted, s.wifi, e.paramsValid);
    CheckKeepsSettings(s, OnSessionLogon, s.wifi, e.paramsValid);
    CheckKeepsSettings(s.(mainClientConnected := true), OnUiClientConnected, s.wifi, e.paramsValid);
  }

  lemma OthersAreNoticed(s: State, e: Event)
    requires e.AllowLan? || e.UiDisconnected? || e.EaaChange? || e.VpnChange?
    ensures KeepsSettings(Noticed(s, e), Step(s, e).state)
  {
  }

  /** Every event is noticed; apart from that only what a check notes and LAN access may change. */
  lemma EventsAreNoticed(s: State, e: Event)
    ensures KeepsSettings(Noticed(s, e), Step(s, e).state)
  {
    match e {
      case WifiChange(_, _) => WifiEventsAreNoticed(s, e);
      case WifiSettings(_, _) => WifiEventsAreNoticed(s, e);
      case DaemonStarted(_) => LaunchesAreNoticed(s, e);
      case SessionLogon(_) => LaunchesAreNoticed(s, e);
      case UiConnected(_) => LaunchesAreNoticed(s, e);
      case _ => OthersAreNoticed(s, e);
    }
  }

  /** Events without a check; a change of the LAN setting is applied at once, as far as the network lets it. */
  lemma EventsWithoutCheck(s: State, e: Event)
    ensures e.UiDisconnected? || e.EaaChange? || e.VpnChange? ==> Step(s, e) == Outcome(Noticed(s, e), [])
    ensures e.WifiSettings? && !Accepts(s, e.params) ==> Step(s, e) == Outcome(s, [])
    ensures e.AllowLan? ==>
              Step(s, e) == Outcome(s.(isFwAllowLan := e.isAllowLan,
                                       lanAllowed := e.isAllowLan && !AsksToBlock(Noticed(s, e), s.wifi)), [])
  {
    BlocksLanMeans(Noticed(s, e), s.wifi);
  }

  /** An event connects iff the check that follows it wants the VPN, with the launch that the event is. */
  lemma EventConnects(s: State, e: Event)
    requires e.WifiChange? || e.DaemonStarted? || e.SessionLogon? || e.UiConnected?
    ensures var n := Noticed(s, e);
            var reason := match e
                          case DaemonStarted(_) => OnDaemonStarted
                          case SessionLogon(_) => OnSessionLogon
                          case UiConnected(_) => OnUiClientConnected
                          case _ => OnWifiChanged;
            RegistersConnection(Step(s, e).calls)
            <==> !IsSkipped(n, reason, n.wifi) && WantsVpn(n, reason, n.wifi) && !n.vpnConnected && e.paramsValid
  {
    var n := Noticed(s, e);
    var reason := match e
                  case DaemonStarted(_) => OnDaemonStarted
                  case SessionLogon(_) => OnSessionLogon
                  case UiConnected(_) => OnUiClientConnected
                  case _ => OnWifiChanged;
    assert Step(s, e) == AutoConnect(n, reason, n.wifi, e.paramsValid);
    if !IsSkipped(n, reason, n.wifi) {
      CheckCalls(n, reason, n.wifi, e.paramsValid);
    }
  }

  // ------------------------------------------------------------------
  // The list of known networks
  // ------------------------------------------------------------------

  ghost predicate DistinctNames(networks: seq<WifiNetwork>) {
    && (forall i, j :: 0 <= i < j < |networks| ==> networks[i].ssid != networks[j].ssid)
    && (forall i :: 0 <= i < |networks| ==> networks[i].ssid != "")
  }

  /** Removing duplicates leaves every name once, and no empty name. */
  lemma {:induction false} NoDuplicatesLeft(networks: seq<WifiNetwork>)
    ensures DistinctNames(WithoutDuplicates(networks))
  {
    if networks != [] {
      NoDuplicatesLeft(networks[..|networks| - 1]);
    }
  }

  lemma {:induction false} FirstTrustOfAppended(networks: seq<WifiNetwork>, last: WifiNetwork, ssid: string)
    ensures FirstTrust(networks + [last], ssid)
         == if Names(networks, ssid) then FirstTrust(networks, ssid)
            else if last.ssid == ssid then Some(last.isTrusted) else None
    ensures FirstTrust(networks, ssid).Some? <==> Names(networks, ssid)
  {
    if networks != [] {
      assert (networks + [last])[1..] == networks[1..] + [last];
      FirstTrustOfAppended(networks[1..], last, ssid);
      if Names(networks, ssid) && networks[0].ssid != ssid {
        var i :| 0 <= i < |networks| && networks[i].ssid == ssid;
        assert networks[1..][i - 1].ssid == ssid;
      }
      if Names(networks[1..], ssid) {
        var i :| 0 <= i < |networks[1..]| && networks[1..][i].ssid == ssid;
        assert networks[i + 1].ssid == ssid;
      }
    }
  }

  /** Removing duplicates does not change what is known about any network. */
  lemma {:induction false} DeduplicationKeepsTrust(networks: seq<WifiNetwork>, ssid: string)
    requires ssid != ""
    ensures FirstTrust(WithoutDuplicates(networks), ssid) == FirstTrust(networks, ssid)
  {
    if networks != [] {
      var init, last := networks[..|networks| - 1], networks[|networks| - 1];
      DeduplicationKeepsTrust(init, ssid);
      assert networks == init + [last];
      FirstTrustOfAppended(init, last, ssid);
      FirstTrustOfAppended(WithoutDuplicates(init), last, ssid);
    }
  }
}
