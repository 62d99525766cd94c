/** The part of the service object that reacts to networks and clients. */
module WifiService {
  import opened Wrappers
  import W = WifiActions

  class WifiService {
    var isLoggedIn: bool
    var eaaEnabled: bool
    var mainClientConnected: bool
    var vpnConnected: bool
    var hasConnectionParams: bool
    var isFwAllowLan: bool
    var isAutoconnectOnLaunch: bool
    var isAutoconnectOnLaunchDaemon: bool
    var wifiControl: W.WifiParams
    var wifi: W.WifiInfo
    var lastProcessed: W.Processed
    var lanAllowed: bool

    function Snapshot(): W.State
      reads this
    {
      W.State(isLoggedIn, eaaEnabled, mainClientConnected, vpnConnected, hasConnectionParams, isFwAllowLan,
              isAutoconnectOnLaunch, isAutoconnectOnLaunchDaemon, wifiControl, wifi, lastProcessed, lanAllowed)
    }

    function IsCanDoBackgroundAction(): (r: bool)
      reads this
      ensures r <==> W.CanDoBackgroundAction(Snapshot())
    {
      if eaaEnabled then mainClientConnected else true
    }

    constructor (s: W.State)
      ensures Snapshot() == s
    {
      isLoggedIn, eaaEnabled, mainClientConnected := s.isLoggedIn, s.eaaEnabled, s.mainClientConnected;
      vpnConnected, hasConnectionParams, isFwAllowLan := s.vpnConnected, s.hasConnectionParams, s.isFwAllowLan;
      isAutoconnectOnLaunch, isAutoconnectOnLaunchDaemon := s.isAutoconnectOnLaunch, s.isAutoconnectOnLaunchDaemon;
      wifiControl, wifi, lastProcessed, lanAllowed := s.wifiControl, s.wifi, s.lastProcessed, s.lanAllowed;
    }

    /** Looks the network up in the configured list: the first entry counts. */
    static method FindTrust(networks: seq<W.WifiNetwork>, ssid: string) returns (trust: Option<bool>)
      ensures trust == W.FirstTrust(networks, ssid)
    {
      var i := 0;
      while i < |networks|
        invariant 0 <= i <= |networks|
        invariant W.FirstTrust(networks, ssid) == W.FirstTrust(networks[i..], ssid)
      {
        if networks[i].ssid == ssid {
          return Some(networks[i].isTrusted);
        }
        i := i + 1;
      }
      return None;
    }

    method GetActionForWifiNetwork(info: W.WifiInfo) returns (action: W.Action)
      ensures action == W.ActionFor(Snapshot(), info)
    {
      action := W.NO_ACTION;
      if !isLoggedIn || !(wifiControl.canApplyInBackground || mainClientConnected) {
        return;
      }
      if !wifiControl.trustedNetworksControl || info.ssid == "" {
        return;
      }
      var isNetworkTrusted := FindTrust(wifiControl.networks, info.ssid);
      if isNetworkTrusted.None? {
        isNetworkTrusted := wifiControl.defaultTrustStatusTrusted;
      }
      if isNetworkTrusted.None? {
        return;
      }
      if !isNetworkTrusted.value {
        if wifiControl.actions.unTrustedConnectVpn { action := action.(vpn := W.VpnOn); }
        if wifiControl.actions.unTrustedEnableFirewall { action := action.(firewall := W.FwOn); }
        if wifiControl.actions.unTrustedBlockLan { action := action.(firewall := W.FwOnAndBlockLan); }
      } else {
        if wifiControl.actions.trustedDisconnectVpn { action := action.(vpn := W.VpnOff); }
        if wifiControl.actions.trustedDisableFirewall { action := action.(firewall := W.FwOff); }
      }
    }

    method ApplyKillSwitchAllowLan(info: W.WifiInfo)
      modifies this`lanAllowed
      ensures Snapshot() == W.ApplyAllowLan(old(Snapshot()), info)
    {
      var isAllowLan := isFwAllowLan;
      if isAllowLan && isLoggedIn && IsCanDoBackgroundAction() {
        var action := GetActionForWifiNetwork(info);
        if action.firewall == W.FwOnAndBlockLan {
          isAllowLan := false;
        }
      }
      lanAllowed := isAllowLan;
    }

    method SetKillSwitchAllowLan(isAllowLan: bool)
      modifies this`isFwAllowLan, this`lanAllowed
      ensures Snapshot() == W.SetAllowLan(old(Snapshot()), isAllowLan).state
    {
      isFwAllowLan := isAllowLan;
      ApplyKillSwitchAllowLan(wifi);
    }

    /** Combines the action of the network with the automatic connections. */
    method DecideAction(reason: W.Reason, info: W.WifiInfo, isWifiProcessedAlready: bool) returns (action: W.Action)
      ensures action == W.Decide(Snapshot(), reason, info, isWifiProcessedAlready)
    {
      action := GetActionForWifiNetwork(info);
      var isVpnOffRequired := false;
      if isWifiProcessedAlready {
        isVpnOffRequired := action.vpn == W.VpnOff;
        action := W.NO_ACTION;
      }
      if isAutoconnectOnLaunch && !isVpnOffRequired {
        if !vpnConnected && action.vpn != W.VpnOn {
          if (reason.OnDaemonStarted? || reason.OnSessionLogon?) && isAutoconnectOnLaunchDaemon {
            action := action.(vpn := W.VpnOn);
          } else if reason.OnUiClientConnected? {
            action := action.(vpn := W.VpnOn);
          }
        }
      }
      if !isWifiProcessedAlready && action.vpn == W.VpnNoAction
         && wifiControl.connectVpnOnInsecureNetwork && info.isInsecure {
        if wifiControl.canApplyInBackground || mainClientConnected {
          action := action.(vpn := W.VpnOn);
        }
      }
    }

    method ApplyFirewallAction(action: W.FirewallAction, info: W.WifiInfo)
      returns (calls: seq<W.Call>, isLanProcessed: bool)
      modifies this`lanAllowed
      ensures calls == W.FirewallCalls(action) && isLanProcessed == action.FwOnAndBlockLan?
      ensures Snapshot() == if isLanProcessed then W.ApplyAllowLan(old(Snapshot()), info) else old(Snapshot())
    {
      calls, isLanProcessed := [], false;
      match action {
        case FwNoAction =>
        case FwOff => calls := [W.SetKillSwitchState(false)];
        case FwOn => calls := [W.SetKillSwitchState(true)];
        case FwOnAndBlockLan =>
          calls := [W.SetKillSwitchState(true)];
          ApplyKillSwitchAllowLan(info);
          isLanProcessed := true;
      }
    }

    method ApplyVpnAction(action: W.Action, paramsValid: bool) returns (calls: seq<W.Call>)
      ensures calls == W.VpnCalls(Snapshot(), action, paramsValid)
    {
      calls := [];
      match action.vpn {
        case VpnNoAction =>
        case VpnOff =>
          if vpnConnected { calls := [W.Disconnect]; }
        case VpnOn =>
          if !vpnConnected && paramsValid {
            calls := [W.RegisterConnectionRequest(W.FirewallParameter(action.firewall))];
          }
      }
    }

    method AutoConnectIfRequired(reason: W.Reason, info: W.WifiInfo, paramsValid: bool) returns (calls: seq<W.Call>)
      modifies this`lastProcessed, this`lanAllowed
      ensures W.Outcome(Snapshot(), calls) == W.AutoConnect(old(Snapshot()), reason, info, paramsValid)
    {
      calls := [];
      if !isLoggedIn || !IsCanDoBackgroundAction() {
        return;
      }
      var currWifi := W.Processed(info, wifiControl);
      var lastWifi := lastProcessed;
      var isWifiProcessedAlready := lastWifi == currWifi;
      if isWifiProcessedAlready && reason.OnWifiChanged? {
        return;
      }
      lastProcessed := currWifi;
      var action := DecideAction(reason, info, isWifiProcessedAlready);
      calls := PerformAction(action, lastWifi, info, paramsValid);
    }

    /** Firewall, VPN, and the deferred part: LAN may have been blocked for the previous network or settings. */
    method PerformAction(action: W.Action, lastWifi: W.Processed, info: W.WifiInfo, paramsValid: bool)
      returns (calls: seq<W.Call>)
      modifies this`lanAllowed
      ensures W.Outcome(Snapshot(), calls) == W.Perform(old(Snapshot()), lastWifi, action, info, paramsValid)
    {
      var isLanActionsProcessed;
      calls, isLanActionsProcessed := ApplyFirewallAction(action.firewall, info);
      var vpnCalls := ApplyVpnAction(action, paramsValid);
      calls := calls + vpnCalls;
      if !isLanActionsProcessed && isFwAllowLan
         && (W.SettingsBlockLan(lastWifi.params) || W.SettingsBlockLan(wifiControl)) {
        ApplyKillSwitchAllowLan(info);
      }
    }

    /** Keeps the first network of every non-empty name. */
    static method RemoveDuplicates(networks: seq<W.WifiNetwork>) returns (newNets: seq<W.WifiNetwork>)
      ensures newNets == W.WithoutDuplicates(networks)
    {
      newNets := [];
      var keys: set<string> := {};
      for i := 0 to |networks|
        invariant newNets == W.WithoutDuplicates(networks[..i])
        invariant forall k :: k in keys <==> W.Names(newNets, k)
      {
        var n := networks[i];
        assert networks[..i + 1][..i] == networks[..i];
        if n.ssid !in keys && n.ssid != "" {
          NamesAppended(newNets, n);
          newNets := newNets + [n];
          keys := keys + {n.ssid};
        }
      }
      assert networks[..|networks|] == networks;
    }

    method SetWifiSettings(params: W.WifiParams, paramsValid: bool) returns (calls: seq<W.Call>)
      modifies this`wifiControl, this`lastProcessed, this`lanAllowed
      ensures W.Outcome(Snapshot(), calls) == W.SetWifiSettings(old(Snapshot()), params, paramsValid)
    {
      if params.canApplyInBackground && !hasConnectionParams {
        return [];
      }
      var newNets := RemoveDuplicates(params.networks);
      wifiControl := params.(networks := newNets);
      calls := AutoConnectIfRequired(W.OnWifiChanged, wifi, paramsValid);
    }
  }

  lemma NamesAppended(networks: seq<W.WifiNetwork>, n: W.WifiNetwork)
    ensures forall k :: W.Names(networks + [n], k) <==> W.Names(networks, k) || k == n.ssid
  {
    forall k ensures W.Names(networks + [n], k) <==> W.Names(networks, k) || k == n.ssid {
      if W.Names(networks, k) {
        var i :| 0 <= i < |networks| && networks[i].ssid == k;
        assert (networks + [n])[i].ssid == k;
      }
      assert (networks + [n])[|networks|] == n;
    }
  }
}
