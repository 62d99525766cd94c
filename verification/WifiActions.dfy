/**
  The Trusted-WiFi feature and the automatic connection manager: which actions the current network
  asks for, when they are applied, and whether the firewall lets LAN traffic pass.
*/
module WifiActions {
  import opened Wrappers

  datatype WifiInfo = WifiInfo(ssid: string, isInsecure: bool)

  datatype WifiNetwork = WifiNetwork(ssid: string, isTrusted: bool)

  datatype Actions = Actions(
    unTrustedConnectVpn: bool,
    unTrustedEnableFirewall: bool,
    unTrustedBlockLan: bool,
    trustedDisconnectVpn: bool,
    trustedDisableFirewall: bool)

  datatype WifiParams = WifiParams(
    canApplyInBackground: bool,
    connectVpnOnInsecureNetwork: bool,
    trustedNetworksControl: bool,
    defaultTrustStatusTrusted: Option<bool>, // None: no action for unknown networks
    networks: seq<WifiNetwork>,
    actions: Actions)

  datatype VpnAction = VpnNoAction | VpnOn | VpnOff

  datatype FirewallAction = FwNoAction | FwOn | FwOff | FwOnAndBlockLan

  datatype Action = Action(vpn: VpnAction, firewall: FirewallAction)

  const NO_ACTION := Action(VpnNoAction, FwNoAction)

  datatype Reason = OnDaemonStarted | OnUiClientConnected | OnSessionLogon | OnWifiChanged

  datatype Processed = Processed(wifi: WifiInfo, params: WifiParams)

  datatype State = State(
    isLoggedIn: bool,
    eaaEnabled: bool,                // Enhanced App Authentication
    mainClientConnected: bool,
    vpnConnected: bool,
    hasConnectionParams: bool,       // the last connection parameters are defined
    isFwAllowLan: bool,              // setting
    isAutoconnectOnLaunch: bool,     // setting
    isAutoconnectOnLaunchDaemon: bool, // setting
    wifiControl: WifiParams,         // setting
    wifi: WifiInfo,                  // the current network
    lastProcessed: Processed,
    lanAllowed: bool)                // what the firewall does with LAN traffic

  /** Calls into other parts of the service. */
  datatype Call = SetKillSwitchState(isEnabled: bool) | Disconnect | RegisterConnectionRequest(firewallOn: Option<bool>)

  datatype Outcome = Outcome(state: State, calls: seq<Call>)

  // ------------------------------------------------------------------
  // The action of a network
  // ------------------------------------------------------------------

  function FirstTrust(networks: seq<WifiNetwork>, ssid: string): Option<bool> {
    if networks == [] then None
    else if networks[0].ssid == ssid then Some(networks[0].isTrusted)
    else FirstTrust(networks[1..], ssid)
  }

  /** With Enhanced App Authentication background actions need an authenticated UI client. */
  predicate CanDoBackgroundAction(s: State) {
    s.eaaEnabled ==> s.mainClientConnected
  }

  predicate CanApplyWifiActions(s: State) {
    s.wifiControl.canApplyInBackground || s.mainClientConnected
  }

  function ActionFor(s: State, wifi: WifiInfo): Action {
    var p := s.wifiControl;
    if !s.isLoggedIn || !CanApplyWifiActions(s) || !p.trustedNetworksControl || wifi.ssid == "" then NO_ACTION
    else
      var known := FirstTrust(p.networks, wifi.ssid);
      var trust := if known.Some? then known else p.defaultTrustStatusTrusted;
      match trust
      case None => NO_ACTION
      case Some(false) =>
        Action(if p.actions.unTrustedConnectVpn then VpnOn else VpnNoAction,
               if p.actions.unTrustedBlockLan then FwOnAndBlockLan
               else if p.actions.unTrustedEnableFirewall then FwOn else FwNoAction)
      case Some(true) =>
        Action(if p.actions.trustedDisconnectVpn then VpnOff else VpnNoAction,
               if p.actions.trustedDisableFirewall then FwOff else FwNoAction)
  }

  /** The current network asks for blocked LAN. */
  predicate BlocksLan(s: State, wifi: WifiInfo) {
    s.isLoggedIn && CanDoBackgroundAction(s) && ActionFor(s, wifi).firewall == FwOnAndBlockLan
  }

  predicate SettingsBlockLan(p: WifiParams) {
    p.trustedNetworksControl && p.actions.unTrustedBlockLan
  }

  /** applyKillSwitchAllowLAN. */
  function ApplyAllowLan(s: State, wifi: WifiInfo): State {
    s.(lanAllowed := s.isFwAllowLan && !BlocksLan(s, wifi))
  }

  // ------------------------------------------------------------------
  // The automatic connection manager
  // ------------------------------------------------------------------

  predicate LaunchesVpn(s: State, reason: Reason) {
    s.isAutoconnectOnLaunch
    && (reason.OnUiClientConnected?
        || ((reason.OnDaemonStarted? || reason.OnSessionLogon?) && s.isAutoconnectOnLaunchDaemon))
  }

  /** The action that is finally applied: network action, launch action and insecure-network action combined. */
  function Decide(s: State, reason: Reason, wifi: WifiInfo, alreadyProcessed: bool): Action {
    var network := ActionFor(s, wifi);
    var vetoed := alreadyProcessed && network.vpn.VpnOff?;
    var unprocessed := if alreadyProcessed then NO_ACTION else network;
    var launched := if !vetoed && !s.vpnConnected && !unprocessed.vpn.VpnOn? && LaunchesVpn(s, reason)
                    then unprocessed.(vpn := VpnOn) else unprocessed;
    if !alreadyProcessed && launched.vpn.VpnNoAction? && s.wifiControl.connectVpnOnInsecureNetwork && wifi.isInsecure
       && CanApplyWifiActions(s)
    then launched.(vpn := VpnOn) else launched
  }

  function FirewallCalls(a: FirewallAction): seq<Call> {
    match a
    case FwNoAction => []
    case FwOff => [SetKillSwitchState(false)]
    case FwOn => [SetKillSwitchState(true)]
    case FwOnAndBlockLan => [SetKillSwitchState(true)]
  }

  /** The firewall parameters of a connection follow the firewall action. */
  function FirewallParameter(a: FirewallAction): Option<bool> {
    match a
    case FwNoAction => None
    case FwOff => Some(false)
    case FwOn => Some(true)
    case FwOnAndBlockLan => Some(true)
  }

  function VpnCalls(s: State, a: Action, paramsValid: bool): seq<Call> {
    match a.vpn
    case VpnNoAction => []
    case VpnOff => if s.vpnConnected then [Disconnect] else []
    case VpnOn =>
      if !s.vpnConnected && paramsValid then [RegisterConnectionRequest(FirewallParameter(a.firewall))] else []
  }

  /** The decided action is applied; LAN access is renewed if it may have been blocked for `last`. */
  function Perform(s: State, last: Processed, a: Action, wifi: WifiInfo, paramsValid: bool): Outcome {
    var renews := a.firewall.FwOnAndBlockLan?
                  || (s.isFwAllowLan && (SettingsBlockLan(last.params) || SettingsBlockLan(s.wifiControl)));
    Outcome(if renews then ApplyAllowLan(s, wifi) else s, FirewallCalls(a.firewall) + VpnCalls(s, a, paramsValid))
  }

  /** autoConnectIfRequired; `paramsValid` tells whether the last connection parameters can be used. */
  function AutoConnect(s: State, reason: Reason, wifi: WifiInfo, paramsValid: bool): Outcome {
    var current := Processed(wifi, s.wifiControl);
    var alreadyProcessed := s.lastProcessed == current;
    if !s.isLoggedIn || !CanDoBackgroundAction(s) || (alreadyProcessed && reason.OnWifiChanged?) then Outcome(s, [])
    else
      var noted := s.(lastProcessed := current);
      Perform(noted, s.lastProcessed, Decide(noted, reason, wifi, alreadyProcessed), wifi, paramsValid)
  }

  /** The first network of every non-empty name, in order. */
  function WithoutDuplicates(networks: seq<WifiNetwork>): seq<WifiNetwork> {
    if networks == [] then []
    else
      var kept := WithoutDuplicates(networks[..|networks| - 1]);
      var last := networks[|networks| - 1];
      if last.ssid == "" || Names(kept, last.ssid) then kept else kept + [last]
  }

  predicate Names(networks: seq<WifiNetwork>, ssid: string) {
    exists i :: 0 <= i < |networks| && networks[i].ssid == ssid
  }

  function SetWifiSettings(s: State, params: WifiParams, paramsValid: bool): Outcome {
    if params.canApplyInBackground && !s.hasConnectionParams then Outcome(s, [])
    else
      var saved := s.(wifiControl := params.(networks := WithoutDuplicates(params.networks)));
      AutoConnect(saved, OnWifiChanged, s.wifi, paramsValid)
  }

  function SetAllowLan(s: State, isAllowLan: bool): Outcome {
    Outcome(ApplyAllowLan(s.(isFwAllowLan := isAllowLan), s.wifi), [])
  }

  // ------------------------------------------------------------------
  // Runs
  // ------------------------------------------------------------------

  datatype Event =
    | WifiChange(info: WifiInfo, paramsValid: bool)
    | WifiSettings(params: WifiParams, paramsValid: bool)
    | AllowLan(isAllowLan: bool)
    | DaemonStarted(paramsValid: bool)
    | SessionLogon(paramsValid: bool)
    | UiConnected(paramsValid: bool)
    | UiDisconnected
    | EaaChange(enabled: bool)
    | VpnChange(connected: bool)

  function Step(s: State, e: Event): Outcome {
    match e
    case WifiChange(info, valid) => AutoConnect(s.(wifi := info), OnWifiChanged, info, valid)
    case WifiSettings(params, valid) => SetWifiSettings(s, params, valid)
    case AllowLan(isAllowLan) => SetAllowLan(s, isAllowLan)
    case DaemonStarted(valid) => AutoConnect(s, OnDaemonStarted, s.wifi, valid)
    case SessionLogon(valid) => AutoConnect(s, OnSessionLogon, s.wifi, valid)
    case UiConnected(valid) => AutoConnect(s.(mainClientConnected := true), OnUiClientConnected, s.wifi, valid)
    case UiDisconnected => Outcome(s.(mainClientConnected := false), [])
    case EaaChange(enabled) => Outcome(s.(eaaEnabled := enabled), [])
    case VpnChange(connected) => Outcome(s.(vpnConnected := connected), [])
  }

  function Run(s: State, es: seq<Event>): State
    decreases es
  {
    if es == [] then s else Run(Step(s, es[0]).state, es[1..])
  }
}
