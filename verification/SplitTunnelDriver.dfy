/**
  Applying a Split Tunnel configuration on Windows: the driver is connected, configured and started, or
  stopped and disconnected, and the routing rules of the inverse mode are renewed.
*/
module SplitTunnelDriver {
  import opened Wrappers
  import opened InverseRoutes

  datatype Addresses =
    Addresses(ipv4Public: Option<IP>, ipv4Tunnel: Option<IP>, ipv6Public: Option<IP>, ipv6Tunnel: Option<IP>)
  {
    predicate IsEmpty() {
      ipv4Public.None? && ipv4Tunnel.None? && ipv6Public.None? && ipv6Tunnel.None?
    }
  }

  /** What the driver was told since it was cleaned, and whether it is splitting. */
  datatype Device = Device(addr: Option<Addresses>, apps: Option<seq<string>>, running: bool)

  const CLEAN := Device(None, None, false)

  datatype State = State(connected: bool, device: Device, ipv4: Rules, ipv6: Rules)

  datatype Mode = Mode(enabled: bool, inversed: bool, allowWhenNoVpn: bool, vpn: bool) {
    /** Inverse mode without VPN, and the applications must not use the default connection. */
    predicate BlocksApps() {
      inversed && !allowWhenNoVpn && !vpn
    }

    predicate NeedsRules() {
      vpn && inversed && enabled
    }
  }

  /** Which calls into the driver work, and how the three rounds of route commands are answered. */
  datatype Calls = Calls(available: bool, initialised: bool, connect: bool, clean: bool, setAddresses: bool,
                         setApps: bool, start: bool, initRunningApps: bool, finalClean: bool,
                         erase4: Replies, erase6: Replies, apply4: Replies, apply6: Replies,
                         undo4: Replies, undo6: Replies)

  /** The addresses to work with: without VPN no tunnel, or the black hole that blocks the applications. */
  function EffectiveAddresses(m: Mode, addr: Addresses): Addresses {
    var a := if m.vpn then addr else addr.(ipv4Tunnel := None, ipv6Tunnel := None);
    if m.BlocksApps() then a.(ipv4Tunnel := Some(BLACKHOLE_IPV4), ipv6Tunnel := Some(BLACKHOLE_IPV6)) else a
  }

  predicate MustBeDisabled(m: Mode, addr: Addresses, apps: seq<string>) {
    !m.enabled || (!m.vpn && !m.inversed) || (!m.vpn && m.allowWhenNoVpn) || addr.IsEmpty() || apps == []
  }

  /** In inverse mode the driver is told the public and tunnel addresses the other way round. */
  function DriverAddresses(m: Mode, a: Addresses): Addresses {
    if !m.inversed then a else
      var public6 := if a.ipv6Public.None? && a.ipv6Tunnel.Some? then a.ipv6Tunnel else a.ipv6Public;
      Addresses(a.ipv4Tunnel, a.ipv4Public, a.ipv6Tunnel, public6)
  }

  function Cleaned(d: Device, works: bool): Device {
    if works then CLEAN else d
  }

  function StopDriver(s: State, c: Calls): State {
    if s.connected then s.(connected := false, device := Cleaned(s.device, c.clean)) else s
  }

  function GiveUp(s: State, c: Calls): State {
    s.(connected := false, device := Cleaned(s.device, c.finalClean))
  }

  function SetConfig(d: Device, addr: Addresses, apps: seq<string>, c: Calls): Device {
    if !c.setAddresses then d
    else if !c.setApps then d.(addr := Some(addr))
    else d.(addr := Some(addr), apps := Some(apps))
  }

  function StartDriver(s: State, addr: Addresses, apps: seq<string>, c: Calls): (State, bool) {
    if !s.connected && !c.connect then (s, false)
    else if !c.clean then (s.(connected := true), false)
    else
      var configured := SetConfig(CLEAN, addr, apps, c);
      if !c.setAddresses || !c.setApps then (GiveUp(s.(device := configured), c), false)
      else if !c.start || !c.initRunningApps then (GiveUp(s.(device := configured.(running := c.start)), c), false)
      else (s.(connected := true, device := configured.(running := true)), true)
  }

  function WithRules(s: State, enable: bool, r4: Replies, r6: Replies): (State, bool) {
    var (next4, next6, ok) := BothFamilies(s.ipv4, s.ipv6, enable, r4, r6);
    (s.(ipv4 := next4, ipv6 := next6), ok)
  }

  /** Stops the driver, or starts it with the new configuration. */
  function SwitchDriver(s: State, m: Mode, addr: Addresses, apps: seq<string>, c: Calls): (State, bool) {
    if MustBeDisabled(m, addr, apps) then (StopDriver(s, c), true)
    else StartDriver(s, DriverAddresses(m, addr), apps, c)
  }

  function RenewRules(s: State, m: Mode, addr: Addresses, c: Calls): (State, bool) {
    if m.enabled && m.inversed && !addr.IsEmpty() then
      var (applied, ok) := WithRules(s, m.NeedsRules(), c.apply4, c.apply6);
      if ok then (applied, true) else (GiveUp(WithRules(applied, false, c.undo4, c.undo6).0, c), false)
    else (s, true)
  }

  function ApplyConfig(s: State, m: Mode, addr: Addresses, apps: seq<string>, c: Calls): (State, bool) {
    if !c.available then (s, true)
    else if !c.initialised then (s, false)
    else
      var a := EffectiveAddresses(m, addr);
      var (switched, ok) := SwitchDriver(WithRules(s, false, c.erase4, c.erase6).0, m, a, apps, c);
      if ok then RenewRules(switched, m, a, c) else (switched, false)
  }

  // ------------------------------------------------------------------
  // The driver
  // ------------------------------------------------------------------

  /** The call got as far as the driver. */
  predicate Reached(c: Calls) {
    c.available && c.initialised
  }

  /** With VPN some address is known, without VPN a public one; blocked applications have the black hole. */
  predicate HasAddresses(m: Mode, addr: Addresses) {
    if m.vpn then addr != Addresses(None, None, None, None)
    else (m.inversed && !m.allowWhenNoVpn) || addr.ipv4Public.Some? || addr.ipv6Public.Some?
  }

  /** Nothing is to be split: by the settings, without VPN unless its absence blocks, or without addresses. */
  predicate ToBeStopped(m: Mode, addr: Addresses, apps: seq<string>) {
    !m.enabled || apps == [] || !HasAddresses(m, addr) || (!m.vpn && (!m.inversed || m.allowWhenNoVpn))
  }

  /** Where Split Tunnel is not available there is nothing to do; a driver that was not initialised is an error. */
  lemma UnreachedChangesNothing(s: State, m: Mode, addr: Addresses, apps: seq<string>, c: Calls)
    requires !Reached(c)
    ensures ApplyConfig(s, m, addr, apps, c) == (s, !c.available)
  {
  }

  /** A start that fails while the driver is configured leaves it idle, with what it was told, until a clean works. */
  lemma FailedConfigurationStays(s: State, m: Mode, addr: Addresses, apps: seq<string>, c: Calls)
    requires Reached(c) && !ToBeStopped(m, addr, apps)
    requires (s.connected || c.connect) && c.clean && !(c.setAddresses && c.setApps)
    ensures var device := ApplyConfig(s, m, addr, apps, c).0.device;
            && !device.running && device.apps.None?
            && (device.addr.Some? <==> c.setAddresses && !c.finalClean)
            && (device.addr.Some? ==> device.addr.value == DriverAddresses(m, EffectiveAddresses(m, addr)))
  {
  }

  /** The rules of one family are not changed as asked: no route command, no next hop, or a failing add. */
  predicate FamilyFails(applied: Option<IP>, isIPv6: bool, enable: bool, r: Replies) {
    || !r.binaryKnown
    || (enable && (NextHop(isIPv6, r).None?
                   || (applied != NextHop(isIPv6, r) && exists m :: m in Masks(isIPv6) && m !in r.adds)))
  }

  /** The renewal of the rules is going to fail, for one of the families. */
  predicate RulesFail(s: State, m: Mode, addr: Addresses, c: Calls) {
    var applied4 := if c.erase4.binaryKnown then None else s.ipv4.applied;
    var applied6 := if c.erase6.binaryKnown then None else s.ipv6.applied;
    && m.enabled && m.inversed && HasAddresses(m, addr)
    && (FamilyFails(applied4, false, m.NeedsRules(), c.apply4) || FamilyFails(applied6, true, m.NeedsRules(), c.apply6))
  }

  /** All steps up to a running driver work. */
  predicate Starts(s: State, c: Calls) {
    (s.connected || c.connect) && c.clean && c.setAddresses && c.setApps && c.start && c.initRunningApps
  }

  lemma FamilyFailsMeans(s: Rules, isIPv6: bool, enable: bool, r: Replies)
    ensures DoApplyInverseRoutes(s, isIPv6, enable, r).1 <==> !FamilyFails(s.applied, isIPv6, enable, r)
    ensures !enable ==>
              DoApplyInverseRoutes(s, isIPv6, enable, r).0.applied == if r.binaryKnown then None else s.applied
  {
    var masks := Masks(isIPv6);
    assert masks[..|masks|] == masks;
  }

  lemma RulesFailMeans(s: State, m: Mode, addr: Addresses, c: Calls, switched: State)
    requires switched.ipv4 == WithRules(s, false, c.erase4, c.erase6).0.ipv4
    requires switched.ipv6 == WithRules(s, false, c.erase4, c.erase6).0.ipv6
    ensures RenewRules(switched, m, EffectiveAddresses(m, addr), c).1 <==> !RulesFail(s, m, addr, c)
  {
    FamilyFailsMeans(s.ipv4, false, false, c.erase4);
    FamilyFailsMeans(s.ipv6, true, false, c.erase6);
    FamilyFailsMeans(switched.ipv4, false, m.NeedsRules(), c.apply4);
    FamilyFailsMeans(switched.ipv6, true, m.NeedsRules(), c.apply6);
  }

  /** When a call that reaches the driver succeeds. */
  lemma ApplySucceeds(s: State, m: Mode, addr: Addresses, apps: seq<string>, c: Calls)
    requires Reached(c)
    ensures ApplyConfig(s, m, addr, apps, c).1
            <==> (ToBeStopped(m, addr, apps) || Starts(s, c)) && !RulesFail(s, m, addr, c)
  {
    var a := EffectiveAddresses(m, addr);
    var erased := WithRules(s, false, c.erase4, c.erase6).0;
    RulesFailMeans(s, m, addr, c, SwitchDriver(erased, m, a, apps, c).0);
  }

  /** The one failure that leaves the driver connected: the old configuration cannot be cleaned. */
  predicate FailsToClean(s: State, m: Mode, addr: Addresses, apps: seq<string>, c: Calls) {
    !ToBeStopped(m, addr, apps) && (s.connected || c.connect) && !c.clean
  }

  /**
    After success the driver is connected exactly when it must not be disabled; after a failure it is
    disconnected, except when the old configuration could not be cleaned.
  */
  lemma ConnectedAfterApply(s: State, m: Mode, addr: Addresses, apps: seq<string>, c: Calls)
    requires Reached(c)
    ensures ApplyConfig(s, m, addr, apps, c).1 ==>
              (ApplyConfig(s, m, addr, apps, c).0.connected <==> !ToBeStopped(m, addr, apps))
    ensures !ApplyConfig(s, m, addr, apps, c).1 ==>
              (ApplyConfig(s, m, addr, apps, c).0.connected <==> FailsToClean(s, m, addr, apps, c))
    ensures ApplyConfig(s, m, addr, apps, c).0.connected
            <==> FailsToClean(s, m, addr, apps, c)
                 || (!ToBeStopped(m, addr, apps) && Starts(s, c) && !RulesFail(s, m, addr, c))
  {
    ApplySucceeds(s, m, addr, apps, c);
  }

  /** A started driver splits the given applications, with the addresses of its mode. */
  lemma StartedAsConfigured(s: State, m: Mode, addr: Addresses, apps: seq<string>, c: Calls)
    requires Reached(c) && ApplyConfig(s, m, addr, apps, c).1 && !ToBeStopped(m, addr, apps)
    ensures ApplyConfig(s, m, addr, apps, c).0.device
            == Device(Some(DriverAddresses(m, EffectiveAddresses(m, addr))), Some(apps), true)
  {
  }

  /**
    When the driver is to split: Split Tunnel is enabled and there are applications; with VPN there are addresses,
    without VPN only the inverse mode that blocks the applications.
  */
  lemma SplitsWhenWanted(s: State, m: Mode, addr: Addresses, apps: seq<string>, c: Calls)
    requires Reached(c) && ApplyConfig(s, m, addr, apps, c).1 && c.clean && RunningConnected(s)
    ensures ApplyConfig(s, m, addr, apps, c).0.device.running
            <==> m.enabled && apps != []
                 && (if m.vpn then addr != Addresses(None, None, None, None) else m.inversed && !m.allowWhenNoVpn)
  {
  }

  /** What a started driver was told, from the interface addresses. */
  lemma AddressesOfDriver(s: State, m: Mode, addr: Addresses, apps: seq<string>, c: Calls)
    requires Reached(c) && ApplyConfig(s, m, addr, apps, c).1 && ApplyConfig(s, m, addr, apps, c).0.connected
    ensures var told := ApplyConfig(s, m, addr, apps, c).0.device.addr;
            told.Some?
            && (m.vpn && !m.inversed ==> told.value == addr)
            && (m.vpn && m.inversed ==>
                  told.value == Addresses(addr.ipv4Tunnel, addr.ipv4Public, addr.ipv6Tunnel,
                                          if addr.ipv6Public.Some? then addr.ipv6Public else addr.ipv6Tunnel))
            && (!m.vpn ==>
                  told.value == Addresses(Some(BLACKHOLE_IPV4), addr.ipv4Public, Some(BLACKHOLE_IPV6),
                                          if addr.ipv6Public.Some? then addr.ipv6Public else Some(BLACKHOLE_IPV6)))
  {
  }

  /** In inverse mode public and tunnel addresses are exchanged; a missing public IPv6 address is the tunnel's. */
  lemma AddressesAreExchanged(m: Mode, a: Addresses)
    requires m.inversed
    ensures DriverAddresses(m, DriverAddresses(m, a)) == a <==> (a.ipv6Public.Some? <==> a.ipv6Tunnel.Some?)
    ensures DriverAddresses(m, a).ipv4Public == a.ipv4Tunnel && DriverAddresses(m, a).ipv6Public == a.ipv6Tunnel
    ensures a.ipv6Tunnel.Some? ==> DriverAddresses(m, a).ipv6Tunnel.Some?
  {
  }

  // ------------------------------------------------------------------
  // The routing rules
  // ------------------------------------------------------------------

  ghost predicate RulesSound(s: State) {
    AllOrNothing(s.ipv4, Masks(false)) && AllOrNothing(s.ipv6, Masks(true))
  }

  ghost predicate Reliable(r: Replies, isIPv6: bool) {
    r.binaryKnown && forall m :: m in Masks(isIPv6) ==> m in r.erases && m in r.rollbacks
  }

  /** All deletes of routes work. */
  ghost predicate DeletesReliable(c: Calls) {
    && Reliable(c.erase4, false) && Reliable(c.apply4, false) && Reliable(c.undo4, false)
    && Reliable(c.erase6, true) && Reliable(c.apply6, true) && Reliable(c.undo6, true)
  }

  lemma WithRulesSound(s: State, enable: bool, r4: Replies, r6: Replies)
    requires RulesSound(s) && Reliable(r4, false) && Reliable(r6, true)
    ensures RulesSound(WithRules(s, enable, r4, r6).0)
    ensures !enable ==> NoRules(WithRules(s, enable, r4, r6).0) && WithRules(s, enable, r4, r6).1
    ensures enable && WithRules(s, enable, r4, r6).1 ==> BothApplied(WithRules(s, enable, r4, r6).0)
    ensures WithRules(s, enable, r4, r6).0 == s.(ipv4 := WithRules(s, enable, r4, r6).0.ipv4,
                                                 ipv6 := WithRules(s, enable, r4, r6).0.ipv6)
  {
    DeletesReliably(s.ipv4, false, enable, r4);
    DeletesReliably(s.ipv6, true, enable, r6);
    StaysAllOrNothing(s.ipv4, false, enable, r4);
    StaysAllOrNothing(s.ipv6, true, enable, r6);
  }

  lemma DeletesReliably(s: Rules, isIPv6: bool, enable: bool, r: Replies)
    requires Reliable(r, isIPv6)
    ensures DeletesWork(s, isIPv6, enable, r)
  {
  }

  predicate NoRules(s: State) {
    s.ipv4.applied.None? && s.ipv6.applied.None?
  }

  predicate BothApplied(s: State) {
    s.ipv4.applied.Some? && s.ipv6.applied.Some?
  }

  /**
    When deletes of routes work, the rules stay all-or-nothing.  After success both families have their
    rules if and only if the inverse mode is on with the VPN up, else neither has; after a failure neither has.
  */
  lemma RulesAfterApply(s: State, m: Mode, addr: Addresses, apps: seq<string>, c: Calls)
    requires Reached(c) && RulesSound(s) && DeletesReliable(c)
    ensures RulesSound(ApplyConfig(s, m, addr, apps, c).0)
    ensures ApplyConfig(s, m, addr, apps, c).1 && m.NeedsRules() && !addr.IsEmpty() ==>
              BothApplied(ApplyConfig(s, m, addr, apps, c).0)
    ensures !(ApplyConfig(s, m, addr, apps, c).1 && m.NeedsRules() && !addr.IsEmpty()) ==>
              NoRules(ApplyConfig(s, m, addr, apps, c).0)
  {
    var a := EffectiveAddresses(m, addr);
    WithRulesSound(s, false, c.erase4, c.erase6);
    var (switched, ok) := SwitchDriver(WithRules(s, false, c.erase4, c.erase6).0, m, a, apps, c);
    if ok {
      WithRulesSound(switched, m.NeedsRules(), c.apply4, c.apply6);
      WithRulesSound(WithRules(switched, m.NeedsRules(), c.apply4, c.apply6).0, false, c.undo4, c.undo6);
    }
  }

  // ------------------------------------------------------------------
  // Runs
  // ------------------------------------------------------------------

  datatype Request = Request(mode: Mode, addr: Addresses, apps: seq<string>, calls: Calls)

  function Run(s: State, requests: seq<Request>): State
    decreases requests
  {
    if requests == [] then s else
      var r := requests[0];
      Run(ApplyConfig(s, r.mode, r.addr, r.apps, r.calls).0, requests[1..])
  }

  /** The driver splits only while it is connected. */
  predicate RunningConnected(s: State) {
    s.device.running ==> s.connected
  }

  predicate CleansReliable(c: Calls) {
    c.clean && c.finalClean
  }

  /** In inverse mode without VPN, a splitting driver sends the applications into the black hole. */
  predicate SplitsIntoBlackHole(d: Device) {
    d.running ==> d.addr.Some? && d.addr.value.ipv4Public == Some(BLACKHOLE_IPV4)
                  && d.addr.value.ipv6Public == Some(BLACKHOLE_IPV6)
  }

  /**
    In a call that blocks the applications, the driver afterwards does not split or sends them into the black
    hole, whatever fails, if and only if the old configuration is cleaned away or was harmless; or the final
    clean does it, because without applications the routes could not be removed.  After success the driver
    splits if and only if it should, or the clean of a splitting driver failed.
  */
  lemma BlockedWithoutVpn(s: State, m: Mode, addr: Addresses, apps: seq<string>, c: Calls)
    requires Reached(c) && RunningConnected(s) && m.BlocksApps()
    ensures SplitsIntoBlackHole(ApplyConfig(s, m, addr, apps, c).0.device)
            <==> c.clean || SplitsIntoBlackHole(s.device)
                 || (c.finalClean && m.enabled && apps == [] && !(c.apply4.binaryKnown && c.apply6.binaryKnown))
    ensures ApplyConfig(s, m, addr, apps, c).1 ==>
              (ApplyConfig(s, m, addr, apps, c).0.device.running
               <==> (m.enabled && apps != []) || (s.device.running && !c.clean))
  {
  }

  /** The driver keeps splitting although it is given up: a clean fails after the stop, or after the start. */
  predicate LeavesSplitting(s: State, m: Mode, addr: Addresses, apps: seq<string>, c: Calls) {
    if ToBeStopped(m, addr, apps) then
      s.device.running && !c.clean && (c.finalClean ==> !RulesFail(s, m, addr, c))
    else
      (s.connected || c.connect) && c.clean && c.setAddresses && c.setApps && c.start && !c.finalClean
      && (!c.initRunningApps || RulesFail(s, m, addr, c))
  }

  lemma StopKeepsRunningConnected(s: State, m: Mode, addr: Addresses, apps: seq<string>, c: Calls)
    requires Reached(c) && RunningConnected(s) && ToBeStopped(m, addr, apps)
    ensures RunningConnected(ApplyConfig(s, m, addr, apps, c).0) <==> !LeavesSplitting(s, m, addr, apps, c)
  {
    ApplySucceeds(s, m, addr, apps, c);
  }

  lemma StartKeepsRunningConnected(s: State, m: Mode, addr: Addresses, apps: seq<string>, c: Calls)
    requires Reached(c) && RunningConnected(s) && !ToBeStopped(m, addr, apps)
    ensures RunningConnected(ApplyConfig(s, m, addr, apps, c).0) <==> !LeavesSplitting(s, m, addr, apps, c)
  {
    ApplySucceeds(s, m, addr, apps, c);
  }

  lemma ApplyKeepsRunningConnected(s: State, m: Mode, addr: Addresses, apps: seq<string>, c: Calls)
    requires Reached(c) && RunningConnected(s)
    ensures RunningConnected(ApplyConfig(s, m, addr, apps, c).0) <==> !LeavesSplitting(s, m, addr, apps, c)
  {
    if ToBeStopped(m, addr, apps) {
      StopKeepsRunningConnected(s, m, addr, apps, c);
    } else {
      StartKeepsRunningConnected(s, m, addr, apps, c);
    }
  }

  /** Over every run with working cleans, the last configuration decides whether applications are blocked. */
  lemma {:induction false} RunBlocksWithoutVpn(s: State, requests: seq<Request>)
    requires RunningConnected(s) && forall r :: r in requests ==> Reached(r.calls) && CleansReliable(r.calls)
    ensures RunningConnected(Run(s, requests))
    ensures requests != [] && requests[|requests| - 1].mode.BlocksApps() ==>
              SplitsIntoBlackHole(Run(s, requests).device)
    decreases requests
  {
    if requests != [] {
      var r := requests[0];
      ApplyKeepsRunningConnected(s, r.mode, r.addr, r.apps, r.calls);
      if |requests| == 1 && r.mode.BlocksApps() {
        BlockedWithoutVpn(s, r.mode, r.addr, r.apps, r.calls);
      }
      RunBlocksWithoutVpn(ApplyConfig(s, r.mode, r.addr, r.apps, r.calls).0, requests[1..]);
    }
  }

  /**
    A splitting driver that must be stopped: as long as the rules can be renewed the call succeeds, and the
    driver keeps splitting, though disconnected, if and only if its clean failed.
  */
  lemma FailedCleanKeepsSplitting(s: State, m: Mode, addr: Addresses, apps: seq<string>, c: Calls)
    requires Reached(c) && RunningConnected(s) && s.device.running
    requires ToBeStopped(m, addr, apps)
    ensures ApplyConfig(s, m, addr, apps, c).1 <==> !RulesFail(s, m, addr, c)
    ensures !RulesFail(s, m, addr, c) ==> (ApplyConfig(s, m, addr, apps, c).0.device.running <==> !c.clean)
    ensures !ApplyConfig(s, m, addr, apps, c).0.connected
  {
    ApplySucceeds(s, m, addr, apps, c);
  }

  // ------------------------------------------------------------------
  // The wrapper of the driver
  // ------------------------------------------------------------------

  class Driver {
    var isDriverConnected: bool
    var device: Device // state of the driver itself
    const ipv4: InverseRoutes
    const ipv6: InverseRoutes

    ghost predicate Valid()
    {
      ipv4 != ipv6 && !ipv4.isIPv6 && ipv6.isIPv6
    }

    function Snapshot(): State
      reads this, ipv4, ipv6
    {
      State(isDriverConnected, device, ipv4.Snapshot(), ipv6.Snapshot())
    }

    constructor (ipv4: InverseRoutes, ipv6: InverseRoutes)
      requires ipv4 != ipv6 && !ipv4.isIPv6 && ipv6.isIPv6
      ensures Valid() && Snapshot() == State(false, CLEAN, ipv4.Snapshot(), ipv6.Snapshot())
      ensures this.ipv4 == ipv4 && this.ipv6 == ipv6
    {
      this.ipv4, this.ipv6, isDriverConnected, device := ipv4, ipv6, false, CLEAN;
    }

    method Connect(works: bool) returns (ok: bool)
      modifies this`isDriverConnected
      ensures ok == (old(isDriverConnected) || works) && isDriverConnected == ok
    {
      if isDriverConnected {
        return true;
      }
      if !works {
        return false;
      }
      isDriverConnected := true;
      return true;
    }

    /** The flag is cleared first; whether the driver really disconnects does not matter. */
    method Disconnect()
      modifies this`isDriverConnected
      ensures !isDriverConnected
    {
      if !isDriverConnected {
        return;
      }
      isDriverConnected := false;
    }

    method StopAndClean(works: bool) returns (ok: bool)
      modifies this`device
      ensures device == Cleaned(old(device), works) && ok == works
    {
      if works {
        device := CLEAN;
      }
      return works;
    }

    method Configure(addr: Addresses, apps: seq<string>, c: Calls) returns (ok: bool)
      modifies this`device
      ensures device == SetConfig(old(device), addr, apps, c) && ok == (c.setAddresses && c.setApps)
    {
      if !c.setAddresses {
        return false;
      }
      device := device.(addr := Some(addr));
      if !c.setApps {
        return false;
      }
      device := device.(apps := Some(apps));
      return true;
    }

    /** The driver starts splitting before the running applications are given to it. */
    method Start(c: Calls) returns (ok: bool)
      modifies this`device
      ensures device == if c.start then old(device).(running := true) else old(device)
      ensures ok == (c.start && c.initRunningApps)
    {
      if !c.start {
        return false;
      }
      device := device.(running := true);
      return c.initRunningApps;
    }

    method Abandon(c: Calls)
      modifies this
      ensures Snapshot() == GiveUp(old(Snapshot()), c)
    {
      var _ := StopAndClean(c.finalClean);
      Disconnect();
    }

    method ConnectAndStart(addr: Addresses, apps: seq<string>, c: Calls) returns (ok: bool)
      modifies this
      ensures (Snapshot(), ok) == StartDriver(old(Snapshot()), addr, apps, c)
    {
      ok := Connect(c.connect);
      if !ok {
        return;
      }
      ok := StopAndClean(c.clean);
      if !ok {
        return;
      }
      ok := Configure(addr, apps, c);
      if !ok {
        Abandon(c);
        return;
      }
      ok := Start(c);
      if !ok {
        Abandon(c);
      }
    }

    method StopAndDisconnect(c: Calls)
      modifies this
      ensures Snapshot() == StopDriver(old(Snapshot()), c)
    {
      if isDriverConnected {
        var _ := StopAndClean(c.clean);
        Disconnect();
      }
    }

    /** Public and tunnel addresses are swapped in inverse mode. */
    method Switch(m: Mode, addr: Addresses, apps: seq<string>, c: Calls) returns (ok: bool)
      modifies this
      ensures (Snapshot(), ok) == SwitchDriver(old(Snapshot()), m, addr, apps, c)
    {
      if MustBeDisabled(m, addr, apps) {
        StopAndDisconnect(c);
        return true;
      }
      var addresses := addr;
      if m.inversed {
        if addresses.ipv6Public.None? && addresses.ipv6Tunnel.Some? {
          addresses := addresses.(ipv6Public := addresses.ipv6Tunnel);
        }
        var p4 := addresses.ipv4Public;
        addresses := addresses.(ipv4Public := addresses.ipv4Tunnel);
        addresses := addresses.(ipv4Tunnel := p4);
        var p6 := addresses.ipv6Public;
        addresses := addresses.(ipv6Public := addresses.ipv6Tunnel);
        addresses := addresses.(ipv6Tunnel := p6);
      }
      ok := ConnectAndStart(addresses, apps, c);
    }

    method Renew(m: Mode, addr: Addresses, c: Calls) returns (ok: bool)
      requires Valid()
      modifies this, ipv4, ipv6
      ensures (Snapshot(), ok) == RenewRules(old(Snapshot()), m, addr, c)
    {
      ok := true;
      if m.enabled && m.inversed && !addr.IsEmpty() {
        ok := ApplyInverseSplitTunRoutingRules(ipv4, ipv6, m.vpn, m.inversed, m.enabled, c.apply4, c.apply6);
        if !ok {
          var _ := ApplyInverseSplitTunRoutingRules(ipv4, ipv6, false, false, false, c.undo4, c.undo6);
          Abandon(c);
        }
      }
    }

    method Apply(m: Mode, addr: Addresses, apps: seq<string>, c: Calls) returns (ok: bool)
      requires Valid()
      modifies this, ipv4, ipv6
      ensures (Snapshot(), ok) == ApplyConfig(old(Snapshot()), m, addr, apps, c)
    {
      if !c.available {
        return true;
      }
      if !c.initialised {
        return false;
      }
      var a := addr;
      if !m.vpn {
        a := a.(ipv4Tunnel := None, ipv6Tunnel := None);
      }
      if m.inversed && !m.allowWhenNoVpn && !m.vpn {
        a := a.(ipv4Tunnel := Some(BLACKHOLE_IPV4), ipv6Tunnel := Some(BLACKHOLE_IPV6));
      }
      var _ := ApplyInverseSplitTunRoutingRules(ipv4, ipv6, false, false, false, c.erase4, c.erase6);
      ok := Switch(m, a, apps, c);
      if ok {
        ok := Renew(m, a, c);
      }
    }
  }
}
