/**
  The routing rules of the inverse Split Tunnel on Windows: four /2 rules that lead all traffic past the
  VPN.  The commands that edit the routing table may fail one by one; the replies say which ones.
*/
module InverseRoutes {
  import opened Wrappers

  type Prefix = seq<bool> // the leading bits of the addresses of a network, its mask as long
  type IP = string

  datatype Route = Route(prefix: Prefix, nextHop: IP)

  /** What is known about one address family: the next hop of the applied rules, and the routing table. */
  datatype Rules = Rules(applied: Option<IP>, table: set<Route>)

  const BLACKHOLE_IPV4: IP := "192.0.2.255"
  const BLACKHOLE_IPV6: IP := "0100::1"

  function BlackHole(isIPv6: bool): IP {
    if isIPv6 then BLACKHOLE_IPV6 else BLACKHOLE_IPV4
  }

  /** The network of a /2 mask, by the first group of its address (an octet, or 16 bits with IPv6). */
  function TopTwoBits(group: nat, groupSize: nat): Prefix
    requires groupSize >= 4
  {
    [group / (groupSize / 2) % 2 == 1, group / (groupSize / 4) % 2 == 1]
  }

  const MASKS_IPV4: seq<Prefix> :=
    [TopTwoBits(0, 256), TopTwoBits(64, 256), TopTwoBits(128, 256), TopTwoBits(192, 256)]

  const MASKS_IPV6: seq<Prefix> :=
    [TopTwoBits(0, 0x10000), TopTwoBits(0x4000, 0x10000), TopTwoBits(0x8000, 0x10000), TopTwoBits(0xC000, 0x10000)]

  function Masks(isIPv6: bool): seq<Prefix> {
    if isIPv6 then MASKS_IPV6 else MASKS_IPV4
  }

  /**
    How the environment answers: the default gateway and whether the loopback interface is found, and which of
    the route commands work: deleting the old rules, adding the new ones, deleting what was added before a failure.
  */
  datatype Replies = Replies(binaryKnown: bool, gateway: Option<IP>, loopback: bool,
                             erases: set<Prefix>, adds: set<Prefix>, rollbacks: set<Prefix>)

  function RulesVia(masks: seq<Prefix>, hop: IP): set<Route> {
    set m | m in masks :: Route(m, hop)
  }

  function RemovedVia(masks: seq<Prefix>, works: set<Prefix>, hop: IP): set<Route> {
    set m | m in masks && m in works :: Route(m, hop)
  }

  function Erase(s: Rules, masks: seq<Prefix>, works: set<Prefix>): Rules {
    if s.applied.None? then s else Rules(None, s.table - RemovedVia(masks, works, s.applied.value))
  }

  /** How many rules can be added before the first failure. */
  function Added(masks: seq<Prefix>, adds: set<Prefix>): (n: nat)
    ensures n <= |masks|
    ensures forall m :: m in masks[..n] ==> m in adds
    ensures n < |masks| ==> masks[n] !in adds
  {
    if masks == [] || masks[0] !in adds then 0 else
      var n := Added(masks[1..], adds);
      assert masks[..1 + n] == [masks[0]] + masks[1..][..n];
      1 + n
  }

  function Add(s: Rules, hop: IP, masks: seq<Prefix>, r: Replies): (Rules, bool) {
    var n := Added(masks, r.adds);
    var next := Rules(Some(hop), s.table + RulesVia(masks[..n], hop));
    if n == |masks| then (next, true) else (Erase(next, masks[..n], r.rollbacks), false)
  }

  /** The next hop the rules are meant to use: without a default gateway the black hole. */
  function NextHop(isIPv6: bool, r: Replies): Option<IP> {
    if r.gateway.Some? then r.gateway
    else if r.loopback then Some(BlackHole(isIPv6))
    else None
  }

  /** The new rules, and whether the call succeeds. */
  function DoApplyInverseRoutes(s: Rules, isIPv6: bool, enable: bool, r: Replies): (Rules, bool) {
    if !r.binaryKnown then (s, false)
    else if !enable then (Erase(s, Masks(isIPv6), r.erases), true)
    else if NextHop(isIPv6, r).None? then (s, false)
    else if s.applied == NextHop(isIPv6, r) then (s, true)
    else Add(Erase(s, Masks(isIPv6), r.erases), NextHop(isIPv6, r).value, Masks(isIPv6), r)
  }

  // ------------------------------------------------------------------
  // All or nothing
  // ------------------------------------------------------------------

  /** The /2 rules of the table are those via the applied next hop, all four, or none. */
  ghost predicate AllOrNothing(s: Rules, masks: seq<Prefix>) {
    && (forall r :: r in s.table && r.prefix in masks ==> s.applied == Some(r.nextHop))
    && (s.applied.Some? ==> RulesVia(masks, s.applied.value) <= s.table)
  }

  ghost predicate SameOthers(a: set<Route>, b: set<Route>, masks: seq<Prefix>) {
    forall r: Route :: r.prefix !in masks ==> (r in a <==> r in b)
  }

  /** No delete command that is reached fails. */
  predicate DeletesWork(s: Rules, isIPv6: bool, enable: bool, r: Replies) {
    var masks, hop := Masks(isIPv6), NextHop(isIPv6, r);
    var erasing := r.binaryKnown && s.applied.Some? && (!enable || (hop.Some? && s.applied != hop));
    var adding := r.binaryKnown && enable && hop.Some? && s.applied != hop;
    && (erasing ==> forall m :: m in masks ==> m in r.erases)
    && (adding && Added(masks, r.adds) < |masks| ==>
          forall m :: m in masks[..Added(masks, r.adds)] ==> m in r.rollbacks)
  }

  lemma EraseClears(s: Rules, masks: seq<Prefix>, works: set<Prefix>)
    requires AllOrNothing(s, masks)
    ensures Erase(s, masks, works).applied.None? && SameOthers(s.table, Erase(s, masks, works).table, masks)
    ensures AllOrNothing(Erase(s, masks, works), masks)
            <==> (s.applied.Some? ==> forall m :: m in masks ==> m in works)
  {
    var e := Erase(s, masks, works);
    if s.applied.Some? {
      var hop := s.applied.value;
      forall m | m in masks ensures Route(m, hop) in e.table <==> m !in works {
        assert Route(m, hop) in RulesVia(masks, hop);
      }
    }
  }

  /** After a failed delete the rule stays, whatever is added afterwards. */
  lemma LeftoverStays(s: Rules, hop: IP, masks: seq<Prefix>, r: Replies, rule: Route)
    requires s.applied.None? && rule in s.table && rule.prefix in masks && rule.nextHop != hop
    ensures !AllOrNothing(Add(s, hop, masks, r).0, masks)
  {
  }

  lemma AddIsAllOrNothing(s: Rules, hop: IP, masks: seq<Prefix>, r: Replies)
    requires s.applied.None? && AllOrNothing(s, masks)
    ensures SameOthers(s.table, Add(s, hop, masks, r).0.table, masks)
    ensures AllOrNothing(Add(s, hop, masks, r).0, masks)
            <==> (Added(masks, r.adds) < |masks| ==>
                    forall m :: m in masks[..Added(masks, r.adds)] ==> m in r.rollbacks)
    ensures Add(s, hop, masks, r).1 <==> Add(s, hop, masks, r).0.applied == Some(hop)
  {
    var n := Added(masks, r.adds);
    if n == |masks| {
      assert masks[..n] == masks;
    } else {
      var next := Rules(Some(hop), s.table + RulesVia(masks[..n], hop));
      var e := Erase(next, masks[..n], r.rollbacks);
      forall m | m in masks[..n] ensures Route(m, hop) in e.table <==> m !in r.rollbacks {
        assert Route(m, hop) in RulesVia(masks[..n], hop);
      }
    }
  }

  /** The rules lead to the default gateway, or into the black hole if there is none. */
  lemma LeadsToGateway(s: Rules, isIPv6: bool, r: Replies)
    requires DoApplyInverseRoutes(s, isIPv6, true, r).1
    ensures r.gateway.Some? || r.loopback
    ensures DoApplyInverseRoutes(s, isIPv6, true, r).0.applied
            == if r.gateway.Some? then r.gateway else Some(if isIPv6 then BLACKHOLE_IPV6 else BLACKHOLE_IPV4)
  {
  }

  /**
    The rules stay all-or-nothing exactly when no delete command fails, wherever the adding fails; other
    routes are never touched.  A failure leaves no rules, except that without any interface to route to
    the previous rules stay.
  */
  lemma StaysAllOrNothing(s: Rules, isIPv6: bool, enable: bool, r: Replies)
    requires AllOrNothing(s, Masks(isIPv6))
    ensures AllOrNothing(DoApplyInverseRoutes(s, isIPv6, enable, r).0, Masks(isIPv6))
            <==> DeletesWork(s, isIPv6, enable, r)
    ensures SameOthers(s.table, DoApplyInverseRoutes(s, isIPv6, enable, r).0.table, Masks(isIPv6))
    ensures DoApplyInverseRoutes(s, isIPv6, enable, r).1 ==>
              DoApplyInverseRoutes(s, isIPv6, enable, r).0.applied == if enable then NextHop(isIPv6, r) else None
    ensures !DoApplyInverseRoutes(s, isIPv6, enable, r).1 ==>
              DoApplyInverseRoutes(s, isIPv6, enable, r).0.applied.None?
              || DoApplyInverseRoutes(s, isIPv6, enable, r).0 == s
  {
    var masks, hop := Masks(isIPv6), NextHop(isIPv6, r);
    EraseClears(s, masks, r.erases);
    if r.binaryKnown && enable && hop.Some? && s.applied != hop {
      var e := Erase(s, masks, r.erases);
      if AllOrNothing(e, masks) {
        AddIsAllOrNothing(e, hop.value, masks, r);
      } else {
        var rule :| rule in e.table && rule.prefix in masks;
        LeftoverStays(e, hop.value, masks, r, rule);
        AddTouchesMasksOnly(e, hop.value, masks, r);
      }
    }
  }

  lemma AddTouchesMasksOnly(s: Rules, hop: IP, masks: seq<Prefix>, r: Replies)
    ensures SameOthers(s.table, Add(s, hop, masks, r).0.table, masks)
    ensures Add(s, hop, masks, r).0.applied == if Add(s, hop, masks, r).1 then Some(hop) else None
  {
  }

  // ------------------------------------------------------------------
  // Where the traffic goes
  // ------------------------------------------------------------------

  predicate Matches(r: Route, address: seq<bool>) {
    r.prefix <= address
  }

  /** The route is used for the address: no route with a longer prefix matches. */
  ghost predicate Selected(r: Route, table: set<Route>, address: seq<bool>) {
    && r in table && Matches(r, address)
    && forall q :: q in table && Matches(q, address) ==> |q.prefix| <= |r.prefix|
  }

  ghost predicate AllTrafficVia(hop: IP, table: set<Route>, address: seq<bool>) {
    (exists r :: Selected(r, table, address)) && forall r :: Selected(r, table, address) ==> r.nextHop == hop
  }

  predicate IsAddress(isIPv6: bool, address: seq<bool>) {
    |address| == if isIPv6 then 128 else 32
  }

  /** Each address is in the network of exactly one of the masks, its first two bits. */
  lemma MasksCoverAddresses(isIPv6: bool, address: seq<bool>, m: Prefix)
    requires IsAddress(isIPv6, address)
    ensures address[..2] in Masks(isIPv6)
    ensures m in Masks(isIPv6) ==> |m| == 2 && (m <= address <==> m == address[..2])
  {
    var a := address[..2];
    if a[0] {
      assert if a[1] then a == [true, true] else a == [true, false];
    } else {
      assert if a[1] then a == [false, true] else a == [false, false];
    }
    assert Masks(isIPv6) == [[false, false], [false, true], [true, false], [true, true]];
  }

  /**
    With the rules applied, every address that no longer network of the table contains is routed to their
    next hop, past the default route and the two halves that the VPN routes to itself.
  */
  lemma AppliedRulesOverrideVpn(s: Rules, isIPv6: bool, address: seq<bool>)
    requires AllOrNothing(s, Masks(isIPv6)) && s.applied.Some? && IsAddress(isIPv6, address)
    requires forall r :: r in s.table && Matches(r, address) && r.prefix !in Masks(isIPv6) ==> |r.prefix| < 2
    ensures AllTrafficVia(s.applied.value, s.table, address)
  {
    var masks, hop := Masks(isIPv6), s.applied.value;
    var rule := Route(address[..2], hop);
    MasksCoverAddresses(isIPv6, address, address[..2]);
    assert rule in RulesVia(masks, hop);
    forall q | q in s.table && Matches(q, address) ensures |q.prefix| <= 2 {
      MasksCoverAddresses(isIPv6, address, q.prefix);
    }
    assert Selected(rule, s.table, address);
    forall q | Selected(q, s.table, address) ensures q.nextHop == hop {
      assert |q.prefix| >= |rule.prefix|;
    }
  }

  /** Without the rules, the two halves lead every address that no longer network contains into the VPN. */
  lemma ErasedRulesLeaveVpn(s: Rules, isIPv6: bool, vpn: IP, address: seq<bool>)
    requires AllOrNothing(s, Masks(isIPv6)) && s.applied.None? && IsAddress(isIPv6, address)
    requires Route([false], vpn) in s.table && Route([true], vpn) in s.table
    requires forall r :: r in s.table && Matches(r, address) && r.prefix !in Masks(isIPv6) ==>
               |r.prefix| == 0 || (|r.prefix| == 1 && r.nextHop == vpn)
    ensures AllTrafficVia(vpn, s.table, address)
  {
    var half := Route(if address[0] then [true] else [false], vpn);
    assert Matches(half, address);
    assert Selected(half, s.table, address);
    forall q | Selected(q, s.table, address) ensures q.nextHop == vpn {
      assert |q.prefix| >= |half.prefix|;
    }
  }

  // ------------------------------------------------------------------
  // The rules of one address family
  // ------------------------------------------------------------------

  class InverseRoutes {
    const isIPv6: bool
    var appliedNextHop: Option<IP>
    var table: set<Route>

    function Snapshot(): Rules
      reads this
    {
      Rules(appliedNextHop, table)
    }

    constructor (isIPv6: bool, table: set<Route>)
      ensures this.isIPv6 == isIPv6 && Snapshot() == Rules(None, table)
    {
      this.isIPv6, appliedNextHop, this.table := isIPv6, None, table;
    }

    method EraseRoutes(masksToErase: seq<Prefix>, works: set<Prefix>)
      modifies this
      ensures Snapshot() == Erase(old(Snapshot()), masksToErase, works)
    {
      if appliedNextHop.None? {
        return;
      }
      var hop := appliedNextHop.value;
      for i := 0 to |masksToErase|
        invariant appliedNextHop == Some(hop)
        invariant table == old(table) - RemovedVia(masksToErase[..i], works, hop)
      {
        assert masksToErase[..i + 1] == masksToErase[..i] + [masksToErase[i]];
        if masksToErase[i] in works {
          table := table - {Route(masksToErase[i], hop)};
        }
      }
      assert masksToErase[..|masksToErase|] == masksToErase;
      appliedNextHop := None;
    }

    method Apply(enable: bool, r: Replies) returns (ok: bool)
      modifies this
      ensures (Snapshot(), ok) == DoApplyInverseRoutes(old(Snapshot()), isIPv6, enable, r)
    {
      if !r.binaryKnown {
        return false;
      }
      var masks := Masks(isIPv6);
      if !enable {
        EraseRoutes(masks, r.erases);
        return true;
      }
      var defGateway: IP;
      if r.gateway.Some? {
        defGateway := r.gateway.value;
      } else {
        defGateway := BlackHole(isIPv6);
        if !r.loopback {
          return false;
        }
      }
      if appliedNextHop == Some(defGateway) {
        return true;
      }
      EraseRoutes(masks, r.erases);
      ok := AddRoutes(masks, defGateway, r);
    }

    method AddRoutes(masks: seq<Prefix>, hop: IP, r: Replies) returns (ok: bool)
      modifies this
      ensures (Snapshot(), ok) == Add(old(Snapshot()), hop, masks, r)
    {
      appliedNextHop := Some(hop);
      var masksApplied := [];
      for i := 0 to |masks|
        invariant masksApplied == masks[..i] && i <= Added(masks, r.adds)
        invariant Snapshot() == Rules(Some(hop), old(table) + RulesVia(masks[..i], hop))
      {
        assert masks[..i + 1] == masks[..i] + [masks[i]];
        StopsAtFailure(masks, r.adds, i);
        if masks[i] !in r.adds {
          EraseRoutes(masksApplied, r.rollbacks);
          return false;
        }
        table := table + {Route(masks[i], hop)};
        masksApplied := masksApplied + [masks[i]];
      }
      assert masks[..|masks|] == masks;
      return true;
    }
  }

  lemma StopsAtFailure(masks: seq<Prefix>, adds: set<Prefix>, i: nat)
    requires i < |masks| && i <= Added(masks, adds)
    ensures Added(masks, adds) == i <==> masks[i] !in adds
  {
  }

  function BothFamilies(s4: Rules, s6: Rules, enable: bool, r4: Replies, r6: Replies): (Rules, Rules, bool) {
    var (next4, ok4) := DoApplyInverseRoutes(s4, false, enable, r4);
    var (next6, ok6) := DoApplyInverseRoutes(s6, true, enable, r6);
    (next4, next6, ok4 && ok6)
  }

  /** Both address families, one after the other, whether or not the first one works. */
  method ApplyInverseSplitTunRoutingRules(ipv4: InverseRoutes, ipv6: InverseRoutes, isVpnEnabled: bool,
                                          isStInversed: bool, isStEnabled: bool, replies4: Replies, replies6: Replies)
    returns (ok: bool)
    requires ipv4 != ipv6 && !ipv4.isIPv6 && ipv6.isIPv6
    modifies ipv4, ipv6
    ensures (ipv4.Snapshot(), ipv6.Snapshot(), ok)
            == BothFamilies(old(ipv4.Snapshot()), old(ipv6.Snapshot()), isVpnEnabled && isStInversed && isStEnabled,
                            replies4, replies6)
  {
    var isNeedApplyRoutes := isVpnEnabled && isStInversed && isStEnabled;
    ok := true;
    var ok4 := ipv4.Apply(isNeedApplyRoutes, replies4);
    if !ok4 {
      ok := false;
    }
    var ok6 := ipv6.Apply(isNeedApplyRoutes, replies6);
    if !ok6 {
      ok := false;
    }
  }
}
