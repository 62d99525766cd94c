/** The DNS settings of the service and the client requests that change them. */
module DnsService {
  import opened Wrappers
  import D = DnsOverride

  class DnsService {
    var connections: map<D.ClientId, bool> // connected clients and their IsPrioritizedDnsDefined flag
    var tempPrioritizedDns: D.TempDns
    var connectionParams: D.Params
    var tmpParams: Option<D.Params>        // None: undefined
    var anyDnsForInverse: bool
    var vpn: D.Vpn
    var vpnManualDns: D.Dns

    function Snapshot(): D.State
      reads this
    {
      D.State(connections, tempPrioritizedDns, connectionParams, tmpParams, anyDnsForInverse, vpn, vpnManualDns)
    }

    constructor (params: D.Params, anyDnsForInverse: bool)
      ensures Snapshot() == D.State(map[], D.NO_TEMP, params, None, anyDnsForInverse, D.NoCall, [])
    {
      connections, tempPrioritizedDns, connectionParams := map[], D.NO_TEMP, params;
      tmpParams, this.anyDnsForInverse, vpn, vpnManualDns := None, anyDnsForInverse, D.NoCall, [];
    }

    static method IsEmpty(dns: D.Dns) returns (empty: bool)
      ensures empty <==> D.IsEmpty(dns)
    {
      for i := 0 to |dns|
        invariant forall j :: 0 <= j < i ==> dns[j].IsEmpty()
      {
        if !dns[i].IsEmpty() {
          return false;
        }
      }
      return true;
    }

    static method Validate(dns: D.Dns) returns (valid: bool)
      ensures valid <==> D.IsValid(dns)
    {
      var empty := IsEmpty(dns);
      if empty {
        return true;
      }
      for i := 0 to |dns|
        invariant forall j :: 0 <= j < i ==> dns[j].Valid()
      {
        if !dns[i].Valid() {
          return false;
        }
      }
      return true;
    }

    method GetEffectiveDnsOverride(env: D.Env) returns (dns: Option<D.Dns>)
      ensures dns == D.Effective(Snapshot(), env.antiTrackerDns)
    {
      var noTemp := IsEmpty(tempPrioritizedDns.dns);
      if !noTemp {
        return Some(tempPrioritizedDns.dns);
      }
      if connectionParams.antiTracker.enabled {
        return env.antiTrackerDns;
      }
      return Some(connectionParams.manual);
    }

    method ApplyDnsOverride(env: D.Env) returns (reply: D.Reply)
      modifies this`vpnManualDns
      ensures D.Outcome(Snapshot(), reply) == D.ApplyOverride(old(Snapshot()), env)
    {
      if !vpn.Exists() {
        return D.Ok;
      }
      var dns := GetEffectiveDnsOverride(env);
      if dns.None? {
        return D.Refused(D.NoAntiTrackerDns);
      }
      if !env.vpnWorks {
        return D.Refused(D.ApplyFailed);
      }
      var reset := IsEmpty(dns.value);
      vpnManualDns := if reset then [] else dns.value;
      return D.Ok;
    }

    /** Changes only what differs from the stored settings. */
    method SaveDnsParams(manual: Option<D.Dns>, antiTracker: Option<D.AntiTracker>, temp: Option<D.TempDns>, env: D.Env)
      returns (reply: D.Reply)
      modifies this`tempPrioritizedDns, this`connectionParams
      ensures D.Outcome(Snapshot(), reply) == D.SaveParams(old(Snapshot()), manual, antiTracker, temp, env)
    {
      var params := connectionParams;
      var isDnsNew := manual.Some? && manual.value != params.manual;
      var isAttNew := antiTracker.Some? && antiTracker.value != params.antiTracker;
      var isTempNew := temp.Some? && temp.value != tempPrioritizedDns;
      if !isDnsNew && !isAttNew && !isTempNew {
        return D.Ok;
      }
      if isTempNew {
        tempPrioritizedDns := temp.value;
      }
      if isAttNew {
        if env.blockList.None? {
          return D.Refused(D.UnknownBlockList);
        }
        params := params.(antiTracker := antiTracker.value.(blockList := env.blockList.value));
      }
      if isDnsNew {
        params := params.(manual := manual.value);
      }
      connectionParams := params;
      return D.Ok;
    }

    method SetDnsOverride(manual: Option<D.Dns>, antiTracker: Option<D.AntiTracker>, temp: Option<D.TempDns>,
                          env: D.Env)
      returns (reply: D.Reply)
      modifies this`tempPrioritizedDns, this`connectionParams, this`vpnManualDns
      ensures D.Outcome(Snapshot(), reply) == D.SetOverride(old(Snapshot()), manual, antiTracker, temp, env)
    {
      var customDns := antiTracker.Some? && antiTracker.value.enabled;
      if manual.Some? {
        var valid := Validate(manual.value);
        if !valid {
          return D.Refused(D.Invalid);
        }
        var empty := IsEmpty(manual.value);
        customDns := customDns || !empty;
      }
      var described := temp;
      if temp.Some? {
        var valid := Validate(temp.value.dns);
        if !valid {
          return D.Refused(D.Invalid);
        }
        var empty := IsEmpty(temp.value.dns);
        if empty {
          described := Some(temp.value.(description := ""));
        }
        customDns := customDns || !empty;
      }
      if customDns && anyDnsForInverse {
        return D.Refused(D.Conflict);
      }
      reply := SaveDnsParams(manual, antiTracker, described, env);
      if reply.Ok? {
        reply := ApplyDnsOverride(env);
      }
    }

    method EnsureCanModifyDnsSettings(c: D.ClientId) returns (objection: Option<D.Error>)
      ensures objection == D.Objection(Snapshot(), c)
    {
      if c !in connections {
        return Some(D.UnknownClient);
      }
      var noTemp := IsEmpty(tempPrioritizedDns.dns);
      if !noTemp && !connections[c] {
        return Some(D.ManagedByOther);
      }
      return None;
    }

    method OnSetTempPrioritizedDns(c: D.ClientId, dns: D.Dns, description: string, env: D.Env) returns (reply: D.Reply)
      modifies this
      ensures D.Outcome(Snapshot(), reply) == D.Handle(old(Snapshot()), D.SetTemp(c, dns, description, env))
    {
      var objection := EnsureCanModifyDnsSettings(c);
      if objection.Some? {
        return D.Refused(objection.value);
      }
      reply := SetDnsOverride(None, None, Some(D.TempDns(dns, description)), env);
      if reply.Ok? {
        var empty := IsEmpty(dns);
        connections := connections[c := !empty];
      }
    }

    method OnSetAlternateDns(c: D.ClientId, manual: D.Dns, antiTracker: D.AntiTracker, env: D.Env)
      returns (reply: D.Reply)
      modifies this
      ensures D.Outcome(Snapshot(), reply) == D.Handle(old(Snapshot()), D.SetAlternate(c, manual, antiTracker, env))
    {
      var objection := EnsureCanModifyDnsSettings(c);
      if objection.Some? {
        return D.Refused(objection.value);
      }
      reply := SetDnsOverride(Some(manual), Some(antiTracker), None, env);
    }

    method OnClientConnected(c: D.ClientId)
      requires c !in connections
      modifies this`connections
      ensures Snapshot() == D.Handle(old(Snapshot()), D.ClientConnects(c)).state
    {
      connections := connections[c := false];
    }

    /** A leaving owner clears the temporary DNS; the result of that is ignored. */
    method OnClientDisconnected(c: D.ClientId, env: D.Env)
      requires c in connections
      modifies this
      ensures Snapshot() == D.Handle(old(Snapshot()), D.ClientDisconnects(c, env)).state
    {
      var isPrioritizedDnsDefined := connections[c];
      connections := connections - {c};
      if isPrioritizedDnsDefined {
        var ignored := SetDnsOverride(None, None, Some(D.NO_TEMP), env);
      }
    }

    /** While there is a VPN object the stored settings describe its connection and must not change. */
    method SetConnectionParams(params: D.Params, isDefined: bool)
      modifies this`tmpParams, this`connectionParams
      ensures Snapshot() == D.Handle(old(Snapshot()), D.StoreSettings(params, isDefined)).state
    {
      if vpn.Exists() {
        tmpParams := if isDefined then Some(params) else None;
      } else {
        connectionParams := params;
      }
    }

    method BeginConnect(params: D.Params)
      requires vpn.NoCall?
      modifies this`tmpParams, this`connectionParams, this`vpn
      ensures Snapshot() == D.Handle(old(Snapshot()), D.Connection(D.BeginCall(params))).state
    {
      tmpParams := None;
      connectionParams := params;
      vpn := D.NoObject;
    }

    method SetVpnObject()
      requires vpn.NoObject?
      modifies this`vpn, this`vpnManualDns
      ensures Snapshot() == D.Handle(old(Snapshot()), D.Connection(D.CreateObject)).state
    {
      vpn, vpnManualDns := D.Initializing, [];
    }

    method InitializeDns(env: D.Env) returns (reply: D.Reply)
      requires vpn.Initializing?
      modifies this`vpn, this`vpnManualDns
      ensures D.Outcome(Snapshot(), reply) == D.Handle(old(Snapshot()), D.Connection(D.InitializeDns(env)))
    {
      reply := ApplyDnsOverride(env);
      if reply.Ok? {
        vpn := D.Running;
      }
    }

    method ForgetVpnObject()
      requires vpn.Exists()
      modifies this`vpn, this`vpnManualDns
      ensures Snapshot() == D.Handle(old(Snapshot()), D.Connection(D.ForgetObject)).state
    {
      vpnManualDns := [];
      vpn := D.NoObject;
    }

    method EndConnect()
      requires vpn.NoObject?
      modifies this`connectionParams, this`vpn
      ensures Snapshot() == D.Handle(old(Snapshot()), D.Connection(D.EndCall)).state
    {
      if tmpParams.Some? {
        connectionParams := tmpParams.value;
      }
      vpn := D.NoCall;
    }

    /** The part of the Split Tunnel configuration that concerns DNS. */
    method AllowAnyDns(on: bool, works: bool) returns (reply: D.Reply)
      modifies this`anyDnsForInverse
      ensures D.Outcome(Snapshot(), reply) == D.Handle(old(Snapshot()), D.AllowAnyDns(on, works))
    {
      if on {
        var noManual := IsEmpty(connectionParams.manual);
        if connectionParams.antiTracker.enabled || !noManual {
          return D.Refused(D.Conflict);
        }
      }
      if !works {
        return D.Refused(D.ConfigFailed);
      }
      anyDnsForInverse := on;
      return D.Ok;
    }

    method ResetPreferences()
      modifies this`connectionParams, this`anyDnsForInverse
      ensures Snapshot() == D.Handle(old(Snapshot()), D.ResetSettings).state
    {
      connectionParams, anyDnsForInverse := D.DEFAULT_PARAMS, false;
    }
  }
}
