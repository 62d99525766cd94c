/**
  The DNS override: a manual DNS and AntiTracker from the settings, and a temporary prioritised DNS
  that belongs to one connected client.
*/
module DnsOverride {
  import opened Wrappers

  /** Anything but the IP address of a host counts as none. */
  datatype Address = NoAddress | Unspecified | Host(id: nat)

  datatype Encryption = EncryptionNone | DnsOverTls | DnsOverHttps | UnsupportedEncryption

  datatype Server = Server(address: Address, encryption: Encryption, template: string, templateIsUrl: bool) {
    predicate IsEmpty() {
      !address.Host?
    }

    /** Empty servers are accepted whatever else they contain. */
    predicate Valid() {
      IsEmpty() || match encryption
                   case EncryptionNone => template == ""
                   case DnsOverTls => template != ""
                   case DnsOverHttps => template != "" && templateIsUrl
                   case UnsupportedEncryption => false
    }
  }

  type Dns = seq<Server>

  predicate IsEmpty(d: Dns) {
    forall i :: 0 <= i < |d| ==> d[i].IsEmpty()
  }

  predicate IsValid(d: Dns) {
    IsEmpty(d) || forall i :: 0 <= i < |d| ==> d[i].Valid()
  }

  datatype AntiTracker = AntiTracker(enabled: bool, hardcore: bool, blockList: string)

  datatype TempDns = TempDns(dns: Dns, description: string)

  const NO_TEMP := TempDns([], "")

  /** The part of the connection settings that concerns DNS. */
  datatype Params = Params(manual: Dns, antiTracker: AntiTracker)

  type ClientId = nat

  /** A call of Service.Connect: none, one without VPN object, its DNS not applied yet, or applied. */
  datatype Vpn = NoCall | NoObject | Initializing | Running {
    /** What the service calls connected: there is a VPN object. */
    predicate Exists() {
      Initializing? || Running?
    }
  }

  datatype State = State(
    clients: map<ClientId, bool>, // connected clients; true: has defined the prioritised DNS
    temp: TempDns,
    params: Params,
    pending: Option<Params>,      // settings received while there was a VPN object
    anyDnsForInverse: bool,       // Inverse Split Tunnel with any DNS allowed
    vpn: Vpn,
    applied: Dns)                 // the override of the VPN connection; empty: its default DNS

  datatype Error = UnknownClient | ManagedByOther | Invalid | Conflict | UnknownBlockList | NoAntiTrackerDns
                 | ApplyFailed | ConfigFailed

  datatype Reply = Ok | Refused(error: Error)

  datatype Outcome = Outcome(state: State, reply: Reply)

  /**
    The environment: the normalised name of a block list (None: unknown), the DNS of an enabled
    AntiTracker (None: cannot be determined), and whether the VPN object accepts a DNS.
  */
  datatype Env = Env(blockList: Option<string>, antiTrackerDns: Option<Dns>, vpnWorks: bool)

  /** Priority: temporary DNS, AntiTracker, manual DNS. */
  function Effective(s: State, antiTrackerDns: Option<Dns>): Option<Dns> {
    if !IsEmpty(s.temp.dns) then Some(s.temp.dns)
    else if s.params.antiTracker.enabled then antiTrackerDns
    else Some(s.params.manual)
  }

  /** An empty DNS means no override. */
  function Normal(d: Dns): Dns {
    if IsEmpty(d) then [] else d
  }

  function ApplyOverride(s: State, env: Env): Outcome {
    var dns := Effective(s, env.antiTrackerDns);
    if !s.vpn.Exists() then Outcome(s, Ok)
    else if dns.None? then Outcome(s, Refused(NoAntiTrackerDns))
    else if !env.vpnWorks then Outcome(s, Refused(ApplyFailed))
    else Outcome(s.(applied := Normal(dns.value)), Ok)
  }

  /** The temporary DNS is stored first, so it stays stored when the block list is unknown. */
  function SaveParams(s: State, manual: Option<Dns>, antiTracker: Option<AntiTracker>, temp: Option<TempDns>,
                      env: Env): Outcome {
    var withTemp := if temp.Some? then s.(temp := temp.value) else s;
    var newTracker := antiTracker.Some? && antiTracker.value != s.params.antiTracker;
    if newTracker && env.blockList.None? then Outcome(withTemp, Refused(UnknownBlockList))
    else
      var tracker := if newTracker then antiTracker.value.(blockList := env.blockList.value) else s.params.antiTracker;
      Outcome(withTemp.(params := Params(if manual.Some? then manual.value else s.params.manual, tracker)), Ok)
  }

  function Described(temp: TempDns): TempDns {
    if IsEmpty(temp.dns) then temp.(description := "") else temp
  }

  /** Whether a change turns on something that an Inverse Split Tunnel with any DNS excludes. */
  predicate AsksForCustom(manual: Option<Dns>, antiTracker: Option<AntiTracker>, temp: Option<TempDns>) {
    || (manual.Some? && !IsEmpty(manual.value))
    || (antiTracker.Some? && antiTracker.value.enabled)
    || (temp.Some? && !IsEmpty(temp.value.dns))
  }

  function SetOverride(s: State, manual: Option<Dns>, antiTracker: Option<AntiTracker>, temp: Option<TempDns>,
                       env: Env): Outcome {
    if (manual.Some? && !IsValid(manual.value)) || (temp.Some? && !IsValid(temp.value.dns)) then
      Outcome(s, Refused(Invalid))
    else if s.anyDnsForInverse && AsksForCustom(manual, antiTracker, temp) then Outcome(s, Refused(Conflict))
    else
      var saved := SaveParams(s, manual, antiTracker, if temp.Some? then Some(Described(temp.value)) else None, env);
      if saved.reply.Refused? then saved else ApplyOverride(saved.state, env)
  }

  // ------------------------------------------------------------------
  // Requests about DNS
  // ------------------------------------------------------------------

  /** The temporary DNS of another client blocks every change. */
  function Objection(s: State, c: ClientId): Option<Error> {
    if c !in s.clients then Some(UnknownClient)
    else if !IsEmpty(s.temp.dns) && !s.clients[c] then Some(ManagedByOther)
    else None
  }

  /** The flag is set in the record of the connection, which nobody sees any more once the client has left. */
  function MarkOwner(s: State, c: ClientId, dns: Dns): State {
    if c in s.clients then s.(clients := s.clients[c := !IsEmpty(dns)]) else s
  }

  /** The flag of the client follows a successful change only. */
  function StoreTemp(s: State, c: ClientId, dns: Dns, description: string, env: Env): Outcome {
    var o := SetOverride(s, None, None, Some(TempDns(dns, description)), env);
    if o.reply.Ok? then Outcome(MarkOwner(o.state, c, dns), Ok) else o
  }

  // ------------------------------------------------------------------
  // Connection settings and the VPN
  // ------------------------------------------------------------------

  const DEFAULT_PARAMS := Params([], AntiTracker(false, false, ""))

  predicate Custom(p: Params) {
    !IsEmpty(p.manual) || p.antiTracker.enabled
  }

  /** Settings received while there is a VPN object wait; undefined ones make an end of the waiting. */
  function Store(s: State, params: Params, isDefined: bool): State {
    if s.vpn.Exists() then s.(pending := if isDefined then Some(params) else None) else s.(params := params)
  }

  function EndOfCall(s: State): State {
    s.(vpn := NoCall, params := if s.pending.Some? then s.pending.value else s.params)
  }

  /** Switching it on is refused while the settings ask for a manual DNS or AntiTracker. */
  function AllowAny(s: State, on: bool, works: bool): Outcome {
    if on && Custom(s.params) then Outcome(s, Refused(Conflict))
    else if works then Outcome(s.(anyDnsForInverse := on), Ok)
    else Outcome(s, Refused(ConfigFailed))
  }

  datatype Step = BeginCall(params: Params) | CreateObject | InitializeDns(env: Env) | ForgetObject | EndCall

  /** A step that cannot happen in the current phase changes nothing. */
  function TakeStep(s: State, step: Step): Outcome {
    match step
    case BeginCall(params) =>
      Outcome(if s.vpn.NoCall? then s.(vpn := NoObject, pending := None, params := params) else s, Ok)
    case CreateObject =>
      Outcome(if s.vpn.NoObject? then s.(vpn := Initializing, applied := []) else s, Ok)
    case InitializeDns(env) =>
      if !s.vpn.Initializing? then Outcome(s, Ok)
      else
        var o := ApplyOverride(s, env);
        if o.reply.Ok? then Outcome(o.state.(vpn := Running), Ok) else o
    case ForgetObject =>
      Outcome(if s.vpn.Exists() then s.(vpn := NoObject, applied := []) else s, Ok)
    case EndCall =>
      Outcome(if s.vpn.NoObject? then EndOfCall(s) else s, Ok)
  }

  /** Requests of clients, and what happens to the connection. */
  datatype Request =
    | ClientConnects(c: ClientId)
    | ClientDisconnects(c: ClientId, env: Env)
    | SetAlternate(c: ClientId, manual: Dns, antiTracker: AntiTracker, env: Env)
    | SetTemp(c: ClientId, dns: Dns, description: string, env: Env)
    | StoreSettings(params: Params, isDefined: bool) // of any client
    | Connection(step: Step)                         // begun by any client, or automatically
    | AllowAnyDns(on: bool, works: bool)             // works: the rest of the configuration is accepted
    | ResetSettings

  function Connect(s: State, c: ClientId): State {
    if c in s.clients then s else s.(clients := s.clients[c := false])
  }

  /** The outcome of a leaving owner's last change is ignored. */
  function Leave(s: State, c: ClientId, env: Env): State {
    if c !in s.clients then s
    else
      var gone := s.(clients := s.clients - {c});
      if s.clients[c] then SetOverride(gone, None, None, Some(NO_TEMP), env).state else gone
  }

  function Handle(s: State, r: Request): Outcome {
    match r
    case ClientConnects(c) => Outcome(Connect(s, c), Ok)
    case ClientDisconnects(c, env) => Outcome(Leave(s, c, env), Ok)
    case SetAlternate(c, manual, antiTracker, env) =>
      var objection := Objection(s, c);
      if objection.Some? then Outcome(s, Refused(objection.value))
      else SetOverride(s, Some(manual), Some(antiTracker), None, env)
    case SetTemp(c, dns, description, env) =>
      var objection := Objection(s, c);
      if objection.Some? then Outcome(s, Refused(objection.value))
      else StoreTemp(s, c, dns, description, env)
    case StoreSettings(params, isDefined) => Outcome(Store(s, params, isDefined), Ok)
    case Connection(step) => TakeStep(s, step)
    case AllowAnyDns(on, works) => AllowAny(s, on, works)
    case ResetSettings => Outcome(s.(params := DEFAULT_PARAMS, anyDnsForInverse := false), Ok)
  }

  function Run(s: State, rs: seq<Request>): State
    decreases rs
  {
    if rs == [] then s else Run(Handle(s, rs[0]).state, rs[1..])
  }
}
