/** Ownership of the temporary DNS over all runs of client requests. */
module DnsRuns {
  import opened Wrappers
  import opened DnsOverride

  /** The temporary DNS is defined exactly when one connected client owns it. */
  ghost predicate Owned(s: State) {
    && (forall c, d :: c in s.clients && d in s.clients && s.clients[c] && s.clients[d] ==> c == d)
    && (!IsEmpty(s.temp.dns) <==> exists c :: c in s.clients && s.clients[c])
  }

  /**
    The gap: a permitted change of the temporary DNS is saved, the VPN object then rejects it, and
    the change would have defined or cleared the temporary DNS.
  */
  predicate Gap(s: State, r: Request) {
    && r.SetTemp?
    && Objection(s, r.c).None?
    && IsValid(r.dns)
    && !(s.anyDnsForInverse && !IsEmpty(r.dns))
    && IsEmpty(r.dns) != IsEmpty(s.temp.dns)
    && s.vpn.Exists()
    && (!r.env.vpnWorks
        || Effective(s.(temp := Described(TempDns(r.dns, r.description))), r.env.antiTrackerDns).None?)
  }

  /** A change of the temporary DNS is stored or leaves everything alone; the reply tells whether it took effect. */
  lemma OverrideTemp(s: State, temp: TempDns, env: Env)
    ensures var o := SetOverride(s, None, None, Some(temp), env);
            && o.state.clients == s.clients && o.state.params == s.params
            && (o.state.temp == s.temp || o.state.temp == Described(temp))
            && (o.reply.Ok? ==> o.state.temp == Described(temp))
            && (IsEmpty(temp.dns) ==> o.state.temp == Described(temp))
  {
  }

  /** Outside the gap every request keeps ownership intact; inside it ownership breaks. */
  lemma OwnedUnlessGap(s: State, r: Request)
    requires Owned(s)
    ensures Owned(Handle(s, r).state) <==> !Gap(s, r)
  {
    match r {
      case ClientConnects(c) =>
        ConnectKeepsOwned(s, c);
      case ClientDisconnects(c, env) =>
        DisconnectKeepsOwned(s, c, env);
      case SetTemp(c, dns, description, env) =>
        SetTempOwned(s, c, dns, description, env);
      case _ =>
        assert Handle(s, r).state.clients == s.clients && Handle(s, r).state.temp == s.temp;
    }
  }

  lemma ConnectKeepsOwned(s: State, c: ClientId)
    requires Owned(s)
    ensures Owned(Handle(s, ClientConnects(c)).state)
  {
    var n := Handle(s, ClientConnects(c)).state;
    if d :| d in s.clients && s.clients[d] {
      assert d in n.clients && n.clients[d];
    }
  }

  lemma DisconnectKeepsOwned(s: State, c: ClientId, env: Env)
    requires Owned(s)
    ensures Owned(Handle(s, ClientDisconnects(c, env)).state)
  {
    var n := Handle(s, ClientDisconnects(c, env)).state;
    if c in s.clients {
      OverrideTemp(s.(clients := s.clients - {c}), NO_TEMP, env);
      if !s.clients[c] {
        if d :| d in s.clients && s.clients[d] {
          assert d in n.clients && n.clients[d];
        }
      }
    }
  }

  lemma SetTempOwned(s: State, c: ClientId, dns: Dns, description: string, env: Env)
    requires Owned(s)
    ensures var r := SetTemp(c, dns, description, env);
            Owned(Handle(s, r).state) <==> !Gap(s, r)
  {
    var r := SetTemp(c, dns, description, env);
    var o := Handle(s, r);
    if Objection(s, c).None? {
      OverrideTemp(s, TempDns(dns, description), env);
      if o.reply.Ok? {
        OwnerAfterChange(s, c, dns, o.state);
      } else if Gap(s, r) {
        assert o.state.temp.dns == dns;
      } else {
        assert IsEmpty(o.state.temp.dns) == IsEmpty(s.temp.dns);
        assert o.state.clients == s.clients;
      }
    }
  }

  /** A successful change by a permitted client makes it the only owner, or leaves no owner. */
  lemma OwnerAfterChange(s: State, c: ClientId, dns: Dns, n: State)
    requires Owned(s) && Objection(s, c).None?
    requires n.clients == s.clients[c := !IsEmpty(dns)] && n.temp.dns == dns
    ensures Owned(n)
  {
    if !IsEmpty(dns) { assert n.clients[c]; }
  }

  predicate NoGap(s: State, rs: seq<Request>)
    decreases rs
  {
    rs == [] || (!Gap(s, rs[0]) && NoGap(Handle(s, rs[0]).state, rs[1..]))
  }

  lemma {:induction false} RunKeepsOwned(s: State, rs: seq<Request>)
    requires Owned(s) && NoGap(s, rs)
    ensures Owned(Run(s, rs))
    decreases rs
  {
    if rs != [] {
      OwnedUnlessGap(s, rs[0]);
      RunKeepsOwned(Handle(s, rs[0]).state, rs[1..]);
    }
  }

  predicate ByClient(r: Request, c: ClientId) {
    (r.ClientConnects? || r.ClientDisconnects? || r.SetAlternate? || r.SetTemp?) && r.c == c
  }

  /** Settings that are stored without asking whether the client may change the DNS. */
  function StoredUnasked(s: State, r: Request): Option<Params> {
    match r
    case StoreSettings(params, _) => if s.vpn.Exists() then None else Some(params)
    case Connection(BeginCall(params)) => if s.vpn.NoCall? then Some(params) else None
    case Connection(EndCall) => if s.vpn.NoObject? then s.pending else None
    case ResetSettings => Some(DEFAULT_PARAMS)
    case _ => None
  }

  /**
    While a client owns the temporary DNS, nobody else changes it or the DNS that takes effect, and a
    connection that gets ready uses it. The settings below it change only where no one is asked.
  */
  lemma OnlyOwnerChangesDns(s: State, owner: ClientId, r: Request, trackerDns: Option<Dns>)
    requires Owned(s) && owner in s.clients && s.clients[owner]
    requires !ByClient(r, owner)
    ensures var n := Handle(s, r).state;
            && n.temp == s.temp && owner in n.clients && n.clients[owner] && Owned(n)
            && Effective(n, trackerDns) == Effective(s, trackerDns) == Some(s.temp.dns)
            && n.params == (if StoredUnasked(s, r).Some? then StoredUnasked(s, r).value else s.params)
            && (n.vpn == s.vpn ==> n.applied == s.applied)
            && (n.vpn.Running? && !s.vpn.Running? ==> n.applied == s.temp.dns)
  {
    OwnedUnlessGap(s, r);
  }

  lemma {:induction false} OwnerKeepsDns(s: State, owner: ClientId, rs: seq<Request>, trackerDns: Option<Dns>)
    requires Owned(s) && owner in s.clients && s.clients[owner]
    requires forall r :: r in rs ==> !ByClient(r, owner)
    ensures var n := Run(s, rs);
            && n.temp == s.temp && owner in n.clients && n.clients[owner] && Owned(n)
            && Effective(n, trackerDns) == Effective(s, trackerDns)
    decreases rs
  {
    if rs != [] {
      OnlyOwnerChangesDns(s, owner, rs[0], trackerDns);
      OwnerKeepsDns(Handle(s, rs[0]).state, owner, rs[1..], trackerDns);
    }
  }

  /** The settings of the user survive: setting and clearing the temporary DNS restores them and the effective DNS. */
  lemma SetThenClearRestores(s: State, c: ClientId, dns: Dns, description: string, clear: Dns, env: Env)
    requires IsEmpty(s.temp.dns) && IsEmpty(clear) && c in s.clients
    requires Handle(s, SetTemp(c, dns, description, env)).reply.Ok?
    requires Handle(Handle(s, SetTemp(c, dns, description, env)).state, SetTemp(c, clear, description, env)).reply.Ok?
    ensures var during := Handle(s, SetTemp(c, dns, description, env)).state;
            var n := Handle(during, SetTemp(c, clear, description, env)).state;
            && n.params == s.params
            && IsEmpty(n.temp.dns) && !n.clients[c]
            && Effective(n, env.antiTrackerDns) == Effective(s, env.antiTrackerDns)
            && (s.vpn.Exists() ==> Some(n.applied) == Effective(s, env.antiTrackerDns)
                                   || (n.applied == [] && IsEmpty(Effective(s, env.antiTrackerDns).value)))
  {
  }

  /** A leaving owner restores the settings as well, even when the VPN object rejects the change. */
  lemma LeavingOwnerRestores(s: State, c: ClientId, env: Env)
    requires c in s.clients && s.clients[c]
    ensures var n := Handle(s, ClientDisconnects(c, env)).state;
            n.params == s.params && n.temp == NO_TEMP && c !in n.clients
  {
  }

  ghost predicate Orphaned(s: State) {
    !IsEmpty(s.temp.dns) && forall c :: c in s.clients ==> !s.clients[c]
  }

  /** A gap that defines the temporary DNS leaves it without owner. */
  lemma GapOrphans(s: State, r: Request)
    requires Owned(s) && Gap(s, r) && IsEmpty(s.temp.dns)
    ensures Orphaned(Handle(s, r).state)
  {
    OverrideTemp(s, TempDns(r.dns, r.description), r.env);
  }

  /** It then stays, and everybody is refused: no sequence of requests helps. */
  lemma {:induction false} GapLocksOut(s: State, rs: seq<Request>, c: ClientId)
    requires Orphaned(s)
    ensures var n := Run(s, rs);
            Orphaned(n) && n.temp == s.temp && Objection(n, c).Some?
    decreases rs
  {
    if rs != [] {
      GapLocksOut(Handle(s, rs[0]).state, rs[1..], c);
    }
  }

  // ------------------------------------------------------------------
  // Who may do what
  // ------------------------------------------------------------------

  /** A client is refused iff it is unknown, or somebody else's temporary DNS names a host; it then changes nothing. */
  lemma ObjectionMeans(s: State, r: Request)
    requires r.SetAlternate? || r.SetTemp?
    ensures var o := Handle(s, r);
            && (o.reply == Refused(UnknownClient) <==> r.c !in s.clients)
            && (o.reply == Refused(ManagedByOther)
                <==> r.c in s.clients && !s.clients[r.c]
                     && exists i :: 0 <= i < |s.temp.dns| && s.temp.dns[i].address.Host?)
            && (o.reply in {Refused(UnknownClient), Refused(ManagedByOther)} ==> o.state == s)
  {
  }

  /** Any DNS is refused iff it is switched on while the settings ask for a manual DNS or AntiTracker. */
  lemma AnyDnsMeans(s: State, on: bool, works: bool)
    ensures var o := Handle(s, AllowAnyDns(on, works));
            var asks := s.params.antiTracker.enabled
                        || exists i :: 0 <= i < |s.params.manual| && s.params.manual[i].address.Host?;
            && (o.reply == Ok <==> !(on && asks) && works)
            && (o.reply == Refused(Conflict) <==> on && asks)
            && (o.reply.Refused? ==> o.reply.error in {Conflict, ConfigFailed})
            && o.state == s.(anyDnsForInverse := if o.reply.Ok? then on else s.anyDnsForInverse)
  {
  }

  lemma OverrideKeepsClients(s: State, manual: Option<Dns>, antiTracker: Option<AntiTracker>, temp: Option<TempDns>,
                             env: Env)
    ensures SetOverride(s, manual, antiTracker, temp, env).state.clients == s.clients
  {
  }

  lemma StoreTempMarks(s: State, r: Request)
    requires r.SetTemp? && Objection(s, r.c).None?
    ensures Handle(s, r).state.clients
            == if Handle(s, r).reply.Ok? then s.clients[r.c := NamesHost(r.dns)] else s.clients
  {
    OverrideKeepsClients(s, None, None, Some(TempDns(r.dns, r.description)), r.env);
  }

  lemma LeaveForgets(s: State, c: ClientId, env: Env)
    ensures Leave(s, c, env).clients == s.clients - {c}
  {
    OverrideKeepsClients(s.(clients := s.clients - {c}), None, None, Some(NO_TEMP), env);
  }

  /** Clients come and go; only an accepted change of the temporary DNS makes an owner. */
  lemma WhoIsConnected(s: State, r: Request, c: ClientId)
    ensures c in Handle(s, r).state.clients
            <==> (r.ClientConnects? && r.c == c) || (c in s.clients && !(r.ClientDisconnects? && r.c == c))
    ensures c in Handle(s, r).state.clients ==>
              (Handle(s, r).state.clients[c]
               <==> if r.SetTemp? && r.c == c && Handle(s, r).reply.Ok? then NamesHost(r.dns)
                    else c in s.clients && s.clients[c])
  {
    match r {
      case ClientDisconnects(d, env) => LeaveForgets(s, d, env);
      case SetAlternate(_, manual, antiTracker, env) =>
        OverrideKeepsClients(s, Some(manual), Some(antiTracker), None, env);
      case SetTemp(d, _, _, _) => if Objection(s, d).None? { StoreTempMarks(s, r); }
      case _ =>
    }
  }

  /** The life of a call: begun without waiting settings, a VPN object per attempt with no DNS at first. */
  lemma CallsMean(s: State, step: Step)
    ensures var n := Handle(s, Connection(step)).state;
            && (s.vpn.NoCall? && !n.vpn.NoCall? <==> s.vpn.NoCall? && step.BeginCall?)
            && (s.vpn.NoCall? && step.BeginCall? ==>
                  n.vpn.NoObject? && n.pending.None? && n.params == step.params)
            && (n.vpn.Exists() && !s.vpn.Exists() <==> s.vpn.NoObject? && step.CreateObject?)
            && (n.vpn.Exists() && !s.vpn.Exists() ==> n.vpn.Initializing? && n.applied == [])
            && (s.vpn.Exists() && !n.vpn.Exists() <==> s.vpn.Exists() && step.ForgetObject?)
            && (s.vpn.Exists() && step.ForgetObject? ==> n.vpn.NoObject? && n.applied == [])
            && (n.vpn.Running? && !s.vpn.Running? ==> step.InitializeDns? && Handle(s, Connection(step)).reply.Ok?)
            && (s.vpn.Running? && !n.vpn.Running? ==> step.ForgetObject?)
            && (n.vpn.NoCall? && !s.vpn.NoCall? <==> s.vpn.NoObject? && step.EndCall?)
            && (!step.BeginCall? ==> n.pending == s.pending)
            && n.temp == s.temp && n.clients == s.clients && n.anyDnsForInverse == s.anyDnsForInverse
  {
  }

  /** A reset takes back every DNS setting that survives the daemon, and nothing else. */
  lemma ResetMeans(s: State)
    ensures Handle(s, ResetSettings).state
            == s.(params := Params([], AntiTracker(false, false, "")), anyDnsForInverse := false)
  {
  }

  // ------------------------------------------------------------------
  // Requests that are handled at the same time
  // ------------------------------------------------------------------

  /**
    Two clients pass the check before either change is stored. One owner results if and only if the
    change that is stored first clears the DNS; the order of the marks makes no difference.
  */
  lemma InterleavedRequestsShareOwnership(s: State, c: ClientId, first: TempDns, d: ClientId, second: TempDns, env: Env)
    requires Owned(s) && c != d && Objection(s, c).None? && Objection(s, d).None?
    requires SetOverride(s, None, None, Some(first), env).reply.Ok?
    requires SetOverride(SetOverride(s, None, None, Some(first), env).state, None, None, Some(second), env).reply.Ok?
    ensures var one := SetOverride(s, None, None, Some(first), env).state;
            var stored := SetOverride(one, None, None, Some(second), env).state;
            var n := MarkOwner(MarkOwner(stored, c, first.dns), d, second.dns);
            && n == MarkOwner(MarkOwner(stored, d, second.dns), c, first.dns)
            && (Owned(n) <==> IsEmpty(first.dns))
  {
    var one := SetOverride(s, None, None, Some(first), env).state;
    OverrideTemp(s, first, env);
    OverrideTemp(one, second, env);
    var stored := SetOverride(one, None, None, Some(second), env).state;
    var n := MarkOwner(MarkOwner(stored, c, first.dns), d, second.dns);
    assert n.clients == MarkOwner(MarkOwner(stored, d, second.dns), c, first.dns).clients;
    assert n.temp.dns == second.dns && n.clients[c] == !IsEmpty(first.dns) && n.clients[d] == !IsEmpty(second.dns);
    assert forall e :: e in s.clients && e != c && e != d ==> !s.clients[e];
  }

  /** A client that leaves before its change is stored: the DNS it defines has no owner. */
  lemma LeavingBeforeStoring(s: State, c: ClientId, temp: TempDns, env: Env)
    requires Owned(s) && Objection(s, c).None?
    requires SetOverride(Leave(s, c, env), None, None, Some(temp), env).reply.Ok?
    ensures var n := MarkOwner(SetOverride(Leave(s, c, env), None, None, Some(temp), env).state, c, temp.dns);
            Owned(n) <==> IsEmpty(temp.dns)
  {
    var left := Leave(s, c, env);
    OverrideTemp(s.(clients := s.clients - {c}), NO_TEMP, env);
    OverrideTemp(left, temp, env);
    assert forall e :: e in left.clients ==> !left.clients[e];
  }

  /** A client that leaves between storing and marking: likewise, unless it already was the owner. */
  lemma LeavingBeforeMarking(s: State, c: ClientId, temp: TempDns, env: Env)
    requires Owned(s) && Objection(s, c).None?
    requires SetOverride(s, None, None, Some(temp), env).reply.Ok?
    ensures var n := MarkOwner(Leave(SetOverride(s, None, None, Some(temp), env).state, c, env), c, temp.dns);
            Owned(n) <==> IsEmpty(temp.dns) || s.clients[c]
  {
    var stored := SetOverride(s, None, None, Some(temp), env).state;
    OverrideTemp(s, temp, env);
    OverrideTemp(stored.(clients := stored.clients - {c}), NO_TEMP, env);
    var n := Leave(stored, c, env);
    assert forall e :: e in n.clients ==> !n.clients[e];
  }

  // ------------------------------------------------------------------
  // Any DNS for Inverse Split Tunnel
  // ------------------------------------------------------------------

  /** Any DNS for Inverse Split Tunnel excludes every DNS override. */
  predicate Exclusive(s: State) {
    s.anyDnsForInverse ==> IsEmpty(s.temp.dns) && !Custom(s.params)
  }

  /**
    What no check covers: a temporary DNS when any DNS is switched on, and settings with a DNS
    override that are stored as a whole.
  */
  predicate Unchecked(s: State, r: Request) {
    || (r.AllowAnyDns? && r.on && r.works && !Custom(s.params) && !IsEmpty(s.temp.dns))
    || (s.anyDnsForInverse && StoredUnasked(s, r).Some? && Custom(StoredUnasked(s, r).value))
  }

  lemma ExclusiveUnlessUnchecked(s: State, r: Request)
    requires Exclusive(s)
    ensures Exclusive(Handle(s, r).state) <==> !Unchecked(s, r)
  {
  }

  // ------------------------------------------------------------------
  // The DNS in use
  // ------------------------------------------------------------------

  function Wanted(s: State, trackerDns: Option<Dns>): Option<Dns> {
    var dns := Effective(s, trackerDns);
    if dns.Some? then Some(Normal(dns.value)) else None
  }

  /** A connection that is ready uses the effective DNS. */
  predicate InUse(s: State, trackerDns: Option<Dns>) {
    s.vpn.Running? ==> Wanted(s, trackerDns) == Some(s.applied)
  }

  predicate PermitsTemp(s: State, c: ClientId, dns: Dns) {
    Objection(s, c).None? && IsValid(dns) && !(s.anyDnsForInverse && !IsEmpty(dns))
  }

  predicate PermitsAlternate(s: State, c: ClientId, manual: Dns, antiTracker: AntiTracker, env: Env) {
    && Objection(s, c).None? && IsValid(manual)
    && !(s.anyDnsForInverse && (!IsEmpty(manual) || antiTracker.enabled))
    && (antiTracker == s.params.antiTracker || env.blockList.Some?)
  }

  function NormalTracker(s: State, antiTracker: AntiTracker, env: Env): AntiTracker
    requires antiTracker == s.params.antiTracker || env.blockList.Some?
  {
    if antiTracker == s.params.antiTracker then antiTracker else antiTracker.(blockList := env.blockList.value)
  }

  /** The settings that a request is going to store, when its guards let it. */
  function GoingToStore(s: State, r: Request): Option<State> {
    match r
    case SetTemp(c, dns, description, _) =>
      if PermitsTemp(s, c, dns) then Some(s.(temp := Described(TempDns(dns, description)))) else None
    case SetAlternate(c, manual, antiTracker, env) =>
      if !PermitsAlternate(s, c, manual, antiTracker, env) then None
      else Some(s.(params := Params(manual, NormalTracker(s, antiTracker, env))))
    case ClientDisconnects(c, _) => if c in s.clients && s.clients[c] then Some(s.(temp := NO_TEMP)) else None
    case ResetSettings => Some(s.(params := DEFAULT_PARAMS))
    case _ => None
  }

  /** The VPN object is not going to take over what is stored: it rejects a DNS, there is none, or nobody asks it. */
  predicate IsNotApplied(stored: State, r: Request, trackerDns: Option<Dns>) {
    match r
    case SetTemp(_, _, _, env) => !env.vpnWorks || Wanted(stored, trackerDns).None?
    case SetAlternate(_, _, _, env) => !env.vpnWorks || Wanted(stored, trackerDns).None?
    case ClientDisconnects(_, env) => !env.vpnWorks || Wanted(stored, trackerDns).None?
    case _ => true
  }

  /** The gap: the request stores settings with another effective DNS, which are not applied. */
  predicate LeavesOldDns(s: State, r: Request, trackerDns: Option<Dns>) {
    var stored := GoingToStore(s, r);
    && s.vpn.Running? && stored.Some?
    && IsNotApplied(stored.value, r, trackerDns) && Wanted(stored.value, trackerDns) != Wanted(s, trackerDns)
  }

  predicate SameServers(r: Request, trackerDns: Option<Dns>) {
    match r
    case ClientDisconnects(_, env) => env.antiTrackerDns == trackerDns
    case SetAlternate(_, _, _, env) => env.antiTrackerDns == trackerDns
    case SetTemp(_, _, _, env) => env.antiTrackerDns == trackerDns
    case Connection(InitializeDns(env)) => env.antiTrackerDns == trackerDns
    case _ => true
  }

  lemma OverrideInUse(s: State, manual: Option<Dns>, antiTracker: Option<AntiTracker>, temp: Option<TempDns>, env: Env)
    ensures var o := SetOverride(s, manual, antiTracker, temp, env);
            && o.state.vpn == s.vpn
            && (o.reply.Ok? ==> InUse(o.state, env.antiTrackerDns))
            && (o.reply.Refused? ==> o.state.applied == s.applied)
  {
  }

  lemma SetTempInUse(s: State, r: Request)
    requires r.SetTemp? && InUse(s, r.env.antiTrackerDns)
    ensures InUse(Handle(s, r).state, r.env.antiTrackerDns) <==> !LeavesOldDns(s, r, r.env.antiTrackerDns)
  {
    if Objection(s, r.c).None? {
      OverrideInUse(s, None, None, Some(TempDns(r.dns, r.description)), r.env);
    }
  }

  lemma SetAlternateInUse(s: State, r: Request)
    requires r.SetAlternate? && InUse(s, r.env.antiTrackerDns)
    ensures InUse(Handle(s, r).state, r.env.antiTrackerDns) <==> !LeavesOldDns(s, r, r.env.antiTrackerDns)
  {
    if Objection(s, r.c).None? {
      OverrideInUse(s, Some(r.manual), Some(r.antiTracker), None, r.env);
    }
  }

  lemma LeaveInUse(s: State, c: ClientId, env: Env)
    requires InUse(s, env.antiTrackerDns)
    ensures InUse(Leave(s, c, env), env.antiTrackerDns)
            <==> !LeavesOldDns(s, ClientDisconnects(c, env), env.antiTrackerDns)
  {
    if c in s.clients && s.clients[c] {
      OverrideInUse(s.(clients := s.clients - {c}), None, None, Some(NO_TEMP), env);
    }
  }

  /** While the list of servers stays the same, a ready connection uses the effective DNS iff the gap is avoided. */
  lemma InUseUnlessOldDns(s: State, r: Request, trackerDns: Option<Dns>)
    requires InUse(s, trackerDns) && SameServers(r, trackerDns)
    ensures InUse(Handle(s, r).state, trackerDns) <==> !LeavesOldDns(s, r, trackerDns)
  {
    match r {
      case ClientDisconnects(c, env) => LeaveInUse(s, c, env);
      case SetTemp(_, _, _, _) => SetTempInUse(s, r);
      case SetAlternate(_, _, _, _) => SetAlternateInUse(s, r);
      case _ =>
    }
  }

  predicate NoOldDns(s: State, rs: seq<Request>, trackerDns: Option<Dns>)
    decreases rs
  {
    rs == [] || (SameServers(rs[0], trackerDns) && !LeavesOldDns(s, rs[0], trackerDns)
                 && NoOldDns(Handle(s, rs[0]).state, rs[1..], trackerDns))
  }

  lemma {:induction false} RunKeepsInUse(s: State, rs: seq<Request>, trackerDns: Option<Dns>)
    requires InUse(s, trackerDns) && NoOldDns(s, rs, trackerDns)
    ensures InUse(Run(s, rs), trackerDns)
    decreases rs
  {
    if rs != [] {
      InUseUnlessOldDns(s, rs[0], trackerDns);
      RunKeepsInUse(Handle(s, rs[0]).state, rs[1..], trackerDns);
    }
  }

  /** One server, defined as temporary DNS, that the VPN object rejects: the connection goes on with its default DNS. */
  lemma RejectedDnsExample(s: State, r: Request)
    requires s == State(map[0 := false], NO_TEMP, DEFAULT_PARAMS, None, false, Running, [])
    requires r == SetTemp(0, [Server(Host(1), EncryptionNone, "", false)], "", Env(None, None, false))
    ensures InUse(s, None) && Handle(s, r).reply == Refused(ApplyFailed) && !InUse(Handle(s, r).state, None)
  {
    assert !r.dns[0].IsEmpty();
    InUseUnlessOldDns(s, r, None);
  }

  /** A reset while a manual DNS is in use: the connection goes on with the DNS that is not in the settings any more. */
  lemma ResetExample(s: State, dns: Dns)
    requires dns == [Server(Host(1), EncryptionNone, "", false)]
    requires s == State(map[], NO_TEMP, Params(dns, AntiTracker(false, false, "")), None, false, Running, dns)
    ensures InUse(s, None) && !InUse(Handle(s, ResetSettings).state, None)
  {
    assert !dns[0].IsEmpty();
    InUseUnlessOldDns(s, ResetSettings, None);
  }

  // ------------------------------------------------------------------
  // Settings that wait for the end of the call
  // ------------------------------------------------------------------

  predicate KeepsWaiting(r: Request) {
    !r.StoreSettings? && !(r.Connection? && (r.step.BeginCall? || r.step.EndCall?))
  }

  predicate KeepsParams(r: Request) {
    KeepsWaiting(r) && !r.SetAlternate? && !r.ResetSettings?
  }

  lemma StepWaits(s: State, r: Request)
    requires KeepsWaiting(r)
    ensures var n := Handle(s, r).state;
            n.pending == s.pending && (n.vpn.NoCall? <==> s.vpn.NoCall?) && (KeepsParams(r) ==> n.params == s.params)
  {
    match r {
      case SetAlternate(_, _, _, _) =>
      case Connection(step) =>
      case _ =>
    }
  }

  lemma {:induction false} PendingWaits(s: State, rs: seq<Request>)
    requires forall r :: r in rs ==> KeepsWaiting(r)
    ensures var n := Run(s, rs);
            && n.pending == s.pending && (n.vpn.NoCall? <==> s.vpn.NoCall?)
            && ((forall r :: r in rs ==> KeepsParams(r)) ==> n.params == s.params)
    decreases rs
  {
    if rs != [] {
      var first, rest := rs[0], rs[1..];
      assert first in rs && forall r :: r in rest ==> r in rs;
      StepWaits(s, first);
      PendingWaits(Handle(s, first).state, rest);
    }
  }

  /** Settings received while there is a VPN object are those at the end of the call, whatever is set meanwhile. */
  lemma StoredSettingsArrive(s: State, params: Params, rs: seq<Request>)
    requires s.vpn.Exists() && (forall r :: r in rs ==> KeepsWaiting(r))
    ensures var n := Run(Handle(s, StoreSettings(params, true)).state, rs);
            n.vpn.NoObject? ==> Handle(n, Connection(EndCall)).state.params == params
  {
    PendingWaits(Handle(s, StoreSettings(params, true)).state, rs);
  }

  /** The settings that are stored during a call survive its end if and only if no others are waiting. */
  lemma EndKeepsSettings(s: State, rs: seq<Request>)
    requires !s.vpn.NoCall?
    requires forall r :: r in rs ==> KeepsParams(r)
    requires Run(s, rs).vpn.NoObject?
    ensures Handle(Run(s, rs), Connection(EndCall)).state.params == s.params <==> s.pending in {None, Some(s.params)}
  {
    assert forall r :: r in rs ==> KeepsWaiting(r);
    PendingWaits(s, rs);
  }

  /** In effect is the temporary DNS if it names a host, else AntiTracker if it is enabled, else the manual DNS. */
  lemma EffectiveMeans(s: State, trackerDns: Option<Dns>)
    ensures Effective(s, trackerDns)
            == if exists i :: 0 <= i < |s.temp.dns| && s.temp.dns[i].address.Host? then Some(s.temp.dns)
               else if s.params.antiTracker.enabled then trackerDns
               else Some(s.params.manual)
  {
  }

  /** A DNS is valid iff each server that names a host has a known encryption, and the template it needs. */
  lemma ValidMeans(d: Dns)
    ensures IsValid(d)
            <==> forall i :: 0 <= i < |d| && d[i].address.Host? ==>
                               && !d[i].encryption.UnsupportedEncryption?
                               && (d[i].encryption.EncryptionNone? <==> d[i].template == "")
                               && (d[i].encryption.DnsOverHttps? ==> d[i].templateIsUrl)
  {
  }

  ghost predicate NamesHost(d: Dns) {
    exists i :: 0 <= i < |d| && d[i].address.Host?
  }

  /** Which reply a change gets, the guards first. */
  lemma OverrideReplies(s: State, manual: Option<Dns>, antiTracker: Option<AntiTracker>, temp: Option<TempDns>,
                        env: Env)
    ensures var reply := SetOverride(s, manual, antiTracker, temp, env).reply;
            var invalid := (manual.Some? && !IsValid(manual.value)) || (temp.Some? && !IsValid(temp.value.dns));
            var asks := (manual.Some? && NamesHost(manual.value)) || (antiTracker.Some? && antiTracker.value.enabled)
                        || (temp.Some? && NamesHost(temp.value.dns));
            var conflict := s.anyDnsForInverse && asks;
            var unknown := antiTracker.Some? && antiTracker.value != s.params.antiTracker && env.blockList.None?;
            && (reply == Refused(Invalid) <==> invalid)
            && (reply == Refused(Conflict) <==> !invalid && conflict)
            && (reply == Refused(UnknownBlockList) <==> !invalid && !conflict && unknown)
            && (reply.Refused? ==> reply.error in {Invalid, Conflict, UnknownBlockList, NoAntiTrackerDns, ApplyFailed})
            && (reply in {Refused(NoAntiTrackerDns), Refused(ApplyFailed)}
                <==> !invalid && !conflict && !unknown && s.vpn.Exists()
                     && (!env.vpnWorks
                         || Effective(SetOverride(s, manual, antiTracker, temp, env).state, env.antiTrackerDns).None?))
  {
  }

  lemma SavedAsAsked(s: State, manual: Option<Dns>, antiTracker: Option<AntiTracker>, temp: Option<TempDns>, env: Env)
    requires SaveParams(s, manual, antiTracker, temp, env).reply.Ok?
    ensures var n := SaveParams(s, manual, antiTracker, temp, env).state;
            var newTracker := antiTracker.Some? && antiTracker.value != s.params.antiTracker;
            && n.params.manual == (if manual.Some? then manual.value else s.params.manual)
            && (!newTracker ==> n.params.antiTracker == s.params.antiTracker)
            && (newTracker ==> env.blockList.Some?
                               && n.params.antiTracker == antiTracker.value.(blockList := env.blockList.value))
            && n.temp == (if temp.Some? then temp.value else s.temp)
            && n == s.(params := n.params, temp := n.temp)
  {
  }

  lemma AppliedIsEffective(s: State, env: Env)
    requires ApplyOverride(s, env).reply.Ok?
    ensures var n := ApplyOverride(s, env).state;
            && n == s.(applied := n.applied)
            && (!s.vpn.Exists() ==> n.applied == s.applied)
            && (s.vpn.Exists() ==>
                  match Effective(n, env.antiTrackerDns)
                  case Some(dns) => n.applied == if NamesHost(dns) then dns else []
                  case None => false)
  {
  }

  /** A successful change is saved as asked, and the VPN object then uses the effective DNS. */
  lemma SuccessIsSavedAndApplied(s: State, manual: Option<Dns>, antiTracker: Option<AntiTracker>,
                                 temp: Option<TempDns>, env: Env)
    requires SetOverride(s, manual, antiTracker, temp, env).reply.Ok?
    ensures var n := SetOverride(s, manual, antiTracker, temp, env).state;
            var newTracker := antiTracker.Some? && antiTracker.value != s.params.antiTracker;
            && n.params.manual == (if manual.Some? then manual.value else s.params.manual)
            && (!newTracker ==> n.params.antiTracker == s.params.antiTracker)
            && (newTracker ==> env.blockList.Some?
                               && n.params.antiTracker == antiTracker.value.(blockList := env.blockList.value))
            && (temp.None? ==> n.temp == s.temp)
            && (temp.Some? ==> n.temp == TempDns(temp.value.dns,
                                                 if NamesHost(temp.value.dns) then temp.value.description else ""))
            && n == s.(params := n.params, temp := n.temp, applied := n.applied)
            && (!n.vpn.Exists() ==> n.applied == s.applied)
            && (n.vpn.Exists() ==>
                  match Effective(n, env.antiTrackerDns)
                  case Some(dns) => n.applied == if NamesHost(dns) then dns else []
                  case None => false)
  {
    var described := if temp.Some? then Some(Described(temp.value)) else None;
    var saved := SaveParams(s, manual, antiTracker, described, env).state;
    SavedAsAsked(s, manual, antiTracker, described, env);
    AppliedIsEffective(saved, env);
    assert SetOverride(s, manual, antiTracker, temp, env) == ApplyOverride(saved, env);
  }

  /** A request that is refused before it is saved changes nothing. */
  lemma RefusalKeepsSettings(s: State, manual: Option<Dns>, antiTracker: Option<AntiTracker>,
                             temp: Option<TempDns>, env: Env)
    requires SetOverride(s, manual, antiTracker, temp, env).reply in {Refused(Invalid), Refused(Conflict)}
    ensures SetOverride(s, manual, antiTracker, temp, env).state == s
  {
  }
}
