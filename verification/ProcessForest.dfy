/**
  The processes of the Linux Split Tunnel environment: to which registered root process each of them
  belongs, and which ones are children of a given process.
*/
module ProcessForest {
  import opened Wrappers

  /** A running process.  `extRoot` is the registered root it was assigned to, 0 if none. */
  datatype App = App(pid: nat, ppid: nat, cmdline: string, exe: string, extRoot: nat, extCmdLine: string)

  type AppMap = map<nat, App>

  predicate Listed(apps: AppMap) {
    0 !in apps && forall pid :: pid in apps ==> apps[pid].pid == pid
  }

  /** The parent is followed only while the parent PIDs decrease, so that cyclic PID maps do no harm. */
  predicate HasOlderParent(p: App, apps: AppMap) {
    p.ppid in apps && p.ppid > apps[p.ppid].ppid
  }

  /** The process and its ancestors along decreasing parent PIDs. */
  function Chain(p: App, apps: AppMap): seq<App>
    decreases p.ppid
  {
    if HasOlderParent(p, apps) then [p] + Chain(apps[p.ppid], apps) else [p]
  }

  // ------------------------------------------------------------------
  // Roots
  // ------------------------------------------------------------------

  /** The registered root that a process names itself: its parent, itself, or its assigned root. */
  function OwnRoot(p: App, roots: map<nat, string>): Option<nat> {
    if p.ppid in roots then Some(p.ppid)
    else if p.pid in roots then Some(p.pid)
    else if p.extRoot > 0 && p.extRoot in roots then Some(p.extRoot)
    else None
  }

  /** getRootPid: None when the root is not known. */
  function GetRootPid(p: App, apps: AppMap, roots: map<nat, string>): Option<nat>
    decreases p.ppid
  {
    if OwnRoot(p, roots).Some? then OwnRoot(p, roots)
    else if p.ppid in apps then
      if p.ppid <= apps[p.ppid].ppid then None else GetRootPid(apps[p.ppid], apps, roots)
    else None
  }

  /** The root named first on a chain of processes. */
  function FirstNamed(chain: seq<App>, roots: map<nat, string>): Option<nat> {
    if chain == [] then None
    else if OwnRoot(chain[0], roots).Some? then OwnRoot(chain[0], roots)
    else FirstNamed(chain[1..], roots)
  }

  lemma {:induction false} UnnamedIffNobodyNames(chain: seq<App>, roots: map<nat, string>)
    ensures FirstNamed(chain, roots).None? <==> forall q :: q in chain ==> OwnRoot(q, roots).None?
  {
    if chain != [] {
      UnnamedIffNobodyNames(chain[1..], roots);
      assert chain == [chain[0]] + chain[1..];
    }
  }

  /** The root is the one named first on the ancestor chain; it is unknown iff nobody on the chain names one. */
  lemma {:induction false} RootIsFirstOnChain(p: App, apps: AppMap, roots: map<nat, string>)
    ensures GetRootPid(p, apps, roots) == FirstNamed(Chain(p, apps), roots)
    ensures GetRootPid(p, apps, roots).None? <==> forall q :: q in Chain(p, apps) ==> OwnRoot(q, roots).None?
    decreases p.ppid
  {
    if HasOlderParent(p, apps) {
      RootIsFirstOnChain(apps[p.ppid], apps, roots);
      assert Chain(p, apps)[1..] == Chain(apps[p.ppid], apps);
    } else {
      assert Chain(p, apps)[1..] == [];
    }
    UnnamedIffNobodyNames(Chain(p, apps), roots);
  }

  ghost predicate NamesRoot(q: App, roots: map<nat, string>) {
    q.ppid in roots || q.pid in roots || (q.extRoot > 0 && q.extRoot in roots)
  }

  /** The root comes from the first process of the chain that names one: its parent, itself, or its assigned root. */
  lemma {:induction false} RootComesFrom(p: App, apps: AppMap, roots: map<nat, string>)
    ensures GetRootPid(p, apps, roots).None? <==> forall q :: q in Chain(p, apps) ==> !NamesRoot(q, roots)
    ensures GetRootPid(p, apps, roots).Some? ==>
              exists i :: 0 <= i < |Chain(p, apps)| && NamesRoot(Chain(p, apps)[i], roots)
                          && (forall j :: 0 <= j < i ==> !NamesRoot(Chain(p, apps)[j], roots))
                          && var q := Chain(p, apps)[i];
                             GetRootPid(p, apps, roots).value
                             == if q.ppid in roots then q.ppid else if q.pid in roots then q.pid else q.extRoot
    decreases p.ppid
  {
    var chain := Chain(p, apps);
    if NamesRoot(p, roots) {
      assert chain[0] == p;
    } else if HasOlderParent(p, apps) {
      var rest := Chain(apps[p.ppid], apps);
      RootComesFrom(apps[p.ppid], apps, roots);
      assert chain == [p] + rest;
      if i :| 0 <= i < |rest| && NamesRoot(rest[i], roots) && forall j :: 0 <= j < i ==> !NamesRoot(rest[j], roots) {
        assert chain[i + 1] == rest[i];
      }
    }
  }

  lemma {:induction false} KnownRootIsRegistered(p: App, apps: AppMap, roots: map<nat, string>)
    ensures GetRootPid(p, apps, roots).Some? ==> GetRootPid(p, apps, roots).value in roots
    decreases p.ppid
  {
    if OwnRoot(p, roots).None? && HasOlderParent(p, apps) {
      KnownRootIsRegistered(apps[p.ppid], apps, roots);
    }
  }

  // ------------------------------------------------------------------
  // Children
  // ------------------------------------------------------------------

  predicate NamesParent(p: App, parent: nat) {
    p.ppid == parent || (p.extRoot > 0 && p.extRoot == parent)
  }

  predicate IsChildOf(p: App, parent: nat, apps: AppMap)
    decreases p.ppid
  {
    NamesParent(p, parent)
    || (p.ppid in apps && p.ppid > apps[p.ppid].ppid && IsChildOf(apps[p.ppid], parent, apps))
  }

  /** A process is a child exactly when some process on its ancestor chain names the parent. */
  lemma {:induction false} ChildIffChainNames(p: App, parent: nat, apps: AppMap)
    ensures IsChildOf(p, parent, apps)
            <==> exists q :: q in Chain(p, apps) && (q.ppid == parent || (q.extRoot > 0 && q.extRoot == parent))
    decreases p.ppid
  {
    if HasOlderParent(p, apps) {
      ChildIffChainNames(apps[p.ppid], parent, apps);
      assert Chain(p, apps) == [p] + Chain(apps[p.ppid], apps);
    } else {
      assert Chain(p, apps) == [p];
    }
    assert p in Chain(p, apps);
  }

  /** What implRemovePid removes: the process and everything that is a child of it. */
  function RemovalSet(apps: AppMap, pid: nat): set<nat> {
    {pid} + set q | q in apps && IsChildOf(apps[q], pid, apps)
  }

  /** Somebody on the ancestor chain, the process included, has the PID as parent or as assigned root. */
  ghost predicate DescendsFrom(p: App, pid: nat, apps: AppMap) {
    exists a :: a in Chain(p, apps) && (a.ppid == pid || (a.extRoot > 0 && a.extRoot == pid))
  }

  lemma DescendsStep(p: App, pid: nat, apps: AppMap)
    ensures DescendsFrom(p, pid, apps)
            <==> p.ppid == pid || (p.extRoot > 0 && p.extRoot == pid)
                 || (HasOlderParent(p, apps) && DescendsFrom(apps[p.ppid], pid, apps))
  {
  }

  lemma RemovalSetMembers(apps: AppMap, pid: nat)
    ensures forall q :: q in RemovalSet(apps, pid) <==> q == pid || (q in apps && DescendsFrom(apps[q], pid, apps))
  {
    forall q | q in apps ensures IsChildOf(apps[q], pid, apps) <==> DescendsFrom(apps[q], pid, apps) {
      ChildIffChainNames(apps[q], pid, apps);
    }
  }

  /** With every removed process that is younger than its parent, its children are removed too. */
  lemma RemovalClosedUnderChildren(apps: AppMap, pid: nat, child: nat)
    requires Listed(apps) && child in apps
    requires apps[child].ppid in RemovalSet(apps, pid)
    requires apps[child].ppid in apps && apps[child].ppid != pid ==> apps[apps[child].ppid].ppid < apps[child].ppid
    ensures child in RemovalSet(apps, pid)
  {
  }

  // ------------------------------------------------------------------
  // Bounds that hold for every order of the map iterations
  // ------------------------------------------------------------------

  /** The process is a registered root or a direct child of one. */
  predicate AtRoot(p: App, roots: map<nat, string>) {
    p.ppid in roots || p.pid in roots
  }

  /** Somebody on the chain is a registered root or a direct child of one. */
  predicate TouchesRoot(p: App, apps: AppMap, roots: map<nat, string>) {
    exists q :: q in Chain(p, apps) && AtRoot(q, roots)
  }

  /** The same processes, with other assigned roots. */
  ghost predicate SameProcesses(a: AppMap, b: AppMap) {
    a.Keys == b.Keys && forall pid :: pid in a ==> SameProcess(a[pid], b[pid])
  }

  ghost predicate SameProcess(p: App, q: App) {
    p.pid == q.pid && p.ppid == q.ppid && p.cmdline == q.cmdline && p.exe == q.exe
  }

  /** Touching a root depends only on the PIDs and parent PIDs. */
  lemma {:induction false} TouchingIsStatic(p: App, a: AppMap, q: App, b: AppMap, roots: map<nat, string>)
    requires SameProcesses(a, b) && SameProcess(p, q)
    ensures TouchesRoot(p, a, roots) <==> TouchesRoot(q, b, roots)
    decreases p.ppid
  {
    TouchesStep(p, a, roots);
    TouchesStep(q, b, roots);
    if HasOlderParent(p, a) {
      TouchingIsStatic(a[p.ppid], a, b[q.ppid], b, roots);
    }
  }

  lemma TouchesStep(p: App, apps: AppMap, roots: map<nat, string>)
    ensures TouchesRoot(p, apps, roots)
            <==> AtRoot(p, roots) || (HasOlderParent(p, apps) && TouchesRoot(apps[p.ppid], apps, roots))
  {
  }

  lemma TouchingIsKnown(p: App, apps: AppMap, roots: map<nat, string>)
    requires TouchesRoot(p, apps, roots)
    ensures GetRootPid(p, apps, roots).Some?
  {
    RootIsFirstOnChain(p, apps, roots);
    var q :| q in Chain(p, apps) && AtRoot(q, roots);
    assert OwnRoot(q, roots).Some?;
  }
}
