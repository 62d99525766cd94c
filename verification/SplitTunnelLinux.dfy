/**
  The registered root processes of the Linux Split Tunnel: listing the running processes assigns each
  of them to a root, forgets roots that died and hands a dead root over to a surviving relative.

  Iterations over maps pick the keys in an arbitrary order.
*/
module SplitTunnelLinux {
  import opened Wrappers
  import opened ProcessForest

  /** The number in the environment variable of a process: the PID of the root it was started under. */
  datatype EnvId = EnvId(pid: int)

  /** What the environment variables say; None when they cannot be read. */
  type EnvIds = map<nat, Option<EnvId>>

  type Roots = map<nat, string> // PID and command

  ghost predicate NamesEnv(env: EnvIds, pid: nat, id: EnvId) {
    pid in env && env[pid] == Some(id)
  }

  // ------------------------------------------------------------------
  // Assigning processes to roots
  // ------------------------------------------------------------------

  /** Somebody on the ancestor chain is `r`, a child of `r`, or was started under `r` by its environment. */
  ghost predicate Justified(p: App, listed: AppMap, env: EnvIds, r: nat)
    decreases p.ppid
  {
    p.ppid == r || p.pid == r || NamesEnv(env, p.pid, EnvId(r))
    || (HasOlderParent(p, listed) && Justified(listed[p.ppid], listed, env, r))
  }

  /** Every assigned root is registered, and the process has a reason to belong to it. */
  ghost predicate WellAssigned(listed: AppMap, env: EnvIds, apps: AppMap, roots: Roots) {
    && SameProcesses(listed, apps)
    && forall p :: p in apps && apps[p].extRoot != 0 ==>
         apps[p].extRoot in roots && Justified(listed[p], listed, env, apps[p].extRoot)
  }

  /** Every process that touches a registered root is assigned to one. */
  ghost predicate TouchingAssigned(apps: AppMap, roots: Roots, done: set<nat>) {
    forall p :: p in apps && p in done && TouchesRoot(apps[p], apps, roots) ==> apps[p].extRoot != 0
  }

  ghost predicate Progress(listed: AppMap, env: EnvIds, apps: AppMap, roots: Roots, done: set<nat>) {
    WellAssigned(listed, env, apps, roots) && TouchingAssigned(apps, roots, done)
  }

  ghost predicate KeepsAssigned(before: AppMap, after: AppMap) {
    forall p :: p in before && p in after && before[p].extRoot != 0 ==> after[p] == before[p]
  }

  lemma {:induction false} KnownRootIsJustified(p: App, apps: AppMap, roots: Roots, listed: AppMap, env: EnvIds)
    requires Listed(listed) && WellAssigned(listed, env, apps, roots)
    requires p.pid in apps && p == apps[p.pid] && GetRootPid(p, apps, roots).Some?
    ensures GetRootPid(p, apps, roots).value in roots
    ensures Justified(listed[p.pid], listed, env, GetRootPid(p, apps, roots).value)
    decreases p.ppid
  {
    if OwnRoot(p, roots).None? {
      KnownRootIsJustified(apps[p.ppid], apps, roots, listed, env);
    }
  }

  lemma AssignedOneMore(listed: AppMap, env: EnvIds, apps: AppMap, pid: nat, r: nat, roots: Roots, done: set<nat>)
    requires Progress(listed, env, apps, roots, done) && pid in apps
    requires r in roots && r != 0 && Justified(listed[pid], listed, env, r)
    ensures Progress(listed, env, apps[pid := apps[pid].(extRoot := r)], roots, done + {pid})
  {
    var n := apps[pid := apps[pid].(extRoot := r)];
    forall p | p in n && p in done + {pid} && TouchesRoot(n[p], n, roots) ensures n[p].extRoot != 0 {
      TouchingIsStatic(apps[p], apps, n[p], n, roots);
    }
  }

  lemma UnassignedOneMore(listed: AppMap, env: EnvIds, apps: AppMap, pid: nat, roots: Roots, done: set<nat>)
    requires Progress(listed, env, apps, roots, done) && pid in apps
    requires apps[pid].extRoot == 0 ==> GetRootPid(apps[pid], apps, roots).None?
    ensures Progress(listed, env, apps, roots, done + {pid})
  {
    if TouchesRoot(apps[pid], apps, roots) {
      TouchingIsKnown(apps[pid], apps, roots);
    }
  }

  // ------------------------------------------------------------------
  // Handing over dead roots
  // ------------------------------------------------------------------

  /**
    The detached processes, by the dead or unknown root they were started under: each entry is the
    smallest unresolved process of that root, among the processes seen so far.
  */
  ghost predicate SmallestDetached(detached: map<EnvId, nat>, apps: AppMap, env: EnvIds, seen: set<nat>) {
    && (forall d :: d in detached ==>
          detached[d] in seen && detached[d] in apps && apps[detached[d]].extRoot == 0 && NamesEnv(env, detached[d], d))
    && (forall p :: p in seen && p in apps && apps[p].extRoot == 0 && p in env && env[p].Some? ==>
          env[p].value in detached && detached[env[p].value] <= p)
  }

  ghost predicate Unregistered(detached: map<EnvId, nat>, roots: Roots) {
    forall d :: d in detached && d.pid >= 0 ==> d.pid !in roots
  }

  /** Different roots have different heirs, which are processes without a root of their own. */
  ghost predicate Heirs(detached: map<EnvId, nat>, apps: AppMap, roots: Roots) {
    && (forall d :: d in detached ==> detached[d] in apps && detached[d] != 0 && detached[d] !in roots)
    && (forall d, e :: d in detached && e in detached && d != e ==> detached[d] != detached[e])
  }

  predicate IsDead(id: EnvId, died: Roots) {
    id.pid >= 0 && id.pid in died
  }

  /** The root `r` replaced the dead root `d` and has its command. */
  predicate InheritsFrom(r: nat, roots: Roots, d: EnvId, died: Roots, detached: map<EnvId, nat>) {
    IsDead(d, died) && d in detached && detached[d] == r && r in roots && roots[r] == died[d.pid]
  }

  /** Who inherits from the dead roots: the smallest unresolved process of each, with its command. */
  ghost predicate Inherited(roots: Roots, live: Roots, died: Roots, detached: map<EnvId, nat>, done: set<EnvId>)
    requires done <= detached.Keys
  {
    && (forall r :: r in live ==> r in roots && roots[r] == live[r])
    && (forall r :: r in roots ==> r in live || exists d :: d in done && InheritsFrom(r, roots, d, died, detached))
    && (forall d :: d in done && IsDead(d, died) ==> InheritsFrom(detached[d], roots, d, died, detached))
  }

  function LiveRoots(roots: Roots, apps: AppMap): Roots {
    map r | r in roots && r in apps :: roots[r]
  }

  function DeadRoots(roots: Roots, apps: AppMap): Roots {
    map r | r in roots && r !in apps :: roots[r]
  }

  lemma LiveAndDead(roots: Roots, apps: AppMap)
    ensures LiveRoots(roots, apps) == roots - DeadRoots(roots, apps).Keys
    ensures |LiveRoots(roots, apps)| + |DeadRoots(roots, apps)| == |roots|
  {
    var live, died := LiveRoots(roots, apps), DeadRoots(roots, apps);
    assert live.Keys + died.Keys == roots.Keys && live.Keys !! died.Keys;
    assert |live.Keys + died.Keys| == |live.Keys| + |died.Keys|;
  }

  lemma DetachedAreHeirs(listed: AppMap, env: EnvIds, apps: AppMap, roots: Roots, detached: map<EnvId, nat>)
    requires Listed(listed) && Progress(listed, env, apps, roots, apps.Keys)
    requires SmallestDetached(detached, apps, env, apps.Keys)
    ensures Heirs(detached, apps, roots)
  {
    forall d | d in detached ensures detached[d] !in roots {
      TouchesStep(apps[detached[d]], apps, roots);
    }
  }

  lemma InheritedOneMore(roots: Roots, next: Roots, live: Roots, died: Roots, detached: map<EnvId, nat>, apps: AppMap,
                         done: set<EnvId>, d: EnvId)
    requires done <= detached.Keys && d in detached && d !in done
    requires Inherited(roots, live, died, detached, done) && Heirs(detached, apps, live)
    requires next == if IsDead(d, died) then roots[detached[d] := died[d.pid]] else roots
    ensures Inherited(next, live, died, detached, done + {d})
  {
  }

  /** None of the dead roots in `handled` is still waiting in `todo`. */
  ghost predicate Unhandled(todo: set<EnvId>, handled: set<nat>) {
    forall d :: d in todo && d.pid >= 0 ==> d.pid !in handled
  }

  ghost function Handle(id: EnvId, died: Roots, todo: set<EnvId>, handled: set<nat>): (r: set<nat>)
    requires id in todo && Unhandled(todo, handled) && handled <= died.Keys
    ensures r <= died.Keys && Unhandled(todo - {id}, r)
    ensures |r| == |handled| + (if IsDead(id, died) then 1 else 0)
  {
    if IsDead(id, died) then handled + {id.pid} else handled
  }

  lemma {:induction false} SubsetCardinality(a: set<nat>, b: set<nat>)
    requires a <= b
    ensures |a| <= |b|
  {
    if a != {} {
      var x :| x in a;
      SubsetCardinality(a - {x}, b - {x});
    }
  }

  lemma RootsAreListed(listed: AppMap, apps: AppMap, roots: Roots, before: Roots, detached: map<EnvId, nat>)
    requires apps.Keys == listed.Keys && Heirs(detached, apps, LiveRoots(before, listed))
    requires Inherited(roots, LiveRoots(before, listed), DeadRoots(before, listed), detached, detached.Keys)
    ensures roots.Keys <= listed.Keys
  {
  }

  function Registered(roots: Roots, pid: nat, command: string): Roots {
    roots[pid := command]
  }

  /** With a registered process, whatever has it or a child of it on its chain touches a root. */
  lemma RegisteredIsTouched(roots: Roots, pid: nat, command: string, p: App, apps: AppMap, q: App)
    requires q in Chain(p, apps) && (q.pid == pid || q.ppid == pid)
    ensures TouchesRoot(p, apps, Registered(roots, pid, command))
  {
    assert AtRoot(q, Registered(roots, pid, command));
  }

  // ------------------------------------------------------------------
  // The listing
  // ------------------------------------------------------------------

  /** Root processes are shown with the command they were started by. */
  function WithCommand(a: App, roots: Roots): App {
    if a.pid in roots then a.(extCmdLine := roots[a.pid]) else a
  }

  /** Each process once, in some order. */
  ghost predicate Shows(list: seq<App>, apps: AppMap, roots: Roots) {
    && |list| == |apps|
    && (forall p :: p in apps ==> WithCommand(apps[p], roots) in list)
    && (forall a :: a in list ==> a.pid in apps && a == WithCommand(apps[a.pid], roots))
  }

  method MakeResult(apps: AppMap, roots: Roots) returns (list: seq<App>)
    requires Listed(apps)
    ensures Shows(list, apps, roots)
  {
    list := [];
    var todo := apps.Keys;
    while todo != {}
      invariant todo <= apps.Keys && |list| + |todo| == |apps|
      invariant forall p :: p in apps && p !in todo ==> WithCommand(apps[p], roots) in list
      invariant forall a :: a in list ==> a.pid in apps && a == WithCommand(apps[a.pid], roots)
      decreases todo
    {
      var pid :| pid in todo;
      list := list + [WithCommand(apps[pid], roots)];
      todo := todo - {pid};
    }
  }

  /**
    What registering a process means while it runs, for the next listing, with the results `after`, `apps` and
    `list`: it stays a root, is shown with its command, and whatever descends from it belongs to a root.
  */
  lemma RegisteredStaysRoot(roots: Roots, pid: nat, command: string, listed: AppMap, env: EnvIds,
                            detached: map<EnvId, nat>, apps: AppMap, after: Roots, list: seq<App>)
    requires Listed(listed) && pid in listed
    requires Inherited(after, LiveRoots(Registered(roots, pid, command), listed),
                       DeadRoots(Registered(roots, pid, command), listed), detached, detached.Keys)
    requires Progress(listed, env, apps, after, apps.Keys) && Shows(list, apps, after)
    ensures pid in after && after[pid] == command
    ensures exists a :: a in list && a.pid == pid && a.extCmdLine == command
    ensures forall p, q :: p in apps && q in Chain(apps[p], apps) && (q.pid == pid || q.ppid == pid) ==>
              apps[p].extRoot != 0
  {
    assert LiveRoots(Registered(roots, pid, command), listed)[pid] == command;
    assert WithCommand(apps[pid], after) in list;
    forall p, q | p in apps && q in Chain(apps[p], apps) && (q.pid == pid || q.ppid == pid)
      ensures apps[p].extRoot != 0
    {
      assert AtRoot(q, after);
    }
  }

  /**
    What it means once the process has died: it is no root any more, and its command goes to the smallest of the
    processes that were started under it and have no other root.
  */
  lemma RegisteredIsInherited(roots: Roots, pid: nat, command: string, listed: AppMap, env: EnvIds, first: AppMap,
                              detached: map<EnvId, nat>, after: Roots, p: nat)
    requires pid !in listed && after.Keys <= listed.Keys
    requires SmallestDetached(detached, first, env, first.Keys)
    requires Inherited(after, LiveRoots(Registered(roots, pid, command), listed),
                       DeadRoots(Registered(roots, pid, command), listed), detached, detached.Keys)
    requires p in first && first[p].extRoot == 0 && NamesEnv(env, p, EnvId(pid))
    ensures pid !in after
    ensures EnvId(pid) in detached && detached[EnvId(pid)] <= p
    ensures detached[EnvId(pid)] in after && after[detached[EnvId(pid)]] == command
  {
    assert DeadRoots(Registered(roots, pid, command), listed)[pid] == command;
    assert IsDead(EnvId(pid), DeadRoots(Registered(roots, pid, command), listed));
  }

  /** What is shown, by PID. */
  function Shown(apps: AppMap, roots: Roots): (r: AppMap) {
    map p | p in apps :: WithCommand(apps[p], roots)
  }

  /** The shown commands play no role for who is a child of whom. */
  lemma {:induction false} CommandsDoNotMatter(p: App, a: AppMap, q: App, b: AppMap, pid: nat)
    requires a.Keys == b.Keys && (forall r :: r in a ==> b[r] == a[r].(extCmdLine := b[r].extCmdLine))
    requires q == p.(extCmdLine := q.extCmdLine)
    ensures DescendsFrom(p, pid, a) <==> DescendsFrom(q, pid, b)
    decreases p.ppid
  {
    DescendsStep(p, pid, a);
    DescendsStep(q, pid, b);
    if HasOlderParent(p, a) {
      CommandsDoNotMatter(a[p.ppid], a, b[q.ppid], b, pid);
    }
  }

  method IndexByPid(list: seq<App>, ghost apps: AppMap, ghost roots: Roots) returns (all: AppMap)
    requires Listed(apps) && Shows(list, apps, roots)
    ensures all == Shown(apps, roots)
  {
    all := map[];
    for i := 0 to |list|
      invariant forall p :: p in all ==> p in apps && all[p] == WithCommand(apps[p], roots)
      invariant forall a :: a in list[..i] ==> a.pid in all
    {
      all := all[list[i].pid := list[i]];
      assert list[..i + 1] == list[..i] + [list[i]];
    }
    assert list[..|list|] == list;
    forall p | p in apps ensures p in all {
      assert WithCommand(apps[p], roots) in list;
    }
  }

  /** The process to remove and everything that is a child of it. */
  method CollectChildren(list: seq<App>, pid: nat, all: AppMap, ghost apps: AppMap, ghost roots: Roots)
    returns (pids: set<nat>)
    requires Listed(apps) && Shows(list, apps, roots) && all == Shown(apps, roots)
    ensures pids == RemovalSet(all, pid)
  {
    pids := {pid};
    for i := 0 to |list|
      invariant pid in pids && pids <= RemovalSet(all, pid)
      invariant forall a :: a in list[..i] && IsChildOf(a, pid, all) ==> a.pid in pids
    {
      assert list[i] in list;
      if IsChildOf(list[i], pid, all) {
        pids := pids + {list[i].pid};
      }
      assert list[..i + 1] == list[..i] + [list[i]];
    }
    assert list[..|list|] == list;
    forall q | q in RemovalSet(all, pid) ensures q in pids {
      if q != pid {
        assert all[q] in list;
      }
    }
  }

  /**
    What a listing achieves.  The roots afterwards are exactly the live ones and the heirs of dead ones; every process
    that touches a root or names a live one in its environment is assigned, and only to a root it has a reason to
    belong to.  `first` is the assignment before the dead roots were handed over.
  */
  ghost predicate Renews(before: Roots, after: Roots, listed: AppMap, env: EnvIds, first: AppMap,
                         detached: map<EnvId, nat>, apps: AppMap) {
    && Progress(listed, env, first, LiveRoots(before, listed), first.Keys)
    && SmallestDetached(detached, first, env, first.Keys)
    && Inherited(after, LiveRoots(before, listed), DeadRoots(before, listed), detached, detached.Keys)
    && KeepsAssigned(first, apps)
    && Progress(listed, env, apps, after, apps.Keys)
    && NamingAssigned(apps, env, LiveRoots(before, listed))
    && after.Keys <= listed.Keys && |after| <= |before|
  }

  /** The dead roots `done` were handed over, and all that touches a root is assigned. */
  ghost predicate Adopting(listed: AppMap, env: EnvIds, first: AppMap, apps: AppMap, roots: Roots, live: Roots,
                           died: Roots, detached: map<EnvId, nat>, done: set<EnvId>) {
    && done <= detached.Keys && apps.Keys == first.Keys && Heirs(detached, first, live)
    && Progress(listed, env, apps, roots, apps.Keys) && KeepsAssigned(first, apps)
    && Inherited(roots, live, died, detached, done)
  }

  /** Every process that names a root in its environment is assigned to one. */
  ghost predicate NamingAssigned(apps: AppMap, env: EnvIds, roots: Roots) {
    forall p, r :: p in apps && r in roots && NamesEnv(env, p, EnvId(r)) ==> apps[p].extRoot != 0
  }

  lemma UnregisteredAreAssigned(first: AppMap, apps: AppMap, env: EnvIds, detached: map<EnvId, nat>, roots: Roots)
    requires SmallestDetached(detached, first, env, first.Keys) && Unregistered(detached, roots)
    requires first.Keys == apps.Keys && KeepsAssigned(first, apps)
    ensures NamingAssigned(apps, env, roots)
  {
  }

  /** The process to remove, or a listed one that descends from it or was assigned to it. */
  ghost predicate ToRemove(q: nat, pid: nat, shown: AppMap) {
    q == pid || (q in shown && DescendsFrom(shown[q], pid, shown))
  }

  lemma FamilyMembers(apps: AppMap, roots: Roots, pid: nat)
    ensures forall q :: q in RemovalSet(Shown(apps, roots), pid) <==> ToRemove(q, pid, apps)
  {
    var all := Shown(apps, roots);
    RemovalSetMembers(all, pid);
    forall q | q in apps ensures DescendsFrom(all[q], pid, all) <==> DescendsFrom(apps[q], pid, apps) {
      CommandsDoNotMatter(apps[q], apps, all[q], all, pid);
    }
  }

  class SplitTunnel {
    var addedRootProcesses: Roots

    ghost predicate Valid()
      reads this
    {
      0 !in addedRootProcesses
    }

    constructor ()
      ensures Valid() && addedRootProcesses == map[]
    {
      addedRootProcesses := map[];
    }

    /**
      A process joins the environment when Split Tunnel is enabled and the script accepts it. From then on what
      descends from it touches a root, and earlier roots stay.
    */
    method AddPid(pid: int, command: string, enabled: bool, scriptWorks: bool) returns (ok: bool)
      requires Valid()
      modifies this
      ensures Valid() && (ok <==> pid > 0 && enabled && scriptWorks)
      ensures addedRootProcesses == if ok then Registered(old(addedRootProcesses), pid, command)
                                    else old(addedRootProcesses)
      ensures forall p, apps, q ::
                ok && q in Chain(p, apps) && (q.pid == pid || q.ppid == pid) ==>
                  TouchesRoot(p, apps, addedRootProcesses)
    {
      ok := pid > 0 && enabled && scriptWorks;
      if ok {
        addedRootProcesses := addedRootProcesses[pid := command];
        forall p, apps, q | q in Chain(p, apps) && (q.pid == pid || q.ppid == pid)
          ensures TouchesRoot(p, apps, addedRootProcesses)
        {
          RegisteredIsTouched(old(addedRootProcesses), pid, command, p, apps, q);
        }
      }
    }

    /** Lists the processes of the environment, and renews the roots. */
    method GetRunningApps(listed: AppMap, env: EnvIds)
      returns (list: seq<App>, ghost apps: AppMap, ghost first: AppMap, ghost detached: map<EnvId, nat>)
      requires Valid() && Listed(listed) && (forall p :: p in listed ==> listed[p].extRoot == 0)
      modifies this
      ensures Valid() && Renews(old(addedRootProcesses), addedRootProcesses, listed, env, first, detached, apps)
      ensures Shows(list, apps, addedRootProcesses)
    {
      var died := ForgetDeadRoots(listed);
      var located, found := AssignRoots(listed, env);
      first, detached := located, found;
      DetachedAreHeirs(listed, env, first, addedRootProcesses, detached);
      ghost var live := addedRootProcesses;
      var adopted := AdoptDetached(listed, env, located, died, found);
      apps := adopted;
      RootsAreListed(listed, first, addedRootProcesses, old(addedRootProcesses), detached);
      UnregisteredAreAssigned(first, apps, env, detached, live);
      list := MakeResult(adopted, addedRootProcesses);
    }

    /** Removes the roots that are not running any more. */
    method ForgetDeadRoots(apps: AppMap) returns (died: Roots)
      requires Valid()
      modifies this
      ensures Valid()
      ensures addedRootProcesses == LiveRoots(old(addedRootProcesses), apps)
      ensures died == DeadRoots(old(addedRootProcesses), apps)
      ensures |addedRootProcesses| + |died| == |old(addedRootProcesses)|
    {
      died := map[];
      var todo := addedRootProcesses.Keys;
      while todo != {}
        invariant todo <= old(addedRootProcesses).Keys
        invariant forall r :: r in died <==> r in old(addedRootProcesses) && r !in todo && r !in apps
        invariant forall r :: r in died ==> died[r] == old(addedRootProcesses)[r]
        decreases todo
      {
        var rootPid :| rootPid in todo;
        if rootPid !in apps {
          died := died[rootPid := addedRootProcesses[rootPid]];
        }
        todo := todo - {rootPid};
      }
      addedRootProcesses := addedRootProcesses - died.Keys;
      LiveAndDead(old(addedRootProcesses), apps);
    }

    /** Assigns every process to a registered root where that is possible, and collects the detached ones. */
    method AssignRoots(listed: AppMap, env: EnvIds) returns (apps: AppMap, detached: map<EnvId, nat>)
      requires Valid() && Listed(listed) && (forall p :: p in listed ==> listed[p].extRoot == 0)
      ensures Progress(listed, env, apps, addedRootProcesses, apps.Keys)
      ensures SmallestDetached(detached, apps, env, apps.Keys) && Unregistered(detached, addedRootProcesses)
    {
      apps, detached := listed, map[];
      var todo := listed.Keys;
      while todo != {}
        invariant todo <= listed.Keys == apps.Keys
        invariant forall p :: p in todo ==> apps[p].extRoot == 0
        invariant Progress(listed, env, apps, addedRootProcesses, apps.Keys - todo)
        invariant SmallestDetached(detached, apps, env, apps.Keys - todo) && Unregistered(detached, addedRootProcesses)
        decreases todo
      {
        var pid :| pid in todo;
        ghost var done := apps.Keys - todo;
        apps, detached := AssignOne(listed, env, apps, detached, pid, done);
        todo := todo - {pid};
        assert apps.Keys - todo == done + {pid};
      }
    }

    /** One round of the loop: the root is looked up, else the environment variable is asked. */
    method AssignOne(ghost listed: AppMap, env: EnvIds, before: AppMap, detachedBefore: map<EnvId, nat>, pid: nat,
                     ghost done: set<nat>) returns (apps: AppMap, detached: map<EnvId, nat>)
      requires Valid() && Listed(listed) && pid in before && pid !in done && before[pid].extRoot == 0
      requires Progress(listed, env, before, addedRootProcesses, done)
      requires SmallestDetached(detachedBefore, before, env, done) && Unregistered(detachedBefore, addedRootProcesses)
      ensures Progress(listed, env, apps, addedRootProcesses, done + {pid})
      ensures SmallestDetached(detached, apps, env, done + {pid}) && Unregistered(detached, addedRootProcesses)
      ensures apps.Keys == before.Keys && forall p :: p in apps && p != pid ==> apps[p] == before[p]
    {
      apps, detached := before, detachedBefore;
      var value := apps[pid];
      var known := GetRootPid(value, apps, addedRootProcesses);
      var id := if pid in env then env[pid] else None;
      if known.Some? {
        KnownRootIsJustified(value, before, addedRootProcesses, listed, env);
        AssignedOneMore(listed, env, before, pid, known.value, addedRootProcesses, done);
        apps := apps[pid := value.(extRoot := known.value)];
      } else if id.Some? && id.value.pid >= 0 && id.value.pid in addedRootProcesses {
        AssignedOneMore(listed, env, before, pid, id.value.pid, addedRootProcesses, done);
        apps := apps[pid := value.(extRoot := id.value.pid)];
      } else {
        UnassignedOneMore(listed, env, before, pid, addedRootProcesses, done);
        if id.Some? && (id.value !in detached || detached[id.value] > pid) {
          detached := detached[id.value := pid];
        }
      }
    }

    /** Hands the dead roots over, and assigns the processes that thereby have a registered root. */
    method AdoptDetached(ghost listed: AppMap, ghost env: EnvIds, before: AppMap, died: Roots,
                         detached: map<EnvId, nat>)
      returns (apps: AppMap)
      requires Valid() && Listed(listed) && Progress(listed, env, before, addedRootProcesses, before.Keys)
      requires Heirs(detached, before, addedRootProcesses)
      modifies this
      ensures Valid() && Progress(listed, env, apps, addedRootProcesses, apps.Keys) && KeepsAssigned(before, apps)
      ensures Inherited(addedRootProcesses, old(addedRootProcesses), died, detached, detached.Keys)
      ensures |addedRootProcesses| <= |old(addedRootProcesses)| + |died|
    {
      apps := before;
      var todo := detached.Keys;
      ghost var handled: set<nat> := {};
      while todo != {}
        invariant todo <= detached.Keys
        invariant Valid() && Adopting(listed, env, before, apps, addedRootProcesses, old(addedRootProcesses), died,
                                      detached, detached.Keys - todo)
        invariant Unhandled(todo, handled) && handled <= died.Keys
        invariant |addedRootProcesses| <= |old(addedRootProcesses)| + |handled|
        decreases todo
      {
        var id :| id in todo;
        ghost var done := detached.Keys - todo;
        apps := AdoptOne(listed, env, id, died, detached, before, apps, old(addedRootProcesses), done);
        assert detached.Keys - (todo - {id}) == done + {id};
        handled := Handle(id, died, todo, handled);
        todo := todo - {id};
      }
      assert detached.Keys - todo == detached.Keys;
      SubsetCardinality(handled, died.Keys);
    }

    /** One round of the loop: the root is handed over if it is dead, then unresolved processes are looked up again. */
    method AdoptOne(ghost listed: AppMap, ghost env: EnvIds, id: EnvId, died: Roots, detached: map<EnvId, nat>,
                    ghost first: AppMap, before: AppMap, ghost live: Roots, ghost done: set<EnvId>)
      returns (apps: AppMap)
      requires Valid() && Listed(listed) && id in detached && id !in done
      requires Adopting(listed, env, first, before, addedRootProcesses, live, died, detached, done)
      modifies this
      ensures Valid() && Adopting(listed, env, first, apps, addedRootProcesses, live, died, detached, done + {id})
      ensures |addedRootProcesses| <= |old(addedRootProcesses)| + (if IsDead(id, died) then 1 else 0)
    {
      HandOver(id, died, detached, first, live, done);
      apps := AssignUnresolved(listed, env, before);
    }

    /** A dead root is replaced by its heir, which inherits its command. */
    method HandOver(id: EnvId, died: Roots, detached: map<EnvId, nat>, ghost apps: AppMap, ghost live: Roots,
                    ghost done: set<EnvId>)
      requires Valid() && done <= detached.Keys && id in detached && id !in done
      requires Inherited(addedRootProcesses, live, died, detached, done)
      requires Heirs(detached, apps, live)
      modifies this
      ensures Valid() && old(addedRootProcesses).Keys <= addedRootProcesses.Keys
      ensures Inherited(addedRootProcesses, live, died, detached, done + {id})
      ensures |addedRootProcesses| <= |old(addedRootProcesses)| + (if IsDead(id, died) then 1 else 0)
    {
      if IsDead(id, died) {
        addedRootProcesses := addedRootProcesses[detached[id] := died[id.pid]];
      }
      InheritedOneMore(old(addedRootProcesses), addedRootProcesses, live, died, detached, apps, done, id);
    }

    /** The inner loop: processes without a root are looked up again. */
    method AssignUnresolved(ghost listed: AppMap, ghost env: EnvIds, before: AppMap) returns (apps: AppMap)
      requires Valid() && Listed(listed) && WellAssigned(listed, env, before, addedRootProcesses)
      ensures Progress(listed, env, apps, addedRootProcesses, apps.Keys) && KeepsAssigned(before, apps)
    {
      apps := before;
      var todo := before.Keys;
      while todo != {}
        invariant todo <= before.Keys == apps.Keys
        invariant KeepsAssigned(before, apps) && Progress(listed, env, apps, addedRootProcesses, apps.Keys - todo)
        decreases todo
      {
        var pid :| pid in todo;
        ghost var done := apps.Keys - todo;
        apps := LookUpAgain(listed, env, apps, pid, done);
        todo := todo - {pid};
        assert apps.Keys - todo == done + {pid};
      }
    }

    method LookUpAgain(ghost listed: AppMap, ghost env: EnvIds, before: AppMap, pid: nat, ghost done: set<nat>)
      returns (apps: AppMap)
      requires Valid() && Listed(listed) && pid in before
      requires Progress(listed, env, before, addedRootProcesses, done)
      ensures apps.Keys == before.Keys && KeepsAssigned(before, apps)
      ensures Progress(listed, env, apps, addedRootProcesses, done + {pid})
    {
      apps := before;
      var value := apps[pid];
      if value.extRoot == 0 && GetRootPid(value, apps, addedRootProcesses).Some? {
        var known := GetRootPid(value, apps, addedRootProcesses).value;
        KnownRootIsJustified(value, before, addedRootProcesses, listed, env);
        AssignedOneMore(listed, env, before, pid, known, addedRootProcesses, done);
        apps := apps[pid := value.(extRoot := known)];
      } else {
        UnassignedOneMore(listed, env, before, pid, addedRootProcesses, done);
      }
    }

    /**
      Removes a process and all its children from the environment, as far as the script accepts it.  The children
      are those of the assignment `apps` of a listing.  When the processes cannot be listed only the process itself
      is tried.
    */
    method RemovePid(pid: int, listing: Option<AppMap>, env: EnvIds, works: set<nat>)
      returns (ok: bool, ghost known: Roots, ghost apps: AppMap, ghost first: AppMap, ghost detached: map<EnvId, nat>)
      requires Valid()
      requires listing.Some? ==>
                 Listed(listing.value) && forall p :: p in listing.value ==> listing.value[p].extRoot == 0
      modifies this
      ensures Valid()
      ensures pid <= 0 ==> !ok && addedRootProcesses == old(addedRootProcesses)
      ensures pid > 0 && listing.Some? ==>
                && Renews(old(addedRootProcesses), known, listing.value, env, first, detached, apps)
                && (forall q :: q in addedRootProcesses <==> q in known && !(ToRemove(q, pid, apps) && q in works))
                && (forall q :: q in addedRootProcesses ==> addedRootProcesses[q] == known[q])
                && (ok <==> forall q :: ToRemove(q, pid, apps) ==> q in works)
      ensures pid > 0 && listing.None? ==> !ok && addedRootProcesses == old(addedRootProcesses) - ({pid as nat} * works)
    {
      known, apps, first, detached := addedRootProcesses, map[], map[], map[];
      if pid <= 0 {
        return false, known, apps, first, detached;
      }
      var pids := {pid as nat};
      ok := listing.Some?;
      if listing.Some? {
        pids, apps, first, detached := FindFamily(pid, listing.value, env);
        known := addedRootProcesses;
      }
      var removed := RemovePids(pids, works);
      ok := ok && removed;
    }

    /** The process and its children, after listing the processes. */
    method FindFamily(pid: nat, listed: AppMap, env: EnvIds)
      returns (pids: set<nat>, ghost apps: AppMap, ghost first: AppMap, ghost detached: map<EnvId, nat>)
      requires Valid() && Listed(listed) && forall p :: p in listed ==> listed[p].extRoot == 0
      modifies this
      ensures Valid() && Renews(old(addedRootProcesses), addedRootProcesses, listed, env, first, detached, apps)
      ensures forall q :: q in pids <==> ToRemove(q, pid, apps)
    {
      var list;
      list, apps, first, detached := GetRunningApps(listed, env);
      var all := IndexByPid(list, apps, addedRootProcesses);
      pids := CollectChildren(list, pid, all, apps, addedRootProcesses);
      FamilyMembers(apps, addedRootProcesses, pid);
    }

    method RemovePids(pids: set<nat>, works: set<nat>) returns (ok: bool)
      requires Valid()
      modifies this
      ensures Valid() && addedRootProcesses == old(addedRootProcesses) - (pids * works)
      ensures ok <==> pids <= works
    {
      ok := true;
      var todo := pids;
      while todo != {}
        invariant todo <= pids
        invariant Valid() && addedRootProcesses == old(addedRootProcesses) - ((pids - todo) * works)
        invariant ok <==> pids - todo <= works
        decreases todo
      {
        var pidToRemove :| pidToRemove in todo;
        if pidToRemove in works {
          addedRootProcesses := addedRootProcesses - {pidToRemove};
        } else {
          ok := false;
        }
        todo := todo - {pidToRemove};
      }
    }
  }
}
