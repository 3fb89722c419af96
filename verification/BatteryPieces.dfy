/** Each piece a section is made of keeps the invariant. */
module BatteryPieces {
  import opened BatteryTypes
  import opened BatterySections
  import opened BatteryInvariant

  // ----- Pools and the log -----

  lemma LikeFrame(s: State, pools: map<PoolKey, Pool>)
    requires PoolsLike(s.pools, pools)
    ensures PoolsOk(s.pools, s.gone, s.nextRec) ==> PoolsOk(pools, s.gone, s.nextRec)
    ensures LeasesOk(s.leases, s.vms, s.byUid, s.pools) ==> LeasesOk(s.leases, s.vms, s.byUid, pools)
    ensures ClaimsOk(s.calls, s.pools, s.gone) ==> ClaimsOk(s.calls, pools, s.gone)
    ensures HostsOk(s.hosts, s.pools, s.vms) ==> HostsOk(s.hosts, pools, s.vms)
  {
  }

  lemma SetPoolInv(s: State, key: PoolKey, p: Pool)
    requires Inv(s) && key in s.pools
    requires p == s.pools[key].(rr := p.rr, unfilled := p.unfilled, warned := p.warned)
    ensures Inv(SetPool(s, key, p))
  {
    hide PoolsOk, IdsOk, UidsOk, LeasesOk, LedgerOk, WorkersOk, PhasesOk, ClaimsOk, ReleasesOk, CallsOk, RequestsOk, OnceOk, HostsOk, AnswersOk, SweptOk;
    LikeFrame(s, s.pools[key := p]);
  }

  lemma EmitKeys(log: seq<Event>, pools: map<PoolKey, Pool>, gone: map<nat, Pool>, nextRec: nat, key: PoolKey, e: Event)
    requires LogKeys(log, pools) && PoolsOk(pools, gone, nextRec)
    requires key in pools && e.key == key && e.rec == pools[key].rec
    ensures LogKeys(log + [e], pools[key := pools[key].(nextEvent := e.id)])
  {
  }

  lemma EmitLog(log: seq<Event>, pools: map<PoolKey, Pool>, gone: map<nat, Pool>, nextRec: nat, key: PoolKey, e: Event)
    requires LogOk(log, pools, nextRec) && PoolsOk(pools, gone, nextRec)
    requires key in pools && e.key == key && e.rec == pools[key].rec && e.id == pools[key].nextEvent + 1
    ensures LogOk(log + [e], pools[key := pools[key].(nextEvent := e.id)], nextRec)
  {
    hide LogKeys;
    EmitKeys(log, pools, gone, nextRec, key, e);
    var log' := log + [e];
    assert log'[..|log|] == log;
    forall i | 0 <= i < |log'| ensures log'[i].id == Tally(log'[..i], log'[i].rec) + 1 && log'[i].rec < nextRec {
      if i < |log| {
        assert log'[..i] == log[..i];
      }
    }
  }

  lemma EmitInv(s: State, key: PoolKey, vm: string, typ: EventType)
    requires Inv(s)
    ensures Inv(Emit(s, key, vm, typ))
  {
    hide PoolsOk, IdsOk, UidsOk, LeasesOk, LedgerOk, WorkersOk, PhasesOk, ClaimsOk, ReleasesOk, CallsOk, RequestsOk, OnceOk, HostsOk, AnswersOk, SweptOk, LogOk;
    if key in s.pools {
      var p := s.pools[key];
      EmitLog(s.log, s.pools, s.gone, s.nextRec, key, Event(key, p.rec, p.nextEvent + 1, vm, typ));
      LikeFrame(s, s.pools[key := p.(nextEvent := p.nextEvent + 1)]);
    }
  }

  // ----- Calls -----

  lemma FewerCalls(s: State, calls: map<CallId, Call>)
    requires calls.Keys <= s.calls.Keys && forall c | c in calls :: calls[c] == s.calls[c]
    ensures IdsOk(s.vms, s.nextVM, s.calls, s.nextTask) ==> IdsOk(s.vms, s.nextVM, calls, s.nextTask)
    ensures WorkersOk(s.calls, s.vms, s.ledger) ==> WorkersOk(calls, s.vms, s.ledger)
    ensures PhasesOk(s.vms, s.calls, s.ledger) ==> PhasesOk(s.vms, calls, s.ledger)
    ensures ClaimsOk(s.calls, s.pools, s.gone) ==> ClaimsOk(calls, s.pools, s.gone)
    ensures ReleasesOk(s.calls, s.ledger, s.byUid) ==> ReleasesOk(calls, s.ledger, s.byUid)
    ensures CallsOk(s.calls, s.answers) ==> CallsOk(calls, s.answers)
  {
    hide WorkerOk, EverLeased;
  }

  lemma EndInv(s: State, c: CallId)
    requires Inv(s)
    ensures Inv(End(s, c))
  {
    hide PoolsOk, IdsOk, UidsOk, LeasesOk, LedgerOk, WorkersOk, PhasesOk, ClaimsOk, ReleasesOk, CallsOk, RequestsOk, OnceOk, HostsOk, AnswersOk, SweptOk, LogOk;
    FewerCalls(s, s.calls - {c});
  }

  lemma TellInv(s: State, c: CallId, reply: Reply)
    requires Inv(s) && AnswersOk(map[c := reply], s.ledger, s.leases) && c.Rpc? && c !in s.calls
    ensures Inv(Tell(s, c, reply))
  {
    hide PoolsOk, IdsOk, UidsOk, LeasesOk, LedgerOk, WorkersOk, PhasesOk, ClaimsOk, ReleasesOk, RequestsOk, OnceOk, HostsOk, SweptOk, LogOk;
    assert map[c := reply][c] == reply;
  }

  lemma FinishInv(s: State, c: CallId, reply: Reply)
    requires Inv(s) && AnswersOk(map[c := reply], s.ledger, s.leases) && c.Rpc?
    ensures Inv(Finish(s, c, reply))
  {
    hide Inv, AnswersOk;
    EndInv(s, c);
    TellInv(End(s, c), c, reply);
  }

  lemma DeletionFrame(calls: map<CallId, Call>, vms: map<nat, VM>, ledger: map<string, Entry>, c: CallId, call: Call)
    requires WorkersOk(calls, vms, ledger) && PhasesOk(vms, calls, ledger)
    requires call.DeleteWanted? || call.DeleteOnHost?
    ensures WorkersOk(calls[c := call], vms, ledger) && PhasesOk(vms, calls[c := call], ledger)
  {
    hide WorkerOk, EverLeased;
  }

  ghost predicate DeletionOf(s: State, c: CallId, call: Call) {
    && (call.DeleteWanted? || call.DeleteOnHost?)
    && call.vm <= s.nextVM
    && (c.Task? ==> c.n < s.nextTask)
    && ReleaseOk(call, s.ledger, s.byUid)
    && c !in s.answers
  }

  lemma SetDeletionInv(s: State, c: CallId, call: Call)
    requires Inv(s) && DeletionOf(s, c, call)
    ensures Inv(SetCall(s, c, call))
  {
    hide PoolsOk, UidsOk, LeasesOk, LedgerOk, WorkersOk, PhasesOk, HostsOk, AnswersOk, SweptOk, LogOk, RequestsOk, OnceOk;
    DeletionFrame(s.calls, s.vms, s.ledger, c, call);
  }

  lemma NextTaskInv(s: State)
    requires Inv(s)
    ensures Inv(s.(nextTask := s.nextTask + 1))
  {
    hide PoolsOk, UidsOk, LeasesOk, LedgerOk, WorkersOk, PhasesOk, ClaimsOk, ReleasesOk, CallsOk, RequestsOk, OnceOk, HostsOk, AnswersOk, SweptOk, LogOk;
  }

  lemma TasksUntold(s: State)
    requires Inv(s)
    ensures Task(s.nextTask) !in s.answers
  {
    hide PoolsOk, IdsOk, UidsOk, LeasesOk, LedgerOk, WorkersOk, PhasesOk, ClaimsOk, ReleasesOk, RequestsOk, OnceOk, HostsOk, AnswersOk, SweptOk, LogOk;
  }

  lemma SpawnInv(s: State, call: Call)
    requires Inv(s) && call.DeleteWanted? && call.vm <= s.nextVM && call.release == ""
    ensures Inv(Spawn(s, call))
  {
    hide Inv;
    var t := s.(nextTask := s.nextTask + 1);
    NextTaskInv(s);
    TasksUntold(s);
    SetDeletionInv(t, Task(s.nextTask), call);
  }

  /** A call may start or go on to work on a MicroVM nobody else works on. */
  ghost predicate WorkerFits(s: State, c: CallId, call: Call) {
    && Working(call)
    && call.vm in s.vms
    && s.vms[call.vm].phase != Available
    && (c.Task? ==> c.n < s.nextTask)
    && WorkerOk(call, s.vms[call.vm], s.ledger)
    && (call.Claiming? ==> Current(s, call.key, call.rec) && c.Rpc?)
    && c !in s.answers
    && forall d | d in s.calls && d != c && Working(s.calls[d]) :: s.calls[d].vm != call.vm
  }

  lemma WorkerFrame(s: State, c: CallId, call: Call)
    requires WorkerFits(s, c, call)
    requires WorkersOk(s.calls, s.vms, s.ledger) && PhasesOk(s.vms, s.calls, s.ledger)
    ensures WorkersOk(s.calls[c := call], s.vms, s.ledger) && PhasesOk(s.vms, s.calls[c := call], s.ledger)
  {
    hide WorkerOk, EverLeased;
  }

  lemma SetWorkerInv(s: State, c: CallId, call: Call)
    requires Inv(s) && WorkerFits(s, c, call)
    ensures Inv(SetCall(s, c, call))
  {
    hide PoolsOk, UidsOk, LeasesOk, LedgerOk, WorkersOk, PhasesOk, HostsOk, AnswersOk, SweptOk, LogOk, RequestsOk, OnceOk;
    WorkerFrame(s, c, call);
  }

  // ----- MicroVMs -----

  /** A change to a MicroVM that its Lease and whoever works on it can live with. */
  ghost predicate VmFits(s: State, v: nat, vm: VM) {
    && v in s.vms
    && vm.uid == s.vms[v].uid && vm.pool == s.vms[v].pool && vm.host == s.vms[v].host
    && (forall l | l in s.leases && s.leases[l].vm == vm.uid ::
          vm.lease == l && (vm.phase == Leased || vm.phase == Deleting))
    && PhaseOk(v, vm, s.calls, s.ledger)
    && forall c | c in s.calls && Working(s.calls[c]) && s.calls[c].vm == v :: WorkerOk(s.calls[c], vm, s.ledger)
  }

  lemma SetVmLeases(s: State, v: nat, vm: VM)
    requires VmFits(s, v, vm) && LeasesOk(s.leases, s.vms, s.byUid, s.pools) && UidsOk(s.vms, s.byUid, s.uids)
    ensures LeasesOk(s.leases, s.vms[v := vm], s.byUid, s.pools)
  {
    hide PhaseOk, WorkerOk;
  }

  lemma SetVmIndex(s: State, v: nat, vm: VM)
    requires VmFits(s, v, vm) && UidsOk(s.vms, s.byUid, s.uids)
    requires HostsOk(s.hosts, s.pools, s.vms) && IdsOk(s.vms, s.nextVM, s.calls, s.nextTask)
    ensures UidsOk(s.vms[v := vm], s.byUid, s.uids)
    ensures HostsOk(s.hosts, s.pools, s.vms[v := vm]) && IdsOk(s.vms[v := vm], s.nextVM, s.calls, s.nextTask)
  {
    hide PhaseOk, WorkerOk;
  }

  lemma SetVmWork(s: State, v: nat, vm: VM)
    requires VmFits(s, v, vm) && WorkersOk(s.calls, s.vms, s.ledger) && PhasesOk(s.vms, s.calls, s.ledger)
    ensures WorkersOk(s.calls, s.vms[v := vm], s.ledger) && PhasesOk(s.vms[v := vm], s.calls, s.ledger)
  {
    hide PhaseOk, WorkerOk;
  }

  lemma SetVmInv(s: State, v: nat, vm: VM)
    requires Inv(s) && VmFits(s, v, vm)
    ensures Inv(SetVm(s, v, vm))
  {
    hide PoolsOk, IdsOk, UidsOk, LeasesOk, LedgerOk, WorkersOk, PhasesOk, ClaimsOk, ReleasesOk, CallsOk, RequestsOk, OnceOk, HostsOk, AnswersOk, SweptOk, LogOk;
    hide VmFits;
    SetVmLeases(s, v, vm);
    SetVmIndex(s, v, vm);
    SetVmWork(s, v, vm);
  }

  lemma ForgetLeases(s: State, v: nat)
    requires v in s.vms && s.vms[v].lease !in s.leases && LedgerOk(s.ledger, s.leases, s.uids)
    requires LeasesOk(s.leases, s.vms, s.byUid, s.pools) && UidsOk(s.vms, s.byUid, s.uids)
    requires ReleasesOk(s.calls, s.ledger, s.byUid)
    ensures var t := Forget(s, v);
            LeasesOk(t.leases, t.vms, t.byUid, t.pools) && ReleasesOk(t.calls, t.ledger, t.byUid)
  {
  }

  lemma ForgetIndex(s: State, v: nat)
    requires v in s.vms && UidsOk(s.vms, s.byUid, s.uids)
    ensures var t := Forget(s, v); UidsOk(t.vms, t.byUid, t.uids)
  {
  }

  lemma ForgetWork(s: State, v: nat)
    requires WorkersOk(s.calls, s.vms, s.ledger) && PhasesOk(s.vms, s.calls, s.ledger)
    ensures WorkersOk(s.calls, s.vms - {v}, s.ledger) && PhasesOk(s.vms - {v}, s.calls, s.ledger)
  {
    hide PhaseOk, WorkerOk;
  }

  /** A MicroVM that no Lease needs may be forgotten. */
  lemma ForgetInv(s: State, v: nat)
    requires Inv(s) && v in s.vms && s.vms[v].lease !in s.leases
    ensures Inv(Forget(s, v))
  {
    hide PoolsOk, UidsOk, LeasesOk, LedgerOk, WorkersOk, PhasesOk, ClaimsOk, ReleasesOk, CallsOk, RequestsOk, OnceOk, AnswersOk, SweptOk, LogOk;
    ForgetLeases(s, v);
    ForgetIndex(s, v);
    ForgetWork(s, v);
  }

  lemma NameLeases(s: State, c: CallId, v: nat, uid: string)
    requires v in s.vms && s.vms[v].uid == "" && c in s.calls && s.calls[c] == Placed(v) && uid !in s.uids
    requires LeasesOk(s.leases, s.vms, s.byUid, s.pools) && UidsOk(s.vms, s.byUid, s.uids)
    requires ReleasesOk(s.calls, s.ledger, s.byUid)
    ensures var t := Name(s, c, v, uid);
            LeasesOk(t.leases, t.vms, t.byUid, t.pools) && ReleasesOk(t.calls, t.ledger, t.byUid)
  {
  }

  lemma NameIndex(s: State, c: CallId, v: nat, uid: string)
    requires v in s.vms && s.vms[v].uid == "" && uid != "" && uid !in s.uids
    requires UidsOk(s.vms, s.byUid, s.uids) && LedgerOk(s.ledger, s.leases, s.uids)
    ensures var t := Name(s, c, v, uid);
            UidsOk(t.vms, t.byUid, t.uids) && LedgerOk(t.ledger, t.leases, t.uids)
  {
  }

  lemma NameWork(s: State, c: CallId, v: nat, uid: string)
    requires v in s.vms && s.vms[v].uid == "" && uid != "" && c in s.calls && s.calls[c] == Placed(v)
    requires !EverLeased(s.ledger, uid)
    requires WorkersOk(s.calls, s.vms, s.ledger) && PhasesOk(s.vms, s.calls, s.ledger)
    ensures var t := Name(s, c, v, uid); WorkersOk(t.calls, t.vms, t.ledger) && PhasesOk(t.vms, t.calls, t.ledger)
  {
    hide EverLeased;
  }

  lemma Unnamed(s: State, c: CallId, v: nat, uid: string)
    requires Inv(s) && c in s.calls && s.calls[c] == Placed(v) && v in s.vms && uid !in s.uids
    ensures s.vms[v].uid == "" && !EverLeased(s.ledger, uid)
  {
    hide PoolsOk, IdsOk, UidsOk, LeasesOk, PhasesOk, ClaimsOk, ReleasesOk, CallsOk, RequestsOk, OnceOk, HostsOk, AnswersOk, SweptOk, LogOk;
  }

  lemma NameInv(s: State, c: CallId, v: nat, uid: string)
    requires Inv(s) && c in s.calls && s.calls[c] == Placed(v) && v in s.vms
    requires uid != "" && uid !in s.uids
    ensures Inv(Name(s, c, v, uid))
  {
    hide PoolsOk, UidsOk, LeasesOk, LedgerOk, WorkersOk, PhasesOk, ReleasesOk, RequestsOk, OnceOk, AnswersOk, SweptOk, LogOk, EverLeased;
    Unnamed(s, c, v, uid);
    NameLeases(s, c, v, uid);
    NameIndex(s, c, v, uid);
    NameWork(s, c, v, uid);
  }

  // ----- Leases -----

  /** Ending or renewing a Lease changes nobody's leasing history. */
  ghost predicate SameGrants(a: map<string, Entry>, b: map<string, Entry>) {
    a.Keys == b.Keys && forall l | l in a :: a[l].lease.vm == b[l].lease.vm
  }

  lemma GrantsFrame(calls: map<CallId, Call>, vms: map<nat, VM>, a: map<string, Entry>, b: map<string, Entry>)
    requires SameGrants(a, b)
    requires WorkersOk(calls, vms, a) && PhasesOk(vms, calls, a)
    ensures WorkersOk(calls, vms, b) && PhasesOk(vms, calls, b)
    ensures OnceOk(a) ==> OnceOk(b)
  {
    assert forall u :: EverLeased(a, u) <==> EverLeased(b, u);
  }

  lemma DropLeases(s: State, l: string, cause: Cause)
    requires l in s.leases && LeasesOk(s.leases, s.vms, s.byUid, s.pools)
    requires RequestsOk(s.leases) && AnswersOk(s.answers, s.ledger, s.leases) && LedgerOk(s.ledger, s.leases, s.uids)
    ensures var t := DropLease(s, l, cause);
            && LeasesOk(t.leases, t.vms, t.byUid, s.pools) && RequestsOk(t.leases)
            && AnswersOk(t.answers, t.ledger, t.leases)
  {
    hide Backed;
  }

  lemma DropLedger(s: State, l: string, cause: Cause)
    requires l in s.leases && (cause == Swept ==> s.leases[l].expiresAt <= s.now)
    requires LedgerOk(s.ledger, s.leases, s.uids)
    requires ReleasesOk(s.calls, s.ledger, s.byUid) && SweptOk(s.ledger, s.now)
    ensures var t := DropLease(s, l, cause);
            && LedgerOk(t.ledger, t.leases, t.uids)
            && ReleasesOk(t.calls, t.ledger, t.byUid) && SweptOk(t.ledger, t.now) && SameGrants(s.ledger, t.ledger)
  {
  }

  lemma DropPools(s: State, l: string, cause: Cause)
    requires l in s.leases && LogOk(s.log, s.pools, s.nextRec)
    ensures var t := DropLease(s, l, cause); LogOk(t.log, t.pools, t.nextRec) && PoolsLike(s.pools, t.pools)
  {
  }

  lemma DropInv(s: State, l: string, cause: Cause)
    requires Inv(s)
    requires l in s.leases && cause == Swept ==> s.leases[l].expiresAt <= s.now
    ensures Inv(DropLease(s, l, cause))
  {
    hide PoolsOk, IdsOk, UidsOk, LeasesOk, LedgerOk, WorkersOk, PhasesOk, ClaimsOk, ReleasesOk, CallsOk, RequestsOk, OnceOk, HostsOk, AnswersOk, SweptOk, LogOk;
    if l in s.leases {
      var t := DropLease(s, l, cause);
      DropLeases(s, l, cause);
      DropLedger(s, l, cause);
      DropPools(s, l, cause);
      GrantsFrame(s.calls, s.vms, s.ledger, t.ledger);
      LikeFrame(t.(pools := s.pools), t.pools);
    } else {
      assert s.leases - {l} == s.leases;
    }
  }

  predicate Renewal(s: State, l: string, lease: Lease) {
    l in s.leases && lease == s.leases[l].(heartbeatAt := lease.heartbeatAt, expiresAt := lease.expiresAt)
  }

  lemma RenewLeases(s: State, l: string, lease: Lease)
    requires Renewal(s, l, lease) && LeasesOk(s.leases, s.vms, s.byUid, s.pools) && RequestsOk(s.leases)
    requires AnswersOk(s.answers, s.ledger, s.leases) && LedgerOk(s.ledger, s.leases, s.uids)
    ensures var t := StoreLease(s, l, lease);
            && LeasesOk(t.leases, t.vms, t.byUid, t.pools) && RequestsOk(t.leases)
            && AnswersOk(t.answers, t.ledger, t.leases)
  {
  }

  lemma RenewLedger(s: State, l: string, lease: Lease)
    requires Renewal(s, l, lease) && LedgerOk(s.ledger, s.leases, s.uids)
    requires ReleasesOk(s.calls, s.ledger, s.byUid) && SweptOk(s.ledger, s.now)
    ensures var t := StoreLease(s, l, lease);
            && LedgerOk(t.ledger, t.leases, t.uids)
            && ReleasesOk(t.calls, t.ledger, t.byUid) && SweptOk(t.ledger, t.now) && SameGrants(s.ledger, t.ledger)
  {
  }

  lemma RenewInv(s: State, l: string, lease: Lease)
    requires Inv(s) && Renewal(s, l, lease)
    ensures Inv(StoreLease(s, l, lease))
  {
    hide PoolsOk, IdsOk, UidsOk, LeasesOk, LedgerOk, WorkersOk, PhasesOk, ClaimsOk, ReleasesOk, CallsOk, RequestsOk, OnceOk, HostsOk, AnswersOk, SweptOk, LogOk;
    RenewLeases(s, l, lease);
    RenewLedger(s, l, lease);
    GrantsFrame(s.calls, s.vms, s.ledger, StoreLease(s, l, lease).ledger);
  }

  /** The MicroVM may be leased: nobody works on it, and it never was. */
  ghost predicate Grantable(s: State, v: nat, l: string, lease: Lease) {
    && v in s.vms && s.vms[v].uid != "" && s.vms[v].uid == lease.vm && s.vms[v].pool == lease.pool
    && lease.pool in s.pools
    && !EverLeased(s.ledger, s.vms[v].uid)
    && IsPrior(s.leases, lease.request, None)
    && FreshLease(s, l)
    && forall c | c in s.calls && Working(s.calls[c]) :: s.calls[c].vm != v
  }

  lemma GrantLeases(s: State, v: nat, l: string, lease: Lease)
    requires Grantable(s, v, l, lease) && UidsOk(s.vms, s.byUid, s.uids) && LeasesOk(s.leases, s.vms, s.byUid, s.pools)
    requires LedgerOk(s.ledger, s.leases, s.uids)
    ensures var t := Grant(s, v, l, lease); LeasesOk(t.leases, t.vms, t.byUid, t.pools)
  {
    forall m | m in s.leases ensures s.leases[m].vm != s.vms[v].uid {
      assert s.ledger[m].lease == s.leases[m];
    }
    hide EverLeased, LedgerOk;
  }

  lemma GrantRequests(s: State, v: nat, l: string, lease: Lease)
    requires Grantable(s, v, l, lease) && RequestsOk(s.leases)
    ensures RequestsOk(Grant(s, v, l, lease).leases)
  {
    hide EverLeased;
  }

  lemma GrantLedger(s: State, v: nat, l: string, lease: Lease)
    requires Grantable(s, v, l, lease) && UidsOk(s.vms, s.byUid, s.uids) && LedgerOk(s.ledger, s.leases, s.uids)
    requires SweptOk(s.ledger, s.now) && ReleasesOk(s.calls, s.ledger, s.byUid)
    ensures var t := Grant(s, v, l, lease);
            LedgerOk(t.ledger, t.leases, t.uids) && SweptOk(t.ledger, t.now) && ReleasesOk(t.calls, t.ledger, t.byUid)
  {
    hide EverLeased;
  }

  lemma GrantOnce(s: State, v: nat, l: string, lease: Lease)
    requires Grantable(s, v, l, lease) && OnceOk(s.ledger) && AnswersOk(s.answers, s.ledger, s.leases)
    ensures var t := Grant(s, v, l, lease); OnceOk(t.ledger) && AnswersOk(t.answers, t.ledger, t.leases)
  {
  }

  lemma GrantIndex(s: State, v: nat, l: string, lease: Lease)
    requires Grantable(s, v, l, lease) && UidsOk(s.vms, s.byUid, s.uids)
    requires HostsOk(s.hosts, s.pools, s.vms) && IdsOk(s.vms, s.nextVM, s.calls, s.nextTask)
    ensures var t := Grant(s, v, l, lease);
            && UidsOk(t.vms, t.byUid, t.uids)
            && HostsOk(t.hosts, t.pools, t.vms) && IdsOk(t.vms, t.nextVM, t.calls, t.nextTask)
  {
    hide EverLeased;
  }

  lemma GrantWork(s: State, v: nat, l: string, lease: Lease)
    requires Grantable(s, v, l, lease) && UidsOk(s.vms, s.byUid, s.uids)
    requires WorkersOk(s.calls, s.vms, s.ledger) && PhasesOk(s.vms, s.calls, s.ledger)
    ensures var t := Grant(s, v, l, lease); WorkersOk(t.calls, t.vms, t.ledger) && PhasesOk(t.vms, t.calls, t.ledger)
  {
    var ledger := s.ledger[l := Entry(lease, None)];
    forall u ensures EverLeased(ledger, u) <==> EverLeased(s.ledger, u) || u == lease.vm {
      assert ledger[l].lease.vm == lease.vm;
      if m :| m in s.ledger && s.ledger[m].lease.vm == u {
        assert ledger[m].lease.vm == u;
      }
    }
    hide EverLeased;
  }

  lemma GrantInv(s: State, v: nat, l: string, lease: Lease)
    requires Inv(s) && Grantable(s, v, l, lease)
    ensures Inv(Grant(s, v, l, lease))
  {
    hide PoolsOk, IdsOk, UidsOk, LeasesOk, LedgerOk, WorkersOk, PhasesOk, ClaimsOk, HostsOk, AnswersOk, SweptOk, LogOk, RequestsOk, OnceOk;
    hide Grantable;
    GrantLeases(s, v, l, lease);
    GrantRequests(s, v, l, lease);
    GrantLedger(s, v, l, lease);
    GrantOnce(s, v, l, lease);
    GrantIndex(s, v, l, lease);
    GrantWork(s, v, l, lease);
  }

  // ----- Placement -----

  lemma PlaceWork(s: State, v: nat, vm: VM, c: CallId)
    requires v !in s.vms && c !in s.calls && forall d | d in s.calls :: s.calls[d].vm != v
    requires vm.uid == "" && vm.lease == "" && vm.phase == Provisioning
    requires WorkersOk(s.calls, s.vms, s.ledger) && PhasesOk(s.vms, s.calls, s.ledger)
    requires LedgerOk(s.ledger, s.leases, s.uids)
    ensures WorkersOk(s.calls[c := Placed(v)], s.vms[v := vm], s.ledger)
    ensures PhasesOk(s.vms[v := vm], s.calls[c := Placed(v)], s.ledger)
  {
  }

  lemma PlaceVms(s: State, v: nat, vm: VM, c: CallId)
    requires v !in s.vms && vm.uid == "" && vm.host in s.hosts
    requires UidsOk(s.vms, s.byUid, s.uids) && HostsOk(s.hosts, s.pools, s.vms)
    requires LeasesOk(s.leases, s.vms, s.byUid, s.pools) && ReleasesOk(s.calls, s.ledger, s.byUid)
    ensures UidsOk(s.vms[v := vm], s.byUid, s.uids) && HostsOk(s.hosts, s.pools, s.vms[v := vm])
    ensures LeasesOk(s.leases, s.vms[v := vm], s.byUid, s.pools)
    ensures ReleasesOk(s.calls[c := Placed(v)], s.ledger, s.byUid)
  {
  }

  lemma PlaceIds(s: State, vm: VM)
    requires IdsOk(s.vms, s.nextVM, s.calls, s.nextTask) && ClaimsOk(s.calls, s.pools, s.gone) && CallsOk(s.calls, s.answers)
    ensures var v := s.nextVM + 1;
            var c := Task(s.nextTask);
            && v !in s.vms && c !in s.calls && (forall d | d in s.calls :: s.calls[d].vm != v)
            && IdsOk(s.vms[v := vm], v, s.calls[c := Placed(v)], s.nextTask + 1)
            && ClaimsOk(s.calls[c := Placed(v)], s.pools, s.gone) && CallsOk(s.calls[c := Placed(v)], s.answers)
  {
  }

  /** The reservation itself, before the Pool's cursor moves. */
  function Reserved(s: State, key: PoolKey, policy: Policy, h: string): State {
    Spawn(s.(nextVM := s.nextVM + 1, vms := s.vms[s.nextVM + 1 := NewVM(key, policy, h, s.now)]), Placed(s.nextVM + 1))
  }

  lemma ReservedInv(s: State, key: PoolKey, policy: Policy, h: string)
    requires Inv(s) && h in s.hosts
    ensures Inv(Reserved(s, key, policy, h))
  {
    hide PoolsOk, IdsOk, UidsOk, LeasesOk, LedgerOk, WorkersOk, PhasesOk, ClaimsOk, ReleasesOk, CallsOk, RequestsOk, OnceOk, HostsOk, AnswersOk, SweptOk, LogOk;
    var vm := NewVM(key, policy, h, s.now);
    PlaceIds(s, vm);
    PlaceWork(s, s.nextVM + 1, vm, Task(s.nextTask));
    PlaceVms(s, s.nextVM + 1, vm, Task(s.nextTask));
  }

  lemma GoneInv(s: State, rec: nat, p: Pool)
    requires Inv(s) && rec in s.gone && p.key == s.gone[rec].key
    ensures Inv(s.(gone := s.gone[rec := p]))
  {
    hide IdsOk, UidsOk, LeasesOk, LedgerOk, WorkersOk, PhasesOk, ReleasesOk, CallsOk, RequestsOk, OnceOk, HostsOk, AnswersOk, SweptOk, LogOk;
  }

  lemma PlaceReserved(s: State, key: PoolKey, rec: nat, h: string)
    requires Known(s, key, rec)
    ensures var p := Record(s, key, rec);
            var q := Rotate(p, s.placement);
            Place(s, key, rec, h) ==
            Reserved(if Current(s, key, rec) then SetPool(s, key, q) else s.(gone := s.gone[rec := q]),
                     key, p.spec.policy, h)
  {
  }

  lemma PlaceInv(s: State, key: PoolKey, rec: nat, h: string)
    requires Inv(s) && Known(s, key, rec) && h in s.hosts
    ensures Inv(Place(s, key, rec, h))
  {
    hide Inv, Reserved, Place;
    PlaceReserved(s, key, rec, h);
    var p := Record(s, key, rec);
    var q := Rotate(p, s.placement);
    if Current(s, key, rec) {
      SetPoolInv(s, key, q);
      ReservedInv(SetPool(s, key, q), key, p.spec.policy, h);
    } else {
      GoneInv(s, rec, q);
      ReservedInv(s.(gone := s.gone[rec := q]), key, p.spec.policy, h);
    }
  }

  lemma {:induction false} ReserveInv(s: State, key: PoolKey, rec: nat, n: nat)
    requires Inv(s) && Known(s, key, rec)
    ensures Inv(Reserve(s, key, rec, n))
    decreases n
  {
    hide Inv;
    if n > 0 {
      var h := Pick(s, Record(s, key, rec));
      if h.Some? {
        PlaceInv(s, key, rec, h.value);
        ReserveInv(Place(s, key, rec, h.value), key, rec, n - 1);
      }
    }
  }

  lemma ProvisionInv(s: State, key: PoolKey, rec: nat, n: nat)
    requires Inv(s) && Known(s, key, rec)
    ensures Inv(ProvisionN(s, key, rec, n))
  {
    hide Inv;
    ReserveInv(s, key, rec, n);
    EmitInv(Reserve(s, key, rec, n), key, "", PoolReplenishing);
  }

  // ----- Pools and Hosts -----

  lemma FreshRec(log: seq<Event>, rec: nat)
    requires forall i | 0 <= i < |log| :: log[i].rec != rec
    ensures Tally(log, rec) == 0
  {
  }

  lemma CreatedPools(s: State, key: PoolKey, p: Pool)
    requires key !in s.pools && p.key == key && p.rec == s.nextRec && p.nextEvent == 0
    requires PoolsOk(s.pools, s.gone, s.nextRec) && LogOk(s.log, s.pools, s.nextRec)
    ensures PoolsOk(s.pools[key := p], s.gone, s.nextRec + 1) && LogOk(s.log, s.pools[key := p], s.nextRec + 1)
  {
    FreshRec(s.log, s.nextRec);
  }

  lemma SpecFrame(s: State, key: PoolKey, p: Pool)
    requires HostsHeld(s.hosts, p.spec) && (key in s.pools ==> p.rec == s.pools[key].rec)
    requires HostsOk(s.hosts, s.pools, s.vms) && ClaimsOk(s.calls, s.pools, s.gone)
    requires LeasesOk(s.leases, s.vms, s.byUid, s.pools)
    ensures HostsOk(s.hosts, s.pools[key := p], s.vms) && ClaimsOk(s.calls, s.pools[key := p], s.gone)
    ensures LeasesOk(s.leases, s.vms, s.byUid, s.pools[key := p])
  {
    hide Backed;
  }

  lemma CreatePoolInv(s: State, key: PoolKey, spec: Spec)
    requires Inv(s)
    ensures Inv(CreatePoolS(s, key, spec))
  {
    hide PoolsOk, IdsOk, UidsOk, LeasesOk, LedgerOk, WorkersOk, PhasesOk, ClaimsOk, ReleasesOk, CallsOk, RequestsOk, OnceOk, HostsOk, AnswersOk, SweptOk, LogOk;
    hide ValidSpec, HostsHeld;
    if Accepted(s, key, spec) && key !in s.pools {
      var p := Pool(key, s.nextRec, spec, 0, 0, true, map[]);
      CreatedPools(s, key, p);
      SpecFrame(s, key, p);
    }
  }

  lemma UpdatedPools(s: State, key: PoolKey, spec: Spec)
    requires key in s.pools && PoolsOk(s.pools, s.gone, s.nextRec) && LogOk(s.log, s.pools, s.nextRec)
    ensures var pools := s.pools[key := s.pools[key].(spec := spec, unfilled := true)];
            PoolsOk(pools, s.gone, s.nextRec) && LogOk(s.log, pools, s.nextRec)
  {
  }

  lemma UpdatePoolInv(s: State, key: PoolKey, spec: Spec)
    requires Inv(s)
    ensures Inv(UpdatePoolS(s, key, spec))
  {
    hide PoolsOk, IdsOk, UidsOk, LeasesOk, LedgerOk, WorkersOk, PhasesOk, ClaimsOk, ReleasesOk, CallsOk, RequestsOk, OnceOk, HostsOk, AnswersOk, SweptOk, LogOk;
    hide ValidSpec, HostsHeld;
    if Accepted(s, key, spec) && key in s.pools {
      UpdatedPools(s, key, spec);
      SpecFrame(s, key, s.pools[key].(spec := spec, unfilled := true));
    }
  }

  function Deleted(s: State, key: PoolKey): State
    requires key in s.pools
  {
    s.(pools := s.pools - {key},
       gone := s.gone[s.pools[key].rec := s.pools[key].(warned := s.pools[key].warned - LeasesOf(s.leases, key))],
       vms := MarkAll(s.vms, key, s.now),
       leases := LeasesWithout(s.leases, key),
       ledger := LedgerWithout(s.ledger, s.leases, key))
  }

  lemma DeletedPools(s: State, key: PoolKey)
    requires key in s.pools && PoolsOk(s.pools, s.gone, s.nextRec) && ClaimsOk(s.calls, s.pools, s.gone)
    requires HostsOk(s.hosts, s.pools, s.vms) && LogOk(s.log, s.pools, s.nextRec)
    ensures var t := Deleted(s, key);
            && PoolsOk(t.pools, t.gone, t.nextRec) && ClaimsOk(t.calls, t.pools, t.gone)
            && HostsOk(t.hosts, t.pools, t.vms) && LogOk(t.log, t.pools, t.nextRec)
  {
  }

  lemma DeletedLeases(s: State, key: PoolKey)
    requires key in s.pools && LeasesOk(s.leases, s.vms, s.byUid, s.pools) && RequestsOk(s.leases)
    requires LedgerOk(s.ledger, s.leases, s.uids)
    requires AnswersOk(s.answers, s.ledger, s.leases)
    ensures var t := Deleted(s, key);
            && LeasesOk(t.leases, t.vms, t.byUid, t.pools) && RequestsOk(t.leases)
            && AnswersOk(t.answers, t.ledger, t.leases)
  {
  }

  lemma DeletedLedger(s: State, key: PoolKey)
    requires key in s.pools && LedgerOk(s.ledger, s.leases, s.uids) && SweptOk(s.ledger, s.now)
    requires ReleasesOk(s.calls, s.ledger, s.byUid)
    ensures var t := Deleted(s, key);
            && LedgerOk(t.ledger, t.leases, t.uids) && SweptOk(t.ledger, t.now)
            && ReleasesOk(t.calls, t.ledger, t.byUid) && SameGrants(s.ledger, t.ledger)
  {
  }

  lemma DeletedVms(s: State, key: PoolKey)
    requires key in s.pools && IdsOk(s.vms, s.nextVM, s.calls, s.nextTask) && UidsOk(s.vms, s.byUid, s.uids)
    ensures var t := Deleted(s, key);
            IdsOk(t.vms, t.nextVM, t.calls, t.nextTask) && UidsOk(t.vms, t.byUid, t.uids)
  {
  }

  lemma DeletedWork(calls: map<CallId, Call>, vms: map<nat, VM>, ledger: map<string, Entry>, key: PoolKey, now: Time)
    requires WorkersOk(calls, vms, ledger) && PhasesOk(vms, calls, ledger)
    ensures WorkersOk(calls, MarkAll(vms, key, now), ledger) && PhasesOk(MarkAll(vms, key, now), calls, ledger)
  {
    hide EverLeased;
  }

  lemma DeletedInv(s: State, key: PoolKey)
    requires Inv(s) && key in s.pools
    ensures Inv(Deleted(s, key))
  {
    hide PoolsOk, IdsOk, UidsOk, LeasesOk, LedgerOk, WorkersOk, PhasesOk, ClaimsOk, ReleasesOk, CallsOk, RequestsOk, OnceOk, HostsOk, AnswersOk, SweptOk, LogOk;
    var t := Deleted(s, key);
    DeletedPools(s, key);
    DeletedLeases(s, key);
    DeletedLedger(s, key);
    DeletedVms(s, key);
    DeletedWork(s.calls, s.vms, s.ledger, key, s.now);
    GrantsFrame(t.calls, t.vms, s.ledger, t.ledger);
  }

  lemma HostsInv(s: State, hosts: map<string, Host>)
    requires Inv(s) && HostsOk(hosts, s.pools, s.vms)
    ensures Inv(s.(hosts := hosts))
  {
  }

  lemma AdvanceInv(s: State, t: Time)
    requires Inv(s) && s.now <= t
    ensures Inv(s.(now := t))
  {
    hide PoolsOk, IdsOk, UidsOk, LeasesOk, LedgerOk, WorkersOk, PhasesOk, ClaimsOk, ReleasesOk, CallsOk, RequestsOk, OnceOk, HostsOk, AnswersOk, LogOk;
  }

  lemma StartInv(s: State)
    requires Inv(s)
    ensures Inv(s.(running := true))
  {
  }

  lemma UidInv(s: State, uid: string)
    requires Inv(s)
    ensures Inv(s.(uids := s.uids + {uid}))
  {
    hide PoolsOk, IdsOk, LeasesOk, WorkersOk, PhasesOk, ClaimsOk, ReleasesOk, CallsOk, RequestsOk, OnceOk, HostsOk, AnswersOk, SweptOk, LogOk;
  }
}
