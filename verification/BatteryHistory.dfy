/** What no section ever takes back: answers, the ledger, uids, ids and the log only grow. */
module BatteryHistory {
  import opened BatteryTypes
  import opened BatterySections
  import opened BatteryInvariant
  import opened BatteryPieces
  import opened BatteryRuns

  /** A Lease keeps its MicroVM, Pool and request id, and an ended Lease never changes again. */
  ghost predicate LedgerGrows(a: map<string, Entry>, b: map<string, Entry>) {
    forall l | l in a ::
      && l in b
      && b[l].lease.vm == a[l].lease.vm && b[l].lease.pool == a[l].lease.pool && b[l].lease.request == a[l].lease.request
      && (a[l].cause.Some? ==> b[l] == a[l])
  }

  /** A MicroVM keeps its Pool, its Host and the uid its Host gave it, and an id is never used again. */
  ghost predicate VmsGrow(a: map<nat, VM>, b: map<nat, VM>, n: nat) {
    forall v | v in b ::
      || n < v
      || (v in a && b[v].pool == a[v].pool && b[v].host == a[v].host && (a[v].uid != "" ==> b[v].uid == a[v].uid))
  }

  ghost predicate AnswersGrow(a: map<CallId, Reply>, b: map<CallId, Reply>) {
    forall c | c in a :: c in b && b[c] == a[c]
  }

  ghost predicate Grows(s: State, t: State) {
    && s.now <= t.now && s.nextVM <= t.nextVM && s.nextRec <= t.nextRec
    && s.uids <= t.uids && s.log <= t.log
    && AnswersGrow(s.answers, t.answers)
    && LedgerGrows(s.ledger, t.ledger)
    && VmsGrow(s.vms, t.vms, s.nextVM)
  }

  lemma GrowsTrans(s: State, t: State, u: State)
    requires Grows(s, t) && Grows(t, u)
    ensures Grows(s, u)
  {
  }

  lemma EmitGrows(s: State, key: PoolKey, vm: string, typ: EventType)
    ensures Grows(s, Emit(s, key, vm, typ))
  {
  }

  lemma SetVmGrows(s: State, v: nat, vm: VM)
    requires v in s.vms && vm.pool == s.vms[v].pool && vm.host == s.vms[v].host
    requires s.vms[v].uid != "" ==> vm.uid == s.vms[v].uid
    ensures Grows(s, SetVm(s, v, vm))
  {
  }

  lemma SetCallGrows(s: State, c: CallId, call: Call)
    ensures Grows(s, SetCall(s, c, call))
  {
  }

  lemma GoneGrows(s: State, gone: map<nat, Pool>)
    ensures Grows(s, s.(gone := gone))
  {
  }

  lemma ReservedGrows(s: State, key: PoolKey, policy: Policy, h: string)
    ensures Grows(s, Reserved(s, key, policy, h))
  {
  }

  lemma PlaceGrows(s: State, key: PoolKey, rec: nat, h: string)
    requires Known(s, key, rec)
    ensures Grows(s, Place(s, key, rec, h))
  {
    hide Grows, Reserved, Place;
    PlaceReserved(s, key, rec, h);
    var p := Record(s, key, rec);
    var q := Rotate(p, s.placement);
    var t := if Current(s, key, rec) then SetPool(s, key, q) else s.(gone := s.gone[rec := q]);
    SetPoolGrows(s, key, q);
    GoneGrows(s, s.gone[rec := q]);
    ReservedGrows(t, key, p.spec.policy, h);
    GrowsTrans(s, t, Reserved(t, key, p.spec.policy, h));
  }

  lemma {:induction false} ReserveGrows(s: State, key: PoolKey, rec: nat, n: nat)
    requires Known(s, key, rec)
    ensures Grows(s, Reserve(s, key, rec, n))
    decreases n
  {
    hide Grows, Place;
    if n == 0 {
      GrowsRefl(s);
    } else {
      var h := Pick(s, Record(s, key, rec));
      if h.Some? {
        var t := Place(s, key, rec, h.value);
        PlaceGrows(s, key, rec, h.value);
        ReserveGrows(t, key, rec, n - 1);
        GrowsTrans(s, t, Reserve(t, key, rec, n - 1));
      } else {
        GrowsRefl(s);
      }
    }
  }

  lemma GrowsRefl(s: State)
    ensures Grows(s, s)
  {
  }

  lemma ProvisionGrows(s: State, key: PoolKey, rec: nat, n: nat)
    requires Known(s, key, rec)
    ensures Grows(s, ProvisionN(s, key, rec, n))
  {
    hide Grows, Reserve, Emit;
    GrowsRefl(s);
    var t := Reserve(s, key, rec, n);
    ReserveGrows(s, key, rec, n);
    EmitGrows(t, key, "", PoolReplenishing);
    GrowsTrans(s, t, Emit(t, key, "", PoolReplenishing));
  }

  lemma SelectGrows(s: State, c: CallId, key: PoolKey, request: string, prior: Option<string>, vm: Option<nat>)
    requires MaySelect(s, c, key, request, prior, vm)
    ensures Grows(s, SelectS(s, c, key, request, prior, vm))
  {
    hide Grows, Finish, Replay;
    var early := Early(s, key, request, prior, vm);
    if early.Some? {
      FinishGrows(s, c, Claimed(key, request, early.value));
    } else {
      var v := vm.value;
      var t := SetVm(s, v, SetPhase(s.vms[v], PreLeaseHookRunning, s.now));
      SetVmGrows(s, v, SetPhase(s.vms[v], PreLeaseHookRunning, s.now));
      var call := Claiming(v, s.pools[key].rec, key, request);
      SetCallGrows(t, c, call);
      GrowsTrans(s, t, SetCall(t, c, call));
    }
  }

  lemma GrantGrows(s: State, c: CallId, l: string)
    requires c in s.calls && s.calls[c].Claiming? && s.calls[c].vm in s.vms && c !in s.answers && l !in s.ledger
    requires Known(s, s.calls[c].key, s.calls[c].rec)
    ensures Grows(s, GrantS(s, c, l))
  {
    hide Emit, Known, Record;
  }

  lemma CommitGrows(s: State, c: CallId, prior: Option<string>, l: string)
    requires Inv(s) && MayCommit(s, c, prior, l)
    ensures Grows(s, CommitS(s, c, prior, l))
  {
    hide Inv, Grows, GrantS, ProvisionN, YieldS, Finish;
    CallFacts(s, c);
    FinishGrows(s, c, Claimed(s.calls[c].key, s.calls[c].request, NotFound));
    if Alive(s, s.calls[c].vm) {
      if prior.Some? {
        YieldGrows(s, c, prior.value);
      } else {
        var call := s.calls[c];
        GrantGrows(s, c, l);
        GrantKnown(s, c, l);
        var t := GrantS(s, c, l);
        var n := OnClaimed(Record(s, call.key, call.rec).spec);
        ProvisionGrows(t, call.key, call.rec, n);
        GrowsTrans(s, t, ProvisionN(t, call.key, call.rec, n));
      }
    }
  }

  lemma GrantKnown(s: State, c: CallId, l: string)
    requires c in s.calls && s.calls[c].Claiming? && s.calls[c].vm in s.vms
    requires Known(s, s.calls[c].key, s.calls[c].rec)
    ensures Known(GrantS(s, c, l), s.calls[c].key, s.calls[c].rec)
  {
  }

  lemma FinishGrows(s: State, c: CallId, reply: Reply)
    requires c !in s.answers
    ensures Grows(s, Finish(s, c, reply))
  {
  }

  lemma YieldGrows(s: State, c: CallId, prior: string)
    requires c in s.calls && s.calls[c].Claiming? && s.calls[c].vm in s.vms && prior in s.leases && c !in s.answers
    ensures Grows(s, YieldS(s, c, prior))
  {
  }

  lemma HookPolicyGrows(s: State, v: nat, policy: Policy)
    requires v in s.vms
    ensures Grows(s, HookPolicyS(s, v, policy))
  {
  }

  lemma ClaimFailGrows(s: State, c: CallId)
    requires c in s.calls && s.calls[c].Claiming? && c !in s.answers
    ensures Grows(s, ClaimFailS(s, c))
  {
    hide Grows, HookPolicyS;
    var reply := Claimed(s.calls[c].key, s.calls[c].request, Internal);
    var t := Finish(s, c, reply);
    FinishGrows(s, c, reply);
    var v := s.calls[c].vm;
    if Alive(s, v) {
      var policy := s.pools[s.vms[v].pool].spec.policy;
      HookPolicyGrows(t, v, policy);
      GrowsTrans(s, t, HookPolicyS(t, v, policy));
    }
  }

  /** Renewing or ending a held Lease lets the ledger grow. */
  lemma LeaseGrows(s: State, l: string)
    requires Inv(s) && l in s.leases
    ensures l in s.ledger && s.ledger[l] == Entry(s.leases[l], None)
  {
    hide PoolsOk, IdsOk, UidsOk, LeasesOk, WorkersOk, PhasesOk, ClaimsOk, ReleasesOk, CallsOk, RequestsOk, OnceOk, HostsOk, AnswersOk, SweptOk, LogOk;
  }

  lemma DropGrows(s: State, l: string, cause: Cause)
    requires l in s.leases ==> l in s.ledger && s.ledger[l] == Entry(s.leases[l], None)
    ensures Grows(s, DropLease(s, l, cause))
  {
  }

  lemma HeartbeatGrows(s: State, l: string)
    requires l in s.leases ==> l in s.ledger && s.ledger[l] == Entry(s.leases[l], None)
    ensures Grows(s, HeartbeatS(s, l))
  {
  }

  lemma ReleaseGrows(s: State, c: CallId, l: string)
    requires c !in s.answers
    requires l in s.leases ==> l in s.ledger && s.ledger[l] == Entry(s.leases[l], None)
    ensures Grows(s, ReleaseS(s, c, l))
  {
    hide Grows, Finish, DropLease, SetVm, SetCall, Emit;
    if l !in s.leases {
      FinishGrows(s, c, Released(l, NotFound));
    } else {
      var vm := VmOf(s, s.leases[l].vm);
      if vm.None? {
        var t := DropLease(s, l, VmGone);
        DropGrows(s, l, VmGone);
        DropAnswers(s, l, VmGone);
        FinishGrows(t, c, Released(l, Done));
        GrowsTrans(s, t, Finish(t, c, Released(l, Done)));
      } else {
        var v := vm.value;
        var t := SetVm(s, v, s.vms[v].(released := true));
        SetVmGrows(s, v, s.vms[v].(released := true));
        var u := Emit(t, s.leases[l].pool, s.vms[v].uid, VmReleased);
        EmitGrows(t, s.leases[l].pool, s.vms[v].uid, VmReleased);
        GrowsTrans(s, t, u);
        GrowsRefl(s);
        var w := if s.vms[v].released then s else u;
        SetCallGrows(w, c, DeleteWanted(v, Some(VmDeletedOnRelease), l));
        GrowsTrans(s, w, SetCall(w, c, DeleteWanted(v, Some(VmDeletedOnRelease), l)));
      }
    }
  }

  lemma DropAnswers(s: State, l: string, cause: Cause)
    ensures DropLease(s, l, cause).answers == s.answers
  {
  }

  lemma ProvDropGrows(s: State, c: CallId)
    requires c in s.calls && s.calls[c].Placed?
    ensures Grows(s, ProvDropS(s, c))
  {
  }

  lemma NameGrows(s: State, c: CallId, v: nat, uid: string)
    requires v in s.vms && s.vms[v].uid == ""
    ensures Grows(s, Name(s, c, v, uid))
  {
  }

  lemma UidGrows(s: State, uid: string)
    ensures Grows(s, s.(uids := s.uids + {uid}))
  {
  }

  lemma ProvCreateGrows(s: State, c: CallId, uid: string)
    requires c in s.calls && s.calls[c].Placed?
    requires s.calls[c].vm in s.vms ==> s.vms[s.calls[c].vm].uid == ""
    ensures Grows(s, ProvCreateS(s, c, uid))
  {
    hide Grows, Name, Emit;
    var v := s.calls[c].vm;
    if Alive(s, v) {
      NameGrows(s, c, v, uid);
      var t := Name(s, c, v, uid);
      EmitGrows(t, s.vms[v].pool, uid, VmProvisioned);
      GrowsTrans(s, t, Emit(t, s.vms[v].pool, uid, VmProvisioned));
    } else {
      var t := s.(uids := s.uids + {uid});
      UidGrows(s, uid);
      EndGrows(t, c);
      GrowsTrans(s, t, End(t, c));
    }
  }

  lemma ProvHookGrows(s: State, c: CallId)
    requires c in s.calls && s.calls[c].Created?
    ensures Grows(s, ProvHookS(s, c))
  {
    hide Grows;
    var v := s.calls[c].vm;
    EndGrows(s, c);
    if Alive(s, v) {
      var t := SetVm(s, v, SetPhase(s.vms[v], CreateHookRunning, s.now));
      SetVmGrows(s, v, SetPhase(s.vms[v], CreateHookRunning, s.now));
      SetCallGrows(t, c, Hooking(v));
      GrowsTrans(s, t, SetCall(t, c, Hooking(v)));
    }
  }

  lemma ProvReadyGrows(s: State, c: CallId)
    requires c in s.calls && s.calls[c].Hooking?
    ensures Grows(s, ProvReadyS(s, c))
  {
    hide Grows, Emit;
    var v := s.calls[c].vm;
    EndGrows(s, c);
    if Alive(s, v) {
      var vm := SetPhase(s.vms[v], Available, s.now);
      SetVmGrows(End(s, c), v, vm);
      var t := SetVm(End(s, c), v, vm);
      GrowsTrans(s, End(s, c), t);
      EmitGrows(t, vm.pool, vm.uid, VmAvailable);
      GrowsTrans(s, t, Emit(t, vm.pool, vm.uid, VmAvailable));
    }
  }

  lemma ProvFailGrows(s: State, c: CallId)
    requires c in s.calls && (s.calls[c].Created? || s.calls[c].Hooking?)
    ensures Grows(s, ProvFailS(s, c))
  {
    hide Grows, HookPolicyS;
    var t := End(s, c);
    EndGrows(s, c);
    var v := s.calls[c].vm;
    if Alive(s, v) {
      HookPolicyGrows(t, v, s.vms[v].createPolicy);
      GrowsTrans(s, t, HookPolicyS(t, v, s.vms[v].createPolicy));
    }
  }

  lemma EndGrows(s: State, c: CallId)
    ensures Grows(s, End(s, c))
  {
  }

  lemma DelMarkGrows(s: State, c: CallId)
    requires c in s.calls && s.calls[c].DeleteWanted? && c !in s.answers
    ensures Grows(s, DelMarkS(s, c))
  {
    hide Grows, FinishDeletion, Doomed;
    var call := s.calls[c];
    var v := call.vm;
    FinishDeletionGrows(s, c, call.release, Done);
    if v in s.vms {
      var vm := Doomed(s.vms[v], call.event, s.now);
      var t := SetVm(s, v, vm);
      SetVmGrows(s, v, vm);
      FinishDeletionGrows(t, c, call.release, Unavailable);
      GrowsTrans(s, t, FinishDeletion(t, c, call.release, Unavailable));
      SetCallGrows(t, c, DeleteOnHost(v, call.release));
      GrowsTrans(s, t, SetCall(t, c, DeleteOnHost(v, call.release)));
    }
  }

  lemma DelFailGrows(s: State, c: CallId)
    requires c in s.calls && s.calls[c].DeleteOnHost? && c !in s.answers
    ensures Grows(s, DelFailS(s, c))
  {
    hide Grows, FinishDeletion;
    var t := FinishDeletion(s, c, s.calls[c].release, Unavailable);
    FinishDeletionGrows(s, c, s.calls[c].release, Unavailable);
    var v := s.calls[c].vm;
    if v in s.vms {
      SetVmGrows(t, v, s.vms[v].(inFlight := false));
      GrowsTrans(s, t, SetVm(t, v, s.vms[v].(inFlight := false)));
    }
  }

  lemma RemoveGrows(s: State, v: nat)
    requires v in s.vms
    requires s.vms[v].lease in s.leases ==>
               s.vms[v].lease in s.ledger && s.ledger[s.vms[v].lease] == Entry(s.leases[s.vms[v].lease], None)
    ensures Grows(s, RemoveS(s, v))
  {
  }

  lemma EmitEndGrows(s: State, vm: VM)
    ensures Grows(s, EmitEnd(s, vm))
  {
    hide Grows, Emit;
    GrowsRefl(s);
    if vm.deleteEvent.Some? {
      EmitGrows(s, vm.pool, vm.uid, vm.deleteEvent.value);
    }
  }

  lemma FinishDeletionGrows(s: State, c: CallId, release: string, answer: Answer)
    requires c !in s.answers
    ensures Grows(s, FinishDeletion(s, c, release, answer))
    ensures var t := FinishDeletion(s, c, release, answer);
            t.vms == s.vms && t.leases == s.leases && t.ledger == s.ledger
  {
  }

  lemma DelFinishGrows(s: State, c: CallId)
    requires Inv(s) && c in s.calls && s.calls[c].DeleteOnHost?
    ensures Grows(s, DelFinishS(s, c))
  {
    hide Inv, Grows, FinishDeletion, RemoveS, EmitEnd, ProvisionN;
    CallFacts(s, c);
    var t := FinishDeletion(s, c, s.calls[c].release, Done);
    FinishDeletionGrows(s, c, s.calls[c].release, Done);
    var v := s.calls[c].vm;
    if v in s.vms {
      var vm := s.vms[v];
      if vm.lease in s.leases {
        LeaseGrows(s, vm.lease);
      }
      RemoveGrows(t, v);
      GrowsTrans(s, t, RemoveS(t, v));
      var w := EmitEnd(RemoveS(t, v), vm);
      EmitEndGrows(RemoveS(t, v), vm);
      GrowsTrans(s, RemoveS(t, v), w);
      if vm.pool in w.pools {
        var n := OnDeleted(w.pools[vm.pool].spec);
        ProvisionGrows(w, vm.pool, w.pools[vm.pool].rec, n);
        GrowsTrans(s, w, ProvisionN(w, vm.pool, w.pools[vm.pool].rec, n));
      }
    }
  }

  lemma SweepGrows(s: State, l: string)
    requires l in s.leases && l in s.ledger && s.ledger[l] == Entry(s.leases[l], None)
    ensures Grows(s, SweepS(s, l))
  {
    hide Grows, DropLease;
    var t := DropLease(s, l, Swept);
    DropGrows(s, l, Swept);
    var vm := VmOf(s, s.leases[l].vm);
    if vm.Some? {
      var call := DeleteWanted(vm.value, Some(VmDeletedDueToExpiry), "");
      SpawnGrows(t, call);
      GrowsTrans(s, t, Spawn(t, call));
    }
  }

  lemma WarnGrows(s: State, l: string)
    requires l in s.leases && s.leases[l].pool in s.pools
    ensures Grows(s, WarnS(s, l))
  {
  }

  lemma TickPoolGrows(s: State, key: PoolKey)
    requires key in s.pools
    ensures Grows(s, TickPoolS(s, key))
  {
    hide Grows, ProvisionN, Deficit;
    var n := Deficit(s, key);
    var t := SetPool(s, key, s.pools[key].(unfilled := false));
    SetPoolGrows(s, key, s.pools[key].(unfilled := false));
    EmitGrows(t, key, "", PoolSizeBelowTarget);
    GrowsTrans(s, t, Emit(t, key, "", PoolSizeBelowTarget));
    var u := if n > 0 && !s.pools[key].unfilled then Emit(t, key, "", PoolSizeBelowTarget) else t;
    ProvisionGrows(u, key, u.pools[key].rec, n);
    GrowsTrans(s, u, ProvisionN(u, key, u.pools[key].rec, n));
  }

  lemma SetPoolGrows(s: State, key: PoolKey, p: Pool)
    ensures Grows(s, SetPool(s, key, p))
  {
  }

  lemma {:induction false} EmitDeletedGrows(s: State, key: PoolKey, order: seq<nat>)
    ensures Grows(s, EmitDeleted(s, key, order))
    decreases |order|
  {
    hide Grows;
    if order == [] {
      GrowsRefl(s);
    } else {
      var t := EmitDeleted(s, key, order[..|order| - 1]);
      EmitDeletedGrows(s, key, order[..|order| - 1]);
      var v := order[|order| - 1];
      if v in s.vms {
        EmitGrows(t, key, s.vms[v].uid, VmDeletedOnPoolDelete);
        GrowsTrans(s, t, Emit(t, key, s.vms[v].uid, VmDeletedOnPoolDelete));
      }
    }
  }

  lemma {:induction false} SpawnAllGrows(s: State, calls: seq<Call>)
    ensures Grows(s, SpawnAll(s, calls))
    decreases |calls|
  {
    hide Grows;
    if calls == [] {
      GrowsRefl(s);
    } else {
      var t := SpawnAll(s, calls[..|calls| - 1]);
      SpawnAllGrows(s, calls[..|calls| - 1]);
      SpawnGrows(t, calls[|calls| - 1]);
      GrowsTrans(s, t, Spawn(t, calls[|calls| - 1]));
    }
  }

  lemma SpawnGrows(s: State, call: Call)
    ensures Grows(s, Spawn(s, call))
  {
  }

  lemma DeletedGrows(s: State, key: PoolKey)
    requires key in s.pools && LedgerOk(s.ledger, s.leases, s.uids)
    ensures Grows(s, Deleted(s, key))
  {
  }

  lemma DeletePoolGrows(s: State, key: PoolKey, order: seq<nat>)
    requires Inv(s) && key in s.pools
    ensures Grows(s, DeletePoolS(s, key, order))
  {
    hide PoolsOk, IdsOk, UidsOk, LeasesOk, LedgerOk, WorkersOk, PhasesOk, ClaimsOk, ReleasesOk, CallsOk, RequestsOk, OnceOk, HostsOk, AnswersOk, SweptOk, LogOk;
    hide Grows, EmitDeleted, SpawnAll;
    var t := EmitDeleted(s, key, order);
    EmitDeletedInv(s, key, order);
    EmitDeletedGrows(s, key, order);
    DeletedGrows(t, key);
    GrowsTrans(s, t, Deleted(t, key));
    SpawnAllGrows(Deleted(t, key), PoolDeletions(order));
    GrowsTrans(s, Deleted(t, key), SpawnAll(Deleted(t, key), PoolDeletions(order)));
  }

  lemma CreateGrows(s: State, key: PoolKey, spec: Spec)
    ensures Grows(s, CreatePoolS(s, key, spec))
  {
    hide Accepted;
  }

  lemma UpdateGrows(s: State, key: PoolKey, spec: Spec)
    ensures Grows(s, UpdatePoolS(s, key, spec))
  {
    hide Accepted;
  }

  lemma HostsGrow(s: State, hosts: map<string, Host>)
    ensures Grows(s, s.(hosts := hosts))
  {
  }

  lemma ClockGrows(s: State, t: Time, running: bool)
    requires s.now <= t
    ensures Grows(s, s.(now := t, running := running))
  {
  }

  lemma HeldFacts(s: State)
    requires Inv(s)
    ensures forall l | l in s.leases :: l in s.ledger && s.ledger[l] == Entry(s.leases[l], None)
    ensures forall c | c in s.calls :: c !in s.answers
  {
    hide PoolsOk, IdsOk, UidsOk, LeasesOk, WorkersOk, PhasesOk, ClaimsOk, ReleasesOk, RequestsOk, OnceOk, HostsOk, AnswersOk, SweptOk, LogOk;
  }

  lemma HostsStepGrows(s: State, step: Step, t: State)
    requires Next(s, step, t) && (step.AddHost? || step.UpdateHost? || step.RemoveHost? || step.SetCordoned?)
    ensures Grows(s, t)
  {
    hide MayLease, DoLease, MayRoutine, DoRoutine, MayTick, DoTick;
    hide Grows, Named, Occupied;
    HostsGrow(s, t.hosts);
  }

  lemma AdminGrows(s: State, step: Step, t: State)
    requires Inv(s) && Next(s, step, t) && Admin(step)
    ensures Grows(s, t)
  {
    hide MayLease, DoLease, MayRoutine, DoRoutine, MayTick, DoTick;
    hide Inv, Grows, CreatePoolS, UpdatePoolS, DeletePoolS, InOrder, InUse, AddHostS, UpdateHostS, RemoveHostS, SetCordonedS;
    match step
    case Advance(_) => ClockGrows(s, t.now, s.running);
    case Start => ClockGrows(s, s.now, true);
    case CreatePool(key, spec) => CreateGrows(s, key, spec);
    case UpdatePool(key, spec) => UpdateGrows(s, key, spec);
    case DeletePool(key, _, order) => DeletePoolGrows(s, key, order);
    case _ => HostsStepGrows(s, step, t);
  }

  lemma LeasingGrows(s: State, step: Step, t: State)
    requires Inv(s) && Next(s, step, t) && Leasing(step)
    ensures Grows(s, t)
  {
    hide MayAdmin, DoAdmin, MayRoutine, DoRoutine, MayTick, DoTick;
    hide Inv, Grows, SelectS, CommitS, ClaimFailS, HeartbeatS, ReleaseS, IsPrior, IsOldest, FreshLease, Known;
    HeldFacts(s);
    match step
    case ClaimSelect(c, key, request, prior, vm) => SelectGrows(s, c, key, request, prior, vm);
    case ClaimCommit(c, prior, l) => CommitGrows(s, c, prior, l);
    case ClaimFail(c) => ClaimFailGrows(s, c);
    case Heartbeat(l) => HeartbeatGrows(s, l);
    case Release(c, l) => ReleaseGrows(s, c, l);
  }

  lemma ProvisioningGrows(s: State, step: Step, t: State)
    requires Inv(s) && Next(s, step, t) && Routine(step) && !step.DelMark? && !step.DelFail? && !step.DelFinish?
    ensures Grows(s, t)
  {
    hide MayAdmin, DoAdmin, MayLease, DoLease, MayTick, DoTick;
    hide Inv, Grows, ProvDropS, ProvCreateS, ProvHookS, ProvFailS, ProvReadyS;
    HeldFacts(s);
    match step
    case ProvDrop(c) => ProvDropGrows(s, c);
    case ProvCreate(c, uid) =>
      if s.calls[c].vm in s.vms {
        Unnamed(s, c, s.calls[c].vm, uid);
      }
      ProvCreateGrows(s, c, uid);
    case ProvHook(c) => ProvHookGrows(s, c);
    case ProvFail(c) => ProvFailGrows(s, c);
    case ProvReady(c) => ProvReadyGrows(s, c);
  }

  lemma DeletionGrows(s: State, step: Step, t: State)
    requires Inv(s) && Next(s, step, t) && (step.DelMark? || step.DelFail? || step.DelFinish?)
    ensures Grows(s, t)
  {
    hide MayAdmin, DoAdmin, MayLease, DoLease, MayTick, DoTick;
    hide Inv, Grows, DelMarkS, DelFailS, DelFinishS;
    HeldFacts(s);
    match step
    case DelMark(c) => DelMarkGrows(s, c);
    case DelFail(c) => DelFailGrows(s, c);
    case DelFinish(c) => DelFinishGrows(s, c);
  }

  lemma RoutineGrows(s: State, step: Step, t: State)
    requires Inv(s) && Next(s, step, t) && Routine(step)
    ensures Grows(s, t)
  {
    hide Inv, Next, Grows;
    if step.DelMark? || step.DelFail? || step.DelFinish? {
      DeletionGrows(s, step, t);
    } else {
      ProvisioningGrows(s, step, t);
    }
  }

  lemma TickGrows(s: State, step: Step, t: State)
    requires Inv(s) && Next(s, step, t) && Ticking(step)
    ensures Grows(s, t)
  {
    hide MayAdmin, DoAdmin, MayLease, DoLease, MayRoutine, DoRoutine;
    hide Inv, Grows, SweepS, WarnS, TickPoolS, DueWarning;
    HeldFacts(s);
    match step
    case Sweep(l, _) => SweepGrows(s, l);
    case Warn(l, _) => WarnGrows(s, l);
    case Retry(v) => SpawnGrows(s, DeleteWanted(v, None, ""));
    case TickPool(key) => TickPoolGrows(s, key);
  }

  /** No section takes anything back. */
  lemma StepGrows(s: State, step: Step, t: State)
    requires Inv(s) && Next(s, step, t)
    ensures Grows(s, t)
  {
    hide Inv, Grows, Next;
    if Admin(step) {
      AdminGrows(s, step, t);
    } else if Leasing(step) {
      LeasingGrows(s, step, t);
    } else if Routine(step) {
      RoutineGrows(s, step, t);
    } else {
      TickGrows(s, step, t);
    }
  }
}
