/** Every section keeps the invariant, so every run does; and what that means for Leases. */
module BatteryRuns {
  import opened BatteryTypes
  import opened BatterySections
  import opened BatteryInvariant
  import opened BatteryPieces

  /** What a held Lease tells us, and that a second Lease with its request id cannot exist. */
  lemma Held(s: State, l: string)
    requires Inv(s) && l in s.leases
    ensures VmOf(s, s.leases[l].vm).Some?
    ensures var v := s.byUid[s.leases[l].vm];
            && s.vms[v].uid == s.leases[l].vm && s.vms[v].lease == l && s.vms[v].pool == s.leases[l].pool
            && (s.vms[v].phase == Leased || s.vms[v].phase == Deleting)
    ensures s.leases[l].pool in s.pools
    ensures l in s.ledger && s.ledger[l].lease == s.leases[l] && s.ledger[l].cause.None?
  {
    hide PoolsOk, IdsOk, WorkersOk, PhasesOk, ClaimsOk, ReleasesOk, CallsOk, RequestsOk, OnceOk, HostsOk, AnswersOk, SweptOk, LogOk;
  }

  /** No held Lease is on the MicroVM. */
  ghost predicate Unleased(s: State, v: nat)
    requires v in s.vms
  {
    forall l | l in s.leases :: s.leases[l].vm != s.vms[v].uid
  }

  lemma NeverHeld(s: State, v: nat)
    requires v in s.vms && !EverLeased(s.ledger, s.vms[v].uid) && LedgerOk(s.ledger, s.leases, s.uids)
    ensures Unleased(s, v)
  {
    forall l | l in s.leases ensures s.leases[l].vm != s.vms[v].uid {
      assert s.ledger[l].lease == s.leases[l];
    }
  }

  /** What a claim in flight, or a provisioning, knows of its MicroVM. */
  lemma Worked(s: State, c: CallId)
    requires Inv(s) && c in s.calls && Working(s.calls[c]) && s.calls[c].vm in s.vms
    ensures WorkerOk(s.calls[c], s.vms[s.calls[c].vm], s.ledger)
    ensures Unleased(s, s.calls[c].vm)
    ensures forall d | d in s.calls && d != c && Working(s.calls[d]) :: s.calls[d].vm != s.calls[c].vm
  {
    hide PoolsOk, IdsOk, UidsOk, LeasesOk, LedgerOk, PhasesOk, ClaimsOk, ReleasesOk, CallsOk, RequestsOk, OnceOk, HostsOk, AnswersOk, SweptOk, LogOk;
    NeverHeld(s, s.calls[c].vm);
  }

  lemma ReplayFits(s: State, c: CallId, l: string, key: PoolKey, request: string)
    requires Inv(s) && l in s.leases && s.leases[l].request == request
    ensures AnswersOk(map[c := Claimed(key, request, Replay(s, l, key))], s.ledger, s.leases)
  {
    hide Inv;
    Held(s, l);
    assert forall d | d in map[c := Claimed(key, request, Replay(s, l, key))] :: d == c;
  }

  // ----- Claims -----

  lemma SelectInv(s: State, c: CallId, key: PoolKey, request: string, prior: Option<string>, vm: Option<nat>)
    requires Inv(s) && MaySelect(s, c, key, request, prior, vm)
    ensures Inv(SelectS(s, c, key, request, prior, vm))
  {
    hide Inv, Finish, Replay;
    var early := Early(s, key, request, prior, vm);
    if early.Some? {
      if prior.Some? {
        ReplayFits(s, c, prior.value, key, request);
      }
      FinishInv(s, c, Claimed(key, request, early.value));
    } else {
      TakeInv(s, c, key, request, vm.value);
    }
  }

  /** Nobody works on an available MicroVM, and it was never leased. */
  lemma Idle(s: State, v: nat)
    requires Inv(s) && v in s.vms && s.vms[v].phase == Available
    ensures s.vms[v].uid != "" && s.vms[v].lease == "" && !EverLeased(s.ledger, s.vms[v].uid)
    ensures Unleased(s, v)
    ensures forall c | c in s.calls && Working(s.calls[c]) :: s.calls[c].vm != v
  {
    hide PoolsOk, IdsOk, UidsOk, LedgerOk, WorkersOk, ClaimsOk, ReleasesOk, CallsOk, RequestsOk, OnceOk, HostsOk, AnswersOk, SweptOk, LogOk;
    assert PhaseOk(v, s.vms[v], s.calls, s.ledger);
    NeverHeld(s, v);
  }

  lemma TakeInv(s: State, c: CallId, key: PoolKey, request: string, v: nat)
    requires Inv(s) && NewRpc(s, c) && IsAvailable(s.vms, key, v) && key in s.pools
    ensures Inv(SetCall(SetVm(s, v, SetPhase(s.vms[v], PreLeaseHookRunning, s.now)),
                        c, Claiming(v, s.pools[key].rec, key, request)))
  {
    hide Inv, EverLeased;
    Idle(s, v);
    var vm := SetPhase(s.vms[v], PreLeaseHookRunning, s.now);
    SetVmInv(s, v, vm);
    SetWorkerInv(SetVm(s, v, vm), c, Claiming(v, s.pools[key].rec, key, request));
  }

  lemma PutBackInv(s: State, c: CallId)
    requires Inv(s) && c in s.calls && s.calls[c].Claiming? && s.calls[c].vm in s.vms
    ensures var v := s.calls[c].vm;
            Inv(SetVm(End(s, c), v, SetPhase(s.vms[v], Available, s.now).(lease := "")))
  {
    hide Inv, EverLeased;
    var v := s.calls[c].vm;
    Worked(s, c);
    EndInv(s, c);
    SetVmInv(End(s, c), v, SetPhase(s.vms[v], Available, s.now).(lease := ""));
  }

  lemma YieldInv(s: State, c: CallId, prior: string)
    requires Inv(s) && c in s.calls && s.calls[c].Claiming? && s.calls[c].vm in s.vms
    requires prior in s.leases && s.leases[prior].request == s.calls[c].request
    ensures Inv(YieldS(s, c, prior))
  {
    hide Inv;
    var call := s.calls[c];
    PutBackInv(s, c);
    var u := SetVm(End(s, c), call.vm, SetPhase(s.vms[call.vm], Available, s.now).(lease := ""));
    ReplayFits(u, c, prior, call.key, call.request);
    CallFacts(s, c);
    TellInv(u, c, Claimed(call.key, call.request, Replay(u, prior, call.key)));
  }

  lemma GrantedInv(s: State, c: CallId, l: string)
    requires Inv(s) && c in s.calls && s.calls[c].Claiming? && Alive(s, s.calls[c].vm)
    requires Known(s, s.calls[c].key, s.calls[c].rec)
    requires IsPrior(s.leases, s.calls[c].request, None) && FreshLease(s, l)
    ensures Inv(GrantS(s, c, l))
  {
    hide Inv, EverLeased;
    Worked(s, c);
    var call := s.calls[c];
    var vm := s.vms[call.vm];
    var lease := NewLease(vm, call, s.now, Record(s, call.key, call.rec).spec.threshold);
    EndInv(s, c);
    GrantInv(End(s, c), call.vm, l, lease);
    var t := Grant(End(s, c), call.vm, l, lease);
    var reply := Claimed(call.key, call.request, Granted(l, vm.uid, vm.host));
    assert AnswersOk(map[c := reply], t.ledger, t.leases);
    CallFacts(s, c);
    TellInv(t, c, reply);
    EmitInv(Tell(t, c, reply), call.key, vm.uid, VmClaimed);
  }

  lemma CommitInv(s: State, c: CallId, prior: Option<string>, l: string)
    requires Inv(s) && MayCommit(s, c, prior, l)
    ensures Inv(CommitS(s, c, prior, l))
  {
    hide Inv;
    CallFacts(s, c);
    var call := s.calls[c];
    if !Alive(s, call.vm) {
      FinishInv(s, c, Claimed(call.key, call.request, NotFound));
    } else if prior.Some? {
      YieldInv(s, c, prior.value);
    } else {
      GrantedInv(s, c, l);
      ProvisionInv(GrantS(s, c, l), call.key, call.rec, OnClaimed(Record(s, call.key, call.rec).spec));
    }
  }

  /** A MicroVM nobody works on any more, and that holds no Lease, may go to quarantine or be deleted. */
  lemma RetireInv(s: State, v: nat, phase: Phase)
    requires Inv(s) && v in s.vms && Unleased(s, v) && (phase == Quarantined || phase == Deleting)
    requires forall c | c in s.calls && Working(s.calls[c]) :: s.calls[c].vm != v
    ensures Inv(SetVm(s, v, SetPhase(s.vms[v].(lease := ""), phase, s.now)))
  {
    hide Inv, EverLeased;
    SetVmInv(s, v, SetPhase(s.vms[v].(lease := ""), phase, s.now));
  }

  lemma HookPolicyInv(s: State, v: nat, policy: Policy)
    requires Inv(s) && v in s.vms && Unleased(s, v)
    requires forall c | c in s.calls && Working(s.calls[c]) :: s.calls[c].vm != v
    ensures Inv(HookPolicyS(s, v, policy))
  {
    hide Inv;
    var vm := s.vms[v].(lease := "");
    var phase := if policy == Quarantine then Quarantined else Deleting;
    RetireInv(s, v, phase);
    var t := SetVm(s, v, SetPhase(vm, phase, s.now));
    EmitInv(t, vm.pool, vm.uid, VmHookFailed);
    Numbered(s, v);
    if policy != Quarantine {
      SpawnInv(Emit(t, vm.pool, vm.uid, VmHookFailed), DeleteWanted(v, None, ""));
    }
  }

  lemma ClaimFailInv(s: State, c: CallId)
    requires Inv(s) && c in s.calls && s.calls[c].Claiming?
    ensures Inv(ClaimFailS(s, c))
  {
    hide Inv, EverLeased;
    var v := s.calls[c].vm;
    if v in s.vms {
      Worked(s, c);
    }
    var reply := Claimed(s.calls[c].key, s.calls[c].request, Internal);
    CallFacts(s, c);
    FinishInv(s, c, reply);
    if Alive(s, v) {
      HookPolicyInv(Finish(s, c, reply), v, s.pools[s.vms[v].pool].spec.policy);
    }
  }

  // ----- Leases -----

  lemma HeartbeatInv(s: State, l: string)
    requires Inv(s)
    ensures Inv(HeartbeatS(s, l))
  {
    hide Inv;
    if l in s.leases && s.leases[l].pool in s.pools {
      RenewInv(s, l, Renewed(s.leases[l], s.now, s.pools[s.leases[l].pool].spec.threshold));
    }
  }

  lemma ReleaseInv(s: State, c: CallId, l: string)
    requires Inv(s) && NewRpc(s, c)
    ensures Inv(ReleaseS(s, c, l))
  {
    hide Inv;
    if l !in s.leases {
      FinishInv(s, c, Released(l, NotFound));
    } else {
      Held(s, l);
      var v := s.byUid[s.leases[l].vm];
      MarkReleasedInv(s, l, v);
      Numbered(s, v);
      var t := if s.vms[v].released then s
               else Emit(SetVm(s, v, s.vms[v].(released := true)), s.leases[l].pool, s.vms[v].uid, VmReleased);
      SetDeletionInv(t, c, DeleteWanted(v, Some(VmDeletedOnRelease), l));
    }
  }

  lemma MarkReleasedInv(s: State, l: string, v: nat)
    requires Inv(s) && v in s.vms
    ensures Inv(Emit(SetVm(s, v, s.vms[v].(released := true)), s.leases[l].pool, s.vms[v].uid, VmReleased))
    requires l in s.leases
  {
    hide Inv;
    SameStanding(s, v, s.vms[v].(released := true));
    EmitInv(SetVm(s, v, s.vms[v].(released := true)), s.leases[l].pool, s.vms[v].uid, VmReleased);
  }

  /** A change that leaves a MicroVM's phase and Lease alone, or marks it for deletion. */
  predicate Standing(vm: VM, now: VM) {
    && now == vm.(phase := now.phase, released := now.released, inFlight := now.inFlight,
                  updated := now.updated, deleteEvent := now.deleteEvent)
    && (now.phase == vm.phase || now.phase == Deleting)
  }

  lemma StandingFits(s: State, v: nat, vm: VM)
    requires Inv(s) && v in s.vms && Standing(s.vms[v], vm)
    ensures VmFits(s, v, vm)
  {
    hide PoolsOk, IdsOk, LedgerOk, CallsOk, RequestsOk, OnceOk, HostsOk, AnswersOk, SweptOk, LogOk, ClaimsOk, ReleasesOk, EverLeased;
    assert PhaseOk(v, s.vms[v], s.calls, s.ledger);
    forall l | l in s.leases && s.leases[l].vm == vm.uid
      ensures vm.lease == l && (vm.phase == Leased || vm.phase == Deleting)
    {
      assert Backed(l, s.leases[l], s.vms, s.byUid);
    }
    forall c | c in s.calls && Working(s.calls[c]) && s.calls[c].vm == v
      ensures WorkerOk(s.calls[c], vm, s.ledger)
    {
      assert WorkerOk(s.calls[c], s.vms[v], s.ledger);
    }
  }

  lemma SameStanding(s: State, v: nat, vm: VM)
    requires Inv(s) && v in s.vms && Standing(s.vms[v], vm)
    ensures Inv(SetVm(s, v, vm))
  {
    hide Inv, VmFits;
    StandingFits(s, v, vm);
    SetVmInv(s, v, vm);
  }

  lemma Numbered(s: State, v: nat)
    requires Inv(s) && v in s.vms
    ensures v <= s.nextVM
  {
  }

  // ----- Provisioning -----

  lemma ProvDropInv(s: State, c: CallId)
    requires Inv(s) && c in s.calls && s.calls[c].Placed?
    ensures Inv(ProvDropS(s, c))
  {
    hide Inv, EverLeased;
    var v := s.calls[c].vm;
    EndInv(s, c);
    if v in s.vms {
      Worked(s, c);
      NoEmptyKeys(s);
      ForgetInv(End(s, c), v);
      assert s.byUid - {""} == s.byUid;
    } else {
      assert s.vms - {v} == s.vms;
    }
  }

  lemma NoEmptyKeys(s: State)
    requires Inv(s)
    ensures "" !in s.byUid && "" !in s.leases && "" !in s.ledger
  {
    hide PoolsOk, IdsOk, WorkersOk, PhasesOk, ClaimsOk, ReleasesOk, CallsOk, RequestsOk, OnceOk, HostsOk, AnswersOk, SweptOk, LogOk;
  }

  lemma ProvCreateInv(s: State, c: CallId, uid: string)
    requires Inv(s) && c in s.calls && s.calls[c].Placed? && uid != "" && uid !in s.uids
    ensures Inv(ProvCreateS(s, c, uid))
  {
    hide Inv;
    var v := s.calls[c].vm;
    if Alive(s, v) {
      NameInv(s, c, v, uid);
      EmitInv(Name(s, c, v, uid), s.vms[v].pool, uid, VmProvisioned);
    } else {
      UidInv(s, uid);
      EndInv(s.(uids := s.uids + {uid}), c);
    }
  }

  lemma ProvHookInv(s: State, c: CallId)
    requires Inv(s) && c in s.calls && s.calls[c].Created?
    ensures Inv(ProvHookS(s, c))
  {
    hide Inv;
    var v := s.calls[c].vm;
    if Alive(s, v) {
      HookRunningInv(s, c);
    } else {
      EndInv(s, c);
    }
  }

  lemma HookRunningInv(s: State, c: CallId)
    requires Inv(s) && c in s.calls && s.calls[c].Created? && s.calls[c].vm in s.vms
    ensures var v := s.calls[c].vm;
            Inv(SetCall(SetVm(s, v, SetPhase(s.vms[v], CreateHookRunning, s.now)), c, Hooking(v)))
  {
    hide Inv, EverLeased;
    var v := s.calls[c].vm;
    Worked(s, c);
    SetVmInv(s, v, SetPhase(s.vms[v], CreateHookRunning, s.now));
    CallFacts(s, c);
    SetWorkerInv(SetVm(s, v, SetPhase(s.vms[v], CreateHookRunning, s.now)), c, Hooking(v));
  }

  lemma CallFacts(s: State, c: CallId)
    requires Inv(s) && c in s.calls
    ensures c !in s.answers && (c.Task? ==> c.n < s.nextTask) && (s.calls[c].Claiming? ==> c.Rpc?)
  {
    hide PoolsOk, UidsOk, LeasesOk, LedgerOk, WorkersOk, PhasesOk, ClaimsOk, ReleasesOk, RequestsOk, OnceOk, HostsOk, AnswersOk, SweptOk, LogOk;
  }

  lemma ProvFailInv(s: State, c: CallId)
    requires Inv(s) && c in s.calls && (s.calls[c].Created? || s.calls[c].Hooking?)
    ensures Inv(ProvFailS(s, c))
  {
    hide Inv, EverLeased;
    var v := s.calls[c].vm;
    EndInv(s, c);
    if Alive(s, v) {
      Worked(s, c);
      HookPolicyInv(End(s, c), v, s.vms[v].createPolicy);
    }
  }

  lemma MadeAvailableInv(s: State, c: CallId)
    requires Inv(s) && c in s.calls && s.calls[c].Hooking? && s.calls[c].vm in s.vms
    ensures Inv(SetVm(End(s, c), s.calls[c].vm, SetPhase(s.vms[s.calls[c].vm], Available, s.now)))
  {
    hide Inv, EverLeased;
    var v := s.calls[c].vm;
    Worked(s, c);
    EndInv(s, c);
    SetVmInv(End(s, c), v, SetPhase(s.vms[v], Available, s.now));
  }

  lemma ProvReadyInv(s: State, c: CallId)
    requires Inv(s) && c in s.calls && s.calls[c].Hooking?
    ensures Inv(ProvReadyS(s, c))
  {
    hide Inv;
    var v := s.calls[c].vm;
    if Alive(s, v) {
      MadeAvailableInv(s, c);
      EmitInv(SetVm(End(s, c), v, SetPhase(s.vms[v], Available, s.now)), s.vms[v].pool, s.vms[v].uid, VmAvailable);
    } else {
      EndInv(s, c);
    }
  }

  // ----- Deletion -----

  lemma FinishDeletionInv(s: State, c: CallId, release: string, answer: Answer)
    requires Inv(s) && (c.Rpc? && (answer == Done || answer == NotFound) ==> release !in s.leases)
    ensures Inv(FinishDeletion(s, c, release, answer))
  {
    hide Inv;
    if c.Rpc? {
      FinishInv(s, c, Released(release, answer));
    } else {
      EndInv(s, c);
    }
  }

  /** A ReleaseVM whose MicroVM is no longer tracked, or points to no Lease, has nothing left to release. */
  lemma ReleaseOver(s: State, c: CallId)
    requires Inv(s) && c in s.calls && (s.calls[c].DeleteWanted? || s.calls[c].DeleteOnHost?)
    ensures s.calls[c].release in s.leases ==>
              s.calls[c].vm in s.vms && s.vms[s.calls[c].vm].lease == s.calls[c].release
    ensures ReleaseOk(s.calls[c], s.ledger, s.byUid)
  {
    hide PoolsOk, IdsOk, WorkersOk, PhasesOk, ClaimsOk, CallsOk, RequestsOk, OnceOk, HostsOk, AnswersOk, SweptOk, LogOk;
    assert ReleaseOk(s.calls[c], s.ledger, s.byUid);
  }

  lemma DelMarkInv(s: State, c: CallId)
    requires Inv(s) && c in s.calls && s.calls[c].DeleteWanted?
    ensures Inv(DelMarkS(s, c))
  {
    hide Inv, ReleaseOk, FinishDeletion, SetVm, SetCall, Doomed;
    var call := s.calls[c];
    var v := call.vm;
    ReleaseOver(s, c);
    if v !in s.vms {
      FinishDeletionInv(s, c, call.release, Done);
    } else {
      var vm := Doomed(s.vms[v], call.event, s.now);
      SameStanding(s, v, vm);
      if s.vms[v].inFlight {
        FinishDeletionInv(SetVm(s, v, vm), c, call.release, Unavailable);
      } else {
        SetVmCalls(s, v, vm);
        OnHostInv(SetVm(s, v, vm), c);
      }
    }
  }

  lemma SetVmCalls(s: State, v: nat, vm: VM)
    ensures SetVm(s, v, vm).calls == s.calls && v in SetVm(s, v, vm).vms
  {
  }

  lemma OnHostInv(s: State, c: CallId)
    requires Inv(s) && c in s.calls && s.calls[c].DeleteWanted? && s.calls[c].vm in s.vms
    ensures Inv(SetCall(s, c, DeleteOnHost(s.calls[c].vm, s.calls[c].release)))
  {
    hide Inv;
    CallFacts(s, c);
    ReleaseOver(s, c);
    Numbered(s, s.calls[c].vm);
    SetDeletionInv(s, c, DeleteOnHost(s.calls[c].vm, s.calls[c].release));
  }

  lemma DelFailInv(s: State, c: CallId)
    requires Inv(s) && c in s.calls && s.calls[c].DeleteOnHost?
    ensures Inv(DelFailS(s, c))
  {
    hide Inv;
    var v := s.calls[c].vm;
    FinishDeletionInv(s, c, s.calls[c].release, Unavailable);
    if v in s.vms {
      SameStanding(FinishDeletion(s, c, s.calls[c].release, Unavailable), v, s.vms[v].(inFlight := false));
    }
  }

  lemma RemoveInv(s: State, v: nat)
    requires Inv(s) && v in s.vms
    ensures Inv(RemoveS(s, v)) && s.vms[v].lease !in RemoveS(s, v).leases
  {
    hide Inv;
    DropInv(s, s.vms[v].lease, VmGone);
    ForgetInv(DropLease(s, s.vms[v].lease, VmGone), v);
  }

  /** The MicroVM is removed before the ReleaseVM that waits for it is answered. */
  lemma RemoveFirst(s: State, c: CallId, v: nat, release: string)
    requires v in s.vms
    ensures RemoveS(FinishDeletion(s, c, release, Done), v) == FinishDeletion(RemoveS(s, v), c, release, Done)
  {
  }

  lemma DelFinishInv(s: State, c: CallId)
    requires Inv(s) && c in s.calls && s.calls[c].DeleteOnHost?
    ensures Inv(DelFinishS(s, c))
  {
    hide Inv, RemoveS, FinishDeletion, ProvisionN, EmitEnd;
    var call := s.calls[c];
    var v := call.vm;
    ReleaseOver(s, c);
    if v !in s.vms {
      FinishDeletionInv(s, c, call.release, Done);
    } else {
      var vm := s.vms[v];
      RemoveInv(s, v);
      RemoveFirst(s, c, v, call.release);
      ReleasedBy(s, v, call.release);
      FinishDeletionInv(RemoveS(s, v), c, call.release, Done);
      var t := FinishDeletion(s, c, call.release, Done);
      KeepsVms(s, c, call.release);
      EndEventInv(RemoveS(t, v), vm);
      var w := EmitEnd(RemoveS(t, v), vm);
      if vm.pool in w.pools {
        ProvisionInv(w, vm.pool, w.pools[vm.pool].rec, OnDeleted(w.pools[vm.pool].spec));
      }
    }
  }

  lemma KeepsVms(s: State, c: CallId, release: string)
    ensures FinishDeletion(s, c, release, Done).vms == s.vms
  {
  }

  lemma ReleasedBy(s: State, v: nat, l: string)
    requires v in s.vms && (l in s.leases ==> s.vms[v].lease == l)
    ensures l !in RemoveS(s, v).leases
  {
  }

  lemma EndEventInv(s: State, vm: VM)
    requires Inv(s)
    ensures Inv(EmitEnd(s, vm))
  {
    hide Inv;
    if vm.deleteEvent.Some? {
      EmitInv(s, vm.pool, vm.uid, vm.deleteEvent.value);
    }
  }

  // ----- The tick -----

  lemma SweepInv(s: State, l: string)
    requires Inv(s) && l in s.leases && s.leases[l].expiresAt <= s.now
    ensures Inv(SweepS(s, l))
  {
    hide Inv;
    var vm := VmOf(s, s.leases[l].vm);
    DropInv(s, l, Swept);
    if vm.Some? {
      Numbered(s, vm.value);
      SpawnInv(DropLease(s, l, Swept), DeleteWanted(vm.value, Some(VmDeletedDueToExpiry), ""));
    }
  }

  lemma WarnInv(s: State, l: string)
    requires Inv(s) && l in s.leases && s.leases[l].pool in s.pools
    ensures Inv(WarnS(s, l))
  {
    hide Inv;
    var lease := s.leases[l];
    var p := s.pools[lease.pool];
    var q := p.(warned := p.warned[l := lease.expiresAt]);
    SetPoolInv(s, lease.pool, q);
    EmitInv(SetPool(s, lease.pool, q), lease.pool, lease.vm, VmExpiringSoon);
  }

  lemma RetryInv(s: State, v: nat)
    requires Inv(s) && v in s.vms
    ensures Inv(Spawn(s, DeleteWanted(v, None, "")))
  {
    hide Inv;
    Numbered(s, v);
    SpawnInv(s, DeleteWanted(v, None, ""));
  }

  lemma TickPoolInv(s: State, key: PoolKey)
    requires Inv(s) && key in s.pools
    ensures Inv(TickPoolS(s, key))
  {
    hide Inv, ProvisionN;
    var n := Deficit(s, key);
    var t := SetPool(s, key, s.pools[key].(unfilled := false));
    SetPoolInv(s, key, s.pools[key].(unfilled := false));
    EmitInv(t, key, "", PoolSizeBelowTarget);
    var u := if n > 0 && !s.pools[key].unfilled then Emit(t, key, "", PoolSizeBelowTarget) else t;
    ProvisionInv(u, key, u.pools[key].rec, n);
  }

  // ----- Deleting a Pool -----

  lemma {:induction false} EmitDeletedInv(s: State, key: PoolKey, order: seq<nat>)
    requires Inv(s) && key in s.pools
    ensures Inv(EmitDeleted(s, key, order))
    ensures var t := EmitDeleted(s, key, order);
            && key in t.pools
            && t == s.(pools := t.pools, log := t.log)
    decreases |order|
  {
    hide Inv;
    if order != [] {
      EmitDeletedInv(s, key, order[..|order| - 1]);
      var v := order[|order| - 1];
      if v in s.vms {
        EmitInv(EmitDeleted(s, key, order[..|order| - 1]), key, s.vms[v].uid, VmDeletedOnPoolDelete);
      }
    }
  }

  lemma {:induction false} SpawnAllInv(s: State, calls: seq<Call>)
    requires Inv(s)
    requires forall i | 0 <= i < |calls| :: calls[i].DeleteWanted? && calls[i].vm <= s.nextVM && calls[i].release == ""
    ensures Inv(SpawnAll(s, calls)) && SpawnAll(s, calls).nextVM == s.nextVM
    decreases |calls|
  {
    hide Inv;
    if calls != [] {
      SpawnAllInv(s, calls[..|calls| - 1]);
      SpawnInv(SpawnAll(s, calls[..|calls| - 1]), calls[|calls| - 1]);
    }
  }

  lemma DeletePoolInv(s: State, key: PoolKey, order: seq<nat>)
    requires Inv(s) && key in s.pools && InOrder(order, PoolVMs(s.vms, key))
    ensures Inv(DeletePoolS(s, key, order))
  {
    hide Inv, EmitDeleted, SpawnAll;
    EmitDeletedInv(s, key, order);
    var t := EmitDeleted(s, key, order);
    DeletedInv(t, key);
    forall i | 0 <= i < |order| ensures order[i] <= s.nextVM {
      assert order[i] in order;
      assert order[i] in PoolVMs(s.vms, key);
      Numbered(s, order[i]);
    }
    SpawnAllInv(Deleted(t, key), PoolDeletions(order));
  }
}
