/** What each section changes, field by field. */
module BatteryFields {
  import opened BatteryTypes
  import opened BatterySections

  // ----- Provisioning a batch -----

  /** `b` is `a` with new MicroVMs of the Pool on eligible Hosts, under the ids after `m` up to `n`. */
  ghost predicate MoreVms(a: map<nat, VM>, b: map<nat, VM>, m: nat, n: nat, key: PoolKey, hosts: map<string, Host>) {
    && m <= n
    && (forall v :: v in b <==> v in a || m < v <= n)
    && (forall v | v in a :: b[v] == a[v])
    && (forall v | m < v <= n ::
          b[v].pool == key && b[v].phase == Provisioning && b[v].uid == "" && b[v].lease == "" && Eligible(hosts, b[v].host))
  }

  /** `b` is `a` with one provisioning for each of those MicroVMs. */
  ghost predicate MoreCalls(a: map<CallId, Call>, b: map<CallId, Call>, m: nat, n: nat) {
    && (forall c | c in a :: c in b && b[c] == a[c])
    && (forall c | c in b && c !in a :: b[c].Placed? && m < b[c].vm <= n)
  }

  ghost predicate Numbers(s: State) {
    && (forall v | v in s.vms :: v <= s.nextVM)
    && (forall c | c in s.calls :: s.calls[c].vm <= s.nextVM && (c.Task? ==> c.n < s.nextTask))
  }

  /** The same deleted Pools with the same specs. */
  ghost predicate GoneLike(a: map<nat, Pool>, b: map<nat, Pool>) {
    a.Keys == b.Keys && forall r | r in a :: a[r].key == b[r].key && a[r].spec == b[r].spec
  }

  /** What provisioning up to `n` MicroVMs of a Pool did. */
  ghost predicate Grew(s: State, t: State, key: PoolKey, n: nat) {
    && t.nextVM <= s.nextVM + n
    && MoreVms(s.vms, t.vms, s.nextVM, t.nextVM, key, s.hosts)
    && MoreCalls(s.calls, t.calls, s.nextVM, t.nextVM)
    && PoolsLike(s.pools, t.pools)
    && GoneLike(s.gone, t.gone)
  }

  lemma PlaceGrew(s: State, key: PoolKey, rec: nat, h: string)
    requires Known(s, key, rec) && Numbers(s) && Eligible(s.hosts, h)
    ensures var t := Place(s, key, rec, h);
            Grew(s, t, key, 1) && Numbers(t) && t.hosts == s.hosts
  {
  }

  lemma GrewTrans(s: State, t: State, u: State, key: PoolKey, m: nat, n: nat)
    requires Grew(s, t, key, m) && Grew(t, u, key, n) && t.hosts == s.hosts
    ensures Grew(s, u, key, m + n)
  {
  }

  lemma GrewRefl(s: State, key: PoolKey, n: nat)
    requires Numbers(s)
    ensures Grew(s, s, key, n)
  {
  }

  lemma {:induction false} ReserveGrew(s: State, key: PoolKey, rec: nat, n: nat)
    requires Known(s, key, rec) && Numbers(s)
    ensures Grew(s, Reserve(s, key, rec, n), key, n)
    decreases n
  {
    hide Place, Grew, Eligible, Numbers;
    GrewRefl(s, key, n);
    if n > 0 {
      var h := Pick(s, Record(s, key, rec));
      if h.Some? {
        var t := Place(s, key, rec, h.value);
        PlaceGrew(s, key, rec, h.value);
        ReserveGrew(t, key, rec, n - 1);
        GrewTrans(s, t, Reserve(t, key, rec, n - 1), key, 1, n - 1);
      }
    }
  }

  lemma ProvisionGrew(s: State, key: PoolKey, rec: nat, n: nat)
    requires Known(s, key, rec) && Numbers(s)
    ensures var t := ProvisionN(s, key, rec, n);
            Grew(s, t, key, n) && Logged(s.log, t.log, "", PoolReplenishing)
  {
    hide Reserve, Emit;
    var t := Reserve(s, key, rec, n);
    ReserveGrew(s, key, rec, n);
    assert Emit(t, key, "", PoolReplenishing).vms == t.vms;
  }

  // ----- Claims -----

  lemma EarlyFields(s: State, c: CallId, key: PoolKey, request: string, prior: Option<string>, vm: Option<nat>)
    requires prior.Some? ==> prior.value in s.leases
    requires vm.Some? ==> vm.value in s.vms
    requires Early(s, key, request, prior, vm).Some?
    ensures SelectS(s, c, key, request, prior, vm) ==
            s.(calls := s.calls - {c},
               answers := s.answers[c := Claimed(key, request, Early(s, key, request, prior, vm).value)])
  {
    hide Early;
  }

  lemma TakeFields(s: State, c: CallId, key: PoolKey, request: string, prior: Option<string>, vm: Option<nat>)
    requires prior.Some? ==> prior.value in s.leases
    requires vm.Some? ==> vm.value in s.vms
    requires Early(s, key, request, prior, vm).None?
    ensures SelectS(s, c, key, request, prior, vm) ==
            s.(vms := s.vms[vm.value := SetPhase(s.vms[vm.value], PreLeaseHookRunning, s.now)],
               calls := s.calls[c := Claiming(vm.value, s.pools[key].rec, key, request)])
  {
    hide Early;
  }

  lemma GrantFields(s: State, c: CallId, l: string)
    requires c in s.calls && s.calls[c].Claiming? && s.calls[c].vm in s.vms
    requires Known(s, s.calls[c].key, s.calls[c].rec)
    ensures var t := GrantS(s, c, l);
            var call := s.calls[c];
            var vm := s.vms[call.vm];
            var lease := NewLease(vm, call, s.now, Record(s, call.key, call.rec).spec.threshold);
            && t == s.(vms := t.vms, calls := t.calls, answers := t.answers, leases := t.leases, ledger := t.ledger,
                       pools := t.pools, log := t.log)
            && t.vms == s.vms[call.vm := SetPhase(vm, Leased, s.now).(lease := l)]
            && t.calls == s.calls - {c}
            && t.answers == s.answers[c := Claimed(call.key, call.request, Granted(l, vm.uid, vm.host))]
            && t.leases == s.leases[l := lease] && t.ledger == s.ledger[l := Entry(lease, None)]
            && PoolsLike(s.pools, t.pools) && Logged(s.log, t.log, vm.uid, VmClaimed)
            && Known(t, call.key, call.rec)
  {
    hide Emit;
  }

  lemma YieldFields(s: State, c: CallId, prior: string)
    requires c in s.calls && s.calls[c].Claiming? && s.calls[c].vm in s.vms && prior in s.leases
    ensures var t := YieldS(s, c, prior);
            var call := s.calls[c];
            && t == s.(vms := t.vms, calls := t.calls, answers := t.answers)
            && t.vms == s.vms[call.vm := SetPhase(s.vms[call.vm], Available, s.now).(lease := "")]
            && t.calls == s.calls - {c}
            && exists answer :: t.answers == s.answers[c := Claimed(call.key, call.request, answer)]
  {
    var call := s.calls[c];
    var t := SetVm(s, call.vm, SetPhase(s.vms[call.vm], Available, s.now).(lease := ""));
    assert YieldS(s, c, prior).answers == s.answers[c := Claimed(call.key, call.request, Replay(t, prior, call.key))];
  }

  lemma HookPolicyFields(s: State, v: nat, policy: Policy)
    requires v in s.vms
    ensures var t := HookPolicyS(s, v, policy);
            var phase := if policy == Quarantine then Quarantined else Deleting;
            && t == s.(vms := t.vms, pools := t.pools, log := t.log, calls := t.calls, nextTask := t.nextTask)
            && t.vms == s.vms[v := SetPhase(s.vms[v].(lease := ""), phase, s.now)]
            && t.calls == (if policy == Quarantine then s.calls else s.calls[Task(s.nextTask) := DeleteWanted(v, None, "")])
            && PoolsLike(s.pools, t.pools) && Logged(s.log, t.log, s.vms[v].uid, VmHookFailed)
  {
    hide Emit;
    var vm := s.vms[v].(lease := "");
    var phase := if policy == Quarantine then Quarantined else Deleting;
    var t := Emit(SetVm(s, v, SetPhase(vm, phase, s.now)), vm.pool, vm.uid, VmHookFailed);
    assert t.calls == s.calls;
    assert Spawn(t, DeleteWanted(v, None, "")).calls == s.calls[Task(s.nextTask) := DeleteWanted(v, None, "")];
  }

  lemma ClaimFailFields(s: State, c: CallId)
    requires c in s.calls && s.calls[c].Claiming?
    ensures var t := ClaimFailS(s, c);
            var v := s.calls[c].vm;
            && t == s.(vms := t.vms, pools := t.pools, log := t.log, calls := t.calls, nextTask := t.nextTask, answers := t.answers)
            && t.answers == s.answers[c := Claimed(s.calls[c].key, s.calls[c].request, Internal)]
            && PoolsLike(s.pools, t.pools)
            && if Alive(s, v) then HookFailed(s, t, c, v) else t.vms == s.vms && t.calls == s.calls - {c} && t.log == s.log
  {
    hide HookPolicyS;
    var v := s.calls[c].vm;
    var reply := Claimed(s.calls[c].key, s.calls[c].request, Internal);
    var t := Finish(s, c, reply);
    assert t.answers == s.answers[c := reply] && t.vms == s.vms && t.calls == s.calls - {c};
    if Alive(s, v) {
      HookPolicyFields(t, v, s.pools[s.vms[v].pool].spec.policy);
    }
  }

  /** The call is over and its MicroVM quarantined, or on its way out with a deletion to come. */
  ghost predicate HookFailed(s: State, t: State, c: CallId, v: nat)
    requires v in s.vms
  {
    && v in t.vms && (t.vms[v].phase == Quarantined || t.vms[v].phase == Deleting)
    && t.vms == s.vms[v := SetPhase(s.vms[v].(lease := ""), t.vms[v].phase, s.now)]
    && t.calls == (if t.vms[v].phase == Quarantined then s.calls - {c}
                   else (s.calls - {c})[Task(s.nextTask) := DeleteWanted(v, None, "")])
    && Logged(s.log, t.log, s.vms[v].uid, VmHookFailed)
  }

  // ----- Leases -----

  lemma UnknownFields(s: State, c: CallId, l: string)
    requires l !in s.leases
    ensures var t := ReleaseS(s, c, l);
            && t == s.(calls := s.calls - {c}, answers := s.answers[c := Released(l, NotFound)])
  {
  }

  lemma ReportOnce(s: State, v: nat, key: PoolKey)
    requires v in s.vms && !s.vms[v].released
    ensures var t := ReportRelease(s, v, key);
            && t == s.(vms := s.vms[v := s.vms[v].(released := true)], pools := t.pools, log := t.log)
            && PoolsLike(s.pools, t.pools) && Logged(s.log, t.log, s.vms[v].uid, VmReleased)
  {
    hide Emit;
  }

  lemma ReportFields(s: State, v: nat, key: PoolKey)
    requires v in s.vms
    ensures var t := ReportRelease(s, v, key);
            && t == s.(vms := s.vms[v := s.vms[v].(released := true)], pools := t.pools, log := t.log)
            && PoolsLike(s.pools, t.pools) && Logged(s.log, t.log, s.vms[v].uid, VmReleased)
  {
    hide Emit;
    if s.vms[v].released {
      assert s.vms[v := s.vms[v].(released := true)] == s.vms;
      assert ReportRelease(s, v, key) == s;
    } else {
      ReportOnce(s, v, key);
    }
  }

  lemma ReleaseFields(s: State, c: CallId, l: string)
    requires l in s.leases && VmOf(s, s.leases[l].vm).Some?
    ensures var t := ReleaseS(s, c, l);
            var v := VmOf(s, s.leases[l].vm).value;
            && t == s.(vms := t.vms, pools := t.pools, log := t.log, calls := t.calls)
            && PoolsLike(s.pools, t.pools)
            && t.vms == s.vms[v := s.vms[v].(released := true)]
            && t.calls == s.calls[c := DeleteWanted(v, Some(VmDeletedOnRelease), l)]
            && Logged(s.log, t.log, s.vms[v].uid, VmReleased)
  {
    hide ReportRelease, VmOf;
    ReportFields(s, VmOf(s, s.leases[l].vm).value, s.leases[l].pool);
  }

  lemma HeartbeatFields(s: State, l: string)
    ensures var t := HeartbeatS(s, l);
            && t == s.(leases := t.leases, ledger := t.ledger)
            && if l in s.leases && s.leases[l].pool in s.pools
               then var lease := Renewed(s.leases[l], s.now, s.pools[s.leases[l].pool].spec.threshold);
                    t.leases == s.leases[l := lease] && t.ledger == s.ledger[l := Entry(lease, None)]
               else t.leases == s.leases && t.ledger == s.ledger
  {
  }

  // ----- Provisioning -----

  lemma ProvDropFields(s: State, c: CallId)
    requires c in s.calls && s.calls[c].Placed?
    ensures ProvDropS(s, c) == s.(vms := s.vms - {s.calls[c].vm}, calls := s.calls - {c})
  {
  }

  lemma ProvCreateFields(s: State, c: CallId, uid: string)
    requires c in s.calls && s.calls[c].Placed?
    ensures var t := ProvCreateS(s, c, uid);
            var v := s.calls[c].vm;
            && t == s.(vms := t.vms, byUid := t.byUid, pools := t.pools, log := t.log, calls := t.calls, uids := s.uids + {uid})
            && PoolsLike(s.pools, t.pools)
            && if Alive(s, v)
               then && t.vms == s.vms[v := s.vms[v].(uid := uid, updated := s.now)] && t.byUid == s.byUid[uid := v]
                    && t.calls == s.calls[c := Created(v)] && Logged(s.log, t.log, uid, VmProvisioned)
               else t.vms == s.vms && t.byUid == s.byUid && t.calls == s.calls - {c} && t.log == s.log
  {
    hide Emit;
    var v := s.calls[c].vm;
    assert End(s.(uids := s.uids + {uid}), c).vms == s.vms;
    if Alive(s, v) {
      assert Name(s, c, v, uid).log == s.log;
    }
  }

  lemma ProvHookFields(s: State, c: CallId)
    requires c in s.calls && s.calls[c].Created?
    ensures var t := ProvHookS(s, c);
            var v := s.calls[c].vm;
            && t == s.(vms := t.vms, calls := t.calls)
            && if Alive(s, v)
               then && t.vms == s.vms[v := SetPhase(s.vms[v], CreateHookRunning, s.now)]
                    && t.calls == s.calls[c := Hooking(v)]
               else t.vms == s.vms && t.calls == s.calls - {c}
  {
    assert End(s, c).vms == s.vms;
  }

  lemma ProvReadyFields(s: State, c: CallId)
    requires c in s.calls && s.calls[c].Hooking?
    ensures var t := ProvReadyS(s, c);
            var v := s.calls[c].vm;
            && t == s.(vms := t.vms, calls := s.calls - {c}, pools := t.pools, log := t.log)
            && PoolsLike(s.pools, t.pools)
            && if Alive(s, v)
               then t.vms == s.vms[v := SetPhase(s.vms[v], Available, s.now)] && Logged(s.log, t.log, s.vms[v].uid, VmAvailable)
               else t.vms == s.vms && t.log == s.log
  {
    hide Emit;
    assert End(s, c).vms == s.vms;
  }

  lemma ProvFailFields(s: State, c: CallId)
    requires c in s.calls && (s.calls[c].Created? || s.calls[c].Hooking?)
    ensures var t := ProvFailS(s, c);
            var v := s.calls[c].vm;
            && t == s.(vms := t.vms, pools := t.pools, log := t.log, calls := t.calls, nextTask := t.nextTask)
            && PoolsLike(s.pools, t.pools)
            && if Alive(s, v) then HookFailed(s, t, c, v) else t.vms == s.vms && t.calls == s.calls - {c} && t.log == s.log
  {
    hide HookPolicyS;
    var v := s.calls[c].vm;
    var t := End(s, c);
    assert t.vms == s.vms && t.calls == s.calls - {c};
    if Alive(s, v) {
      HookPolicyFields(t, v, s.vms[v].createPolicy);
    }
  }

  // ----- Deletion -----

  lemma DelMarkFields(s: State, c: CallId)
    requires c in s.calls && s.calls[c].DeleteWanted?
    ensures var t := DelMarkS(s, c);
            var v := s.calls[c].vm;
            && t == s.(vms := t.vms, calls := t.calls, answers := t.answers)
            && (forall d | d in t.answers && d !in s.answers :: t.answers[d].Released?)
            && if v in s.vms
               then && t.vms == s.vms[v := Doomed(s.vms[v], s.calls[c].event, s.now)]
                    && (t.calls == s.calls - {c} || t.calls == s.calls[c := DeleteOnHost(v, s.calls[c].release)])
               else t.vms == s.vms && t.calls == s.calls - {c}
  {
    hide Doomed, FinishDeletion;
    var call := s.calls[c];
    FinishDeletionFields(s, c, call.release, Done);
    if call.vm in s.vms {
      var t := SetVm(s, call.vm, Doomed(s.vms[call.vm], call.event, s.now));
      FinishDeletionFields(t, c, call.release, Unavailable);
      assert SetCall(t, c, DeleteOnHost(call.vm, call.release)).answers == s.answers;
    }
  }

  lemma FinishDeletionFields(s: State, c: CallId, release: string, answer: Answer)
    ensures var t := FinishDeletion(s, c, release, answer);
            && t == s.(calls := s.calls - {c}, answers := t.answers)
            && forall d | d in t.answers && d !in s.answers :: t.answers[d].Released?
  {
  }

  lemma DelFailFields(s: State, c: CallId)
    requires c in s.calls && s.calls[c].DeleteOnHost?
    ensures var t := DelFailS(s, c);
            var v := s.calls[c].vm;
            && t == s.(vms := t.vms, calls := s.calls - {c}, answers := t.answers)
            && (forall d | d in t.answers && d !in s.answers :: t.answers[d].Released?)
            && t.vms == (if v in s.vms then s.vms[v := s.vms[v].(inFlight := false)] else s.vms)
  {
    hide FinishDeletion;
    FinishDeletionFields(s, c, s.calls[c].release, Unavailable);
  }

  lemma RemoveFields(s: State, v: nat)
    requires v in s.vms
    ensures var t := RemoveS(s, v);
            var l := s.vms[v].lease;
            && t == s.(vms := s.vms - {v}, byUid := s.byUid - {s.vms[v].uid}, leases := s.leases - {l}, ledger := t.ledger,
                       pools := t.pools)
            && t.ledger == (if l in s.leases then s.ledger[l := Entry(s.leases[l], Some(VmGone))] else s.ledger)
            && PoolsLike(s.pools, t.pools)
  {
  }

  /** The MicroVM is forgotten with its Lease and its deletion reported; replenishment follows. */
  ghost function Buried(s: State, c: CallId): State
    requires c in s.calls && s.calls[c].DeleteOnHost? && s.calls[c].vm in s.vms
  {
    var v := s.calls[c].vm;
    EmitEnd(RemoveS(FinishDeletion(s, c, s.calls[c].release, Done), v), s.vms[v])
  }

  lemma BuriedFields(s: State, c: CallId)
    requires c in s.calls && s.calls[c].DeleteOnHost? && s.calls[c].vm in s.vms
    ensures var t := Buried(s, c);
            var v := s.calls[c].vm;
            var l := s.vms[v].lease;
            && t == s.(vms := s.vms - {v}, byUid := s.byUid - {s.vms[v].uid}, leases := s.leases - {l}, ledger := t.ledger,
                       pools := t.pools, log := t.log, calls := s.calls - {c}, answers := t.answers)
            && t.ledger == (if l in s.leases then s.ledger[l := Entry(s.leases[l], Some(VmGone))] else s.ledger)
            && PoolsLike(s.pools, t.pools) && LoggedOf(s.log, t.log, s.vms[v].uid)
            && (forall d | d in t.answers && d !in s.answers :: t.answers[d].Released?)
  {
    hide FinishDeletion, RemoveS, EmitEnd;
    var v := s.calls[c].vm;
    FinishDeletionFields(s, c, s.calls[c].release, Done);
    RemoveFields(FinishDeletion(s, c, s.calls[c].release, Done), v);
  }

  lemma DelFinishFields(s: State, c: CallId)
    requires c in s.calls && s.calls[c].DeleteOnHost?
    ensures s.calls[c].vm in s.vms ==>
              var t := Buried(s, c);
              var key := s.vms[s.calls[c].vm].pool;
              DelFinishS(s, c) == (if key in t.pools then ProvisionN(t, key, t.pools[key].rec, OnDeleted(t.pools[key].spec)) else t)
    ensures s.calls[c].vm !in s.vms ==>
              var t := DelFinishS(s, c);
              && t == s.(calls := s.calls - {c}, answers := t.answers)
              && forall d | d in t.answers && d !in s.answers :: t.answers[d].Released?
  {
    hide FinishDeletion, RemoveS, EmitEnd, ProvisionN;
    FinishDeletionFields(s, c, s.calls[c].release, Done);
  }

  // ----- The tick and Pools -----

  lemma SweepFields(s: State, l: string)
    requires l in s.leases
    ensures var t := SweepS(s, l);
            && t == s.(leases := s.leases - {l}, ledger := s.ledger[l := Entry(s.leases[l], Some(Swept))], pools := t.pools,
                       calls := t.calls, nextTask := t.nextTask)
            && PoolsLike(s.pools, t.pools)
            && var vm := VmOf(s, s.leases[l].vm);
               t.calls == (if vm.Some? && s.vms[vm.value].phase == Leased
                           then s.calls[Task(s.nextTask) := DeleteWanted(vm.value, Some(VmDeletedDueToExpiry), "")] else s.calls)
  {
    hide VmOf;
    var vm := VmOf(s, s.leases[l].vm);
    var t := DropLease(s, l, Swept);
    assert t.calls == s.calls && t.ledger == s.ledger[l := Entry(s.leases[l], Some(Swept))] && t.leases == s.leases - {l};
    if vm.Some? {
      var call := DeleteWanted(vm.value, Some(VmDeletedDueToExpiry), "");
      assert Spawn(t, call).calls == s.calls[Task(s.nextTask) := call];
    }
  }

  lemma WarnFields(s: State, l: string)
    requires l in s.leases && s.leases[l].pool in s.pools
    ensures var t := WarnS(s, l);
            && t == s.(pools := t.pools, log := t.log)
            && PoolsLike(s.pools, t.pools) && Logged(s.log, t.log, s.leases[l].vm, VmExpiringSoon)
  {
    hide Emit;
  }

  /** What the tick does to the Pool before it provisions. */
  ghost function Looked(s: State, key: PoolKey): State
    requires key in s.pools
  {
    var t := SetPool(s, key, s.pools[key].(unfilled := false));
    if Deficit(s, key) > 0 && !s.pools[key].unfilled then Emit(t, key, "", PoolSizeBelowTarget) else t
  }

  lemma TickPoolFields(s: State, key: PoolKey)
    requires key in s.pools
    ensures var t := Looked(s, key);
            && t == s.(pools := t.pools, log := t.log)
            && PoolsLike(s.pools, t.pools) && Logged(s.log, t.log, "", PoolSizeBelowTarget)
            && TickPoolS(s, key) == ProvisionN(t, key, s.pools[key].rec, Deficit(s, key))
  {
    hide Emit, Deficit, ProvisionN;
    var t := SetPool(s, key, s.pools[key].(unfilled := false));
    assert PoolsLike(s.pools, t.pools) && t.log == s.log;
    assert Emit(t, key, "", PoolSizeBelowTarget).vms == s.vms;
  }

  ghost function Uids(vms: map<nat, VM>, order: seq<nat>): set<string> {
    set v | v in order && v in vms :: vms[v].uid
  }

  /** Deletions of MicroVMs that `order` names were reported, and nothing else. */
  ghost predicate LoggedDeletions(a: seq<Event>, b: seq<Event>, vms: map<nat, VM>, order: seq<nat>) {
    && a <= b
    && forall i | |a| <= i < |b| :: b[i].typ == VmDeletedOnPoolDelete && b[i].vm in Uids(vms, order)
  }

  lemma {:induction false} EmitDeletedLog(s: State, key: PoolKey, order: seq<nat>)
    ensures LoggedDeletions(s.log, EmitDeleted(s, key, order).log, s.vms, order)
    decreases |order|
  {
    if order != [] {
      var v := order[|order| - 1];
      EmitDeletedLog(s, key, order[..|order| - 1]);
      var t := EmitDeleted(s, key, order[..|order| - 1]);
      LongerOrder(s.log, t.log, s.vms, order);
      if v in s.vms && s.vms[v].uid != "" {
        AlsoLogged(s.log, t.log, s.vms, order, v, Emit(t, key, s.vms[v].uid, VmDeletedOnPoolDelete).log);
      }
    }
  }

  lemma LongerOrder(a: seq<Event>, b: seq<Event>, vms: map<nat, VM>, order: seq<nat>)
    requires order != [] && LoggedDeletions(a, b, vms, order[..|order| - 1])
    ensures LoggedDeletions(a, b, vms, order)
  {
    assert Uids(vms, order[..|order| - 1]) <= Uids(vms, order);
  }

  lemma AlsoLogged(a: seq<Event>, b: seq<Event>, vms: map<nat, VM>, order: seq<nat>, v: nat, c: seq<Event>)
    requires LoggedDeletions(a, b, vms, order) && v in order && v in vms && Logged(b, c, vms[v].uid, VmDeletedOnPoolDelete)
    ensures LoggedDeletions(a, c, vms, order)
  {
  }

  lemma {:induction false} SpawnAllCalls(s: State, calls: seq<Call>)
    requires Numbers(s) && forall i | 0 <= i < |calls| :: calls[i].vm <= s.nextVM
    ensures var t := SpawnAll(s, calls);
            && Numbers(t)
            && (forall c | c in s.calls :: c in t.calls && t.calls[c] == s.calls[c])
            && (forall c | c in t.calls && c !in s.calls :: t.calls[c] in calls)
    decreases |calls|
  {
    if calls != [] {
      SpawnAllCalls(s, calls[..|calls| - 1]);
      assert calls == calls[..|calls| - 1] + [calls[|calls| - 1]];
    }
  }

  lemma DeletePoolFields(s: State, key: PoolKey, order: seq<nat>)
    requires key in s.pools && Numbers(s) && forall v | v in order :: v in s.vms
    ensures var t := DeletePoolS(s, key, order);
            && t == s.(pools := t.pools, gone := t.gone, vms := MarkAll(s.vms, key, s.now), leases := LeasesWithout(s.leases, key),
                       ledger := LedgerWithout(s.ledger, s.leases, key), log := t.log, calls := t.calls, nextTask := t.nextTask)
            && PoolsLike(s.pools - {key}, t.pools)
            && (var rec := s.pools[key].rec;
                && rec in t.gone && t.gone[rec].key == s.pools[key].key && t.gone[rec].spec == s.pools[key].spec
                && forall r | r in t.gone && r != rec :: r in s.gone && t.gone[r] == s.gone[r])
            && (forall c | c in s.calls :: c in t.calls && t.calls[c] == s.calls[c])
            && (forall c | c in t.calls && c !in s.calls :: t.calls[c].DeleteWanted? && t.calls[c].vm in order)
            && LoggedDeletions(s.log, t.log, s.vms, order)
  {
    hide EmitDeleted, SpawnAll, LoggedDeletions;
    var t := EmitDeleted(s, key, order);
    EmitDeletedLog(s, key, order);
    var p := t.pools[key];
    var u := t.(
      pools := t.pools - {key},
      gone := t.gone[p.rec := p.(warned := p.warned - LeasesOf(s.leases, key))],
      vms := MarkAll(s.vms, key, s.now),
      leases := LeasesWithout(s.leases, key),
      ledger := LedgerWithout(s.ledger, s.leases, key));
    assert Numbers(u);
    assert forall i | 0 <= i < |order| :: order[i] in order;
    SpawnAllCalls(u, PoolDeletions(order));
  }
}
