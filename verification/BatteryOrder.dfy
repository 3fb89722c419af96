/**
 * When no Pool is created while MicroVMs of its key are still tracked, phases only move forward,
 * and every call in flight finds its MicroVM where it left it or on its way out.
 */
module BatteryOrder {
  import opened BatteryTypes
  import opened BatterySections
  import opened BatteryInvariant
  import opened BatteryRuns
  import opened BatteryTheorems
  import opened BatteryFields
  import opened BatteryShape

  /** The moves between phases while the Pool exists; DELETING is final. */
  predicate Legal(a: Phase, b: Phase) {
    || a == b
    || match a
       case Provisioning => b in {CreateHookRunning, Quarantined, Deleting}
       case CreateHookRunning => b in {Available, Quarantined, Deleting}
       case Available => b == PreLeaseHookRunning
       case PreLeaseHookRunning => b in {Available, Leased, Quarantined, Deleting}
       case Leased => b == Deleting
       case Quarantined => false
       case Deleting => false
  }

  /** Where a call in flight finds its MicroVM, if the Pool exists. */
  predicate CallFits(call: Call, vm: VM, pools: map<PoolKey, Pool>) {
    vm.pool in pools ==>
      match call
      case Claiming(_, rec, _, _) => vm.phase == PreLeaseHookRunning && pools[vm.pool].rec == rec
      case Placed(_) => vm.phase == Provisioning
      case Created(_) => vm.phase == Provisioning
      case Hooking(_) => vm.phase == CreateHookRunning
      case DeleteWanted(_, _, _) => vm.phase in {Leased, Deleting}
      case DeleteOnHost(_, _) => vm.phase == Deleting
  }

  ghost predicate Tidy(vms: map<nat, VM>, calls: map<CallId, Call>, pools: map<PoolKey, Pool>) {
    && (forall v | v in vms :: vms[v].pool in pools || vms[v].phase == Deleting)
    && (forall c | c in calls && calls[c].vm in vms :: CallFits(calls[c], vms[calls[c].vm], pools))
  }

  /** Every MicroVM that stays made a legal move, or its Pool is gone and it is on its way out. */
  ghost predicate Moves(a: map<nat, VM>, b: map<nat, VM>, pools: map<PoolKey, Pool>) {
    forall v | v in a && v in b ::
      && b[v].pool == a[v].pool
      && (Legal(a[v].phase, b[v].phase) || (b[v].phase == Deleting && b[v].pool !in pools))
  }

  ghost predicate RecsLike(a: map<PoolKey, Pool>, b: map<PoolKey, Pool>) {
    a.Keys == b.Keys && forall k | k in a :: a[k].rec == b[k].rec
  }

  ghost predicate Tidied(s: State, t: State) {
    Tidy(t.vms, t.calls, t.pools) && Moves(s.vms, t.vms, t.pools)
  }

  // ----- Shapes -----

  /** One MicroVM changes, and every call left on it fits. */
  lemma EditOrder(s: State, t: State, v: nat, vm: VM)
    requires Tidy(s.vms, s.calls, s.pools) && v in s.vms && RecsLike(s.pools, t.pools) && t.vms == s.vms[v := vm]
    requires vm.pool == s.vms[v].pool && Legal(s.vms[v].phase, vm.phase)
    requires forall d | d in t.calls ::
               if t.calls[d].vm == v then CallFits(t.calls[d], vm, s.pools) else d in s.calls && t.calls[d] == s.calls[d]
    ensures Tidied(s, t)
  {
  }

  /** Only calls change, and the new ones fit. */
  lemma CallsOrder(s: State, t: State)
    requires Tidy(s.vms, s.calls, s.pools) && RecsLike(s.pools, t.pools) && t.vms == s.vms
    requires forall d | d in t.calls && t.calls[d].vm in s.vms ::
               (d in s.calls && t.calls[d] == s.calls[d]) || CallFits(t.calls[d], s.vms[t.calls[d].vm], s.pools)
    ensures Tidied(s, t)
  {
  }

  /** One MicroVM is forgotten. */
  lemma RemoveOrder(s: State, t: State, v: nat)
    requires Tidy(s.vms, s.calls, s.pools) && RecsLike(s.pools, t.pools) && t.vms == s.vms - {v}
    requires forall d | d in t.calls :: d in s.calls && t.calls[d] == s.calls[d]
    ensures Tidied(s, t)
  {
  }

  /** New MicroVMs of a Pool that exists are provisioned. */
  lemma GrewOrder(s: State, t: State, u: State, key: PoolKey, n: nat)
    requires Tidied(s, t) && Grew(t, u, key, n) && (t.nextVM < u.nextVM ==> key in t.pools)
    requires t.vms.Keys <= s.vms.Keys && Numbers(s) && Numbers(t) && s.nextVM == t.nextVM
    ensures Tidied(s, u)
  {
  }

  /** Nobody else has a call on the MicroVM of a claim or a provisioning whose Pool exists. */
  lemma Alone(s: State, c: CallId)
    requires Inv(s) && Tidy(s.vms, s.calls, s.pools) && c in s.calls && Working(s.calls[c]) && Alive(s, s.calls[c].vm)
    ensures forall d | d in s.calls && d != c :: s.calls[d].vm != s.calls[c].vm
    ensures CallFits(s.calls[c], s.vms[s.calls[c].vm], s.pools)
  {
    hide Inv;
    Worked(s, c);
  }

  // ----- Steps -----

  lemma TakeOrder(s: State, c: CallId, key: PoolKey, request: string, prior: Option<string>, vm: Option<nat>)
    requires Inv(s) && Tidy(s.vms, s.calls, s.pools)
    requires prior.Some? ==> prior.value in s.leases
    requires vm.Some? ==> vm.value in s.vms && s.vms[vm.value].phase == Available && s.vms[vm.value].pool == key
    requires Early(s, key, request, prior, vm).None?
    ensures Tidied(s, SelectS(s, c, key, request, prior, vm))
  {
    hide Inv, SelectS, Early, Tidy, Tidied;
    TakeFields(s, c, key, request, prior, vm);
    Idle(s, vm.value);
    NoDeletion(s, vm.value);
    EditOrder(s, SelectS(s, c, key, request, prior, vm), vm.value, SetPhase(s.vms[vm.value], PreLeaseHookRunning, s.now));
  }

  lemma NoDeletion(s: State, v: nat)
    requires Tidy(s.vms, s.calls, s.pools) && v in s.vms && s.vms[v].phase == Available
    ensures s.vms[v].pool in s.pools
    ensures forall d | d in s.calls && !Working(s.calls[d]) :: s.calls[d].vm != v
  {
  }

  lemma SelectOrder(s: State, c: CallId, key: PoolKey, request: string, prior: Option<string>, vm: Option<nat>)
    requires Inv(s) && Tidy(s.vms, s.calls, s.pools) && MaySelect(s, c, key, request, prior, vm)
    ensures Tidied(s, SelectS(s, c, key, request, prior, vm))
  {
    hide Inv, SelectS, Early, Tidied;
    if Early(s, key, request, prior, vm).Some? {
      EarlyFields(s, c, key, request, prior, vm);
      CallsOrder(s, SelectS(s, c, key, request, prior, vm));
    } else {
      TakeOrder(s, c, key, request, prior, vm);
    }
  }

  lemma GrantOrder(s: State, c: CallId, l: string)
    requires Inv(s) && Tidy(s.vms, s.calls, s.pools) && c in s.calls && s.calls[c].Claiming? && Alive(s, s.calls[c].vm)
    requires Known(s, s.calls[c].key, s.calls[c].rec)
    ensures Tidied(s, GrantS(s, c, l))
  {
    hide Inv, GrantS, Tidy, Tidied, Known;
    GrantFields(s, c, l);
    Alone(s, c);
    var vm := s.vms[s.calls[c].vm];
    EditOrder(s, GrantS(s, c, l), s.calls[c].vm, SetPhase(vm, Leased, s.now).(lease := l));
  }

  lemma YieldOrder(s: State, c: CallId, prior: string)
    requires Inv(s) && Tidy(s.vms, s.calls, s.pools) && c in s.calls && s.calls[c].Claiming? && Alive(s, s.calls[c].vm)
    requires prior in s.leases
    ensures Tidied(s, YieldS(s, c, prior))
  {
    hide Inv, YieldS, Tidy, Tidied;
    YieldFields(s, c, prior);
    Alone(s, c);
    var vm := s.vms[s.calls[c].vm];
    EditOrder(s, YieldS(s, c, prior), s.calls[c].vm, SetPhase(vm, Available, s.now).(lease := ""));
  }

  lemma HookFailedOrder(s: State, t: State, c: CallId, v: nat)
    requires Inv(s) && Tidy(s.vms, s.calls, s.pools) && c in s.calls && Working(s.calls[c]) && v == s.calls[c].vm && Alive(s, v)
    requires HookFailed(s, t, c, v) && PoolsLike(s.pools, t.pools)
    ensures Tidied(s, t)
  {
    hide Inv, Tidy, Tidied;
    Alone(s, c);
    EditOrder(s, t, v, SetPhase(s.vms[v].(lease := ""), t.vms[v].phase, s.now));
  }

  lemma ReleaseOrder(s: State, c: CallId, l: string)
    requires Inv(s) && Tidy(s.vms, s.calls, s.pools)
    ensures Tidied(s, ReleaseS(s, c, l))
  {
    hide Inv, ReleaseS, Tidied;
    var t := ReleaseS(s, c, l);
    if l in s.leases {
      Held(s, l);
      ReleaseFields(s, c, l);
      var v := VmOf(s, s.leases[l].vm).value;
      EditOrder(s, t, v, s.vms[v].(released := true));
    } else {
      UnknownFields(s, c, l);
      CallsOrder(s, t);
    }
  }

  lemma ProvCreateOrder(s: State, c: CallId, uid: string)
    requires Inv(s) && Tidy(s.vms, s.calls, s.pools) && c in s.calls && s.calls[c].Placed?
    ensures Tidied(s, ProvCreateS(s, c, uid))
  {
    hide Inv, ProvCreateS, Tidied, Tidy, Logged;
    var t := ProvCreateS(s, c, uid);
    var v := s.calls[c].vm;
    ProvCreateFields(s, c, uid);
    if Alive(s, v) {
      Alone(s, c);
      EditOrder(s, t, v, t.vms[v]);
    } else {
      CallsOrder(s, t);
    }
  }

  lemma ProvHookOrder(s: State, c: CallId)
    requires Inv(s) && Tidy(s.vms, s.calls, s.pools) && c in s.calls && s.calls[c].Created?
    ensures Tidied(s, ProvHookS(s, c))
  {
    hide Inv, ProvHookS, Tidied, Tidy;
    var t := ProvHookS(s, c);
    var v := s.calls[c].vm;
    ProvHookFields(s, c);
    if Alive(s, v) {
      Alone(s, c);
      EditOrder(s, t, v, t.vms[v]);
    } else {
      CallsOrder(s, t);
    }
  }

  lemma ProvReadyOrder(s: State, c: CallId)
    requires Inv(s) && Tidy(s.vms, s.calls, s.pools) && c in s.calls && s.calls[c].Hooking?
    ensures Tidied(s, ProvReadyS(s, c))
  {
    hide Inv, ProvReadyS, Tidied, Tidy, Logged;
    var t := ProvReadyS(s, c);
    var v := s.calls[c].vm;
    ProvReadyFields(s, c);
    if Alive(s, v) {
      Alone(s, c);
      EditOrder(s, t, v, t.vms[v]);
    } else {
      CallsOrder(s, t);
    }
  }

  lemma ProvFailOrder(s: State, c: CallId)
    requires Inv(s) && Tidy(s.vms, s.calls, s.pools) && c in s.calls && (s.calls[c].Created? || s.calls[c].Hooking?)
    ensures Tidied(s, ProvFailS(s, c))
  {
    hide Inv, ProvFailS, Tidied, Tidy, HookFailed;
    ProvFailFields(s, c);
    if Alive(s, s.calls[c].vm) {
      HookFailedOrder(s, ProvFailS(s, c), c, s.calls[c].vm);
    } else {
      CallsOrder(s, ProvFailS(s, c));
    }
  }

  lemma ClaimFailOrder(s: State, c: CallId)
    requires Inv(s) && Tidy(s.vms, s.calls, s.pools) && c in s.calls && s.calls[c].Claiming?
    ensures Tidied(s, ClaimFailS(s, c))
  {
    hide Inv, ClaimFailS, Tidied, Tidy, HookFailed;
    ClaimFailFields(s, c);
    if Alive(s, s.calls[c].vm) {
      HookFailedOrder(s, ClaimFailS(s, c), c, s.calls[c].vm);
    } else {
      CallsOrder(s, ClaimFailS(s, c));
    }
  }

  lemma UngrantedOrder(s: State, c: CallId, prior: Option<string>, l: string)
    requires Inv(s) && Tidy(s.vms, s.calls, s.pools) && MayCommit(s, c, prior, l) && (prior.Some? || !Alive(s, s.calls[c].vm))
    ensures Tidied(s, CommitS(s, c, prior, l))
  {
    hide Inv, Tidied, GrantS, YieldS, IsPrior, ProvisionN, FreshLease;
    if Alive(s, s.calls[c].vm) {
      YieldOrder(s, c, prior.value);
    } else {
      CallsOrder(s, CommitS(s, c, prior, l));
    }
  }

  lemma DelMarkOrder(s: State, c: CallId)
    requires Tidy(s.vms, s.calls, s.pools) && c in s.calls && s.calls[c].DeleteWanted?
    ensures Tidied(s, DelMarkS(s, c))
  {
    hide DelMarkS, Tidied;
    DelMarkFields(s, c);
    var t := DelMarkS(s, c);
    if s.calls[c].vm in s.vms {
      DoomedFits(s, s.calls[c].vm, c);
      EditOrder(s, t, s.calls[c].vm, t.vms[s.calls[c].vm]);
    } else {
      CallsOrder(s, t);
    }
  }

  /** A MicroVM with a deletion in flight is leased or on its way out, so all its calls are deletions. */
  lemma DoomedFits(s: State, v: nat, c: CallId)
    requires Tidy(s.vms, s.calls, s.pools) && c in s.calls && s.calls[c].DeleteWanted? && v == s.calls[c].vm && v in s.vms
    ensures s.vms[v].phase in {Leased, Deleting}
    ensures forall d | d in s.calls && s.calls[d].vm == v && s.vms[v].pool in s.pools :: !Working(s.calls[d])
  {
  }

  lemma DelFailOrder(s: State, c: CallId)
    requires Tidy(s.vms, s.calls, s.pools) && c in s.calls && s.calls[c].DeleteOnHost?
    ensures Tidied(s, DelFailS(s, c))
  {
    hide DelFailS, Tidied;
    DelFailFields(s, c);
    var t := DelFailS(s, c);
    if s.calls[c].vm in s.vms {
      EditOrder(s, t, s.calls[c].vm, t.vms[s.calls[c].vm]);
    } else {
      CallsOrder(s, t);
    }
  }

  lemma SweepOrder(s: State, l: string)
    requires Tidy(s.vms, s.calls, s.pools) && l in s.leases
    ensures Tidied(s, SweepS(s, l))
  {
    hide SweepS, Tidied;
    SweepFields(s, l);
    CallsOrder(s, SweepS(s, l));
  }

  /** Every MicroVM of a Pool that goes is on its way out. */
  lemma MarkedOrder(s: State, t: State, key: PoolKey)
    requires Tidy(s.vms, s.calls, s.pools) && t.vms == MarkAll(s.vms, key, s.now) && PoolsLike(s.pools - {key}, t.pools)
    requires forall c | c in t.calls :: (c in s.calls && t.calls[c] == s.calls[c]) || t.calls[c].vm in PoolVMs(s.vms, key)
    ensures Tidied(s, t)
  {
  }

  lemma DeletePoolOrder(s: State, key: PoolKey, order: seq<nat>)
    requires Inv(s) && Tidy(s.vms, s.calls, s.pools) && key in s.pools && InOrder(order, PoolVMs(s.vms, key))
    ensures Tidied(s, DeletePoolS(s, key, order))
  {
    hide Inv, DeletePoolS, LoggedDeletions, Numbers, Tidy, Tidied, MarkAll, PoolsLike, LeasesWithout, LedgerWithout;
    NumbersOk(s);
    DeletePoolFields(s, key, order);
    MarkedOrder(s, DeletePoolS(s, key, order), key);
  }

  /** A Pool is created only when no MicroVM of its key is tracked. */
  ghost predicate Clean(s: State, step: Step) {
    step.CreatePool? && step.key !in s.pools ==> forall v | v in s.vms :: s.vms[v].pool != step.key
  }

  lemma CreateOrder(s: State, key: PoolKey, spec: Spec)
    requires Tidy(s.vms, s.calls, s.pools) && Clean(s, CreatePool(key, spec))
    ensures Tidied(s, CreatePoolS(s, key, spec))
  {
    hide Accepted;
  }

  lemma UpdateOrder(s: State, key: PoolKey, spec: Spec)
    requires Tidy(s.vms, s.calls, s.pools)
    ensures Tidied(s, UpdatePoolS(s, key, spec))
  {
    hide Accepted, Tidy, Tidied;
    var t := UpdatePoolS(s, key, spec);
    SameOrder(s, t);
  }

  lemma ProvDropOrder(s: State, c: CallId)
    requires Tidy(s.vms, s.calls, s.pools) && c in s.calls && s.calls[c].Placed?
    ensures Tidied(s, ProvDropS(s, c))
  {
    hide ProvDropS, Tidied;
    ProvDropFields(s, c);
    RemoveOrder(s, ProvDropS(s, c), s.calls[c].vm);
  }

  lemma UntrackedOrder(s: State, c: CallId)
    requires Tidy(s.vms, s.calls, s.pools) && c in s.calls && s.calls[c].DeleteOnHost? && s.calls[c].vm !in s.vms
    ensures Tidied(s, DelFinishS(s, c))
  {
    hide DelFinishS, Tidied;
    DelFinishFields(s, c);
    CallsOrder(s, DelFinishS(s, c));
  }

  lemma RoutineOrder(s: State, step: Step, t: State)
    requires Inv(s) && Tidy(s.vms, s.calls, s.pools) && Next(s, step, t) && Routine(step) && !Buries(s, step)
    ensures Tidied(s, t)
  {
    hide MayAdmin, DoAdmin, MayLease, DoLease, MayTick, DoTick;
    hide Inv, Tidy, Tidied, ProvDropS, ProvCreateS, ProvHookS, ProvFailS, ProvReadyS, DelMarkS, DelFailS, DelFinishS;
    match step
    case ProvDrop(c) => ProvDropOrder(s, c);
    case ProvCreate(c, uid) => ProvCreateOrder(s, c, uid);
    case ProvHook(c) => ProvHookOrder(s, c);
    case ProvReady(c) => ProvReadyOrder(s, c);
    case ProvFail(c) => ProvFailOrder(s, c);
    case DelMark(c) => DelMarkOrder(s, c);
    case DelFail(c) => DelFailOrder(s, c);
    case DelFinish(c) => UntrackedOrder(s, c);
  }

  lemma LeasingOrder(s: State, step: Step, t: State)
    requires Inv(s) && Tidy(s.vms, s.calls, s.pools) && Next(s, step, t) && Leasing(step) && !Grants(s, step)
    ensures Tidied(s, t)
  {
    hide MayAdmin, DoAdmin, MayRoutine, DoRoutine, MayTick, DoTick;
    hide Inv, Tidy, Tidied, SelectS, CommitS, ClaimFailS, HeartbeatS, ReleaseS, IsPrior, IsOldest, FreshLease, Known;
    match step
    case ClaimSelect(c, key, request, prior, vm) => SelectOrder(s, c, key, request, prior, vm);
    case ClaimCommit(c, prior, l) => UngrantedOrder(s, c, prior, l);
    case ClaimFail(c) => ClaimFailOrder(s, c);
    case Heartbeat(l) =>
      HeartbeatFields(s, l);
      SameOrder(s, t);
    case Release(c, l) => ReleaseOrder(s, c, l);
  }

  lemma AdminOrder(s: State, step: Step, t: State)
    requires Inv(s) && Tidy(s.vms, s.calls, s.pools) && Next(s, step, t) && Admin(step) && Clean(s, step)
    ensures Tidied(s, t)
  {
    hide MayLease, DoLease, MayRoutine, DoRoutine, MayTick, DoTick;
    hide Inv, Tidy, Tidied, CreatePoolS, UpdatePoolS, DeletePoolS, InOrder, InUse, Clean, Named, Occupied;
    match step
    case CreatePool(key, spec) => CreateOrder(s, key, spec);
    case UpdatePool(key, spec) => UpdateOrder(s, key, spec);
    case DeletePool(key, _, order) => DeletePoolOrder(s, key, order);
    case _ => SameOrder(s, t);
  }

  lemma TickOrder(s: State, step: Step, t: State)
    requires Tidy(s.vms, s.calls, s.pools) && Next(s, step, t) && Ticking(step) && !step.TickPool?
    ensures Tidied(s, t)
  {
    hide MayAdmin, DoAdmin, MayLease, DoLease, MayRoutine, DoRoutine;
    hide Tidy, Tidied, SweepS, WarnS, DueWarning;
    match step
    case Sweep(l, _) => SweepOrder(s, l);
    case Warn(l, _) =>
      WarnFields(s, l);
      SameOrder(s, t);
    case Retry(v) => RetryOrder(s, v);
  }

  lemma SettledOrder(s: State, step: Step, t: State)
    requires Inv(s) && Tidy(s.vms, s.calls, s.pools) && Next(s, step, t) && Provisions(s, step)
    ensures var m := Settled(s, step, t);
            Tidied(s, m) && PoolsLike(s.pools, m.pools) && Numbers(m) && m.nextVM == s.nextVM
  {
    hide Inv, Tidy, Tidied, GrantS, Buried, Looked, ProvisionN, IsPrior, FreshLease, Known, Numbers, CommitS, DelFinishS, TickPoolS;
    NumbersOk(s);
    if Grants(s, step) {
      GrantFields(s, step.c, step.lease);
      GrantShape(s, step.c, step.lease);
      GrantOrder(s, step.c, step.lease);
    } else if Buries(s, step) {
      BuriedFields(s, step.c);
      BuriedShape(s, step.c);
      RemoveOrder(s, Buried(s, step.c), s.calls[step.c].vm);
    } else {
      LookedOrder(s, step.key);
    }
  }

  lemma LookedOrder(s: State, key: PoolKey)
    requires Tidy(s.vms, s.calls, s.pools) && Numbers(s) && key in s.pools
    ensures var t := Looked(s, key);
            Tidied(s, t) && PoolsLike(s.pools, t.pools) && Numbers(t) && t.nextVM == s.nextVM
  {
    hide Looked, Tidied, TickPoolS, ProvisionN, Deficit;
    TickPoolFields(s, key);
    CallsOrder(s, Looked(s, key));
  }

  /** Every section of a clean run keeps the calls in order, and moves phases forward. */
  lemma StepOrder(s: State, step: Step, t: State)
    requires Inv(s) && Tidy(s.vms, s.calls, s.pools) && Next(s, step, t) && Clean(s, step)
    ensures Tidied(s, t)
  {
    hide Inv, Tidied, Tidy, Next, Clean, Grants, Buries;
    if Provisions(s, step) {
      BatchOrder(s, step, t);
    } else if Admin(step) {
      AdminOrder(s, step, t);
    } else if Leasing(step) {
      LeasingOrder(s, step, t);
    } else if Routine(step) {
      RoutineOrder(s, step, t);
    } else {
      TickOrder(s, step, t);
    }
  }

  lemma SameOrder(s: State, t: State)
    requires Tidy(s.vms, s.calls, s.pools) && RecsLike(s.pools, t.pools) && t.vms == s.vms && t.calls == s.calls
    ensures Tidied(s, t)
  {
  }

  lemma RetryOrder(s: State, v: nat)
    requires Tidy(s.vms, s.calls, s.pools) && RetryDue(s.vms, v)
    ensures Tidied(s, Spawn(s, DeleteWanted(v, None, "")))
  {
    hide Tidied;
    CallsOrder(s, Spawn(s, DeleteWanted(v, None, "")));
  }

  lemma BatchOrder(s: State, step: Step, t: State)
    requires Inv(s) && Tidy(s.vms, s.calls, s.pools) && Next(s, step, t) && Provisions(s, step)
    ensures Tidied(s, t)
  {
    hide Inv, Tidy, Tidied, Next, Settled, Grew, Numbers;
    NumbersOk(s);
    BatchShape(s, step, t);
    SettledOrder(s, step, t);
    BatchPool(s, step, t);
    GrewOrder(s, Settled(s, step, t), t, BatchKey(s, step), Batch(s, step));
  }

  /** A batch is for a Pool that exists. */
  lemma BatchPool(s: State, step: Step, t: State)
    requires Inv(s) && Next(s, step, t) && Provisions(s, step)
    ensures Grew(Settled(s, step, t), t, BatchKey(s, step), Batch(s, step))
    ensures Settled(s, step, t).nextVM < t.nextVM ==> BatchKey(s, step) in s.pools
  {
    hide Inv, Deficit, GrantS, Buried, Looked, Settled, CommitS, DelFinishS, TickPoolS;
    BatchShape(s, step, t);
    if Grants(s, step) {
      Worked(s, step.c);
    }
  }

  // ----- Over every clean run -----

  ghost predicate CleanRun(states: seq<State>, steps: seq<Step>) {
    Run(states, steps) && forall i | 0 <= i < |steps| :: Clean(states[i], steps[i])
  }

  lemma {:induction false} RunOrder(states: seq<State>, steps: seq<Step>, placement: Placement, i: nat)
    requires CleanRun(states, steps) && states[0] == Init(placement) && i < |states|
    ensures Inv(states[i]) && Tidy(states[i].vms, states[i].calls, states[i].pools)
  {
    hide Inv, Next, Clean, Tidy, Moves;
    if i == 0 {
      InitInv(placement);
      InitTidy(placement);
    } else {
      assert NextAt(states, steps, i - 1);
      RunOrder(states, steps, placement, i - 1);
      StepInv(states[i - 1], steps[i - 1], states[i]);
      StepOrder(states[i - 1], steps[i - 1], states[i]);
    }
  }

  lemma InitTidy(placement: Placement)
    ensures var s := Init(placement); Tidy(s.vms, s.calls, s.pools)
  {
  }

  /**
   * DELETING is not final without that assumption: a Pool deleted and created again while a MicroVM of its key is being
   * provisioned takes the MicroVM from DELETING back to its create hooks.
   */
  lemma RecreationRevives(s: State, c: CallId, spec: Spec, order: seq<nat>) returns (t: State, u: State, w: State)
    requires Inv(s) && c in s.calls && s.calls[c].Created? && Alive(s, s.calls[c].vm)
    requires var key := s.vms[s.calls[c].vm].pool; Accepted(s, key, spec) && InOrder(order, PoolVMs(s.vms, key))
    ensures var v := s.calls[c].vm;
            var key := s.vms[v].pool;
            && Next(s, DeletePool(key, true, order), t) && v in t.vms && t.vms[v].phase == Deleting
            && Next(t, CreatePool(key, spec), u)
            && Next(u, ProvHook(c), w) && v in w.vms && w.vms[v].phase == CreateHookRunning
  {
    hide Inv, InOrder, DeletePoolS, ProvHookS, Numbers, LoggedDeletions, Next;
    var v := s.calls[c].vm;
    var key := s.vms[v].pool;
    NumbersOk(s);
    InOrderTracked(s, key, order);
    DeletePoolFields(s, key, order);
    t := DeletePoolS(s, key, order);
    u := CreatePoolS(t, key, spec);
    PoolsNext(s, t, key, spec, order);
    HookNext(u, c);
    ProvHookFields(u, c);
    w := ProvHookS(u, c);
  }

  lemma PoolsNext(s: State, t: State, key: PoolKey, spec: Spec, order: seq<nat>)
    requires key in s.pools && InOrder(order, PoolVMs(s.vms, key))
    ensures Next(s, DeletePool(key, true, order), DeletePoolS(s, key, order))
    ensures Next(t, CreatePool(key, spec), CreatePoolS(t, key, spec))
  {
    hide InOrder, DeletePoolS, CreatePoolS, MayLease, DoLease, MayRoutine, DoRoutine, MayTick, DoTick;
  }

  lemma HookNext(s: State, c: CallId)
    requires c in s.calls && s.calls[c].Created?
    ensures Next(s, ProvHook(c), ProvHookS(s, c))
  {
    hide ProvHookS, MayAdmin, DoAdmin, MayLease, DoLease, MayTick, DoTick;
  }
}
