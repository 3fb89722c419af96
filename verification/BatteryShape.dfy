/** Every section edits the tracked MicroVMs and then may provision a batch; only the batch adds any. */
module BatteryShape {
  import opened BatteryTypes
  import opened BatterySections
  import opened BatteryInvariant
  import opened BatteryRuns
  import opened BatteryFields

  /** A ClaimVM whose hooks succeeded and that has no Lease to return gets one. */
  predicate Grants(s: State, step: Step) {
    step.ClaimCommit? && step.prior.None? && step.c in s.calls && s.calls[step.c].Claiming? && Alive(s, s.calls[step.c].vm)
  }

  /** A deletion that its Host has completed forgets a tracked MicroVM. */
  predicate Buries(s: State, step: Step) {
    step.DelFinish? && step.c in s.calls && s.calls[step.c].DeleteOnHost? && s.calls[step.c].vm in s.vms
  }

  predicate Provisions(s: State, step: Step) {
    Grants(s, step) || Buries(s, step) || step.TickPool?
  }

  /** The state once the section has done all but provision. */
  ghost function Settled(s: State, step: Step, t: State): State
    requires Next(s, step, t)
  {
    if Grants(s, step) then GrantS(s, step.c, step.lease)
    else if Buries(s, step) then Buried(s, step.c)
    else if step.TickPool? then Looked(s, step.key)
    else t
  }

  /** The Pool the section provisions for. */
  function BatchKey(s: State, step: Step): PoolKey {
    if Grants(s, step) then s.calls[step.c].key
    else if Buries(s, step) then s.vms[s.calls[step.c].vm].pool
    else if step.TickPool? then step.key
    else PoolKey("", "")
  }

  /** How many MicroVMs the section may provision. */
  ghost function Batch(s: State, step: Step): nat {
    if Grants(s, step) then
      var call := s.calls[step.c];
      if Known(s, call.key, call.rec) then OnClaimed(Record(s, call.key, call.rec).spec) else 0
    else if Buries(s, step) then
      var key := s.vms[s.calls[step.c].vm].pool;
      if key in s.pools then OnDeleted(s.pools[key].spec) else 0
    else if step.TickPool? && step.key in s.pools then Deficit(s, step.key)
    else 0
  }

  lemma NumbersOk(s: State)
    requires Inv(s)
    ensures Numbers(s)
  {
    hide PoolsOk, UidsOk, LeasesOk, LedgerOk, WorkersOk, PhasesOk, ClaimsOk, ReleasesOk, CallsOk, RequestsOk, OnceOk, HostsOk, AnswersOk, SweptOk, LogOk;
  }

  lemma InOrderTracked(s: State, key: PoolKey, order: seq<nat>)
    requires InOrder(order, PoolVMs(s.vms, key))
    ensures forall v | v in order :: v in s.vms && s.vms[v].pool == key
  {
  }

  lemma GrantShape(s: State, c: CallId, l: string)
    requires Numbers(s) && c in s.calls && s.calls[c].Claiming? && s.calls[c].vm in s.vms
    requires Known(s, s.calls[c].key, s.calls[c].rec)
    ensures var t := GrantS(s, c, l);
            t.vms.Keys == s.vms.Keys && Numbers(t) && Known(t, s.calls[c].key, s.calls[c].rec)
  {
    hide GrantS;
    GrantFields(s, c, l);
  }

  lemma BuriedShape(s: State, c: CallId)
    requires Numbers(s) && c in s.calls && s.calls[c].DeleteOnHost? && s.calls[c].vm in s.vms
    ensures var t := Buried(s, c);
            t.vms.Keys <= s.vms.Keys && Numbers(t) && PoolsLike(s.pools, t.pools)
  {
    hide Buried;
    BuriedFields(s, c);
  }

  lemma GrantBatch(s: State, step: Step, t: State)
    requires Inv(s) && Next(s, step, t) && Grants(s, step)
    ensures var m := Settled(s, step, t);
            m.vms.Keys <= s.vms.Keys && m.hosts == s.hosts && Grew(m, t, BatchKey(s, step), Batch(s, step))
  {
    hide Inv, GrantS, ProvisionN, IsPrior, FreshLease;
    NumbersOk(s);
    var call := s.calls[step.c];
    GrantFields(s, step.c, step.lease);
    GrantShape(s, step.c, step.lease);
    ProvisionGrew(GrantS(s, step.c, step.lease), call.key, call.rec, Batch(s, step));
  }

  lemma BuryBatch(s: State, step: Step, t: State)
    requires Inv(s) && Next(s, step, t) && Buries(s, step)
    ensures var m := Settled(s, step, t);
            m.vms.Keys <= s.vms.Keys && m.hosts == s.hosts && Grew(m, t, BatchKey(s, step), Batch(s, step))
  {
    hide Inv, Buried, ProvisionN, DelFinishS;
    NumbersOk(s);
    var m := Buried(s, step.c);
    BuriedFields(s, step.c);
    BuriedShape(s, step.c);
    DelFinishFields(s, step.c);
    var key := BatchKey(s, step);
    GrewRefl(m, key, 0);
    if key in m.pools {
      ProvisionGrew(m, key, m.pools[key].rec, Batch(s, step));
    }
  }

  lemma TickBatch(s: State, step: Step, t: State)
    requires Inv(s) && Next(s, step, t) && step.TickPool?
    ensures var m := Settled(s, step, t);
            m.vms.Keys <= s.vms.Keys && m.hosts == s.hosts && Grew(m, t, BatchKey(s, step), Batch(s, step))
  {
    hide Inv, Looked, ProvisionN, Deficit, TickPoolS;
    NumbersOk(s);
    TickPoolFields(s, step.key);
    ProvisionGrew(Looked(s, step.key), step.key, s.pools[step.key].rec, Batch(s, step));
  }

  /** What a section that provisions does after it has settled. */
  lemma BatchShape(s: State, step: Step, t: State)
    requires Inv(s) && Next(s, step, t)
    requires Provisions(s, step)
    ensures var m := Settled(s, step, t);
            m.vms.Keys <= s.vms.Keys && m.hosts == s.hosts && Grew(m, t, BatchKey(s, step), Batch(s, step))
  {
    hide Inv, Next, Grew, Settled, Batch, BatchKey;
    if Grants(s, step) {
      GrantBatch(s, step, t);
    } else if Buries(s, step) {
      BuryBatch(s, step, t);
    } else {
      TickBatch(s, step, t);
    }
  }

  /** Only a ReleaseVM is answered between the two. */
  predicate OnlyReleases(a: map<CallId, Reply>, b: map<CallId, Reply>) {
    forall c | c in b && c !in a :: b[c].Released?
  }

  lemma ProvisioningFrame(s: State, step: Step, t: State)
    requires Next(s, step, t) && (step.ProvDrop? || step.ProvCreate? || step.ProvHook? || step.ProvFail? || step.ProvReady?)
    ensures t.nextVM == s.nextVM && t.answers == s.answers
  {
    hide MayAdmin, DoAdmin, MayLease, DoLease, MayTick, DoTick;
    hide ProvDropS, ProvCreateS, ProvHookS, ProvFailS, ProvReadyS, Logged, HookFailed, PoolsLike;
    match step
    case ProvDrop(c) => ProvDropFields(s, c);
    case ProvCreate(c, uid) => ProvCreateFields(s, c, uid);
    case ProvHook(c) => ProvHookFields(s, c);
    case ProvFail(c) => ProvFailFields(s, c);
    case ProvReady(c) => ProvReadyFields(s, c);
  }

  lemma DeletionFrame(s: State, step: Step, t: State)
    requires Next(s, step, t) && (step.DelMark? || step.DelFail? || step.DelFinish?)
    ensures OnlyReleases(s.answers, t.answers) && (!Buries(s, step) ==> t.nextVM == s.nextVM)
  {
    hide MayAdmin, DoAdmin, MayLease, DoLease, MayTick, DoTick;
    hide DelMarkS, DelFailS, DelFinishS, Buried, ProvisionN, Doomed, PoolsLike;
    match step
    case DelMark(c) => DelMarkFields(s, c);
    case DelFail(c) => DelFailFields(s, c);
    case DelFinish(c) =>
      DelFinishFields(s, c);
      if s.calls[c].vm in s.vms {
        BuriedFields(s, c);
      }
  }

  lemma RoutineFrame(s: State, step: Step, t: State)
    requires Next(s, step, t) && Routine(step)
    ensures OnlyReleases(s.answers, t.answers) && (!Buries(s, step) ==> t.nextVM == s.nextVM)
  {
    hide Next, Buries;
    if step.DelMark? || step.DelFail? || step.DelFinish? {
      DeletionFrame(s, step, t);
    } else {
      ProvisioningFrame(s, step, t);
    }
  }

  lemma YieldNumber(s: State, c: CallId, prior: string)
    requires c in s.calls && s.calls[c].Claiming? && s.calls[c].vm in s.vms && prior in s.leases
    ensures YieldS(s, c, prior).nextVM == s.nextVM
  {
  }

  lemma ClaimFailNumber(s: State, c: CallId)
    requires c in s.calls && s.calls[c].Claiming?
    ensures ClaimFailS(s, c).nextVM == s.nextVM
  {
    hide ClaimFailS;
    ClaimFailFields(s, c);
  }

  lemma LeasingNumber(s: State, step: Step, t: State)
    requires Inv(s) && Next(s, step, t) && Leasing(step) && !Grants(s, step)
    ensures t.nextVM == s.nextVM
  {
    hide MayAdmin, DoAdmin, MayRoutine, DoRoutine, MayTick, DoTick;
    hide Inv, SelectS, GrantS, YieldS, ClaimFailS, HeartbeatS, ReleaseS, IsPrior, IsOldest, FreshLease, Known, ProvisionN;
    match step
    case ClaimSelect(c, key, request, prior, vm) => SelectNumber(s, c, key, request, prior, vm);
    case ClaimCommit(c, prior, l) =>
      if Alive(s, s.calls[c].vm) {
        YieldNumber(s, c, prior.value);
      }
    case ClaimFail(c) => ClaimFailNumber(s, c);
    case Heartbeat(l) => HeartbeatFields(s, l);
    case Release(c, l) => ReleaseNumber(s, c, l);
  }

  lemma OtherNumber(s: State, step: Step, t: State)
    requires Inv(s) && Next(s, step, t) && (Admin(step) || Ticking(step)) && !step.TickPool?
    ensures t.nextVM == s.nextVM
  {
    hide MayLease, DoLease, MayRoutine, DoRoutine, Inv, InUse, Accepted, Named, Occupied, DeletePoolS, SweepS, WarnS, TickPoolS, DueWarning;
    match step
    case DeletePool(key, _, order) =>
      NumbersOk(s);
      InOrderTracked(s, key, order);
      DeletePoolFields(s, key, order);
    case Sweep(l, _) => SweepFields(s, l);
    case Warn(l, _) => WarnFields(s, l);
    case _ =>
  }

  /** Only a section that provisions uses a new id. */
  lemma NoBatch(s: State, step: Step, t: State)
    requires Inv(s) && Next(s, step, t) && !Provisions(s, step)
    ensures t.nextVM == s.nextVM
  {
    hide Inv, Next, Grants, Buries;
    if Leasing(step) {
      LeasingNumber(s, step, t);
    } else if Routine(step) {
      RoutineFrame(s, step, t);
    } else {
      OtherNumber(s, step, t);
    }
  }

  lemma SelectNumber(s: State, c: CallId, key: PoolKey, request: string, prior: Option<string>, vm: Option<nat>)
    requires prior.Some? ==> prior.value in s.leases
    requires vm.Some? ==> vm.value in s.vms
    ensures SelectS(s, c, key, request, prior, vm).nextVM == s.nextVM
  {
    hide SelectS, Early;
    if Early(s, key, request, prior, vm).Some? {
      EarlyFields(s, c, key, request, prior, vm);
    } else {
      TakeFields(s, c, key, request, prior, vm);
    }
  }

  lemma ReleaseNumber(s: State, c: CallId, l: string)
    requires Inv(s)
    ensures ReleaseS(s, c, l).nextVM == s.nextVM
  {
    hide Inv, ReleaseS;
    if l in s.leases {
      Held(s, l);
      ReleaseFields(s, c, l);
    } else {
      UnknownFields(s, c, l);
    }
  }

  lemma TickPoolNext(s: State, key: PoolKey)
    requires key in s.pools
    ensures Next(s, TickPool(key), TickPoolS(s, key))
  {
    hide TickPoolS, MayAdmin, DoAdmin, MayLease, DoLease, MayRoutine, DoRoutine;
  }
}
