/** The lease id a MicroVM carries is that of the Lease granted for it. */
module BatteryLinks {
  import opened BatteryTypes
  import opened BatterySections
  import opened BatteryInvariant
  import opened BatteryRuns
  import opened BatteryHistory
  import opened BatteryTheorems
  import opened BatteryFields
  import opened BatteryShape

  ghost predicate Linked(vms: map<nat, VM>, ledger: map<string, Entry>) {
    forall v | v in vms && vms[v].lease != "" ::
      && vms[v].lease in ledger
      && ledger[vms[v].lease].lease.vm == vms[v].uid != ""
      && ledger[vms[v].lease].lease.pool == vms[v].pool
  }

  /** No MicroVM has a lease id that it did not have. */
  ghost predicate LinksKept(a: map<nat, VM>, b: map<nat, VM>) {
    forall v | v in b && b[v].lease != "" :: v in a && b[v].lease == a[v].lease
  }

  lemma KeptLinked(s: State, t: State)
    requires Linked(s.vms, s.ledger) && LinksKept(s.vms, t.vms) && Grows(s, t) && forall v | v in s.vms :: v <= s.nextVM
    ensures Linked(t.vms, t.ledger)
  {
  }

  lemma SelectLinks(s: State, c: CallId, key: PoolKey, request: string, prior: Option<string>, vm: Option<nat>)
    requires prior.Some? ==> prior.value in s.leases
    requires vm.Some? ==> vm.value in s.vms
    ensures LinksKept(s.vms, SelectS(s, c, key, request, prior, vm).vms)
  {
    hide SelectS, Early;
    if Early(s, key, request, prior, vm).Some? {
      EarlyFields(s, c, key, request, prior, vm);
    } else {
      TakeFields(s, c, key, request, prior, vm);
    }
  }

  lemma ReleaseLinks(s: State, c: CallId, l: string)
    requires Inv(s)
    ensures LinksKept(s.vms, ReleaseS(s, c, l).vms)
  {
    hide Inv, ReleaseS;
    if l in s.leases {
      Held(s, l);
      ReleaseFields(s, c, l);
    } else {
      UnknownFields(s, c, l);
    }
  }

  lemma YieldLinks(s: State, c: CallId, prior: string)
    requires c in s.calls && s.calls[c].Claiming? && s.calls[c].vm in s.vms && prior in s.leases
    ensures LinksKept(s.vms, YieldS(s, c, prior).vms)
  {
    hide YieldS;
    YieldFields(s, c, prior);
  }

  lemma ClaimFailLinks(s: State, c: CallId)
    requires c in s.calls && s.calls[c].Claiming?
    ensures LinksKept(s.vms, ClaimFailS(s, c).vms)
  {
    hide ClaimFailS;
    ClaimFailFields(s, c);
  }

  lemma LeasingLinks(s: State, step: Step, t: State)
    requires Inv(s) && Next(s, step, t) && Leasing(step) && !Grants(s, step)
    ensures LinksKept(s.vms, t.vms)
  {
    hide MayAdmin, DoAdmin, MayRoutine, DoRoutine, MayTick, DoTick;
    hide Inv, SelectS, GrantS, YieldS, ClaimFailS, HeartbeatS, ReleaseS, IsPrior, IsOldest, FreshLease, Known, ProvisionN, LinksKept;
    SameLinks(s.vms);
    match step
    case ClaimSelect(c, key, request, prior, vm) => SelectLinks(s, c, key, request, prior, vm);
    case ClaimCommit(c, prior, l) =>
      if Alive(s, s.calls[c].vm) {
        YieldLinks(s, c, prior.value);
      }
    case ClaimFail(c) => ClaimFailLinks(s, c);
    case Heartbeat(l) => HeartbeatFields(s, l);
    case Release(c, l) => ReleaseLinks(s, c, l);
  }

  lemma ProvisioningLinks(s: State, step: Step, t: State)
    requires Next(s, step, t) && (step.ProvDrop? || step.ProvCreate? || step.ProvHook? || step.ProvFail? || step.ProvReady?)
    ensures LinksKept(s.vms, t.vms)
  {
    hide MayAdmin, DoAdmin, MayLease, DoLease, MayTick, DoTick;
    hide ProvDropS, ProvCreateS, ProvHookS, ProvFailS, ProvReadyS, Logged, PoolsLike;
    match step
    case ProvDrop(c) => ProvDropFields(s, c);
    case ProvCreate(c, uid) => ProvCreateFields(s, c, uid);
    case ProvHook(c) => ProvHookFields(s, c);
    case ProvFail(c) => ProvFailFields(s, c);
    case ProvReady(c) => ProvReadyFields(s, c);
  }

  lemma DeletionLinks(s: State, step: Step, t: State)
    requires Next(s, step, t) && (step.DelMark? || step.DelFail? || step.DelFinish?) && !Buries(s, step)
    ensures LinksKept(s.vms, t.vms)
  {
    hide MayAdmin, DoAdmin, MayLease, DoLease, MayTick, DoTick;
    hide DelMarkS, DelFailS, DelFinishS, Buried, ProvisionN, Doomed, PoolsLike;
    match step
    case DelMark(c) => DelMarkFields(s, c);
    case DelFail(c) => DelFailFields(s, c);
    case DelFinish(c) => DelFinishFields(s, c);
  }

  lemma MarkedLinks(vms: map<nat, VM>, key: PoolKey, now: Time)
    ensures LinksKept(vms, MarkAll(vms, key, now))
  {
  }

  lemma SameLinks(vms: map<nat, VM>)
    ensures LinksKept(vms, vms)
  {
  }

  lemma AdminLinks(s: State, step: Step, t: State)
    requires Inv(s) && Next(s, step, t) && Admin(step)
    ensures LinksKept(s.vms, t.vms)
  {
    hide MayLease, DoLease, MayRoutine, DoRoutine, MayTick, DoTick;
    hide Inv, InUse, Accepted, Named, Occupied, DeletePoolS, LinksKept, MarkAll, LoggedDeletions;
    SameLinks(s.vms);
    if step.DeletePool? {
      NumbersOk(s);
      InOrderTracked(s, step.key, step.order);
      DeletePoolFields(s, step.key, step.order);
      MarkedLinks(s.vms, step.key, s.now);
    }
  }

  lemma TickLinks(s: State, step: Step, t: State)
    requires Next(s, step, t) && Ticking(step) && !step.TickPool?
    ensures LinksKept(s.vms, t.vms)
  {
    hide MayAdmin, DoAdmin, MayLease, DoLease, MayRoutine, DoRoutine, SweepS, WarnS, DueWarning, LinksKept;
    SameLinks(s.vms);
    match step
    case Sweep(l, _) => SweepFields(s, l);
    case Warn(l, _) => WarnFields(s, l);
    case _ =>
  }

  lemma GrewLinks(a: map<nat, VM>, s: State, t: State, key: PoolKey, n: nat)
    requires LinksKept(a, s.vms) && Grew(s, t, key, n)
    ensures LinksKept(a, t.vms)
  {
  }

  lemma BatchLinks(s: State, step: Step, t: State)
    requires Inv(s) && Next(s, step, t) && (Buries(s, step) || step.TickPool?)
    ensures LinksKept(s.vms, t.vms)
  {
    hide Inv, LinksKept, Next, Grew, Batch, BatchKey, Buried, Looked;
    var m := Settled(s, step, t);
    assert LinksKept(s.vms, m.vms) by {
      SettledLinks(s, step, t);
    }
    BatchShape(s, step, t);
    GrewLinks(s.vms, m, t, BatchKey(s, step), Batch(s, step));
  }

  lemma SettledLinks(s: State, step: Step, t: State)
    requires Next(s, step, t) && (Buries(s, step) || step.TickPool?)
    ensures LinksKept(s.vms, Settled(s, step, t).vms)
  {
    hide MayAdmin, DoAdmin, MayLease, DoLease, DoRoutine, DoTick, Buried, Looked;
    if Buries(s, step) {
      BuriedFields(s, step.c);
    } else {
      TickPoolFields(s, step.key);
    }
  }

  /** Every section but a grant keeps the links. */
  lemma OthersLinks(s: State, step: Step, t: State)
    requires Inv(s) && Next(s, step, t) && !Grants(s, step)
    ensures LinksKept(s.vms, t.vms)
  {
    hide Inv, Next, Grants, Buries, LinksKept;
    if Leasing(step) {
      LeasingLinks(s, step, t);
    } else if Buries(s, step) || step.TickPool? {
      BatchLinks(s, step, t);
    } else if step.DelMark? || step.DelFail? || step.DelFinish? {
      DeletionLinks(s, step, t);
    } else if Routine(step) {
      ProvisioningLinks(s, step, t);
    } else if Admin(step) {
      AdminLinks(s, step, t);
    } else {
      TickLinks(s, step, t);
    }
  }

  /** A grant links its MicroVM to the new Lease. */
  lemma GrantLinks(s: State, c: CallId, l: string)
    requires Inv(s) && Linked(s.vms, s.ledger) && FreshLease(s, l)
    requires c in s.calls && s.calls[c].Claiming? && s.calls[c].vm in s.vms && Known(s, s.calls[c].key, s.calls[c].rec)
    ensures var t := GrantS(s, c, l);
            Linked(t.vms, t.ledger)
  {
    hide Inv, GrantS, Known;
    GrantFields(s, c, l);
    Worked(s, c);
  }

  lemma GrewLinked(s: State, t: State, key: PoolKey, n: nat)
    requires Linked(s.vms, s.ledger) && Grew(s, t, key, n) && t.ledger == s.ledger
    ensures Linked(t.vms, t.ledger)
  {
  }

  lemma GrantingLinks(s: State, step: Step, t: State)
    requires Inv(s) && Linked(s.vms, s.ledger) && Next(s, step, t) && Grants(s, step)
    ensures Linked(t.vms, t.ledger)
  {
    hide MayAdmin, DoAdmin, MayRoutine, DoRoutine, MayTick, DoTick;
    hide Inv, Linked, GrantS, ProvisionN, IsPrior, FreshLease, Grew;
    GrantLinks(s, step.c, step.lease);
    GrantBatch(s, step, t);
    GrewLinked(GrantS(s, step.c, step.lease), t, BatchKey(s, step), Batch(s, step));
  }

  lemma StepLinked(s: State, step: Step, t: State)
    requires Inv(s) && Linked(s.vms, s.ledger) && Next(s, step, t)
    ensures Linked(t.vms, t.ledger)
  {
    hide Inv, Next, Grants, Linked, LinksKept, Grows;
    if Grants(s, step) {
      GrantingLinks(s, step, t);
    } else {
      OthersLinks(s, step, t);
      StepGrows(s, step, t);
      NumbersOk(s);
      KeptLinked(s, t);
    }
  }

  lemma NoneLinked(ledger: map<string, Entry>)
    ensures Linked(map[], ledger)
  {
  }

  /** In every run a MicroVM carries the id of the Lease granted for it, or none. */
  lemma {:induction false} RunLinked(states: seq<State>, steps: seq<Step>, placement: Placement, i: nat)
    requires Run(states, steps) && states[0] == Init(placement) && i < |states|
    ensures Linked(states[i].vms, states[i].ledger)
  {
    hide Next, Linked, Inv;
    if i == 0 {
      NoneLinked(states[0].ledger);
    } else {
      assert NextAt(states, steps, i - 1);
      RunLinked(states, steps, placement, i - 1);
      RunInv(states, steps, placement, i - 1);
      StepLinked(states[i - 1], steps[i - 1], states[i]);
    }
  }
}
