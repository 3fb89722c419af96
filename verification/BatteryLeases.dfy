/** What every section does to the held Leases and to the deletions that were reported, in any run. */
module BatteryLeases {
  import opened BatteryTypes
  import opened BatterySections
  import opened BatteryInvariant
  import opened BatteryRuns
  import opened BatteryHistory
  import opened BatteryTheorems
  import opened BatteryFields
  import opened BatteryShape
  import opened BatteryExpiry

  /** A Lease that is held was held before, and only its own Heartbeat may have changed it, or the section granted it. */
  ghost predicate LeasesAfter(s: State, step: Step, t: State) {
    forall l | l in t.leases ::
      if l in s.leases then
        t.leases[l] == s.leases[l] || (step == Heartbeat(l) && t.leases == HeartbeatS(s, l).leases)
      else
        Grants(s, step) && l == step.lease && s.calls[step.c].vm in s.vms && t.leases[l].vm == s.vms[s.calls[step.c].vm].uid
  }

  /** A MicroVM whose deletion the section reported has no Lease. */
  ghost predicate NewlyGone(s: State, t: State) {
    s.log <= t.log && forall i | |s.log| <= i < |t.log| && ReportsDeletion(t.log[i]) :: Gone(t, t.log[i].vm)
  }

  ghost predicate Calm(s: State, step: Step, t: State) {
    LeasesAfter(s, step, t) && NewlyGone(s, t)
  }

  lemma QuietCalm(s: State, step: Step, t: State)
    requires Quiet(s, t)
    ensures Calm(s, step, t)
  {
  }

  /** A batch after it changes neither. */
  lemma CalmThenQuiet(s: State, step: Step, m: State, t: State)
    requires Calm(s, step, m) && Quiet(m, t) && !step.Heartbeat?
    ensures Calm(s, step, t)
  {
    forall i | |s.log| <= i < |t.log| && ReportsDeletion(t.log[i]) ensures Gone(t, t.log[i].vm) {
      assert i < |m.log| && t.log[i] == m.log[i];
      assert Gone(m, m.log[i].vm);
    }
  }

  lemma PoolCalm(s: State, step: Step, t: State)
    requires Next(s, step, t) && (step.CreatePool? || step.UpdatePool?)
    ensures Calm(s, step, t)
  {
    hide MayLease, DoLease, MayRoutine, DoRoutine, MayTick, DoTick, Accepted, Gone;
  }

  lemma DeletePoolCalm(s: State, step: Step, t: State)
    requires Inv(s) && Next(s, step, t) && step.DeletePool?
    ensures Calm(s, step, t)
  {
    hide MayLease, DoLease, MayRoutine, DoRoutine, MayTick, DoTick, Inv, InUse, DeletePoolS, InOrder, Gone, Uids, Numbers;
    NumbersOk(s);
    InOrderTracked(s, step.key, step.order);
    DeletePoolFields(s, step.key, step.order);
    DeletePoolGone(s, step.key, step.order);
  }

  lemma AdminCalm(s: State, step: Step, t: State)
    requires Inv(s) && Next(s, step, t) && Admin(step)
    ensures Calm(s, step, t)
  {
    hide Inv, Next, Calm, Quiet;
    if step.CreatePool? || step.UpdatePool? {
      PoolCalm(s, step, t);
    } else if step.DeletePool? {
      DeletePoolCalm(s, step, t);
    } else {
      AdminQuiet(s, step, t);
      QuietCalm(s, step, t);
    }
  }

  lemma HeartbeatCalm(s: State, l: string)
    ensures Calm(s, Heartbeat(l), HeartbeatS(s, l))
  {
    hide HeartbeatS, Gone;
    HeartbeatFields(s, l);
  }

  lemma LeasingCalm(s: State, step: Step, t: State)
    requires Inv(s) && Next(s, step, t) && Leasing(step) && !Grants(s, step)
    ensures Calm(s, step, t)
  {
    hide MayAdmin, DoAdmin, MayRoutine, DoRoutine, MayTick, DoTick;
    hide Inv, Quiet, Calm, SelectS, CommitS, ClaimFailS, HeartbeatS, ReleaseS, IsPrior, IsOldest, FreshLease, Known;
    match step
    case ClaimSelect(c, key, request, prior, vm) => SelectQuiet(s, c, key, request, prior, vm); QuietCalm(s, step, t);
    case ClaimCommit(c, prior, l) => CommitQuiet(s, c, prior, l); QuietCalm(s, step, t);
    case ClaimFail(c) => ClaimFailQuiet(s, c); QuietCalm(s, step, t);
    case Heartbeat(l) => HeartbeatCalm(s, l);
    case Release(c, l) => ReleaseQuiet(s, c, l); QuietCalm(s, step, t);
  }

  lemma CreatedCalm(s: State, c: CallId, uid: string)
    requires c in s.calls && s.calls[c].Placed?
    ensures Calm(s, ProvCreate(c, uid), ProvCreateS(s, c, uid))
  {
    hide ProvCreateS, Gone;
    ProvCreateFields(s, c, uid);
  }

  lemma ProvisioningCalm(s: State, step: Step, t: State)
    requires Inv(s) && Next(s, step, t) && Routine(step) && !step.DelMark? && !step.DelFail? && !step.DelFinish?
    ensures Calm(s, step, t)
  {
    hide MayAdmin, DoAdmin, MayLease, DoLease, MayTick, DoTick;
    hide Inv, Quiet, Calm, ProvDropS, ProvCreateS, ProvHookS, ProvFailS, ProvReadyS;
    match step
    case ProvCreate(c, uid) => CreatedCalm(s, c, uid);
    case ProvDrop(c) => ProvDropQuiet(s, c); QuietCalm(s, step, t);
    case ProvHook(c) => ProvHookQuiet(s, c); QuietCalm(s, step, t);
    case ProvFail(c) => ProvFailQuiet(s, c); QuietCalm(s, step, t);
    case ProvReady(c) => ProvReadyQuiet(s, c); QuietCalm(s, step, t);
  }

  lemma DeletionCalm(s: State, step: Step, t: State)
    requires Next(s, step, t) && (step.DelMark? || step.DelFail? || step.DelFinish?) && !Buries(s, step)
    ensures Calm(s, step, t)
  {
    hide MayAdmin, DoAdmin, MayLease, DoLease, MayTick, DoTick;
    hide Quiet, Calm, DelMarkS, DelFailS, DelFinishS;
    match step
    case DelMark(c) => DelMarkQuiet(s, c); QuietCalm(s, step, t);
    case DelFail(c) => DelFailQuiet(s, c); QuietCalm(s, step, t);
    case DelFinish(c) => DelFailQuiet(s, c); QuietCalm(s, step, t);
  }

  lemma SweepCalm(s: State, l: string, at: Time)
    requires l in s.leases
    ensures Calm(s, Sweep(l, at), SweepS(s, l))
  {
    hide SweepS, Gone, VmOf;
    SweepFields(s, l);
  }

  lemma TickCalm(s: State, step: Step, t: State)
    requires Next(s, step, t) && Ticking(step) && !step.TickPool?
    ensures Calm(s, step, t)
  {
    hide MayAdmin, DoAdmin, MayLease, DoLease, MayRoutine, DoRoutine;
    hide Quiet, Calm, SweepS, WarnS, DueWarning;
    match step
    case Sweep(l, at) => SweepCalm(s, l, at);
    case Warn(l, _) => WarnQuiet(s, l); QuietCalm(s, step, t);
    case Retry(v) => SilentQuiet(s, t); QuietCalm(s, step, t);
  }

  lemma GrantCalm(s: State, step: Step)
    requires Grants(s, step) && Known(s, s.calls[step.c].key, s.calls[step.c].rec) && step.lease !in s.leases
    ensures Calm(s, step, GrantS(s, step.c, step.lease))
  {
    hide GrantS, Gone, Known;
    GrantFields(s, step.c, step.lease);
  }

  lemma BuriedCalm(s: State, step: Step)
    requires Inv(s) && Buries(s, step)
    ensures Calm(s, step, Buried(s, step.c))
  {
    hide Inv, Buried, Gone;
    BuriedFields(s, step.c);
    BuriedGone(s, step.c);
  }

  lemma SettledCalm(s: State, step: Step, t: State)
    requires Inv(s) && Next(s, step, t) && Provisions(s, step)
    ensures Calm(s, step, Settled(s, step, t))
  {
    hide MayAdmin, DoAdmin, DoLease, MayRoutine, DoRoutine, DoTick;
    hide Inv, Calm, Quiet, GrantS, Buried, Looked, IsPrior;
    if Grants(s, step) {
      HeldFacts(s);
      GrantCalm(s, step);
    } else if Buries(s, step) {
      BuriedCalm(s, step);
    } else {
      LookedQuiet(s, step.key);
      QuietCalm(s, step, Looked(s, step.key));
    }
  }

  /** Every section, in any state of any run. */
  lemma StepCalm(s: State, step: Step, t: State)
    requires Inv(s) && Next(s, step, t)
    ensures Calm(s, step, t)
  {
    hide Inv, Next, Calm, Quiet, Settled, Alive;
    if Provisions(s, step) {
      SettledCalm(s, step, t);
      BatchQuiet(s, step, t);
      CalmThenQuiet(s, step, Settled(s, step, t), t);
    } else if Admin(step) {
      AdminCalm(s, step, t);
    } else if Leasing(step) {
      LeasingCalm(s, step, t);
    } else if step.DelMark? || step.DelFail? || step.DelFinish? {
      DeletionCalm(s, step, t);
    } else if Routine(step) {
      ProvisioningCalm(s, step, t);
    } else {
      TickCalm(s, step, t);
    }
  }

  // ----- Expiries that move back -----

  /**
   * In any reachable state, the expiry of a held Lease moves back across a section if and only if the section is its
   * Heartbeat and the expiry is later than the threshold from now.
   */
  lemma ShortensExactly(s: State, step: Step, t: State, l: string)
    requires Inv(s) && Next(s, step, t) && l in s.leases && l in t.leases
    ensures t.leases[l].expiresAt < s.leases[l].expiresAt <==>
            && step == Heartbeat(l)
            && s.leases[l].pool in s.pools && s.now + s.pools[s.leases[l].pool].spec.threshold < s.leases[l].expiresAt
  {
    hide Inv, HeartbeatS, NewlyGone;
    hide MayAdmin, DoAdmin, MayRoutine, DoRoutine, MayTick, DoTick;
    assert LeasesAfter(s, step, t) by {
      hide Next, LeasesAfter;
      StepCalm(s, step, t);
    }
    HeartbeatFields(s, l);
  }

  // ----- Leases on MicroVMs whose deletion was reported -----

  ghost predicate NoneReported(s: State) {
    forall l | l in s.leases :: !Reported(s.log, s.leases[l].vm)
  }

  /** A claim is granted a MicroVM whose deletion was reported while its hooks ran. */
  ghost predicate GrantsReported(s: State, step: Step) {
    Grants(s, step) && Reported(s.log, s.vms[s.calls[step.c].vm].uid)
  }

  lemma GrantHolds(s: State, step: Step, t: State)
    requires Inv(s) && Next(s, step, t) && Grants(s, step)
    ensures step.lease in t.leases && t.leases[step.lease].vm == s.vms[s.calls[step.c].vm].uid
  {
    hide Inv, GrantS, ProvisionN, IsPrior, FreshLease;
    hide MayAdmin, DoAdmin, MayRoutine, DoRoutine, MayTick, DoTick;
    GrantFields(s, step.c, step.lease);
  }

  lemma GoneUnheld(s: State, u: string)
    requires Inv(s) && Gone(s, u)
    ensures forall l | l in s.leases :: s.leases[l].vm != u
  {
    hide Inv;
    HeldFacts(s);
  }

  lemma NewlyUnheld(s: State, t: State)
    requires Inv(t) && NewlyGone(s, t)
    ensures forall l | l in t.leases && Reported(t.log, t.leases[l].vm) :: Reported(s.log, t.leases[l].vm)
  {
    hide Inv, Gone;
    forall l | l in t.leases && Reported(t.log, t.leases[l].vm) ensures Reported(s.log, t.leases[l].vm) {
      var i :| 0 <= i < |t.log| && ReportsDeletion(t.log[i]) && t.log[i].vm == t.leases[l].vm;
      if i >= |s.log| {
        GoneUnheld(t, t.log[i].vm);
      }
      assert t.log[i] == s.log[i];
    }
  }

  /** A Lease held on a MicroVM whose deletion was reported was so before, or the section granted it. */
  lemma HeldReported(s: State, step: Step, t: State, l: string)
    requires Inv(s) && Next(s, step, t) && l in t.leases && Reported(t.log, t.leases[l].vm)
    ensures || (GrantsReported(s, step) && step.lease == l)
            || (l in s.leases && s.leases[l].vm == t.leases[l].vm && Reported(s.log, s.leases[l].vm))
  {
    hide Inv, Next, Gone, Reported;
    StepInv(s, step, t);
    assert Calm(s, step, t) by {
      hide Calm;
      StepCalm(s, step, t);
    }
    NewlyUnheld(s, t);
    HeartbeatKeepsVm(s, step);
  }

  /**
   * In any reachable state in which no Lease is held on a MicroVM whose deletion was reported, a section brings one about
   * if and only if it grants a claim a MicroVM whose deletion was reported while its hooks ran.
   */
  lemma ReportedExactly(s: State, step: Step, t: State)
    requires Inv(s) && Next(s, step, t) && NoneReported(s)
    ensures NoneReported(t) <==> !GrantsReported(s, step)
  {
    hide Inv, Next, Reported;
    forall l | l in t.leases && Reported(t.log, t.leases[l].vm) ensures GrantsReported(s, step) {
      HeldReported(s, step, t, l);
    }
    StepLog(s, step, t);
    if Grants(s, step) {
      GrantHolds(s, step, t);
      ReportedOn(s.log, t.log, t.leases[step.lease].vm);
    }
  }

  /** No grant is made on a MicroVM that is gone. */
  lemma GoneUngranted(s: State, step: Step)
    requires Inv(s) && ReportsOk(s)
    ensures !GrantsReported(s, step)
  {
    hide PoolsOk, IdsOk, LeasesOk, LedgerOk, PhasesOk, ClaimsOk, ReleasesOk, CallsOk, RequestsOk, OnceOk, HostsOk, AnswersOk, SweptOk, LogOk;
    if Grants(s, step) {
      Worked(s, step.c);
      forall i | 0 <= i < |s.log| && ReportsDeletion(s.log[i]) ensures s.log[i].vm != s.vms[s.calls[step.c].vm].uid {
        assert Gone(s, s.log[i].vm);
      }
    }
  }

  lemma StepLog(s: State, step: Step, t: State)
    requires Inv(s) && Next(s, step, t)
    ensures s.log <= t.log
  {
    hide Inv, Next, LeasesAfter;
    StepCalm(s, step, t);
  }

  lemma HeartbeatKeepsVm(s: State, step: Step)
    ensures step.Heartbeat? ==>
              forall l | l in s.leases && l in HeartbeatS(s, step.lease).leases :: HeartbeatS(s, step.lease).leases[l].vm == s.leases[l].vm
  {
  }

  /** In any run, no Lease is held on a MicroVM whose deletion was reported, for as long as no such grant is made. */
  lemma {:induction false} RunNoneReported(states: seq<State>, steps: seq<Step>, placement: Placement, j: nat)
    requires Run(states, steps) && states[0] == Init(placement) && j < |states|
    requires forall k | 0 <= k < j :: !GrantsReported(states[k], steps[k])
    ensures NoneReported(states[j])
  {
    hide Inv, Next, GrantsReported, Reported;
    if j > 0 {
      assert NextAt(states, steps, j - 1);
      RunInv(states, steps, placement, j - 1);
      RunNoneReported(states, steps, placement, j - 1);
      ReportedExactly(states[j - 1], steps[j - 1], states[j]);
    }
  }
}
